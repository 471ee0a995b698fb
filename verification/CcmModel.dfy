/**
 * Counter with CBC-MAC as RFC 3610 describes it: the blocks that are authenticated (section 2.2),
 * their reading back, and how far they determine what was formatted.
 */
module CcmModel {
  import opened CbcModel

  // A block cipher on blocks of 16 bytes, and the key stream of its counter mode from a counter block
  datatype Keyed = Keyed(block: Bytes -> Bytes, stream: (Bytes, nat) -> bv8)

  ghost predicate KeyedOk(k: Keyed) {
    forall b: Bytes :: |b| == 16 ==> |k.block(b)| == 16
  }

  // Nonce, size of the authentication value, associated data and payload
  datatype Message = Message(nonce: Bytes, m: nat, adata: Bytes, payload: Bytes)

  const WORD := 0x1_0000_0000

  // The length field takes L = 15 - |nonce| bytes; lengths are 32-bit.
  predicate MessageOk(x: Message) {
    && 7 <= |x.nonce| <= 13
    && x.m in [4, 6, 8, 10, 12, 14, 16]
    && |x.adata| < WORD && |x.payload| < WORD
  }

  function LengthBytes(x: Message): (l: nat)
    requires MessageOk(x)
    ensures 2 <= l <= 8
  {
    15 - |x.nonce|
  }

  // ---- numbers in bytes ------------------------------------------------------------------------

  // The byte n, counted up from nothing
  function Byte(n: nat): bv8
    requires n < 256
  {
    if n == 0 then 0 else Byte(n - 1) + 1
  }

  // The lowest byte
  function Low(n: nat): bv8 { Byte(n % 256) }

  // n modulo 256^k, most significant byte first
  function BigEndian(n: nat, k: nat): (s: Bytes)
    ensures |s| == k
  {
    if k == 0 then [] else BigEndian(n / 256, k - 1) + [Low(n)]
  }

  function Value(s: Bytes): nat {
    if s == [] then 0 else 256 * Value(s[..|s| - 1]) + Number(s[|s| - 1])
  }

  function Power(k: nat): (p: nat)
    ensures p > 0
  {
    if k == 0 then 1 else 256 * Power(k - 1)
  }

  function Zeros(n: nat): (s: Bytes)
    ensures |s| == n
  {
    seq(n, i => 0 as bv8)
  }

  function Number(b: bv8): nat { b as nat }

  lemma {:induction false} ByteIs(n: nat)
    requires n < 256
    ensures Number(Byte(n)) == n
  {
    if n > 0 {
      ByteIs(n - 1);
      Next(Byte(n - 1));
    }
  }

  lemma Next(b: bv8)
    requires b != 255
    ensures Number(b + 1) == Number(b) + 1
  {
  }

  lemma LowIs(n: nat)
    ensures Number(Low(n)) == n % 256
  {
    hide Byte, Number;
    ByteIs(n % 256);
  }

  lemma PowerStep(n: nat, k: nat)
    requires k > 0 && n < Power(k)
    ensures n / 256 < Power(k - 1)
  {
  }

  lemma ValueStep(s: Bytes, b: bv8)
    ensures Value(s + [b]) == 256 * Value(s) + Number(b)
  {
    assert (s + [b])[..|s|] == s;
  }

  lemma BigEndianStep(n: nat, k: nat)
    requires k > 0
    ensures BigEndian(n, k) == BigEndian(n / 256, k - 1) + [Low(n)]
  {
  }

  lemma NoBytes(n: nat)
    requires n < Power(0)
    ensures Value(BigEndian(n, 0)) == n
  {
  }

  lemma {:induction false} ReadBack(n: nat, k: nat)
    requires n < Power(k)
    ensures Value(BigEndian(n, k)) == n
  {
    hide *;
    if k == 0 {
      NoBytes(n);
    } else {
      PowerStep(n, k);
      ReadBack(n / 256, k - 1);
      LowIs(n);
      ValueStep(BigEndian(n / 256, k - 1), Low(n));
      BigEndianStep(n, k);
    }
  }

  lemma {:induction false} OfZero(k: nat)
    ensures BigEndian(0, k) == Zeros(k)
  {
    if k > 0 { OfZero(k - 1); }
  }

  // The field cannot tell 256^k from nothing.
  lemma {:induction false} Wraps(k: nat)
    ensures BigEndian(Power(k), k) == BigEndian(0, k)
  {
    if k > 0 {
      assert Power(k) / 256 == Power(k - 1);
      assert Low(Power(k)) == Low(0);
      Wraps(k - 1);
    }
  }

  lemma Widen(n: nat, k: nat)
    requires n < WORD
    ensures BigEndian(n, k + 4) == Zeros(k) + BigEndian(n, 4)
  {
    hide Low, Number;
    Digits(n, k);
    assert n / 256 / 256 / 256 / 256 == 0;
    OfZero(k);
    assert BigEndian(n, k + 4) == Zeros(k) + [Low(n / 256 / 256 / 256), Low(n / 256 / 256), Low(n / 256), Low(n)];
    Digits(n, 0);
  }

  lemma Digits(n: nat, k: nat)
    ensures BigEndian(n, k + 4)
         == BigEndian(n / 256 / 256 / 256 / 256, k) + [Low(n / 256 / 256 / 256), Low(n / 256 / 256), Low(n / 256), Low(n)]
  {
    hide Low, Number;
    var a, b, c := n / 256, n / 256 / 256, n / 256 / 256 / 256;
    assert BigEndian(c, k + 1) == BigEndian(c / 256, k) + [Low(c)];
    assert BigEndian(b, k + 2) == BigEndian(c, k + 1) + [Low(b)];
    assert BigEndian(a, k + 3) == BigEndian(b, k + 2) + [Low(a)];
    assert BigEndian(n, k + 4) == BigEndian(a, k + 3) + [Low(n)];
  }

  lemma Powers()
    ensures Power(2) == 0x1_0000 && Power(3) == 0x100_0000 && Power(4) == WORD
  {
    assert Power(1) == 256;
  }

  lemma {:induction false} PowerUp(k: nat)
    requires k >= 4
    ensures Power(k) >= WORD
  {
    Powers();
    if k > 4 { PowerUp(k - 1); }
  }

  // ---- the formatted string --------------------------------------------------------------------

  function MacField(m: nat): bv8
    requires m in [4, 6, 8, 10, 12, 14, 16]
  {
    ((m - 2) / 2) as bv8
  }

  // 64 * Adata + 8 * M' + L'
  function Flags(adata: bool, m: bv8, l: bv8): bv8 {
    (if adata then 64 else 0) + 8 * m + l
  }

  function FlagsOf(x: Message): bv8
    requires MessageOk(x)
  {
    Flags(x.adata != [], MacField(x.m), (LengthBytes(x) - 1) as bv8)
  }

  function FirstBlock(x: Message): (b: Bytes)
    requires MessageOk(x)
    ensures |b| == 16
  {
    [FlagsOf(x)] + x.nonce + BigEndian(|x.payload|, LengthBytes(x))
  }

  // l(a)
  function LengthPrefix(a: nat): (s: Bytes)
    ensures |s| == if a < 0xff00 then 2 else 6
  {
    if a < 0xff00 then BigEndian(a, 2) else [0xff, 0xfe] + BigEndian(a, 4)
  }

  function Padded(s: Bytes): (r: Bytes)
    ensures |s| <= |r| && r[..|s|] == s
    decreases |s|
  {
    if s == [] then [] else if |s| < 16 then s + Zeros(16 - |s|) else s[..16] + Padded(s[16..])
  }

  function AdataBlocks(a: Bytes): Bytes {
    if a == [] then [] else Padded(LengthPrefix(|a|) + a)
  }

  // B_0 B_1 ... B_n
  function Format(x: Message): Bytes
    requires MessageOk(x)
  {
    FirstBlock(x) + AdataBlocks(x.adata) + Padded(x.payload)
  }

  // The payload fits the length field.
  predicate Fits(x: Message)
    requires MessageOk(x)
  {
    |x.payload| < Power(LengthBytes(x))
  }

  // set_msg_len raises no error.
  predicate Accepted(x: Message)
    requires MessageOk(x)
  {
    LengthBytes(x) >= 4 || |x.payload| <= Power(LengthBytes(x))
  }

  // ---- what the blocks determine ---------------------------------------------------------------

  lemma FlagsRead(a: bool, m: bv8, l: bv8, a': bool, m': bv8, l': bv8)
    requires 1 <= m <= 7 && 1 <= l <= 7 && 1 <= m' <= 7 && 1 <= l' <= 7 && Flags(a, m, l) == Flags(a', m', l')
    ensures a == a' && m == m' && l == l'
  {
  }

  lemma FlagsByOr(a: bool, m: bv8, l: bv8)
    requires 1 <= m <= 7 && 1 <= l <= 7
    ensures l | (8 * m) | (if a then 64 else 0) == Flags(a, m, l)
  {
  }

  lemma Small(n: nat)
    requires 1 <= n <= 7
    ensures 1 <= n as bv8 <= 7 && (n as bv8) as nat == n
  {
  }

  lemma MacFieldIs(m: nat)
    requires m in [4, 6, 8, 10, 12, 14, 16]
    ensures 1 <= MacField(m) <= 7 && 2 * (MacField(m) as nat) + 2 == m
  {
    Small((m - 2) / 2);
  }

  lemma FlagsSame(x: Message, y: Message)
    requires MessageOk(x) && MessageOk(y) && FlagsOf(x) == FlagsOf(y)
    ensures |x.nonce| == |y.nonce| && x.m == y.m && (x.adata == [] <==> y.adata == [])
  {
    hide Flags, MacField;
    MacFieldIs(x.m);
    MacFieldIs(y.m);
    Small(LengthBytes(x) - 1);
    Small(LengthBytes(y) - 1);
    FlagsRead(x.adata != [], MacField(x.m), (LengthBytes(x) - 1) as bv8, y.adata != [], MacField(y.m), (LengthBytes(y) - 1) as bv8);
  }

  // The first block yields everything but the data themselves, and the payload's length modulo 256^L.
  lemma FirstBlockSame(x: Message, y: Message)
    requires MessageOk(x) && MessageOk(y) && FirstBlock(x) == FirstBlock(y)
    ensures x.nonce == y.nonce && x.m == y.m && (x.adata == [] <==> y.adata == [])
    ensures BigEndian(|x.payload|, LengthBytes(x)) == BigEndian(|y.payload|, LengthBytes(x))
  {
    hide FlagsOf, BigEndian;
    assert FirstBlock(x)[0] == FlagsOf(x) && FirstBlock(y)[0] == FlagsOf(y);
    FlagsSame(x, y);
    var n := |x.nonce| + 1;
    assert FirstBlock(x)[1..n] == x.nonce && FirstBlock(y)[1..n] == y.nonce;
    assert FirstBlock(x)[n..] == BigEndian(|x.payload|, LengthBytes(x));
    assert FirstBlock(y)[n..] == BigEndian(|y.payload|, LengthBytes(y));
  }

  lemma TopByte(a: nat)
    requires a < 0xff00
    ensures BigEndian(a, 2) == [Low(a / 256), Low(a)] && Low(a / 256) != 0xff
  {
    hide Low;
    assert BigEndian(a / 256, 1) == [Low(a / 256)];
    LowIs(a / 256);
  }

  // The prefix can be read without knowing where it ends.
  lemma PrefixRead(a: nat, b: nat, s: Bytes, t: Bytes)
    requires a < WORD && b < WORD && LengthPrefix(a) + s <= LengthPrefix(b) + t
    ensures a == b
  {
    hide Low, Number;
    var u, v := LengthPrefix(a) + s, LengthPrefix(b) + t;
    Powers();
    if a < 0xff00 { TopByte(a); ReadBack(a, 2); } else { ReadBack(a, 4); assert u[2..6] == BigEndian(a, 4); }
    if b < 0xff00 { TopByte(b); ReadBack(b, 2); } else { ReadBack(b, 4); assert v[2..6] == BigEndian(b, 4); }
    assert u[0] == v[0];
    if a < 0xff00 {
      assert u[..2] == BigEndian(a, 2) && v[..2] == BigEndian(b, 2);
      assert u[..2] == v[..2];
    } else {
      assert u[2..6] == v[2..6];
    }
  }

  lemma {:induction false} PaddedTail(s: Bytes)
    ensures Padded(s) == s + Padded(s)[|s|..]
  {
  }

  lemma {:induction false} PaddedSizes(s: Bytes, t: Bytes)
    requires |s| == |t|
    ensures |Padded(s)| == |Padded(t)|
    decreases |s|
  {
    if |s| >= 16 { PaddedSizes(s[16..], t[16..]); }
  }

  lemma {:induction false} PaddedLonger(s: Bytes)
    ensures s != [] ==> |Padded(s)| >= 16
  {
  }

  // Behind the first block, a message with associated data begins with their length.
  lemma AfterFirst(x: Message) returns (s: Bytes)
    requires MessageOk(x) && x.adata != []
    ensures |Format(x)| >= 16 && Format(x)[16..] == LengthPrefix(|x.adata|) + s
  {
    hide FirstBlock, LengthPrefix, Padded, MessageOk;
    var a := LengthPrefix(|x.adata|) + x.adata;
    PaddedTail(a);
    s := x.adata + Padded(a)[|a|..] + Padded(x.payload);
  }

  lemma AdataLength(x: Message, y: Message)
    requires MessageOk(x) && MessageOk(y) && Format(x) <= Format(y)
    requires x.adata == [] <==> y.adata == []
    ensures |x.adata| == |y.adata|
  {
    hide Format, LengthPrefix;
    if x.adata != [] {
      var s := AfterFirst(x);
      var t := AfterFirst(y);
      LongEnough(x);
      LongEnough(y);
      assert Format(x)[16..] <= Format(y)[16..];
      PrefixRead(|x.adata|, |y.adata|, s, t);
    }
  }

  lemma LongEnough(x: Message)
    requires MessageOk(x)
    ensures |Format(x)| >= 16
  {
  }

  lemma SizesAgree(x: Message, y: Message)
    requires MessageOk(x) && MessageOk(y) && |x.adata| == |y.adata|
    ensures |AdataBlocks(x.adata)| == |AdataBlocks(y.adata)|
    ensures |x.payload| == |y.payload| ==> |Format(x)| == |Format(y)|
    ensures |x.payload| > 0 == |y.payload| ==> |Format(x)| > |Format(y)|
  {
    hide FirstBlock, LengthPrefix, Padded;
    var a, b := LengthPrefix(|x.adata|) + x.adata, LengthPrefix(|y.adata|) + y.adata;
    PaddedSizes(a, b);
    PaddedLonger(x.payload);
    if |x.payload| == |y.payload| { PaddedSizes(x.payload, y.payload); }
    if y.payload == [] { NothingPadded(); }
  }

  lemma NothingPadded()
    ensures Padded([]) == []
  {
  }

  lemma {:induction false} PaddedSame(s: Bytes, t: Bytes)
    requires |s| == |t| && Padded(s) == Padded(t)
    ensures s == t
  {
    hide Padded;
    PaddedTail(s);
    PaddedTail(t);
    assert s == Padded(s)[..|s|] && t == Padded(t)[..|t|];
  }

  // The associated data, once their length is known
  lemma AdataSame(x: Message, y: Message)
    requires MessageOk(x) && MessageOk(y) && Format(x) <= Format(y) && |x.adata| == |y.adata|
    ensures x.adata == y.adata
  {
    hide FirstBlock, LengthPrefix, Padded;
    SizesAgree(x, y);
    var n := 16 + |AdataBlocks(x.adata)|;
    assert Format(x)[16..n] == AdataBlocks(x.adata) && Format(y)[16..n] == AdataBlocks(y.adata);
    assert Format(x)[16..n] == Format(y)[16..n];
    if x.adata != [] {
      var a, b := LengthPrefix(|x.adata|) + x.adata, LengthPrefix(|y.adata|) + y.adata;
      PaddedSame(a, b);
      assert x.adata == a[|LengthPrefix(|x.adata|)|..] && y.adata == b[|LengthPrefix(|y.adata|)|..];
    }
  }

  lemma PayloadSame(x: Message, y: Message)
    requires MessageOk(x) && MessageOk(y) && Format(x) == Format(y)
    requires |x.adata| == |y.adata| && |x.payload| == |y.payload|
    ensures x.payload == y.payload
  {
    hide FirstBlock, LengthPrefix, Padded;
    SizesAgree(x, y);
    var n := 16 + |AdataBlocks(x.adata)|;
    assert Format(x)[n..] == Padded(x.payload) && Format(y)[n..] == Padded(y.payload);
    PaddedSame(x.payload, y.payload);
  }

  // The length field read back
  lemma LengthRead(x: Message, y: Message)
    requires MessageOk(x) && MessageOk(y) && |x.nonce| == |y.nonce| && Accepted(x) && Accepted(y)
    requires BigEndian(|x.payload|, LengthBytes(x)) == BigEndian(|y.payload|, LengthBytes(x))
    ensures Fits(x) && Fits(y) ==> |x.payload| == |y.payload|
    ensures !Fits(x) && Fits(y) ==> y.payload == []
    ensures !Fits(x) ==> |x.payload| == Power(LengthBytes(x))
    ensures !Fits(y) ==> |y.payload| == Power(LengthBytes(x))
    ensures Fits(x) && !Fits(y) ==> x.payload == []
  {
    hide BigEndian, Value;
    var k := LengthBytes(x);
    if k >= 4 { PowerUp(k); }
    Wraps(k);
    ReadBack(0, k);
    if Fits(x) { ReadBack(|x.payload|, k); }
    if Fits(y) { ReadBack(|y.payload|, k); }
  }

  // Of two messages that are accepted, one is formatted as the beginning of the other only where
  // the longer one just exceeds its length field and the shorter one has no payload.
  lemma PrefixFreeIff(x: Message, y: Message)
    requires MessageOk(x) && MessageOk(y) && Accepted(x) && Accepted(y) && x != y
    ensures Format(x) <= Format(y) <==> !Fits(y) && x == y.(payload := [])
  {
    hide FirstBlock, LengthPrefix, Padded, AdataBlocks, BigEndian, Power;
    if Format(x) <= Format(y) {
      assert FirstBlock(x) == Format(x)[..16] == Format(y)[..16] == FirstBlock(y);
      FirstBlockSame(x, y);
      AdataLength(x, y);
      SizesAgree(x, y);
      LengthRead(x, y);
      AdataSame(x, y);
      if |x.payload| == |y.payload| {
        assert Format(x) == Format(y);
        PayloadSame(x, y);
      }
    }
    if !Fits(y) && x == y.(payload := []) { TooLong(y); }
  }

  // A payload of exactly 256^L bytes passes for an empty one in the first block.
  lemma TooLong(y: Message)
    requires MessageOk(y) && Accepted(y) && !Fits(y)
    ensures LengthBytes(y) < 4 && |y.payload| == Power(LengthBytes(y))
    ensures Format(y.(payload := [])) < Format(y)
  {
    hide LengthPrefix, Padded, AdataBlocks, BigEndian;
    var k := LengthBytes(y);
    if k >= 4 { PowerUp(k); }
    Wraps(k);
    NothingPadded();
    PaddedLonger(y.payload);
    assert FirstBlock(y.(payload := [])) == FirstBlock(y);
  }

  // Within the length field the formatting is injective and prefix-free.
  lemma PrefixFree(x: Message, y: Message)
    requires MessageOk(x) && MessageOk(y) && Fits(x) && Fits(y)
    ensures Format(x) <= Format(y) <==> x == y
  {
    hide Format, Power;
    if x != y {
      PrefixFreeIff(x, y);
    }
  }
}
