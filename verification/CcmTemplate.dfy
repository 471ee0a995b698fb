/**
 * The CCM template: formatting the first block in place, authentication, encryption and decryption.
 */
module CcmTemplate {
  import opened CbcModel
  import opened CcmModel
  import opened CcmMac

  datatype Error = Einval | Eoverflow | Ebadmsg
  datatype Result<T> = Ok(value: T) | Err(error: Error)

  // ---- the specification: sections 2.2 to 2.5 of RFC 3610 --------------------------------------

  // iv[0] holds L - 1; the nonce follows.
  predicate IvOk(iv: Bytes) {
    |iv| == 16 && 1 <= iv[0] <= 7
  }

  function NonceEnd(iv: Bytes): (n: nat)
    requires IvOk(iv)
    ensures 8 <= n <= 14
  {
    15 - iv[0] as nat
  }

  function MessageOf(iv: Bytes, m: nat, adata: Bytes, payload: Bytes): Message
    requires IvOk(iv)
  {
    Message(iv[1..NonceEnd(iv)], m, adata, payload)
  }

  // A_0
  function CounterBlock(iv: Bytes): Bytes
    requires IvOk(iv)
  {
    iv[..NonceEnd(iv)] + Zeros(16 - NonceEnd(iv))
  }

  // The key stream S_0 S_1 ... added from byte o on
  function Crypt(k: Keyed, counter: Bytes, o: nat, data: Bytes): (r: Bytes)
    ensures |r| == |data|
  {
    seq(|data|, i requires 0 <= i < |data| => data[i] ^ k.stream(counter, o + i))
  }

  function Tag(k: Keyed, x: Message): Bytes
    requires KeyedOk(k) && MessageOk(x)
  {
    Mac(k, Zeros(16), Format(x))[..x.m]
  }

  function Seal(k: Keyed, iv: Bytes, m: nat, adata: Bytes, p: Bytes): Result<Bytes>
    requires KeyedOk(k) && (IvOk(iv) ==> MessageOk(MessageOf(iv, m, adata, p)))
  {
    if !IvOk(iv) then Err(Einval)
    else
      var x := MessageOf(iv, m, adata, p);
      if !Accepted(x) then Err(Eoverflow)
      else Ok(Crypt(k, CounterBlock(iv), 16, p) + Crypt(k, CounterBlock(iv), 0, Tag(k, x)))
  }

  function Open(k: Keyed, iv: Bytes, m: nat, adata: Bytes, c: Bytes): Result<Bytes>
    requires KeyedOk(k) && (IvOk(iv) ==> MessageOk(MessageOf(iv, m, adata, c)))
  {
    if |c| < m || !IvOk(iv) then Err(Einval)
    else
      var p := Crypt(k, CounterBlock(iv), 16, c[..|c| - m]);
      var x := MessageOf(iv, m, adata, p);
      if !Accepted(x) then Err(Eoverflow)
      else if Crypt(k, CounterBlock(iv), 0, c[|c| - m..]) != Tag(k, x) then Err(Ebadmsg)
      else Ok(p)
  }

  lemma CryptTwice(k: Keyed, counter: Bytes, o: nat, data: Bytes)
    ensures Crypt(k, counter, o, Crypt(k, counter, o, data)) == data
  {
    forall i | 0 <= i < |data| ensures Crypt(k, counter, o, Crypt(k, counter, o, data))[i] == data[i] {
      XorBack(data[i], k.stream(counter, o + i));
    }
  }

  lemma XorBack(a: bv8, b: bv8)
    ensures (a ^ b) ^ b == a
  {
  }

  lemma CryptConcat(k: Keyed, counter: Bytes, o: nat, a: Bytes, b: Bytes)
    ensures Crypt(k, counter, o, a + b) == Crypt(k, counter, o, a) + Crypt(k, counter, o + |a|, b)
  {
  }

  lemma CryptTake(k: Keyed, counter: Bytes, o: nat, a: Bytes, n: nat)
    requires n <= |a|
    ensures Crypt(k, counter, o, a)[..n] == Crypt(k, counter, o, a[..n])
  {
  }

  // What opens to p is exactly what p is sealed as.
  lemma OpensIff(k: Keyed, iv: Bytes, m: nat, adata: Bytes, p: Bytes, c: Bytes)
    requires KeyedOk(k) && IvOk(iv) && MessageOk(MessageOf(iv, m, adata, p)) && MessageOk(MessageOf(iv, m, adata, c))
    ensures Open(k, iv, m, adata, c) == Ok(p) <==> Seal(k, iv, m, adata, p) == Ok(c)
  {
    hide Mac, Format, Crypt, CounterBlock;
    var x, b := MessageOf(iv, m, adata, p), CounterBlock(iv);
    var t := Crypt(k, b, 0, Tag(k, x));
    CryptTwice(k, b, 16, p);
    CryptTwice(k, b, 0, Tag(k, x));
    if |c| >= m {
      var n := |c| - m;
      CryptTwice(k, b, 16, c[..n]);
      CryptTwice(k, b, 0, c[n..]);
      assert c == c[..n] + c[n..];
      assert c == Crypt(k, b, 16, p) + t ==> c[..n] == Crypt(k, b, 16, p) && c[n..] == t;
    }
  }

  // ---- formatting in place ---------------------------------------------------------------------

  lemma {:induction false} LowBytes(n: nat, k: nat, c: nat)
    requires c <= k
    ensures BigEndian(n, k)[k - c..] == BigEndian(n, c)
  {
    if c > 0 {
      hide Low;
      LowBytes(n / 256, k - 1, c - 1);
      assert BigEndian(n, k)[k - c..] == BigEndian(n / 256, k - 1)[k - c..] + [Low(n)];
    }
  }

  // memset(block, 0, n)
  method Clear(block: array<bv8>, o: nat, n: nat)
    requires o + n <= block.Length
    modifies block
    ensures block[..] == Splice(old(block[..]), o, Zeros(n))
  {
    forall i | o <= i < o + n { block[i] := 0; }
    assert block[..] == Splice(old(block[..]), o, Zeros(n));
  }

  // memcpy(block + o, data, |data|)
  method Write(block: array<bv8>, o: nat, data: Bytes)
    requires o + |data| <= block.Length
    modifies block
    ensures block[..] == Splice(old(block[..]), o, data)
  {
    forall i | 0 <= i < |data| { block[o + i] := data[i]; }
    assert block[..] == Splice(old(block[..]), o, data);
  }

  // Data over the end of a stretch that was cleared
  lemma EndOfCleared(s: Bytes, o: nat, n: nat, data: Bytes)
    requires |data| <= n && o + n <= |s|
    ensures Splice(Splice(s, o, Zeros(n)), o + n - |data|, data) == Splice(s, o, Zeros(n - |data|) + data)
  {
    assert Zeros(n) == Zeros(n - |data|) + Zeros(|data|);
  }

  // The length in the last csize bytes, and an error for most lengths that do not fit
  method SetMsgLen(block: array<bv8>, o: nat, msglen: nat, csize: nat) returns (ok: bool)
    requires o + csize <= block.Length && 2 <= csize && msglen < WORD
    modifies block
    ensures ok <==> csize >= 4 || msglen <= Power(csize)
    ensures ok ==> block[..] == Splice(old(block[..]), o, BigEndian(msglen, csize))
  {
    hide *;
    ghost var was := block[..];
    Clear(block, o, csize);
    var c := 4;
    if csize < 4 {
      if msglen > Power(csize) { return false; }
      c := csize;
    }
    var data := BigEndian(msglen, 4)[4 - c..];
    LowBytes(msglen, 4, c);
    FieldBytes(msglen, csize, c);
    EndOfCleared(was, o, csize, data);
    Write(block, o + csize - c, data);
    ok := true;
  }

  // The field as zeros and at most four bytes
  lemma FieldBytes(msglen: nat, csize: nat, c: nat)
    requires msglen < WORD && c == if csize < 4 then csize else 4
    ensures BigEndian(msglen, csize) == Zeros(csize - c) + BigEndian(msglen, c)
  {
    hide BigEndian;
    if csize >= 4 { Widen(msglen, csize - 4); } else { assert Zeros(0) == []; }
  }

  lemma FieldOfIv(b: bv8)
    requires 1 <= b <= 7
    ensures 1 <= b as nat <= 7 && (b as nat) as bv8 == b
  {
  }

  // iv with flags instead of its first byte and the length instead of its last ones
  lemma FirstBlockIs(x: Message, iv: Bytes, flags: bv8, s: Bytes)
    requires IvOk(iv) && MessageOk(x) && x.nonce == iv[1..NonceEnd(iv)] && |s| == 16 && s == iv[0 := flags]
    requires flags == iv[0] | (8 * MacField(x.m)) | (if x.adata != [] then 64 else 0)
    ensures LengthBytes(x) == 16 - NonceEnd(iv)
    ensures Splice(s, NonceEnd(iv), BigEndian(|x.payload|, LengthBytes(x))) == FirstBlock(x)
  {
    hide BigEndian, MacField, Flags;
    FieldOfIv(iv[0]);
    MacFieldIs(x.m);
    FlagsByOr(x.adata != [], MacField(x.m), iv[0]);
    assert s[..NonceEnd(iv)] == [flags] + x.nonce;
  }

  // The control bits over a copy of iv
  method SetFlags(info: array<bv8>, iv: array<bv8>, m: nat, assoclen: nat) returns (flags: bv8)
    requires info.Length == 16 == iv.Length && info != iv && m in [4, 6, 8, 10, 12, 14, 16]
    modifies info
    ensures flags == iv[0] | (8 * MacField(m)) | (if assoclen != 0 then 64 else 0)
    ensures info[..] == iv[..][0 := flags]
  {
    hide MacField;
    forall i | 0 <= i < 16 { info[i] := iv[i]; }
    info[0] := info[0] | (8 * MacField(m));
    NoFlag(info[0]);
    if assoclen != 0 { info[0] := info[0] | 64; }
    flags := info[0];
  }

  method FormatInput(info: array<bv8>, iv: array<bv8>, m: nat, assoclen: nat, cryptlen: nat, ghost x: Message) returns (ok: bool)
    requires info.Length == 16 == iv.Length && info != iv && IvOk(iv[..]) && MessageOk(x)
    requires x.nonce == iv[..][1..NonceEnd(iv[..])] && x.m == m && |x.adata| == assoclen && |x.payload| == cryptlen
    modifies info
    ensures ok <==> Accepted(x)
    ensures ok ==> info[..] == FirstBlock(x)
  {
    hide FirstBlock, MacField, BigEndian, Power, Splice;
    var l := iv[0] as nat + 1;
    var flags := SetFlags(info, iv, m, assoclen);
    FirstBlockIs(x, iv[..], flags, info[..]);
    ok := SetMsgLen(info, 16 - l, cryptlen, l);
  }

  lemma NoFlag(b: bv8)
    ensures b | 0 == b
  {
  }

  // l(a) into the block, and its length
  method FormatAdata(adata: array<bv8>, a: nat) returns (len: nat)
    requires adata.Length == 16 && a < WORD
    modifies adata
    ensures len in [2, 6] && adata[..len] == LengthPrefix(a)
  {
    var p := BigEndian(a, 2);
    if a < 0xff00 {
      adata[0], adata[1] := p[0], p[1];
      len := 2;
    } else {
      var q := BigEndian(a, 4);
      adata[0], adata[1] := 0xff, 0xfe;
      forall i | 0 <= i < 4 { adata[2 + i] := q[i]; }
      len := 6;
    }
  }

  // ---- authentication --------------------------------------------------------------------------

  // The code of a formatted message, computed part by part
  lemma MacOfFormat(k: Keyed, x: Message)
    requires KeyedOk(k) && MessageOk(x)
    ensures |k.block(FirstBlock(x))| == 16
    ensures Mac(k, Zeros(16), Format(x)) == Mac(k, Mac(k, k.block(FirstBlock(x)), AdataBlocks(x.adata)), Padded(x.payload))
  {
    hide Mac, Left, FirstBlock, Padded, LengthPrefix, Xor;
    var b, a, p := FirstBlock(x), AdataBlocks(x.adata), Padded(x.payload);
    XorZeros(b);
    Associate(b, a, p);
    BlockThen(k, Zeros(16), b, a + p);
    MacConcat(k, k.block(b), a, p);
    if a == [] { Short(k, k.block(b), a); } else { MacPadded(k, k.block(b), LengthPrefix(|x.adata|) + x.adata); }
    assert Left(a) == [] && [] + p == p;
  }

  lemma NothingMac(k: Keyed, x: Bytes)
    requires KeyedOk(k) && |x| == 16
    ensures Mac(k, x, AdataBlocks([])) == x
  {
  }

  predicate SourceOk(sg: seq<Entry>, len: nat) {
    ListOk(sg) && len <= |Content(sg)| && len < WORD
  }

  function First(sg: seq<Entry>, len: nat): (s: Bytes)
    requires SourceOk(sg, len)
    ensures |s| == len
  {
    Content(sg)[..len]
  }

  method Auth(k: Keyed, req: Request, iv: array<bv8>, m: nat, assoc: seq<Entry>, assoclen: nat, plain: seq<Entry>, cryptlen: nat, ghost x: Message)
    returns (ok: bool)
    requires req.Valid() && KeyedOk(k) && iv.Length == 16 && iv != req.odata && iv != req.idata && IvOk(iv[..])
    requires SourceOk(assoc, assoclen) && (assoclen > 0 ==> assoc != []) && SourceOk(plain, cryptlen) && plain != []
    requires MessageOk(x) && x == MessageOf(iv[..], m, First(assoc, assoclen), First(plain, cryptlen))
    modifies req.odata, req.idata, req`ilen
    ensures req.Valid()
    ensures ok <==> Accepted(x)
    ensures ok ==> req.odata[..] == Mac(k, Zeros(16), Format(x))
  {
    hide Mac, Format, FirstBlock, Content, ListOk, KeyedOk, Padded, LengthPrefix, MessageOk, Accepted;
    ok := FormatInput(req.odata, iv, m, assoclen, cryptlen, x);
    if ok {
      MacOfFormat(k, x);
      EncryptOne(k, req.odata);
      if assoclen > 0 {
        req.ilen := FormatAdata(req.idata, assoclen);
        req.GetDataToCompute(k, assoc, assoclen);
      } else {
        NothingMac(k, req.odata[..]);
        req.ilen := 0;
      }
      assert req.odata[..] == Mac(k, k.block(FirstBlock(x)), AdataBlocks(x.adata));
      assert req.Pending() == [] && [] + Content(plain)[..cryptlen] == x.payload;
      req.GetDataToCompute(k, plain, cryptlen);
    }
  }

  method EncryptOne(k: Keyed, b: array<bv8>)
    requires b.Length == 16 && KeyedOk(k)
    modifies b
    ensures b[..] == k.block(old(b[..]))
  {
    var y := k.block(b[..]);
    forall i | 0 <= i < 16 { b[i] := y[i]; }
    assert b[..] == y;
  }
}
