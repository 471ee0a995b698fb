/**
 * The running CBC-MAC of the CCM template over memory in pieces.
 */
module CcmMac {
  import opened CbcModel
  import opened CcmModel

  // ---- the specification -----------------------------------------------------------------------

  // The chaining value after the whole blocks of s
  function Mac(k: Keyed, x: Bytes, s: Bytes): (r: Bytes)
    requires KeyedOk(k) && |x| == 16
    ensures |r| == 16
    decreases |s|
  {
    if |s| < 16 then x else Mac(k, k.block(Xor(x, s[..16])), s[16..])
  }

  // The bytes that do not fill a block yet
  function Left(s: Bytes): (r: Bytes)
    ensures |r| < 16
    decreases |s|
  {
    if |s| < 16 then s else Left(s[16..])
  }

  // Bytes that come in two pieces are taken as if they came in one.
  lemma {:induction false} MacConcat(k: Keyed, x: Bytes, s: Bytes, t: Bytes)
    requires KeyedOk(k) && |x| == 16
    ensures Mac(k, x, s + t) == Mac(k, Mac(k, x, s), Left(s) + t)
    ensures Left(s + t) == Left(Left(s) + t)
    decreases |s|
  {
    if |s| >= 16 {
      hide Xor;
      assert (s + t)[..16] == s[..16] && (s + t)[16..] == s[16..] + t;
      MacConcat(k, k.block(Xor(x, s[..16])), s[16..], t);
    }
  }

  lemma {:induction false} MacPadded(k: Keyed, x: Bytes, s: Bytes)
    requires KeyedOk(k) && |x| == 16
    ensures Mac(k, x, Padded(s)) == if Left(s) == [] then Mac(k, x, s) else Mac(k, Mac(k, x, s), Left(s) + Zeros(16 - |Left(s)|))
    ensures Left(Padded(s)) == []
    decreases |s|
  {
    if |s| >= 16 {
      hide Xor;
      assert Padded(s)[..16] == s[..16] && Padded(s)[16..] == Padded(s[16..]);
      MacPadded(k, k.block(Xor(x, s[..16])), s[16..]);
    }
  }

  lemma MacBlock(k: Keyed, x: Bytes, b: Bytes)
    requires KeyedOk(k) && |x| == 16 == |b|
    ensures Mac(k, x, b) == k.block(Xor(x, b)) && Left(b) == []
  {
    assert b[..16] == b && b[16..] == [];
  }

  lemma Short(k: Keyed, x: Bytes, s: Bytes)
    requires KeyedOk(k) && |x| == 16 && |s| < 16
    ensures Mac(k, x, s) == x && Left(s) == s
  {
  }

  // A first block in front
  lemma BlockThen(k: Keyed, x: Bytes, b: Bytes, s: Bytes)
    requires KeyedOk(k) && |x| == 16 == |b|
    ensures Mac(k, x, b + s) == Mac(k, k.block(Xor(x, b)), s) && Left(b + s) == Left(s)
  {
    assert (b + s)[..16] == b && (b + s)[16..] == s;
  }

  lemma {:induction false} XorZeros(b: Bytes)
    requires |b| == 16
    ensures Xor(Zeros(16), b) == b
  {
    forall i | 0 <= i < 16 ensures Xor(Zeros(16), b)[i] == b[i] { ZeroXor(b[i]); }
  }

  lemma ZeroXor(b: bv8)
    ensures 0 ^ b == b
  {
  }

  // ---- scatterlists ----------------------------------------------------------------------------

  const PAGE_SIZE := 4096

  // length bytes at an offset into the memory of consecutive pages
  datatype Entry = Entry(memory: Bytes, offset: nat, length: nat)

  predicate EntryOk(e: Entry) {
    0 < e.length && e.offset + e.length <= |e.memory|
  }

  predicate ListOk(sg: seq<Entry>) {
    forall i :: 0 <= i < |sg| ==> EntryOk(sg[i])
  }

  // The bytes a scatterlist describes
  function Content(sg: seq<Entry>): Bytes
    requires ListOk(sg)
  {
    if sg == [] then [] else sg[0].memory[sg[0].offset..sg[0].offset + sg[0].length] + Content(sg[1..])
  }

  // The bytes from a walk's position on: offset is its place in the current entry's pages.
  function Ahead(sg: seq<Entry>, i: nat, offset: nat): Bytes
    requires ListOk(sg) && i < |sg| && sg[i].offset <= offset <= sg[i].offset + sg[i].length
  {
    sg[i].memory[offset..sg[i].offset + sg[i].length] + Content(sg[i + 1..])
  }

  lemma AheadStart(sg: seq<Entry>, i: nat)
    requires ListOk(sg) && i < |sg|
    ensures Ahead(sg, i, sg[i].offset) == Content(sg[i..])
  {
    assert sg[i..][1..] == sg[i + 1..];
  }

  // At the end of an entry the walk may as well stand at the beginning of the next.
  lemma AheadNext(sg: seq<Entry>, i: nat)
    requires ListOk(sg) && i < |sg|
    ensures Ahead(sg, i, sg[i].offset + sg[i].length) == Content(sg[i + 1..])
  {
  }

  lemma AheadStep(sg: seq<Entry>, i: nat, offset: nat, n: nat)
    requires ListOk(sg) && i < |sg| && sg[i].offset <= offset && offset + n <= sg[i].offset + sg[i].length
    ensures Ahead(sg, i, offset) == sg[i].memory[offset..offset + n] + Ahead(sg, i, offset + n)
  {
    var e := sg[i].offset + sg[i].length;
    assert sg[i].memory[offset..e] == sg[i].memory[offset..offset + n] + sg[i].memory[offset + n..e];
  }

  function Min(a: nat, b: nat): nat { if a < b then a else b }

  // scatterwalk_clamp: no further than the entry, the page and what is asked for
  function Clamp(e: Entry, offset: nat, n: nat): (r: nat)
    requires EntryOk(e) && e.offset <= offset <= e.offset + e.length
    ensures r <= n && offset + r <= e.offset + e.length
    ensures r == 0 <==> n == 0 || offset == e.offset + e.length
    ensures 0 < r < n ==> offset + r == e.offset + e.length || (offset + r) % PAGE_SIZE == 0
  {
    Min(n, Min(e.offset + e.length - offset, PAGE_SIZE - offset % PAGE_SIZE))
  }

  // done of the bytes in whole are behind the walk and rest of them ahead of it.
  predicate Walking(sg: seq<Entry>, i: nat, offset: nat, rest: nat, done: Bytes, whole: Bytes) {
    && ListOk(sg) && i < |sg| && sg[i].offset <= offset <= sg[i].offset + sg[i].length
    && rest <= |Ahead(sg, i, offset)|
    && done + Ahead(sg, i, offset)[..rest] == whole
  }

  lemma WalkStart(sg: seq<Entry>, len: nat)
    requires ListOk(sg) && sg != [] && len <= |Content(sg)|
    ensures EntryOk(sg[0]) && Walking(sg, 0, sg[0].offset, len, [], Content(sg)[..len])
  {
    AheadStart(sg, 0);
    assert sg[0..] == sg;
  }

  lemma SomethingLeft(sg: seq<Entry>, i: nat)
    requires ListOk(sg) && i <= |sg| && Content(sg[i..]) != []
    ensures i < |sg|
  {
  }

  predicate AtPageEnd(offset: nat) {
    offset % PAGE_SIZE == 0
  }

  // While bytes are asked for there is an entry ahead that has some.
  lemma WalkFacts(sg: seq<Entry>, i: nat, offset: nat, rest: nat, done: Bytes, whole: Bytes)
    requires rest > 0 && Walking(sg, i, offset, rest, done, whole)
    ensures i < |sg| && EntryOk(sg[i]) && sg[i].offset <= offset <= sg[i].offset + sg[i].length <= |sg[i].memory|
    ensures offset == sg[i].offset + sg[i].length ==> i + 1 < |sg| && Walking(sg, i + 1, sg[i + 1].offset, rest, done, whole)
    ensures sg[i].length > 0
  {
    if offset == sg[i].offset + sg[i].length {
      AheadNext(sg, i);
      SomethingLeft(sg, i + 1);
      AheadStart(sg, i + 1);
    }
  }

  lemma WalkTake(sg: seq<Entry>, i: nat, offset: nat, rest: nat, n: nat, done: Bytes, whole: Bytes)
    requires Walking(sg, i, offset, rest, done, whole) && n <= rest && offset + n <= sg[i].offset + sg[i].length <= |sg[i].memory|
    ensures Walking(sg, i, offset + n, rest - n, done + sg[i].memory[offset..offset + n], whole)
  {
    AheadStep(sg, i, offset, n);
    var f, a := sg[i].memory[offset..offset + n], Ahead(sg, i, offset + n);
    assert (f + a)[..rest] == f + a[..rest - n];
    Associate(done, f, a[..rest - n]);
  }

  lemma WalkEnd(sg: seq<Entry>, i: nat, offset: nat, done: Bytes, whole: Bytes)
    requires Walking(sg, i, offset, 0, done, whole)
    ensures done == whole
  {
  }

  // ---- the request's buffers -------------------------------------------------------------------

  class Request {
    const odata: array<bv8>
    const idata: array<bv8>
    const authTag: array<bv8>
    var ilen: nat

    constructor ()
      ensures Valid() && fresh(odata) && fresh(idata) && fresh(authTag)
    {
      odata, idata, authTag := new bv8[16], new bv8[16], new bv8[16];
      ilen := 0;
    }

    ghost predicate Valid()
      reads `ilen
    {
      odata.Length == 16 == idata.Length == authTag.Length && odata != idata && odata != authTag && idata != authTag && ilen < 16
    }

    // What waits for a whole block
    ghost function Pending(): Bytes
      requires Valid()
      reads `ilen, idata
    {
      idata[..ilen]
    }

    // crypto_xor(odata, b, 16) and crypto_cipher_encrypt_one(tfm, odata, odata)
    method Absorb(k: Keyed, b: Bytes)
      requires Valid() && KeyedOk(k) && |b| == 16
      modifies odata
      ensures odata[..] == k.block(Xor(old(odata[..]), b))
    {
      var x := k.block(Xor(odata[..], b));
      forall i | 0 <= i < 16 { odata[i] := x[i]; }
    }

    // memcpy(idata + ilen, data, |data|)
    method Store(data: Bytes)
      requires Valid() && ilen + |data| <= 16
      modifies idata
      ensures idata[..ilen + |data|] == old(Pending()) + data
    {
      forall i | 0 <= i < |data| { idata[ilen + i] := data[i]; }
    }

    method ComputeMac(k: Keyed, data: Bytes)
      requires Valid() && KeyedOk(k)
      modifies odata, idata, `ilen
      ensures Valid()
      ensures odata[..] == Mac(k, old(odata[..]), old(Pending()) + data)
      ensures Pending() == Left(old(Pending()) + data)
    {
      hide Mac, Left, Xor;
      ghost var x, p := odata[..], Pending();
      var getlen := 16 - ilen;
      var rest := data;
      if |data| >= getlen {
        Store(data[..getlen]);
        assert idata[..] == p + data[..getlen];
        Absorb(k, idata[..]);
        rest := data[getlen..];
        ilen := 0;
        assert p + data == (p + data[..getlen]) + rest && Pending() + rest == rest;
        BlockThen(k, x, p + data[..getlen], rest);
      }
      rest := Blocks(k, rest);
      if rest != [] {
        Store(rest);
        ilen := ilen + |rest|;
      }
    }

    // The loop over whole blocks: none of them while something is pending
    method Blocks(k: Keyed, data: Bytes) returns (rest: Bytes)
      requires Valid() && KeyedOk(k) && (ilen == 0 || ilen + |data| < 16)
      modifies odata
      ensures odata[..] == Mac(k, old(odata[..]), Pending() + data)
      ensures Pending() + rest == Left(Pending() + data) && ilen + |rest| < 16
    {
      hide Mac, Left, Xor;
      ghost var x := odata[..];
      rest := data;
      while |rest| >= 16
        invariant |rest| <= |data| && (ilen == 0 || rest == data)
        invariant Mac(k, odata[..], Pending() + rest) == Mac(k, x, Pending() + data)
        invariant Left(Pending() + rest) == Left(Pending() + data)
      {
        assert Pending() + rest == rest == rest[..16] + rest[16..];
        BlockThen(k, odata[..], rest[..16], rest[16..]);
        Absorb(k, rest[..16]);
        rest := rest[16..];
        assert Pending() + rest == rest;
      }
      Short(k, odata[..], Pending() + rest);
    }

    // Every cut of the list into entries and pages gives the code of its bytes, padded with zeros.
    method GetDataToCompute(k: Keyed, sg: seq<Entry>, len: nat)
      requires Valid() && KeyedOk(k) && ListOk(sg) && sg != [] && len <= |Content(sg)|
      modifies odata, idata, `ilen
      ensures Valid() && ilen == 0
      ensures odata[..] == Mac(k, old(odata[..]), Padded(old(Pending()) + Content(sg)[..len]))
    {
      hide Mac, Left, Padded, Content, ListOk, Xor, KeyedOk;
      ghost var x, p := odata[..], Pending();
      WalkList(k, sg, len);
      ghost var s := p + Content(sg)[..len];
      MacPadded(k, x, s);
      if ilen != 0 {
        Store(Zeros(16 - ilen));
        assert idata[..] == Left(s) + Zeros(16 - |Left(s)|);
        MacBlock(k, odata[..], idata[..]);
        Absorb(k, idata[..]);
        ilen := 0;
      }
    }

    // One more piece of a message of which s has been taken
    method Piece(k: Keyed, data: Bytes, ghost x: Bytes, ghost s: Bytes)
      requires Valid() && KeyedOk(k) && |x| == 16 && odata[..] == Mac(k, x, s) && Pending() == Left(s)
      modifies odata, idata, `ilen
      ensures Valid() && odata[..] == Mac(k, x, s + data) && Pending() == Left(s + data)
    {
      hide *;
      MacConcat(k, x, s, data);
      ComputeMac(k, data);
    }

    method WalkList(k: Keyed, sg: seq<Entry>, len: nat)
      requires Valid() && KeyedOk(k) && ListOk(sg) && sg != [] && len <= |Content(sg)|
      modifies odata, idata, `ilen
      ensures Valid()
      ensures odata[..] == Mac(k, old(odata[..]), old(Pending()) + Content(sg)[..len])
      ensures Pending() == Left(old(Pending()) + Content(sg)[..len])
    {
      hide *;
      ghost var x, p := odata[..], Pending();
      var i: nat, offset: nat, rest: nat := 0, sg[0].offset, len;
      ghost var done: Bytes := [];
      StartAgain(k, x, p);
      WalkStart(sg, len);
      while rest > 0
        invariant Valid() && Walking(sg, i, offset, rest, done, Content(sg)[..len])
        invariant odata[..] == Mac(k, x, p + done) && Pending() == Left(p + done)
      {
        WalkFacts(sg, i, offset, rest, done, Content(sg)[..len]);
        var n := Clamp(sg[i], offset, rest);
        if n == 0 {
          i := i + 1;
          offset := sg[i].offset;
          WalkFacts(sg, i, offset, rest, done, Content(sg)[..len]);
          n := Clamp(sg[i], offset, rest);
        }
        var data := sg[i].memory[offset..offset + n];
        Piece(k, data, x, p + done);
        Associate(p, done, data);
        WalkTake(sg, i, offset, rest, n, done, Content(sg)[..len]);
        done := done + data;
        rest := rest - n;
        offset := offset + n;
        if AtPageEnd(offset) && rest > 0 && offset >= sg[i].offset + sg[i].length {
          WalkFacts(sg, i, offset, rest, done, Content(sg)[..len]);
          i := i + 1;
          offset := sg[i].offset;
        }
      }
      WalkEnd(sg, i, offset, done, Content(sg)[..len]);
    }

    lemma StartAgain(k: Keyed, x: Bytes, p: Bytes)
      requires Valid() && KeyedOk(k) && x == odata[..] && p == Pending()
      ensures |x| == 16 && Mac(k, x, p + []) == x && Left(p + []) == p
    {
      assert p + [] == p;
      Short(k, x, p);
    }
  }
}
