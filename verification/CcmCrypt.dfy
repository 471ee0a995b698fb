/**
 * Encryption and decryption of the CCM template over scatterlists. The destination may be the
 * source: all that is read of the source is read before the destination is written.
 */
module CcmCrypt {
  import opened CbcModel
  import opened CcmModel
  import opened CcmMac
  import opened CcmTemplate

  datatype Status = Done | Failed(error: Error)

  // ---- writing to a scatterlist ----------------------------------------------------------------

  // b over the bytes of one entry from o on
  function Put(e: Entry, o: nat, b: Bytes): (r: Entry)
    requires EntryOk(e) && o + |b| <= e.length
    ensures EntryOk(r) && r.length == e.length
  {
    e.(memory := Splice(e.memory, e.offset + o, b))
  }

  // What of b goes into an entry from o on
  function Room(e: Entry, o: nat, b: Bytes): (n: nat)
    requires o < e.length
    ensures n <= |b| && o + n <= e.length && (n == |b| || o + n == e.length)
  {
    Min(|b|, e.length - o)
  }

  // b over the bytes from o on
  function WriteAt(sg: seq<Entry>, o: nat, b: Bytes): (r: seq<Entry>)
    requires ListOk(sg)
    ensures |r| == |sg|
  {
    if sg == [] || b == [] then sg
    else if o >= sg[0].length then [sg[0]] + WriteAt(sg[1..], o - sg[0].length, b)
    else
      var n := Room(sg[0], o, b);
      [Put(sg[0], o, b[..n])] + WriteAt(sg[1..], 0, b[n..])
  }

  // The bytes of one entry
  function Part(e: Entry): (b: Bytes)
    requires EntryOk(e)
    ensures |b| == e.length
  {
    e.memory[e.offset..e.offset + e.length]
  }

  lemma ContentFirst(e: Entry, sg: seq<Entry>)
    requires EntryOk(e) && ListOk(sg)
    ensures ListOk([e] + sg) && Content([e] + sg) == Part(e) + Content(sg)
  {
    assert ([e] + sg)[1..] == sg;
  }

  lemma ContentSplit(sg: seq<Entry>)
    requires ListOk(sg) && sg != []
    ensures EntryOk(sg[0]) && 0 < sg[0].length && ListOk(sg[1..]) && Content(sg) == Part(sg[0]) + Content(sg[1..])
  {
  }

  lemma SpliceLater(a: Bytes, s: Bytes, o: nat, b: Bytes)
    requires |a| <= o && o + |b| <= |a| + |s|
    ensures Splice(a + s, o, b) == a + Splice(s, o - |a|, b)
  {
  }

  lemma SpliceAcross(a: Bytes, s: Bytes, o: nat, b: Bytes, n: nat)
    requires n <= |b| && o + n <= |a| && (n == |b| || o + n == |a|) && o + |b| <= |a| + |s|
    ensures |b| - n <= |s| && Splice(a + s, o, b) == Splice(a, o, b[..n]) + Splice(s, 0, b[n..])
  {
  }

  // All of it behind the first entry
  lemma WrittenLater(sg: seq<Entry>, o: nat, b: Bytes, rest: seq<Entry>)
    requires ListOk(sg) && sg != [] && sg[0].length <= o && o + |b| <= |Content(sg)|
    requires ListOk(sg[1..]) && o - sg[0].length + |b| <= |Content(sg[1..])|
    requires ListOk(rest) && Content(rest) == Splice(Content(sg[1..]), o - sg[0].length, b)
    ensures ListOk([sg[0]] + rest) && Content([sg[0]] + rest) == Splice(Content(sg), o, b)
  {
    hide *;
    ContentSplit(sg);
    ContentFirst(sg[0], rest);
    SpliceLater(Part(sg[0]), Content(sg[1..]), o, b);
  }

  // Some of it in the first entry
  lemma WrittenHere(sg: seq<Entry>, o: nat, b: Bytes, n: nat, rest: seq<Entry>)
    requires ListOk(sg) && sg != [] && EntryOk(sg[0]) && o < sg[0].length && o + |b| <= |Content(sg)| && n == Room(sg[0], o, b)
    requires ListOk(sg[1..]) && |b| - n <= |Content(sg[1..])| && ListOk(rest) && Content(rest) == Splice(Content(sg[1..]), 0, b[n..])
    ensures ListOk([Put(sg[0], o, b[..n])] + rest) && Content([Put(sg[0], o, b[..n])] + rest) == Splice(Content(sg), o, b)
  {
    hide *;
    ContentSplit(sg);
    PartPut(sg[0], o, b[..n]);
    SpliceAcross(Part(sg[0]), Content(sg[1..]), o, b, n);
    ContentFirst(Put(sg[0], o, b[..n]), rest);
  }

  lemma PartPut(e: Entry, o: nat, b: Bytes)
    requires EntryOk(e) && o + |b| <= e.length
    ensures Part(Put(e, o, b)) == Splice(Part(e), o, b)
  {
    var s := Splice(e.memory, e.offset + o, b);
    assert s[e.offset..e.offset + e.length] == Splice(e.memory[e.offset..e.offset + e.length], o, b);
  }

  lemma NothingWritten(sg: seq<Entry>, o: nat, b: Bytes)
    requires ListOk(sg) && o + |b| <= |Content(sg)| && (sg == [] || b == [])
    ensures WriteAt(sg, o, b) == sg && Splice(Content(sg), o, b) == Content(sg)
  {
  }

  lemma {:induction false} Written(sg: seq<Entry>, o: nat, b: Bytes)
    requires ListOk(sg) && o + |b| <= |Content(sg)|
    ensures ListOk(WriteAt(sg, o, b)) && Content(WriteAt(sg, o, b)) == Splice(Content(sg), o, b)
  {
    hide *;
    if sg == [] || b == [] {
      NothingWritten(sg, o, b);
    } else {
      ContentSplit(sg);
      var e, rest := sg[0], sg[1..];
      if o >= e.length {
        Written(rest, o - e.length, b);
        WrittenLater(sg, o, b, WriteAt(rest, o - e.length, b));
      } else {
        var n := Room(e, o, b);
        Written(rest, 0, b[n..]);
        WrittenHere(sg, o, b, n, WriteAt(rest, 0, b[n..]));
      }
      Unfold(sg, o, b);
    }
  }

  lemma Unfold(sg: seq<Entry>, o: nat, b: Bytes)
    requires ListOk(sg) && sg != [] && b != []
    ensures EntryOk(sg[0]) && ListOk(sg[1..])
    ensures o >= sg[0].length ==> WriteAt(sg, o, b) == [sg[0]] + WriteAt(sg[1..], o - sg[0].length, b)
    ensures o < sg[0].length ==>
              var n := Room(sg[0], o, b); WriteAt(sg, o, b) == [Put(sg[0], o, b[..n])] + WriteAt(sg[1..], 0, b[n..])
  {
  }

  lemma WrittenFirst(sg: seq<Entry>, b: Bytes)
    requires ListOk(sg) && |b| <= |Content(sg)| && |b| < WORD
    ensures SourceOk(WriteAt(sg, 0, b), |b|) && First(WriteAt(sg, 0, b), |b|) == b
    ensures Content(WriteAt(sg, 0, b)) == Splice(Content(sg), 0, b)
  {
    Written(sg, 0, b);
  }

  lemma WrittenTwice(sg: seq<Entry>, a: Bytes, b: Bytes)
    requires ListOk(sg) && |a| + |b| <= |Content(sg)|
    ensures ListOk(WriteAt(sg, 0, a)) && ListOk(WriteAt(WriteAt(sg, 0, a), |a|, b))
    ensures Content(WriteAt(WriteAt(sg, 0, a), |a|, b)) == Splice(Content(sg), 0, a + b)
  {
    Written(sg, 0, a);
    Written(WriteAt(sg, 0, a), |a|, b);
    SpliceTwice(Content(sg), 0, a, b);
  }

  // ---- the counter mode child ------------------------------------------------------------------

  // The counter in iv set to zero, for the authentication value
  method ZeroCounter(iv: array<bv8>)
    requires iv.Length == 16 && IvOk(iv[..])
    modifies iv
    ensures iv[..] == CounterBlock(old(iv[..]))
  {
    var n := 15 - iv[0] as nat;
    forall i | n <= i < 16 { iv[i] := 0; }
  }

  // The chain of one block and the source goes through the child; it leaves its counter in iv, behind the nonce.
  method CounterMode(k: Keyed, iv: array<bv8>, block: array<bv8>, src: seq<Entry>, len: nat, dst: seq<Entry>) returns (out: seq<Entry>)
    requires iv.Length == 16 == block.Length && iv != block && IvOk(iv[..])
    requires SourceOk(src, len) && ListOk(dst) && len <= |Content(dst)|
    modifies iv, block
    ensures iv[..NonceEnd(old(iv[..]))] == old(iv[..NonceEnd(iv[..])])
    ensures block[..] == Crypt(k, old(iv[..]), 0, old(block[..]))
    ensures out == WriteAt(dst, 0, Crypt(k, old(iv[..]), 16, First(src, len)))
  {
    hide Crypt, WriteAt, Content;
    var counter, whole := iv[..], block[..] + First(src, len);
    var n := NonceEnd(counter);
    var x := Crypt(k, counter, 0, whole);
    CryptConcat(k, counter, 0, block[..], First(src, len));
    forall i | 0 <= i < 16 { block[i] := x[i]; }
    assert block[..] == x[..16];
    out := WriteAt(dst, 0, x[16..]);
    forall i | n <= i < 16 { iv[i] := *; }
  }

  // ---- the two operations ----------------------------------------------------------------------

  ghost predicate Buffers(req: Request, iv: array<bv8>)
    reads req`ilen
  {
    req.Valid() && iv.Length == 16 && iv != req.odata && iv != req.idata && iv != req.authTag
  }

  predicate AuthSize(m: nat) {
    m in [4, 6, 8, 10, 12, 14, 16]
  }

  lemma MessageIsOk(iv: Bytes, m: nat, adata: Bytes, p: Bytes)
    requires IvOk(iv) && AuthSize(m) && |adata| < WORD && |p| < WORD
    ensures MessageOk(MessageOf(iv, m, adata, p))
  {
  }

  // Only the nonce of iv counts.
  lemma SameMessage(iv: Bytes, iv': Bytes, m: nat, adata: Bytes, p: Bytes)
    requires IvOk(iv) && |iv'| == 16 && iv'[..NonceEnd(iv)] == iv[..NonceEnd(iv)]
    ensures IvOk(iv') && NonceEnd(iv') == NonceEnd(iv) && MessageOf(iv', m, adata, p) == MessageOf(iv, m, adata, p)
  {
    assert iv'[0] == iv'[..NonceEnd(iv)][0] && iv[0] == iv[..NonceEnd(iv)][0];
    var n := NonceEnd(iv);
    assert iv'[1..n] == iv'[..n][1..] && iv[1..n] == iv[..n][1..];
  }

  lemma CounterKeeps(iv: Bytes)
    requires IvOk(iv)
    ensures |CounterBlock(iv)| == 16 && CounterBlock(iv)[..NonceEnd(iv)] == iv[..NonceEnd(iv)]
    ensures IvOk(CounterBlock(iv)) && NonceEnd(CounterBlock(iv)) == NonceEnd(iv)
  {
    assert CounterBlock(iv)[0] == iv[..NonceEnd(iv)][0] == iv[0];
  }

  // crypto_ccm_encrypt. The list must have an entry even when nothing is encrypted, for
  // scatterwalk_start has a BUG_ON against one that has not.
  method Encrypt(k: Keyed, req: Request, iv: array<bv8>, m: nat, assoc: seq<Entry>, assoclen: nat,
                 src: seq<Entry>, cryptlen: nat, dst: seq<Entry>) returns (status: Status, out: seq<Entry>)
    requires Buffers(req, iv) && KeyedOk(k) && AuthSize(m)
    requires SourceOk(assoc, assoclen) && (assoclen > 0 ==> assoc != []) && SourceOk(src, cryptlen) && src != []
    requires ListOk(dst) && cryptlen + m <= |Content(dst)|
    modifies req.odata, req.idata, req`ilen, iv
    ensures req.Valid()
    ensures IvOk(old(iv[..])) ==> MessageOk(MessageOf(old(iv[..]), m, First(assoc, assoclen), First(src, cryptlen)))
    ensures match Seal(k, old(iv[..]), m, First(assoc, assoclen), First(src, cryptlen))
            case Err(e) => status == Failed(e) && out == dst
            case Ok(c) => status == Done && ListOk(out) && Content(out) == Splice(Content(dst), 0, c)
  {
    hide Mac, Format, Crypt, Content, ListOk, WriteAt, Splice, Accepted, CounterBlock, MessageOk, KeyedOk, First;
    out := dst;
    if !(1 <= iv[0] <= 7) { return Failed(Einval), dst; }
    var v, a, p := iv[..], First(assoc, assoclen), First(src, cryptlen);
    MessageIsOk(v, m, a, p);
    var ok := Auth(k, req, iv, m, assoc, assoclen, src, cryptlen, MessageOf(v, m, a, p));
    if !ok { return Failed(Eoverflow), dst; }
    ghost var t := req.odata[..];
    ZeroCounter(iv);
    CounterKeeps(v);
    out := CounterMode(k, iv, req.odata, src, cryptlen, dst);
    var x := req.odata[..m];
    assert x == req.odata[..][..m];
    CryptTake(k, CounterBlock(v), 0, t, m);
    TagIs(k, MessageOf(v, m, a, p), t);
    WrittenTwice(dst, Crypt(k, CounterBlock(v), 16, p), x);
    Written(dst, 0, Crypt(k, CounterBlock(v), 16, p));
    Written(out, cryptlen, x);
    assert x == Crypt(k, CounterBlock(v), 0, Tag(k, MessageOf(v, m, a, p)));
    out := WriteAt(out, cryptlen, x);
    status := Done;
  }

  lemma TagIs(k: Keyed, x: Message, t: Bytes)
    requires KeyedOk(k) && MessageOk(x) && t == Mac(k, Zeros(16), Format(x))
    ensures x.m <= |t| && Tag(k, x) == t[..x.m]
  {
  }

  method Decrypt(k: Keyed, req: Request, iv: array<bv8>, m: nat, assoc: seq<Entry>, assoclen: nat,
                 src: seq<Entry>, cryptlen: nat, dst: seq<Entry>) returns (status: Status, out: seq<Entry>)
    requires Buffers(req, iv) && KeyedOk(k) && AuthSize(m)
    requires SourceOk(assoc, assoclen) && (assoclen > 0 ==> assoc != []) && SourceOk(src, cryptlen)
    requires ListOk(dst) && dst != [] && cryptlen <= |Content(dst)| + m
    modifies req.odata, req.idata, req.authTag, req`ilen, iv
    ensures req.Valid()
    ensures IvOk(old(iv[..])) ==> MessageOk(MessageOf(old(iv[..]), m, First(assoc, assoclen), First(src, cryptlen)))
    ensures match Open(k, old(iv[..]), m, First(assoc, assoclen), First(src, cryptlen))
            case Err(e) => status == Failed(e)
            case Ok(p) => status == Done && ListOk(out) && Content(out) == Splice(Content(dst), 0, p)
    ensures cryptlen < m || !IvOk(old(iv[..])) ==> out == dst
    ensures cryptlen >= m && IvOk(old(iv[..])) ==>
              out == WriteAt(dst, 0, Crypt(k, CounterBlock(old(iv[..])), 16, First(src, cryptlen)[..cryptlen - m]))
  {
    hide Mac, Format, Crypt, Content, ListOk, WriteAt, Splice, Accepted, CounterBlock, MessageOk, KeyedOk, First;
    out := dst;
    var v, a, c := iv[..], First(assoc, assoclen), First(src, cryptlen);
    if 1 <= v[0] <= 7 { MessageIsOk(v, m, a, c); }
    if cryptlen < m { return Failed(Einval), dst; }
    var n := cryptlen - m;
    if !(1 <= iv[0] <= 7) { return Failed(Einval), dst; }
    forall i | 0 <= i < m { req.authTag[i] := c[n + i]; }
    ghost var t := req.authTag[..];
    assert t[..m] == c[n..] && iv[..] == v;
    ZeroCounter(iv);
    CounterKeeps(v);
    FirstOfFirst(src, cryptlen, n);
    out := CounterMode(k, iv, req.authTag, src, n, dst);
    ghost var p := Crypt(k, CounterBlock(v), 16, c[..n]);
    CryptTake(k, CounterBlock(v), 0, t, m);
    WrittenFirst(dst, p);
    SameMessage(v, iv[..], m, a, p);
    MessageIsOk(v, m, a, p);
    var ok := Auth(k, req, iv, m, assoc, assoclen, out, n, MessageOf(v, m, a, p));
    if !ok { return Failed(Eoverflow), out; }
    TagIs(k, MessageOf(v, m, a, p), req.odata[..]);
    assert req.authTag[..m] == req.authTag[..][..m] && req.odata[..m] == req.odata[..][..m];
    status := if req.authTag[..m] != req.odata[..m] then Failed(Ebadmsg) else Done;
  }

  lemma FirstOfFirst(sg: seq<Entry>, len: nat, n: nat)
    requires SourceOk(sg, len) && n <= len
    ensures SourceOk(sg, n) && First(sg, n) == First(sg, len)[..n]
  {
  }
}
