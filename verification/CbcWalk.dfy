/**
 * Encryption and decryption of a scattered message: the walk hands out one piece at a time, of
 * whatever length lies contiguous in both scatterlists, and carries on with the bytes a piece
 * leaves over. The scatterlists are flattened; `Cuts` says how they are cut up.
 */
module CbcWalk {
  import opened CbcModel
  import opened CbcSegments

  // For each position of the input and the output: how many bytes lie contiguous there, and
  // whether the position meets the alignment of the cipher
  datatype Cuts = Cuts(inRun: nat -> nat, outRun: nat -> nat, aligned: nat -> bool)

  const EINVAL: int := -22

  // scatterwalk_clamp
  function Clamp(run: nat, n: nat): nat { if run < n then run else n }

  // struct blkcipher_walk between two pieces
  datatype Kind = Fast | CopyPage | Slow

  // blkcipher_walk_next: how many bytes the next piece has, and how it is reached
  method WalkNext(c: Cipher, k: Cuts, p: nat, total: nat) returns (nbytes: nat, kind: Kind)
    requires 0 < c.bs <= total
    ensures c.bs <= nbytes <= total
    ensures kind == Slow ==> nbytes == c.bs
    ensures kind != Slow ==> nbytes <= k.inRun(p) && nbytes <= k.outRun(p) && (kind == CopyPage <==> !k.aligned(p))
  {
    var copy := !k.aligned(p);
    var n := Clamp(k.outRun(p), Clamp(k.inRun(p), total));
    if n < c.bs { return c.bs, Slow; }
    return n, if copy then CopyPage else Fast;
  }

  datatype Direction = Encrypting | Decrypting

  function Out(c: Cipher, d: Direction, iv: Bytes, m: Bytes): Bytes
    requires CipherOk(c) && |iv| == c.bs
  {
    if d == Encrypting then Encrypt(c, iv, m) else Decrypt(c, iv, m)
  }

  // The chaining value behind m: the last cipher block, which is output one way and input the other
  function NextIv(c: Cipher, d: Direction, iv: Bytes, m: Bytes): (r: Bytes)
    requires CipherOk(c) && |iv| == c.bs
    ensures |r| == c.bs
  {
    Chain(c, iv, if d == Encrypting then Encrypt(c, iv, m) else m)
  }

  lemma ChainTwice(c: Cipher, iv: Bytes, x: Bytes, y: Bytes)
    requires 0 < c.bs == |iv| && Whole(c, y)
    ensures Chain(c, iv, x + y) == Chain(c, Chain(c, iv, x), y)
  {
    if y == [] {
      assert x + y == x;
    } else {
      assert (x + y)[|x + y| - c.bs..] == y[|y| - c.bs..];
    }
  }

  // Pieces processed one after the other are processed as one.
  lemma OutConcat(c: Cipher, d: Direction, iv: Bytes, a: Bytes, b: Bytes)
    requires CipherOk(c) && |iv| == c.bs && Whole(c, a) && Whole(c, b)
    ensures Out(c, d, iv, a + b) == Out(c, d, iv, a) + Out(c, d, NextIv(c, d, iv, a), b)
    ensures NextIv(c, d, iv, a + b) == NextIv(c, d, NextIv(c, d, iv, a), b) && Whole(c, a + b)
  {
    hide Encrypt, Decrypt, Chain;
    WholeConcat(c, a, b);
    if d == Encrypting {
      EncryptConcat(c, iv, a, b);
      var x := Encrypt(c, iv, a);
      EncryptWhole(c, Chain(c, iv, x), b);
      ChainTwice(c, iv, x, Encrypt(c, Chain(c, iv, x), b));
    } else {
      DecryptConcat(c, iv, a, b);
      ChainTwice(c, iv, a, b);
    }
  }

  method Inplace(c: Cipher, d: Direction, src: array<bv8>, so: nat, iv: array<bv8>, n: nat) returns (left: nat)
    requires CipherOk(c) && c.bs <= n && so + n <= src.Length && iv.Length == c.bs && iv != src
    modifies src, iv
    ensures left < c.bs && left <= n && Whole(c, old(src[so..so + n - left]))
    ensures var m := old(src[so..so + n - left]); var x := Out(c, d, old(iv[..]), m);
            |x| == n - left && src[..] == Splice(old(src[..]), so, x) && iv[..] == NextIv(c, d, old(iv[..]), m)
  {
    hide Encrypt, Decrypt, Chain, Splice, CipherOk;
    if d == Encrypting { left := EncryptInplace(c, src, so, iv, n); } else { left := DecryptInplace(c, src, so, iv, n); }
  }

  method Segment(c: Cipher, d: Direction, src: array<bv8>, so: nat, dst: array<bv8>, d0: nat, iv: array<bv8>, n: nat) returns (left: nat)
    requires CipherOk(c) && c.bs <= n && so + n <= src.Length && d0 + n <= dst.Length && iv.Length == c.bs
    requires src != dst && iv != src && iv != dst
    modifies dst, iv
    ensures left < c.bs && left <= n && Whole(c, src[so..so + n - left])
    ensures var m := src[so..so + n - left]; var x := Out(c, d, old(iv[..]), m);
            |x| == n - left && dst[..] == Splice(old(dst[..]), d0, x) && iv[..] == NextIv(c, d, old(iv[..]), m)
  {
    hide Encrypt, Decrypt, Chain, Splice, CipherOk;
    if d == Encrypting { left := EncryptSegment(c, src, so, dst, d0, iv, n); } else { left := DecryptSegment(c, src, so, dst, d0, iv, n); }
  }

  // blkcipher_next_copy and the copying back of blkcipher_done_fast: on a page of its own
  method OnCopy(c: Cipher, d: Direction, src: array<bv8>, dst: array<bv8>, p: nat, iv: array<bv8>, n: nat) returns (left: nat)
    requires CipherOk(c) && c.bs <= n && p + n <= src.Length && p + n <= dst.Length && iv.Length == c.bs && iv != src && iv != dst
    modifies dst, iv
    ensures left < c.bs && left <= n && Whole(c, old(src[p..p + n - left]))
    ensures var m := old(src[p..p + n - left]); var x := Out(c, d, old(iv[..]), m);
            |x| == n - left && dst[..] == Splice(old(dst[..]), p, x) && iv[..] == NextIv(c, d, old(iv[..]), m)
  {
    hide *;
    ghost var piece := src[p..p + n];
    var page := new bv8[n];
    ghost var blank := page[..];
    Copy(page, 0, src, p, n);
    SpliceAll(blank, piece);
    left := Inplace(c, d, page, 0, iv, n);
    ghost var m := piece[..n - left];
    assert piece[0..0 + n - left] == m == old(src[p..p + n - left]);
    SpliceHere(piece, 0, Out(c, d, old(iv[..]), m));
    Copy(dst, p, page, 0, n - left);
  }

  // blkcipher_next_slow and blkcipher_done_slow: one block through two buffers
  method OnBuffers(c: Cipher, d: Direction, src: array<bv8>, dst: array<bv8>, p: nat, iv: array<bv8>) returns (left: nat)
    requires CipherOk(c) && p + c.bs <= src.Length && p + c.bs <= dst.Length && iv.Length == c.bs && iv != src && iv != dst
    modifies dst, iv
    ensures left == 0 && Whole(c, old(src[p..p + c.bs]))
    ensures var m := old(src[p..p + c.bs]); var x := Out(c, d, old(iv[..]), m);
            |x| == c.bs && dst[..] == Splice(old(dst[..]), p, x) && iv[..] == NextIv(c, d, old(iv[..]), m)
  {
    hide *;
    Positive(c);
    ghost var m := src[p..p + c.bs];
    var bsrc, bdst := new bv8[c.bs], new bv8[c.bs];
    ghost var blank, blank' := bsrc[..], bdst[..];
    Copy(bsrc, 0, src, p, c.bs);
    SpliceAll(blank, m);
    left := Segment(c, d, bsrc, 0, bdst, 0, iv, c.bs);
    OneBlockWhole(c, bsrc[0..c.bs - left], left);
    assert bsrc[0..c.bs] == m;
    SpliceAll(blank', Out(c, d, old(iv[..]), m));
    assert bdst[0..c.bs] == bdst[..];
    Copy(dst, p, bdst, 0, c.bs);
  }

  lemma OneBlockWhole(c: Cipher, m: Bytes, left: nat)
    requires 0 < c.bs && left < c.bs && |m| == c.bs - left && Whole(c, m)
    ensures left == 0
  {
  }

  // One piece of the walk
  method Piece(c: Cipher, d: Direction, src: array<bv8>, dst: array<bv8>, p: nat, iv: array<bv8>, n: nat, kind: Kind) returns (left: nat)
    requires CipherOk(c) && c.bs <= n && p + n <= src.Length && p + n <= dst.Length && iv.Length == c.bs && iv != src && iv != dst
    requires kind == Slow ==> n == c.bs
    modifies dst, iv
    ensures left < c.bs && left <= n && Whole(c, old(src[p..p + n - left]))
    ensures var m := old(src[p..p + n - left]); var x := Out(c, d, old(iv[..]), m);
            |x| == n - left && dst[..] == Splice(old(dst[..]), p, x) && iv[..] == NextIv(c, d, old(iv[..]), m)
  {
    hide *;
    Positive(c);
    match kind {
      case Slow => left := OnBuffers(c, d, src, dst, p, iv);
      case CopyPage => left := OnCopy(c, d, src, dst, p, iv, n);
      case Fast =>
        if src == dst { left := Inplace(c, d, src, p, iv, n); } else { left := Segment(c, d, src, p, dst, p, iv, n); }
    }
  }

  // crypto_cbc_encrypt and crypto_cbc_decrypt: however the message is cut up, its whole blocks are
  // chained as one message; bytes that make no block are refused at the end.
  method Crypt(c: Cipher, d: Direction, src: array<bv8>, dst: array<bv8>, n: nat, iv: array<bv8>, k: Cuts) returns (err: int)
    requires CipherOk(c) && n <= src.Length && n <= dst.Length && iv.Length == c.bs && iv != src && iv != dst
    modifies dst, iv
    ensures 0 < c.bs && Whole(c, old(src[..n - Rem(n, c.bs)]))
    ensures var m := old(src[..n - Rem(n, c.bs)]); var x := Out(c, d, old(iv[..]), m);
            |x| == |m| && dst[..] == Splice(old(dst[..]), 0, x) && iv[..] == NextIv(c, d, old(iv[..]), m)
    ensures err == if Rem(n, c.bs) == 0 then 0 else EINVAL
  {
    hide *;
    Positive(c);
    ghost var iv0, was, text := iv[..], dst[..], src[..];
    ghost var m: Bytes, x: Bytes := [], [];
    var p: nat, total: nat := 0, n;
    assert text[..p] == m;
    StartOut(c, d, iv0, was);
    while total >= c.bs
      invariant p + total == n && m == text[..p] && Whole(c, m) && x == Out(c, d, iv0, m) && |x| == |m|
      invariant dst[..] == Splice(was, 0, x) && iv[..] == NextIv(c, d, iv0, m)
      invariant src != dst ==> src[..] == text
      decreases total
    {
      var nbytes, kind := WalkNext(c, k, p, total);
      ghost var v, now := iv[..], src[..];
      Unread(was, x);
      assert now[p..] == text[p..];
      var left := Piece(c, d, src, dst, p, iv, nbytes, kind);
      ghost var b := text[p..p + nbytes - left];
      SameSlice(now, text, p, nbytes - left);
      OutConcat(c, d, iv0, m, b);
      SpliceTwice(was, 0, x, Out(c, d, v, b));
      m, x := m + b, x + Out(c, d, v, b);
      assert text[..p + nbytes - left] == m;
      p, total := p + nbytes - left, total - (nbytes - left);
    }
    LeftOver(c, m, n, total);
    err := if total == 0 then 0 else EINVAL;
  }

  lemma StartOut(c: Cipher, d: Direction, iv: Bytes, s: Bytes)
    requires CipherOk(c) && |iv| == c.bs
    ensures Whole(c, []) && Out(c, d, iv, []) == [] && NextIv(c, d, iv, []) == iv && Splice(s, 0, []) == s
  {
  }

  lemma Unread(s: Bytes, x: Bytes)
    requires |x| <= |s|
    ensures Splice(s, 0, x)[|x|..] == s[|x|..]
  {
  }

  lemma SameSlice(s: Bytes, t: Bytes, p: nat, k: nat)
    requires p + k <= |s| == |t| && s[p..] == t[p..]
    ensures s[p..p + k] == t[p..p + k]
  {
    assert s[p..][..k] == t[p..][..k];
    assert s[p..][..k] == s[p..p + k] && t[p..][..k] == t[p..p + k];
  }

  // What is left when no block is left is the remainder.
  lemma LeftOver(c: Cipher, m: Bytes, n: nat, total: nat)
    requires 0 < c.bs && Whole(c, m) && |m| + total == n && total < c.bs
    ensures Rem(n, c.bs) == total
  {
    WholeLength(c, m);
    ModUnique(n, c.bs, |m| / c.bs, total);
  }
}
