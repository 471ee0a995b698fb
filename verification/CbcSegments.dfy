/**
 * The four loops of the CBC template, in place on their buffers.
 */
module CbcSegments {
  import opened CbcModel

  // crypto_xor
  method XorInto(dst: array<bv8>, d: nat, src: array<bv8>, s: nat, n: nat)
    requires d + n <= dst.Length && s + n <= src.Length && (dst != src || s + n <= d || d + n <= s)
    modifies dst
    ensures dst[..] == Splice(old(dst[..]), d, Xor(old(dst[d..d + n]), old(src[s..s + n])))
  {
    ghost var was, x := dst[..], Xor(dst[d..d + n], src[s..s + n]);
    var i := 0;
    while i < n
      invariant i <= n
      invariant forall k :: 0 <= k < dst.Length ==> dst[k] == if d <= k < d + i then x[k - d] else was[k]
    {
      assert x[i] == was[d + i] ^ old(src[s + i]);
      dst[d + i] := dst[d + i] ^ src[s + i];
      i := i + 1;
    }
    assert dst[..] == Splice(was, d, x);
  }

  // memcpy
  method Copy(dst: array<bv8>, d: nat, src: array<bv8>, s: nat, n: nat)
    requires d + n <= dst.Length && s + n <= src.Length
    modifies dst
    ensures dst[..] == Splice(old(dst[..]), d, old(src[s..s + n]))
  {
    forall k | 0 <= k < n { dst[d + k] := src[s + k]; }
    assert dst[..] == Splice(old(dst[..]), d, old(src[s..s + n]));
  }

  // cia_encrypt or cia_decrypt on one block; both may be the same place.
  method Transform(f: Bytes -> Bytes, dst: array<bv8>, d: nat, src: array<bv8>, s: nat, n: nat)
    requires d + n <= dst.Length && s + n <= src.Length && |f(src[s..s + n])| == n
    modifies dst
    ensures dst[..] == Splice(old(dst[..]), d, f(old(src[s..s + n])))
  {
    var x := f(src[s..s + n]);
    forall k | 0 <= k < n { dst[d + k] := x[k]; }
    assert dst[..] == Splice(old(dst[..]), d, x);
  }

  lemma XorComm(a: Bytes, b: Bytes)
    requires |a| == |b|
    ensures Xor(a, b) == Xor(b, a)
  {
    forall i | 0 <= i < |a| ensures Xor(a, b)[i] == Xor(b, a)[i] { assert a[i] ^ b[i] == b[i] ^ a[i]; }
  }

  // Encrypting one block more
  lemma EncryptMore(c: Cipher, iv: Bytes, m: Bytes, b: Bytes)
    requires CipherOk(c) && |iv| == c.bs == |b| && Whole(c, m)
    ensures var x := Encrypt(c, iv, m); var y := c.enc(Xor(b, Chain(c, iv, x)));
            |x| == |m| && |y| == c.bs && Whole(c, m + b) && Encrypt(c, iv, m + b) == x + y && Chain(c, iv, x + y) == y
  {
    hide Encrypt, Xor;
    var x := Encrypt(c, iv, m);
    EncryptWhole(c, iv, m);
    EncryptConcat(c, iv, m, b);
    OneBlock(c, Chain(c, iv, x), b);
    WholeConcat(c, m, b);
    var y := c.enc(Xor(b, Chain(c, iv, x)));
    assert (x + y)[|x + y| - c.bs..] == y;
  }

  lemma DecryptMore(c: Cipher, iv: Bytes, m: Bytes, b: Bytes)
    requires CipherOk(c) && |iv| == c.bs == |b| && Whole(c, m)
    ensures var y := Xor(c.dec(b), Chain(c, iv, m));
            |Decrypt(c, iv, m)| == |m| && Whole(c, m + b) && Decrypt(c, iv, m + b) == Decrypt(c, iv, m) + y && Chain(c, iv, m + b) == b
  {
    hide Decrypt, Xor;
    DecryptWhole(c, iv, m);
    DecryptConcat(c, iv, m, b);
    OneBlock(c, Chain(c, iv, m), b);
    WholeConcat(c, m, b);
    assert (m + b)[|m + b| - c.bs..] == b;
  }

  lemma Positive(c: Cipher)
    requires CipherOk(c)
    ensures 0 < c.bs
  {
  }

  lemma BlockSizes(c: Cipher, b: Bytes)
    requires CipherOk(c) && |b| == c.bs
    ensures |c.enc(b)| == c.bs && |c.dec(b)| == c.bs
  {
  }

  lemma SpliceAll(s: Bytes, x: Bytes)
    requires |s| == |x|
    ensures Splice(s, 0, x) == x
  {
  }

  lemma SpliceHere(s: Bytes, o: nat, x: Bytes)
    requires o + |x| <= |s|
    ensures Splice(s, o, x)[o..o + |x|] == x
  {
  }

  // The body of the loop: xor, encrypt, remember the cipher block
  method EncryptBlock(c: Cipher, src: array<bv8>, s: nat, dst: array<bv8>, d: nat, iv: array<bv8>)
    requires CipherOk(c) && s + c.bs <= src.Length && d + c.bs <= dst.Length && iv.Length == c.bs
    requires src != dst && iv != src && iv != dst
    modifies dst, iv
    ensures var y := c.enc(Xor(src[s..s + c.bs], old(iv[..])));
            |y| == c.bs && dst[..] == Splice(old(dst[..]), d, y) && iv[..] == y
  {
    hide *;
    ghost var b, v := src[s..s + c.bs], iv[..];
    BlockSizes(c, Xor(b, v));
    assert iv[0..c.bs] == v;
    XorComm(v, b);
    XorInto(iv, 0, src, s, c.bs);
    SpliceAll(v, Xor(b, v));
    assert iv[0..c.bs] == Xor(b, v);
    Transform(c.enc, dst, d, iv, 0, c.bs);
    ghost var y := c.enc(Xor(b, v));
    SpliceHere(old(dst[..]), d, y);
    assert dst[d..d + c.bs] == y;
    Copy(iv, 0, dst, d, c.bs);
    SpliceAll(Xor(b, v), y);
  }

  // crypto_cbc_encrypt_segment: the whole blocks are encrypted, and the bytes left over counted.
  method EncryptSegment(c: Cipher, src: array<bv8>, so: nat, dst: array<bv8>, d0: nat, iv: array<bv8>, n: nat) returns (nbytes: nat)
    requires CipherOk(c) && c.bs <= n && so + n <= src.Length && d0 + n <= dst.Length && iv.Length == c.bs
    requires src != dst && iv != src && iv != dst
    modifies dst, iv
    ensures nbytes < c.bs && nbytes <= n && Whole(c, src[so..so + n - nbytes])
    ensures var x := Encrypt(c, old(iv[..]), src[so..so + n - nbytes]);
            |x| == n - nbytes && dst[..] == Splice(old(dst[..]), d0, x) && iv[..] == Chain(c, old(iv[..]), x)
  {
    hide *;
    Positive(c);
    nbytes := n;
    var s, d := so, d0;
    ghost var iv0, was := iv[..], dst[..];
    ghost var m: Bytes, x: Bytes := [], [];
    assert src[so..s] == [];
    StartWhole(c, iv0, was, d0);
    while nbytes >= c.bs
      invariant so <= s && s - so == d - d0 == n - nbytes && 0 <= nbytes <= n
      invariant m == src[so..s] && Whole(c, m) && x == Encrypt(c, iv0, m) && |x| == |m|
      invariant dst[..] == Splice(was, d0, x) && iv[..] == Chain(c, iv0, x)
    {
      ghost var b := src[s..s + c.bs];
      EncryptMore(c, iv0, m, b);
      ghost var y := c.enc(Xor(b, iv[..]));
      EncryptBlock(c, src, s, dst, d, iv);
      SpliceTwice(was, d0, x, y);
      m, x := m + b, x + y;
      assert src[so..s + c.bs] == m;
      s, d, nbytes := s + c.bs, d + c.bs, nbytes - c.bs;
    }
  }

  lemma StartWhole(c: Cipher, iv: Bytes, s: Bytes, o: nat)
    requires CipherOk(c) && |iv| == c.bs && o <= |s|
    ensures Whole(c, []) && Encrypt(c, iv, []) == [] == Decrypt(c, iv, []) && Chain(c, iv, []) == iv && Splice(s, o, []) == s
  {
  }

  // The blocks from so to s are encrypted in place, to x.
  ghost predicate EncryptedTo(c: Cipher, iv: Bytes, was: Bytes, so: nat, s: nat, x: Bytes, now: Bytes)
    requires CipherOk(c) && |iv| == c.bs
  {
    so <= s <= |was| && Whole(c, was[so..s]) && x == Encrypt(c, iv, was[so..s]) && |x| == s - so && now == Splice(was, so, x)
  }

  lemma EncryptedStep(c: Cipher, iv: Bytes, was: Bytes, so: nat, s: nat, x: Bytes, now: Bytes)
    requires CipherOk(c) && |iv| == c.bs && EncryptedTo(c, iv, was, so, s, x, now) && s + c.bs <= |was|
    ensures |now| == |was| && now[s..s + c.bs] == was[s..s + c.bs]
    ensures var y := c.enc(Xor(was[s..s + c.bs], Chain(c, iv, x)));
            |y| == c.bs && EncryptedTo(c, iv, was, so, s + c.bs, x + y, Splice(now, s, y)) &&
            Splice(now, s, y)[s..s + c.bs] == Chain(c, iv, x + y)
  {
    hide CipherOk, Encrypt, Whole, Xor, Chain, Splice;
    Positive(c);
    var b := was[s..s + c.bs];
    EncryptMore(c, iv, was[so..s], b);
    var y := c.enc(Xor(b, Chain(c, iv, x)));
    SpliceOutside(was, so, x, s, c.bs);
    SpliceTwice(was, so, x, y);
    SpliceHere(now, s, y);
    assert was[so..s] + b == was[so..s + c.bs];
  }

  lemma EncryptedStart(c: Cipher, iv: Bytes, was: Bytes, so: nat)
    requires CipherOk(c) && |iv| == c.bs && so <= |was|
    ensures EncryptedTo(c, iv, was, so, so, [], was) && Chain(c, iv, []) == iv
  {
    StartWhole(c, iv, was, so);
    assert was[so..so] == [];
  }

  lemma EncryptedEnd(c: Cipher, iv: Bytes, was: Bytes, so: nat, s: nat, x: Bytes, now: Bytes)
    requires CipherOk(c) && |iv| == c.bs && EncryptedTo(c, iv, was, so, s, x, now)
    ensures so <= s <= |was| && Whole(c, was[so..s]) && x == Encrypt(c, iv, was[so..s]) && |x| == s - so && now == Splice(was, so, x)
  {
  }

  // crypto_cbc_encrypt_inplace: the chaining value is read back from the buffer.
  method EncryptInplace(c: Cipher, src: array<bv8>, so: nat, iv: array<bv8>, n: nat) returns (nbytes: nat)
    requires CipherOk(c) && c.bs <= n && so + n <= src.Length && iv.Length == c.bs && iv != src
    modifies src, iv
    ensures nbytes < c.bs && nbytes <= n && Whole(c, old(src[so..so + n - nbytes]))
    ensures var x := Encrypt(c, old(iv[..]), old(src[so..so + n - nbytes]));
            |x| == n - nbytes && src[..] == Splice(old(src[..]), so, x) && iv[..] == Chain(c, old(iv[..]), x)
  {
    hide *;
    Positive(c);
    nbytes := n;
    var s := so;
    ghost var iv0, was := iv[..], src[..];
    ghost var x: Bytes := [];
    var p, q := iv, 0;
    EncryptedStart(c, iv0, was, so);
    assert iv[0..c.bs] == iv0;
    while nbytes >= c.bs
      invariant so <= s && s - so == n - nbytes && 0 <= nbytes <= n && iv[..] == iv0
      invariant EncryptedTo(c, iv0, was, so, s, x, src[..])
      invariant p == (if s == so then iv else src) && q == if s == so then 0 else s - c.bs
      invariant p[q..q + c.bs] == Chain(c, iv0, x)
    {
      ghost var now, b := src[..], was[s..s + c.bs];
      EncryptedStep(c, iv0, was, so, s, x, now);
      ghost var y := c.enc(Xor(b, Chain(c, iv0, x)));
      assert src[s..s + c.bs] == now[s..s + c.bs];
      EncryptBlockInplace(c, src, s, p, q);
      p, q := src, s;
      assert src[s..s + c.bs] == src[..][s..s + c.bs];
      x := x + y;
      s, nbytes := s + c.bs, nbytes - c.bs;
    }
    EncryptedEnd(c, iv0, was, so, s, x, src[..]);
    Copy(iv, 0, p, q, c.bs);
    SpliceAll(iv0, Chain(c, iv0, x));
  }

  method EncryptBlockInplace(c: Cipher, src: array<bv8>, s: nat, p: array<bv8>, q: nat)
    requires CipherOk(c) && s + c.bs <= src.Length && q + c.bs <= p.Length && (p != src || q + c.bs <= s)
    modifies src
    ensures var y := c.enc(Xor(old(src[s..s + c.bs]), old(p[q..q + c.bs])));
            |y| == c.bs && src[..] == Splice(old(src[..]), s, y)
  {
    hide *;
    ghost var was, z := src[..], Xor(src[s..s + c.bs], p[q..q + c.bs]);
    BlockSizes(c, z);
    XorInto(src, s, p, q, c.bs);
    SpliceHere(was, s, z);
    assert src[s..s + c.bs] == z;
    Transform(c.enc, src, s, src, s, c.bs);
    SpliceOver(was, s, z, c.enc(z));
  }

  lemma SpliceOver(s: Bytes, o: nat, x: Bytes, y: Bytes)
    requires o + |x| <= |s| && |y| == |x|
    ensures Splice(Splice(s, o, x), o, y) == Splice(s, o, y)
  {
  }

  // The blocks of src from so to s are decrypted to x at d0.
  ghost predicate DecryptedTo(c: Cipher, iv: Bytes, src: Bytes, so: nat, s: nat, was: Bytes, d0: nat, x: Bytes, now: Bytes)
    requires CipherOk(c) && |iv| == c.bs
  {
    so <= s <= |src| && Whole(c, src[so..s]) && x == Decrypt(c, iv, src[so..s]) && |x| == s - so &&
    d0 + |x| <= |was| && now == Splice(was, d0, x)
  }

  lemma DecryptedStep(c: Cipher, iv: Bytes, src: Bytes, so: nat, s: nat, was: Bytes, d0: nat, x: Bytes, now: Bytes)
    requires CipherOk(c) && |iv| == c.bs && DecryptedTo(c, iv, src, so, s, was, d0, x, now)
    requires s + c.bs <= |src| && d0 + |x| + c.bs <= |was|
    ensures |c.dec(src[s..s + c.bs])| == c.bs && |now| == |was|
    ensures var y := Xor(c.dec(src[s..s + c.bs]), Chain(c, iv, src[so..s]));
            DecryptedTo(c, iv, src, so, s + c.bs, was, d0, x + y, Splice(now, d0 + |x|, y))
    ensures Chain(c, iv, src[so..s + c.bs]) == src[s..s + c.bs]
  {
    hide CipherOk, Decrypt, Whole, Xor, Chain, Splice;
    Positive(c);
    var b := src[s..s + c.bs];
    BlockSizes(c, b);
    DecryptMore(c, iv, src[so..s], b);
    SpliceTwice(was, d0, x, Xor(c.dec(b), Chain(c, iv, src[so..s])));
    assert src[so..s] + b == src[so..s + c.bs];
  }

  lemma DecryptedStart(c: Cipher, iv: Bytes, src: Bytes, so: nat, was: Bytes, d0: nat)
    requires CipherOk(c) && |iv| == c.bs && so <= |src| && d0 <= |was|
    ensures DecryptedTo(c, iv, src, so, so, was, d0, [], was) && Chain(c, iv, src[so..so]) == iv
  {
    StartWhole(c, iv, was, d0);
    assert src[so..so] == [];
  }

  lemma DecryptedEnd(c: Cipher, iv: Bytes, src: Bytes, so: nat, s: nat, was: Bytes, d0: nat, x: Bytes, now: Bytes)
    requires CipherOk(c) && |iv| == c.bs && DecryptedTo(c, iv, src, so, s, was, d0, x, now)
    ensures so <= s <= |src| && Whole(c, src[so..s]) && x == Decrypt(c, iv, src[so..s]) && |x| == s - so
    ensures d0 + |x| <= |was| && now == Splice(was, d0, x)
  {
  }

  // crypto_cbc_decrypt_segment
  method DecryptSegment(c: Cipher, src: array<bv8>, so: nat, dst: array<bv8>, d0: nat, iv: array<bv8>, n: nat) returns (nbytes: nat)
    requires CipherOk(c) && c.bs <= n && so + n <= src.Length && d0 + n <= dst.Length && iv.Length == c.bs
    requires src != dst && iv != src && iv != dst
    modifies dst, iv
    ensures nbytes < c.bs && nbytes <= n && Whole(c, src[so..so + n - nbytes])
    ensures var m := src[so..so + n - nbytes]; var x := Decrypt(c, old(iv[..]), m);
            |x| == n - nbytes && dst[..] == Splice(old(dst[..]), d0, x) && iv[..] == Chain(c, old(iv[..]), m)
  {
    hide *;
    Positive(c);
    nbytes := n;
    var s, d := so, d0;
    ghost var iv0, was, all := iv[..], dst[..], src[..];
    ghost var x: Bytes := [];
    var p, q := iv, 0;
    DecryptedStart(c, iv0, all, so, was, d0);
    assert iv[0..c.bs] == iv0;
    while nbytes >= c.bs
      invariant so <= s && s - so == d - d0 == n - nbytes && 0 <= nbytes <= n && iv[..] == iv0
      invariant |x| == s - so && DecryptedTo(c, iv0, all, so, s, was, d0, x, dst[..])
      invariant p == (if s == so then iv else src) && q == if s == so then 0 else s - c.bs
      invariant p[q..q + c.bs] == Chain(c, iv0, all[so..s])
    {
      ghost var b := src[s..s + c.bs];
      assert b == all[s..s + c.bs];
      DecryptedStep(c, iv0, all, so, s, was, d0, x, dst[..]);
      ghost var y := Xor(c.dec(b), Chain(c, iv0, all[so..s]));
      DecryptBlock(c, src, s, dst, d, p, q);
      p, q := src, s;
      x := x + y;
      s, d, nbytes := s + c.bs, d + c.bs, nbytes - c.bs;
    }
    DecryptedEnd(c, iv0, all, so, s, was, d0, x, dst[..]);
    assert src[so..so + n - nbytes] == all[so..s];
    Copy(iv, 0, p, q, c.bs);
    SpliceAll(iv0, Chain(c, iv0, all[so..s]));
  }

  method DecryptBlock(c: Cipher, src: array<bv8>, s: nat, dst: array<bv8>, d: nat, p: array<bv8>, q: nat)
    requires CipherOk(c) && s + c.bs <= src.Length && d + c.bs <= dst.Length && q + c.bs <= p.Length && src != dst && p != dst
    modifies dst
    ensures var y := Xor(c.dec(src[s..s + c.bs]), p[q..q + c.bs]);
            |y| == c.bs && dst[..] == Splice(old(dst[..]), d, y)
  {
    hide *;
    BlockSizes(c, src[s..s + c.bs]);
    ghost var was, z := dst[..], c.dec(src[s..s + c.bs]);
    Transform(c.dec, dst, d, src, s, c.bs);
    SpliceHere(was, d, z);
    assert dst[d..d + c.bs] == z;
    XorInto(dst, d, p, q, c.bs);
    SpliceOver(was, d, z, Xor(z, p[q..q + c.bs]));
  }

  // Decrypting a stretch that begins one block earlier
  lemma DecryptEarlier(c: Cipher, v: Bytes, b: Bytes, m: Bytes)
    requires CipherOk(c) && |v| == c.bs == |b| && Whole(c, m)
    ensures Decrypt(c, v, b + m) == Xor(c.dec(b), v) + Decrypt(c, b, m) && Whole(c, b + m)
    ensures |Decrypt(c, b, m)| == |m|
  {
    BlockFirst(c, v, b, m);
    DecryptWhole(c, b, m);
    assert (b + m)[c.bs..] == m;
  }

  lemma {:induction false} MulNat(k: nat, b: nat)
    ensures k * b >= 0 && (k + 1) * b == k * b + b
  {
    if k > 0 { MulNat(k - 1, b); }
  }

  lemma MulAtLeast(k: int, b: nat)
    ensures (k > 0 ==> k * b >= b) && (k < 0 ==> k * b + b <= 0)
  {
    if k > 0 {
      MulNat(k - 1, b);
    } else if k < 0 {
      MulNat(-k - 1, b);
      assert k * b == -((-k) * b);
    }
  }

  lemma ModUnique(x: int, b: nat, q: int, r: nat)
    requires r < b && x == q * b + r
    ensures x % b == r
  {
    var q', r' := x / b, x % b;
    assert (q - q') * b == r' - r;
    MulAtLeast(q - q', b);
  }

  lemma ModLess(a: nat, b: nat)
    requires 0 < b <= a
    ensures (a - b) % b == a % b
  {
    assert a - b == (a / b - 1) * b + a % b;
    ModUnique(a - b, b, a / b - 1, a % b);
  }

  lemma {:induction false} WholeLength(c: Cipher, m: Bytes)
    requires 0 < c.bs
    ensures Whole(c, m) <==> |m| % c.bs == 0
    decreases |m|
  {
    if |m| >= c.bs {
      ModLess(|m|, c.bs);
      WholeLength(c, m[c.bs..]);
    }
  }

  // nbytes & (bsize - 1)
  function Rem(n: nat, bs: nat): (r: nat)
    requires 0 < bs
    ensures r < bs && r <= n && (bs <= n ==> bs <= n - r)
  {
    var r := n % bs;
    assert n == (n / bs) * bs + r;
    MulAtLeast(n / bs, bs);
    r
  }

  // The whole blocks of a stretch
  lemma LastBlock(c: Cipher, s: Bytes, o: nat, n: nat)
    requires 0 < c.bs <= n && o + n <= |s|
    ensures Whole(c, s[o..o + n - Rem(n, c.bs)])
  {
    var k := n - Rem(n, c.bs);
    ModUnique(k, c.bs, n / c.bs, 0);
    WholeLength(c, s[o..o + k]);
  }

  lemma WholeDropLast(c: Cipher, s: Bytes, a: nat, b: nat)
    requires 0 < c.bs && a < b <= |s| && Whole(c, s[a..b])
    ensures b - a >= c.bs && Whole(c, s[a..b - c.bs])
  {
    WholeLength(c, s[a..b]);
    WholeLength(c, s[a..b - c.bs]);
    ModLess(b - a, c.bs);
  }

  // Blocks from s on, the first of them decrypted but not yet combined with the block before
  ghost predicate Half(c: Cipher, was: Bytes, now: Bytes, s: nat, end: nat) {
    CipherOk(c) && s + c.bs <= end <= |was| && Whole(c, was[s + c.bs..end]) &&
    var b := was[s..s + c.bs]; var x := c.dec(b) + Decrypt(c, b, was[s + c.bs..end]);
    s + |x| == end && now == Splice(was, s, x)
  }

  lemma HalfStart(c: Cipher, was: Bytes, s: nat)
    requires CipherOk(c) && s + c.bs <= |was|
    ensures Half(c, was, Splice(was, s, c.dec(was[s..s + c.bs])), s, s + c.bs)
  {
    var b := was[s..s + c.bs];
    assert was[s + c.bs..s + c.bs] == [] && c.dec(b) + [] == c.dec(b);
  }

  // Combining with the block before
  lemma HalfStep(c: Cipher, was: Bytes, now: Bytes, s: nat, end: nat)
    requires Half(c, was, now, s, end) && c.bs <= s
    ensures |now| == |was| && s + c.bs <= end <= |was| && now[s - c.bs..s] == was[s - c.bs..s] && Whole(c, was[s..end])
    ensures var v := was[s - c.bs..s];
            s + |Decrypt(c, v, was[s..end])| == end &&
            |now[s..s + c.bs]| == |v| && Splice(now, s, Xor(now[s..s + c.bs], v)) == Splice(was, s, Decrypt(c, v, was[s..end]))
  {
    hide Half, Decrypt, Xor, Splice, Whole;
    BeforeHalf(c, was, now, s, end);
    HalfEnd(c, was, now, s, end, was[s - c.bs..s]);
  }

  lemma HalfEnd(c: Cipher, was: Bytes, now: Bytes, s: nat, end: nat, v: Bytes)
    requires Half(c, was, now, s, end) && |v| == c.bs
    ensures |now| == |was| && s + c.bs <= end <= |was| && Whole(c, was[s..end])
    ensures s + |Decrypt(c, v, was[s..end])| == end
    ensures Splice(now, s, Xor(now[s..s + c.bs], v)) == Splice(was, s, Decrypt(c, v, was[s..end]))
  {
    hide Decrypt, Xor, Whole, CipherOk, Splice;
    var b, m := was[s..s + c.bs], was[s + c.bs..end];
    BlockSizes(c, b);
    DecryptEarlier(c, v, b, m);
    assert b + m == was[s..end];
    SpliceFront(was, s, c.dec(b), Decrypt(c, b, m), Xor(c.dec(b), v));
  }

  lemma SpliceFront(s: Bytes, o: nat, x: Bytes, y: Bytes, x': Bytes)
    requires o + |x| + |y| <= |s| && |x'| == |x|
    ensures Splice(s, o, x + y)[o..o + |x|] == x
    ensures Splice(Splice(s, o, x + y), o, x') == Splice(s, o, x' + y)
  {
  }

  lemma HalfEarlier(c: Cipher, was: Bytes, now: Bytes, s: nat, end: nat)
    requires CipherOk(c) && c.bs <= s <= end <= |was| && Whole(c, was[s..end])
    requires var p := s - c.bs; var x := Decrypt(c, was[p..s], was[s..end]); s + |x| == end && now == Splice(was, s, x)
    ensures now[s - c.bs..s] == was[s - c.bs..s]
    ensures var p := s - c.bs; |c.dec(was[p..s])| == c.bs && Half(c, was, Splice(now, p, c.dec(was[p..s])), p, end)
  {
    hide Decrypt, Whole, CipherOk, Splice;
    Positive(c);
    var p := s - c.bs;
    BlockSizes(c, was[p..s]);
    SpliceBefore(was, p, c.dec(was[p..s]), Decrypt(c, was[p..s], was[s..end]));
    SpliceOutside(was, s, Decrypt(c, was[p..s], was[s..end]), p, c.bs);
  }

  lemma SpliceBefore(s: Bytes, o: nat, x: Bytes, y: Bytes)
    requires o + |x| + |y| <= |s|
    ensures Splice(Splice(s, o + |x|, y), o, x) == Splice(s, o, x + y)
  {
  }

  // Decrypting the block at s in place
  method StartBack(c: Cipher, src: array<bv8>, s: nat)
    requires CipherOk(c) && s + c.bs <= src.Length
    modifies src
    ensures Half(c, old(src[..]), src[..], s, s + c.bs)
  {
    hide *;
    ghost var was := src[..];
    BlockSizes(c, was[s..s + c.bs]);
    Transform(c.dec, src, s, src, s, c.bs);
    HalfStart(c, was, s);
  }

  // The loop body: the exclusive or with the block before, and that block decrypted
  method StepBack(c: Cipher, src: array<bv8>, s: nat, ghost was: Bytes, ghost end: nat)
    requires CipherOk(c) && c.bs <= s && s + c.bs <= src.Length && Half(c, was, src[..], s, end)
    modifies src
    ensures Half(c, was, src[..], s - c.bs, end)
  {
    hide *;
    HalfStep(c, was, src[..], s, end);
    XorInto(src, s, src, s - c.bs, c.bs);
    HalfEarlier(c, was, src[..], s, end);
    Transform(c.dec, src, s - c.bs, src, s - c.bs, c.bs);
  }

  method FinishBack(c: Cipher, src: array<bv8>, s: nat, iv: array<bv8>, ghost was: Bytes, ghost end: nat)
    requires CipherOk(c) && iv.Length == c.bs && iv != src && s + c.bs <= src.Length && Half(c, was, src[..], s, end)
    modifies src
    ensures s + c.bs <= end <= |was| && s + |Decrypt(c, iv[..], was[s..end])| == end
    ensures src[..] == Splice(was, s, Decrypt(c, iv[..], was[s..end]))
  {
    hide *;
    HalfEnd(c, was, src[..], s, end, iv[..]);
    assert iv[0..c.bs] == iv[..];
    XorInto(src, s, iv, 0, c.bs);
  }

  // crypto_cbc_decrypt_inplace goes backwards, so that the cipher block before is still there.
  method DecryptInplace(c: Cipher, src: array<bv8>, so: nat, iv: array<bv8>, n: nat) returns (nbytes: nat)
    requires CipherOk(c) && c.bs <= n && so + n <= src.Length && iv.Length == c.bs && iv != src
    modifies src, iv
    ensures nbytes < c.bs && nbytes <= n && Whole(c, old(src[so..so + n - nbytes]))
    ensures var m := old(src[so..so + n - nbytes]); var x := Decrypt(c, old(iv[..]), m);
            |x| == n - nbytes && src[..] == Splice(old(src[..]), so, x) && iv[..] == Chain(c, old(iv[..]), m)
  {
    hide *;
    Positive(c);
    ghost var iv0, was := iv[..], src[..];
    LastBlock(c, was, so, n);
    var rem := Rem(n, c.bs);
    ghost var end := so + n - rem;
    WholeDropLast(c, was, so, end);
    var s := so + n - rem - c.bs;
    var lastIv := new bv8[c.bs];
    ghost var blank := lastIv[..];
    Copy(lastIv, 0, src, s, c.bs);
    SpliceAll(blank, was[s..s + c.bs]);
    StartBack(c, src, s);
    nbytes := n - c.bs;
    while nbytes >= c.bs
      invariant so <= s <= end - c.bs && nbytes == s - so + rem && iv[..] == iv0
      invariant lastIv[..] == was[end - c.bs..end]
      invariant Half(c, was, src[..], s, end) && Whole(c, was[so..s])
    {
      WholeDropLast(c, was, so, s);
      StepBack(c, src, s, was, end);
      s, nbytes := s - c.bs, nbytes - c.bs;
    }
    if s > so { WholeDropLast(c, was, so, s); }
    FinishBack(c, src, s, iv, was, end);
    assert lastIv[0..c.bs] == was[end - c.bs..end];
    Copy(iv, 0, lastIv, 0, c.bs);
    SpliceAll(iv0, lastIv[0..c.bs]);
    ChainLast(c, iv0, was, so, end);
  }

  lemma ChainLast(c: Cipher, iv: Bytes, s: Bytes, a: nat, b: nat)
    requires 0 < c.bs == |iv| && a + c.bs <= b <= |s|
    ensures Chain(c, iv, s[a..b]) == s[b - c.bs..b]
  {
  }

  lemma BeforeHalf(c: Cipher, was: Bytes, now: Bytes, s: nat, end: nat)
    requires Half(c, was, now, s, end) && c.bs <= s
    ensures |now| == |was| && s + c.bs <= end <= |was| && now[s - c.bs..s] == was[s - c.bs..s]
  {
    hide Decrypt, Whole;
    SpliceOutside(was, s, c.dec(was[s..s + c.bs]) + Decrypt(c, was[s..s + c.bs], was[s + c.bs..end]), s - c.bs, c.bs);
  }
}
