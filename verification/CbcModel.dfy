/**
 * Cipher block chaining as section 6.2 of NIST SP 800-38A describes it, on strings of bytes.
 */
module CbcModel {

  type Bytes = seq<bv8>

  // A block cipher with a fixed key: cia_encrypt, cia_decrypt and cra_blocksize
  datatype Cipher = Cipher(bs: nat, enc: Bytes -> Bytes, dec: Bytes -> Bytes)

  ghost predicate CipherOk(c: Cipher) {
    0 < c.bs && forall b: Bytes :: |b| == c.bs ==> |c.enc(b)| == c.bs && |c.dec(b)| == c.bs && c.dec(c.enc(b)) == b
  }

  function Xor(a: Bytes, b: Bytes): (r: Bytes)
    requires |a| == |b|
    ensures |r| == |a|
  {
    seq(|a|, i requires 0 <= i < |a| == |b| => a[i] ^ b[i])
  }

  function Encrypt(c: Cipher, iv: Bytes, m: Bytes): Bytes
    requires CipherOk(c) && |iv| == c.bs
    decreases |m|
  {
    if |m| < c.bs then []
    else
      var x := c.enc(Xor(m[..c.bs], iv));
      x + Encrypt(c, x, m[c.bs..])
  }

  function Decrypt(c: Cipher, iv: Bytes, m: Bytes): Bytes
    requires CipherOk(c) && |iv| == c.bs
    decreases |m|
  {
    if |m| < c.bs then [] else Xor(c.dec(m[..c.bs]), iv) + Decrypt(c, m[..c.bs], m[c.bs..])
  }

  // The chaining value that cipher text leaves
  function Chain(c: Cipher, iv: Bytes, x: Bytes): (r: Bytes)
    requires 0 < c.bs == |iv|
    ensures |r| == c.bs
  {
    if |x| < c.bs then iv else x[|x| - c.bs..]
  }

  // A whole number of blocks
  predicate Whole(c: Cipher, m: Bytes)
    requires 0 < c.bs
    decreases |m|
  {
    m == [] || (|m| >= c.bs && Whole(c, m[c.bs..]))
  }

  lemma XorTwice(a: Bytes, b: Bytes)
    requires |a| == |b|
    ensures Xor(Xor(a, b), b) == a
  {
    forall i | 0 <= i < |a| ensures Xor(Xor(a, b), b)[i] == a[i] {
      assert (a[i] ^ b[i]) ^ b[i] == a[i];
    }
  }

  lemma {:induction false} EncryptWhole(c: Cipher, iv: Bytes, m: Bytes)
    requires CipherOk(c) && |iv| == c.bs && Whole(c, m)
    ensures |Encrypt(c, iv, m)| == |m| && Whole(c, Encrypt(c, iv, m))
    decreases |m|
  {
    if m != [] {
      var x := c.enc(Xor(m[..c.bs], iv));
      EncryptWhole(c, x, m[c.bs..]);
      assert (x + Encrypt(c, x, m[c.bs..]))[c.bs..] == Encrypt(c, x, m[c.bs..]);
    }
  }

  lemma {:induction false} DecryptWhole(c: Cipher, iv: Bytes, m: Bytes)
    requires CipherOk(c) && |iv| == c.bs && Whole(c, m)
    ensures |Decrypt(c, iv, m)| == |m|
    decreases |m|
  {
    if m != [] { DecryptWhole(c, m[..c.bs], m[c.bs..]); }
  }

  // One block in front
  lemma BlockFirst(c: Cipher, iv: Bytes, b: Bytes, m: Bytes)
    requires CipherOk(c) && |iv| == c.bs == |b|
    ensures Encrypt(c, iv, b + m) == c.enc(Xor(b, iv)) + Encrypt(c, c.enc(Xor(b, iv)), m)
    ensures Decrypt(c, iv, b + m) == Xor(c.dec(b), iv) + Decrypt(c, b, m)
  {
    assert (b + m)[..c.bs] == b && (b + m)[c.bs..] == m;
  }

  lemma Halves(m: Bytes, n: nat)
    requires n <= |m|
    ensures m[..n] + m[n..] == m
  {
  }

  lemma Associate(a: Bytes, b: Bytes, c: Bytes)
    ensures (a + b) + c == a + (b + c)
  {
  }

  // Decryption undoes encryption.
  lemma {:induction false} DecryptUndoes(c: Cipher, iv: Bytes, m: Bytes)
    requires CipherOk(c) && |iv| == c.bs && Whole(c, m)
    ensures Decrypt(c, iv, Encrypt(c, iv, m)) == m
    decreases |m|
  {
    if m != [] {
      hide Decrypt, Xor;
      var b := m[..c.bs];
      var x := c.enc(Xor(b, iv));
      DecryptUndoes(c, x, m[c.bs..]);
      BlockFirst(c, iv, x, Encrypt(c, x, m[c.bs..]));
      XorTwice(b, iv);
      Halves(m, c.bs);
    }
  }

  // ---- cutting a message -----------------------------------------------------------------------

  // Two stretches processed one after the other are processed as one.
  lemma {:induction false} EncryptConcat(c: Cipher, iv: Bytes, a: Bytes, b: Bytes)
    requires CipherOk(c) && |iv| == c.bs && Whole(c, a)
    ensures var x := Encrypt(c, iv, a);
            Encrypt(c, iv, a + b) == x + Encrypt(c, Chain(c, iv, x), b)
    decreases |a|
  {
    if a == [] {
      assert a + b == b && [] + Encrypt(c, iv, b) == Encrypt(c, iv, b);
    } else {
      hide Encrypt, Xor, Chain;
      var f, rest := a[..c.bs], a[c.bs..];
      var y := c.enc(Xor(f, iv));
      var r := Encrypt(c, y, rest);
      Halves(a, c.bs);
      Associate(f, rest, b);
      BlockFirst(c, iv, f, rest);
      BlockFirst(c, iv, f, rest + b);
      EncryptConcat(c, y, rest, b);
      EncryptWhole(c, y, rest);
      ChainTail(c, iv, y, r);
      Associate(y, r, Encrypt(c, Chain(c, y, r), b));
    }
  }

  lemma ChainTail(c: Cipher, iv: Bytes, y: Bytes, r: Bytes)
    requires 0 < c.bs == |iv| == |y| && Whole(c, r)
    ensures Chain(c, iv, y + r) == Chain(c, y, r)
  {
    if r == [] {
      assert y + r == y;
    } else {
      assert (y + r)[|y + r| - c.bs..] == r[|r| - c.bs..];
    }
  }

  lemma {:induction false} DecryptConcat(c: Cipher, iv: Bytes, a: Bytes, b: Bytes)
    requires CipherOk(c) && |iv| == c.bs && Whole(c, a)
    ensures Decrypt(c, iv, a + b) == Decrypt(c, iv, a) + Decrypt(c, Chain(c, iv, a), b)
    decreases |a|
  {
    if a == [] {
      assert a + b == b && [] + Decrypt(c, iv, b) == Decrypt(c, iv, b);
    } else {
      hide Decrypt, Xor, Chain;
      var f, rest := a[..c.bs], a[c.bs..];
      Halves(a, c.bs);
      Associate(f, rest, b);
      BlockFirst(c, iv, f, rest);
      BlockFirst(c, iv, f, rest + b);
      DecryptConcat(c, f, rest, b);
      ChainTail(c, iv, f, rest);
      Associate(Xor(c.dec(f), iv), Decrypt(c, f, rest), Decrypt(c, Chain(c, iv, a), b));
    }
  }

  lemma {:induction false} WholeConcat(c: Cipher, a: Bytes, b: Bytes)
    requires 0 < c.bs && Whole(c, a)
    ensures Whole(c, a + b) == Whole(c, b)
    decreases |a|
  {
    if a == [] {
      assert a + b == b;
    } else {
      assert (a + b)[c.bs..] == a[c.bs..] + b;
      WholeConcat(c, a[c.bs..], b);
    }
  }

  lemma OneBlock(c: Cipher, iv: Bytes, b: Bytes)
    requires CipherOk(c) && |iv| == c.bs == |b|
    ensures Whole(c, b) && Encrypt(c, iv, b) == c.enc(Xor(b, iv)) && Decrypt(c, iv, b) == Xor(c.dec(b), iv)
  {
    assert b[..c.bs] == b && b[c.bs..] == [];
  }

  // ---- memory ----------------------------------------------------------------------------------

  // x written at offset o
  function Splice(s: Bytes, o: nat, x: Bytes): (r: Bytes)
    requires o + |x| <= |s|
    ensures |r| == |s|
  {
    s[..o] + x + s[o + |x|..]
  }

  lemma SpliceTwice(s: Bytes, o: nat, x: Bytes, y: Bytes)
    requires o + |x| + |y| <= |s|
    ensures Splice(Splice(s, o, x), o + |x|, y) == Splice(s, o, x + y)
  {
  }

  lemma SpliceOutside(s: Bytes, o: nat, x: Bytes, p: nat, n: nat)
    requires o + |x| <= |s| && p + n <= |s| && (p + n <= o || o + |x| <= p)
    ensures Splice(s, o, x)[p..p + n] == s[p..p + n]
  {
  }
}
