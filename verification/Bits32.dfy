/**
 * 32-bit words: operations with names, so that proofs can go by their laws instead of by bits.
 */
module Bits32 {
  function X(a: bv32, b: bv32): bv32 { a ^ b }

  function And(a: bv32, b: bv32): bv32 { a & b }

  function Or(a: bv32, b: bv32): bv32 { a | b }

  function Not(a: bv32): bv32 { !a }

  function Rol1(x: bv32): bv32 { (x << 1) | (x >> 31) }

  function Ror8(x: bv32): bv32 { (x >> 8) | (x << 24) }

  function Rol8(x: bv32): bv32 { (x << 8) | (x >> 24) }

  function Byte(x: bv32, i: nat): bv8
    requires i < 4
  {
    if i == 0 then (x >> 24) as bv8
    else if i == 1 then ((x >> 16) & 0xFF) as bv8
    else if i == 2 then ((x >> 8) & 0xFF) as bv8
    else (x & 0xFF) as bv8
  }

  function Join(a: bv8, b: bv8, c: bv8, d: bv8): bv32 {
    (a as bv32 << 24) | (b as bv32 << 16) | (c as bv32 << 8) | (d as bv32)
  }

  // ---- laws of the 32-bit operations ---------------------------------------------------------

  lemma XComm(a: bv32, b: bv32)
    ensures X(a, b) == X(b, a)
  {
  }

  lemma XZero(a: bv32)
    ensures X(a, 0) == a
  {
  }

  lemma XSelf(a: bv32)
    ensures X(a, a) == 0
  {
  }

  lemma XIs(a: bv32, b: bv32)
    ensures X(a, b) == a ^ b
  {
  }

  lemma AndIs(a: bv32, k: bv32)
    ensures And(a, k) == a & k && And(a, Not(k)) == a & !k
  {
  }

  lemma OrIs(a: bv32, k: bv32)
    ensures Or(a, k) == a | k
  {
  }

  lemma XBits(a: bv32, b: bv32, c: bv32)
    ensures X(a ^ b, c) == X(a, b ^ c)
  {
  }

  lemma XAssoc(a: bv32, b: bv32, c: bv32)
    ensures X(X(a, b), c) == X(a, X(b, c))
  {
    hide X;
    XIs(a, b);
    XIs(b, c);
    XBits(a, b, c);
  }

  lemma XTwice(a: bv32, b: bv32)
    ensures X(X(a, b), b) == a
  {
    hide X;
    XAssoc(a, b, b);
    XSelf(b);
    XZero(a);
  }

  lemma XSwap(a: bv32, b: bv32, c: bv32, d: bv32)
    ensures X(X(a, b), X(c, d)) == X(X(a, c), X(b, d))
  {
    hide X;
    XAssoc(a, b, X(c, d));
    XAssoc(b, c, d);
    XComm(b, c);
    XAssoc(c, b, d);
    XAssoc(a, c, X(b, d));
  }

  lemma XShift(y: bv32, g: bv32, p: bv32, n: bv32)
    ensures X(X(y, p), X(g, X(p, n))) == X(X(y, g), n)
  {
    hide X;
    XSwap(y, p, g, X(p, n));
    XComm(p, n);
    XComm(p, X(n, p));
    XTwice(n, p);
  }

  lemma XCancel(a: bv32, b: bv32, m: bv32)
    ensures X(X(a, m), X(b, m)) == X(a, b)
  {
    hide X;
    XSwap(a, m, b, m);
    XSelf(m);
    XZero(X(a, b));
  }

  lemma AndBits(a: bv32, b: bv32, k: bv32)
    ensures And(a ^ b, k) == X(a & k, b & k)
  {
  }

  lemma AndX(a: bv32, b: bv32, k: bv32)
    ensures And(X(a, b), k) == X(And(a, k), And(b, k))
  {
    hide X, And;
    XIs(a, b);
    AndIs(a, k);
    AndIs(b, k);
    AndBits(a, b, k);
  }

  lemma OrBits(a: bv32, k: bv32)
    ensures (a & !k) ^ k == a | k
  {
  }

  lemma OrX(a: bv32, b: bv32, k: bv32)
    ensures Or(X(a, b), k) == X(Or(a, k), And(b, Not(k)))
  {
    hide X, And, Or, Not;
    OrAnd(X(a, b), k);
    OrAnd(a, k);
    AndX(a, b, Not(k));
    var p, q := And(a, Not(k)), And(b, Not(k));
    XAssoc(p, q, k);
    XComm(q, k);
    XAssoc(p, k, q);
  }

  lemma OrAnd(a: bv32, k: bv32)
    ensures Or(a, k) == X(And(a, Not(k)), k)
  {
    hide X, And, Or, Not;
    AndIs(a, k);
    XIs(a & !k, k);
    OrIs(a, k);
    OrBits(a, k);
  }

  lemma RolX(a: bv32, b: bv32)
    ensures Rol1(X(a, b)) == X(Rol1(a), Rol1(b))
  {
  }

  lemma JoinXor(a: bv8, b: bv8, c: bv8, d: bv8, a': bv8, b': bv8, c': bv8, d': bv8)
    ensures X(Join(a, b, c, d), Join(a', b', c', d')) == Join(a ^ a', b ^ b', c ^ c', d ^ d')
  {
  }

  lemma JoinXorAll()
    ensures forall a, b, c, d, a', b', c', d' {:trigger X(Join(a, b, c, d), Join(a', b', c', d'))} ::
              X(Join(a, b, c, d), Join(a', b', c', d')) == Join(a ^ a', b ^ b', c ^ c', d ^ d')
  {
    forall a, b, c, d, a', b', c', d'
      ensures X(Join(a, b, c, d), Join(a', b', c', d')) == Join(a ^ a', b ^ b', c ^ c', d ^ d')
    {
      JoinXor(a, b, c, d, a', b', c', d');
    }
  }

  lemma JoinRor(a: bv8, b: bv8, c: bv8, d: bv8)
    ensures Ror8(Join(a, b, c, d)) == Join(d, a, b, c)
  {
  }

  lemma RorX(a: bv32, b: bv32)
    ensures Ror8(X(a, b)) == X(Ror8(a), Ror8(b))
  {
  }

  lemma RorRol(a: bv32)
    ensures Ror8(Rol8(a)) == a
  {
  }
}
