/**
 * The fast form of Camellia: combined tables, the whitening keys kw2 and kw4 pushed through
 * rounds and layers, the round keys moved behind the S-boxes. For every table the setup
 * produces it computes the cipher of RFC 3713, and decryption undoes encryption for any table.
 *
 * A pair of array elements SUBKEY_L(i), SUBKEY_R(i) is one Word here.
 */
module CamelliaFast {
  import opened Bits32
  import opened CamelliaSpec

  // camellia_sp1110, camellia_sp0222, camellia_sp3033 and camellia_sp4404
  function Sp1110(b: Boxes, x: bv8): bv32 { Join(b.s1(x), b.s1(x), b.s1(x), 0) }

  function Sp0222(b: Boxes, x: bv8): bv32 { Join(0, b.s2(x), b.s2(x), b.s2(x)) }

  function Sp3033(b: Boxes, x: bv8): bv32 { Join(b.s3(x), 0, b.s3(x), b.s3(x)) }

  function Sp4404(b: Boxes, x: bv8): bv32 { Join(b.s4(x), b.s4(x), 0, b.s4(x)) }

  // The table look-ups of CAMELLIA_ROUNDSM
  function LookLeft(b: Boxes, x: bv32): bv32 {
    X(X(X(Sp1110(b, Byte(x, 0)), Sp0222(b, Byte(x, 1))), Sp3033(b, Byte(x, 2))), Sp4404(b, Byte(x, 3)))
  }

  function LookRight(b: Boxes, x: bv32): bv32 {
    X(X(X(Sp1110(b, Byte(x, 3)), Sp0222(b, Byte(x, 0))), Sp3033(b, Byte(x, 1))), Sp4404(b, Byte(x, 2)))
  }

  // CAMELLIA_ROUNDSM: the new value of y
  function RoundSm(b: Boxes, x: Word, k: Word, y: Word): Word {
    var il := X(LookLeft(b, x.l), k.l);
    var ir := X(LookRight(b, x.r), X(il, k.r));
    Word(X(y.l, ir), X(y.r, X(Ror8(il), ir)))
  }

  // What a key word contributes behind the look-ups
  function Half(k: Word): Word { Word(X(k.l, k.r), X(Ror8(k.l), X(k.l, k.r))) }

  // The inverse of the last half of the P-function
  function HalfInv(t: Word): Word {
    var dw := Rol8(X(t.l, t.r));
    Word(dw, X(t.l, dw))
  }

  // ---- the combined tables compute S and P --------------------------------------------------

  function Plus(a: bv8, b: bv8): bv8 { a ^ b }

  lemma JoinPlus(a: bv8, b: bv8, c: bv8, d: bv8, a': bv8, b': bv8, c': bv8, d': bv8)
    ensures X(Join(a, b, c, d), Join(a', b', c', d')) == Join(Plus(a, a'), Plus(b, b'), Plus(c, c'), Plus(d, d'))
  {
    hide X, Join;
    JoinXor(a, b, c, d, a', b', c', d');
  }

  lemma PlusZero(a: bv8)
    ensures Plus(a, 0) == a && Plus(0, a) == a
  {
  }

  lemma PlusThree(a: bv8, b: bv8, c: bv8)
    ensures Plus(Plus(a, b), c) == a ^ b ^ c
  {
  }

  lemma LookBytes(p: bv8, q: bv8, r: bv8, s: bv8)
    ensures X(X(X(Join(p, p, p, 0), Join(0, q, q, q)), Join(r, 0, r, r)), Join(s, s, 0, s))
            == Join(p ^ r ^ s, p ^ q ^ s, p ^ q ^ r, q ^ r ^ s)
  {
    hide X, Join, Plus;
    var pq := Plus(p, q);
    PlusZero(p);
    PlusZero(q);
    PlusZero(pq);
    PlusZero(Plus(pq, r));
    JoinPlus(p, p, p, 0, 0, q, q, q);
    JoinPlus(p, pq, pq, q, r, 0, r, r);
    JoinPlus(Plus(p, r), pq, Plus(pq, r), Plus(q, r), s, s, 0, s);
    PlusThree(p, r, s);
    PlusThree(p, q, s);
    PlusThree(p, q, r);
    PlusThree(q, r, s);
  }

  // The P-function from the two groups of look-ups
  lemma PermuteHalves(t1: bv8, t2: bv8, t3: bv8, t4: bv8, t5: bv8, t6: bv8, t7: bv8, t8: bv8)
    ensures var il := Join(t1 ^ t3 ^ t4, t1 ^ t2 ^ t4, t1 ^ t2 ^ t3, t2 ^ t3 ^ t4);
            var ir := Join(t8 ^ t6 ^ t7, t8 ^ t5 ^ t7, t8 ^ t5 ^ t6, t5 ^ t6 ^ t7);
            Permute(t1, t2, t3, t4, t5, t6, t7, t8) == Word(X(il, ir), X(Ror8(il), X(il, ir)))
  {
    hide X, Join, Ror8;
    JoinXorAll();
    JoinRor(t1 ^ t3 ^ t4, t1 ^ t2 ^ t4, t1 ^ t2 ^ t3, t2 ^ t3 ^ t4);
  }

  lemma SPIs(b: Boxes, x: Word)
    ensures var il, ir := LookLeft(b, x.l), LookRight(b, x.r);
            SP(b, x) == Word(X(il, ir), X(Ror8(il), X(il, ir)))
  {
    hide X, Join, Ror8, Byte, Permute;
    var t1, t2, t3, t4 := b.s1(Byte(x.l, 0)), b.s2(Byte(x.l, 1)), b.s3(Byte(x.l, 2)), b.s4(Byte(x.l, 3));
    var t5, t6, t7, t8 := b.s2(Byte(x.r, 0)), b.s3(Byte(x.r, 1)), b.s4(Byte(x.r, 2)), b.s1(Byte(x.r, 3));
    LookBytes(t1, t2, t3, t4);
    LookBytes(t8, t5, t6, t7);
    PermuteHalves(t1, t2, t3, t4, t5, t6, t7, t8);
  }

  // A fast round adds S and P of its input and the contribution of its key.
  lemma RoundSmIs(b: Boxes, x: Word, k: Word, y: Word)
    ensures RoundSm(b, x, k, y) == Xor(y, Xor(SP(b, x), Half(k)))
  {
    hide X, Ror8, LookLeft, LookRight, SP;
    var p, q := LookLeft(b, x.l), LookRight(b, x.r);
    SPIs(b, x);
    RorX(p, k.l);
    XAssoc(p, k.l, k.r);
    XAssoc(q, p, X(k.l, k.r));
    XComm(p, q);
    XSwap(Ror8(p), Ror8(k.l), X(p, q), X(k.l, k.r));
  }

  lemma HalfUndo(t: Word)
    ensures Half(HalfInv(t)) == t
  {
    hide X, Ror8, Rol8;
    var s := X(t.l, t.r);
    var dw := Rol8(s);
    XComm(dw, X(t.l, dw));
    XTwice(t.l, dw);
    RorRol(s);
    XComm(t.l, t.r);
    XTwice(t.r, t.l);
  }
}
