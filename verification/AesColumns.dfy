/**
 * The columns of AES as little-endian words: MixColumns and its inverse, the latter the way
 * imix_col computes it on packed bytes.
 */
module AesColumns {
  import opened Bits32

  // star_x: every byte times x in GF(2^8)
  function Star(x: bv32): bv32 { ((x & 0x7f7f7f7f) << 1) ^ (((x & 0x80808080) >> 7) * 0x1b) }

  // imix_col
  function IMix(x: bv32): bv32 {
    var u := Star(x);
    var v := Star(u);
    var w := Star(v);
    var t := X(w, x);
    X(X(X(u, v), w), X(X(Ror8(X(u, t)), Ror8(Ror8(X(v, t)))), Ror8(Ror8(Ror8(t)))))
  }

  // MixColumns of one column, section 5.1.3 of FIPS 197, as a sum of rotated words
  function Mix(x: bv32): bv32 {
    X(X(Star(x), Ror8(X(Star(x), x))), X(Ror8(Ror8(x)), Ror8(Ror8(Ror8(x)))))
  }

  // The parts of star_x: what is shifted out of each byte returns as 0x1b, the sum of four bits.
  function Shifted(x: bv32): bv32 { (x & 0x7f7f7f7f) << 1 }

  function Carry(x: bv32, n: bv8): bv32
    requires n < 8
  {
    (x & 0x80808080) >> n
  }

  lemma ShiftedX(a: bv32, b: bv32)
    ensures Shifted(a ^ b) == X(Shifted(a), Shifted(b))
  {
  }

  lemma CarryX(a: bv32, b: bv32)
    ensures Carry(a ^ b, 7) == X(Carry(a, 7), Carry(b, 7)) && Carry(a ^ b, 6) == X(Carry(a, 6), Carry(b, 6))
    ensures Carry(a ^ b, 4) == X(Carry(a, 4), Carry(b, 4)) && Carry(a ^ b, 3) == X(Carry(a, 3), Carry(b, 3))
  {
  }

  lemma StarParts(x: bv32)
    ensures Star(x) == X(Shifted(x), X(X(Carry(x, 7), Carry(x, 6)), X(Carry(x, 4), Carry(x, 3))))
  {
  }

  lemma StarX(a: bv32, b: bv32)
    ensures Star(X(a, b)) == X(Star(a), Star(b))
  {
    hide X, Star, Shifted, Carry;
    XIs(a, b);
    StarParts(a);
    StarParts(b);
    StarParts(a ^ b);
    ShiftedX(a, b);
    CarryX(a, b);
    XSwap(Carry(a, 7), Carry(b, 7), Carry(a, 6), Carry(b, 6));
    XSwap(Carry(a, 4), Carry(b, 4), Carry(a, 3), Carry(b, 3));
    XSwap(X(Carry(a, 7), Carry(a, 6)), X(Carry(b, 7), Carry(b, 6)), X(Carry(a, 4), Carry(a, 3)), X(Carry(b, 4), Carry(b, 3)));
    XSwap(Shifted(a), Shifted(b), X(X(Carry(a, 7), Carry(a, 6)), X(Carry(a, 4), Carry(a, 3))),
          X(X(Carry(b, 7), Carry(b, 6)), X(Carry(b, 4), Carry(b, 3))));
  }

  lemma RorsX(a: bv32, b: bv32)
    ensures Ror8(X(a, b)) == X(Ror8(a), Ror8(b))
    ensures Ror8(Ror8(X(a, b))) == X(Ror8(Ror8(a)), Ror8(Ror8(b)))
    ensures Ror8(Ror8(Ror8(X(a, b)))) == X(Ror8(Ror8(Ror8(a))), Ror8(Ror8(Ror8(b))))
  {
    hide X, Ror8;
    RorX(a, b);
    RorX(Ror8(a), Ror8(b));
    RorX(Ror8(Ror8(a)), Ror8(Ror8(b)));
  }

  // Both are linear.
  lemma MixX(a: bv32, b: bv32)
    ensures Mix(X(a, b)) == X(Mix(a), Mix(b))
  {
    hide X, Ror8, Star;
    StarX(a, b);
    XSwap(Star(a), Star(b), a, b);
    RorX(X(Star(a), a), X(Star(b), b));
    RorsX(a, b);
    XSwap(Star(a), Star(b), Ror8(X(Star(a), a)), Ror8(X(Star(b), b)));
    XSwap(Ror8(Ror8(a)), Ror8(Ror8(b)), Ror8(Ror8(Ror8(a))), Ror8(Ror8(Ror8(b))));
    XSwap(X(Star(a), Ror8(X(Star(a), a))), X(Star(b), Ror8(X(Star(b), b))),
          X(Ror8(Ror8(a)), Ror8(Ror8(Ror8(a)))), X(Ror8(Ror8(b)), Ror8(Ror8(Ror8(b)))));
  }

  lemma IMixX(a: bv32, b: bv32)
    ensures IMix(X(a, b)) == X(IMix(a), IMix(b))
  {
    hide X, Ror8, Star;
    var u, u' := Star(a), Star(b);
    var v, v' := Star(u), Star(u');
    var w, w' := Star(v), Star(v');
    var t, t' := X(w, a), X(w', b);
    StarX(a, b);
    StarX(u, u');
    StarX(v, v');
    XSwap(w, w', a, b);
    XSwap(u, u', t, t');
    XSwap(v, v', t, t');
    RorsX(X(u, t), X(u', t'));
    RorsX(X(v, t), X(v', t'));
    RorsX(t, t');
    var p, p' := Ror8(X(u, t)), Ror8(X(u', t'));
    var q, q' := Ror8(Ror8(X(v, t))), Ror8(Ror8(X(v', t')));
    var r, r' := Ror8(Ror8(Ror8(t))), Ror8(Ror8(Ror8(t')));
    XSwap(p, p', q, q');
    XSwap(X(p, q), X(p', q'), r, r');
    XSwap(u, u', v, v');
    XSwap(X(u, v), X(u', v'), w, w');
    XSwap(X(X(u, v), w), X(X(u', v'), w'), X(X(p, q), r), X(X(p', q'), r'));
  }

  lemma StarRor(a: bv32)
    ensures Star(Ror8(a)) == Ror8(Star(a))
  {
  }

  lemma RorFour(a: bv32)
    ensures Ror8(Ror8(Ror8(Ror8(a)))) == a
  {
  }

  // Both commute with rotating the column.
  lemma MixRor(a: bv32)
    ensures Mix(Ror8(a)) == Ror8(Mix(a))
  {
    hide X, Ror8, Star;
    StarRor(a);
    RorX(Star(a), a);
    RorX(X(Star(a), Ror8(X(Star(a), a))), X(Ror8(Ror8(a)), Ror8(Ror8(Ror8(a)))));
    RorX(Star(a), Ror8(X(Star(a), a)));
    RorX(Ror8(Ror8(a)), Ror8(Ror8(Ror8(a))));
  }

  lemma IMixRor(a: bv32)
    ensures IMix(Ror8(a)) == Ror8(IMix(a))
  {
    hide X, Ror8, Star;
    var u := Star(a);
    var v := Star(u);
    var w := Star(v);
    var t := X(w, a);
    StarRor(a);
    StarRor(u);
    StarRor(v);
    RorX(w, a);
    RorX(u, t);
    RorX(v, t);
    RorX(u, v);
    RorX(X(u, v), w);
    var p, q, r := Ror8(X(u, t)), Ror8(Ror8(X(v, t))), Ror8(Ror8(Ror8(t)));
    RorX(p, q);
    RorX(X(p, q), r);
    RorX(X(X(u, v), w), X(X(p, q), r));
  }

  // byte(x, n) of the code
  function At(x: bv32, n: nat): bv8
    requires n < 4
  {
    Byte(x, 3 - n)
  }

  function Pack(a: bv8, b: bv8, c: bv8, d: bv8): bv32 { Join(d, c, b, a) }

  lemma AtPack(a: bv8, b: bv8, c: bv8, d: bv8)
    ensures At(Pack(a, b, c, d), 0) == a && At(Pack(a, b, c, d), 1) == b
    ensures At(Pack(a, b, c, d), 2) == c && At(Pack(a, b, c, d), 3) == d
  {
  }

  lemma PackAt(x: bv32)
    ensures Pack(At(x, 0), At(x, 1), At(x, 2), At(x, 3)) == x
  {
  }

  // A word as the sum of its bytes
  function Sum4(a: bv32, b: bv32, c: bv32, d: bv32): bv32 { X(X(a, b), X(c, d)) }

  lemma SumOfBytes(a: bv8, b: bv8, c: bv8, d: bv8)
    ensures Pack(a, b, c, d) == Sum4(Pack(a, 0, 0, 0), Pack(0, b, 0, 0), Pack(0, 0, c, 0), Pack(0, 0, 0, d))
  {
    hide X, Join;
    JoinXorAll();
  }

  lemma MixSum(a: bv32, b: bv32, c: bv32, d: bv32)
    ensures Mix(Sum4(a, b, c, d)) == Sum4(Mix(a), Mix(b), Mix(c), Mix(d))
  {
    hide X, Mix;
    MixX(X(a, b), X(c, d));
    MixX(a, b);
    MixX(c, d);
  }

  lemma IMixSum(a: bv32, b: bv32, c: bv32, d: bv32)
    ensures IMix(Sum4(a, b, c, d)) == Sum4(IMix(a), IMix(b), IMix(c), IMix(d))
  {
    hide X, IMix;
    IMixX(X(a, b), X(c, d));
    IMixX(a, b);
    IMixX(c, d);
  }

  // The positions of a byte in a column are rotations of each other.
  lemma Rotated(p: bv8)
    ensures Ror8(Pack(0, p, 0, 0)) == Pack(p, 0, 0, 0) && Ror8(Pack(0, 0, p, 0)) == Pack(0, p, 0, 0)
    ensures Ror8(Pack(0, 0, 0, p)) == Pack(0, 0, p, 0)
  {
    hide Ror8, Join;
    JoinRor(0, 0, p, 0);
    JoinRor(0, p, 0, 0);
    JoinRor(p, 0, 0, 0);
  }

  lemma IMixMixFirst(p: bv8)
    ensures IMix(Mix(Pack(p, 0, 0, 0))) == Pack(p, 0, 0, 0)
  {
  }

  lemma UnRor(a: bv32, b: bv32)
    requires Ror8(a) == Ror8(b)
    ensures a == b
  {
    hide Ror8;
    RorFour(a);
    RorFour(b);
  }

  lemma IMixMixByte(p: bv8)
    ensures IMix(Mix(Pack(p, 0, 0, 0))) == Pack(p, 0, 0, 0) && IMix(Mix(Pack(0, p, 0, 0))) == Pack(0, p, 0, 0)
    ensures IMix(Mix(Pack(0, 0, p, 0))) == Pack(0, 0, p, 0) && IMix(Mix(Pack(0, 0, 0, p))) == Pack(0, 0, 0, p)
  {
    hide X, Mix, IMix, Ror8, Join;
    IMixMixFirst(p);
    Rotated(p);
    MixRor(Pack(0, p, 0, 0));
    IMixRor(Mix(Pack(0, p, 0, 0)));
    UnRor(IMix(Mix(Pack(0, p, 0, 0))), Pack(0, p, 0, 0));
    MixRor(Pack(0, 0, p, 0));
    IMixRor(Mix(Pack(0, 0, p, 0)));
    UnRor(IMix(Mix(Pack(0, 0, p, 0))), Pack(0, 0, p, 0));
    MixRor(Pack(0, 0, 0, p));
    IMixRor(Mix(Pack(0, 0, 0, p)));
    UnRor(IMix(Mix(Pack(0, 0, 0, p))), Pack(0, 0, 0, p));
  }

  // imix_col undoes MixColumns.
  lemma IMixMix(x: bv32)
    ensures IMix(Mix(x)) == x
  {
    hide X, Mix, IMix, Join, Byte;
    var a, b, c, d := At(x, 0), At(x, 1), At(x, 2), At(x, 3);
    PackAt(x);
    SumOfBytes(a, b, c, d);
    MixSum(Pack(a, 0, 0, 0), Pack(0, b, 0, 0), Pack(0, 0, c, 0), Pack(0, 0, 0, d));
    IMixSum(Mix(Pack(a, 0, 0, 0)), Mix(Pack(0, b, 0, 0)), Mix(Pack(0, 0, c, 0)), Mix(Pack(0, 0, 0, d)));
    IMixMixByte(a);
    IMixMixByte(b);
    IMixMixByte(c);
    IMixMixByte(d);
  }

  // ---- the matrices of FIPS 197 ---------------------------------------------------------------

  // Multiplication by x in GF(2^8), section 4.2.1
  function Xtime(a: bv8): bv8 { (a << 1) ^ (if a & 0x80 != 0 then 0x1b else 0) }

  // A column times the matrix of section 5.1.3
  function Mixed(a: bv8, b: bv8, c: bv8, d: bv8): bv32 {
    Pack(Xtime(a) ^ (Xtime(b) ^ b) ^ c ^ d, a ^ Xtime(b) ^ (Xtime(c) ^ c) ^ d,
         a ^ b ^ Xtime(c) ^ (Xtime(d) ^ d), (Xtime(a) ^ a) ^ b ^ c ^ Xtime(d))
  }

  function MixColumn(x: bv32): bv32 { Mixed(At(x, 0), At(x, 1), At(x, 2), At(x, 3)) }

  lemma MixFirst(p: bv8)
    ensures Mix(Pack(p, 0, 0, 0)) == Pack(Xtime(p), p, p, Xtime(p) ^ p)
  {
  }

  lemma MixByte(p: bv8, p2: bv8, p3: bv8)
    requires p2 == Xtime(p) && p3 == Xtime(p) ^ p
    ensures Mix(Pack(p, 0, 0, 0)) == Pack(p2, p, p, p3) && Mix(Pack(0, p, 0, 0)) == Pack(p3, p2, p, p)
    ensures Mix(Pack(0, 0, p, 0)) == Pack(p, p3, p2, p) && Mix(Pack(0, 0, 0, p)) == Pack(p, p, p3, p2)
  {
    hide X, Mix, Ror8, Join, Xtime;
    MixFirst(p);
    Rotated(p);
    MixRor(Pack(0, p, 0, 0));
    JoinRor(p, p, p2, p3);
    UnRor(Mix(Pack(0, p, 0, 0)), Pack(p3, p2, p, p));
    MixRor(Pack(0, 0, p, 0));
    JoinRor(p, p2, p3, p);
    UnRor(Mix(Pack(0, 0, p, 0)), Pack(p, p3, p2, p));
    MixRor(Pack(0, 0, 0, p));
    JoinRor(p2, p3, p, p);
    UnRor(Mix(Pack(0, 0, 0, p)), Pack(p, p, p3, p2));
  }

  lemma MixBytes()
    ensures forall p :: Mix(Pack(p, 0, 0, 0)) == Pack(Xtime(p), p, p, Xtime(p) ^ p)
    ensures forall p :: Mix(Pack(0, p, 0, 0)) == Pack(Xtime(p) ^ p, Xtime(p), p, p)
    ensures forall p :: Mix(Pack(0, 0, p, 0)) == Pack(p, Xtime(p) ^ p, Xtime(p), p)
    ensures forall p :: Mix(Pack(0, 0, 0, p)) == Pack(p, p, Xtime(p) ^ p, Xtime(p))
  {
    hide *;
    forall p
      ensures Mix(Pack(p, 0, 0, 0)) == Pack(Xtime(p), p, p, Xtime(p) ^ p)
      ensures Mix(Pack(0, p, 0, 0)) == Pack(Xtime(p) ^ p, Xtime(p), p, p)
      ensures Mix(Pack(0, 0, p, 0)) == Pack(p, Xtime(p) ^ p, Xtime(p), p)
      ensures Mix(Pack(0, 0, 0, p)) == Pack(p, p, Xtime(p) ^ p, Xtime(p))
    {
      MixByte(p, Xtime(p), Xtime(p) ^ p);
    }
  }

  lemma MixPacked(a: bv8, b: bv8, c: bv8, d: bv8)
    ensures Mix(Pack(a, b, c, d)) == Mixed(a, b, c, d)
  {
    hide X, Mix, Join, Xtime, Byte;
    SumOfBytes(a, b, c, d);
    MixSum(Pack(a, 0, 0, 0), Pack(0, b, 0, 0), Pack(0, 0, c, 0), Pack(0, 0, 0, d));
    MixBytes();
    JoinXorAll();
  }

  lemma MixIsMixColumn(x: bv32)
    ensures Mix(x) == MixColumn(x)
  {
    hide Mix, Mixed, Pack, At;
    PackAt(x);
    MixPacked(At(x, 0), At(x, 1), At(x, 2), At(x, 3));
  }

  function Times9(a: bv8): bv8 { Xtime(Xtime(Xtime(a))) ^ a }

  function TimesB(a: bv8): bv8 { Xtime(Xtime(Xtime(a))) ^ Xtime(a) ^ a }

  function TimesD(a: bv8): bv8 { Xtime(Xtime(Xtime(a))) ^ Xtime(Xtime(a)) ^ a }

  function TimesE(a: bv8): bv8 { Xtime(Xtime(Xtime(a))) ^ Xtime(Xtime(a)) ^ Xtime(a) }

  // A column times the inverse matrix, section 5.3.3
  function InvMixed(a: bv8, b: bv8, c: bv8, d: bv8): bv32 {
    Pack(TimesE(a) ^ TimesB(b) ^ TimesD(c) ^ Times9(d), Times9(a) ^ TimesE(b) ^ TimesB(c) ^ TimesD(d),
         TimesD(a) ^ Times9(b) ^ TimesE(c) ^ TimesB(d), TimesB(a) ^ TimesD(b) ^ Times9(c) ^ TimesE(d))
  }

  function InvMixColumn(x: bv32): bv32 { InvMixed(At(x, 0), At(x, 1), At(x, 2), At(x, 3)) }

  lemma IMixFirst(p: bv8)
    ensures IMix(Pack(p, 0, 0, 0)) == Pack(TimesE(p), Times9(p), TimesD(p), TimesB(p))
  {
  }

  lemma IMixByte(p: bv8)
    ensures IMix(Pack(p, 0, 0, 0)) == Pack(TimesE(p), Times9(p), TimesD(p), TimesB(p))
    ensures IMix(Pack(0, p, 0, 0)) == Pack(TimesB(p), TimesE(p), Times9(p), TimesD(p))
    ensures IMix(Pack(0, 0, p, 0)) == Pack(TimesD(p), TimesB(p), TimesE(p), Times9(p))
    ensures IMix(Pack(0, 0, 0, p)) == Pack(Times9(p), TimesD(p), TimesB(p), TimesE(p))
  {
    hide X, IMix, Ror8, Join, Times9, TimesB, TimesD, TimesE;
    IMixFirst(p);
    Rotated(p);
    var e, n, d, b := TimesE(p), Times9(p), TimesD(p), TimesB(p);
    IMixRor(Pack(0, p, 0, 0));
    JoinRor(d, n, e, b);
    UnRor(IMix(Pack(0, p, 0, 0)), Pack(b, e, n, d));
    IMixRor(Pack(0, 0, p, 0));
    JoinRor(n, e, b, d);
    UnRor(IMix(Pack(0, 0, p, 0)), Pack(d, b, e, n));
    IMixRor(Pack(0, 0, 0, p));
    JoinRor(e, b, d, n);
    UnRor(IMix(Pack(0, 0, 0, p)), Pack(n, d, b, e));
  }

  lemma IMixBytes()
    ensures forall p :: IMix(Pack(p, 0, 0, 0)) == Pack(TimesE(p), Times9(p), TimesD(p), TimesB(p))
    ensures forall p :: IMix(Pack(0, p, 0, 0)) == Pack(TimesB(p), TimesE(p), Times9(p), TimesD(p))
    ensures forall p :: IMix(Pack(0, 0, p, 0)) == Pack(TimesD(p), TimesB(p), TimesE(p), Times9(p))
    ensures forall p :: IMix(Pack(0, 0, 0, p)) == Pack(Times9(p), TimesD(p), TimesB(p), TimesE(p))
  {
    hide *;
    forall p
      ensures IMix(Pack(p, 0, 0, 0)) == Pack(TimesE(p), Times9(p), TimesD(p), TimesB(p))
      ensures IMix(Pack(0, p, 0, 0)) == Pack(TimesB(p), TimesE(p), Times9(p), TimesD(p))
      ensures IMix(Pack(0, 0, p, 0)) == Pack(TimesD(p), TimesB(p), TimesE(p), Times9(p))
      ensures IMix(Pack(0, 0, 0, p)) == Pack(Times9(p), TimesD(p), TimesB(p), TimesE(p))
    {
      IMixByte(p);
    }
  }

  lemma IMixPacked(a: bv8, b: bv8, c: bv8, d: bv8)
    ensures IMix(Pack(a, b, c, d)) == InvMixed(a, b, c, d)
  {
    hide X, IMix, Join, Times9, TimesB, TimesD, TimesE, Byte;
    SumOfBytes(a, b, c, d);
    IMixSum(Pack(a, 0, 0, 0), Pack(0, b, 0, 0), Pack(0, 0, c, 0), Pack(0, 0, 0, d));
    IMixBytes();
    JoinXorAll();
  }

  // imix_col is the inverse matrix.
  lemma IMixIsInvMixColumn(x: bv32)
    ensures IMix(x) == InvMixColumn(x)
  {
    hide IMix, InvMixed, Pack, At;
    PackAt(x);
    IMixPacked(At(x, 0), At(x, 1), At(x, 2), At(x, 3));
  }
}
