/**
 * Camellia as sections 2.3 and 2.4 of RFC 3713 describe it, for arbitrary S-boxes and subkeys.
 * The subkeys are numbered as they lie in the key table: 0 and 1 are kw1 and kw2, each group of
 * six rounds takes 8i+2 to 8i+7, the layers between the groups take 8i and 8i+1, and kw3 and
 * kw4 come last.
 */
module CamelliaSpec {
  import opened Bits32

  // A 64-bit word as its two halves, the most significant one first
  datatype Word = Word(l: bv32, r: bv32)

  // A 128-bit block as its two halves
  datatype Block = Block(d1: Word, d2: Word)

  datatype Boxes = Boxes(s1: bv8 -> bv8, s2: bv8 -> bv8, s3: bv8 -> bv8, s4: bv8 -> bv8)

  // 24 for 128-bit keys and 32 for longer ones
  type Max = n: nat | n == 24 || n == 32 witness 24

  // Where the subkeys of a group of six rounds begin
  predicate Group(i: nat, max: Max) { i == 0 || i == 8 || i == 16 || (i == 24 && max == 32) }

  const ZERO := Word(0, 0)

  function Xor(a: Word, b: Word): Word { Word(X(a.l, b.l), X(a.r, b.r)) }

  // The P-function on the eight substituted bytes
  function Permute(t1: bv8, t2: bv8, t3: bv8, t4: bv8, t5: bv8, t6: bv8, t7: bv8, t8: bv8): Word {
    Word(Join(t1 ^ t3 ^ t4 ^ t6 ^ t7 ^ t8, t1 ^ t2 ^ t4 ^ t5 ^ t7 ^ t8,
              t1 ^ t2 ^ t3 ^ t5 ^ t6 ^ t8, t2 ^ t3 ^ t4 ^ t5 ^ t6 ^ t7),
         Join(t1 ^ t2 ^ t6 ^ t7 ^ t8, t2 ^ t3 ^ t5 ^ t7 ^ t8,
              t3 ^ t4 ^ t5 ^ t6 ^ t8, t1 ^ t4 ^ t5 ^ t6 ^ t7))
  }

  // The S-function followed by the P-function
  function SP(b: Boxes, x: Word): Word {
    Permute(b.s1(Byte(x.l, 0)), b.s2(Byte(x.l, 1)), b.s3(Byte(x.l, 2)), b.s4(Byte(x.l, 3)),
            b.s2(Byte(x.r, 0)), b.s3(Byte(x.r, 1)), b.s4(Byte(x.r, 2)), b.s1(Byte(x.r, 3)))
  }

  function F(b: Boxes, x: Word, k: Word): Word { SP(b, Xor(x, k)) }

  function FL(x: Word, k: Word): Word {
    var x2 := X(x.r, Rol1(And(x.l, k.l)));
    Word(X(x.l, Or(x2, k.r)), x2)
  }

  function FLInv(y: Word, k: Word): Word {
    var y1 := X(y.l, Or(y.r, k.r));
    Word(y1, X(y.r, Rol1(And(y1, k.l))))
  }

  // One round, and the halves change places
  function Round(b: Boxes, s: Block, k: Word): Block { Block(Xor(s.d2, F(b, s.d1, k)), s.d1) }

  function SixRounds(b: Boxes, s: Block, sub: seq<Word>, i: nat): Block
    requires i + 8 <= |sub|
  {
    var s2 := Round(b, Round(b, s, sub[i + 2]), sub[i + 3]);
    var s4 := Round(b, Round(b, s2, sub[i + 4]), sub[i + 5]);
    Round(b, Round(b, s4, sub[i + 6]), sub[i + 7])
  }

  function Layer(s: Block, sub: seq<Word>, i: nat): Block
    requires i + 2 <= |sub|
  {
    Block(FL(s.d1, sub[i]), FLInv(s.d2, sub[i + 1]))
  }

  // From the rounds that start at subkey i up to the last ones
  function Core(b: Boxes, s: Block, sub: seq<Word>, i: nat, max: Max): Block
    requires Group(i, max) && max <= |sub|
    decreases max - i
  {
    var s' := SixRounds(b, s, sub, i);
    if i + 8 == max then s' else Core(b, Layer(s', sub, i + 8), sub, i + 8, max)
  }

  function Encrypt(b: Boxes, m: Block, sub: seq<Word>, max: Max): Block
    requires max + 2 <= |sub|
  {
    var s := Core(b, Block(Xor(m.d1, sub[0]), Xor(m.d2, sub[1])), sub, 0, max);
    Block(Xor(s.d2, sub[max]), Xor(s.d1, sub[max + 1]))
  }

  // ---- exclusive or of words -----------------------------------------------------------------

  // Taking a step from offset p to offset n
  lemma ShiftOffset(y: Word, g: Word, p: Word, n: Word)
    ensures Xor(Xor(y, p), Xor(g, Xor(p, n))) == Xor(Xor(y, g), n)
  {
    hide X;
    XShift(y.l, g.l, p.l, n.l);
    XShift(y.r, g.r, p.r, n.r);
  }

  lemma XorLaws(a: Word, b: Word, c: Word)
    ensures Xor(a, b) == Xor(b, a) && Xor(Xor(a, b), c) == Xor(a, Xor(b, c))
    ensures Xor(Xor(a, b), b) == a && Xor(a, ZERO) == a
  {
    hide X;
    XAssoc(a.l, b.l, c.l);
    XAssoc(a.r, b.r, c.r);
    XComm(a.l, b.l);
    XComm(a.r, b.r);
    XTwice(a.l, b.l);
    XTwice(a.r, b.r);
    XZero(a.l);
    XZero(a.r);
  }

  // Masks absorbed on both sides cancel.
  lemma CancelMask(a: Word, b: Word, m: Word)
    ensures Xor(Xor(a, m), Xor(b, m)) == Xor(a, b)
  {
    hide X;
    XCancel(a.l, b.l, m.l);
    XCancel(a.r, b.r, m.r);
  }

  // ---- the layers are affine ------------------------------------------------------------------

  // The linear part of FLInv; also the inverse of the linear part of FL
  function Lin(m: Word, k: Word): Word {
    var l := X(m.l, And(m.r, Not(k.r)));
    Word(l, X(m.r, Rol1(And(l, k.l))))
  }

  lemma LinXor(a: Word, b: Word, k: Word)
    ensures Lin(Xor(a, b), k) == Xor(Lin(a, k), Lin(b, k))
  {
    hide Rol1, X, And, Or, Not;
    var la, lb := Lin(a, k).l, Lin(b, k).l;
    AndX(a.r, b.r, Not(k.r));
    XSwap(a.l, b.l, And(a.r, Not(k.r)), And(b.r, Not(k.r)));
    AndX(la, lb, k.l);
    RolX(And(la, k.l), And(lb, k.l));
    XSwap(a.r, b.r, Rol1(And(la, k.l)), Rol1(And(lb, k.l)));
  }

  lemma FLInvShift(y: Word, m: Word, k: Word)
    ensures FLInv(Xor(y, m), k) == Xor(FLInv(y, k), Lin(m, k))
  {
    hide Rol1, X, And, Or, Not;
    var ly, lm := FLInv(y, k).l, Lin(m, k).l;
    OrX(y.r, m.r, k.r);
    XSwap(y.l, m.l, Or(y.r, k.r), And(m.r, Not(k.r)));
    AndX(ly, lm, k.l);
    RolX(And(ly, k.l), And(lm, k.l));
    XSwap(y.r, m.r, Rol1(And(ly, k.l)), Rol1(And(lm, k.l)));
  }

  lemma FLUndo(x: Word, k: Word)
    ensures FLInv(FL(x, k), k) == x && FL(FLInv(x, k), k) == x
  {
    hide Rol1, X, And, Or, Not;
    var a, b := FL(x, k), FLInv(x, k);
    XTwice(x.l, Or(a.r, k.r));
    XTwice(x.r, Rol1(And(x.l, k.l)));
    XTwice(x.r, Rol1(And(b.l, k.l)));
    XTwice(x.l, Or(x.r, k.r));
  }

  lemma FLShift(x: Word, m: Word, k: Word)
    ensures FL(Xor(x, Lin(m, k)), k) == Xor(FL(x, k), m)
  {
    hide *;
    FLUndo(x, k);
    FLInvShift(FL(x, k), m, k);
    FLUndo(Xor(FL(x, k), m), k);
  }
}
