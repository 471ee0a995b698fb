/**
 * Encryption and decryption with a key table, what a table must satisfy, and the correctness of
 * both. The two halves of the block change places after each round here; the code alternates
 * which half it updates instead.
 */
module CamelliaCipher {
  import opened CamelliaSpec
  import opened CamelliaFast

  function FastRound(b: Boxes, e: Block, k: Word): Block { Block(RoundSm(b, e.d1, k, e.d2), e.d1) }

  // ROUNDS(i)
  function FastSix(b: Boxes, e: Block, t: seq<Word>, i: nat): Block
    requires i + 8 <= |t|
  {
    var e2 := FastRound(b, FastRound(b, e, t[i + 2]), t[i + 3]);
    var e4 := FastRound(b, FastRound(b, e2, t[i + 4]), t[i + 5]);
    FastRound(b, FastRound(b, e4, t[i + 6]), t[i + 7])
  }

  function FastCore(b: Boxes, e: Block, t: seq<Word>, i: nat, max: Max): Block
    requires Group(i, max) && max < |t|
    decreases max - i
  {
    var e' := FastSix(b, e, t, i);
    if i + 8 == max then e' else FastCore(b, Layer(e', t, i + 8), t, i + 8, max)
  }

  // camellia_encrypt: do_encrypt and the final exchange of the halves
  function FastEncrypt(b: Boxes, m: Block, t: seq<Word>, max: Max): Block
    requires max < |t|
  {
    var e := FastCore(b, Block(Xor(m.d1, t[0]), m.d2), t, 0, max);
    Block(Xor(e.d2, t[max]), e.d1)
  }

  // ROUNDS(i) of camellia_do_decrypt
  function BackSix(b: Boxes, e: Block, t: seq<Word>, i: nat): Block
    requires i + 8 <= |t|
  {
    var e2 := FastRound(b, FastRound(b, e, t[i + 7]), t[i + 6]);
    var e4 := FastRound(b, FastRound(b, e2, t[i + 5]), t[i + 4]);
    FastRound(b, FastRound(b, e4, t[i + 3]), t[i + 2])
  }

  // FLS(i) of camellia_do_decrypt
  function BackLayer(e: Block, t: seq<Word>, i: nat): Block
    requires i + 2 <= |t|
  {
    Block(FL(e.d1, t[i + 1]), FLInv(e.d2, t[i]))
  }

  function BackCore(b: Boxes, e: Block, t: seq<Word>, i: nat, max: Max): Block
    requires Group(i, max) && max < |t|
    decreases max - i
  {
    BackSix(b, if i + 8 == max then e else BackLayer(BackCore(b, e, t, i + 8, max), t, i + 8), t, i)
  }

  function FastDecrypt(b: Boxes, c: Block, t: seq<Word>, max: Max): Block
    requires max < |t|
  {
    var e := BackCore(b, Block(Xor(c.d1, t[max]), c.d2), t, 0, max);
    Block(Xor(e.d2, t[0]), e.d1)
  }

  // ---- decryption undoes encryption, whatever the table holds ---------------------------------

  function Swap(s: Block): Block { Block(s.d2, s.d1) }

  lemma RoundBack(b: Boxes, e: Block, k: Word)
    ensures FastRound(b, Swap(FastRound(b, e, k)), k) == Swap(e)
  {
    hide RoundSm, Xor, SP;
    RoundSmIs(b, e.d1, k, e.d2);
    RoundSmIs(b, e.d1, k, RoundSm(b, e.d1, k, e.d2));
    XorLaws(e.d2, Xor(SP(b, e.d1), Half(k)), ZERO);
  }

  lemma SixBack(b: Boxes, e: Block, t: seq<Word>, i: nat)
    requires i + 8 <= |t|
    ensures BackSix(b, Swap(FastSix(b, e, t, i)), t, i) == Swap(e)
  {
    hide FastRound, Swap;
    var e1 := FastRound(b, e, t[i + 2]);
    var e2 := FastRound(b, e1, t[i + 3]);
    var e3 := FastRound(b, e2, t[i + 4]);
    var e4 := FastRound(b, e3, t[i + 5]);
    var e5 := FastRound(b, e4, t[i + 6]);
    RoundBack(b, e5, t[i + 7]);
    RoundBack(b, e4, t[i + 6]);
    RoundBack(b, e3, t[i + 5]);
    RoundBack(b, e2, t[i + 4]);
    RoundBack(b, e1, t[i + 3]);
    RoundBack(b, e, t[i + 2]);
  }

  lemma LayerBack(e: Block, t: seq<Word>, i: nat)
    requires i + 2 <= |t|
    ensures BackLayer(Swap(Layer(e, t, i)), t, i) == Swap(e)
  {
    hide FL, FLInv;
    FLUndo(e.d1, t[i]);
    FLUndo(e.d2, t[i + 1]);
  }

  lemma {:induction false} CoreBack(b: Boxes, e: Block, t: seq<Word>, i: nat, max: Max)
    requires Group(i, max) && max < |t|
    ensures BackCore(b, Swap(FastCore(b, e, t, i, max)), t, i, max) == Swap(e)
    decreases max - i
  {
    hide FastSix, BackSix, Layer, BackLayer, Swap;
    var e' := FastSix(b, e, t, i);
    if i + 8 < max {
      CoreBack(b, Layer(e', t, i + 8), t, i + 8, max);
      LayerBack(e', t, i + 8);
    }
    SixBack(b, e, t, i);
  }

  // For any table, decryption undoes encryption.
  lemma DecryptUndoes(b: Boxes, m: Block, t: seq<Word>, max: Max)
    requires max < |t|
    ensures FastDecrypt(b, FastEncrypt(b, m, t, max), t, max) == m
  {
    hide FastCore, BackCore, Xor;
    var e0 := Block(Xor(m.d1, t[0]), m.d2);
    var e := FastCore(b, e0, t, 0, max);
    XorLaws(e.d2, t[max], ZERO);
    CoreBack(b, e0, t, 0, max);
    XorLaws(m.d1, t[0], ZERO);
  }

  // ---- the table and the published cipher -------------------------------------------------------

  // How far the second half of the fast state is off when the rounds at i begin
  function Before(sub: seq<Word>, i: nat): Word
    requires 2 <= |sub| && i + 2 <= |sub|
  {
    if i == 0 then sub[1] else Lin(sub[i - 1], sub[i + 1])
  }

  // How far its first half is off when they end
  function After(sub: seq<Word>, i: nat, max: Max): Word
    requires Group(i, max) && max + 2 <= |sub|
  {
    if i + 8 == max then sub[max + 1] else Lin(sub[i + 10], sub[i + 8])
  }

  // The entries of the rounds at i, before the inverse of half of P was applied to them
  predicate SectionOk(sub: seq<Word>, t: seq<Word>, i: nat, max: Max)
    requires Group(i, max) && max + 2 <= |sub| && max < |t|
  {
    Half(t[i + 2]) == Xor(Before(sub, i), sub[i + 3]) &&
    Half(t[i + 3]) == Xor(sub[i + 2], sub[i + 4]) &&
    Half(t[i + 4]) == Xor(sub[i + 3], sub[i + 5]) &&
    Half(t[i + 5]) == Xor(sub[i + 4], sub[i + 6]) &&
    Half(t[i + 6]) == Xor(sub[i + 5], sub[i + 7]) &&
    Half(t[i + 7]) == Xor(sub[i + 6], After(sub, i, max)) &&
    (i + 8 < max ==> t[i + 8] == sub[i + 8] && t[i + 9] == sub[i + 9])
  }

  ghost predicate TableOk(sub: seq<Word>, t: seq<Word>, max: Max) {
    max + 2 <= |sub| && max < |t| &&
    t[0] == Xor(sub[0], sub[2]) && t[max] == Xor(sub[max], sub[max - 1]) &&
    forall i :: Group(i, max) ==> SectionOk(sub, t, i, max)
  }

  // The fast state is the plain one, its halves off by p and q.
  predicate Off(e: Block, s: Block, p: Word, q: Word) { e == Block(Xor(s.d1, p), Xor(s.d2, q)) }

  // Off by its round key, the active half needs no key; the table entry moves the other offset.
  lemma RoundOff(b: Boxes, e: Block, s: Block, p: Word, q: Word, n: Word, k: Word)
    requires Off(e, s, p, q) && Half(k) == Xor(q, n)
    ensures Off(FastRound(b, e, k), Round(b, s, p), n, p)
  {
    hide RoundSm, SP, Half, Xor;
    RoundSmIs(b, e.d1, k, e.d2);
    ShiftOffset(s.d2, SP(b, Xor(s.d1, p)), q, n);
  }

  lemma SixOff(b: Boxes, e: Block, s: Block, sub: seq<Word>, t: seq<Word>, i: nat, max: Max)
    requires Group(i, max) && max + 2 <= |sub| && max < |t| && SectionOk(sub, t, i, max)
    requires Off(e, s, sub[i + 2], Before(sub, i))
    ensures Off(FastSix(b, e, t, i), SixRounds(b, s, sub, i), After(sub, i, max), sub[i + 7])
  {
    hide FastRound, Round, Half, Xor, Before, After, Off;
    var e1, s1 := FastRound(b, e, t[i + 2]), Round(b, s, sub[i + 2]);
    RoundOff(b, e, s, sub[i + 2], Before(sub, i), sub[i + 3], t[i + 2]);
    var e2, s2 := FastRound(b, e1, t[i + 3]), Round(b, s1, sub[i + 3]);
    RoundOff(b, e1, s1, sub[i + 3], sub[i + 2], sub[i + 4], t[i + 3]);
    var e3, s3 := FastRound(b, e2, t[i + 4]), Round(b, s2, sub[i + 4]);
    RoundOff(b, e2, s2, sub[i + 4], sub[i + 3], sub[i + 5], t[i + 4]);
    var e4, s4 := FastRound(b, e3, t[i + 5]), Round(b, s3, sub[i + 5]);
    RoundOff(b, e3, s3, sub[i + 5], sub[i + 4], sub[i + 6], t[i + 5]);
    var e5, s5 := FastRound(b, e4, t[i + 6]), Round(b, s4, sub[i + 6]);
    RoundOff(b, e4, s4, sub[i + 6], sub[i + 5], sub[i + 7], t[i + 6]);
    RoundOff(b, e5, s5, sub[i + 7], sub[i + 6], After(sub, i, max), t[i + 7]);
  }

  lemma LayerOff(e: Block, s: Block, sub: seq<Word>, t: seq<Word>, i: nat, max: Max)
    requires Group(i, max) && i + 8 < max && max + 2 <= |sub| && max < |t|
    requires t[i + 8] == sub[i + 8] && t[i + 9] == sub[i + 9]
    requires Off(e, s, After(sub, i, max), sub[i + 7])
    ensures Off(Layer(e, t, i + 8), Layer(s, sub, i + 8), sub[i + 10], Before(sub, i + 8))
  {
    hide FL, FLInv, Lin, Xor;
    FLShift(s.d1, sub[i + 10], sub[i + 8]);
    FLInvShift(s.d2, sub[i + 7], sub[i + 9]);
  }

  lemma {:induction false} CoreOff(b: Boxes, e: Block, s: Block, sub: seq<Word>, t: seq<Word>, i: nat, max: Max)
    requires TableOk(sub, t, max) && Group(i, max)
    requires Off(e, s, sub[i + 2], Before(sub, i))
    ensures Off(FastCore(b, e, t, i, max), Core(b, s, sub, i, max), sub[max + 1], sub[max - 1])
    decreases max - i
  {
    hide FastSix, SixRounds, Layer, Off, Xor, Half, Lin, Before;
    assert SectionOk(sub, t, i, max);
    SixOff(b, e, s, sub, t, i, max);
    if i + 8 < max {
      var e', s' := FastSix(b, e, t, i), SixRounds(b, s, sub, i);
      LayerOff(e', s', sub, t, i, max);
      CoreOff(b, Layer(e', t, i + 8), Layer(s', sub, i + 8), sub, t, i + 8, max);
    }
  }

  // With such a table the fast form is the cipher of RFC 3713.
  lemma EncryptsAsPublished(b: Boxes, m: Block, sub: seq<Word>, t: seq<Word>, max: Max)
    requires TableOk(sub, t, max)
    ensures FastEncrypt(b, m, t, max) == Encrypt(b, m, sub, max)
  {
    hide FastCore, Core, Xor, SectionOk;
    var e0 := Block(Xor(m.d1, t[0]), m.d2);
    var s0 := Block(Xor(m.d1, sub[0]), Xor(m.d2, sub[1]));
    XorLaws(m.d1, sub[0], sub[2]);
    XorLaws(m.d2, sub[1], ZERO);
    CoreOff(b, e0, s0, sub, t, 0, max);
    CancelMask(Core(b, s0, sub, 0, max).d2, sub[max], sub[max - 1]);
  }
}
