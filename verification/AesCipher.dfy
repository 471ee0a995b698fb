/**
 * AES by tables against the cipher of FIPS 197, for an arbitrary S-box with an inverse: the
 * table form computes the published rounds, and with the reversed and column-mixed key schedule
 * decryption is the equivalent inverse cipher of section 5.3.5, which undoes encryption.
 */
module AesCipher {
  import opened Bits32
  import opened AesColumns

  datatype Box = Box(s: bv8 -> bv8, inv: bv8 -> bv8)

  ghost predicate Inverse(b: Box) { forall x :: b.inv(b.s(x)) == x }

  // The four columns of the state
  datatype Quad = Quad(c0: bv32, c1: bv32, c2: bv32, c3: bv32)

  // SubBytes and ShiftRows, sections 5.1.1 and 5.1.2: one column, from itself and the next three
  function SubShiftCol(b: Box, x: bv32, x1: bv32, x2: bv32, x3: bv32): bv32 {
    Pack(b.s(At(x, 0)), b.s(At(x1, 1)), b.s(At(x2, 2)), b.s(At(x3, 3)))
  }

  function SubShift(b: Box, q: Quad): Quad {
    Quad(SubShiftCol(b, q.c0, q.c1, q.c2, q.c3), SubShiftCol(b, q.c1, q.c2, q.c3, q.c0),
         SubShiftCol(b, q.c2, q.c3, q.c0, q.c1), SubShiftCol(b, q.c3, q.c0, q.c1, q.c2))
  }

  // InvShiftRows and InvSubBytes, sections 5.3.1 and 5.3.2: one column, from itself and the three
  // before it
  function InvSubShiftCol(b: Box, x: bv32, x1: bv32, x2: bv32, x3: bv32): bv32 {
    Pack(b.inv(At(x, 0)), b.inv(At(x1, 1)), b.inv(At(x2, 2)), b.inv(At(x3, 3)))
  }

  function InvSubShift(b: Box, q: Quad): Quad {
    Quad(InvSubShiftCol(b, q.c0, q.c3, q.c2, q.c1), InvSubShiftCol(b, q.c1, q.c0, q.c3, q.c2),
         InvSubShiftCol(b, q.c2, q.c1, q.c0, q.c3), InvSubShiftCol(b, q.c3, q.c2, q.c1, q.c0))
  }

  function MixColumns(q: Quad): Quad { Quad(MixColumn(q.c0), MixColumn(q.c1), MixColumn(q.c2), MixColumn(q.c3)) }

  function InvMixColumns(q: Quad): Quad {
    Quad(InvMixColumn(q.c0), InvMixColumn(q.c1), InvMixColumn(q.c2), InvMixColumn(q.c3))
  }

  // AddRoundKey with the words from i on
  function AddKey(q: Quad, w: seq<bv32>, i: nat): Quad
    requires i + 4 <= |w|
  {
    Quad(X(q.c0, w[i]), X(q.c1, w[i + 1]), X(q.c2, w[i + 2]), X(q.c3, w[i + 3]))
  }

  // The state after r rounds of the cipher of section 5.1
  function Rounds(b: Box, m: Quad, w: seq<bv32>, r: nat): Quad
    requires 4 * r + 4 <= |w|
  {
    if r == 0 then AddKey(m, w, 0) else AddKey(MixColumns(SubShift(b, Rounds(b, m, w, r - 1))), w, 4 * r)
  }

  function Cipher(b: Box, m: Quad, w: seq<bv32>, nr: nat): Quad
    requires 0 < nr && 4 * nr + 4 <= |w|
  {
    AddKey(SubShift(b, Rounds(b, m, w, nr - 1)), w, 4 * nr)
  }

  // The equivalent inverse cipher of section 5.3.5 with its own key schedule
  function InvRounds(b: Box, c: Quad, dw: seq<bv32>, r: nat): Quad
    requires 4 * r + 4 <= |dw|
  {
    if r == 0 then AddKey(c, dw, 0) else AddKey(InvMixColumns(InvSubShift(b, InvRounds(b, c, dw, r - 1))), dw, 4 * r)
  }

  function EqInvCipher(b: Box, c: Quad, dw: seq<bv32>, nr: nat): Quad
    requires 0 < nr && 4 * nr + 4 <= |dw|
  {
    AddKey(InvSubShift(b, InvRounds(b, c, dw, nr - 1)), dw, 4 * nr)
  }

  // The decryption schedule: the round keys reversed, all but the outer two mixed
  predicate Reversed(w: seq<bv32>, dw: seq<bv32>, nr: nat) {
    4 * nr + 4 <= |w| && 4 * nr + 4 <= |dw| &&
    (forall n :: 0 <= n < 4 ==> dw[n] == w[4 * nr + n] && dw[4 * nr + n] == w[n]) &&
    forall i :: 4 <= i < 4 * nr ==> dw[Mirror(i, nr)] == IMix(w[i])
  }

  // Where the word at i of the encryption schedule goes
  function Mirror(i: nat, nr: nat): (j: nat)
    requires i < 4 * nr + 4
    ensures j < 4 * nr + 4
  {
    4 * nr - (i - i % 4) + i % 4
  }

  lemma MirrorIs(i: nat, nr: nat)
    requires i < 4 * nr + 4
    ensures Mirror(i, nr) == 4 * nr - (i - i % 4) + i % 4
  {
  }

  // ---- decryption undoes encryption ----------------------------------------------------------

  lemma ColumnBack(b: Box, x: bv32, x1: bv32, x2: bv32, x3: bv32)
    requires Inverse(b)
    ensures InvSubShiftCol(b, SubShiftCol(b, x, x1, x2, x3), SubShiftCol(b, x3, x, x1, x2),
                           SubShiftCol(b, x2, x3, x, x1), SubShiftCol(b, x1, x2, x3, x)) == x
  {
    hide Pack, At;
    AtPack(b.s(At(x, 0)), b.s(At(x1, 1)), b.s(At(x2, 2)), b.s(At(x3, 3)));
    AtPack(b.s(At(x3, 0)), b.s(At(x, 1)), b.s(At(x1, 2)), b.s(At(x2, 3)));
    AtPack(b.s(At(x2, 0)), b.s(At(x3, 1)), b.s(At(x, 2)), b.s(At(x1, 3)));
    AtPack(b.s(At(x1, 0)), b.s(At(x2, 1)), b.s(At(x3, 2)), b.s(At(x, 3)));
    PackAt(x);
  }

  lemma SubShiftBack(b: Box, q: Quad)
    requires Inverse(b)
    ensures InvSubShift(b, SubShift(b, q)) == q
  {
    hide SubShiftCol, InvSubShiftCol;
    ColumnBack(b, q.c0, q.c1, q.c2, q.c3);
    ColumnBack(b, q.c1, q.c2, q.c3, q.c0);
    ColumnBack(b, q.c2, q.c3, q.c0, q.c1);
    ColumnBack(b, q.c3, q.c0, q.c1, q.c2);
  }

  // A mixed column with a round key, unmixed under the mixed key
  lemma UnmixKeyed(x: bv32, k: bv32)
    ensures X(InvMixColumn(X(MixColumn(x), k)), IMix(k)) == x
  {
    hide X, MixColumn, InvMixColumn, Mix, IMix;
    MixIsMixColumn(x);
    IMixIsInvMixColumn(X(Mix(x), k));
    IMixX(Mix(x), k);
    IMixMix(x);
    XTwice(x, IMix(k));
  }

  // The words of a round's key in both schedules
  lemma MirrorKeys(w: seq<bv32>, dw: seq<bv32>, nr: nat, r: nat)
    requires Reversed(w, dw, nr) && 0 < r < nr
    ensures var i, k := 4 * r, 4 * (nr - r);
            dw[i] == IMix(w[k]) && dw[i + 1] == IMix(w[k + 1]) && dw[i + 2] == IMix(w[k + 2]) && dw[i + 3] == IMix(w[k + 3])
  {
    hide IMix;
    var i, k := 4 * r, 4 * (nr - r);
    assert Mirror(k, nr) == i && Mirror(k + 1, nr) == i + 1 && Mirror(k + 2, nr) == i + 2 && Mirror(k + 3, nr) == i + 3;
  }

  lemma ReversedSizes(w: seq<bv32>, dw: seq<bv32>, nr: nat)
    requires Reversed(w, dw, nr)
    ensures 4 * nr + 4 <= |w| && 4 * nr + 4 <= |dw|
  {
  }

  // An inverse round takes back the mixing and the key of the round it mirrors.
  lemma UnmixRound(q: Quad, w: seq<bv32>, dw: seq<bv32>, nr: nat, r: nat)
    requires Reversed(w, dw, nr) && 0 < r < nr
    ensures AddKey(InvMixColumns(AddKey(MixColumns(q), w, 4 * (nr - r))), dw, 4 * r) == q
  {
    hide MixColumn, InvMixColumn, X, IMix, Reversed;
    var k := 4 * (nr - r);
    MirrorKeys(w, dw, nr, r);
    ReversedSizes(w, dw, nr);
    UnmixKeyed(q.c0, w[k]);
    UnmixKeyed(q.c1, w[k + 1]);
    UnmixKeyed(q.c2, w[k + 2]);
    UnmixKeyed(q.c3, w[k + 3]);
  }

  // The outer round keys are the same in both schedules and cancel.
  lemma OuterKeys(q: Quad, w: seq<bv32>, dw: seq<bv32>, nr: nat)
    requires Reversed(w, dw, nr)
    ensures AddKey(AddKey(q, w, 4 * nr), dw, 0) == q && AddKey(AddKey(q, w, 0), dw, 4 * nr) == q
  {
    hide X, IMix;
    var i := 4 * nr;
    assert dw[0 + 0] == w[i + 0] && dw[0 + 1] == w[i + 1] && dw[0 + 2] == w[i + 2] && dw[0 + 3] == w[i + 3];
    assert dw[i + 0] == w[0 + 0] && dw[i + 1] == w[0 + 1] && dw[i + 2] == w[0 + 2] && dw[i + 3] == w[0 + 3];
    XTwice(q.c0, w[i]);
    XTwice(q.c1, w[i + 1]);
    XTwice(q.c2, w[i + 2]);
    XTwice(q.c3, w[i + 3]);
    XTwice(q.c0, w[0]);
    XTwice(q.c1, w[1]);
    XTwice(q.c2, w[2]);
    XTwice(q.c3, w[3]);
  }

  // The inverse rounds pass through the states of the rounds, before their columns were mixed.
  lemma {:induction false} InvRoundsAre(b: Box, m: Quad, w: seq<bv32>, dw: seq<bv32>, nr: nat, r: nat)
    requires Inverse(b) && Reversed(w, dw, nr) && r < nr
    ensures InvRounds(b, Cipher(b, m, w, nr), dw, r) == SubShift(b, Rounds(b, m, w, nr - 1 - r))
  {
    hide SubShift, InvSubShift, MixColumns, InvMixColumns, AddKey, Inverse;
    var q := SubShift(b, Rounds(b, m, w, nr - 1 - r));
    if r == 0 {
      OuterKeys(q, w, dw, nr);
    } else {
      InvRoundsAre(b, m, w, dw, nr, r - 1);
      SubShiftBack(b, Rounds(b, m, w, nr - r));
      UnmixRound(q, w, dw, nr, r);
    }
  }

  // Decryption undoes encryption, for every block, schedule and number of rounds.
  lemma DecryptUndoes(b: Box, m: Quad, w: seq<bv32>, dw: seq<bv32>, nr: nat)
    requires Inverse(b) && Reversed(w, dw, nr) && 0 < nr
    ensures EqInvCipher(b, Cipher(b, m, w, nr), dw, nr) == m
  {
    hide SubShift, InvSubShift, AddKey, Inverse, Cipher;
    InvRoundsAre(b, m, w, dw, nr, nr - 1);
    SubShiftBack(b, Rounds(b, m, w, 0));
    OuterKeys(m, w, dw, nr);
  }

  // ---- the tables ------------------------------------------------------------------------------

  // A byte in its place in a column
  function Lane(x: bv8, n: nat): bv32 {
    if n == 0 then Pack(x, 0, 0, 0) else if n == 1 then Pack(0, x, 0, 0) else if n == 2 then Pack(0, 0, x, 0) else Pack(0, 0, 0, x)
  }

  // crypto_fl_tab, crypto_ft_tab, crypto_il_tab and crypto_it_tab
  function FlTab(b: Box, n: nat, x: bv8): bv32 { Lane(b.s(x), n) }

  function FtTab(b: Box, n: nat, x: bv8): bv32 { Mix(Lane(b.s(x), n)) }

  function IlTab(b: Box, n: nat, x: bv8): bv32 { Lane(b.inv(x), n) }

  function ItTab(b: Box, n: nat, x: bv8): bv32 { IMix(Lane(b.inv(x), n)) }

  // f_rn, f_rl, i_rn and i_rl, given the columns they look at
  function Frn(b: Box, x: bv32, x1: bv32, x2: bv32, x3: bv32, k: bv32): bv32 {
    X(X(X(X(FtTab(b, 0, At(x, 0)), FtTab(b, 1, At(x1, 1))), FtTab(b, 2, At(x2, 2))), FtTab(b, 3, At(x3, 3))), k)
  }

  function Frl(b: Box, x: bv32, x1: bv32, x2: bv32, x3: bv32, k: bv32): bv32 {
    X(X(X(X(FlTab(b, 0, At(x, 0)), FlTab(b, 1, At(x1, 1))), FlTab(b, 2, At(x2, 2))), FlTab(b, 3, At(x3, 3))), k)
  }

  function Irn(b: Box, x: bv32, x1: bv32, x2: bv32, x3: bv32, k: bv32): bv32 {
    X(X(X(X(ItTab(b, 0, At(x, 0)), ItTab(b, 1, At(x1, 1))), ItTab(b, 2, At(x2, 2))), ItTab(b, 3, At(x3, 3))), k)
  }

  function Irl(b: Box, x: bv32, x1: bv32, x2: bv32, x3: bv32, k: bv32): bv32 {
    X(X(X(X(IlTab(b, 0, At(x, 0)), IlTab(b, 1, At(x1, 1))), IlTab(b, 2, At(x2, 2))), IlTab(b, 3, At(x3, 3))), k)
  }

  lemma LanesPack(p: bv8, p1: bv8, p2: bv8, p3: bv8)
    ensures X(X(X(Lane(p, 0), Lane(p1, 1)), Lane(p2, 2)), Lane(p3, 3)) == Pack(p, p1, p2, p3)
    ensures X(X(X(Mix(Lane(p, 0)), Mix(Lane(p1, 1))), Mix(Lane(p2, 2))), Mix(Lane(p3, 3))) == MixColumn(Pack(p, p1, p2, p3))
    ensures X(X(X(IMix(Lane(p, 0)), IMix(Lane(p1, 1))), IMix(Lane(p2, 2))), IMix(Lane(p3, 3))) == InvMixColumn(Pack(p, p1, p2, p3))
  {
    hide X, Mix, IMix, MixColumn, InvMixColumn, Pack;
    var l, l1, l2, l3 := Lane(p, 0), Lane(p1, 1), Lane(p2, 2), Lane(p3, 3);
    SumOfBytes(p, p1, p2, p3);
    XAssoc(X(l, l1), l2, l3);
    MixSum(l, l1, l2, l3);
    XAssoc(X(Mix(l), Mix(l1)), Mix(l2), Mix(l3));
    IMixSum(l, l1, l2, l3);
    XAssoc(X(IMix(l), IMix(l1)), IMix(l2), IMix(l3));
    MixIsMixColumn(Pack(p, p1, p2, p3));
    IMixIsInvMixColumn(Pack(p, p1, p2, p3));
  }

  // The table look-ups are the published transformations of a column.
  lemma TablesAre(b: Box, x: bv32, x1: bv32, x2: bv32, x3: bv32, k: bv32)
    ensures Frn(b, x, x1, x2, x3, k) == X(MixColumn(SubShiftCol(b, x, x1, x2, x3)), k)
    ensures Frl(b, x, x1, x2, x3, k) == X(SubShiftCol(b, x, x1, x2, x3), k)
  {
    hide X, Mix, IMix, MixColumn, InvMixColumn, Pack, Lane, At;
    LanesPack(b.s(At(x, 0)), b.s(At(x1, 1)), b.s(At(x2, 2)), b.s(At(x3, 3)));
  }

  lemma InverseTablesAre(b: Box, x: bv32, x1: bv32, x2: bv32, x3: bv32, k: bv32)
    ensures Irn(b, x, x1, x2, x3, k) == X(InvMixColumn(InvSubShiftCol(b, x, x1, x2, x3)), k)
    ensures Irl(b, x, x1, x2, x3, k) == X(InvSubShiftCol(b, x, x1, x2, x3), k)
  {
    hide X, Mix, IMix, MixColumn, InvMixColumn, Pack, Lane, At;
    LanesPack(b.inv(At(x, 0)), b.inv(At(x1, 1)), b.inv(At(x2, 2)), b.inv(At(x3, 3)));
  }
}
