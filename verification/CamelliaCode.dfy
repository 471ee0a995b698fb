/**
 * camellia_setup_tail, camellia_do_encrypt and camellia_do_decrypt, in place on their arrays.
 */
module CamelliaCode {
  import opened Bits32
  import opened CamelliaSpec
  import opened CamelliaFast
  import opened CamelliaCipher

  // kw2 as the rounds at i find it, having passed the layers before them
  function Kw2At(s: seq<Word>, i: nat, max: Max): Word
    requires Group(i, max) && |s| == max + 2
    decreases i
  {
    if i == 0 then s[1] else Lin(Kw2At(s, i - 8, max), s[i + 1])
  }

  // kw4 as the rounds at i find it, coming back through the layers behind them
  function Kw4At(s: seq<Word>, i: nat, max: Max): Word
    requires Group(i, max) && |s| == max + 2
    decreases max - i
  {
    if i + 8 == max then s[max + 1] else Lin(Kw4At(s, i + 8, max), s[i + 8])
  }

  // The group at i once kw2 is absorbed by its even rounds and, if `odd`, kw4 by its odd ones
  predicate Absorbed(s: seq<Word>, a: seq<Word>, i: nat, max: Max, odd: bool)
    requires Group(i, max) && |s| == |a| == max + 2
  {
    var m, w := Kw2At(s, i, max), Kw4At(s, i, max);
    a[i + 3] == Xor(s[i + 3], m) && a[i + 5] == Xor(s[i + 5], m) && a[i + 7] == Xor(s[i + 7], m) &&
    a[i + 2] == (if odd then Xor(s[i + 2], w) else s[i + 2]) &&
    a[i + 4] == (if odd then Xor(s[i + 4], w) else s[i + 4]) &&
    a[i + 6] == (if odd then Xor(s[i + 6], w) else s[i + 6]) &&
    (i + 8 < max ==> a[i + 8] == s[i + 8] && a[i + 9] == s[i + 9])
  }

  ghost predicate Kw2Absorbed(s: seq<Word>, a: seq<Word>, max: Max) {
    |s| == |a| == max + 2 && a[0] == s[0] && a[max + 1] == s[max + 1] &&
    a[max] == Xor(s[max], Kw2At(s, max - 8, max)) &&
    forall i: nat :: Group(i, max) ==> Absorbed(s, a, i, max, false)
  }

  ghost predicate BothAbsorbed(s: seq<Word>, a: seq<Word>, max: Max) {
    |s| == |a| == max + 2 && a[0] == Xor(s[0], Kw4At(s, 0, max)) &&
    a[max] == Xor(s[max], Kw2At(s, max - 8, max)) &&
    forall i: nat :: Group(i, max) ==> Absorbed(s, a, i, max, true)
  }

  // ---- absorbing kw2 -----------------------------------------------------------------------

  // The three rounds of a group that see kw2
  function EvenPass(a: seq<Word>, i: nat): (r: seq<Word>)
    requires i + 7 < |a|
    ensures |r| == |a|
  {
    a[i + 3 := Xor(a[i + 3], a[1])][i + 5 := Xor(a[i + 5], a[1])][i + 7 := Xor(a[i + 7], a[1])]
  }

  function LayerPass(a: seq<Word>, i: nat): seq<Word>
    requires 1 <= i && i + 1 < |a|
  {
    a[1 := Lin(a[1], a[i + 1])]
  }

  // The groups from i on, then kw3
  function Kw2Pass(a: seq<Word>, i: nat, max: Max): (r: seq<Word>)
    requires Group(i, max) && |a| == max + 2
    ensures |r| == |a|
    decreases max - i
  {
    var a' := EvenPass(a, i);
    if i + 8 == max then a'[max := Xor(a'[max], a'[1])] else Kw2Pass(LayerPass(a', i + 8), i + 8, max)
  }

  // Before the groups from i on: kw2 has reached them, and only what lies before them changed.
  ghost predicate Kw2Pending(s: seq<Word>, a: seq<Word>, i: nat, max: Max) {
    |s| == |a| == max + 2 && Group(i, max) && a[0] == s[0] && a[1] == Kw2At(s, i, max) &&
    (forall j :: i + 2 <= j < |a| ==> a[j] == s[j]) &&
    forall k: nat :: Group(k, max) && k < i ==> Absorbed(s, a, k, max, false)
  }

  lemma SameGroup(s: seq<Word>, a: seq<Word>, a': seq<Word>, k: nat, max: Max, odd: bool)
    requires Group(k, max) && |s| == |a| == |a'| == max + 2 && Absorbed(s, a, k, max, odd)
    requires forall j :: k + 2 <= j < k + 10 && j < max ==> a'[j] == a[j]
    ensures Absorbed(s, a', k, max, odd)
  {
    hide Xor, Kw2At, Kw4At;
  }

  lemma EvenHere(s: seq<Word>, a: seq<Word>, i: nat, max: Max)
    requires Group(i, max) && |s| == |a| == max + 2 && a[1] == Kw2At(s, i, max)
    requires forall j :: i + 2 <= j < |a| ==> a[j] == s[j]
    ensures Absorbed(s, EvenPass(a, i), i, max, false)
  {
    hide Xor, Kw2At, Kw4At;
  }

  lemma EvenStep(s: seq<Word>, a: seq<Word>, i: nat, max: Max)
    requires Kw2Pending(s, a, i, max)
    ensures Absorbed(s, EvenPass(a, i), i, max, false)
    ensures var a' := EvenPass(a, i); a'[0] == a[0] && a'[1] == a[1] && forall j :: i + 8 <= j < |a| ==> a'[j] == s[j]
    ensures forall k: nat :: Group(k, max) && k < i ==> Absorbed(s, EvenPass(a, i), k, max, false)
  {
    hide Xor, Kw2At, Absorbed;
    var a' := EvenPass(a, i);
    EvenHere(s, a, i, max);
    forall k: nat | Group(k, max) && k < i ensures Absorbed(s, a', k, max, false) {
      SameGroup(s, a, a', k, max, false);
    }
  }

  lemma {:induction false} Kw2PassOk(s: seq<Word>, a: seq<Word>, i: nat, max: Max)
    requires Kw2Pending(s, a, i, max)
    ensures Kw2Absorbed(s, Kw2Pass(a, i, max), max)
    decreases max - i
  {
    hide Xor, Lin, EvenPass, Absorbed;
    EvenStep(s, a, i, max);
    var b := EvenPass(a, i);
    if i + 8 < max {
      AbsorbedElsewhere(s, b, 1, Lin(b[1], b[i + 9]), i, max);
      Kw2PassOk(s, LayerPass(b, i + 8), i + 8, max);
    } else {
      AbsorbedElsewhere(s, b, max, Xor(b[max], b[1]), i, max);
    }
  }

  // Writing kw2's slot or kw3's slot disturbs no group.
  lemma AbsorbedElsewhere(s: seq<Word>, b: seq<Word>, j: nat, x: Word, i: nat, max: Max)
    requires Group(i, max) && |s| == |b| == max + 2 && (j == 1 || j == max)
    requires forall k: nat :: Group(k, max) && k <= i ==> Absorbed(s, b, k, max, false)
    ensures forall k: nat :: Group(k, max) && k <= i ==> Absorbed(s, b[j := x], k, max, false)
  {
    hide Absorbed;
    forall k: nat | Group(k, max) && k <= i ensures Absorbed(s, b[j := x], k, max, false) {
      SameGroup(s, b, b[j := x], k, max, false);
    }
  }

  method AbsorbEven(sub: array<Word>, i: nat)
    requires i + 7 < sub.Length && i % 8 == 0
    modifies sub
    ensures sub[..] == EvenPass(old(sub[..]), i)
  {
    hide Xor;
    sub[i + 3] := Xor(sub[i + 3], sub[1]);
    sub[i + 5] := Xor(sub[i + 5], sub[1]);
    sub[i + 7] := Xor(sub[i + 7], sub[1]);
  }

  lemma StartOk(s: seq<Word>, max: Max)
    requires |s| == max + 2
    ensures Kw2Absorbed(s, Kw2Pass(s, 0, max), max)
  {
    hide Kw2Pass;
    Kw2PassOk(s, s, 0, max);
  }

  // "absorb kw2 to other subkeys"
  method AbsorbKw2(sub: array<Word>, max: Max)
    requires sub.Length == max + 2
    modifies sub
    ensures Kw2Absorbed(old(sub[..]), sub[..], max)
  {
    hide EvenPass, Lin, Xor, Kw2Absorbed;
    StartOk(sub[..], max);
    AbsorbEven(sub, 0);
    sub[1] := Lin(sub[1], sub[9]);
    AbsorbEven(sub, 8);
    sub[1] := Lin(sub[1], sub[17]);
    AbsorbEven(sub, 16);
    if max == 32 {
      sub[1] := Lin(sub[1], sub[25]);
      AbsorbEven(sub, 24);
    }
    sub[max] := Xor(sub[max], sub[1]);
  }

  // ---- absorbing kw4 -----------------------------------------------------------------------

  // The three rounds of a group that see kw4
  function OddPass(a: seq<Word>, i: nat, w: Word): (r: seq<Word>)
    requires i + 6 < |a|
    ensures |r| == |a|
  {
    a[i + 6 := Xor(a[i + 6], w)][i + 4 := Xor(a[i + 4], w)][i + 2 := Xor(a[i + 2], w)]
  }

  // The groups from i down to the first, then kw1
  function Kw4Pass(a: seq<Word>, w: Word, i: nat, max: Max): (r: seq<Word>)
    requires Group(i, max) && |a| == max + 2
    ensures |r| == |a|
    decreases i
  {
    var a' := OddPass(a, i, w);
    if i == 0 then a'[0 := Xor(a'[0], w)] else Kw4Pass(a', Lin(w, a'[i]), i - 8, max)
  }

  ghost predicate Kw4Pending(s: seq<Word>, a: seq<Word>, w: Word, i: nat, max: Max) {
    |s| == |a| == max + 2 && Group(i, max) && a[0] == s[0] && w == Kw4At(s, i, max) &&
    a[max] == Xor(s[max], Kw2At(s, max - 8, max)) &&
    forall k: nat :: Group(k, max) ==> Absorbed(s, a, k, max, k > i)
  }

  lemma OddHere(s: seq<Word>, a: seq<Word>, w: Word, i: nat, max: Max)
    requires Group(i, max) && |s| == |a| == max + 2 && w == Kw4At(s, i, max) && Absorbed(s, a, i, max, false)
    ensures Absorbed(s, OddPass(a, i, w), i, max, true)
  {
    hide Xor, Kw2At, Kw4At;
  }

  lemma OddStep(s: seq<Word>, a: seq<Word>, w: Word, i: nat, max: Max)
    requires Kw4Pending(s, a, w, i, max)
    ensures var a' := OddPass(a, i, w); a'[0] == a[0] && a'[max] == a[max] && a'[i] == a[i]
    ensures forall k: nat :: Group(k, max) ==> Absorbed(s, OddPass(a, i, w), k, max, k >= i)
  {
    hide Xor, Kw2At, Kw4At, Absorbed;
    OddHere(s, a, w, i, max);
    forall k: nat | Group(k, max) && k != i ensures Absorbed(s, OddPass(a, i, w), k, max, k >= i) {
      SameGroup(s, a, OddPass(a, i, w), k, max, k > i);
    }
  }

  lemma {:induction false} Kw4PassOk(s: seq<Word>, a: seq<Word>, w: Word, i: nat, max: Max)
    requires Kw4Pending(s, a, w, i, max)
    ensures BothAbsorbed(s, Kw4Pass(a, w, i, max), max)
    decreases i
  {
    hide Xor, Lin, OddPass, Absorbed, Kw2At;
    OddStep(s, a, w, i, max);
    var b := OddPass(a, i, w);
    if i == 0 {
      forall k: nat | Group(k, max) ensures Absorbed(s, b[0 := Xor(b[0], w)], k, max, true) {
        SameGroup(s, b, b[0 := Xor(b[0], w)], k, max, true);
      }
    } else {
      assert Group(i - 8, max) && !(i - 8 > i);
      LayerKept(s, a, i - 8, max);
      Kw4PassOk(s, b, Lin(w, b[i]), i - 8, max);
    }
  }

  lemma LayerKept(s: seq<Word>, a: seq<Word>, i: nat, max: Max)
    requires Group(i, max) && i + 8 < max && |s| == |a| == max + 2 && Absorbed(s, a, i, max, false)
    ensures a[i + 8] == s[i + 8] && a[i + 9] == s[i + 9]
  {
  }

  method AbsorbOdd(sub: array<Word>, i: nat, w: Word)
    requires i + 6 < sub.Length
    modifies sub
    ensures sub[..] == OddPass(old(sub[..]), i, w)
  {
    hide Xor;
    sub[i + 6] := Xor(sub[i + 6], w);
    sub[i + 4] := Xor(sub[i + 4], w);
    sub[i + 2] := Xor(sub[i + 2], w);
  }

  lemma KeepsKw4(s: seq<Word>, a: seq<Word>, max: Max)
    requires Kw2Absorbed(s, a, max)
    ensures BothAbsorbed(s, Kw4Pass(a, a[max + 1], max - 8, max), max)
  {
    hide Kw4Pass, Absorbed;
    Kw4PassOk(s, a, a[max + 1], max - 8, max);
  }

  // "absorb kw4 to other subkeys", after kw2 has been absorbed into the subkeys s
  method AbsorbKw4(sub: array<Word>, max: Max, ghost s: seq<Word>)
    requires sub.Length == max + 2 && Kw2Absorbed(s, sub[..], max)
    modifies sub
    ensures BothAbsorbed(s, sub[..], max)
  {
    hide OddPass, Lin, Xor, Kw2Absorbed, BothAbsorbed;
    KeepsKw4(s, sub[..], max);
    var kw4 := sub[max + 1];
    if max == 32 {
      AbsorbOdd(sub, 24, kw4);
      kw4 := Lin(kw4, sub[24]);
    }
    AbsorbOdd(sub, 16, kw4);
    kw4 := Lin(kw4, sub[16]);
    AbsorbOdd(sub, 8, kw4);
    kw4 := Lin(kw4, sub[8]);
    AbsorbOdd(sub, 0, kw4);
    sub[0] := Xor(sub[0], kw4);
  }

  // ---- moving the keys behind the S-boxes -----------------------------------------------------

  function FirstEntry(a: seq<Word>, i: nat, max: Max): Word
    requires Group(i, max) && |a| == max + 2
  {
    if i == 0 then a[3] else Xor(Lin(a[i - 1], a[i + 1]), a[i + 3])
  }

  function LastEntry(a: seq<Word>, i: nat, max: Max): Word
    requires Group(i, max) && |a| == max + 2
  {
    if i + 8 == max then a[i + 6] else Xor(a[i + 6], Lin(a[i + 10], a[i + 8]))
  }

  function MoveGroup(a: seq<Word>, t: seq<Word>, i: nat, max: Max): (r: seq<Word>)
    requires Group(i, max) && |a| == max + 2 && max < |t|
    ensures |r| == |t|
  {
    var t1 := t[i + 2 := FirstEntry(a, i, max)][i + 3 := Xor(a[i + 2], a[i + 4])][i + 4 := Xor(a[i + 3], a[i + 5])];
    var t2 := t1[i + 5 := Xor(a[i + 4], a[i + 6])][i + 6 := Xor(a[i + 5], a[i + 7])][i + 7 := LastEntry(a, i, max)];
    if i + 8 < max then t2[i + 8 := a[i + 8]][i + 9 := a[i + 9]] else t2
  }

  predicate Moved(a: seq<Word>, t: seq<Word>, i: nat, max: Max)
    requires Group(i, max) && |a| == max + 2 && max < |t|
  {
    t[i + 2] == FirstEntry(a, i, max) && t[i + 3] == Xor(a[i + 2], a[i + 4]) && t[i + 4] == Xor(a[i + 3], a[i + 5]) &&
    t[i + 5] == Xor(a[i + 4], a[i + 6]) && t[i + 6] == Xor(a[i + 5], a[i + 7]) && t[i + 7] == LastEntry(a, i, max) &&
    (i + 8 < max ==> t[i + 8] == a[i + 8] && t[i + 9] == a[i + 9])
  }

  ghost predicate AllMoved(a: seq<Word>, t: seq<Word>, n: nat, max: Max)
    requires |a| == max + 2 && max < |t|
  {
    t[0] == Xor(a[0], a[2]) && forall k: nat :: Group(k, max) && k < n ==> Moved(a, t, k, max)
  }

  lemma MoveStep(a: seq<Word>, t: seq<Word>, i: nat, max: Max)
    requires Group(i, max) && |a| == max + 2 && max < |t| && AllMoved(a, t, i, max)
    ensures AllMoved(a, MoveGroup(a, t, i, max), i + 8, max)
  {
    hide Xor, FirstEntry, LastEntry;
    var t' := MoveGroup(a, t, i, max);
    assert Moved(a, t', i, max);
    forall k: nat | Group(k, max) && k < i ensures Moved(a, t', k, max) {
      assert forall j :: k + 2 <= j < k + 10 ==> t'[j] == t[j];
    }
  }

  method MoveKeys(sub: array<Word>, subkey: array<Word>, i: nat, max: Max)
    requires Group(i, max) && sub.Length == max + 2 && max < subkey.Length && sub != subkey
    modifies subkey
    ensures subkey[..] == MoveGroup(sub[..], old(subkey[..]), i, max)
  {
    hide Xor, Lin;
    subkey[i + 2] := if i == 0 then sub[3] else Xor(Lin(sub[i - 1], sub[i + 1]), sub[i + 3]);
    subkey[i + 3] := Xor(sub[i + 2], sub[i + 4]);
    subkey[i + 4] := Xor(sub[i + 3], sub[i + 5]);
    subkey[i + 5] := Xor(sub[i + 4], sub[i + 6]);
    subkey[i + 6] := Xor(sub[i + 5], sub[i + 7]);
    subkey[i + 7] := if i + 8 == max then sub[i + 6] else Xor(sub[i + 6], Lin(sub[i + 10], sub[i + 8]));
    if i + 8 < max {
      subkey[i + 8] := sub[i + 8];
      subkey[i + 9] := sub[i + 9];
    }
  }

  // "key XOR is end of F-function"
  method MoveAllKeys(sub: array<Word>, subkey: array<Word>, max: Max)
    requires sub.Length == max + 2 && max < subkey.Length && sub != subkey
    modifies subkey
    ensures AllMoved(sub[..], subkey[..], max, max) && subkey[max] == Xor(sub[max], sub[max - 1])
  {
    hide Xor, MoveGroup, Moved;
    subkey[0] := Xor(sub[0], sub[2]);
    MoveStep(sub[..], subkey[..], 0, max);
    MoveKeys(sub, subkey, 0, max);
    MoveStep(sub[..], subkey[..], 8, max);
    MoveKeys(sub, subkey, 8, max);
    MoveStep(sub[..], subkey[..], 16, max);
    MoveKeys(sub, subkey, 16, max);
    if max == 32 {
      MoveStep(sub[..], subkey[..], 24, max);
      MoveKeys(sub, subkey, 24, max);
    }
    ghost var t := subkey[..];
    subkey[max] := Xor(sub[max], sub[max - 1]);
    LastKept(sub[..], t, subkey[..], max);
  }

  lemma LastKept(a: seq<Word>, t: seq<Word>, t': seq<Word>, max: Max)
    requires |a| == max + 2 && max < |t| == |t'| && AllMoved(a, t, max, max)
    requires forall j :: 0 <= j < |t| && j != max ==> t'[j] == t[j]
    ensures AllMoved(a, t', max, max)
  {
    hide Xor, FirstEntry, LastEntry;
    forall k: nat | Group(k, max) && k < max ensures Moved(a, t', k, max) {
      assert Moved(a, t, k, max);
    }
  }

  // ---- the inverse of half of P ----------------------------------------------------------------

  predicate RoundEntry(j: int, max: Max) { 2 <= j < max && j % 8 >= 2 }

  method InvertSix(subkey: array<Word>, i: nat)
    requires i + 6 <= subkey.Length
    modifies subkey
    ensures forall j :: 0 <= j < subkey.Length ==>
              subkey[j] == if i <= j < i + 6 then HalfInv(old(subkey[j])) else old(subkey[j])
  {
    hide HalfInv;
    for k := i to i + 6
      invariant forall j :: 0 <= j < subkey.Length ==>
                  subkey[j] == if i <= j < k then HalfInv(old(subkey[j])) else old(subkey[j])
    {
      subkey[k] := HalfInv(subkey[k]);
    }
  }

  // "apply the inverse of the last half of P-function"
  method InvertHalf(subkey: array<Word>, max: Max)
    requires max < subkey.Length
    modifies subkey
    ensures forall j :: 0 <= j < subkey.Length ==>
              subkey[j] == if RoundEntry(j, max) then HalfInv(old(subkey[j])) else old(subkey[j])
  {
    hide HalfInv;
    var i := 2;
    while i < max
      invariant 2 <= i <= max + 2 && i % 8 == 2
      invariant forall j :: 0 <= j < subkey.Length ==>
                  subkey[j] == if RoundEntry(j, max) && j < i then HalfInv(old(subkey[j])) else old(subkey[j])
    {
      InvertSix(subkey, i);
      i := i + 8;
    }
  }

  // ---- camellia_setup_tail -----------------------------------------------------------------------

  lemma FirstEntryOk(s: seq<Word>, a: seq<Word>, i: nat, max: Max)
    requires BothAbsorbed(s, a, max) && Group(i, max)
    ensures FirstEntry(a, i, max) == Xor(Before(s, i), s[i + 3])
  {
    hide Xor, Lin;
    assert Absorbed(s, a, i, max, true);
    if i == 0 {
      XorLaws(s[3], s[1], ZERO);
    } else {
      assert Absorbed(s, a, i - 8, max, true);
      LinXor(s[i - 1], Kw2At(s, i - 8, max), s[i + 1]);
      CancelMask(Lin(s[i - 1], s[i + 1]), s[i + 3], Kw2At(s, i, max));
    }
  }

  lemma LastEntryOk(s: seq<Word>, a: seq<Word>, i: nat, max: Max)
    requires BothAbsorbed(s, a, max) && Group(i, max)
    ensures LastEntry(a, i, max) == Xor(s[i + 6], After(s, i, max))
  {
    hide Xor, Lin;
    assert Absorbed(s, a, i, max, true);
    if i + 8 < max {
      assert Absorbed(s, a, i + 8, max, true);
      LinXor(s[i + 10], Kw4At(s, i + 8, max), s[i + 8]);
      CancelMask(s[i + 6], Lin(s[i + 10], s[i + 8]), Kw4At(s, i, max));
    }
  }

  lemma InvertedGroup(t1: seq<Word>, t2: seq<Word>, i: nat, max: Max)
    requires Group(i, max) && max < |t1| == |t2|
    requires forall j :: 0 <= j < |t1| ==> t2[j] == if RoundEntry(j, max) then HalfInv(t1[j]) else t1[j]
    ensures forall j :: i + 2 <= j < i + 8 ==> Half(t2[j]) == t1[j]
    ensures i + 8 < max ==> t2[i + 8] == t1[i + 8] && t2[i + 9] == t1[i + 9]
  {
    hide Half, HalfInv;
    forall j | i + 2 <= j < i + 8 ensures Half(t2[j]) == t1[j] {
      assert RoundEntry(j, max);
      HalfUndo(t1[j]);
    }
  }

  lemma GroupOk(s: seq<Word>, a: seq<Word>, t1: seq<Word>, t2: seq<Word>, i: nat, max: Max)
    requires BothAbsorbed(s, a, max) && Group(i, max) && max < |t1| == |t2| && Moved(a, t1, i, max)
    requires forall j :: 0 <= j < |t1| ==> t2[j] == if RoundEntry(j, max) then HalfInv(t1[j]) else t1[j]
    ensures SectionOk(s, t2, i, max)
  {
    hide Xor, Lin, Half, HalfInv, Kw2At, Kw4At, Before, After, FirstEntry, LastEntry, RoundEntry;
    assert Absorbed(s, a, i, max, true);
    FirstEntryOk(s, a, i, max);
    LastEntryOk(s, a, i, max);
    InvertedGroup(t1, t2, i, max);
    CancelMask(s[i + 2], s[i + 4], Kw4At(s, i, max));
    CancelMask(s[i + 4], s[i + 6], Kw4At(s, i, max));
    CancelMask(s[i + 3], s[i + 5], Kw2At(s, i, max));
    CancelMask(s[i + 5], s[i + 7], Kw2At(s, i, max));
  }

  lemma SetupOk(s: seq<Word>, a: seq<Word>, t1: seq<Word>, t2: seq<Word>, max: Max)
    requires BothAbsorbed(s, a, max) && max < |t1| == |t2| && AllMoved(a, t1, max, max) && t1[max] == Xor(a[max], a[max - 1])
    requires forall j :: 0 <= j < |t1| ==> t2[j] == if RoundEntry(j, max) then HalfInv(t1[j]) else t1[j]
    ensures TableOk(s, t2, max)
  {
    hide Xor, Lin, Half, HalfInv, SectionOk, Moved;
    forall i: nat | Group(i, max) ensures SectionOk(s, t2, i, max) {
      GroupOk(s, a, t1, t2, i, max);
    }
    assert Absorbed(s, a, 0, max, true) && Absorbed(s, a, max - 8, max, true);
    CancelMask(s[0], s[2], Kw4At(s, 0, max));
    CancelMask(s[max], s[max - 1], Kw2At(s, max - 8, max));
  }

  // The table it leaves in subkey makes the fast form the published cipher.
  method SetupTail(subkey: array<Word>, sub: array<Word>, max: Max)
    requires sub.Length == max + 2 && max < subkey.Length && sub != subkey
    modifies subkey, sub
    ensures TableOk(old(sub[..]), subkey[..], max)
  {
    hide Xor, Lin, Absorbed, Moved, SectionOk, HalfInv, Kw2At, Kw4At, TableOk;
    ghost var s := sub[..];
    AbsorbKw2(sub, max);
    AbsorbKw4(sub, max, s);
    MoveAllKeys(sub, subkey, max);
    ghost var t1 := subkey[..];
    InvertHalf(subkey, max);
    SetupOk(s, sub[..], t1, subkey[..], max);
  }

  // ---- camellia_do_encrypt and camellia_do_decrypt ---------------------------------------------

  // The block an io array holds
  ghost function Io(io: array<Word>): Block
    requires io.Length == 2
    reads io
  {
    Block(io[0], io[1])
  }

  // One CAMELLIA_ROUNDSM that updates io[1], then one that updates io[0]
  method TwoRounds(b: Boxes, io: array<Word>, k0: Word, k1: Word)
    requires io.Length == 2
    modifies io
    ensures Io(io) == FastRound(b, FastRound(b, old(Io(io)), k0), k1)
  {
    hide RoundSm;
    io[1] := RoundSm(b, io[0], k0, io[1]);
    io[0] := RoundSm(b, io[1], k1, io[0]);
  }

  // CAMELLIA_FLS
  method FLS(io: array<Word>, kl: Word, kr: Word)
    requires io.Length == 2
    modifies io
    ensures Io(io) == Block(FL(old(io[0]), kl), FLInv(old(io[1]), kr))
  {
    hide X, And, Or, Rol1;
    var ll, lr, rl, rr := io[0].l, io[0].r, io[1].l, io[1].r;
    rl := X(rl, Or(rr, kr.r));
    lr := X(lr, Rol1(And(ll, kl.l)));
    ll := X(ll, Or(lr, kl.r));
    rr := X(rr, Rol1(And(rl, kr.l)));
    io[0], io[1] := Word(ll, lr), Word(rl, rr);
  }

  method Rounds(b: Boxes, subkey: array<Word>, io: array<Word>, i: nat)
    requires io.Length == 2 && i + 8 <= subkey.Length && io != subkey
    modifies io
    ensures Io(io) == FastSix(b, old(Io(io)), subkey[..], i)
  {
    hide FastRound;
    TwoRounds(b, io, subkey[i + 2], subkey[i + 3]);
    TwoRounds(b, io, subkey[i + 4], subkey[i + 5]);
    TwoRounds(b, io, subkey[i + 6], subkey[i + 7]);
  }

  method RoundsBack(b: Boxes, subkey: array<Word>, io: array<Word>, i: nat)
    requires io.Length == 2 && i + 8 <= subkey.Length && io != subkey
    modifies io
    ensures Io(io) == BackSix(b, old(Io(io)), subkey[..], i)
  {
    hide FastRound;
    TwoRounds(b, io, subkey[i + 7], subkey[i + 6]);
    TwoRounds(b, io, subkey[i + 5], subkey[i + 4]);
    TwoRounds(b, io, subkey[i + 3], subkey[i + 2]);
  }

  // The halves are left for the caller to exchange.
  method DoEncrypt(b: Boxes, subkey: array<Word>, io: array<Word>, max: Max)
    requires io.Length == 2 && max < subkey.Length && io != subkey
    modifies io
    ensures Swap(Io(io)) == FastEncrypt(b, old(Io(io)), subkey[..], max)
  {
    hide Xor, FastSix, FL, FLInv;
    io[0] := Xor(io[0], subkey[0]);
    ghost var t, e0 := subkey[..], Io(io);
    Rounds(b, subkey, io, 0);
    FLS(io, subkey[8], subkey[9]);
    assert FastCore(b, e0, t, 0, max) == FastCore(b, Io(io), t, 8, max);
    Rounds(b, subkey, io, 8);
    FLS(io, subkey[16], subkey[17]);
    assert FastCore(b, e0, t, 0, max) == FastCore(b, Io(io), t, 16, max);
    Rounds(b, subkey, io, 16);
    if max == 32 {
      FLS(io, subkey[24], subkey[25]);
      assert FastCore(b, e0, t, 0, max) == FastCore(b, Io(io), t, 24, max);
      Rounds(b, subkey, io, 24);
    }
    io[1] := Xor(io[1], subkey[max]);
  }

  method DoDecrypt(b: Boxes, subkey: array<Word>, io: array<Word>, max: Max)
    requires io.Length == 2 && max < subkey.Length && io != subkey
    modifies io
    ensures Swap(Io(io)) == FastDecrypt(b, old(Io(io)), subkey[..], max)
  {
    hide Xor, BackSix, FL, FLInv;
    io[0] := Xor(io[0], subkey[max]);
    ghost var t, e0 := subkey[..], Io(io);
    if max == 32 {
      RoundsBack(b, subkey, io, 24);
      FLS(io, subkey[25], subkey[24]);
    }
    RoundsBack(b, subkey, io, 16);
    assert Io(io) == BackCore(b, e0, t, 16, max);
    FLS(io, subkey[17], subkey[16]);
    RoundsBack(b, subkey, io, 8);
    assert Io(io) == BackCore(b, e0, t, 8, max);
    FLS(io, subkey[9], subkey[8]);
    RoundsBack(b, subkey, io, 0);
    assert Io(io) == BackCore(b, e0, t, 0, max);
    io[1] := Xor(io[1], subkey[0]);
  }

  // camellia_encrypt with the table of camellia_setup_tail, and the way back
  method EncryptThenDecrypt(b: Boxes, sub: array<Word>, max: Max, m: Block) returns (c: Block, m': Block)
    requires sub.Length == max + 2
    modifies sub
    ensures c == Encrypt(b, m, old(sub[..]), max)
    ensures m' == m
  {
    hide Encrypt, FastEncrypt, FastDecrypt, TableOk;
    ghost var s := sub[..];
    var subkey := new Word[max + 2](_ => ZERO);
    SetupTail(subkey, sub, max);
    var io := new Word[2](_ => ZERO);
    io[0], io[1] := m.d1, m.d2;
    DoEncrypt(b, subkey, io, max);
    c := Block(io[1], io[0]);
    EncryptsAsPublished(b, m, s, subkey[..], max);
    io[0], io[1] := c.d1, c.d2;
    DoDecrypt(b, subkey, io, max);
    m' := Block(io[1], io[0]);
    DecryptUndoes(b, m, subkey[..], max);
  }
}
