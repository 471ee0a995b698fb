/**
 * The cached next request of the anticipatory scheduler is the best of all it holds, although
 * only neighbours are ever compared.
 */
module AnticipatoryChoice {
  import opened AnticipatoryModel

  lemma CutFacts(tree: seq<Req>, i: nat)
    requires i < |tree|
    ensures |Cut(tree, i)| == |tree| - 1
    ensures forall k :: 0 <= k < i ==> Cut(tree, i)[k] == tree[k]
    ensures forall k :: i <= k < |tree| - 1 ==> Cut(tree, i)[k] == tree[k + 1]
    ensures Sorted(tree) ==> Sorted(Cut(tree, i)) && tree[i] !in Cut(tree, i)
    ensures Apart(tree) ==> Apart(Cut(tree, i))
  {
  }

  lemma CutMembers(tree: seq<Req>, i: nat, x: Req)
    requires i < |tree| && Sorted(tree)
    ensures x in Cut(tree, i) <==> x in tree && x != tree[i]
  {
    CutFacts(tree, i);
    if x in tree && x != tree[i] {
      var k :| 0 <= k < |tree| && tree[k] == x;
      assert Cut(tree, i)[if k < i then k else k - 1] == x;
    }
  }

  // The neighbour that is kept is in the tree and is not the request itself.
  lemma FindNextHeld(tree: seq<Req>, last: nat, i: nat)
    requires i < |tree| && Sorted(tree)
    ensures |tree| == 1 <==> FindNext(tree, last, i) == Null
    ensures |tree| > 1 ==> FindNext(tree, last, i).r in Cut(tree, i)
  {
    if |tree| > 1 {
      CutMembers(tree, i, FindNext(tree, last, i).r);
    }
  }

  // With the head at the end of the request at i, every other request is beaten by a neighbour:
  // what lies ahead by the successor, what lies behind by the predecessor, or, when nothing is
  // ahead and all is too far behind, by the first.
  lemma NeighbourBeats(tree: seq<Req>, i: nat, k: nat)
    requires Sorted(tree) && Apart(tree) && i < |tree| && k < |tree| && k != i
    ensures var last := End(tree[i]);
            (k > i ==> k == i + 1 || Beats(last, tree[i + 1], tree[k])) &&
            (k < i - 1 ==> Beats(last, tree[i - 1], tree[k]) ||
                           (i + 1 < |tree| && Beats(last, tree[i + 1], tree[k])) ||
                           (i + 1 == |tree| && (k == 0 || Beats(last, tree[0], tree[k]))))
  {
  }

  lemma DispatchBest(tree: seq<Req>, i: nat)
    requires Sorted(tree) && Apart(tree) && i < |tree|
    ensures var last := End(tree[i]); var next := FindNext(tree, last, i);
            if |tree| == 1 then next == Null else next.Rq? && Best(Cut(tree, i), last, next.r)
  {
    var last := End(tree[i]);
    FindNextHeld(tree, last, i);
    if |tree| > 1 {
      var r := FindNext(tree, last, i).r;
      forall x | x in Cut(tree, i) && x != r ensures Beats(last, r, x) {
        CutMembers(tree, i, x);
        var k :| 0 <= k < |tree| && tree[k] == x;
        NeighbourBeats(tree, i, k);
        ChosenBeats(tree, last, i, k);
      }
    }
  }

  // If a neighbour, or the first one, beats the request at k, then so does the one chosen.
  lemma ChosenBeats(tree: seq<Req>, last: nat, i: nat, k: nat)
    requires Sorted(tree) && i < |tree| && k < |tree| && k != i
    requires k > i ==> k == i + 1 || Beats(last, tree[i + 1], tree[k])
    requires k < i - 1 ==> Beats(last, tree[i - 1], tree[k]) ||
                           (i + 1 < |tree| && Beats(last, tree[i + 1], tree[k])) ||
                           (i + 1 == |tree| && (k == 0 || Beats(last, tree[0], tree[k])))
    ensures var next := FindNext(tree, last, i); next.Rq? && (next.r == tree[k] || Beats(last, next.r, tree[k]))
  {
    hide Beats, Choose;
    var n := |tree|;
    var succ := if i + 1 < n then i + 1 else 0;
    if succ != i && i > 0 && succ != i - 1 { ChooseIs(last, tree[succ], tree[i - 1]); }
    BeatsOrders(last, tree[succ], if i > 0 then tree[i - 1] else tree[succ], tree[k]);
    BeatsOrders(last, if i > 0 then tree[i - 1] else tree[succ], tree[succ], tree[k]);
    ChooseTrivial(last, Rq(tree[succ]));
    if i > 0 { ChooseTrivial(last, Rq(tree[i - 1])); }
  }

  lemma ChooseTrivial(last: nat, a: Link)
    ensures Choose(last, a, Null) == a && Choose(last, Null, a) == a && Choose(last, a, a) == a
  {
  }

  // ---- every operation keeps the best request cached -----------------------------------------

  lemma DispatchKeeps(s: State, i: nat)
    requires Inv(s) && i < |s.tree|
    ensures Inv(MoveToDispatch(s, i))
  {
    CutFacts(s.tree, i);
    FindNextHeld(s.tree, End(s.tree[i]), i);
    DispatchBest(s.tree, i);
  }

  lemma {:induction false} PosSplits(tree: seq<Req>, sector: nat)
    requires Sorted(tree)
    ensures forall i :: 0 <= i < Pos(tree, sector) ==> tree[i].sector < sector
    ensures forall i :: Pos(tree, sector) <= i < |tree| ==> sector <= tree[i].sector
  {
    if tree != [] && tree[0].sector < sector { PosSplits(tree[1..], sector); }
  }

  function Put(tree: seq<Req>, p: nat, r: Req): seq<Req>
    requires p <= |tree|
  {
    tree[..p] + [r] + tree[p..]
  }

  lemma PutFacts(tree: seq<Req>, p: nat, r: Req)
    requires p <= |tree|
    ensures |Put(tree, p, r)| == |tree| + 1 && Put(tree, p, r)[p] == r
    ensures forall k :: 0 <= k < p ==> Put(tree, p, r)[k] == tree[k]
    ensures forall k :: p < k <= |tree| ==> Put(tree, p, r)[k] == tree[k - 1]
    ensures forall x :: x in Put(tree, p, r) <==> x in tree || x == r
  {
  }

  lemma PutApart(tree: seq<Req>, p: nat, r: Req)
    requires Sorted(tree) && Apart(tree) && p <= |tree| && forall x :: x in tree ==> Clear(r, x)
    requires (forall i :: 0 <= i < p ==> tree[i].sector < r.sector) && forall i :: p <= i < |tree| ==> r.sector <= tree[i].sector
    ensures Sorted(Put(tree, p, r)) && Apart(Put(tree, p, r))
  {
    hide Put, Clear, Sorted, Apart;
    PutFacts(tree, p, r);
    var t := Put(tree, p, r);
    forall k, l | 0 <= k < l < |t| ensures InOrder(t[k], t[l]) {
      if k == p {
        Side(tree, r, l - 1);
      } else if l == p {
        Side(tree, r, k);
      } else {
        OldOrder(tree, if k < p then k else k - 1, if l < p then l else l - 1);
      }
    }
    OrderIs(t);
  }

  predicate InOrder(a: Req, b: Req) { a.sector < b.sector && End(a) <= b.sector }

  lemma OldOrder(tree: seq<Req>, k: nat, l: nat)
    requires Sorted(tree) && Apart(tree) && k < l < |tree|
    ensures InOrder(tree[k], tree[l])
  {
  }

  lemma Side(tree: seq<Req>, r: Req, k: nat)
    requires k < |tree| && forall x :: x in tree ==> Clear(r, x)
    ensures if tree[k].sector < r.sector then InOrder(tree[k], r) else InOrder(r, tree[k])
  {
    assert tree[k] in tree;
  }

  lemma OrderIs(tree: seq<Req>)
    requires forall k, l :: 0 <= k < l < |tree| ==> InOrder(tree[k], tree[l])
    ensures Sorted(tree) && Apart(tree)
  {
  }

  lemma AddBest(tree: seq<Req>, last: nat, next: Req, r: Req)
    requires Best(tree, last, next) && forall x :: x in tree ==> x.sector != r.sector
    ensures var c := Choose(last, Rq(r), Rq(next));
            c.Rq? && (c.r == r || c.r == next) && Beats(last, c.r, r) == (c.r != r) &&
            forall x :: x in tree && x != c.r ==> Beats(last, c.r, x)
  {
    ChooseIs(last, r, next);
    BeatsOrders(last, r, next, r);
    forall x | x in tree && x != next ensures Beats(last, r, next) ==> Beats(last, r, x) { BeatsOrders(last, r, next, x); }
  }

  lemma InsertIsPut(tree: seq<Req>, r: Req)
    ensures Insert(tree, r) == Put(tree, Pos(tree, r.sector), r)
  {
  }

  lemma AddKeeps(s: State, r: Req)
    requires Inv(s) && Enabled(s, DoAdd(r))
    ensures Inv(Add(s, r))
  {
    hide Pos, Put, Beats, Choose, Sorted, Apart;
    var p := Pos(s.tree, r.sector);
    assert forall x :: x in s.tree ==> x.sector != r.sector;
    PosSplits(s.tree, r.sector);
    PutApart(s.tree, p, r);
    PutFacts(s.tree, p, r);
    InsertIsPut(s.tree, r);
    assert Add(s, r).tree == Put(s.tree, p, r) && Add(s, r).next == Choose(s.last, Rq(r), s.next);
    if s.tree == [] {
      ChooseTrivial(s.last, Rq(r));
    } else {
      AddBest(s.tree, s.last, s.next.r, r);
    }
  }

  // Growing at its end moves no request.
  lemma BackMergedBest(s: State, i: nat, n: nat)
    requires Sorted(s.tree) && NextBest(s) && i < |s.tree|
    ensures Sorted(BackMerged(s, i, n).tree) && NextBest(BackMerged(s, i, n))
  {
    var r := s.tree[i];
    var r' := r.(nr := r.nr + n);
    var t := s.tree[i := r'];
    var next := BackMerged(s, i, n).next;
    assert t[i] == r';
    var k :| 0 <= k < |s.tree| && s.tree[k] == s.next.r;
    assert t[k] == next.r;
    forall x | x in t && x != next.r ensures Beats(s.last, next.r, x) {
      var j :| 0 <= j < |t| && t[j] == x;
      assert s.tree[j] in s.tree && s.tree[j] != s.next.r;
      assert Beats(s.last, s.next.r, s.tree[j]);
    }
  }

  lemma BackMergedKeeps(s: State, i: nat, n: nat)
    requires Inv(s) && Enabled(s, DoBackMerged(i, n))
    ensures Inv(BackMerged(s, i, n))
  {
    hide NextBest;
    BackMergedBest(s, i, n);
    var t := BackMerged(s, i, n).tree;
    forall j, k | 0 <= j < k < |t| ensures End(t[j]) <= t[k].sector {
      if j == i && k > i + 1 { assert s.tree[i + 1].sector < s.tree[k].sector; }
    }
  }

  // Taking the best request out, every other one is beaten by a neighbour or by the first.
  lemma BestNeighbour(tree: seq<Req>, last: nat, i: nat, k: nat)
    requires Sorted(tree) && i < |tree| && Best(tree, last, tree[i]) && k < |tree| && k != i
    ensures k > i ==> k == i + 1 || Beats(last, tree[i + 1], tree[k])
    ensures k < i - 1 ==> Beats(last, tree[i - 1], tree[k]) ||
                          (i + 1 < |tree| && Beats(last, tree[i + 1], tree[k])) ||
                          (i + 1 == |tree| && (k == 0 || Beats(last, tree[0], tree[k])))
  {
    assert tree[k] in tree && Beats(last, tree[i], tree[k]);
    if i + 1 < |tree| { assert tree[i + 1] in tree && Beats(last, tree[i], tree[i + 1]); }
    if i > 0 { assert tree[i - 1] in tree && Beats(last, tree[i], tree[i - 1]); }
  }

  lemma RemoveQueuedBest(s: State, i: nat)
    requires Sorted(s.tree) && NextBest(s) && i < |s.tree|
    ensures Sorted(RemoveQueued(s, i).tree) && NextBest(RemoveQueued(s, i))
  {
    CutFacts(s.tree, i);
    FindNextHeld(s.tree, s.last, i);
    var s' := RemoveQueued(s, i);
    if s'.tree != [] {
      if s.next.r != s.tree[i] { CutMembers(s.tree, i, s.next.r); }
      forall x | x in s'.tree && x != s'.next.r ensures Beats(s.last, s'.next.r, x) {
        CutMembers(s.tree, i, x);
        if s.next.r == s.tree[i] {
          var k :| 0 <= k < |s.tree| && s.tree[k] == x;
          BestNeighbour(s.tree, s.last, i, k);
          ChosenBeats(s.tree, s.last, i, k);
        }
      }
    }
  }

  lemma MergedRequestsKeeps(s: State, i: nat)
    requires Inv(s) && Enabled(s, DoMergedRequests(i))
    ensures Inv(MergedRequests(s, i))
  {
    hide NextBest;
    var s1 := BackMerged(s, i - 1, s.tree[i].nr);
    BackMergedBest(s, i - 1, s.tree[i].nr);
    RemoveQueuedBest(s1, i);
    CutFacts(s1.tree, i);
    var t := MergedRequests(s, i).tree;
    forall j, k | 0 <= j < k < |t| ensures End(t[j]) <= t[k].sector {
      if j == i - 1 { assert End(s.tree[i]) <= s.tree[k + 1].sector; }
    }
  }

  // The request that is merged in front is not the cached one.
  lemma FrontMergedOther(s: State, i: nat, r: Req)
    requires Inv(s) && Enabled(s, DoFrontMerged(i, r)) && s.next != Rq(s.tree[i])
    ensures var t := Insert(Cut(s.tree, i), r); Best(t, s.last, s.next.r) <==> !Beats(s.last, r, s.next.r)
  {
    hide Beats, Cut, Pos;
    var rest, n := Cut(s.tree, i), s.next.r;
    CutMembers(s.tree, i, n);
    InsertMembers(rest, r);
    BeatsOrders(s.last, n, r, n);
    forall x | x in rest && x != n ensures Beats(s.last, n, x) { CutMembers(s.tree, i, x); }
    assert r in Insert(rest, r) && r != n;
  }

  // With the best request out of a tree, the one as_find_next_rq chooses stands for all the others.
  lemma ChosenStands(tree: seq<Req>, last: nat, i: nat, x: Req)
    requires Sorted(tree) && i < |tree| && Best(tree, last, tree[i]) && x in Cut(tree, i)
    ensures var c := FindNext(tree, last, i); c.Rq? && (x == c.r || Beats(last, c.r, x))
  {
    hide Beats, FindNext, Cut;
    CutMembers(tree, i, x);
    var k :| 0 <= k < |tree| && tree[k] == x;
    BestNeighbour(tree, last, i, k);
    ChosenBeats(tree, last, i, k);
  }

  // It is the cached one.
  lemma FrontMergedSelf(s: State, i: nat, r: Req)
    requires Inv(s) && Enabled(s, DoFrontMerged(i, r)) && s.next == Rq(s.tree[i])
    ensures var t, c := Insert(Cut(s.tree, i), r), FindNext(s.tree, s.last, i);
            Best(t, s.last, r) <==> (c.Rq? ==> !Beats(s.last, c.r, r))
  {
    hide Beats, Cut, FindNext, Pos, Insert, Apart, Sorted;
    var rest, c := Cut(s.tree, i), FindNext(s.tree, s.last, i);
    InsertMembers(rest, r);
    CutFacts(s.tree, i);
    FindNextHeld(s.tree, s.last, i);
    if c.Rq? {
      BeatsOrders(s.last, r, c.r, r);
      forall x | x in rest && !Beats(s.last, c.r, r) ensures Beats(s.last, r, x) {
        ChosenStands(s.tree, s.last, i, x);
        BeatsOrders(s.last, r, c.r, x);
      }
    }
  }

  lemma InsertMembers(tree: seq<Req>, r: Req)
    ensures forall x :: x in Insert(tree, r) <==> x in tree || x == r
  {
    var p := Pos(tree, r.sector);
    assert tree == tree[..p] + tree[p..];
  }

  lemma FrontMergedIs(s: State, i: nat, r: Req)
    requires Inv(s) && Enabled(s, DoFrontMerged(i, r))
    ensures FrontMerged(s, i, r).tree == Insert(Cut(s.tree, i), r) && FrontMerged(s, i, r).last == s.last
    ensures FrontMerged(s, i, r).next == Retarget(s.next, s.tree[i], r)
    ensures Sorted(Insert(Cut(s.tree, i), r)) && Apart(Insert(Cut(s.tree, i), r))
  {
    hide Cut, Pos;
    var rest := Cut(s.tree, i);
    CutFacts(s.tree, i);
    AddRbPlain(s.(tree := rest, next := Retarget(s.next, s.tree[i], r)), r);
    PosSplits(rest, r.sector);
    PutApart(rest, Pos(rest, r.sector), r);
  }

  lemma FrontMergedKeepsIff(s: State, i: nat, r: Req)
    requires Inv(s) && Enabled(s, DoFrontMerged(i, r))
    ensures Inv(FrontMerged(s, i, r)) <==> Steady(s, DoFrontMerged(i, r))
  {
    hide Beats, Cut, FindNext, Insert, FrontMerged, Sorted, Apart;
    FrontMergedIs(s, i, r);
    InsertMembers(Cut(s.tree, i), r);
    if s.next == Rq(s.tree[i]) { FrontMergedSelf(s, i, r); } else { FrontMergedOther(s, i, r); }
  }

  // Every step but an unlucky front merge keeps the best request cached.
  lemma StepKeepsIff(s: State, t: Step)
    requires Inv(s) && Enabled(s, t)
    ensures Inv(Apply(s, t)) <==> Steady(s, t)
  {
    hide Inv;
    match t
    case DoAdd(r) => AddKeeps(s, r);
    case DoDispatch(i) => DispatchKeeps(s, i);
    case DoBackMerged(i, n) => BackMergedKeeps(s, i, n);
    case DoMergedRequests(i) => MergedRequestsKeeps(s, i);
    case DoFrontMerged(i, r) => FrontMergedKeepsIff(s, i, r);
  }

  lemma {:induction false} RunKeeps(s: State, steps: seq<Step>)
    requires Inv(s) && Runs(s, steps) && SteadyRun(s, steps)
    ensures Inv(Run(s, steps))
    decreases |steps|
  {
    hide Inv, Apply, Enabled, Steady;
    if steps != [] {
      StepKeepsIff(s, steps[0]);
      RunKeeps(Apply(s, steps[0]), steps[1..]);
    }
  }

  // After any adds of non-overlapping requests, dispatches and merges, none of them an unlucky
  // front merge, the cached next request is the one as_choose_req prefers to every other one held.
  lemma NextIsBest(steps: seq<Step>, x: Req)
    requires Runs(START, steps) && SteadyRun(START, steps) && x in Run(START, steps).tree
    ensures var s := Run(START, steps);
            s.next.Rq? && s.next.r in s.tree && Choose(s.last, s.next, Rq(x)) == s.next && Choose(s.last, Rq(x), s.next) == s.next
  {
    RunKeeps(START, steps);
    var s := Run(START, steps);
    if x != s.next.r {
      var i :| 0 <= i < |s.tree| && s.tree[i] == x;
      var j :| 0 <= j < |s.tree| && s.tree[j] == s.next.r;
      assert Beats(s.last, s.next.r, x);
      BeatsOrders(s.last, s.next.r, x, s.next.r);
      ChooseIs(s.last, s.next.r, x);
      ChooseIs(s.last, x, s.next.r);
    }
  }

  // A first request is dispatched and two more are added.
  function Steps(z: Req, a: Req, b: Req): seq<Step> { [DoAdd(z), DoDispatch(0), DoAdd(a), DoAdd(b)] }

  // b begins where a ends, so the nearer of the two is cached.
  lemma StepsRun(z: Req, a: Req, b: Req)
    requires 0 < a.nr && 0 < b.nr && End(a) == b.sector
    ensures Runs(START, Steps(z, a, b))
    ensures Run(START, Steps(z, a, b)) == State([a, b], Choose(End(z), Rq(b), Rq(a)), End(z), [z])
  {
    hide Choose;
    var steps := Steps(z, a, b);
    var s1 := State([z], Rq(z), 0, []);
    var s2 := State([], Null, End(z), [z]);
    var s3 := State([a], Rq(a), End(z), [z]);
    AddFirst(START, z);
    DispatchOnly(s1, z);
    AddFirst(s2, a);
    AddSecond(s3, a, b);
    assert steps[1..][1..] == steps[2..] && steps[2..][1..] == steps[3..] && steps[3..][1..] == [];
    assert [] + [z] == [z];
    assert Runs(s3, steps[3..]) && Run(s3, steps[3..]) == State([a, b], Choose(End(z), Rq(b), Rq(a)), End(z), [z]);
    assert Runs(s2, steps[2..]) && Run(s2, steps[2..]) == Run(s3, steps[3..]);
    assert Runs(s1, steps[1..]) && Run(s1, steps[1..]) == Run(s3, steps[3..]);
  }

  lemma AddFirst(s: State, r: Req)
    requires s.tree == [] && s.next == Null
    ensures Add(s, r) == s.(tree := [r], next := Rq(r))
  {
  }

  lemma DispatchOnly(s: State, r: Req)
    requires s.tree == [r]
    ensures MoveToDispatch(s, 0) == State([], Null, End(r), s.out + [r])
  {
  }

  lemma AddSecond(s: State, a: Req, b: Req)
    requires s.tree == [a] && s.next == Rq(a) && a.sector < b.sector
    ensures Add(s, b) == s.(tree := [a, b], next := Choose(s.last, Rq(b), Rq(a)))
  {
    hide Choose;
    assert [a][1..] == [];
    assert Pos([a], b.sector) == 1;
    assert [a] + [b] + [] == [a, b];
  }

  // After [10, 20) has gone [30, 31) and [31, 40) come, and the first is cached. A bio in front makes it
  // begin at 5, behind the head, and the other one would be better.
  lemma UnluckyFrontMerge()
    ensures var c, b, r := Req(0, 30, 1), Req(1, 31, 9), Req(0, 5, 26);
            var s := State([c, b], Rq(c), 20, [Req(9, 10, 10)]);
            Runs(START, Steps(Req(9, 10, 10), c, b)) && Run(START, Steps(Req(9, 10, 10), c, b)) == s &&
            Enabled(s, DoFrontMerged(0, r)) && !NextBest(Apply(s, DoFrontMerged(0, r)))
  {
    hide Sorted, Apart, Steady, NextBest, FrontMerged, Runs, Run, Beats;
    var c, b, r := Req(0, 30, 1), Req(1, 31, 9), Req(0, 5, 26);
    var s := State([c, b], Rq(c), 20, [Req(9, 10, 10)]);
    StepsRun(Req(9, 10, 10), c, b);
    TwoKept(c, b);
    assert Cut(s.tree, 0) == [b];
    NotSteady(s);
    StepKeepsIff(s, DoFrontMerged(0, r));
    FrontMergedApart(s, r);
  }

  lemma NotSteady(s: State)
    requires s == State([Req(0, 30, 1), Req(1, 31, 9)], Rq(Req(0, 30, 1)), 20, [Req(9, 10, 10)])
    ensures Enabled(s, DoFrontMerged(0, Req(0, 5, 26))) && !Steady(s, DoFrontMerged(0, Req(0, 5, 26)))
  {
    assert Cut(s.tree, 0) == [Req(1, 31, 9)];
    assert FindNext(s.tree, 20, 0) == Rq(Req(1, 31, 9)) by { hide Beats; }
    assert Beats(20, Req(1, 31, 9), Req(0, 5, 26));
  }

  // The tree is in order all the same.
  lemma FrontMergedApart(s: State, r: Req)
    requires s == State([Req(0, 30, 1), Req(1, 31, 9)], Rq(Req(0, 30, 1)), 20, [Req(9, 10, 10)]) && r == Req(0, 5, 26)
    ensures Sorted(FrontMerged(s, 0, r).tree) && Apart(FrontMerged(s, 0, r).tree)
  {
    hide Sorted, Apart;
    var b := Req(1, 31, 9);
    assert Cut(s.tree, 0) == [b];
    assert Pos([b], 5) == 0;
    assert FrontMerged(s, 0, r).tree == Insert([b], r);
    assert Insert([b], r) == [r, b];
    OrderIs([r, b]);
  }

  lemma TwoKept(c: Req, b: Req)
    requires c == Req(0, 30, 1) && b == Req(1, 31, 9)
    ensures Inv(State([c, b], Rq(c), 20, [Req(9, 10, 10)]))
  {
    assert Best([c, b], 20, c);
  }

  // ---- requests that overlap -------------------------------------------------------------------

  // Besides the neighbours, three requests can be better than the one dispatch caches: the second
  // behind it in the tree, the first of all and the last of all.
  predicate Overlooked(tree: seq<Req>, i: nat, k: nat, last: nat, next: Req) {
    k < |tree| && k != i && Beats(last, tree[k], next)
  }

  // Dispatching from any sorted tree, overlapping or not, caches the best of the rest exactly when
  // none of those three is better.
  lemma DispatchBestIff(tree: seq<Req>, i: nat)
    requires Sorted(tree) && i < |tree| && |tree| > 1
    ensures var last := End(tree[i]); var next := FindNext(tree, last, i);
            next.Rq? && (Best(Cut(tree, i), last, next.r) <==>
              !Overlooked(tree, i, i + 2, last, next.r) && !Overlooked(tree, i, 0, last, next.r) &&
              !Overlooked(tree, i, |tree| - 1, last, next.r))
  {
    hide FindNext;
    var last := End(tree[i]);
    FindNextHeld(tree, last, i);
    var r := FindNext(tree, last, i).r;
    if Best(Cut(tree, i), last, r) {
      forall k | k in [0, i + 2, |tree| - 1] ensures !Overlooked(tree, i, k, last, r) {
        if 0 <= k < |tree| && k != i {
          CutMembers(tree, i, tree[k]);
          BeatsOrders(last, r, tree[k], r);
        }
      }
    } else {
      var x :| x in Cut(tree, i) && x != r && !Beats(last, r, x);
      CutMembers(tree, i, x);
      var k :| 0 <= k < |tree| && tree[k] == x;
      SomeOverlooked(tree, i, k);
    }
  }

  // If a request is better than the one cached, then one of the three is.
  lemma SomeOverlooked(tree: seq<Req>, i: nat, k: nat)
    requires Sorted(tree) && i < |tree| && k < |tree| && k != i
    requires var last := End(tree[i]); var next := FindNext(tree, last, i);
             next.Rq? && next.r in tree && next.r != tree[k] && !Beats(last, next.r, tree[k])
    ensures var last := End(tree[i]); var next := FindNext(tree, last, i);
            Overlooked(tree, i, i + 2, last, next.r) || Overlooked(tree, i, 0, last, next.r) ||
            Overlooked(tree, i, |tree| - 1, last, next.r)
  {
  }

  // Adding [0, 10), [5, 8) and [10, 12) and dispatching the first leaves the head at 10, but the
  // neighbour at 5 is cached and not the request at 10.
  lemma OverlapMisleads()
    ensures var a, b, c := Req(0, 0, 10), Req(1, 5, 3), Req(2, 10, 2);
            var s := Add(Add(Add(START, a), b), c);
            s.tree == [a, b, c] && s.next == Rq(a) &&
            var s' := MoveToDispatch(s, 0);
            s'.next == Rq(b) && Overlooked(s.tree, 0, 2, s'.last, b) && !NextBest(s')
  {
    var a, b, c := Req(0, 0, 10), Req(1, 5, 3), Req(2, 10, 2);
    var s1 := Add(START, a);
    assert s1 == State([a], Rq(a), 0, []);
    var s2 := Add(s1, b);
    assert Pos([a], 5) == 1 + Pos([], 5) && s2 == State([a, b], Rq(a), 0, []);
    assert [a, b][1..] == [b] && [b][1..] == [];
    assert Pos([a, b], 10) == 2;
    assert Add(s2, c) == State([a, b, c], Rq(a), 0, []);
    assert Cut([a, b, c], 0) == [b, c];
    assert FindNext([a, b, c], 10, 0) == Rq(b);
    assert [b, c][1] == c && !Beats(10, b, c);
  }

  // ---- forced dispatch -------------------------------------------------------------------------

  lemma MoveCached(s: State, i: nat)
    requires Sorted(s.tree) && i < |s.tree|
    ensures NextCached(MoveToDispatch(s, i)) && MoveToDispatch(s, i).tree == Cut(s.tree, i)
    ensures MoveToDispatch(s, i).next == Null <==> |s.tree| == 1
  {
    CutFacts(s.tree, i);
    FindNextHeld(s.tree, End(s.tree[i]), i);
  }

  lemma InsertSorted(tree: seq<Req>, r: Req)
    requires Sorted(tree) && forall x :: x in tree ==> x.sector != r.sector
    ensures Sorted(Insert(tree, r)) && forall x :: x in tree || x == r ==> x in Insert(tree, r)
  {
    var p := Pos(tree, r.sector);
    PosSplits(tree, r.sector);
    PutFacts(tree, p, r);
    assert Insert(tree, r) == Put(tree, p, r);
    hide Put;
    forall k | 0 <= k < |tree| ensures tree[k].sector != r.sector { assert tree[k] in tree; }
  }

  // Nobody else is at the sector where Pos found nobody.
  lemma NobodyAt(tree: seq<Req>, sector: nat)
    requires Sorted(tree)
    ensures var p := Pos(tree, sector); !(p < |tree| && tree[p].sector == sector) ==> forall x :: x in tree ==> x.sector != sector
    ensures var p := Pos(tree, sector); p < |tree| && tree[p].sector == sector ==>
              forall x :: x in Cut(tree, p) ==> x.sector != sector
  {
    PosSplits(tree, sector);
  }

  // Inserting after whoever was at the sector was dispatched
  lemma AddRbOnce(s: State, r: Req)
    requires Sorted(s.tree)
    ensures var p := Pos(s.tree, r.sector); var s' := AddRb(s, r);
            Sorted(s'.tree) && r in s'.tree &&
            if p < |s.tree| && s.tree[p].sector == r.sector then
              s'.next == MoveToDispatch(s, p).next && forall x :: x in Cut(s.tree, p) ==> x in s'.tree
            else s'.next == s.next && forall x :: x in s.tree ==> x in s'.tree
  {
    hide Insert, Cut, MoveToDispatch, Pos;
    var p := Pos(s.tree, r.sector);
    NobodyAt(s.tree, r.sector);
    if p < |s.tree| && s.tree[p].sector == r.sector {
      var s1 := MoveToDispatch(s, p);
      MoveCached(s, p);
      CutFacts(s.tree, p);
      AddRbPlain(s1, r);
      InsertSorted(s1.tree, r);
    } else {
      InsertSorted(s.tree, r);
    }
  }

  lemma AddRbPlain(s: State, r: Req)
    requires forall x :: x in s.tree ==> x.sector != r.sector
    ensures AddRb(s, r) == s.(tree := Insert(s.tree, r))
  {
  }

  // Overlapping or not, adding keeps a next request cached.
  lemma AddCached(s: State, r: Req)
    requires NextCached(s)
    ensures NextCached(Add(s, r))
  {
    hide AddRb, MoveToDispatch;
    var p := Pos(s.tree, r.sector);
    AddRbOnce(s, r);
    if p < |s.tree| && s.tree[p].sector == r.sector { MoveCached(s, p); }
  }

  // A front merge loses the cached request in one case: the only other request sits at the
  // sector the merged one moves to. Forced dispatch then finds nothing although one is held.
  lemma FrontMergedCachedIff(s: State, i: nat, r: Req)
    requires NextCached(s) && i < |s.tree|
    ensures var rest := Cut(s.tree, i);
            NextCached(FrontMerged(s, i, r)) <==> !(|rest| == 1 && rest[0].sector == r.sector)
  {
    hide AddRb, MoveToDispatch;
    var rest := Cut(s.tree, i);
    CutFacts(s.tree, i);
    var s0 := s.(tree := rest, next := Retarget(s.next, s.tree[i], r));
    var p := Pos(rest, r.sector);
    PosSplits(rest, r.sector);
    AddRbOnce(s0, r);
    if p < |rest| && rest[p].sector == r.sector {
      MoveCached(s0, p);
    } else if s.next.r != s.tree[i] {
      CutMembers(s.tree, i, s.next.r);
    }
  }

  // After [24, 25) has gone [10, 20) and [20, 22) come, and the second is cached. A bio of ten sectors in
  // front of it moves it onto the first, which is dispatched, and nothing is cached although one request
  // is held.
  lemma FrontMergeLosesNext()
    ensures var a, b := Req(0, 10, 10), Req(1, 20, 2);
            var s := State([a, b], Rq(b), 25, [Req(9, 24, 1)]);
            Runs(START, Steps(Req(9, 24, 1), a, b)) && Run(START, Steps(Req(9, 24, 1), a, b)) == s &&
            var s' := FrontMerged(s, 1, Req(1, 10, 12));
            s'.next == Null && s'.tree == [Req(1, 10, 12)]
  {
    hide Runs, Run;
    var a, b := Req(0, 10, 10), Req(1, 20, 2);
    var s := State([a, b], Rq(b), 25, [Req(9, 24, 1)]);
    StepsRun(Req(9, 24, 1), a, b);
    assert Cut(s.tree, 1) == [a];
    assert Choose(25, Rq(b), Rq(a)) == Rq(b);
    var r := Req(1, 10, 12);
    var s0 := s.(tree := [a], next := Rq(r));
    DispatchOnly(s0, a);
    assert FrontMerged(s, 1, r) == AddRb(s0, r) == AddRb(MoveToDispatch(s0, 0), r);
    assert Insert([], r) == [r];
  }
}
