/**
 * The parts of struct as_data that serve one direction, updated in place.
 */
module AnticipatoryScheduler {
  import opened AnticipatoryModel
  import opened AnticipatoryChoice

  class Direction {
    var sortList: seq<Req>
    var nextRq: Link
    var lastSector: nat
    var dispatched: seq<Req>     // handed to elv_dispatch_sort

    ghost function View(): State
      reads this
    {
      State(sortList, nextRq, lastSector, dispatched)
    }

    constructor ()
      ensures View() == START && Inv(View())
    {
      sortList, nextRq, lastSector, dispatched := [], Null, 0, [];
    }

    // The requests before and after the one at i in sector order, or the first one
    method FindNextRq(i: nat) returns (rq: Link)
      requires i < |sortList|
      ensures rq == FindNext(sortList, lastSector, i)
    {
      var next, prev := Null, Null;
      if i > 0 { prev := Rq(sortList[i - 1]); }
      if i + 1 < |sortList| {
        next := Rq(sortList[i + 1]);
      } else if i != 0 {
        next := Rq(sortList[0]);
      }
      rq := Choose(lastSector, next, prev);
    }

    method RemoveQueuedRequest(i: nat)
      requires i < |sortList|
      modifies `nextRq, `sortList
      ensures View() == RemoveQueued(old(View()), i)
    {
      hide FindNext;
      if nextRq == Rq(sortList[i]) { nextRq := FindNextRq(i); }
      sortList := sortList[..i] + sortList[i + 1..];
    }

    // as_move_to_dispatch
    method Move(i: nat)
      requires i < |sortList|
      modifies this
      ensures View() == MoveToDispatch(old(View()), i)
    {
      hide FindNext, Cut;
      var rq := sortList[i];
      lastSector := rq.sector + rq.nr;
      nextRq := FindNextRq(i);
      RemoveQueuedRequest(i);
      dispatched := dispatched + [rq];
    }

    // elv_rb_add: where the request goes, or where the one sits that is in its way
    method Search(sector: nat) returns (p: nat, taken: bool)
      ensures p == Pos(sortList, sector) && taken == (p < |sortList| && sortList[p].sector == sector)
    {
      p := 0;
      while p < |sortList| && sortList[p].sector < sector
        invariant p <= |sortList| && Pos(sortList, sector) == p + Pos(sortList[p..], sector)
      {
        p := p + 1;
      }
      assert Pos(sortList[p..], sector) == 0;
      taken := p < |sortList| && sortList[p].sector == sector;
    }

    // as_add_rq_rb
    method AddRqRb(r: Req)
      modifies this
      ensures View() == AddRb(old(View()), r)
    {
      hide MoveToDispatch, Pos;
      var p, taken := Search(r.sector);
      while taken
        invariant p == Pos(sortList, r.sector) && taken == (p < |sortList| && sortList[p].sector == r.sector)
        invariant AddRb(View(), r) == AddRb(old(View()), r)
        decreases |sortList|
      {
        ghost var before := View();
        Move(p);
        MoveShrinks(before, p);
        p, taken := Search(r.sector);
      }
      sortList := sortList[..p] + [r] + sortList[p..];
    }

    // as_add_request with as_update_rq
    method AddRequest(r: Req)
      modifies this
      ensures View() == Add(old(View()), r)
    {
      hide AddRb, Choose;
      AddRqRb(r);
      nextRq := Choose(lastSector, Rq(r), nextRq);
    }

    // as_merged_request after a front merge has made the request at i into r
    method MergedRequest(i: nat, r: Req)
      requires i < |sortList|
      modifies this
      ensures View() == FrontMerged(old(View()), i, r)
    {
      hide AddRb;
      if nextRq == Rq(sortList[i]) { nextRq := Rq(r); }
      sortList := sortList[..i] + sortList[i + 1..];
      AddRqRb(r);
    }

    // The forced branch of as_dispatch_request: every request held goes out, each once.
    method ForceDispatch() returns (n: nat)
      requires NextCached(View())
      modifies this
      ensures sortList == [] && nextRq == Null && n == |old(sortList)|
      ensures exists gone :: dispatched == old(dispatched) + gone && multiset(gone) == multiset(old(sortList))
    {
      hide MoveToDispatch, FindNext, Cut, Sorted;
      n := 0;
      ghost var gone: seq<Req> := [];
      while nextRq != Null
        invariant NextCached(View()) && n + |sortList| == |old(sortList)|
        invariant dispatched == old(dispatched) + gone
        invariant multiset(gone) + multiset(sortList) == multiset(old(sortList))
        decreases |sortList|
      {
        var i :| 0 <= i < |sortList| && sortList[i] == nextRq.r;
        MoveCached(View(), i);
        MoveOut(View(), i);
        gone := gone + [sortList[i]];
        Move(i);
        n := n + 1;
      }
    }
  }

  lemma MoveShrinks(s: State, i: nat)
    requires i < |s.tree|
    ensures |MoveToDispatch(s, i).tree| < |s.tree|
  {
  }

  lemma MoveOut(s: State, i: nat)
    requires i < |s.tree|
    ensures MoveToDispatch(s, i).out == s.out + [s.tree[i]] && |Cut(s.tree, i)| == |s.tree| - 1
    ensures multiset(s.tree) == multiset{s.tree[i]} + multiset(Cut(s.tree, i))
  {
    assert s.tree == s.tree[..i] + [s.tree[i]] + s.tree[i + 1..];
  }
}
