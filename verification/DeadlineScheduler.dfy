/**
 * struct deadline_data as the object the scheduler updates in place. Each method is proved
 * against the function that specifies it.
 */
module DeadlineScheduler {
  import opened DeadlineModel
  import opened DeadlineIndexes
  import opened DeadlineSteps

  class Scheduler {
    var sortList: Pair<seq<Node>>
    var fifoList: Pair<seq<Item>>
    var nextRq: Pair<Link>
    var batching: nat
    var starved: nat
    var expire: Pair<nat>
    var fifoBatch: nat
    var writesStarved: int
    var nrSorted: int             // of the queue
    var dispatched: seq<Gone>     // appended to the dispatch list of the queue
    var clock: int

    ghost function View(): State
      reads this
    {
      State(sortList, fifoList, nextRq, batching, starved, expire, fifoBatch, writesStarved, nrSorted, dispatched, clock)
    }

    // deadline_init_queue
    constructor (readExpire: nat, writeExpire: nat, batch: nat, starve: int, now: int)
      ensures View() == Init(Pair(readExpire, writeExpire), batch, starve, now)
    {
      sortList, fifoList, nextRq, batching, starved := Pair([], []), Pair([], []), Pair(Null, Null), 0, 0;
      expire, fifoBatch, writesStarved := Pair(readExpire, writeExpire), batch, starve;
      nrSorted, dispatched, clock := 0, [], now;
    }

    // elv_rb_add: inserted, or who is at the sector already
    method RbAdd(d: Dir, id: nat, sector: nat) returns (alias: Link)
      modifies `sortList
      ensures alias == Alias(old(sortList).Get(d), sector)
      ensures sortList == if alias == Null
                          then var t := old(sortList).Get(d); old(sortList).Set(d, Put(t, Pos(t, sector), Node(sector, id)))
                          else old(sortList)
    {
      var tree := sortList.Get(d);
      var p := 0;
      while p < |tree| && tree[p].sector < sector
        invariant p <= |tree| && Pos(tree, sector) == p + Pos(tree[p..], sector)
      {
        p := p + 1;
      }
      assert Pos(tree[p..], sector) == 0;
      if p < |tree| && tree[p].sector == sector { return Rq(tree[p].id); }
      sortList := sortList.Set(d, Put(tree, p, Node(sector, id)));
      return Null;
    }

    // deadline_latter_request
    method LatterRequest(d: Dir, id: nat) returns (next: Link)
      ensures next == Latter(sortList.Get(d), id)
    {
      var tree := sortList.Get(d);
      var i := FindNode(tree, id);
      next := if i + 1 < |tree| then Rq(tree[i + 1].id) else Null;
    }

    static method FindNode(tree: seq<Node>, id: nat) returns (i: nat)
      ensures i == IndexOf(tree, id)
    {
      i := 0;
      while i < |tree| && tree[i].id != id
        invariant i <= |tree| && IndexOf(tree, id) == i + IndexOf(tree[i..], id)
      {
        i := i + 1;
      }
      assert IndexOf(tree[i..], id) == 0;
    }

    static method FindItem(fifo: seq<Item>, id: nat) returns (i: nat)
      ensures i == Place(fifo, id)
    {
      i := 0;
      while i < |fifo| && fifo[i].id != id
        invariant i <= |fifo| && Place(fifo, id) == i + Place(fifo[i..], id)
      {
        i := i + 1;
      }
      assert Place(fifo[i..], id) == 0;
    }

    // deadline_remove_request and deadline_del_rq_rb
    method RemoveRequest(d: Dir, id: nat)
      modifies `fifoList, `nextRq, `sortList
      ensures View() == Remove(old(View()), d, id)
    {
      hide IndexOf, Place, Latter, Cut;
      var i := FindItem(fifoList.Get(d), id);
      var next := nextRq.Get(d);
      if next == Rq(id) { next := LatterRequest(d, id); }
      var j := FindNode(sortList.Get(d), id);
      fifoList, nextRq, sortList :=
        fifoList.Set(d, Cut(fifoList.Get(d), i)), nextRq.Set(d, next), sortList.Set(d, Cut(sortList.Get(d), j));
    }

    // deadline_move_request, deadline_move_to_dispatch and elv_dispatch_add_tail
    method Move(d: Dir, id: nat)
      modifies `fifoList, `nextRq, `sortList, `dispatched, `nrSorted
      ensures View() == MoveRequest(old(View()), d, id)
    {
      hide Remove, Latter;
      var next := LatterRequest(d, id);
      nextRq := Pair(Null, Null).Set(d, next);
      RemoveRequest(d, id);
      dispatched, nrSorted := dispatched + [Gone(id, d)], nrSorted - 1;
    }

    // deadline_add_rq_rb
    method AddRqRb(d: Dir, id: nat, sector: nat)
      modifies `fifoList, `nextRq, `sortList, `dispatched, `nrSorted
      ensures View() == AddRb(old(View()), d, id, sector)
    {
      hide MoveRequest, Alias, Put, Pos;
      ghost var goal := AddRb(View(), d, id, sector);
      var alias := RbAdd(d, id, sector);
      while alias != Null
        invariant if alias == Null then View() == goal
                  else alias == Alias(sortList.Get(d), sector) && AddRb(View(), d, id, sector) == goal
        decreases alias != Null, |sortList.Get(d)|
      {
        MoveFewer(View(), d, alias.id, sector);
        Move(d, alias.id);
        alias := RbAdd(d, id, sector);
      }
    }

    // deadline_add_request
    method AddRequest(d: Dir, id: nat, sector: nat, now: int)
      modifies this
      ensures View() == Add(old(View()), d, id, sector, now)
    {
      hide AddRb;
      nrSorted := nrSorted + 1;
      AddRqRb(d, id, sector);
      fifoList, clock := fifoList.Set(d, fifoList.Get(d) + [Item(id, now + expire.Get(d))]), now;
    }

    // deadline_merged_request
    method MergedRequest(d: Dir, id: nat, front: bool, sector: nat)
      modifies this
      ensures View() == if front then FrontMerged(old(View()), d, id, sector) else old(View())
    {
      hide AddRb, IndexOf, Cut;
      if front {
        var i := FindNode(sortList.Get(d), id);
        sortList := sortList.Set(d, Cut(sortList.Get(d), i));
        AddRqRb(d, id, sector);
      }
    }

    // deadline_merged_requests
    method MergeRequests(d: Dir, req: nat, next: nat)
      modifies this
      ensures View() == MergedRequests(old(View()), d, req, next)
    {
      hide Remove, Place, Cut, Put;
      var fifo := fifoList.Get(d);
      var i := FindItem(fifo, req);
      var j := FindItem(fifo, next);
      if i < |fifo| && j < |fifo| && fifo[j].time < fifo[i].time {
        var time := fifo[j].time;
        var f := Cut(fifo, i);
        var p := FindItem(f, next);
        if p < |f| { fifoList := fifoList.Set(d, Put(f, p + 1, Item(req, time))); }
      }
      RemoveRequest(d, next);
      nrSorted := nrSorted - 1;
    }

    // deadline_check_fifo
    method CheckFifo(d: Dir, now: int) returns (expired: bool)
      requires fifoList.Get(d) != []
      ensures expired == Expired(fifoList.Get(d), now)
    {
      expired := now > fifoList.Get(d)[0].time;
    }

    // dispatch_find_request
    method FindRequest(d: Dir, now: int) returns (rq: Link)
      requires fifoList.Get(d) != []
      ensures rq == Find(fifoList.Get(d), nextRq.Get(d), now)
    {
      var expired := CheckFifo(d, now);
      rq := if expired || nextRq.Get(d) == Null then Rq(fifoList.Get(d)[0].id) else nextRq.Get(d);
    }

    // deadline_dispatch_requests; the BUG_ONs on an empty tree cannot fire.
    method DispatchRequests(now: int) returns (n: int)
      requires Inv(View()) && clock <= now
      modifies this
      ensures View() == Dispatch(old(View()), now)
      ensures n == if Idle(old(View())) then 0 else 1
    {
      hide MoveRequest, Find, TreeOk, FifoOk, NodeIds, ItemIds;
      ghost var s := View();
      if !Idle(s) { Chosen(s, now); }
      var anyReads, anyWrites := fifoList.r != [], fifoList.w != [];
      var rq := if nextRq.w != Null then nextRq.w else nextRq.r;
      clock := now;
      if rq != Null && batching < fifoBatch {
        batching := batching + 1;
        Move(if nextRq.w != Null then WRITE else READ, rq.id);
        InBatchHolds(s);
        return 1;
      }
      var d := READ;
      if anyReads && !(anyWrites && starved >= Unsigned(writesStarved)) {
        if anyWrites { starved := starved + 1; }
      } else if anyWrites {
        starved := 0;
        d := WRITE;
      } else {
        return 0;
      }
      assert d == NewDir(s);
      rq := FindRequest(d, now);
      batching := 1;
      Move(d, rq.id);
      return 1;
    }

    // elv_drain_elevator: dispatching until nothing comes empties the scheduler.
    method Drain(now: int)
      requires Inv(View()) && clock <= now
      modifies this
      ensures Inv(View()) && Idle(View()) && nrSorted == 0
      ensures |dispatched| == |old(dispatched)| + old(nrSorted) && dispatched[..|old(dispatched)|] == old(dispatched)
    {
      hide Inv, Dispatch;
      var n := 1;
      while n != 0
        invariant Inv(View()) && clock <= now && (n == 0 ==> Idle(View()))
        invariant |dispatched| + nrSorted == |old(dispatched)| + old(nrSorted)
        invariant |old(dispatched)| <= |dispatched| && dispatched[..|old(dispatched)|] == old(dispatched)
        decreases nrSorted, n
      {
        DispatchKeeps(View(), now);
        CountHeld(View());
        n := DispatchRequests(now);
      }
      CountHeld(View());
    }
  }

  lemma CountHeld(s: State)
    requires Inv(s)
    ensures s.nrSorted >= 0 && (Idle(s) <==> s.nrSorted == 0)
  {
  }
}
