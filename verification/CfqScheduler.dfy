/**
 * struct cfq_data and the operations of the scheduler, in place. What depends on times and priorities
 * is left open: it may come out either way.
 */
module CfqScheduler {
  import opened CfqModel
  import opened CfqTree
  import opened CfqQueues
  import opened CfqSteps

  // n requests went from the queues to the dispatch list; everything is in agreement.
  ghost predicate Moved(s: State, s': State, n: nat) {
    && Settled(s') && Held(s'.queues) + multiset(s'.out) == Held(s.queues) + multiset(s.out)
    && s'.queued == s.queued - n && |s'.queues| == |s.queues| && s'.head == s.head
  }

  // The same of one queue: the others keep their requests, and nobody changes class.
  ghost predicate MovedFrom(s: State, s': State, x: nat, n: nat) {
    && Moved(s, s', n) && x < |s.queues| && |s'.queues[x].reqs| == |s.queues[x].reqs| - n
    && (forall y :: 0 <= y < |s.queues| && y != x ==> s'.queues[y].reqs == s.queues[y].reqs)
    && (forall y :: 0 <= y < |s.queues| ==> SameClass(s'.queues[y], s.queues[y]))
  }

  predicate SameClass(a: Queue, b: Queue) { a.rt == b.rt && a.idle == b.idle && a.sync == b.sync }

  // Why an unforced dispatch ends
  datatype Stop = Drained | Waiting | Enough | SyncFirst

  // The active queue; a real-time one while there are busy ones
  predicate Current(s: State, x: nat) { s.active == Some(x) && x < |s.queues| && (s.busyRt != 0 ==> s.queues[x].rt) }

  predicate Ready(s: State, x: nat) { Current(s, x) && s.queues[x].reqs != [] && s.queued > 0 }

  // Nothing is left; the active queue waits for a request; it has enough in flight while others are
  // busy; it is asynchronous and synchronous requests are in flight.
  predicate Stopped(s: State, quantum: nat, why: Stop) {
    match why
    case Drained => s.busy == 0
    case Waiting => s.active.Some? && Current(s, s.active.x) && s.queues[s.active.x].reqs == []
    case Enough => s.active.Some? && Ready(s, s.active.x) && s.busy > 1 &&
                   s.queues[s.active.x].dispatched >= if s.queues[s.active.x].idle then 1 else quantum
    case SyncFirst => s.active.Some? && Ready(s, s.active.x) && s.syncFlight != 0 && !s.queues[s.active.x].sync
  }

  class CfqData {
    var queues: seq<Queue>
    var service: seq<nat>
    var left: Option
    var busy: int
    var busyRt: int
    var queued: int
    var head: Head
    var active: Option
    var syncFlight: int
    var out: seq<Rq>
    var bug: bool

    ghost function View(): State
      reads this
    {
      State(queues, service, left, busy, busyRt, queued, head, active, syncFlight, out, bug)
    }

    // cfq_init_queue
    constructor (h: Head)
      ensures Settled(View()) && queues == [] && head == h
    {
      queues, service, left, busy, busyRt, queued := [], [], None, 0, 0, 0;
      head, active, syncFlight, out, bug := h, None, 0, [], false;
    }

    // cfq_get_queue: a queue without requests
    method NewQueue(rt: bool, idle: bool, sync: bool)
      requires Settled(View())
      modifies `queues
      ensures Settled(View()) && queues == old(queues) + [Empty(rt, idle, sync)]
    {
      hide Settled;
      queues := queues + [Empty(rt, idle, sync)];
      EmptyKeeps(old(View()), View(), rt, idle, sync);
    }

    lemma ViewIs()
      ensures View() == State(queues, service, left, busy, busyRt, queued, head, active, syncFlight, out, bug)
    {
    }

    // cfq_rb_first
    method RbFirst() returns (r: Option)
      modifies `left
      ensures View() == First(old(View())) && r == left
    {
      if left == None && service != [] { left := Some(service[0]); }
      r := left;
    }

    method Find(x: nat) returns (p: nat)
      requires x in service
      ensures p < |service| && Drop(service, x) == Cut(service, p)
    {
      hide Drop, Cut;
      p := 0;
      assert service[0..] == service && service[..0] == [];
      DropNone(service, x);
      while service[p] != x
        invariant p < |service| && x in service[p..]
        invariant Drop(service, x) == service[..p] + Drop(service[p..], x)
        decreases |service| - p
      {
        DropStep(service, p, x);
        p := p + 1;
      }
      DropHere(service, p, x);
    }

    // cfq_rb_erase
    method RbErase(x: nat)
      requires x in service
      modifies `left, `service
      ensures View() == Erase(old(View()), x)
    {
      hide Drop, Cut;
      if left == Some(x) { left := None; }
      var p := Find(x);
      service := Cut(service, p);
    }

    // The walk down the tree: how many queues come before
    method Walk(rt: bool, idle: bool, key: nat) returns (p: nat)
      requires InRange(queues, service)
      ensures p == Slot(queues, service, rt, idle, key)
    {
      hide Less;
      p := 0;
      while p < |service| && !Less(rt, idle, key, queues[service[p]])
        invariant p <= |service|
        invariant Slot(queues, service, rt, idle, key) == p + Slot(queues, service[p..], rt, idle, key)
      {
        assert service[p..][1..] == service[p + 1..];
        p := p + 1;
      }
    }

    // The key a queue is sorted by
    method ComputeKey(x: nat, k: Key, front: bool) returns (key: nat)
      requires InRange(queues, service) && x < |queues|
      ensures key == NewKey(View(), x, k, front)
    {
      if queues[x].idle {
        key := IDLE_DELAY;
        if service != [] && service[|service| - 1] != x {
          key := key + queues[service[|service| - 1]].key;
        } else {
          key := key + k.jiffies;
        }
        key := key % ULONG;
      } else {
        key := if front then 0 else k.fair % ULONG;
      }
    }

    // The walk and the link
    method LinkNode(x: nat, key: nat)
      requires InRange(queues, service) && x < |queues|
      modifies `left, `service, `queues
      ensures View() == Insert(old(View()), x, key)
    {
      hide Slot, Put, InRange;
      var p := Walk(queues[x].rt, queues[x].idle, key);
      if p == 0 { left := Some(x); }
      service := Put(service, p, x);
      queues := queues[x := queues[x].(key := key)];
    }

    // cfq_service_tree_add
    method ServiceTreeAdd(x: nat, k: Key, front: bool)
      requires InRange(queues, service) && x < |queues|
      modifies `left, `service, `queues
      ensures View() == ServiceAdd(old(View()), x, k, front)
    {
      hide Insert, Erase, NewKey, Drop, InRange;
      var key := ComputeKey(x, k, front);
      if x in service {
        if key == queues[x].key { return; }
        ErasedInRange(View(), x);
        ErasedFields(View(), x);
        RbErase(x);
      }
      LinkNode(x, key);
    }

    // cfq_resort_rr_list
    method ResortRrList(x: nat, k: Key)
      requires InRange(queues, service) && x < |queues|
      modifies `left, `service, `queues
      ensures View() == Resort(old(View()), x, k)
    {
      hide ServiceAdd;
      if queues[x].onRr { ServiceTreeAdd(x, k, false); }
    }

    // cfq_add_cfqq_rr
    method AddCfqqRr(x: nat, k: Key)
      requires InRange(queues, service) && x < |queues|
      modifies `left, `service, `queues, `busy, `busyRt, `bug
      ensures View() == AddRr(old(View()), x, k)
    {
      hide Resort;
      bug := bug || queues[x].onRr;
      queues := queues[x := queues[x].(onRr := true)];
      busy := busy + 1;
      if queues[x].rt { busyRt := busyRt + 1; }
      ResortRrList(x, k);
    }

    // cfq_del_cfqq_rr
    method DelCfqqRr(x: nat)
      requires x < |queues|
      modifies `left, `service, `queues, `busy, `busyRt, `bug
      ensures View() == DelRr(old(View()), x)
    {
      hide Erase;
      ghost var s := View();
      bug := bug || !queues[x].onRr;
      queues := queues[x := queues[x].(onRr := false)];
      ErasedRest(s.(bug := bug || busy == 0, queues := queues), x);
      ErasedBug(View(), bug || busy == 0, x);
      if x in service { RbErase(x); }
      bug := bug || busy == 0;
      busy := busy - 1;
      if queues[x].rt { busyRt := busyRt - 1; }
    }

    // The fields of the queue
    method TakeOut(x: nat, i: nat) returns (q: Queue)
      requires x < |queues| && i < |queues[x].reqs|
      ensures q == Removed(head, queues[x], i)
    {
      hide FindNext, Without, Cut;
      q := queues[x];
      var r := q.reqs[i];
      if q.next == Ptr(r) { q := q.(next := FindNext(head, q.reqs, i)); }
      q := q.(fifo := Without(q.fifo, r));
      q := if r.sync then q.(syncs := q.syncs - 1) else q.(asyncs := q.asyncs - 1);
      q := q.(reqs := Cut(q.reqs, i));
    }

    // cfq_remove_request
    method RemoveRequest(x: nat, i: nat)
      requires x < |queues| && i < |queues[x].reqs|
      modifies `left, `service, `queues, `busy, `busyRt, `bug, `queued
      ensures View() == Remove(old(View()), x, i)
    {
      hide *;
      ViewIs();
      ghost var s := View();
      var q := TakeOut(x, i);
      bug := bug || (if queues[x].reqs[i].sync then queues[x].syncs else queues[x].asyncs) == 0;
      queues := queues[x := q];
      queued := queued - 1;
      ViewIs();
      RemoveEnds(s, View(), x, i);
      if q.onRr && q.reqs == [] { DelCfqqRr(x); }
    }

    // cfq_dispatch_insert
    method Dispatch(x: nat, i: nat)
      requires x < |queues| && i < |queues[x].reqs|
      modifies `left, `service, `queues, `busy, `busyRt, `bug, `queued, `syncFlight, `out
      ensures View() == DispatchInsert(old(View()), x, i)
    {
      hide Remove;
      var r := queues[x].reqs[i];
      RemoveRequest(x, i);
      RemovedLength(old(View()), x, i);
      queues := queues[x := queues[x].(dispatched := queues[x].dispatched + 1)];
      out := out + [r];
      if queues[x].sync { syncFlight := syncFlight + 1; }
    }

    // cfq_completed_request
    method CompletedRequest(x: nat, used: bool, k: Key)
      requires Settled(View()) && x < |queues|
      modifies `left, `service, `queues, `active, `syncFlight
      ensures InRange(old(queues), old(service)) && View() == Completed(old(View()), x, used, k) && Settled(View())
    {
      hide Settled, SliceExpired, Held, InRange;
      ReturnedKeeps(View(), x);
      CompletedKeeps(View(), x, used, k);
      var q := queues[x];
      queues := queues[x := q.(dispatched := q.dispatched - 1)];
      if q.sync { syncFlight := syncFlight - 1; }
      if active == Some(x) && (used || q.idle) { Expire(k); }
    }

    // elv_rb_add: where a request goes in its tree, or who sits there already
    method Search(x: nat, sector: nat) returns (p: nat, taken: bool)
      requires x < |queues|
      ensures var reqs := queues[x].reqs; p == Pos(reqs, sector) && taken == (p < |reqs| && reqs[p].sector == sector)
    {
      var reqs := queues[x].reqs;
      p := 0;
      while p < |reqs| && reqs[p].sector < sector
        invariant p <= |reqs| && Pos(reqs, sector) == p + Pos(reqs[p..], sector)
      {
        assert reqs[p..][1..] == reqs[p + 1..];
        p := p + 1;
      }
      taken := p < |reqs| && reqs[p].sector == sector;
    }

    // "the first insert might return an alias": at most one comes out.
    method PushAliases(x: nat, sector: nat, ghost p: Pend) returns (i: nat)
      requires x < |queues| && Inv(View(), x, p) && (p.listed || !p.treed)
      modifies `left, `service, `queues, `busy, `busyRt, `bug, `queued, `syncFlight, `out
      ensures View() == PushAlias(old(View()), x, sector) && x < |queues| && i == Pos(queues[x].reqs, sector)
    {
      hide Inv, DispatchInsert, FreeAt, Held;
      var taken;
      i, taken := Search(x, sector);
      PushAliasKeeps(View(), x, sector, p);
      if taken {
        Dispatch(x, i);
        i, taken := Search(x, sector);
        NotTaken(queues[x].reqs, sector);
      }
    }

    // cfq_add_rq_rb
    method AddRequest(x: nat, r: Rq, k: Key, ghost listed: bool)
      requires x < |queues| && InRange(queues, service) && Inv(Counted(View(), x, r), x, Pend(r, listed, false))
      modifies `left, `service, `queues, `busy, `busyRt, `bug, `queued, `syncFlight, `out
      ensures View() == AddRqRb(old(View()), x, r, k)
    {
      hide Inv, PushAlias, Put, Choose, AddRr, Held;
      ghost var p := Pend(r, listed, false);
      queues := queues[x := if r.sync then queues[x].(syncs := queues[x].syncs + 1) else queues[x].(asyncs := queues[x].asyncs + 1)];
      CountedSame(old(View()), View(), x, r);
      PushAliasKeeps(View(), x, r.sector, p);
      var i := PushAliases(x, r.sector, p);
      Parts(View(), x, p);
      var q := queues[x];
      queues := queues[x := q.(reqs := Put(q.reqs, i, r), next := Choose(head, q.next, Ptr(r)))];
      if !q.onRr { AddCfqqRr(x, k); }
    }

    // cfq_add_rq_rb, the fifo and rq_queued
    method AddAndList(x: nat, r: Rq, k: Key)
      requires Settled(View()) && x < |queues| && New(queues[x], r)
      modifies this
      ensures InRange(old(queues), old(service)) && View() == InsertRequest(old(View()), x, r, k) && Settled(View())
    {
      hide Inv, AddRqRb, Held;
      AnyQueue(View(), 0, x);
      CountedIs(View(), x, r);
      AddKeeps(View(), x, r, k, false);
      InsertKeeps(View(), x, r, k);
      AddRequest(x, r, k, false);
      queues := queues[x := queues[x].(fifo := queues[x].fifo + [r])];
      queued := queued + 1;
    }

    // cfq_insert_request with cfq_rq_enqueued: the queue may preempt the active one.
    method InsertRq(x: nat, r: Rq, used: bool, close: bool, k: Keys)
      requires Settled(View()) && x < |queues| && New(queues[x], r)
      modifies this
      ensures Sound(old(View())) && View() == Enqueue(old(View()), x, r, used, close, k) && Settled(View())
    {
      hide Settled, InsertRequest, Preempt, ShouldPreempt, Held, New;
      SettledParts(View());
      InsertedBusy(View(), x, r, k.add);
      InsertedInRange(View(), x, r, k.add);
      AddAndList(x, r, k.add);
      SettledParts(View());
      if active.Some? && active.x != x && ShouldPreempt(queues[active.x], queues[x], r, used, close) {
        PreemptQueue(x, k.was, k.front);
      }
    }

    // cfq_merged_request after a front merge has made the request at i into r
    method FrontMerge(x: nat, i: nat, r: Rq, k: Key)
      requires Settled(View()) && x < |queues| && i < |queues[x].reqs| && r.id == queues[x].reqs[i].id && r.sync == queues[x].reqs[i].sync
      modifies this
      ensures InRange(old(queues), old(service)) && View() == FrontMerged(old(View()), x, i, r, k) && Settled(View())
    {
      hide Inv, AddRqRb, Held, Changed, Cut;
      AnyQueue(View(), 0, x);
      FrontKeeps(View(), x, i, r, k);
      LiftedCounted(View(), x, i, r);
      ChangedFields(queues[x], i, r);
      var q := Changed(queues[x], i, r);
      q := q.(reqs := Cut(q.reqs, i));
      q := if r.sync then q.(syncs := q.syncs - 1) else q.(asyncs := q.asyncs - 1);
      queues := queues[x := q];
      LiftedSame(old(View()), View(), x, i, r);
      AddRequest(x, r, k, true);
    }

    // cfq_merged_requests
    method MergeRequests(x: nat, i: nat, j: nat, older: bool)
      requires Settled(View()) && x < |queues| && i < |queues[x].reqs| && j < |queues[x].reqs|
      modifies this
      ensures View() == MergedRequests(old(View()), x, i, j, older) && Settled(View())
    {
      hide Inv, Remove, MoveBehind, Held;
      MergedKeeps(View(), x, i, j, older);
      var q := queues[x];
      if older { queues := queues[x := q.(fifo := MoveBehind(q.fifo, q.reqs[i], q.reqs[j]))]; }
      MergedSame(old(View()), View(), x, i, j, older);
      RemoveRequest(x, j);
    }

    // cfq_slice_expired
    method Expire(k: Key)
      requires Settled(View())
      modifies `left, `service, `queues, `active
      ensures InRange(old(queues), old(service)) && (old(active).Some? ==> old(active).x < |old(queues)|)
      ensures View() == SliceExpired(old(View()), k) && Settled(View())
    {
      hide Settled, Resort, InRange, Held;
      ExpireKeeps(View(), k);
      if active.Some? { ResortRrList(active.x, k); }
      active := None;
    }

    // cfq_preempt_queue
    method PreemptQueue(x: nat, was: Key, k: Key)
      requires Settled(View()) && x < |queues| && queues[x].onRr
      modifies `left, `service, `queues, `active, `bug
      ensures InRange(old(queues), old(service)) && (old(active).Some? ==> old(active).x < |old(queues)|)
      ensures View() == Preempt(old(View()), x, was, k) && Settled(View())
    {
      hide Settled, SliceExpired, ServiceAdd, InRange, Held;
      PreemptKeeps(View(), x, was, k);
      ExpireKeeps(View(), was);
      ExpiredSame(View(), was);
      Expire(was);
      bug := bug || !queues[x].onRr;
      ServiceTreeAdd(x, k, true);
    }

    // ---- dispatching ---------------------------------------------------------------------------

    lemma SettledFacts()
      requires Settled(View())
      ensures InRange(queues, service) && !bug && busy == |service| && (active.Some? ==> active.x < |queues|)
      ensures queued == Total(queues) && forall y :: 0 <= y < |queues| ==> QueueOk(queues[y], DONE)
      ensures forall y :: 0 <= y < |queues| ==> (y in service <==> queues[y].onRr)
    {
      hide Total, CountRt, Sorted, QueueOk;
      SettledParts(View());
    }

    // __cfq_forced_dispatch_cfqq
    method ForcedDispatchQueue(x: nat) returns (n: nat)
      requires Settled(View()) && x < |queues|
      modifies `left, `service, `queues, `busy, `busyRt, `bug, `queued, `syncFlight, `out
      ensures Moved(old(View()), View(), n) && active == old(active) && queues[x].reqs == []
      ensures n == |old(queues)[x].reqs|
    {
      hide *;
      n := 0;
      MovedNone(View());
      while queues[x].next != Null
        invariant x < |queues| && Moved(old(View()), View(), n) && active == old(active)
        invariant n + |queues[x].reqs| == |old(queues)[x].reqs|
        decreases |queues[x].reqs|
      {
        MovedSettled(old(View()), View(), n);
        CachedHeld(x);
        var i :| 0 <= i < |queues[x].reqs| && queues[x].reqs[i] == queues[x].next.r;
        ghost var s := View();
        ViewIs();
        MovedOne(old(View()), s, n, x, i);
        Dispatch(x, i);
        ViewIs();
        n := n + 1;
      }
      MovedSettled(old(View()), View(), n);
      CachedNull(x);
      bug := bug || queues[x].fifo != [];
    }

    lemma CachedHeld(x: nat)
      requires Settled(View()) && x < |queues| && queues[x].next != Null
      ensures queues[x].next.Ptr? && queues[x].next.r in queues[x].reqs
    {
      hide Total, ServiceOk, TreeOfOk, CountsOk, FifoOk;
      SettledParts(View());
      assert QueueOk(queues[x], DONE);
    }

    lemma CachedNull(x: nat)
      requires Settled(View()) && x < |queues| && queues[x].next == Null
      ensures queues[x].reqs == [] && queues[x].fifo == [] && !bug
    {
      hide Total, ServiceOk, TreeOfOk, CountsOk;
      SettledParts(View());
      assert QueueOk(queues[x], DONE);
      FifoDone(queues[x]);
      assert |multiset(queues[x].fifo)| == 0;
    }

    lemma FirstBusy(x: nat)
      requires Settled(View()) && x in service
      ensures x < |queues| && queues[x].reqs != [] && queued > 0
    {
      hide Total, TreeOfOk, CountsOk, FifoOk;
      SettledFacts();
      var i :| 0 <= i < |service| && service[i] == x;
      assert QueueOk(queues[x], DONE);
      TotalAtLeast(queues, x);
    }

    // cfq_forced_dispatch: everything goes out, and neither BUG_ON is met.
    method ForcedDispatch(k: Key) returns (n: nat)
      requires Settled(View())
      modifies this
      ensures Moved(old(View()), View(), n) && n == old(queued)
      ensures queued == 0 && busy == 0 && active == None && forall y :: 0 <= y < |queues| ==> queues[y].reqs == [] == queues[y].fifo
    {
      hide *;
      n := 0;
      MovedNone(View());
      FirstKeeps(View());
      ghost var s := View();
      ViewIs();
      var first := RbFirst();
      ViewIs();
      MovedFirst(old(View()), s, n);
      FirstFirst(s);
      while first.Some?
        invariant Moved(old(View()), View(), n) && View() == First(View())
        invariant first == left && (first.Some? ==> first.x in service) && (first == None ==> busy == 0)
        decreases queued
      {
        var x := first.x;
        MovedSettled(old(View()), View(), n);
        FirstBusy(x);
        ghost var before := View();
        ViewIs();
        var m := ForcedDispatchQueue(x);
        ViewIs();
        MovedTwice(old(View()), before, View(), n, m);
        n := n + m;
        MovedSettled(old(View()), View(), n);
        FirstKeeps(View());
        s := View();
        first := RbFirst();
        ViewIs();
        MovedFirst(old(View()), s, n);
        FirstFirst(s);
      }
      MovedSettled(old(View()), View(), n);
      ghost var t := View();
      ExpireKeeps(t, k);
      ViewIs();
      Expire(k);
      ViewIs();
      MovedExpired(old(View()), t, View(), n);
      bug := bug || busy != 0;
      NothingLeft();
      QueuedLeft(old(View()), View(), n);
    }

    // __cfq_set_active_queue on cfq_get_next_queue
    method SetActiveQueue() returns (r: Option)
      modifies `left, `active
      ensures View() == SetActive(old(View())) && r == active
    {
      r := None;
      if service != [] { r := RbFirst(); }
      active := r;
    }

    // cfq_select_queue: used, timer and window come from times.
    method SelectQueue(used: bool, timer: bool, window: bool, k: Key) returns (r: Option)
      requires Settled(View())
      modifies `left, `service, `queues, `active
      ensures Sound(old(View())) && (View(), r) == Select(old(View()), used, timer, window, k) && Settled(View())
    {
      hide Settled, SliceExpired, SetActive, Held;
      SelectKeeps(View(), used, timer, window, k);
      SettledParts(View());
      ExpiredNone(View(), k);
      if active.Some? {
        var q := queues[active.x];
        if !used && (q.rt || busyRt == 0) {
          if q.reqs != [] { return active; }
          if timer || (q.dispatched != 0 && window) { return None; }
        }
        Expire(k);
      }
      r := SetActiveQueue();
    }

    // __cfq_dispatch_requests, without what follows its loop: the requests of one queue go out until
    // there are enough, or none is left, or a real-time queue waits.
    method DispatchSome(x: nat, maxDispatch: nat) returns (n: nat)
      requires Settled(View()) && x < |queues| && queues[x].reqs != []
      modifies `left, `service, `queues, `busy, `busyRt, `bug, `queued, `syncFlight, `out
      ensures MovedFrom(old(View()), View(), x, n) && 0 < n && (n == 1 || n <= maxDispatch)
      ensures n < maxDispatch ==> queues[x].reqs == [] || (!queues[x].rt && busyRt != 0)
    {
      hide *;
      ViewIs();
      MovedFromNone(View(), x);
      bug := bug || queues[x].reqs == [];
      ViewIs();
      ghost var i := DispatchNext(x);
      ViewIs();
      MovedFromOne(old(View()), old(View()), View(), x, 0, i);
      n := 1;
      while n < maxDispatch && queues[x].reqs != [] && !(!queues[x].rt && busyRt != 0)
        invariant x < |queues| && MovedFrom(old(View()), View(), x, n) && 0 < n && (n == 1 || n <= maxDispatch)
        decreases maxDispatch - n
      {
        ghost var s := View();
        MovedFromIs(old(View()), s, x, n);
        ViewIs();
        i := DispatchNext(x);
        ViewIs();
        MovedFromOne(old(View()), s, View(), x, n, i);
        n := n + 1;
      }
      MovedFromIs(old(View()), View(), x, n);
      ViewIs();
    }

    // cfq_check_fifo or the cached request
    method DispatchNext(x: nat) returns (i: nat)
      requires Settled(View()) && x < |queues| && queues[x].reqs != []
      modifies `left, `service, `queues, `busy, `busyRt, `bug, `queued, `syncFlight, `out
      ensures i < |old(queues)[x].reqs| && Due(old(queues)[x], i) && View() == DispatchInsert(old(View()), x, i)
    {
      hide Settled, DispatchInsert;
      var late: bool := *;
      Available(x);
      var r := if late && queues[x].fifo != [] then queues[x].fifo[0] else queues[x].next.r;
      i :| 0 <= i < |queues[x].reqs| && queues[x].reqs[i] == r;
      Dispatch(x, i);
    }

    // Both the oldest and the cached request are in the tree.
    lemma Available(x: nat)
      requires Settled(View()) && x < |queues| && queues[x].reqs != []
      ensures queues[x].next.Ptr? && queues[x].next.r in queues[x].reqs
      ensures queues[x].fifo != [] ==> queues[x].fifo[0] in queues[x].reqs
    {
      hide Total, ServiceOk, TreeOfOk, CountsOk;
      SettledParts(View());
      assert QueueOk(queues[x], DONE);
      FifoDone(queues[x]);
      if queues[x].fifo != [] { assert queues[x].fifo[0] in multiset(queues[x].fifo); }
    }

    // __cfq_dispatch_requests: an asynchronous queue that has had its share, maxRq, expires, and so does
    // an idle one, unless it is alone.
    method DispatchFrom(x: nat, maxDispatch: nat, maxRq: int, k: Key) returns (n: nat)
      requires Settled(View()) && x < |queues| && queues[x].reqs != []
      modifies this
      ensures MovedFrom(old(View()), View(), x, n) && 0 < n && (n == 1 || n <= maxDispatch)
      ensures n < maxDispatch ==> queues[x].reqs == [] || (!queues[x].rt && busyRt != 0)
      ensures active == if busy > 1 && ((!queues[x].sync && n >= maxRq) || queues[x].idle) then None else old(active)
    {
      hide *;
      n := DispatchSome(x, maxDispatch);
      ghost var s := View();
      MovedFromIs(old(View()), s, x, n);
      ViewIs();
      if busy > 1 && ((!queues[x].sync && n >= maxRq) || queues[x].idle) {
        ExpireKeeps(s, k);
        ExpiredFrom(old(View()), s, x, n, k);
        Expire(k);
        ViewIs();
      }
    }

    // The next queue, or why there is none
    method NextQueue(quantum: nat, k: Key) returns (r: Option, ghost why: Stop)
      requires Settled(View())
      modifies `left, `service, `queues, `active
      ensures Moved(old(View()), View(), 0)
      ensures if r.Some? then Ready(View(), r.x) else Stopped(View(), quantum, why)
    {
      hide *;
      var used: bool, timer: bool, window: bool := *, *, *;
      ghost var s := View();
      r := SelectQueue(used, timer, window, k);
      why := if busy == 0 then Drained else Waiting;
      ViewIs();
      SelectedIs(s, View(), r, used, timer, window, k, quantum);
    }

    // cfq_dispatch_requests: why says how it is when an unforced call ends.
    method DispatchRequests(force: bool, quantum: nat, k: Key) returns (n: nat, ghost why: Stop)
      requires Settled(View())
      modifies this
      ensures Moved(old(View()), View(), n) && Stopped(View(), quantum, why)
      ensures force ==> n == old(queued) && queued == 0 && busy == 0
    {
      hide *;
      n, why := 0, Drained;
      ViewIs();
      MovedNone(View());
      SettledFacts();
      DrainedIs(View(), quantum);
      if busy == 0 {
        NothingLeft();
        return;
      }
      if force {
        n := ForcedDispatch(k);
        ViewIs();
        DrainedIs(View(), quantum);
        return;
      }
      var x;
      x, why := NextQueue(quantum, k);
      while x.Some?
        invariant Moved(old(View()), View(), n)
        invariant if x.Some? then Ready(View(), x.x) else Stopped(View(), quantum, why)
        decreases queued, x.Some?
      {
        ghost var s := View();
        ViewIs();
        MovedSettled(old(View()), s, n);
        ReadyIs(s, x.x);
        var maxDispatch := if queues[x.x].idle then 1 else quantum;
        if queues[x.x].dispatched >= maxDispatch && busy > 1 {
          why := Enough;
          EnoughIs(s, x.x, quantum);
          x := None;
        } else if syncFlight != 0 && !queues[x.x].sync {
          why := SyncFirst;
          SyncFirstIs(s, x.x, quantum);
          x := None;
        } else {
          var maxRq: int := *;
          var m := DispatchFrom(x.x, maxDispatch, maxRq, k);
          ghost var t := View();
          MovedFromIs(s, t, x.x, m);
          MovedTwice(old(View()), s, t, n, m);
          n := n + m;
          x, why := NextQueue(quantum, k);
          MovedTwice(old(View()), t, View(), n, 0);
          ViewIs();
          QueuedSame(t, View());
        }
      }
    }

    lemma NothingLeft()
      requires Settled(View()) && busy == 0
      ensures queued == 0 && forall y :: 0 <= y < |queues| ==> queues[y].reqs == [] == queues[y].fifo
    {
      hide TreeOfOk, CountsOk, FifoOk, NextOk;
      SettledFacts();
      forall y | 0 <= y < |queues| ensures queues[y].reqs == [] == queues[y].fifo {
        assert QueueOk(queues[y], DONE) && !queues[y].onRr;
        FifoDone(queues[y]);
        assert |multiset(queues[y].fifo)| == 0;
      }
      TotalZero(queues);
    }
  }

  lemma NotTaken(reqs: seq<Rq>, sector: nat)
    requires FreeAt(reqs, sector)
    ensures var p := Pos(reqs, sector); !(p < |reqs| && reqs[p].sector == sector)
  {
    hide Pos;
  }

  lemma ErasedFields(s: State, x: nat)
    ensures Erase(s, x).queues == s.queues && Erase(s, x).service == Drop(s.service, x)
  {
  }

  lemma DropNone(service: seq<nat>, x: nat)
    ensures Drop(service, x) == [] + Drop(service, x)
  {
  }

  lemma DropHere(service: seq<nat>, p: nat, x: nat)
    requires p < |service| && service[p] == x
    ensures service[..p] + Drop(service[p..], x) == Cut(service, p)
  {
    assert service[p..][1..] == service[p + 1..];
  }

  lemma DropStep(service: seq<nat>, p: nat, x: nat)
    requires p < |service| && service[p] != x && x in service[p..]
    ensures p + 1 < |service| && x in service[p + 1..]
    ensures service[..p] + Drop(service[p..], x) == service[..p + 1] + Drop(service[p + 1..], x)
  {
    assert service[p..] == [service[p]] + service[p + 1..];
    assert service[p..][1..] == service[p + 1..];
    assert service[..p] + ([service[p]] + Drop(service[p + 1..], x)) == service[..p + 1] + Drop(service[p + 1..], x);
  }

  lemma ErasedBug(s: State, b: bool, x: nat)
    ensures Erase(s.(bug := b), x) == Erase(s, x).(bug := b)
  {
  }

  // ---- what is moved ---------------------------------------------------------------------------

  lemma MovedNone(s: State)
    requires Settled(s)
    ensures Moved(s, s, 0)
  {
  }

  lemma MovedSettled(s: State, s': State, n: nat)
    requires Moved(s, s', n)
    ensures Settled(s') && s'.queued == s.queued - n && |s'.queues| == |s.queues|
  {
  }

  lemma MovedTwice(s: State, t: State, u: State, n: nat, m: nat)
    requires Moved(s, t, n) && Moved(t, u, m)
    ensures Moved(s, u, n + m)
  {
    hide Settled, Held;
  }

  lemma MovedOne(s: State, t: State, n: nat, x: nat, i: nat)
    requires Moved(s, t, n) && x < |t.queues| && i < |t.queues[x].reqs|
    ensures var u := DispatchInsert(t, x, i);
            Moved(s, u, n + 1) && u.active == t.active && |u.queues| == |t.queues| && |u.queues[x].reqs| == |t.queues[x].reqs| - 1
  {
    hide Inv, Held, DispatchInsert;
    AnyQueue(t, 0, x);
    DispatchKeeps(t, x, i, DONE);
    CutFacts(t.queues[x].reqs, i);
    AnyQueue(DispatchInsert(t, x, i), x, 0);
  }

  lemma MovedFirst(s: State, t: State, n: nat)
    requires Moved(s, t, n)
    ensures Moved(s, First(t), n) && First(t).queued == t.queued && First(t).busy == t.busy
    ensures First(t) == t.(left := First(t).left)
    ensures if t.busy == 0 then First(t).left == None else First(t).left.Some? && First(t).left.x in t.service
  {
    hide Settled, Held;
    FirstKeeps(t);
  }

  lemma FirstFirst(s: State)
    ensures First(First(s)) == First(s)
  {
  }

  lemma MovedExpired(s: State, t: State, u: State, n: nat)
    requires Moved(s, t, n) && Settled(u) && Held(u.queues) == Held(t.queues) && u.out == t.out && u.queued == t.queued
    requires |u.queues| == |t.queues| && u.head == t.head
    ensures Moved(s, u, n)
  {
    hide Settled, Held;
  }

  lemma QueuedLeft(s: State, t: State, n: nat)
    requires Moved(s, t, n) && t.queued == 0
    ensures n == s.queued
  {
  }

  lemma QueuedSame(s: State, t: State)
    requires Moved(s, t, 0)
    ensures t.queued == s.queued
  {
  }

  lemma ExpiredNone(s: State, k: Key)
    requires Sound(s)
    ensures s.active == None ==> SliceExpired(s, k) == s
  {
  }

  // What is left to do after the fields of the queue and the counts are set
  lemma RemoveEnds(s: State, t: State, x: nat, i: nat)
    requires x < |s.queues| && i < |s.queues[x].reqs|
    requires var r := s.queues[x].reqs[i];
             t == s.(queues := s.queues[x := Removed(s.head, s.queues[x], i)], queued := s.queued - 1,
                     bug := s.bug || (if r.sync then s.queues[x].syncs else s.queues[x].asyncs) == 0)
    ensures x < |t.queues| && Remove(s, x, i) == if t.queues[x].onRr && t.queues[x].reqs == [] then DelRr(t, x) else t
  {
    hide Removed, DelRr;
  }

  lemma RemovedLength(s: State, x: nat, i: nat)
    requires x < |s.queues| && i < |s.queues[x].reqs|
    ensures |Remove(s, x, i).queues| == |s.queues|
  {
    hide Removed;
  }

  // ---- what is moved from one queue ------------------------------------------------------------

  lemma DispatchFrame(s: State, x: nat, i: nat)
    requires x < |s.queues| && i < |s.queues[x].reqs|
    ensures var s' := DispatchInsert(s, x, i);
            |s'.queues| == |s.queues| && (forall y :: 0 <= y < |s.queues| && y != x ==> s'.queues[y] == s.queues[y]) &&
            SameClass(s'.queues[x], s.queues[x])
  {
    hide FindNext, Without, Cut, Drop;
  }

  lemma MovedFromNone(s: State, x: nat)
    requires Settled(s) && x < |s.queues|
    ensures MovedFrom(s, s, x, 0) && !s.bug
  {
    hide Settled;
    SettledParts(s);
    MovedNone(s);
  }

  lemma MovedFromIs(s: State, t: State, x: nat, n: nat)
    requires MovedFrom(s, t, x, n)
    ensures Moved(s, t, n) && Settled(t) && x < |t.queues| && |t.queues| == |s.queues| && t.queued == s.queued - n
  {
    hide Settled;
  }

  lemma MovedFromOne(s: State, t: State, u: State, x: nat, n: nat, i: nat)
    requires MovedFrom(s, t, x, n) && i < |t.queues[x].reqs| && u == DispatchInsert(t, x, i)
    ensures MovedFrom(s, u, x, n + 1) && x < |u.queues|
  {
    hide Moved, DispatchInsert;
    MovedFromIs(s, t, x, n);
    MovedOne(s, t, n, x, i);
    DispatchFrame(t, x, i);
  }

  lemma ExpiredFrom(s: State, t: State, x: nat, n: nat, k: Key)
    requires MovedFrom(s, t, x, n)
    ensures Sound(t)
    ensures var u := SliceExpired(t, k);
            MovedFrom(s, u, x, n) && x < |u.queues| && u.queues[x] == t.queues[x].(key := u.queues[x].key) && u.busy == t.busy &&
            u.busyRt == t.busyRt && u.active == None
  {
    hide Settled, Held, SliceExpired;
    MovedFromIs(s, t, x, n);
    ExpireKeeps(t, k);
    MovedExpired(s, t, SliceExpired(t, k), n);
  }

  // ---- why dispatching ends --------------------------------------------------------------------

  lemma SelectedIs(s: State, s': State, r: Option, used: bool, timer: bool, window: bool, k: Key, quantum: nat)
    requires Settled(s) && Sound(s) && (s', r) == Select(s, used, timer, window, k)
    ensures Moved(s, s', 0)
    ensures if r.Some? then Ready(s', r.x) else Stopped(s', quantum, if s'.busy == 0 then Drained else Waiting)
  {
    hide Settled, Select, Held, Foremost;
    SelectKeeps(s, used, timer, window, k);
    MovedNone(s);
    MovedExpired(s, s, s', 0);
    SettledParts(s');
    if s.busyRt != 0 { RealTimeFirst(s, used, timer, window, k); }
    if r.Some? { TotalAtLeast(s'.queues, r.x); }
  }

  lemma DrainedIs(s: State, quantum: nat)
    ensures s.busy == 0 <==> Stopped(s, quantum, Drained)
  {
  }

  lemma ReadyIs(s: State, x: nat)
    requires Ready(s, x)
    ensures s.active == Some(x) && x < |s.queues| && s.queues[x].reqs != [] && s.queued > 0
  {
  }

  lemma EnoughIs(s: State, x: nat, quantum: nat)
    requires Ready(s, x) && s.busy > 1 && s.queues[x].dispatched >= if s.queues[x].idle then 1 else quantum
    ensures Stopped(s, quantum, Enough)
  {
  }

  lemma SyncFirstIs(s: State, x: nat, quantum: nat)
    requires Ready(s, x) && s.syncFlight != 0 && !s.queues[x].sync
    ensures Stopped(s, quantum, SyncFirst)
  {
  }

  // ---- the same state, told two ways -----------------------------------------------------------

  lemma CountedSame(s: State, t: State, x: nat, r: Rq)
    requires x < |s.queues| && t == s.(queues := t.queues)
    requires t.queues == s.queues[x := if r.sync then s.queues[x].(syncs := s.queues[x].syncs + 1) else s.queues[x].(asyncs := s.queues[x].asyncs + 1)]
    ensures t == Counted(s, x, r)
  {
  }

  lemma LiftedSame(s: State, t: State, x: nat, i: nat, r: Rq)
    requires x < |s.queues| && i < |s.queues[x].reqs| && t == s.(queues := t.queues)
    requires var q := Changed(s.queues[x], i, r).(reqs := Cut(Changed(s.queues[x], i, r).reqs, i));
             t.queues == s.queues[x := if r.sync then q.(syncs := q.syncs - 1) else q.(asyncs := q.asyncs - 1)]
    ensures t == Lifted(s, x, i, r)
  {
  }

  lemma MergedSame(s: State, t: State, x: nat, i: nat, j: nat, older: bool)
    requires x < |s.queues| && i < |s.queues[x].reqs| && j < |s.queues[x].reqs| && t == s.(queues := t.queues)
    requires t.queues == if older then s.queues[x := s.queues[x].(fifo := MoveBehind(s.queues[x].fifo, s.queues[x].reqs[i], s.queues[x].reqs[j]))] else s.queues
    ensures MergedRequests(s, x, i, j, older) == Remove(t, x, j)
  {
    hide Remove, MoveBehind;
    assert s.queues[x := s.queues[x]] == s.queues;
  }
}
