/**
 * Requests going back into the dispatch list, leaving the scheduler, and arriving.
 */
module BarrierQueueing {
  import opened BarrierModel
  import opened BarrierInvariant
  import opened BarrierFetch
  import opened BarrierSteps

  // ---- requeueing --------------------------------------------------------------------------

  function Returned(r: Request): Request { r.(started := false, soft := true) }

  function ReturnPos(q: Queue, r: Request): nat
  {
    if !Active(q) then 0 else RequeuePos(q.head, q.orig.color, ReqSeq(q, Returned(r)), 0)
  }

  // An original request coming back was queued before every pending barrier: it goes first.
  lemma OriginalReturns(q: Queue, r: Request)
    requires ListsOk(q) && OrigOk(q) && r in q.driver && r.role == Original
    ensures ReturnPos(q, r) == 0
    ensures Active(q) ==> ReqSeq(q, Returned(r)) == SEQ_DRAIN
    ensures forall j :: 0 <= j < |q.head| ==> Before(Returned(r), q.head[j])
  {
    assert DriverOk(q, r);
    forall j | 0 <= j < |q.head| ensures Before(Returned(r), q.head[j]) {
      assert HeadOk(q, q.head[j]) && !Same(q.head[j], r);
    }
  }

  // A request of a later epoch is not passed by the scan for a returning proxy: if its colour
  // is the barrier's, another barrier of the other colour comes first.
  lemma LaterEpochStops(q: Queue, x: Request, s: nat, j: nat)
    requires Core(q, {}) && Active(q) && j < |q.head| && q.head[j] == x && s <= SEQ_DONE
    requires x.role == Original && x.kind == Fs && x.epoch > Base(q)
    ensures RequeuePos(q.head, q.orig.color, s, 0) <= j
  {
    assert HeadOk(q, x);
    if x.color == q.orig.color {
      var b := EpochWitness(q.subs, x.id, q.taken);
      var k := PendingBarrier(q, {}, b);
      assert k != j && (j < k ==> Before(q.head[j], q.head[k]));
      assert k < j && ReqSeq(q, q.head[k]) == SEQ_DONE;
    } else {
      assert ReqSeq(q, x) == SEQ_DONE;
    }
  }

  // What the scan for a returning proxy passes over belongs before it.
  lemma ProxyPasses(q: Queue, r: Request, j: nat)
    requires Core(q, {}) && r in q.driver && r.role != Original && j < ReturnPos(q, r)
    ensures Before(q.head[j], Returned(r))
  {
    hide HistoryOk, Conserved, Staged, InOrder;
    assert DriverOk(q, r);
    var x := q.head[j];
    assert HeadOk(q, x) && !Same(x, r);
    if x.role == Original && x.kind == Fs && x.epoch != Base(q) {
      LaterEpochStops(q, x, ReqSeq(q, Returned(r)), j);
    }
  }

  lemma ProxyStops(q: Queue, r: Request, j: nat)
    requires ListsOk(q) && OrigOk(q) && r in q.driver && r.role != Original && ReturnPos(q, r) <= j < |q.head|
    ensures Before(Returned(r), q.head[j])
  {
    assert DriverOk(q, r);
    var p := ReturnPos(q, r);
    var x := q.head[p];
    assert HeadOk(q, x) && HeadOk(q, q.head[j]) && !Same(x, r) && !Same(q.head[j], r);
    assert Before(Returned(r), x) && Placed(x) && Rank(r) < Rank(x) by {
      if x.role == Original && x.kind == Fs { assert x.epoch != q.orig.epoch; }
    }
    if p < j { assert Before(x, q.head[j]); }
  }

  lemma ReturnedBefore(q: Queue, r: Request, j: nat)
    requires Core(q, {}) && r in q.driver && j < |q.head|
    ensures j < ReturnPos(q, r) ==> Before(q.head[j], Returned(r))
    ensures ReturnPos(q, r) <= j ==> Before(Returned(r), q.head[j])
  {
    hide Before, ListsOk, Conserved, HistoryOk, Staged;
    if r.role == Original { OriginalReturns(q, r); }
    else if j < ReturnPos(q, r) { ProxyPasses(q, r, j); }
    else { ProxyStops(q, r, j); }
  }

  lemma RequeuePlaces(q: Queue, r: Request)
    requires Core(q, {}) && r in q.driver
    ensures InOrder(Requeue(q, r).head)
    ensures forall x :: x in Requeue(q, r).head <==> x in q.head || x == Returned(r)
    ensures Requeue(q, r).head == InsertAt(q.head, ReturnPos(q, r), Returned(r))
  {
    hide Core, ListsOk, Before, InOrder, ReturnPos, Requeue, Returned;
    forall j | 0 <= j < |q.head|
      ensures j < ReturnPos(q, r) ==> Before(q.head[j], Returned(r))
      ensures ReturnPos(q, r) <= j ==> Before(Returned(r), q.head[j])
    {
      ReturnedBefore(q, r, j);
    }
    InOrderOf(q);
    ReturnPosBound(q, r);
    InsertInOrder(q.head, ReturnPos(q, r), Returned(r));
    RequeuedHead(q, r);
  }

  lemma RequeuedHead(q: Queue, r: Request)
    ensures Requeue(q, r).head == InsertAt(q.head, ReturnPos(q, r), Returned(r))
  {
  }

  lemma ReturnPosBound(q: Queue, r: Request)
    ensures ReturnPos(q, r) <= |q.head|
  {
  }

  lemma InOrderOf(q: Queue)
    requires Core(q, {})
    ensures InOrder(q.head)
  {
  }

  lemma RequeueElements(q: Queue, r: Request)
    requires ListsOk(q) && r in q.driver
    requires forall x :: x in Requeue(q, r).head <==> x in q.head || x == Returned(r)
    ensures var q' := Requeue(q, r);
      (forall x :: x in q'.head ==> HeadOk(q', x)) && (forall x :: x in q'.driver ==> DriverOk(q', x)) &&
      (forall x :: x in q'.sorted ==> SortedOk(q', x))
  {
    var q' := Requeue(q, r);
    assert DriverOk(q, r);
    forall x | x in q'.head ensures HeadOk(q', x) {
      if x in q.head { assert HeadOk(q, x); }
    }
    forall x | x in q'.driver ensures DriverOk(q', x) { assert DriverOk(q, x); }
    forall x | x in q.sorted ensures SortedOk(q', x) { assert SortedOk(q, x); }
  }

  lemma RequeueApart(q: Queue, r: Request)
    requires Apart(q) && r in q.driver
    requires forall x :: x in Requeue(q, r).head <==> x in q.head || x == Returned(r)
    ensures Apart(Requeue(q, r))
  {
    var q' := Requeue(q, r);
    forall x | x in q'.head ensures x in q.head || Same(x, r) {}
    forall x, y | x in q'.head && y in q'.driver ensures !Same(x, y) { assert y in q.driver && y != r; }
  }

  lemma RequeueHolding(q: Queue, r: Request)
    requires r in q.driver
    requires forall x :: x in Requeue(q, r).head <==> x in q.head || x == Returned(r)
    ensures forall role, id :: Held(Requeue(q, r), role, id) == Held(q, role, id)
  {
    var q' := Requeue(q, r);
    forall role, id ensures Held(q', role, id) == Held(q, role, id) {
      if role == r.role && id == r.id { assert Returned(r) in q'.head; }
      if x :| x in q.driver && x.role == role && x.id == id && x != r { assert x in q'.driver; }
    }
  }

  lemma RequeueAwake(q: Queue, r: Request)
    requires Core(q, {}) && r in q.driver
    ensures Awake(Requeue(q, r))
  {
    if Active(q) && !q.ordseq.drain {
      assert DriverOk(q, r);
      OriginalReturns(q, r);
      RequeuePlaces(q, r);
      assert ReqSeq(Requeue(q, r), Returned(r)) == SEQ_DRAIN;
    }
  }

  lemma RequeueKeeps(q: Queue, r: Request)
    requires Inv(q) && r in q.driver
    ensures Inv(Requeue(q, r))
  {
    hide HistoryOk, Conserved, Staged, Apart, Held, Awake, InOrder, HeadOk, DriverOk, SortedOk, RequeuePos;
    var q' := Requeue(q, r);
    RequeuePlaces(q, r);
    DriverFacts(q, r);
    RequeueElements(q, r);
    RequeueApart(q, r);
    RequeueHolding(q, r);
    ConservedBy(q, q');
    SameStages(q, q');
    SameHistory(q, q');
    AccountedDrop(q.driver, r);
    RequeueAwake(q, r);
  }

  lemma SameHistory(q: Queue, q': Queue)
    requires HistoryOk(q) && q'.log == q.log && q'.subs == q.subs && q'.nextMode == q.nextMode
    requires q'.ordseq == q.ordseq && q'.orig == q.orig && q'.taken == q.taken
    ensures HistoryOk(q')
  {
  }

  // ---- dispatching -------------------------------------------------------------------------

  // Behind a waiting request of an earlier epoch there is a barrier.
  lemma BarrierBehind(q: Queue, j: nat)
    requires Core(q, {}) && j < |q.head| && !Stops(q.head[j]) && q.head[j].role == Original && q.head[j].kind == Fs && HeadOk(q, q.head[j])
    ensures q.head[j].epoch < q.epoch ==> exists k :: j <= k < |q.head| && Stops(q.head[k])
  {
    var x := q.head[j];
    EpochMono(q.subs, x.id, |q.subs|);
    if x.epoch < q.epoch {
      assert q.taken <= x.epoch;
      var b := EpochWitness(q.subs, |q.subs|, x.epoch);
      var k := PendingBarrier(q, {}, b);
      assert k < j ==> Before(q.head[k], q.head[j]);
      assert j <= k < |q.head| && Stops(q.head[k]);
    }
  }

  // A request of an earlier epoch is never behind the last barrier or started request.
  lemma OldEpochBefore(q: Queue, m: Move, j: nat)
    requires Core(q, {}) && LegalPos(q.head, m.rq, m.pos) && m.pos <= j < |q.head|
    requires q.head[j].role == Original && q.head[j].kind == Fs && HeadOk(q, q.head[j])
    ensures q.head[j].epoch >= q.epoch
  {
    hide Core, HeadOk;
    BarrierBehind(q, j);
  }

  // Behind the last barrier or started request there is only the current epoch.
  lemma DispatchBefore(q: Queue, m: Move, j: nat)
    requires Core(q, {}) && m.rq in q.sorted && LegalPos(q.head, m.rq, m.pos) && j < |q.head|
    ensures j < m.pos ==> Before(q.head[j], m.rq)
    ensures m.pos <= j ==> Before(m.rq, q.head[j])
  {
    hide HistoryOk, Conserved, Staged, InOrder;
    var x := q.head[j];
    assert HeadOk(q, x) && SortedOk(q, m.rq) && !Same(x, m.rq);
    if x.role == Original {
      EpochMono(q.subs, x.id, |q.subs|);
      if m.pos <= j && x.kind == Fs { OldEpochBefore(q, m, j); }
    }
  }

  lemma DispatchPlaces(q: Queue, m: Move)
    requires Core(q, {}) && m.rq in q.sorted && LegalPos(q.head, m.rq, m.pos)
    ensures InOrder(Dispatch(q, m).head)
    ensures forall x :: x in Dispatch(q, m).head <==> x in q.head || x == m.rq
  {
    forall j | 0 <= j < |q.head|
      ensures j < m.pos ==> Before(q.head[j], m.rq)
      ensures m.pos <= j ==> Before(m.rq, q.head[j])
    {
      DispatchBefore(q, m, j);
    }
    InsertInOrder(q.head, m.pos, m.rq);
  }

  // Dispatch touches nothing but the two lists.
  lemma DispatchFrame(q: Queue, m: Move)
    requires m.pos <= |q.head|
    ensures var q' := Dispatch(q, m); q' == q.(head := q'.head, sorted := q.sorted - {m.rq})
  {
  }

  lemma DispatchElements(q: Queue, m: Move)
    requires ListsOk(q) && m.rq in q.sorted && m.pos <= |q.head|
    requires q.taken <= q.epoch
    requires forall x :: x in Dispatch(q, m).head <==> x in q.head || x == m.rq
    ensures var q' := Dispatch(q, m);
      (forall x :: x in q'.head ==> HeadOk(q', x)) && (forall x :: x in q'.driver ==> DriverOk(q', x)) &&
      (forall x :: x in q'.sorted ==> SortedOk(q', x)) && Apart(q')
  {
    hide InOrder, Dispatch;
    var q' := Dispatch(q, m);
    DispatchFrame(q, m);
    assert SortedOk(q, m.rq);
    forall x | x in q'.head ensures HeadOk(q', x) {
      if x in q.head { assert HeadOk(q, x); }
    }
    forall x | x in q'.driver ensures DriverOk(q', x) { assert DriverOk(q, x); }
    forall x | x in q'.sorted ensures SortedOk(q', x) { assert SortedOk(q, x); }
    forall x, y | x in q'.head && y in q'.sorted ensures !Same(x, y) { assert y in q.sorted && y != m.rq; }
  }

  lemma DispatchHolding(q: Queue, m: Move)
    requires m.rq in q.sorted && m.pos <= |q.head|
    requires forall x :: x in Dispatch(q, m).head <==> x in q.head || x == m.rq
    ensures forall role, id :: Held(Dispatch(q, m), role, id) == Held(q, role, id)
  {
    var q' := Dispatch(q, m);
    forall role, id ensures Held(q', role, id) == Held(q, role, id) {
      if role == m.rq.role && id == m.rq.id { assert m.rq in q'.head; }
      if x :| x in q.sorted && x.role == role && x.id == id && x != m.rq { assert x in q'.sorted; }
    }
  }

  lemma DispatchAwake(q: Queue, m: Move)
    requires Inv(q) && m.rq in q.sorted && LegalPos(q.head, m.rq, m.pos)
    ensures Awake(Dispatch(q, m))
  {
    var q' := Dispatch(q, m);
    if Active(q) && !q.ordseq.drain && q.head != [] && ReqSeq(q, q.head[0]) <= SEQ_DRAIN {
      var h := q.head[0];
      assert HeadOk(q, h);
      if h.role == Original && h.kind == Fs { OneColourBit(q, {}); }
      assert m.pos == 0 ==> h.kind == Discard && m.rq.kind == Discard;
      assert m.pos > 0 ==> q'.head[0] == h;
      assert SortedOk(q, m.rq);
    }
  }

  lemma DispatchKeeps(q: Queue, m: Move)
    requires Inv(q) && m.rq in q.sorted && LegalPos(q.head, m.rq, m.pos)
    ensures Inv(Dispatch(q, m))
  {
    hide HistoryOk, Conserved, Staged, Apart, Held;
    var q' := Dispatch(q, m);
    DispatchPlaces(q, m);
    DispatchElements(q, m);
    DispatchHolding(q, m);
    ConservedBy(q, q');
    SameStages(q, q');
    SameHistory(q, q');
    DispatchAwake(q, m);
  }

  lemma {:induction false} DrainKeeps(q: Queue, moves: seq<Move>)
    requires Inv(q) && LegalMoves(q, moves)
    ensures Inv(Drain(q, moves))
    ensures var d := Drain(q, moves);
            d == q.(sorted := d.sorted, head := d.head)
    decreases |moves|
  {
    if moves != [] {
      DispatchKeeps(q, moves[0]);
      DrainKeeps(Dispatch(q, moves[0]), moves[1..]);
    }
  }
}
