/**
 * Runs of the CFQ scheduler: the indexes agree throughout and no request is lost; and a run in which
 * queues that preempt are not the ones served next.
 */
module CfqRuns {
  import opened CfqModel
  import opened CfqTree
  import opened CfqQueues
  import opened CfqSteps

  datatype Step =
    | DoQueue(rt: bool, idle: bool, sync: bool)
    | DoInsert(x: nat, r: Rq, used: bool, close: bool, keys: Keys)
    | DoBack(x: nat, i: nat, nr: nat)
    | DoFront(x: nat, i: nat, r: Rq, k: Key)
    | DoMerge(x: nat, i: nat, j: nat, older: bool)
    | DoSelect(used: bool, timer: bool, window: bool, k: Key)
    | DoDispatch(x: nat, i: nat)
    | DoExpire(k: Key)
    | DoActivate(last: nat)
    | DoComplete(x: nat, used: bool, k: Key)

  function Start(h: Head): State { State([], [], None, 0, 0, 0, h, None, 0, [], false) }

  predicate Has(s: State, x: nat, i: nat) { x < |s.queues| && i < |s.queues[x].reqs| }

  // Requests go out from the active queue or, by force, from the first.
  predicate Served(s: State, x: nat) { s.active == Some(x) || First(s).left == Some(x) }

  predicate Enabled(s: State, t: Step) {
    Sound(s) &&
    match t
    case DoQueue(_, _, _) => true
    case DoInsert(x, r, _, _, _) => x < |s.queues| && New(s.queues[x], r)
    case DoBack(x, i, _) => Has(s, x, i)
    case DoFront(x, i, r, _) => Has(s, x, i) && r.id == s.queues[x].reqs[i].id && r.sync == s.queues[x].reqs[i].sync
    case DoMerge(x, i, j, _) => Has(s, x, i) && Has(s, x, j) && i != j
    case DoSelect(_, _, _, _) => true
    case DoDispatch(x, i) => Has(s, x, i) && Served(s, x) && Due(s.queues[x], i)
    case DoExpire(_) => true
    case DoActivate(_) => true
    case DoComplete(x, _, _) => x < |s.queues| && s.queues[x].dispatched > 0
  }

  function Apply(s: State, t: Step): State
    requires Enabled(s, t)
  {
    match t
    case DoQueue(rt, idle, sync) => s.(queues := s.queues + [Empty(rt, idle, sync)])
    case DoInsert(x, r, used, close, keys) => Enqueue(s, x, r, used, close, keys)
    case DoBack(x, i, nr) => BackMerged(s, x, i, nr)
    case DoFront(x, i, r, k) => FrontMerged(s, x, i, r, k)
    case DoMerge(x, i, j, older) => MergedRequests(s, x, i, j, older)
    case DoSelect(used, timer, window, k) => Select(s, used, timer, window, k).0
    case DoDispatch(x, i) => DispatchInsert(s, x, i)
    case DoExpire(k) => SliceExpired(s, k)
    case DoActivate(last) => s.(head := s.head.(last := last))
    case DoComplete(x, used, k) => Completed(s, x, used, k)
  }

  predicate Runs(s: State, steps: seq<Step>)
    decreases |steps|
  {
    steps == [] || (Enabled(s, steps[0]) && Runs(Apply(s, steps[0]), steps[1..]))
  }

  function Run(s: State, steps: seq<Step>): State
    requires Runs(s, steps)
    decreases |steps|
  {
    if steps == [] then s else Run(Apply(s, steps[0]), steps[1..])
  }

  // Requests that came in, and those that were taken into another one
  function Came(steps: seq<Step>): nat { if steps == [] then 0 else Came(steps[1..]) + Bit(steps[0].DoInsert?) }

  function Absorbed(steps: seq<Step>): nat { if steps == [] then 0 else Absorbed(steps[1..]) + Bit(steps[0].DoMerge?) }

  // ---- what every run keeps --------------------------------------------------------------------

  lemma {:induction false} HeldSize(queues: seq<Queue>)
    ensures |Held(queues)| == Total(queues)
  {
    if queues != [] { HeldSize(queues[1..]); }
  }

  // Held or dispatched
  function Known(s: State): int { s.queued + |s.out| }

  lemma KnownMoves(s: State, s': State, lost: multiset<Rq>, got: multiset<Rq>)
    requires Settled(s) && Settled(s')
    requires Held(s'.queues) + multiset(s'.out) + lost == Held(s.queues) + multiset(s.out) + got
    ensures Known(s') + |lost| == Known(s) + |got|
  {
    hide Settled, Held;
    SettledParts(s);
    HeldSize(s.queues);
    SettledParts(s');
    HeldSize(s'.queues);
    assert |Held(s'.queues) + multiset(s'.out) + lost| == |Held(s.queues) + multiset(s.out) + got|;
  }

  lemma InsertMoves(s: State, x: nat, r: Rq, used: bool, close: bool, keys: Keys)
    requires Settled(s) && Sound(s) && x < |s.queues| && New(s.queues[x], r)
    ensures var s' := Enqueue(s, x, r, used, close, keys); Settled(s') && Known(s') == Known(s) + 1
  {
    hide Settled, Held, Enqueue, New;
    EnqueueKeeps(s, x, r, used, close, keys);
    var s' := Enqueue(s, x, r, used, close, keys);
    assert Held(s.queues) + multiset{r} + multiset(s.out) == Held(s.queues) + multiset(s.out) + multiset{r};
    KnownMoves(s, s', multiset{}, multiset{r});
  }

  lemma FrontMoves(s: State, x: nat, i: nat, r: Rq, k: Key)
    requires Settled(s) && Sound(s) && Has(s, x, i) && r.id == s.queues[x].reqs[i].id && r.sync == s.queues[x].reqs[i].sync
    ensures var s' := FrontMerged(s, x, i, r, k); Settled(s') && Known(s') == Known(s)
  {
    hide Settled, Held, FrontMerged;
    FrontKeeps(s, x, i, r, k);
    KnownMoves(s, FrontMerged(s, x, i, r, k), multiset{s.queues[x].reqs[i]}, multiset{r});
  }

  lemma DispatchMoves(s: State, x: nat, i: nat)
    requires Settled(s) && Has(s, x, i)
    ensures var s' := DispatchInsert(s, x, i); Settled(s') && Known(s') == Known(s)
  {
    hide Inv, Held, DispatchInsert;
    AnyQueue(s, 0, x);
    DispatchKeeps(s, x, i, DONE);
    AnyQueue(DispatchInsert(s, x, i), x, 0);
    KnownMoves(s, DispatchInsert(s, x, i), multiset{}, multiset{});
  }

  lemma ActivateKeeps(s: State, h: Head)
    requires Settled(s)
    ensures Settled(s.(head := h))
  {
    hide QueueOk, Total, TreeOk, CountRt;
    SettledParts(s);
    TreeFrame(s, s.(head := h));
  }

  lemma StepKeeps(s: State, t: Step)
    requires Settled(s) && Enabled(s, t)
    ensures var s' := Apply(s, t);
            Settled(s') && Known(s') + Bit(t.DoMerge?) == Known(s) + Bit(t.DoInsert?)
  {
    hide Settled, Held, Enqueue, BackMerged, FrontMerged, MergedRequests, Select, DispatchInsert, SliceExpired, Completed, New, First, Empty;
    var s' := Apply(s, t);
    match t {
      case DoQueue(rt, idle, sync) => EmptyKeeps(s, s', rt, idle, sync);
      case DoInsert(x, r, used, close, keys) => InsertMoves(s, x, r, used, close, keys);
      case DoBack(x, i, nr) => BackKeeps(s, x, i, nr);
      case DoFront(x, i, r, k) => FrontMoves(s, x, i, r, k);
      case DoMerge(x, i, j, older) => MergedKeeps(s, x, i, j, older);
      case DoSelect(used, timer, window, k) => SelectKeeps(s, used, timer, window, k);
      case DoDispatch(x, i) => DispatchMoves(s, x, i);
      case DoExpire(k) => ExpireKeeps(s, k);
      case DoActivate(last) => ActivateKeeps(s, s.head.(last := last));
      case DoComplete(x, used, k) => CompletedKeeps(s, x, used, k);
    }
  }

  lemma StartOk(h: Head)
    ensures Settled(Start(h)) && Known(Start(h)) == 0
  {
  }

  // Whatever happens, the service tree, the queues and all counts agree, no BUG_ON is met, and every
  // request that came was dispatched, was taken into another one, or is queued and counted.
  lemma {:induction false} RunKeeps(s: State, steps: seq<Step>)
    requires Settled(s) && Runs(s, steps)
    ensures var s' := Run(s, steps);
            Settled(s') && Known(s') + Absorbed(steps) == Known(s) + Came(steps)
    decreases |steps|
  {
    hide Settled, Apply, Enabled, Known;
    if steps != [] {
      StepKeeps(s, steps[0]);
      RunKeeps(Apply(s, steps[0]), steps[1..]);
    }
  }

  // The step makes its queue preempt the active one.
  predicate Preempting(s: State, t: Step)
    requires t.DoInsert?
  {
    Enabled(s, t) && (InsertedInRange(s, t.x, t.r, t.keys.add);
    Preempts(InsertRequest(s, t.x, t.r, t.keys.add), t.x, t.r, t.used, t.close))
  }

  // The state it comes to before it is put at the front: the active queue has gone back into the tree.
  function Before(s: State, t: Step): State
    requires t.DoInsert? && Preempting(s, t)
  {
    InsertedInRange(s, t.x, t.r, t.keys.add);
    SliceExpired(InsertRequest(s, t.x, t.r, t.keys.add), t.keys.was)
  }

  // Is the queue that preempts the one selected next? Only if it comes first with its new key.
  lemma PreemptingNextIff(s: State, t: Step)
    requires Settled(s) && t.DoInsert? && Preempting(s, t)
    ensures var b := Before(s, t); t.x < |b.queues| && InRange(b.queues, b.service)
    ensures var b := Before(s, t);
            SetActive(Apply(s, t)).active == Some(t.x) <==> ComesFirst(b, t.x, NewKey(b, t.x, t.keys.front, true))
  {
    hide Settled, InsertRequest, Preempt, SliceExpired, NewKey, ComesFirst, New;
    InsertedInRange(s, t.x, t.r, t.keys.add);
    InsertedBusy(s, t.x, t.r, t.keys.add);
    PreemptFirstIff(InsertRequest(s, t.x, t.r, t.keys.add), t.x, t.keys.was, t.keys.front);
  }

  // ---- a run in which queues preempt in vain ---------------------------------------------------

  const H := Head(0, 32768, 2)
  const K := Keys(Key(100, 100), Key(100, 100), Key(100, 100))
  const L := Keys(Key(300, 300), Key(300, 300), Key(300, 300))
  const A := Rq(0, 10, 1, false, false)
  const B := Rq(1, 20, 1, false, false)
  const C := Rq(2, 30, 1, true, false)
  const D := Rq(3, 40, 1, true, false)
  const E := Rq(4, 50, 1, true, false)

  // A real-time queue of writes, two queues of reads, and an idle one
  const Q0 := Empty(true, false, false)
  const Q1 := Empty(false, false, true)
  const Q3 := Empty(false, true, true)

  const A0 := Queue(true, false, false, 100, true, [A], [A], Ptr(A), 0, 1, 0)
  const AB0 := Queue(true, false, false, 100, true, [A, B], [A, B], Ptr(A), 0, 2, 0)
  const C1 := Queue(false, false, true, 0, true, [C], [C], Ptr(C), 1, 0, 0)
  const B0 := Queue(true, false, false, 100, true, [B], [B], Ptr(B), 0, 1, 1)
  const E3 := Queue(false, true, true, 350, true, [E], [E], Ptr(E), 1, 0, 0)
  const D2 := Queue(false, false, true, 0, true, [D], [D], Ptr(D), 1, 0, 0)

  const S4 := Start(H).(queues := [Q0, Q1, Q1, Q3])
  const S5 := State([A0, Q1, Q1, Q3], [0], Some(0), 1, 1, 1, H, None, 0, [], false)
  const S6 := S5.(queues := [AB0, Q1, Q1, Q3], queued := 2)
  const S7 := S6.(active := Some(0))
  const S8 := State([AB0, C1, Q1, Q3], [0, 1], Some(0), 2, 1, 3, H, None, 0, [], false)
  const S9 := S8.(active := Some(0))
  const S10 := S9.(queues := [B0, C1, Q1, Q3], queued := 2, out := [A])
  const S11 := S10.(head := H.(last := 11))
  const S12 := S11.(queues := [B0.(dispatched := 0), C1, Q1, Q3])
  const S13 := State([B0.(dispatched := 0, key := 300), C1, Q1, E3], [0, 1, 3], Some(0), 3, 1, 3, H.(last := 11), None, 0, [A], false)
  const S14 := S13.(active := Some(0))
  const S15 := State([Q0.(key := 300, dispatched := 1), C1, Q1, E3], [1, 3], None, 2, 0, 2, H.(last := 11), Some(0), 0, [A, B], false)
  const S16 := State([Q0.(key := 300, dispatched := 1), C1, D2, E3], [1, 2, 3], None, 3, 0, 3, H.(last := 11), None, 0, [A, B], false)

  const QUEUES := [] + [DoQueue(true, false, false)] + [DoQueue(false, false, true)] + [DoQueue(false, false, true)] + [DoQueue(false, true, true)]
  const SELECT := DoSelect(false, false, false, K.was)

  predicate Goes(s: State, t: Step, s': State) { Enabled(s, t) && Apply(s, t) == s' }

  // What the first request makes of an empty queue
  function Woken(q: Queue, r: Rq): Queue {
    q.(onRr := true, reqs := [r], fifo := [r], next := Ptr(r), syncs := q.syncs + Bit(r.sync), asyncs := q.asyncs + Bit(!r.sync))
  }

  function Placed(s: State, x: nat, r: Rq): State
    requires x < |s.queues|
  {
    var q := s.queues[x];
    s.(queues := s.queues[x := Woken(q, r)], busy := s.busy + 1, busyRt := s.busyRt + Bit(q.rt), queued := s.queued + 1)
  }

  lemma {:induction false} SlotFrame(queues: seq<Queue>, queues': seq<Queue>, service: seq<nat>, rt: bool, idle: bool, key: nat)
    requires InRange(queues, service) && InRange(queues', service) && forall i :: 0 <= i < |service| ==> queues'[service[i]] == queues[service[i]]
    ensures Slot(queues', service, rt, idle, key) == Slot(queues, service, rt, idle, key)
  {
    if service != [] { SlotFrame(queues, queues', service[1..], rt, idle, key); }
  }

  // The last lines of cfq_insert_request
  function Listed(s: State, x: nat, r: Rq): State
    requires x < |s.queues|
  {
    s.(queues := s.queues[x := s.queues[x].(fifo := s.queues[x].fifo + [r])], queued := s.queued + 1)
  }

  lemma InsertListed(s: State, x: nat, r: Rq, key: nat)
    requires InRange(s.queues, s.service) && x < |s.queues| && x !in s.service
    ensures InRange(Listed(s, x, r).queues, s.service) && x < |Insert(s, x, key).queues|
    ensures Listed(Insert(s, x, key), x, r) == Insert(Listed(s, x, r), x, key)
  {
    hide Slot, Put;
    SlotFrame(s.queues, Listed(s, x, r).queues, s.service, s.queues[x].rt, s.queues[x].idle, key);
  }

  predicate Asleep(q: Queue) { q.reqs == [] == q.fifo && q.next == Null && !q.onRr }

  lemma AddsFirst(s: State, x: nat, r: Rq, k: Key, s2: State)
    requires InRange(s.queues, s.service) && x < |s.queues| && x !in s.service && Asleep(s.queues[x])
    requires s2 == s.(queues := s.queues[x := Woken(s.queues[x], r).(fifo := [])], busy := s.busy + 1, busyRt := s.busyRt + Bit(s.queues[x].rt))
    ensures InRange(s2.queues, s.service) && AddRqRb(s, x, r, k) == Insert(s2, x, NewKey(s, x, k, false))
  {
    hide PushAlias, Insert, NewKey, Put;
    PutOne(r);
    PushedNone(s, x, r);
    var s0 := Counted(s, x, r);
    var q1 := s0.queues[x].(reqs := [r], next := Ptr(r));
    assert s0.queues[x := q1] == s.queues[x := q1];
    assert s.queues[x := q1][x := q1.(onRr := true)] == s2.queues;
    assert Settle(s0, x, r, k) == AddRr(s0.(queues := s0.queues[x := q1]), x, k);
    assert AddRr(s0.(queues := s0.queues[x := q1]), x, k) == ServiceAdd(s2, x, k, false);
    SameKey(s, s2, x, k);
  }

  lemma SameKey(s: State, s2: State, x: nat, k: Key)
    requires InRange(s.queues, s.service) && x < |s.queues| && x !in s.service && s2.service == s.service && |s2.queues| == |s.queues|
    requires s2.queues[x].idle == s.queues[x].idle && forall y :: 0 <= y < |s.queues| && y != x ==> s2.queues[y] == s.queues[y]
    ensures InRange(s2.queues, s.service) && forall front :: NewKey(s2, x, k, front) == NewKey(s, x, k, front)
  {
  }

  // It joins the tree.
  lemma Joins(s: State, x: nat, r: Rq, k: Key)
    requires InRange(s.queues, s.service) && x < |s.queues| && x !in s.service && Asleep(s.queues[x])
    ensures InRange(Placed(s, x, r).queues, s.service)
    ensures InsertRequest(s, x, r, k) == Insert(Placed(s, x, r), x, NewKey(s, x, k, false))
  {
    hide Slot, Put, Insert;
    var q := s.queues[x];
    PutOne(r);
    PushedNone(s, x, r);
    var q2 := Woken(q, r).(fifo := []);
    var s2 := s.(queues := s.queues[x := q2], busy := s.busy + 1, busyRt := s.busyRt + Bit(q.rt));
    AddsFirst(s, x, r, k, s2);
    InsertListed(s2, x, r, NewKey(s, x, k, false));
    assert [] + [r] == [r];
    assert Listed(s2, x, r).queues == Placed(s, x, r).queues;
  }

  lemma PushedNone(s: State, x: nat, r: Rq)
    requires x < |s.queues| && s.queues[x].reqs == []
    ensures PushAlias(Counted(s, x, r), x, r.sector) == Counted(s, x, r)
  {
  }

  lemma PutOne(r: Rq)
    ensures Put([], 0, r) == [r]
  {
  }

  lemma {:induction false} SlotIs(queues: seq<Queue>, service: seq<nat>, q: Queue, p: nat)
    requires InRange(queues, service) && p <= |service|
    requires (forall i :: 0 <= i < p ==> !Ahead(q, queues[service[i]])) && (p < |service| ==> Ahead(q, queues[service[p]]))
    ensures Slot(queues, service, q.rt, q.idle, q.key) == p
  {
    if p > 0 { SlotIs(queues, service[1..], q, p - 1); }
  }

  lemma Goes5()
    ensures Goes(S4, DoInsert(0, A, false, false, K), S5)
  {
    hide InsertRequest, Insert;
    Joins(S4, 0, A, K.add);
    Lands5(Placed(S4, 0, A), 100);
  }

  lemma Lands5(s: State, key: nat)
    requires |s.queues| == 4 && s.service == []
    ensures Insert(s, 0, key) == s.(left := Some(0), service := [0], queues := s.queues[0 := s.queues[0].(key := key)])
  {
    assert Put([], 0, 0) == [0];
  }

  lemma Goes6()
    ensures Goes(S5, DoInsert(0, B, false, false, K), S6) && Goes(S6, SELECT, S7)
  {
    assert [A][1..] == [];
    assert Pos([A], 20) == 1;
    assert Put([A], 1, B) == [A, B] && [A] + [B] == [A, B];
  }

  // The queue has joined the tree, behind the real-time one.
  const T8 := State([AB0, C1.(key := 100), Q1, Q3], [0, 1], Some(0), 2, 1, 3, H, Some(0), 0, [], false)

  lemma Lands8(s: State, key: nat)
    requires |s.queues| == 4 && s.service == [0] && s.queues[0].rt && !s.queues[1].rt
    ensures Insert(s, 1, key) == s.(service := [0, 1], queues := s.queues[1 := s.queues[1].(key := key)])
  {
    SlotIs(s.queues, s.service, s.queues[1].(key := key), 1);
    assert Put([0], 1, 1) == [0, 1];
  }

  lemma Joins8()
    ensures InsertRequest(S7, 1, C, K.add) == T8
  {
    hide InsertRequest, Insert;
    Joins(S7, 1, C, K.add);
    Lands8(Placed(S7, 1, C), 100);
  }

  lemma Preempts8()
    ensures Preempt(T8, 1, K.was, K.front) == S8
  {
    hide Insert, Drop;
    Drops();
    Lands8(Erase(T8.(active := None), 1), 0);
  }

  lemma Drops()
    ensures Drop([0, 1], 1) == [0] && Drop([0, 1, 3], 0) == [1, 3] && Drop([0, 1, 3], 3) == [0, 1] && Drop([1, 2, 3], 2) == [1, 3]
  {
    assert [0, 1][1..] == [1] && [1][1..] == [];
    assert [0, 1, 3][1..] == [1, 3] && [1, 3][1..] == [3] && [3][1..] == [];
    assert Drop([1, 3], 3) == [1] && [0] + [1] == [0, 1];
    assert [1, 2, 3][1..] == [2, 3] && [2, 3][1..] == [3] && [1] + [3] == [1, 3];
  }

  lemma Goes8()
    ensures Goes(S7, DoInsert(1, C, false, false, K), S8) && Goes(S8, SELECT, S9)
  {
    hide InsertRequest, Preempt;
    Joins8();
    Preempts8();
  }

  lemma Goes10()
    ensures Goes(S9, DoDispatch(0, 0), S10)
  {
    assert [A, B][0] == A && Cut([A, B], 0) == [B];
    assert Without([A, B], A) == [B];
    assert [] + [A] == [A];
  }

  lemma Goes12()
    ensures Goes(S10, DoActivate(11), S11) && Goes(S11, DoComplete(0, false, K.was), S12)
  {
  }

  // The idle queue has joined the tree, and then the active one was put back.
  const T13 := State([B0.(dispatched := 0), C1, Q1, E3.(key := 50)], [0, 1, 3], Some(0), 3, 1, 3, H.(last := 11), Some(0), 0, [A], false)
  const U13 := T13.(queues := [B0.(dispatched := 0, key := 300), C1, Q1, E3.(key := 50)], active := None)

  lemma Lands3(s: State, key: nat)
    requires |s.queues| == 4 && s.service == [0, 1] && s.queues[3].idle && !s.queues[3].rt && s.queues[0].rt && !s.queues[1].idle
    ensures Insert(s, 3, key) == s.(service := [0, 1, 3], queues := s.queues[3 := s.queues[3].(key := key)])
  {
    SlotIs(s.queues, s.service, s.queues[3].(key := key), 2);
    assert Put([0, 1], 2, 3) == [0, 1, 3];
  }

  lemma Lands0(s: State, key: nat)
    requires |s.queues| == 4 && s.service == [1, 3] && s.queues[0].rt && !s.queues[1].rt
    ensures Insert(s, 0, key) == s.(left := Some(0), service := [0, 1, 3], queues := s.queues[0 := s.queues[0].(key := key)])
  {
    SlotIs(s.queues, s.service, s.queues[0].(key := key), 0);
    assert Put([1, 3], 0, 0) == [0, 1, 3];
  }

  lemma Joins13()
    ensures InsertRequest(S12, 3, E, L.add) == T13
  {
    hide InsertRequest, Insert;
    Joins(S12, 3, E, L.add);
    Lands3(Placed(S12, 3, E), 50);
  }

  lemma Expires13()
    ensures SliceExpired(T13, L.was) == U13
  {
    hide Insert, Drop;
    Drops();
    Lands0(Erase(T13, 0), 300);
  }

  lemma Preempts13()
    ensures Preempt(T13, 3, L.was, L.front) == S13
  {
    hide Insert, Drop, SliceExpired;
    Expires13();
    Drops();
    Lands3(Erase(U13, 3), 350);
  }

  lemma Goes13()
    ensures Goes(S12, DoInsert(3, E, true, false, L), S13) && Goes(S13, SELECT, S14)
  {
    hide InsertRequest, Preempt;
    Joins13();
    Preempts13();
  }

  lemma Goes15()
    ensures Goes(S14, DoDispatch(0, 0), S15)
  {
    hide Drop;
    Drops();
    assert Cut([B], 0) == [];
    assert Without([B], B) == [];
    assert [A] + [B] == [A, B];
  }

  const T16 := S16.(queues := [Q0.(key := 300, dispatched := 1), C1, D2.(key := 300), E3], active := Some(0))

  lemma Lands2(s: State, key: nat)
    requires |s.queues| == 4 && s.service == [1, 3] && s.queues[1] == C1 && s.queues[3].idle && !s.queues[3].rt && !s.queues[2].rt && !s.queues[2].idle
    ensures Insert(s, 2, key) == s.(service := [1, 2, 3], queues := s.queues[2 := s.queues[2].(key := key)])
  {
    SlotIs(s.queues, s.service, s.queues[2].(key := key), 1);
    assert Put([1, 3], 1, 2) == [1, 2, 3];
  }

  lemma Joins16()
    ensures InsertRequest(S15, 2, D, L.add) == T16
  {
    hide InsertRequest, Insert;
    Joins(S15, 2, D, L.add);
    Lands2(Placed(S15, 2, D), 300);
  }

  lemma Preempts16()
    ensures Preempt(T16, 2, L.was, L.front) == S16
  {
    hide Insert, Drop;
    Drops();
    Lands2(Erase(T16.(active := None), 2), 0);
  }

  lemma Goes16()
    ensures Goes(S15, DoInsert(2, D, false, false, L), S16)
  {
    hide InsertRequest, Preempt;
    Joins16();
    Preempts16();
  }

  // ---- what it shows ---------------------------------------------------------------------------

  predicate Comes(steps: seq<Step>, s: State) { Runs(Start(H), steps) && Run(Start(H), steps) == s }

  lemma {:induction false} RunMore(s: State, steps: seq<Step>, t: Step, s': State)
    requires Runs(s, steps) && Goes(Run(s, steps), t, s')
    ensures Runs(s, steps + [t]) && Run(s, steps + [t]) == s'
    decreases |steps|
  {
    hide Enabled, Apply;
    if steps == [] {
      assert ([] + [t])[1..] == [];
    } else {
      RunMore(Apply(s, steps[0]), steps[1..], t, s');
      assert (steps + [t])[1..] == steps[1..] + [t];
    }
  }

  lemma ComesMore(steps: seq<Step>, s: State, t: Step, s': State)
    requires Comes(steps, s) && Goes(s, t, s')
    ensures Comes(steps + [t], s')
  {
    hide Goes;
    RunMore(Start(H), steps, t, s');
  }

  const R7 := QUEUES + [DoInsert(0, A, false, false, K)] + [DoInsert(0, B, false, false, K)] + [SELECT]
  const INSERT_C := DoInsert(1, C, false, false, K)
  const R12 := R7 + [INSERT_C] + [SELECT] + [DoDispatch(0, 0)] + [DoActivate(11)] + [DoComplete(0, false, K.was)]
  const INSERT_E := DoInsert(3, E, true, false, L)
  const R15 := R12 + [INSERT_E] + [SELECT] + [DoDispatch(0, 0)]
  const INSERT_D := DoInsert(2, D, false, false, L)

  lemma QueueComes(steps: seq<Step>, s: State, rt: bool, idle: bool, sync: bool)
    requires Comes(steps, s) && Sound(s)
    ensures var s' := s.(queues := s.queues + [Empty(rt, idle, sync)]);
            Comes(steps + [DoQueue(rt, idle, sync)], s') && Sound(s')
  {
    hide Comes;
    ComesMore(steps, s, DoQueue(rt, idle, sync), s.(queues := s.queues + [Empty(rt, idle, sync)]));
  }

  lemma Comes4()
    ensures Comes(QUEUES, S4)
  {
    hide Comes, Empty;
    var s := Start(H);
    StartComes();
    var p, q := [DoQueue(true, false, false)], [DoQueue(false, false, true)];
    QueueComes([], s, true, false, false);
    QueueComes([] + p, s.(queues := [] + [Q0]), false, false, true);
    QueueComes([] + p + q, s.(queues := [] + [Q0] + [Q1]), false, false, true);
    QueueComes([] + p + q + q, s.(queues := [] + [Q0] + [Q1] + [Q1]), false, true, true);
    assert [] + [Q0] + [Q1] + [Q1] + [Q3] == [Q0, Q1, Q1, Q3];
  }

  lemma StartComes()
    ensures Comes([], Start(H)) && Sound(Start(H))
  {
  }

  lemma Comes7()
    ensures Comes(R7, S7)
  {
    hide Goes, Comes, QUEUES;
    Comes4();
    Goes5();
    Goes6();
    ComesMore(QUEUES, S4, DoInsert(0, A, false, false, K), S5);
    ComesMore(QUEUES + [DoInsert(0, A, false, false, K)], S5, DoInsert(0, B, false, false, K), S6);
    ComesMore(QUEUES + [DoInsert(0, A, false, false, K)] + [DoInsert(0, B, false, false, K)], S6, SELECT, S7);
  }

  lemma Comes12()
    ensures Comes(R12, S12)
  {
    hide Goes, Comes, R7;
    Comes7();
    Goes8();
    Goes10();
    Goes12();
    ComesMore(R7, S7, INSERT_C, S8);
    ComesMore(R7 + [INSERT_C], S8, SELECT, S9);
    ComesMore(R7 + [INSERT_C] + [SELECT], S9, DoDispatch(0, 0), S10);
    ComesMore(R7 + [INSERT_C] + [SELECT] + [DoDispatch(0, 0)], S10, DoActivate(11), S11);
    ComesMore(R7 + [INSERT_C] + [SELECT] + [DoDispatch(0, 0)] + [DoActivate(11)], S11, DoComplete(0, false, K.was), S12);
  }

  lemma Comes15()
    ensures Comes(R15, S15)
  {
    hide Goes, Comes, R12;
    Comes12();
    Goes13();
    Goes15();
    ComesMore(R12, S12, INSERT_E, S13);
    ComesMore(R12 + [INSERT_E], S13, SELECT, S14);
    ComesMore(R12 + [INSERT_E] + [SELECT], S14, DoDispatch(0, 0), S15);
  }

  // A queue of reads preempts a real-time queue of writes, which is served on.
  lemma RealTimeStays()
    ensures Comes(R7, S7) && Preempting(S7, INSERT_C) && SetActive(Apply(S7, INSERT_C)).active == Some(0)
  {
    hide InsertRequest, Comes;
    Comes7();
    Joins8();
    Goes8();
  }

  // An idle queue preempts a queue whose slice is used up, and goes behind all others.
  lemma IdleGoesLast()
    ensures Comes(R12, S12) && Preempting(S12, INSERT_E) && SetActive(Apply(S12, INSERT_E)).active == Some(0) && Apply(S12, INSERT_E).service == [0, 1, 3]
  {
    hide InsertRequest, Comes;
    Comes12();
    Joins13();
    Goes13();
  }

  // A queue preempts one without requests, and goes behind the one that preempted before it.
  lemma KeyZeroFirst()
    ensures Comes(R15, S15) && Preempting(S15, INSERT_D) && SetActive(Apply(S15, INSERT_D)).active == Some(1)
  {
    hide InsertRequest, Comes;
    Comes15();
    Joins16();
    Goes16();
  }
}
