/**
 * The CFQ scheduler: queues of requests, the service tree that orders the busy queues, and its
 * cached leftmost queue. Priority classes are fixed. Times and priorities enter as the service key
 * they produce.
 */
module CfqModel {

  datatype Rq = Rq(id: nat, sector: nat, nr: nat, sync: bool, meta: bool)

  datatype Link = Null | Ptr(r: Rq)

  // struct cfq_queue; syncs and asyncs are queued[].
  datatype Queue = Queue(rt: bool, idle: bool, sync: bool, key: nat, onRr: bool, reqs: seq<Rq>, fifo: seq<Rq>, next: Link,
                         syncs: int, asyncs: int, dispatched: int)

  // cfq_get_queue
  function Empty(rt: bool, idle: bool, sync: bool): Queue { Queue(rt, idle, sync, 0, false, [], [], Null, 0, 0, 0) }

  datatype Option = None | Some(x: nat)

  // last_position and the two tunables of backward seeks
  datatype Head = Head(last: nat, backMax: nat, penalty: nat)

  // struct cfq_data: service holds the busy queues in tree order, queued is rq_queued.
  datatype State = State(queues: seq<Queue>, service: seq<nat>, left: Option, busy: int, busyRt: int, queued: int,
                         head: Head, active: Option, syncFlight: int, out: seq<Rq>, bug: bool)

  // fair: the key of a queue that is not idle, from the slice offset and the time; jiffies: the time
  datatype Key = Key(fair: nat, jiffies: nat)

  // ticks a second; CFQ_IDLE_DELAY
  const HZ := 250
  const IDLE_DELAY := HZ / 5
  const ULONG := 0x1_0000_0000_0000_0000

  // ---- which request comes next ----------------------------------------------------------------

  predicate Wraps(h: Head, s: nat) { s < h.last && s + 2 * h.backMax < h.last }

  function Distance(h: Head, s: nat): nat { if s >= h.last then s - h.last else (h.last - s) * h.penalty }

  // cfq_choose_req
  function Choose(h: Head, a: Link, b: Link): (c: Link)
    ensures c == a || c == b
    ensures c == Null <==> a == Null && b == Null
  {
    if a == Null || a == b then b
    else if b == Null then a
    else if a.r.sync != b.r.sync then (if a.r.sync then a else b)
    else if a.r.meta != b.r.meta then (if a.r.meta then a else b)
    else
      var s1, s2 := a.r.sector, b.r.sector;
      var w1, w2 := Wraps(h, s1), Wraps(h, s2);
      if w1 != w2 then (if w2 then a else b)
      else if w1 then (if s1 <= s2 then a else b)
      else if Distance(h, s1) != Distance(h, s2) then (if Distance(h, s1) < Distance(h, s2) then a else b)
      else if s1 >= s2 then a else b
  }

  // cfq_find_next_rq
  function FindNext(h: Head, reqs: seq<Rq>, i: nat): Link
    requires i < |reqs|
  {
    var next := if i + 1 < |reqs| then Ptr(reqs[i + 1]) else if i != 0 then Ptr(reqs[0]) else Null;
    var prev := if i > 0 then Ptr(reqs[i - 1]) else Null;
    Choose(h, next, prev)
  }

  function Cut<T>(s: seq<T>, i: nat): seq<T>
    requires i < |s|
  {
    s[..i] + s[i + 1..]
  }

  function Put<T>(s: seq<T>, i: nat, x: T): seq<T>
    requires i <= |s|
  {
    s[..i] + [x] + s[i..]
  }

  // How many requests lie before a sector
  function Pos(reqs: seq<Rq>, sector: nat): (p: nat)
    ensures p <= |reqs|
  {
    if reqs == [] || sector <= reqs[0].sector then 0 else 1 + Pos(reqs[1..], sector)
  }

  // list_del
  function Without(s: seq<Rq>, r: Rq): seq<Rq> {
    if s == [] then [] else if s[0] == r then s[1..] else [s[0]] + Without(s[1..], r)
  }

  // ---- the service tree ------------------------------------------------------------------------

  // Real time before the rest, idle behind it, then by key
  predicate Less(rt: bool, idle: bool, key: nat, q: Queue) {
    if rt != q.rt then rt else if idle != q.idle then q.idle else key < q.key
  }

  predicate InRange(queues: seq<Queue>, service: seq<nat>) { forall i :: 0 <= i < |service| ==> service[i] < |queues| }

  // How many queues of the tree a queue is inserted behind
  function Slot(queues: seq<Queue>, service: seq<nat>, rt: bool, idle: bool, key: nat): (p: nat)
    requires InRange(queues, service)
    ensures p <= |service|
  {
    if service == [] || Less(rt, idle, key, queues[service[0]]) then 0 else 1 + Slot(queues, service[1..], rt, idle, key)
  }

  // cfq_rb_erase
  function Erase(s: State, x: nat): State {
    s.(left := if s.left == Some(x) then None else s.left, service := Drop(s.service, x))
  }

  function Drop(service: seq<nat>, x: nat): (r: seq<nat>)
    ensures |r| <= |service| && forall i :: 0 <= i < |r| ==> r[i] in service
  {
    if service == [] then [] else if service[0] == x then service[1..] else [service[0]] + Drop(service[1..], x)
  }

  function NewKey(s: State, x: nat, k: Key, front: bool): nat
    requires InRange(s.queues, s.service) && x < |s.queues|
  {
    if s.queues[x].idle then
      var n := |s.service|;
      (IDLE_DELAY + if n > 0 && s.service[n - 1] != x then s.queues[s.service[n - 1]].key else k.jiffies) % ULONG
    else if front then 0
    else k.fair % ULONG
  }

  // The walk down the tree and the link
  function Insert(s: State, x: nat, key: nat): State
    requires InRange(s.queues, s.service) && x < |s.queues|
  {
    var q := s.queues[x];
    var p := Slot(s.queues, s.service, q.rt, q.idle, key);
    s.(left := if p == 0 then Some(x) else s.left, service := Put(s.service, p, x), queues := s.queues[x := q.(key := key)])
  }

  // cfq_service_tree_add
  function ServiceAdd(s: State, x: nat, k: Key, front: bool): State
    requires InRange(s.queues, s.service) && x < |s.queues|
  {
    var key := NewKey(s, x, k, front);
    if x in s.service then (if key == s.queues[x].key then s else Insert(Erase(s, x), x, key))
    else Insert(s, x, key)
  }

  // cfq_resort_rr_list
  function Resort(s: State, x: nat, k: Key): State
    requires InRange(s.queues, s.service) && x < |s.queues|
  {
    if s.queues[x].onRr then ServiceAdd(s, x, k, false) else s
  }

  // cfq_add_cfqq_rr
  function AddRr(s: State, x: nat, k: Key): State
    requires InRange(s.queues, s.service) && x < |s.queues|
  {
    var q := s.queues[x];
    var s1 := s.(bug := s.bug || q.onRr, queues := s.queues[x := q.(onRr := true)], busy := s.busy + 1,
                 busyRt := s.busyRt + if q.rt then 1 else 0);
    Resort(s1, x, k)
  }

  // cfq_del_cfqq_rr
  function DelRr(s: State, x: nat): State
    requires x < |s.queues|
  {
    var q := s.queues[x];
    var s1 := s.(bug := s.bug || !q.onRr || s.busy == 0, queues := s.queues[x := q.(onRr := false)]);
    var s2 := if x in s.service then Erase(s1, x) else s1;
    s2.(busy := s.busy - 1, busyRt := s.busyRt - if q.rt then 1 else 0)
  }

  // cfq_rb_first and the cache it leaves
  function First(s: State): State {
    if s.left == None && s.service != [] then s.(left := Some(s.service[0])) else s
  }

  // ---- requests --------------------------------------------------------------------------------

  function Removed(h: Head, q: Queue, i: nat): Queue
    requires i < |q.reqs|
  {
    var r := q.reqs[i];
    q.(next := if q.next == Ptr(r) then FindNext(h, q.reqs, i) else q.next, fifo := Without(q.fifo, r), reqs := Cut(q.reqs, i),
       syncs := q.syncs - if r.sync then 1 else 0, asyncs := q.asyncs - if r.sync then 0 else 1)
  }

  // cfq_remove_request
  function Remove(s: State, x: nat, i: nat): State
    requires x < |s.queues| && i < |s.queues[x].reqs|
  {
    var q := s.queues[x];
    var r := q.reqs[i];
    var q1 := Removed(s.head, q, i);
    var s1 := s.(queues := s.queues[x := q1], queued := s.queued - 1,
                 bug := s.bug || (if r.sync then q.syncs else q.asyncs) == 0);
    if q1.onRr && q1.reqs == [] then DelRr(s1, x) else s1
  }

  // cfq_dispatch_insert
  function DispatchInsert(s: State, x: nat, i: nat): State
    requires x < |s.queues| && i < |s.queues[x].reqs|
  {
    var s1 := Remove(s, x, i);
    var q := s1.queues[x];
    s1.(queues := s1.queues[x := q.(dispatched := q.dispatched + 1)], syncFlight := s1.syncFlight + (if q.sync then 1 else 0),
        out := s1.out + [s.queues[x].reqs[i]])
  }

  // Whoever sits at the sector is dispatched.
  function PushAlias(s: State, x: nat, sector: nat): State
    requires x < |s.queues|
  {
    var q := s.queues[x];
    var p := Pos(q.reqs, sector);
    if p < |q.reqs| && q.reqs[p].sector == sector then DispatchInsert(s, x, p) else s
  }

  // The request is counted before it goes into its tree.
  function Counted(s: State, x: nat, r: Rq): State
    requires x < |s.queues|
  {
    var q := s.queues[x];
    s.(queues := s.queues[x := q.(syncs := q.syncs + if r.sync then 1 else 0, asyncs := q.asyncs + if r.sync then 0 else 1)])
  }

  // The insertion, and what follows it in cfq_add_rq_rb
  function Settle(s: State, x: nat, r: Rq, k: Key): State
    requires InRange(s.queues, s.service) && x < |s.queues|
  {
    var q := s.queues[x];
    var q1 := q.(reqs := Put(q.reqs, Pos(q.reqs, r.sector), r), next := Choose(s.head, q.next, Ptr(r)));
    var s1 := s.(queues := s.queues[x := q1]);
    if q.onRr then s1 else AddRr(s1, x, k)
  }

  lemma ErasedInRange(s: State, x: nat)
    requires InRange(s.queues, s.service)
    ensures InRange(s.queues, Drop(s.service, x))
  {
  }

  lemma PushedInRange(s: State, x: nat, sector: nat)
    requires InRange(s.queues, s.service) && x < |s.queues|
    ensures var s' := PushAlias(s, x, sector); |s'.queues| == |s.queues| && InRange(s'.queues, s'.service)
  {
    ErasedInRange(s, x);
  }

  // cfq_add_rq_rb
  function AddRqRb(s: State, x: nat, r: Rq, k: Key): State
    requires InRange(s.queues, s.service) && x < |s.queues|
  {
    PushedInRange(Counted(s, x, r), x, r.sector);
    Settle(PushAlias(Counted(s, x, r), x, r.sector), x, r, k)
  }

  lemma InsertedSame(s: State, x: nat, key: nat)
    requires InRange(s.queues, s.service) && x < |s.queues|
    ensures var s' := Insert(s, x, key);
            |s'.queues| == |s.queues| && InRange(s'.queues, s'.service) && s'.queues[x] == s.queues[x].(key := key) &&
            (forall y :: 0 <= y < |s.queues| && y != x ==> s'.queues[y] == s.queues[y]) &&
            s' == s.(left := s'.left, service := s'.service, queues := s'.queues)
  {
  }

  // Only the key of the queue, the tree and its cache change.
  lemma AddedSame(s: State, x: nat, k: Key, front: bool)
    requires InRange(s.queues, s.service) && x < |s.queues|
    ensures var s' := ServiceAdd(s, x, k, front);
            |s'.queues| == |s.queues| && InRange(s'.queues, s'.service) && s'.queues[x] == s.queues[x].(key := s'.queues[x].key) &&
            (forall y :: 0 <= y < |s.queues| && y != x ==> s'.queues[y] == s.queues[y]) &&
            s' == s.(left := s'.left, service := s'.service, queues := s'.queues)
  {
    hide Insert, NewKey;
    var key := NewKey(s, x, k, front);
    ErasedInRange(s, x);
    InsertedSame(s, x, key);
    InsertedSame(Erase(s, x), x, key);
  }

  // cfq_insert_request and the count of cfq_rq_enqueued
  function InsertRequest(s: State, x: nat, r: Rq, k: Key): State
    requires InRange(s.queues, s.service) && x < |s.queues|
  {
    var s1 := AddRqRb(s, x, r, k);
    PlacedInRange(PushAlias(Counted(s, x, r), x, r.sector), x, r, k);
    s1.(queues := s1.queues[x := s1.queues[x].(fifo := s1.queues[x].fifo + [r])], queued := s1.queued + 1)
  }

  function Replace(fifo: seq<Rq>, r: Rq, r': Rq): seq<Rq> {
    if fifo == [] then [] else [if fifo[0] == r then r' else fifo[0]] + Replace(fifo[1..], r, r')
  }

  // A request that was merged has other fields now.
  function Changed(q: Queue, i: nat, r: Rq): Queue
    requires i < |q.reqs|
  {
    q.(reqs := q.reqs[i := r], fifo := Replace(q.fifo, q.reqs[i], r), next := if q.next == Ptr(q.reqs[i]) then Ptr(r) else q.next)
  }

  // A back merge
  function BackMerged(s: State, x: nat, i: nat, nr: nat): State
    requires x < |s.queues| && i < |s.queues[x].reqs|
  {
    s.(queues := s.queues[x := Changed(s.queues[x], i, s.queues[x].reqs[i].(nr := nr))])
  }

  // cfq_reposition_rq_rb: out of the tree and the count, and in again at its new sector
  function Lifted(s: State, x: nat, i: nat, r: Rq): State
    requires x < |s.queues| && i < |s.queues[x].reqs|
  {
    var q := Changed(s.queues[x], i, r);
    s.(queues := s.queues[x := q.(reqs := Cut(q.reqs, i), syncs := q.syncs - if r.sync then 1 else 0,
                                  asyncs := q.asyncs - if r.sync then 0 else 1)])
  }

  function FrontMerged(s: State, x: nat, i: nat, r: Rq, k: Key): State
    requires InRange(s.queues, s.service) && x < |s.queues| && i < |s.queues[x].reqs|
  {
    AddRqRb(Lifted(s, x, i, r), x, r, k)
  }

  // list_move: r goes behind the request it takes the place of.
  function MoveBehind(fifo: seq<Rq>, r: Rq, next: Rq): seq<Rq> { Behind(Without(fifo, r), r, next) }

  function Behind(fifo: seq<Rq>, r: Rq, next: Rq): seq<Rq> {
    if fifo == [] then [r] else if fifo[0] == next then [next, r] + fifo[1..] else [fifo[0]] + Behind(fifo[1..], r, next)
  }

  // cfq_merged_requests: the request at i has taken in the one at j, which may be the older one.
  function MergedRequests(s: State, x: nat, i: nat, j: nat, older: bool): State
    requires x < |s.queues| && i < |s.queues[x].reqs| && j < |s.queues[x].reqs|
  {
    var q := s.queues[x];
    var q1 := if older then q.(fifo := MoveBehind(q.fifo, q.reqs[i], q.reqs[j])) else q;
    Remove(s.(queues := s.queues[x := q1]), x, j)
  }

  // cfq_slice_expired
  function SliceExpired(s: State, k: Key): State
    requires InRange(s.queues, s.service) && (s.active.Some? ==> s.active.x < |s.queues|)
  {
    if s.active == None then s else Resort(s, s.active.x, k).(active := None)
  }

  lemma ResortSame(s: State, x: nat, k: Key)
    requires InRange(s.queues, s.service) && x < |s.queues|
    ensures var s' := Resort(s, x, k); |s'.queues| == |s.queues| && InRange(s'.queues, s'.service)
  {
    AddedSame(s, x, k, false);
  }

  lemma ExpiredSame(s: State, k: Key)
    requires InRange(s.queues, s.service) && (s.active.Some? ==> s.active.x < |s.queues|)
    ensures var s' := SliceExpired(s, k); |s'.queues| == |s.queues| && InRange(s'.queues, s'.service)
  {
    hide Resort;
    if s.active.Some? { ResortSame(s, s.active.x, k); }
  }

  // cfq_preempt_queue, on a queue that is busy
  function Preempt(s: State, x: nat, was: Key, k: Key): State
    requires InRange(s.queues, s.service) && x < |s.queues| && (s.active.Some? ==> s.active.x < |s.queues|)
  {
    ExpiredSame(s, was);
    var s1 := SliceExpired(s, was);
    ServiceAdd(s1.(bug := s1.bug || !s1.queues[x].onRr), x, k, true)
  }

  // A request of the queue has come back.
  function Returned(s: State, x: nat): State
    requires x < |s.queues|
  {
    var q := s.queues[x];
    s.(queues := s.queues[x := q.(dispatched := q.dispatched - 1)], syncFlight := s.syncFlight - if q.sync then 1 else 0)
  }

  // cfq_completed_request: the active queue expires if its slice is used up or it is idle.
  function Completed(s: State, x: nat, used: bool, k: Key): State
    requires InRange(s.queues, s.service) && x < |s.queues|
  {
    if s.active == Some(x) && (used || s.queues[x].idle) then SliceExpired(Returned(s, x), k) else Returned(s, x)
  }

  predicate AnyMeta(reqs: seq<Rq>) { exists i :: 0 <= i < |reqs| && reqs[i].meta }

  // cfq_should_preempt: a is the active queue, q the one the request r has come to. used, close: the
  // slice of a is used up; a is waited for and r is near enough.
  predicate ShouldPreempt(a: Queue, q: Queue, r: Rq, used: bool, close: bool) {
    used || (!q.idle && (a.idle || (r.sync && !a.sync) || (r.meta && !AnyMeta(a.reqs)) || (q.rt && !a.rt) || close))
  }

  // The queue at x, which r has come to, preempts the active one.
  predicate Preempts(s: State, x: nat, r: Rq, used: bool, close: bool)
    requires x < |s.queues| && (s.active.Some? ==> s.active.x < |s.queues|)
  {
    s.active.Some? && s.active.x != x && ShouldPreempt(s.queues[s.active.x], s.queues[x], r, used, close)
  }

  // The keys that time makes: on joining the tree, on expiring, and on preempting
  datatype Keys = Keys(add: Key, was: Key, front: Key)

  lemma PlacedInRange(s: State, x: nat, r: Rq, k: Key)
    requires InRange(s.queues, s.service) && x < |s.queues|
    ensures var s' := Settle(s, x, r, k);
            |s'.queues| == |s.queues| && InRange(s'.queues, s'.service) && s'.active == s.active
  {
    hide Insert, NewKey, ServiceAdd;
    var q := s.queues[x];
    var q1 := q.(reqs := Put(q.reqs, Pos(q.reqs, r.sector), r), next := Choose(s.head, q.next, Ptr(r)));
    var s1 := s.(queues := s.queues[x := q1]);
    var s2 := s1.(bug := s1.bug || q.onRr, queues := s1.queues[x := q1.(onRr := true)], busy := s1.busy + 1,
                  busyRt := s1.busyRt + if q1.rt then 1 else 0);
    AddedSame(s2, x, k, false);
  }

  lemma InsertedInRange(s: State, x: nat, r: Rq, k: Key)
    requires InRange(s.queues, s.service) && x < |s.queues|
    ensures var s' := InsertRequest(s, x, r, k);
            |s'.queues| == |s.queues| && InRange(s'.queues, s'.service) && s'.active == s.active
  {
    hide Settle, PushAlias;
    var s0 := Counted(s, x, r);
    PushedInRange(s0, x, r.sector);
    PushedActive(s0, x, r.sector);
    PlacedInRange(PushAlias(s0, x, r.sector), x, r, k);
  }

  lemma PushedActive(s: State, x: nat, sector: nat)
    requires x < |s.queues|
    ensures PushAlias(s, x, sector).active == s.active
  {
  }

  // cfq_insert_request with cfq_rq_enqueued
  function Enqueue(s: State, x: nat, r: Rq, used: bool, close: bool, k: Keys): State
    requires InRange(s.queues, s.service) && x < |s.queues| && (s.active.Some? ==> s.active.x < |s.queues|)
  {
    InsertedInRange(s, x, r, k.add);
    var s1 := InsertRequest(s, x, r, k.add);
    if Preempts(s1, x, r, used, close) then Preempt(s1, x, k.was, k.front) else s1
  }

  // __cfq_set_active_queue on cfq_get_next_queue
  function SetActive(s: State): State {
    if s.service == [] then s.(active := None) else First(s).(active := First(s).left)
  }

  // cfq_select_queue: the active queue goes on unless its slice is used, a real-time queue waits for
  // it to end or it has no requests; without requests it may idle. used, timer and window come from
  // times: the slice is used up, the idle timer is pending, the queue has an idle window.
  function Select(s: State, used: bool, timer: bool, window: bool, k: Key): (State, Option)
    requires InRange(s.queues, s.service) && (s.active.Some? ==> s.active.x < |s.queues|)
  {
    var expired := SetActive(SliceExpired(s, k));
    if s.active == None || used then (expired, expired.active)
    else
      var q := s.queues[s.active.x];
      if !q.rt && s.busyRt != 0 then (expired, expired.active)
      else if q.reqs != [] then (s, s.active)
      else if timer || (q.dispatched != 0 && window) then (s, None)
      else (expired, expired.active)
  }
}
