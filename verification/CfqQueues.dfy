/**
 * The requests of the CFQ queues: tree, fifo, counters and cached next request agree in every queue,
 * and a queue is in the service tree exactly when it has requests.
 */
module CfqQueues {
  import opened CfqModel
  import opened CfqTree

  // A request on its way into a queue: whether the fifo and rq_queued, and whether the tree has it.
  datatype Pend = Pend(r: Rq, listed: bool, treed: bool)

  const DONE := Pend(Rq(0, 0, 0, false, false), true, true)

  function One(b: bool, r: Rq): multiset<Rq> { if b then multiset{r} else multiset{} }

  function Bit(b: bool): nat { if b then 1 else 0 }

  function Syncs(reqs: seq<Rq>): nat {
    if reqs == [] then 0 else Syncs(reqs[1..]) + Bit(reqs[0].sync)
  }

  predicate BySector(reqs: seq<Rq>) { forall i, j :: 0 <= i < j < |reqs| ==> reqs[i].sector < reqs[j].sector }

  predicate Unlike(reqs: seq<Rq>) { forall i, j :: 0 <= i < j < |reqs| ==> reqs[i].id != reqs[j].id }

  predicate CountsOk(q: Queue, p: Pend) {
    q.syncs == Syncs(q.reqs) + Bit(!p.treed && p.r.sync) &&
    q.asyncs == |q.reqs| - Syncs(q.reqs) + Bit(!p.treed && !p.r.sync)
  }

  predicate FifoOk(q: Queue, p: Pend) {
    multiset(q.fifo) + One(!p.listed, p.r) == multiset(q.reqs) + One(!p.treed, p.r)
  }

  predicate NextOk(q: Queue, p: Pend) {
    (q.next.Ptr? ==> q.next.r in q.reqs || (!p.treed && q.next.r == p.r)) && (q.next == Null ==> q.reqs == [])
  }

  predicate TreeOfOk(q: Queue, p: Pend) {
    BySector(q.reqs) && Unlike(q.reqs) && (!p.treed ==> forall a :: a in q.reqs ==> a.id != p.r.id)
  }

  predicate BusyOk(q: Queue, p: Pend) { (q.reqs != [] ==> q.onRr) && (p.treed && q.onRr ==> q.reqs != []) }

  predicate ReqsOk(q: Queue, p: Pend) { TreeOfOk(q, p) && CountsOk(q, p) && FifoOk(q, p) && NextOk(q, p) }

  predicate QueueOk(q: Queue, p: Pend) { ReqsOk(q, p) && BusyOk(q, p) }

  function Total(queues: seq<Queue>): nat { if queues == [] then 0 else Total(queues[1..]) + |queues[0].reqs| }

  function Held(queues: seq<Queue>): multiset<Rq> {
    if queues == [] then multiset{} else Held(queues[1..]) + multiset(queues[0].reqs)
  }

  // The invariant, while the request p is on its way into the queue at x
  ghost predicate Inv(s: State, x: nat, p: Pend) {
    && ServiceOk(s) && !s.bug && (s.active.Some? ==> s.active.x < |s.queues|)
    && (forall y :: 0 <= y < |s.queues| ==> QueueOk(s.queues[y], if y == x then p else DONE))
    && s.queued + Bit(!p.listed) == Total(s.queues) + Bit(!p.treed)
  }

  // ---- sums ------------------------------------------------------------------------------------

  lemma {:induction false} TotalUpdate(queues: seq<Queue>, x: nat, q: Queue)
    requires x < |queues|
    ensures Total(queues[x := q]) + |queues[x].reqs| == Total(queues) + |q.reqs|
  {
    if x == 0 {
      assert queues[x := q][1..] == queues[1..];
    } else {
      TotalUpdate(queues[1..], x - 1, q);
      assert queues[x := q][1..] == queues[1..][x - 1 := q];
    }
  }

  lemma {:induction false} HeldUpdate(queues: seq<Queue>, x: nat, q: Queue)
    requires x < |queues|
    ensures Held(queues[x := q]) + multiset(queues[x].reqs) == Held(queues) + multiset(q.reqs)
  {
    if x == 0 {
      assert queues[x := q][1..] == queues[1..];
    } else {
      HeldUpdate(queues[1..], x - 1, q);
      assert queues[x := q][1..] == queues[1..][x - 1 := q];
      Swap(Held(queues[1..][x - 1 := q]), multiset(queues[x].reqs), Held(queues[1..]), multiset(q.reqs), multiset(queues[0].reqs));
    }
  }

  lemma Swap(a: multiset<Rq>, b: multiset<Rq>, c: multiset<Rq>, d: multiset<Rq>, e: multiset<Rq>)
    requires a + b == c + d
    ensures (a + e) + b == (c + e) + d
  {
    assert (a + e) + b == (a + b) + e && (c + e) + d == (c + d) + e;
  }

  lemma {:induction false} SameSums(queues: seq<Queue>, queues': seq<Queue>)
    requires |queues| == |queues'| && forall y :: 0 <= y < |queues| ==> queues'[y].reqs == queues[y].reqs
    ensures Total(queues') == Total(queues) && Held(queues') == Held(queues)
  {
    if queues != [] { SameSums(queues[1..], queues'[1..]); }
  }

  lemma {:induction false} TotalZero(queues: seq<Queue>)
    requires forall y :: 0 <= y < |queues| ==> queues[y].reqs == []
    ensures Total(queues) == 0 && Held(queues) == multiset{}
  {
    if queues != [] { TotalZero(queues[1..]); }
  }

  lemma {:induction false} TotalAtLeast(queues: seq<Queue>, x: nat)
    requires x < |queues|
    ensures |queues[x].reqs| <= Total(queues)
  {
    if x > 0 { TotalAtLeast(queues[1..], x - 1); }
  }

  lemma {:induction false} SyncsConcat(a: seq<Rq>, b: seq<Rq>)
    ensures Syncs(a + b) == Syncs(a) + Syncs(b)
  {
    if a == [] {
      assert a + b == b;
    } else {
      assert (a + b)[1..] == a[1..] + b;
      SyncsConcat(a[1..], b);
    }
  }

  lemma SyncsOne(r: Rq)
    ensures Syncs([r]) == Bit(r.sync)
  {
    assert [r][1..] == [];
  }

  // Counting a tree with one request more
  lemma PutCounts(reqs: seq<Rq>, i: nat, r: Rq)
    requires i <= |reqs|
    ensures |Put(reqs, i, r)| == |reqs| + 1 && Syncs(Put(reqs, i, r)) == Syncs(reqs) + Bit(r.sync)
    ensures multiset(Put(reqs, i, r)) == multiset(reqs) + multiset{r}
  {
    SyncsConcat(reqs[..i], [r]);
    SyncsConcat(reqs[..i] + [r], reqs[i..]);
    SyncsConcat(reqs[..i], reqs[i..]);
    SyncsOne(r);
    assert reqs == reqs[..i] + reqs[i..];
  }

  lemma CutCounts(reqs: seq<Rq>, i: nat)
    requires i < |reqs|
    ensures |Cut(reqs, i)| == |reqs| - 1 && Syncs(Cut(reqs, i)) + Bit(reqs[i].sync) == Syncs(reqs)
    ensures multiset(Cut(reqs, i)) + multiset{reqs[i]} == multiset(reqs)
  {
    PutCounts(Cut(reqs, i), i, reqs[i]);
    assert Put(Cut(reqs, i), i, reqs[i]) == reqs;
  }

  lemma {:induction false} SyncsBound(reqs: seq<Rq>)
    ensures Syncs(reqs) <= |reqs|
  {
    if reqs != [] { SyncsBound(reqs[1..]); }
  }

  lemma {:induction false} WithoutOne(s: seq<Rq>, r: Rq)
    requires r in s
    ensures multiset(Without(s, r)) + multiset{r} == multiset(s)
  {
    assert s == [s[0]] + s[1..];
    if s[0] != r { WithoutOne(s[1..], r); }
  }

  // ---- removing a request ----------------------------------------------------------------------

  lemma CutKeeps(reqs: seq<Rq>, i: nat)
    requires i < |reqs| && BySector(reqs) && Unlike(reqs)
    ensures BySector(Cut(reqs, i)) && Unlike(Cut(reqs, i))
    ensures forall a :: a in Cut(reqs, i) <==> a in reqs && a != reqs[i]
  {
    CutFacts(reqs, i);
    forall a | a in reqs && a != reqs[i] ensures a in Cut(reqs, i) {
      var k :| 0 <= k < |reqs| && reqs[k] == a;
      assert Cut(reqs, i)[if k < i then k else k - 1] == a;
    }
  }

  lemma FindNextHeld(h: Head, reqs: seq<Rq>, i: nat)
    requires i < |reqs| && BySector(reqs) && Unlike(reqs)
    ensures FindNext(h, reqs, i) == Null ==> Cut(reqs, i) == []
    ensures FindNext(h, reqs, i).Ptr? ==> FindNext(h, reqs, i).r in Cut(reqs, i)
  {
    CutKeeps(reqs, i);
    CutFacts(reqs, i);
    hide Choose;
  }

  lemma RemovedFifo(h: Head, q: Queue, i: nat, p: Pend)
    requires FifoOk(q, p) && i < |q.reqs| && (p.listed || !p.treed) && (!p.treed ==> q.reqs[i] != p.r)
    ensures FifoOk(Removed(h, q, i), p)
  {
    hide FindNext;
    var r := q.reqs[i];
    assert multiset(q.reqs)[r] > 0 && One(!p.listed, p.r)[r] == 0;
    assert (multiset(q.fifo) + One(!p.listed, p.r))[r] == (multiset(q.reqs) + One(!p.treed, p.r))[r];
    assert multiset(q.fifo)[r] > 0;
    WithoutOne(q.fifo, r);
    CutCounts(q.reqs, i);
    var f, c := multiset(Without(q.fifo, r)), multiset(Cut(q.reqs, i));
    Cancel(f, One(!p.listed, p.r), c, One(!p.treed, p.r), multiset{r});
  }

  lemma Cancel(a: multiset<Rq>, b: multiset<Rq>, c: multiset<Rq>, d: multiset<Rq>, e: multiset<Rq>)
    requires (a + e) + b == (c + e) + d
    ensures a + b == c + d
  {
    forall x ensures (a + b)[x] == (c + d)[x] {
      assert ((a + e) + b)[x] == ((c + e) + d)[x];
    }
  }

  lemma RemovedTree(h: Head, q: Queue, i: nat, p: Pend)
    requires TreeOfOk(q, p) && i < |q.reqs|
    ensures TreeOfOk(Removed(h, q, i), p)
  {
    hide FindNext, BySector, Unlike;
    CutKeeps(q.reqs, i);
  }

  lemma RemovedCounts(h: Head, q: Queue, i: nat, p: Pend)
    requires CountsOk(q, p) && i < |q.reqs|
    ensures CountsOk(Removed(h, q, i), p) && (if q.reqs[i].sync then q.syncs else q.asyncs) > 0
  {
    hide FindNext;
    CutCounts(q.reqs, i);
    SyncsBound(Cut(q.reqs, i));
  }

  lemma RemovedNext(h: Head, q: Queue, i: nat, p: Pend)
    requires NextOk(q, p) && TreeOfOk(q, p) && i < |q.reqs|
    ensures NextOk(Removed(h, q, i), p)
  {
    hide FindNext, BySector, Unlike, Cut;
    CutKeeps(q.reqs, i);
    FindNextHeld(h, q.reqs, i);
  }

  lemma RemovedOk(h: Head, q: Queue, i: nat, p: Pend)
    requires ReqsOk(q, p) && i < |q.reqs| && (p.listed || !p.treed)
    ensures ReqsOk(Removed(h, q, i), p) && (if q.reqs[i].sync then q.syncs else q.asyncs) > 0
    ensures |Removed(h, q, i).reqs| == |q.reqs| - 1
  {
    hide Removed, FifoOk, CountsOk, NextOk;
    assert q.reqs[i] in q.reqs;
    RemovedFifo(h, q, i, p);
    RemovedTree(h, q, i, p);
    RemovedCounts(h, q, i, p);
    RemovedNext(h, q, i, p);
    RemovedFields(h, q, i);
    CutFacts(q.reqs, i);
  }

  // Queues that are not touched, and what the service tree may change of them
  lemma OneQueue(s: State, s': State, x: nat, p: Pend, p': Pend)
    requires Inv(s, x, p) && x < |s.queues| && |s'.queues| == |s.queues|
    requires forall y :: 0 <= y < |s.queues| && y != x ==> s'.queues[y] == s.queues[y]
    requires QueueOk(s'.queues[x], p') && ServiceOk(s') && !s'.bug && (s'.active.Some? ==> s'.active.x < |s'.queues|)
    requires s'.queued + Bit(!p'.listed) == Total(s'.queues) + Bit(!p'.treed)
    ensures Inv(s', x, p')
  {
    hide QueueOk, ServiceOk;
  }

  // The service tree does not look at requests.
  lemma ServiceFrame(s: State, s': State, x: nat)
    requires ServiceOk(s) && x < |s.queues| && s'.service == s.service && s'.left == s.left && s'.busy == s.busy && s'.busyRt == s.busyRt
    requires |s'.queues| == |s.queues| && forall y :: 0 <= y < |s.queues| && y != x ==> s'.queues[y] == s.queues[y]
    requires var a, b := s'.queues[x], s.queues[x]; a.rt == b.rt && a.idle == b.idle && a.key == b.key && a.onRr == b.onRr
    ensures ServiceOk(s')
  {
    hide TreeOk, CountRt;
    TreeFrame(s, s');
  }

  lemma Parts(s: State, x: nat, p: Pend)
    requires Inv(s, x, p)
    ensures ServiceOk(s) && !s.bug && (s.active.Some? ==> s.active.x < |s.queues|) && InRange(s.queues, s.service)
    ensures s.queued + Bit(!p.listed) == Total(s.queues) + Bit(!p.treed)
    ensures forall y :: 0 <= y < |s.queues| ==> QueueOk(s.queues[y], if y == x then p else DONE)
  {
  }

  // cfq_remove_request keeps everything, and takes the queue out of the tree with its last request.
  lemma RemoveKeeps(s: State, x: nat, i: nat, p: Pend)
    requires Inv(s, x, p) && x < |s.queues| && i < |s.queues[x].reqs| && (p.listed || !p.treed)
    ensures var s' := Remove(s, x, i);
            Inv(s', x, p) && Held(s'.queues) + multiset{s.queues[x].reqs[i]} == Held(s.queues) &&
            |s'.queues| == |s.queues| && s'.queues[x].reqs == Cut(s.queues[x].reqs, i) && s'.queued == s.queued - 1 &&
            s'.active == s.active && s'.head == s.head && s'.out == s.out
  {
    hide Inv, Removed, ServiceOk, ReqsOk, DelRr, Cut, Total, Held;
    Parts(s, x, p);
    var q := s.queues[x];
    var q1 := Removed(s.head, q, i);
    RemovedOk(s.head, q, i, p);
    RemovedFields(s.head, q, i);
    var s1 := s.(queues := s.queues[x := q1], queued := s.queued - 1, bug := s.bug || (if q.reqs[i].sync then q.syncs else q.asyncs) == 0);
    ServiceFrame(s, s1, x);
    TotalUpdate(s.queues, x, q1);
    HeldUpdate(s.queues, x, q1);
    CutCounts(q.reqs, i);
    HeldOne(Held(s1.queues), multiset(q1.reqs), multiset{q.reqs[i]}, Held(s.queues));
    if q1.onRr && q1.reqs == [] {
      DelRrOk(s1, x);
      DelRrRest(s1, x);
      var s2 := DelRr(s1, x);
      SameSums(s1.queues, s2.queues);
      IdleQueue(q1, p);
      OneQueue(s, s2, x, p, p);
    } else {
      OneQueue(s, s1, x, p, p);
    }
  }

  lemma HeldOne(h: multiset<Rq>, c: multiset<Rq>, r: multiset<Rq>, h0: multiset<Rq>)
    requires h + (c + r) == h0 + c
    ensures h + r == h0
  {
    forall x ensures (h + r)[x] == h0[x] { assert (h + (c + r))[x] == (h0 + c)[x]; }
  }

  lemma RemovedFields(h: Head, q: Queue, i: nat)
    requires i < |q.reqs|
    ensures var q1 := Removed(h, q, i);
            q1.reqs == Cut(q.reqs, i) && q1.rt == q.rt && q1.idle == q.idle && q1.key == q.key && q1.onRr == q.onRr
  {
  }

  lemma DelRrRest(s: State, x: nat)
    requires x < |s.queues|
    ensures var s' := DelRr(s, x); s'.queued == s.queued && s'.active == s.active && s'.head == s.head && s'.out == s.out
  {
  }

  lemma IdleQueue(q: Queue, p: Pend)
    requires ReqsOk(q, p) && q.reqs == []
    ensures QueueOk(q.(onRr := false), p)
  {
  }

  lemma DispatchKeeps(s: State, x: nat, i: nat, p: Pend)
    requires Inv(s, x, p) && x < |s.queues| && i < |s.queues[x].reqs| && (p.listed || !p.treed)
    ensures var s' := DispatchInsert(s, x, i);
            Inv(s', x, p) && Held(s'.queues) + multiset(s'.out) == Held(s.queues) + multiset(s.out) &&
            |s'.queues| == |s.queues| && s'.queues[x].reqs == Cut(s.queues[x].reqs, i) && s'.queued == s.queued - 1 &&
            s'.active == s.active && s'.head == s.head
  {
    hide Remove, QueueOk, ServiceOk, Cut, Total, Held, Inv;
    RemoveKeeps(s, x, i, p);
    var s1, s' := Remove(s, x, i), DispatchInsert(s, x, i);
    Parts(s1, x, p);
    InFlight(s1.queues[x], s'.queues[x], p);
    ServiceFrame(s1, s', x);
    SameSums(s1.queues, s'.queues);
    OneQueue(s1, s', x, p, p);
    OutOne(Held(s1.queues), s.queues[x].reqs[i], s.out, Held(s.queues));
  }

  // The count of requests in flight is nobody else's business.
  lemma InFlight(q: Queue, q': Queue, p: Pend)
    requires QueueOk(q, p) && q' == q.(dispatched := q'.dispatched)
    ensures QueueOk(q', p)
  {
    hide BySector, Unlike, Syncs;
  }

  lemma OutOne(h: multiset<Rq>, r: Rq, out: seq<Rq>, h0: multiset<Rq>)
    requires h + multiset{r} == h0
    ensures h + multiset(out + [r]) == h0 + multiset(out)
  {
  }
}
