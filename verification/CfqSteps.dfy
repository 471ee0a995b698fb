/**
 * Every operation of the CFQ scheduler keeps its indexes in agreement, and no BUG_ON is met.
 */
module CfqSteps {
  import opened CfqModel
  import opened CfqTree
  import opened CfqQueues

  // Nothing is on its way.
  ghost predicate Settled(s: State) { Inv(s, 0, DONE) }

  predicate Sound(s: State) { InRange(s.queues, s.service) && (s.active.Some? ==> s.active.x < |s.queues|) }

  // The oldest and the cached request are those that may be dispatched.
  predicate Due(q: Queue, i: nat)
    requires i < |q.reqs|
  {
    q.next == Ptr(q.reqs[i]) || (q.fifo != [] && q.fifo[0] == q.reqs[i])
  }

  lemma AnyQueue(s: State, x: nat, y: nat)
    ensures Inv(s, x, DONE) <==> Inv(s, y, DONE)
  {
    hide ServiceOk, QueueOk, Total;
  }

  predicate New(q: Queue, r: Rq) { forall a :: a in q.reqs ==> a.id != r.id }

  // ---- adding a request ------------------------------------------------------------------------

  lemma {:induction false} PosSplits(reqs: seq<Rq>, sector: nat)
    requires BySector(reqs)
    ensures forall i :: 0 <= i < Pos(reqs, sector) ==> reqs[i].sector < sector
    ensures forall i :: Pos(reqs, sector) <= i < |reqs| ==> sector <= reqs[i].sector
  {
    if reqs != [] && reqs[0].sector < sector { PosSplits(reqs[1..], sector); }
  }

  predicate FreeAt(reqs: seq<Rq>, sector: nat) { forall a :: a in reqs ==> a.sector != sector }

  lemma PutKeeps(reqs: seq<Rq>, r: Rq)
    requires BySector(reqs) && Unlike(reqs) && FreeAt(reqs, r.sector) && forall a :: a in reqs ==> a.id != r.id
    ensures BySector(Put(reqs, Pos(reqs, r.sector), r)) && Unlike(Put(reqs, Pos(reqs, r.sector), r))
  {
    hide Pos, Put;
    PosSplits(reqs, r.sector);
    PutFacts(reqs, Pos(reqs, r.sector), r);
    forall i | 0 <= i < |reqs| ensures reqs[i].sector != r.sector && reqs[i].id != r.id { assert reqs[i] in reqs; }
  }

  // Nobody else is at the sector where the walk found nobody or after whoever was there has gone.
  lemma NobodyAt(reqs: seq<Rq>, sector: nat)
    requires BySector(reqs) && Unlike(reqs)
    ensures var p := Pos(reqs, sector);
            if p < |reqs| && reqs[p].sector == sector then FreeAt(Cut(reqs, p), sector) else FreeAt(reqs, sector)
  {
    hide Pos;
    PosSplits(reqs, sector);
    var p := Pos(reqs, sector);
    if p < |reqs| && reqs[p].sector == sector {
      CutFacts(reqs, p);
    }
  }

  lemma QueueParts(q: Queue, p: Pend)
    requires QueueOk(q, p)
    ensures BySector(q.reqs) && Unlike(q.reqs) && ReqsOk(q, p) && BusyOk(q, p)
    ensures !p.treed ==> New(q, p.r)
  {
  }

  lemma PushAliasKeeps(s: State, x: nat, sector: nat, p: Pend)
    requires Inv(s, x, p) && x < |s.queues| && (p.listed || !p.treed)
    ensures var s' := PushAlias(s, x, sector);
            Inv(s', x, p) && |s'.queues| == |s.queues| && FreeAt(s'.queues[x].reqs, sector) &&
            Held(s'.queues) + multiset(s'.out) == Held(s.queues) + multiset(s.out) &&
            s'.active == s.active && s'.head == s.head
  {
    hide Inv, DispatchInsert, QueueOk, Cut, Held, Pos, FreeAt;
    Parts(s, x, p);
    var q := s.queues[x];
    var i := Pos(q.reqs, sector);
    QueueParts(q, p);
    NobodyAt(q.reqs, sector);
    if i < |q.reqs| && q.reqs[i].sector == sector { DispatchKeeps(s, x, i, p); }
  }

  // The queue with the request in its tree and in its cache
  function Taken(h: Head, q: Queue, r: Rq): Queue {
    q.(reqs := Put(q.reqs, Pos(q.reqs, r.sector), r), next := Choose(h, q.next, Ptr(r)))
  }

  lemma TakenOk(h: Head, q: Queue, r: Rq, listed: bool)
    requires ReqsOk(q, Pend(r, listed, false)) && FreeAt(q.reqs, r.sector)
    ensures ReqsOk(Taken(h, q, r), Pend(r, listed, true)) && |Taken(h, q, r).reqs| == |q.reqs| + 1
  {
    hide Choose, Pos, BySector, Unlike, FreeAt, Put, Syncs;
    PutKeeps(q.reqs, r);
    PutCounts(q.reqs, Pos(q.reqs, r.sector), r);
    PutFacts(q.reqs, Pos(q.reqs, r.sector), r);
    var q1, f := Taken(h, q, r), One(!listed, r);
    assert multiset(q.fifo) + f == multiset(q.reqs) + multiset{r};
  }

  lemma BusyQueue(q: Queue, p: Pend)
    requires ReqsOk(q, p) && q.reqs != []
    ensures QueueOk(q.(onRr := true), p)
  {
    hide BySector, Unlike;
  }

  lemma SettleKeeps(s: State, x: nat, r: Rq, k: Key, listed: bool)
    requires Inv(s, x, Pend(r, listed, false)) && x < |s.queues| && InRange(s.queues, s.service) && FreeAt(s.queues[x].reqs, r.sector)
    ensures var s' := Settle(s, x, r, k);
            Inv(s', x, Pend(r, listed, true)) && |s'.queues| == |s.queues| && Held(s'.queues) == Held(s.queues) + multiset{r} &&
            s'.out == s.out && s'.active == s.active && s'.head == s.head && s'.queued == s.queued
  {
    hide Inv, ServiceOk, ReqsOk, Taken, AddRr, Total, Held, FreeAt;
    var p, p' := Pend(r, listed, false), Pend(r, listed, true);
    Parts(s, x, p);
    var q := s.queues[x];
    QueueParts(q, p);
    var q1 := Taken(s.head, q, r);
    var s1 := s.(queues := s.queues[x := q1]);
    TakenOk(s.head, q, r, listed);
    SettleIs(s, x, r, k);
    TakenFields(s.head, q, r);
    ServiceFrame(s, s1, x);
    TotalUpdate(s.queues, x, q1);
    HeldUpdate(s.queues, x, q1);
    PutCounts(q.reqs, Pos(q.reqs, r.sector), r);
    HeldMore(Held(s1.queues), multiset(q.reqs), multiset{r}, Held(s.queues));
    BusyQueue(q1, p');
    if q.onRr {
      assert q1 == q1.(onRr := true);
      OneQueue(s, s1, x, p, p');
    } else {
      AddRrOk(s1, x, k);
      var s2 := AddRr(s1, x, k);
      AddRrRest(s1, x, s2);
      SameSums(s1.queues, s2.queues);
      Rekeyed(q1.(onRr := true), s2.queues[x], p');
      OneQueue(s, s2, x, p, p');
    }
  }

  lemma Rekeyed(q: Queue, q': Queue, p: Pend)
    requires QueueOk(q, p) && q' == q.(key := q'.key)
    ensures QueueOk(q', p)
  {
    hide BySector, Unlike;
  }

  lemma AddRrRest(s: State, x: nat, s': State)
    requires x < |s.queues| && AddRrFrame(s, x, s')
    ensures |s'.queues| == |s.queues| && s'.queues[x] == s.queues[x].(onRr := true, key := s'.queues[x].key)
    ensures forall y :: 0 <= y < |s.queues| && y != x ==> s'.queues[y] == s.queues[y]
    ensures forall y :: 0 <= y < |s.queues| ==> s'.queues[y].reqs == s.queues[y].reqs
    ensures s'.out == s.out && s'.active == s.active && s'.head == s.head && s'.queued == s.queued
  {
  }

  lemma SettleIs(s: State, x: nat, r: Rq, k: Key)
    requires InRange(s.queues, s.service) && x < |s.queues|
    ensures var s1 := s.(queues := s.queues[x := Taken(s.head, s.queues[x], r)]);
            Settle(s, x, r, k) == if s.queues[x].onRr then s1 else AddRr(s1, x, k)
  {
    hide AddRr;
  }

  lemma TakenFields(h: Head, q: Queue, r: Rq)
    ensures var q1 := Taken(h, q, r);
            q1.rt == q.rt && q1.idle == q.idle && q1.key == q.key && q1.onRr == q.onRr && q1.reqs == Put(q.reqs, Pos(q.reqs, r.sector), r)
  {
    hide Choose;
  }

  lemma HeldMore(h: multiset<Rq>, c: multiset<Rq>, r: multiset<Rq>, h0: multiset<Rq>)
    requires h + c == h0 + (c + r)
    ensures h == h0 + r
  {
    forall x ensures h[x] == (h0 + r)[x] { assert (h + c)[x] == (h0 + (c + r))[x]; }
  }

  // Once it is counted, a request goes into the tree; whoever sits at its sector is dispatched.
  lemma AddKeeps(s: State, x: nat, r: Rq, k: Key, listed: bool)
    requires x < |s.queues| && InRange(s.queues, s.service) && Inv(Counted(s, x, r), x, Pend(r, listed, false))
    ensures var s' := AddRqRb(s, x, r, k);
            Inv(s', x, Pend(r, listed, true)) && |s'.queues| == |s.queues| &&
            Held(s'.queues) + multiset(s'.out) == Held(s.queues) + multiset{r} + multiset(s.out) && s'.active == s.active && s'.head == s.head
  {
    hide Inv, Settle, PushAlias, Held, FreeAt;
    var s0 := Counted(s, x, r);
    PushAliasKeeps(s0, x, r.sector, Pend(r, listed, false));
    var s1 := PushAlias(s0, x, r.sector);
    Parts(s1, x, Pend(r, listed, false));
    SettleKeeps(s1, x, r, k, listed);
    SameSums(s.queues, s0.queues);
    assert Held(s1.queues) + multiset{r} + multiset(s1.out) == (Held(s1.queues) + multiset(s1.out)) + multiset{r};
    assert Held(s.queues) + multiset{r} + multiset(s.out) == (Held(s.queues) + multiset(s.out)) + multiset{r};
  }

  lemma CountedIs(s: State, x: nat, r: Rq)
    requires Inv(s, x, DONE) && x < |s.queues| && New(s.queues[x], r)
    ensures InRange(s.queues, s.service) && Inv(Counted(s, x, r), x, Pend(r, false, false))
  {
    hide Inv, ServiceOk, Total, QueueOk, CountedOne, Counted, New;
    Parts(s, x, DONE);
    var s' := Counted(s, x, r);
    CountedFields(s, x, r);
    ServiceFrame(s, s', x);
    SameSums(s.queues, s'.queues);
    CountedQueue(s.queues[x], r);
    OneQueue(s, s', x, DONE, Pend(r, false, false));
  }

  lemma FifoDone(q: Queue)
    requires QueueOk(q, DONE)
    ensures multiset(q.fifo) == multiset(q.reqs)
  {
    hide BySector, Unlike, Syncs;
    assert multiset(q.fifo) + multiset{} == multiset(q.fifo) && multiset(q.reqs) + multiset{} == multiset(q.reqs);
  }

  // The queue with the request counted
  function CountedOne(q: Queue, r: Rq): Queue {
    q.(syncs := q.syncs + if r.sync then 1 else 0, asyncs := q.asyncs + if r.sync then 0 else 1)
  }

  lemma CountedQueue(q: Queue, r: Rq)
    requires QueueOk(q, DONE) && New(q, r)
    ensures QueueOk(CountedOne(q, r), Pend(r, false, false))
  {
    hide BySector, Unlike, Syncs;
    FifoDone(q);
  }

  lemma CountedFields(s: State, x: nat, r: Rq)
    requires x < |s.queues|
    ensures Counted(s, x, r) == s.(queues := s.queues[x := CountedOne(s.queues[x], r)])
    ensures var a, b := CountedOne(s.queues[x], r), s.queues[x];
            a.rt == b.rt && a.idle == b.idle && a.key == b.key && a.onRr == b.onRr && a.reqs == b.reqs
  {
  }

  // cfq_insert_request
  lemma InsertKeeps(s: State, x: nat, r: Rq, k: Key)
    requires Settled(s) && x < |s.queues| && New(s.queues[x], r)
    ensures InRange(s.queues, s.service)
    ensures var s' := InsertRequest(s, x, r, k);
            Settled(s') && Held(s'.queues) + multiset(s'.out) == Held(s.queues) + multiset{r} + multiset(s.out)
  {
    hide Inv, AddRqRb, Held, QueueOk, Total;
    AnyQueue(s, 0, x);
    CountedIs(s, x, r);
    AddKeeps(s, x, r, k, false);
    var s1 := AddRqRb(s, x, r, k);
    Parts(s1, x, Pend(r, false, true));
    var s' := InsertRequest(s, x, r, k);
    ListedQueue(s1.queues[x], r);
    ServiceFrame(s1, s', x);
    SameSums(s1.queues, s'.queues);
    OneQueue(s1, s', x, Pend(r, false, true), DONE);
    AnyQueue(s', x, 0);
  }

  lemma ListedQueue(q: Queue, r: Rq)
    requires QueueOk(q, Pend(r, false, true))
    ensures QueueOk(q.(fifo := q.fifo + [r]), DONE)
  {
    hide BySector, Unlike, Syncs;
    assert multiset(q.fifo + [r]) == multiset(q.fifo) + multiset{r};
    assert multiset(q.fifo + [r]) + multiset{} == multiset(q.reqs) + multiset{};
  }

  // ---- merging ---------------------------------------------------------------------------------

  lemma Head1(s: seq<Rq>)
    requires s != []
    ensures multiset(s) == multiset{s[0]} + multiset(s[1..])
  {
    assert s == [s[0]] + s[1..];
  }

  lemma Shift(h: multiset<Rq>, x: multiset<Rq>, a: multiset<Rq>, t: multiset<Rq>, r: multiset<Rq>)
    requires x + a == t + r
    ensures (h + x) + a == (h + t) + r
  {
    assert (h + x) + a == h + (x + a) && (h + t) + r == h + (t + r);
  }

  lemma Exchange(r: multiset<Rq>, t: multiset<Rq>, a: multiset<Rq>)
    ensures (r + t) + a == (a + t) + r
  {
  }

  lemma {:induction false} ReplaceCounts(fifo: seq<Rq>, a: Rq, r: Rq)
    ensures a !in fifo ==> Replace(fifo, a, r) == fifo
    ensures multiset(fifo)[a] == 1 ==> multiset(Replace(fifo, a, r)) + multiset{a} == multiset(fifo) + multiset{r}
  {
    if fifo != [] {
      var h, t := fifo[0], fifo[1..];
      ReplaceCounts(t, a, r);
      Head1(fifo);
      Head1(Replace(fifo, a, r));
      if h != a {
        if multiset(t)[a] == 1 { Shift(multiset{h}, multiset(Replace(t, a, r)), multiset{a}, multiset(t), multiset{r}); }
      } else {
        Exchange(multiset{r}, multiset(t), multiset{a});
      }
    }
  }

  lemma ReplaceOne(fifo: seq<Rq>, reqs: seq<Rq>, i: nat, r: Rq)
    requires i < |reqs| && multiset(fifo) == multiset(reqs) && Unlike(reqs)
    ensures multiset(Replace(fifo, reqs[i], r)) == multiset(Cut(reqs, i)) + multiset{r}
    ensures reqs[i := r] == Put(Cut(reqs, i), i, r) && multiset(reqs[i := r]) == multiset(Cut(reqs, i)) + multiset{r}
  {
    hide Replace;
    var a, c := reqs[i], Cut(reqs, i);
    CutCounts(reqs, i);
    PutCounts(c, i, r);
    assert reqs[i := r] == Put(c, i, r);
    CutFacts(reqs, i);
    assert a !in c;
    assert (multiset(c) + multiset{a})[a] == 1;
    ReplaceCounts(fifo, a, r);
    Cancelled(multiset(Replace(fifo, a, r)), multiset(c), multiset{a}, multiset{r});
  }

  lemma Cancelled(x: multiset<Rq>, c: multiset<Rq>, a: multiset<Rq>, r: multiset<Rq>)
    requires x + a == (c + a) + r
    ensures x == c + r
  {
    forall y ensures x[y] == (c + r)[y] { assert (x + a)[y] == ((c + a) + r)[y]; }
  }

  // A merge changes nothing that tells requests apart but the sector, which stays in its place.
  lemma ChangedTree(q: Queue, i: nat, r: Rq)
    requires TreeOfOk(q, DONE) && i < |q.reqs| && r.id == q.reqs[i].id && r.sector == q.reqs[i].sector
    ensures TreeOfOk(Changed(q, i, r), DONE)
  {
    hide Replace;
  }

  lemma ChangedQueue(q: Queue, i: nat, r: Rq)
    requires QueueOk(q, DONE) && i < |q.reqs| && r.id == q.reqs[i].id && r.sync == q.reqs[i].sync && r.sector == q.reqs[i].sector
    ensures QueueOk(Changed(q, i, r), DONE)
  {
    hide Syncs, Replace, BySector, NextOk, TreeOfOk, Cut, Put;
    QueueParts(q, DONE);
    FifoDone(q);
    ReplaceOne(q.fifo, q.reqs, i, r);
    CutCounts(q.reqs, i);
    PutCounts(Cut(q.reqs, i), i, r);
    ChangedTree(q, i, r);
    ChangedNext(q, i, r);
  }

  lemma ChangedNext(q: Queue, i: nat, r: Rq)
    requires NextOk(q, DONE) && i < |q.reqs|
    ensures NextOk(Changed(q, i, r), DONE)
  {
    var q1 := Changed(q, i, r);
    assert q1.reqs[i] == r;
    if q.next.Ptr? && q.next.r != q.reqs[i] {
      var k :| 0 <= k < |q.reqs| && q.reqs[k] == q.next.r;
      assert q1.reqs[k] == q.next.r;
    }
  }

  lemma BackKeeps(s: State, x: nat, i: nat, nr: nat)
    requires Settled(s) && x < |s.queues| && i < |s.queues[x].reqs|
    ensures var s' := BackMerged(s, x, i, nr);
            Settled(s') && s'.out == s.out && s'.queued == s.queued && |s'.queues| == |s.queues| && s'.active == s.active
  {
    hide Inv, QueueOk, Total, Changed;
    AnyQueue(s, 0, x);
    Parts(s, x, DONE);
    var q := s.queues[x];
    var r := q.reqs[i].(nr := nr);
    var s' := BackMerged(s, x, i, nr);
    ChangedQueue(q, i, r);
    ChangedFields(q, i, r);
    ServiceFrame(s, s', x);
    TotalUpdate(s.queues, x, Changed(q, i, r));
    OneQueue(s, s', x, DONE, DONE);
    AnyQueue(s', x, 0);
  }

  lemma ChangedFields(q: Queue, i: nat, r: Rq)
    requires i < |q.reqs|
    ensures var q1 := Changed(q, i, r);
            q1.rt == q.rt && q1.idle == q.idle && q1.key == q.key && q1.onRr == q.onRr && |q1.reqs| == |q.reqs|
  {
  }

  // Out of its tree, a request stays in the fifo and may stay the cached one.
  lemma LiftedTree(q: Queue, i: nat, r: Rq)
    requires TreeOfOk(q, DONE) && i < |q.reqs| && r.id == q.reqs[i].id
    ensures TreeOfOk(q.(reqs := Cut(q.reqs, i)), Pend(r, true, false))
  {
    CutKeeps(q.reqs, i);
    CutFacts(q.reqs, i);
  }

  lemma LiftedNext(q: Queue, i: nat, r: Rq)
    requires NextOk(q, DONE) && TreeOfOk(q, DONE) && i < |q.reqs|
    ensures NextOk(Changed(q, i, r).(reqs := Cut(q.reqs, i)), Pend(r, true, false))
  {
    hide BySector, Unlike, Cut, Replace;
    CutKeeps(q.reqs, i);
    CutCounts(q.reqs, i);
  }

  lemma LiftedFifo(q: Queue, i: nat, r: Rq)
    requires QueueOk(q, DONE) && i < |q.reqs|
    ensures FifoOk(Changed(q, i, r).(reqs := Cut(q.reqs, i)), Pend(r, true, false))
  {
    hide Replace, Cut, ReqsOk;
    QueueParts(q, DONE);
    FifoDone(q);
    ReplaceOne(q.fifo, q.reqs, i, r);
  }

  lemma LiftedCounts(q: Queue, i: nat, r: Rq)
    requires CountsOk(q, DONE) && i < |q.reqs| && r.sync == q.reqs[i].sync
    ensures CountsOk(Changed(q, i, r).(reqs := Cut(q.reqs, i)), Pend(r, true, false))
  {
    hide Replace, Cut;
    CutCounts(q.reqs, i);
  }

  lemma LiftedQueue(q: Queue, i: nat, r: Rq)
    requires QueueOk(q, DONE) && i < |q.reqs| && r.id == q.reqs[i].id && r.sync == q.reqs[i].sync
    ensures QueueOk(Changed(q, i, r).(reqs := Cut(q.reqs, i)), Pend(r, true, false))
    ensures Cut(Changed(q, i, r).reqs, i) == Cut(q.reqs, i)
  {
    hide Replace, CountsOk, FifoOk, NextOk, TreeOfOk, Syncs;
    assert Cut(q.reqs[i := r], i) == Cut(q.reqs, i);
    LiftedFifo(q, i, r);
    LiftedCounts(q, i, r);
    LiftedTree(q, i, r);
    SameTree(q.(reqs := Cut(q.reqs, i)), Changed(q, i, r).(reqs := Cut(q.reqs, i)), Pend(r, true, false));
    LiftedNext(q, i, r);
  }

  lemma SameTree(q: Queue, q': Queue, p: Pend)
    requires TreeOfOk(q, p) && q'.reqs == q.reqs
    ensures TreeOfOk(q', p)
  {
  }

  lemma LiftedSums(s: State, x: nat, i: nat, r: Rq)
    requires x < |s.queues| && i < |s.queues[x].reqs|
    ensures var s1 := Lifted(s, x, i, r);
            |s1.queues| == |s.queues| && Held(s1.queues) + multiset{s.queues[x].reqs[i]} == Held(s.queues) &&
            Total(Counted(s1, x, r).queues) + 1 == Total(s.queues)
  {
    hide Total, Held, Changed, Cut;
    var q := s.queues[x];
    var q1 := Changed(q, i, r).(reqs := Cut(q.reqs, i));
    ChangedCut(q, i, r);
    CutCounts(q.reqs, i);
    var s1 := Lifted(s, x, i, r);
    TotalUpdate(s.queues, x, q1);
    HeldUpdate(s.queues, x, q1);
    SameSums(s.queues[x := q1], s1.queues);
    SameSums(s.queues[x := q1], Counted(s1, x, r).queues);
    HeldOne(Held(s1.queues), multiset(q1.reqs), multiset{q.reqs[i]}, Held(s.queues));
  }

  lemma ChangedCut(q: Queue, i: nat, r: Rq)
    requires i < |q.reqs|
    ensures i < |Changed(q, i, r).reqs| && Cut(Changed(q, i, r).reqs, i) == Cut(q.reqs, i)
  {
    hide Replace;
  }

  // Out of the count and in again, the queue is as it was.
  lemma LiftedBack(s: State, x: nat, i: nat, r: Rq)
    requires x < |s.queues| && i < |s.queues[x].reqs|
    ensures var s1 := Lifted(s, x, i, r); var q := s.queues[x];
            |s1.queues| == |s.queues| && i < |Changed(q, i, r).reqs| &&
            Counted(s1, x, r) == s.(queues := s.queues[x := Changed(q, i, r).(reqs := Cut(q.reqs, i))])
  {
    hide Changed, Cut;
    ChangedCut(s.queues[x], i, r);
    var q1 := Changed(s.queues[x], i, r);
    var q2 := q1.(reqs := Cut(q1.reqs, i), syncs := q1.syncs - if r.sync then 1 else 0, asyncs := q1.asyncs - if r.sync then 0 else 1);
    assert s.queues[x := q2][x := q1.(reqs := Cut(q1.reqs, i))] == s.queues[x := q1.(reqs := Cut(q1.reqs, i))];
  }

  lemma LiftedCounted(s: State, x: nat, i: nat, r: Rq)
    requires Inv(s, x, DONE) && x < |s.queues| && i < |s.queues[x].reqs| && r.id == s.queues[x].reqs[i].id && r.sync == s.queues[x].reqs[i].sync
    ensures var s1 := Lifted(s, x, i, r);
            |s1.queues| == |s.queues| && InRange(s1.queues, s1.service) && Inv(Counted(s1, x, r), x, Pend(r, true, false)) &&
            Held(s1.queues) + multiset{s.queues[x].reqs[i]} == Held(s.queues) && s1.out == s.out && s1.active == s.active && s1.head == s.head
  {
    hide Inv, QueueOk, ServiceOk, Total, Held, Changed, Cut, Counted;
    Parts(s, x, DONE);
    LiftedQueue(s.queues[x], i, r);
    ChangedFields(s.queues[x], i, r);
    LiftedSums(s, x, i, r);
    LiftedBack(s, x, i, r);
    var s' := Counted(Lifted(s, x, i, r), x, r);
    ServiceFrame(s, s', x);
    OneQueue(s, s', x, DONE, Pend(r, true, false));
  }

  // A front merge; the request keeps its place in the fifo.
  lemma FrontKeeps(s: State, x: nat, i: nat, r: Rq, k: Key)
    requires Settled(s) && x < |s.queues| && i < |s.queues[x].reqs| && r.id == s.queues[x].reqs[i].id && r.sync == s.queues[x].reqs[i].sync
    ensures InRange(s.queues, s.service)
    ensures var s' := FrontMerged(s, x, i, r, k);
            Settled(s') && Held(s'.queues) + multiset(s'.out) + multiset{s.queues[x].reqs[i]} == Held(s.queues) + multiset(s.out) + multiset{r}
  {
    hide Inv, AddRqRb, Lifted, Held;
    AnyQueue(s, 0, x);
    Parts(s, x, DONE);
    LiftedCounted(s, x, i, r);
    var s1 := Lifted(s, x, i, r);
    AddKeeps(s1, x, r, k, true);
    var s' := FrontMerged(s, x, i, r, k);
    PlacedIs(s', x, r);
    AnyQueue(s', x, 0);
    var a := s.queues[x].reqs[i];
    Regroup(Held(s'.queues) + multiset(s'.out), Held(s1.queues), multiset{r}, multiset(s.out), multiset{a}, Held(s.queues));
  }

  lemma Regroup(a: multiset<Rq>, h1: multiset<Rq>, r: multiset<Rq>, out: multiset<Rq>, b: multiset<Rq>, h: multiset<Rq>)
    requires a == h1 + r + out && h1 + b == h
    ensures a + b == h + out + r
  {
  }

  // On its way no more
  lemma PlacedIs(s: State, x: nat, r: Rq)
    requires Inv(s, x, Pend(r, true, true))
    ensures Inv(s, x, DONE)
  {
    hide ServiceOk, Total, BySector, Unlike;
  }

  lemma {:induction false} BehindOne(fifo: seq<Rq>, r: Rq, next: Rq)
    ensures multiset(Behind(fifo, r, next)) == multiset(fifo) + multiset{r}
  {
    if fifo != [] {
      assert fifo == [fifo[0]] + fifo[1..];
      if fifo[0] != next { BehindOne(fifo[1..], r, next); }
    }
  }

  lemma MovedFifo(fifo: seq<Rq>, r: Rq, next: Rq)
    requires r in fifo
    ensures multiset(MoveBehind(fifo, r, next)) == multiset(fifo)
  {
    hide Without, Behind;
    WithoutOne(fifo, r);
    BehindOne(Without(fifo, r), r, next);
  }

  // The fifo may be in any order.
  lemma SameQueue(q: Queue, fifo: seq<Rq>)
    requires QueueOk(q, DONE) && multiset(fifo) == multiset(q.fifo)
    ensures QueueOk(q.(fifo := fifo), DONE)
  {
    hide BySector, Unlike, Syncs;
  }

  lemma MovedQueue(q: Queue, i: nat, next: Rq)
    requires QueueOk(q, DONE) && i < |q.reqs|
    ensures QueueOk(q.(fifo := MoveBehind(q.fifo, q.reqs[i], next)), DONE)
  {
    hide QueueOk, MoveBehind;
    var r := q.reqs[i];
    FifoDone(q);
    assert multiset(q.reqs)[r] > 0;
    assert multiset(q.fifo)[r] > 0;
    MovedFifo(q.fifo, r, next);
    SameQueue(q, MoveBehind(q.fifo, r, next));
  }

  // cfq_merged_requests
  lemma MergedKeeps(s: State, x: nat, i: nat, j: nat, older: bool)
    requires Settled(s) && x < |s.queues| && i < |s.queues[x].reqs| && j < |s.queues[x].reqs|
    ensures var s' := MergedRequests(s, x, i, j, older);
            Settled(s') && Held(s'.queues) + multiset{s.queues[x].reqs[j]} == Held(s.queues) && s'.queued == s.queued - 1 && s'.out == s.out
  {
    hide Inv, QueueOk, Total, Held, Remove, MoveBehind;
    AnyQueue(s, 0, x);
    Parts(s, x, DONE);
    var q := s.queues[x];
    var q1 := if older then q.(fifo := MoveBehind(q.fifo, q.reqs[i], q.reqs[j])) else q;
    MovedQueue(q, i, q.reqs[j]);
    var s1 := s.(queues := s.queues[x := q1]);
    ServiceFrame(s, s1, x);
    SameSums(s.queues, s1.queues);
    OneQueue(s, s1, x, DONE, DONE);
    RemoveKeeps(s1, x, j, DONE);
    AnyQueue(MergedRequests(s, x, i, j, older), x, 0);
  }

  // ---- the service tree ------------------------------------------------------------------------

  // Moves in the service tree leave the requests alone.
  lemma TreeMoves(s: State, s': State)
    requires Settled(s) && ServiceOk(s') && !s'.bug && |s'.queues| == |s.queues| && (s'.active.Some? ==> s'.active.x < |s.queues|)
    requires s'.queued == s.queued && forall y :: 0 <= y < |s.queues| ==> s'.queues[y] == s.queues[y].(key := s'.queues[y].key)
    ensures Settled(s') && Held(s'.queues) == Held(s.queues)
  {
    hide ServiceOk, QueueOk, Total, Held;
    SameSums(s.queues, s'.queues);
    forall y | 0 <= y < |s.queues| ensures QueueOk(s'.queues[y], DONE) { Rekeyed(s.queues[y], s'.queues[y], DONE); }
  }

  lemma ResortKeeps(s: State, x: nat, k: Key)
    requires Settled(s) && x < |s.queues|
    ensures InRange(s.queues, s.service)
    ensures var s' := Resort(s, x, k);
            Settled(s') && Held(s'.queues) == Held(s.queues) && s'.out == s.out && s'.queued == s.queued && s'.active == s.active &&
            |s'.queues| == |s.queues| && s'.busy == s.busy && s'.busyRt == s.busyRt && s'.head == s.head &&
            forall y :: 0 <= y < |s.queues| ==> s'.queues[y] == s.queues[y].(key := s'.queues[y].key)
  {
    hide ServiceOk, QueueOk, Total, Held, ServiceAdd;
    Parts(s, 0, DONE);
    ResortOk(s, x, k);
    AddedSame(s, x, k, false);
    TreeMoves(s, Resort(s, x, k));
  }

  lemma ExpireKeeps(s: State, k: Key)
    requires Settled(s)
    ensures InRange(s.queues, s.service) && (s.active.Some? ==> s.active.x < |s.queues|)
    ensures var s' := SliceExpired(s, k);
            Settled(s') && Held(s'.queues) == Held(s.queues) && s'.out == s.out && s'.queued == s.queued && s'.active == None &&
            |s'.queues| == |s.queues| && s'.busy == s.busy && s'.busyRt == s.busyRt && s'.head == s.head &&
            forall y :: 0 <= y < |s.queues| ==> s'.queues[y] == s.queues[y].(key := s'.queues[y].key)
  {
    hide ServiceOk, QueueOk, Total, Held, Resort;
    Parts(s, 0, DONE);
    if s.active.Some? {
      ResortKeeps(s, s.active.x, k);
      ActiveFrame(Resort(s, s.active.x, k), None);
    }
  }

  lemma ActiveFrame(s: State, a: Option)
    requires ServiceOk(s)
    ensures ServiceOk(s.(active := a))
  {
    hide CountRt;
  }

  // cfq_preempt_queue on a busy queue
  lemma PreemptKeeps(s: State, x: nat, was: Key, k: Key)
    requires Settled(s) && x < |s.queues| && s.queues[x].onRr
    ensures InRange(s.queues, s.service) && (s.active.Some? ==> s.active.x < |s.queues|)
    ensures var s' := Preempt(s, x, was, k);
            Settled(s') && Held(s'.queues) == Held(s.queues) && s'.out == s.out && s'.queued == s.queued && s'.active == None
  {
    hide Settled, ServiceOk, QueueOk, Total, Held, ServiceAdd, SliceExpired;
    ExpireKeeps(s, was);
    var s1 := SliceExpired(s, was);
    SettledParts(s1);
    var s2 := ServiceAdd(s1, x, k, true);
    AddedSame(s1, x, k, true);
    FrontOk(s1, x, k);
    TreeMoves(s1, s2);
    assert s1.(bug := s1.bug || !s1.queues[x].onRr) == s1;
  }

  lemma SettledParts(s: State)
    requires Settled(s)
    ensures ServiceOk(s) && !s.bug && (s.active.Some? ==> s.active.x < |s.queues|) && InRange(s.queues, s.service)
    ensures s.queued == Total(s.queues)
    ensures forall y :: 0 <= y < |s.queues| ==> QueueOk(s.queues[y], DONE)
  {
    Parts(s, 0, DONE);
  }

  lemma FrontOk(s: State, x: nat, k: Key)
    requires ServiceOk(s) && x < |s.queues| && s.queues[x].onRr
    ensures InRange(s.queues, s.service) && ServiceOk(ServiceAdd(s, x, k, true))
  {
    hide ServiceAdd, TreeOk, CountRt;
    TreeRange(s);
    AddedSame(s, x, k, true);
    ServiceAddOk(s, x, k, true);
  }

  lemma FirstKeeps(s: State)
    requires Settled(s)
    ensures Settled(First(s)) && First(s) == s.(left := First(s).left)
    ensures if s.busy == 0 then First(s).left == None else First(s).left.Some? && First(s).left.x in s.service
  {
    hide QueueOk, Total, TreeOk;
    SettledParts(s);
    FirstTree(s);
  }

  lemma FirstTree(s: State)
    requires ServiceOk(s)
    ensures ServiceOk(First(s)) && (s.busy == 0 <==> s.service == [])
    ensures if s.service == [] then First(s).left == None else First(s).left == Some(s.service[0])
  {
    hide CountRt;
  }

  // ---- who is served next ----------------------------------------------------------------------

  // A queue that preempts is not always the one selected next: only if no other has the better class,
  // or its class and a key as small. An idle queue gets the key that puts it last.
  lemma PreemptFirstIff(s: State, x: nat, was: Key, k: Key)
    requires Settled(s) && x < |s.queues| && s.queues[x].onRr
    ensures InRange(s.queues, s.service) && (s.active.Some? ==> s.active.x < |s.queues|)
    ensures var s1 := SliceExpired(s, was); x < |s1.queues| && InRange(s1.queues, s1.service)
    ensures var s1 := SliceExpired(s, was);
            SetActive(Preempt(s, x, was, k)).active == Some(x) <==> ComesFirst(s1, x, NewKey(s1, x, k, true))
  {
    hide Settled, ServiceOk, QueueOk, Total, Held, ServiceAdd, SliceExpired, ComesFirst, NewKey;
    ExpireKeeps(s, was);
    var s1 := SliceExpired(s, was);
    SettledParts(s1);
    assert s1.(bug := s1.bug || !s1.queues[x].onRr) == s1;
    ServiceAddFirst(s1, x, k, true);
    FrontOk(s1, x, k);
    Chosen(ServiceAdd(s1, x, k, true));
  }

  // The queue that becomes active
  lemma Chosen(s: State)
    requires ServiceOk(s)
    ensures SetActive(s).active == First(s).left
  {
    hide CountRt, Sorted, Distinct;
  }

  // In the tree, and nobody is ahead
  predicate Foremost(s: State, x: nat) {
    x < |s.queues| && s.queues[x].onRr && forall y :: y in s.service ==> y < |s.queues| && !Ahead(s.queues[y], s.queues[x])
  }

  lemma SetActiveKeeps(s: State)
    requires Settled(s)
    ensures var s' := SetActive(s);
            Settled(s') && s' == s.(left := s'.left, active := s'.active) && (if s.busy == 0 then s'.active == None else s'.active.Some?)
    ensures var a := SetActive(s).active; a.Some? ==> Foremost(s, a.x)
  {
    hide Less, QueueOk, Total, TreeOk, CountRt;
    SettledParts(s);
    FirstKeeps(s);
    FirstTree(s);
    ActiveFrame(First(s), First(s).left);
    if s.busy > 0 { FirstIsMin(s); }
    assert Settled(SetActive(s));
  }

  lemma BusyHas(s: State, x: nat)
    requires Settled(s) && x < |s.queues|
    ensures s.queues[x].reqs != [] <==> s.queues[x].onRr
  {
    hide ReqsOk, ServiceOk, Total;
    SettledParts(s);
    assert QueueOk(s.queues[x], DONE);
  }

  // The active queue may go on.
  predicate GoesOn(s: State, used: bool) {
    s.active.Some? && s.active.x < |s.queues| && !used && (s.queues[s.active.x].rt || s.busyRt == 0)
  }

  predicate Waits(s: State, timer: bool, window: bool)
    requires s.active.Some? && s.active.x < |s.queues|
  {
    var q := s.queues[s.active.x];
    q.reqs == [] && (timer || (q.dispatched != 0 && window))
  }

  // cfq_select_queue: the active queue with requests, if it may go on, or else the foremost one. There is
  // none when there are no requests or the active queue waits for one.
  lemma SelectKeeps(s: State, used: bool, timer: bool, window: bool, k: Key)
    requires Settled(s)
    ensures InRange(s.queues, s.service) && (s.active.Some? ==> s.active.x < |s.queues|)
    ensures var (s', r) := Select(s, used, timer, window, k);
            Settled(s') && Held(s'.queues) == Held(s.queues) && s'.out == s.out && s'.queued == s.queued && |s'.queues| == |s.queues| &&
            s'.busy == s.busy && s'.busyRt == s.busyRt && s'.head == s.head && s'.syncFlight == s.syncFlight &&
            forall y :: 0 <= y < |s.queues| ==> s'.queues[y] == s.queues[y].(key := s'.queues[y].key)
    ensures var (s', r) := Select(s, used, timer, window, k);
            if r.Some? then
              r == s'.active && r.x < |s'.queues| && s'.queues[r.x].reqs != [] && (Foremost(s', r.x) || (GoesOn(s, used) && s' == s))
            else
              s.busy == 0 || (GoesOn(s, used) && s' == s && Waits(s, timer, window))
  {
    hide Settled, SliceExpired, SetActive, Foremost, Held;
    SettledParts(s);
    FreshKeeps(s, k);
  }

  // Another queue is chosen.
  lemma FreshKeeps(s: State, k: Key)
    requires Settled(s) && Sound(s)
    ensures InRange(SliceExpired(s, k).queues, SliceExpired(s, k).service)
    ensures var s' := SetActive(SliceExpired(s, k));
            Settled(s') && Held(s'.queues) == Held(s.queues) && s'.out == s.out && s'.queued == s.queued && |s'.queues| == |s.queues| &&
            s'.busy == s.busy && s'.busyRt == s.busyRt && s'.head == s.head && s'.syncFlight == s.syncFlight &&
            forall y :: 0 <= y < |s.queues| ==> s'.queues[y] == s.queues[y].(key := s'.queues[y].key)
    ensures var s' := SetActive(SliceExpired(s, k)); var a := s'.active;
            if a.Some? then a.x < |s'.queues| && s'.queues[a.x].reqs != [] && Foremost(s', a.x) else s.busy == 0
  {
    hide Settled, SliceExpired, SetActive, Foremost, Held;
    ExpireKeeps(s, k);
    ExpireFlight(s, k);
    var t := SliceExpired(s, k);
    SettledParts(t);
    SetActiveKeeps(t);
    var u := SetActive(t);
    if u.active.Some? { ForemostBusy(t, u, u.active.x); }
  }

  lemma ForemostBusy(t: State, u: State, x: nat)
    requires Settled(t) && Foremost(t, x) && u == t.(left := u.left, active := u.active)
    ensures Foremost(u, x) && x < |u.queues| && u.queues[x].reqs != []
  {
    hide Settled, Less;
    BusyHas(t, x);
  }

  lemma ExpireFlight(s: State, k: Key)
    requires InRange(s.queues, s.service) && (s.active.Some? ==> s.active.x < |s.queues|)
    ensures SliceExpired(s, k).syncFlight == s.syncFlight
  {
    hide ServiceAdd;
    if s.active.Some? { AddedSame(s, s.active.x, k, false); }
  }

  lemma {:induction false} SomeRt(queues: seq<Queue>, service: seq<nat>) returns (x: nat)
    requires InRange(queues, service) && CountRt(queues, service) > 0
    ensures x in service && x < |queues| && queues[x].rt
  {
    if queues[service[0]].rt { x := service[0]; } else { x := SomeRt(queues, service[1..]); }
  }

  lemma RtBusy(s: State)
    requires ServiceOk(s)
    ensures InRange(s.queues, s.service) && s.busyRt == CountRt(s.queues, s.service) && (s.busy == 0 ==> s.busyRt == 0)
  {
    hide Sorted, Distinct;
  }

  lemma ForemostRt(s: State, x: nat)
    requires ServiceOk(s) && s.busyRt != 0 && Foremost(s, x)
    ensures s.queues[x].rt
  {
    hide ServiceOk;
    RtBusy(s);
    var y := SomeRt(s.queues, s.service);
  }

  // While a real-time queue is busy no other is selected or waited for.
  lemma RealTimeFirst(s: State, used: bool, timer: bool, window: bool, k: Key)
    requires Settled(s) && s.busyRt != 0
    ensures InRange(s.queues, s.service) && (s.active.Some? ==> s.active.x < |s.queues|)
    ensures var (s', r) := Select(s, used, timer, window, k);
            if r.Some? then r.x < |s.queues| && s.queues[r.x].rt else s.active.Some? && s.active.x < |s.queues| && s.queues[s.active.x].rt
  {
    hide Settled, Select, Held, CountRt;
    SelectKeeps(s, used, timer, window, k);
    var (s', r) := Select(s, used, timer, window, k);
    SettledParts(s);
    SettledParts(s');
    RtBusy(s);
    if r.Some? && Foremost(s', r.x) { ForemostRt(s', r.x); }
  }

  // ---- arriving and coming back ----------------------------------------------------------------

  lemma InsertedBusy(s: State, x: nat, r: Rq, k: Key)
    requires Settled(s) && x < |s.queues| && New(s.queues[x], r)
    ensures InRange(s.queues, s.service)
    ensures var s' := InsertRequest(s, x, r, k);
            Settled(s') && |s'.queues| == |s.queues| && s'.queues[x].onRr && s'.active == s.active &&
            Held(s'.queues) + multiset(s'.out) == Held(s.queues) + multiset{r} + multiset(s.out)
  {
    hide Settled, InsertRequest, Held;
    SettledParts(s);
    InsertKeeps(s, x, r, k);
    InsertedInRange(s, x, r, k);
    FifoHas(s, x, r, k);
    var s' := InsertRequest(s, x, r, k);
    SettledParts(s');
    FifoDone(s'.queues[x]);
    assert r in multiset(s'.queues[x].fifo);
    BusyHas(s', x);
  }

  lemma FifoHas(s: State, x: nat, r: Rq, k: Key)
    requires InRange(s.queues, s.service) && x < |s.queues|
    ensures var s' := InsertRequest(s, x, r, k); x < |s'.queues| && r in s'.queues[x].fifo
  {
    hide PushAlias, Settle;
    PushedInRange(Counted(s, x, r), x, r.sector);
    PlacedInRange(PushAlias(Counted(s, x, r), x, r.sector), x, r, k);
    var f := AddRqRb(s, x, r, k).queues[x].fifo;
    assert (f + [r])[|f|] == r;
  }

  // cfq_insert_request: whether or not the queue preempts, nothing else changes.
  lemma EnqueueKeeps(s: State, x: nat, r: Rq, used: bool, close: bool, k: Keys)
    requires Settled(s) && x < |s.queues| && New(s.queues[x], r)
    ensures InRange(s.queues, s.service) && (s.active.Some? ==> s.active.x < |s.queues|)
    ensures var s' := Enqueue(s, x, r, used, close, k);
            Settled(s') && Held(s'.queues) + multiset(s'.out) == Held(s.queues) + multiset{r} + multiset(s.out)
  {
    hide Settled, InsertRequest, Preempt, ShouldPreempt, Held, New;
    SettledParts(s);
    InsertedBusy(s, x, r, k.add);
    PreemptKeeps(InsertRequest(s, x, r, k.add), x, k.was, k.front);
  }

  lemma ReturnedKeeps(s: State, x: nat)
    requires Settled(s) && x < |s.queues|
    ensures var s' := Returned(s, x);
            Settled(s') && Held(s'.queues) == Held(s.queues) && s' == s.(queues := s'.queues, syncFlight := s'.syncFlight) &&
            |s'.queues| == |s.queues|
  {
    hide Inv, QueueOk, ServiceOk, Total, Held;
    AnyQueue(s, 0, x);
    Parts(s, x, DONE);
    var s' := Returned(s, x);
    InFlight(s.queues[x], s'.queues[x], DONE);
    ServiceFrame(s, s', x);
    SameSums(s.queues, s'.queues);
    OneQueue(s, s', x, DONE, DONE);
    AnyQueue(s', x, 0);
  }

  // cfq_completed_request
  lemma CompletedKeeps(s: State, x: nat, used: bool, k: Key)
    requires Settled(s) && x < |s.queues|
    ensures InRange(s.queues, s.service)
    ensures var s' := Completed(s, x, used, k);
            Settled(s') && Held(s'.queues) == Held(s.queues) && s'.out == s.out && s'.queued == s.queued
  {
    hide Settled, Returned, Held, SliceExpired;
    SettledParts(s);
    ReturnedKeeps(s, x);
    ExpireKeeps(Returned(s, x), k);
  }

  // ---- a queue without requests ----------------------------------------------------------------

  lemma {:induction false} TotalMore(queues: seq<Queue>, q: Queue)
    ensures Total(queues + [q]) == Total(queues) + |q.reqs|
  {
    if queues == [] {
      assert [q][1..] == [] && queues + [q] == [q];
    } else {
      assert (queues + [q])[1..] == queues[1..] + [q];
      TotalMore(queues[1..], q);
    }
  }

  lemma EmptyService(s: State, t: State, q: Queue)
    requires ServiceOk(s) && !q.onRr && t == s.(queues := s.queues + [q])
    ensures ServiceOk(t)
  {
    hide CountRt;
    CountFrame(s.queues, t.queues, s.service);
    assert forall y :: y in s.service ==> y < |s.queues|;
  }

  lemma EmptyKeeps(s: State, t: State, rt: bool, idle: bool, sync: bool)
    requires Settled(s) && t == s.(queues := s.queues + [Empty(rt, idle, sync)])
    ensures Settled(t)
  {
    hide ServiceOk, Total;
    SettledParts(s);
    EmptyService(s, t, Empty(rt, idle, sync));
    TotalMore(s.queues, Empty(rt, idle, sync));
  }
}
