/**
 * Completing stages of an ordered sequence, and starting one.
 */
module BarrierSequence {
  import opened BarrierModel
  import opened BarrierInvariant

  lemma LogAppend(subs: seq<Sub>, m: Mode, log: seq<Event>, e: Event)
    requires LogOk(subs, m, log) && EventOk(subs, m, log, e)
    ensures LogOk(subs, m, log + [e])
  {
    var log1 := log + [e];
    forall i | 0 <= i < |log1| ensures EventOk(subs, m, log1[..i], log1[i]) {
      if i < |log| { assert log1[..i] == log[..i]; } else { assert log1[..i] == log; }
    }
  }

  lemma EndedAppend(log: seq<Event>, e: Event)
    ensures forall id :: Ended(log + [e], id) <==> Ended(log, id) || (e.End? && e.id == id)
  {
    forall id ensures Ended(log + [e], id) <==> Ended(log, id) || (e.End? && e.id == id) {
      if Ended(log, id) {
        var x :| x in log && x.End? && x.id == id;
        assert x in log + [e];
      }
      if e.End? && e.id == id { assert e in log + [e]; }
    }
  }

  lemma FirstErrorAppend(log: seq<Event>, e: Event, id: nat)
    ensures FirstError(log + [e], id) ==
            FirstNonZero(FirstError(log, id), if e.StageError? && e.id == id then e.error else 0)
  {
    assert (log + [e])[..|log|] == log;
  }

  // Recording an allowed event keeps the history in order.
  lemma HistoryAppend(q: Queue, q': Queue, e: Event)
    requires HistoryOk(q) && EventOk(q.subs, q.nextMode, q.log, e)
    requires q'.log == q.log + [e] && q'.subs == q.subs && q'.nextMode == q.nextMode
    requires q'.ordseq == q.ordseq && q'.orig == q.orig && q'.taken == q.taken
    requires q.subs[e.id].barrier && !e.Issue? ==> EpochAt(q.subs, e.id) < q.taken
    ensures HistoryOk(q')
    ensures forall id :: Ended(q'.log, id) <==> Ended(q.log, id) || (e.End? && e.id == id)
    ensures FirstError(q'.log, q.orig.id) ==
            FirstNonZero(FirstError(q.log, q.orig.id), if e.StageError? && e.id == q.orig.id then e.error else 0)
  {
    EndedAppend(q.log, e);
    FirstErrorAppend(q.log, e, q.orig.id);
    HistoryExtends(q, q', e);
  }

  lemma EventId(subs: seq<Sub>, m: Mode, log: seq<Event>, e: Event)
    requires EventOk(subs, m, log, e)
    ensures e.id < |subs|
  {
  }

  lemma HistoryExtends(q: Queue, q': Queue, e: Event)
    requires HistoryOk(q) && EventOk(q.subs, q.nextMode, q.log, e)
    requires q'.log == q.log + [e] && q'.subs == q.subs && q'.nextMode == q.nextMode
    requires q'.ordseq == q.ordseq && q'.orig == q.orig && q'.taken == q.taken
    requires q.subs[e.id].barrier && !e.Issue? ==> EpochAt(q.subs, e.id) < q.taken
    ensures HistoryOk(q')
  {
    hide EventOk, LogOk, BitOf, HasStage;
    EventId(q.subs, q.nextMode, q.log, e);
    LogAppend(q.subs, q.nextMode, q.log, e);
  }

  lemma EndedBefore(q: Queue)
    requires ListsOk(q) && OrigOk(q) && Conserved(q) && Active(q) && q.ordseq.drain && q.taken <= q.epoch
    ensures AllEndedBefore(q.subs, q.log, q.orig.id) && !Ended(q.log, q.orig.id)
  {
    assert Live(q, q.orig.id);
    forall a | 0 <= a < q.orig.id && q.subs[a].fs ensures Ended(q.log, a) {
      EpochMono(q.subs, a, q.orig.id);
      assert !Held(q, Original, a);
    }
  }

  lemma EndOriginalLists(q: Queue)
    requires ListsOk(q) && q.ordseq == OrdSeq(true, true, true, true, true) && OrigOk(q)
    ensures ListsOk(EndOriginal(q))
  {
    var q' := EndOriginal(q);
    forall r | r in q.head ensures HeadOk(q', r) { assert HeadOk(q, r); }
    forall r | r in q.driver ensures DriverOk(q', r) { assert DriverOk(q, r); }
    forall r | r in q.sorted ensures SortedOk(q', r) { assert SortedOk(q, r); }
  }

  lemma EndOriginalConserves(q: Queue)
    requires Apart(q) && Active(q) && Conserved(q) && q.orig.role == Original
    ensures Conserved(EndOriginal(q))
  {
    var q' := EndOriginal(q);
    EndedAppend(q.log, End(q.orig.id, q.orderr));
    forall a | 0 <= a < |q.subs| ensures Live(q', a) <==> !Ended(q'.log, a) {
      assert Held(q', Original, a) == Held(q, Original, a);
    }
  }

  // The sequence is over: the barrier ends and the queue is idle again.
  lemma EndOriginalKeeps(q: Queue)
    requires ConfigOk(q.(ordseq := OrdSeq(true, false, false, false, false))) && ListsOk(q) && Conserved(q)
    requires Staged(q, {}) && HistoryOk(q) && ErrorOk(q) && q.inFlight == |AccountedIn(q.driver)|
    requires q.ordseq == OrdSeq(true, true, true, true, true)
    ensures Core(EndOriginal(q), {}) && Awake(EndOriginal(q))
  {
    hide ListsOk, Conserved, Held, Ended;
    assert OrigOk(q) && Known(q, q.orig);
    EndedBefore(q);
    EndOriginalLists(q);
    ApartOf(q);
    EndOriginalConserves(q);
    LogAppend(q.subs, q.nextMode, q.log, End(q.orig.id, q.orderr));
    assert EndOriginal(q).log == q.log + [End(q.orig.id, q.orderr)];
  }

  lemma ApartOf(q: Queue)
    requires ListsOk(q)
    ensures Apart(q)
  {
  }

  predicate NoneStarted(q: Queue) {
    (forall r :: r in q.head && r.role != Original ==> !r.started) &&
    (forall r :: r in q.driver ==> r.role == Original)
  }

  predicate NoneDraining(q: Queue) {
    (forall r :: r in q.head && r.role == Original && r.kind == Fs ==> r.epoch != Base(q)) &&
    (forall r :: r in q.driver && r.role == Original && r.kind == Fs ==> r.epoch != Base(q))
  }

  function SetBits(q: Queue, mask: OrdSeq, error: int): Queue {
    q.(orderr := FirstNonZero(q.orderr, error), ordseq := Or(q.ordseq, mask))
  }

  lemma SetBitsLists(q: Queue, mask: OrdSeq, error: int, gap: set<Role>)
    requires ListsOk(q) && Staged(q, gap) && Active(q) && q.ordseq.started && NoneStarted(q)
    requires forall role :: role != Original ==> (role in gap <==> BitOf(mask, role))
    requires mask.drain ==> NoneDraining(q)
    ensures ListsOk(SetBits(q, mask, error))
  {
    var q1 := SetBits(q, mask, error);
    forall r | r in q.head ensures HeadOk(q1, r) {
      assert HeadOk(q, r);
      if r.role != Original { assert Held(q, r.role, q.orig.id); }
    }
    forall r | r in q.driver ensures DriverOk(q1, r) { assert DriverOk(q, r); }
    forall r | r in q.sorted ensures SortedOk(q1, r) { assert SortedOk(q, r); }
  }

  lemma SameHolding(q: Queue, q': Queue)
    requires q'.head == q.head && q'.driver == q.driver && q'.sorted == q.sorted
    requires q'.orig == q.orig && (Active(q) <==> Active(q')) && q'.subs == q.subs
    ensures forall role, id :: Held(q', role, id) == Held(q, role, id)
    ensures q'.log == q.log && Conserved(q) ==> Conserved(q')
  {
    forall role, id ensures Held(q', role, id) == Held(q, role, id) {}
    if q'.log == q.log && Conserved(q) {
      forall a | 0 <= a < |q.subs| ensures Live(q', a) <==> !Ended(q'.log, a) {
        assert Live(q', a) == Live(q, a);
      }
    }
  }

  lemma SetBitsStages(q: Queue, mask: OrdSeq, error: int, gap: set<Role>)
    requires Staged(q, gap) && Active(q)
    requires forall role :: role != Original ==> (role in gap <==> BitOf(mask, role))
    requires forall role, id :: Held(SetBits(q, mask, error), role, id) == Held(q, role, id)
    ensures Staged(SetBits(q, mask, error), {})
  {
    var q1 := SetBits(q, mask, error);
    forall role | role != Original && !BitOf(q1.ordseq, role) ensures Held(q1, role, q.orig.id) {
      assert !BitOf(q.ordseq, role) && role !in gap;
    }
  }

  lemma SetBitsHistory(q: Queue, mask: OrdSeq, error: int)
    requires HistoryOk(q) && Active(q)
    requires forall role :: HasStage(q.nextMode, q.orig.empty, role) && BitOf(mask, role) ==>
               StageDone(role, q.orig.id) in q.log
    ensures HistoryOk(SetBits(q, mask, error))
  {
    forall role | HasStage(q.nextMode, q.orig.empty, role) && BitOf(SetBits(q, mask, error).ordseq, role)
      ensures StageDone(role, q.orig.id) in q.log
    {
      assert BitOf(q.ordseq, role) || BitOf(mask, role);
    }
  }

  // The stages in `mask` may be completed: their proxies are gone and the log shows their end.
  ghost predicate MayComplete(q: Queue, mask: OrdSeq, error: int, gap: set<Role>) {
    Core(q, gap) && Active(q) && NoneStarted(q) && !Overlap(q.ordseq, mask) && !mask.started &&
    (forall role :: role != Original ==> (role in gap <==> BitOf(mask, role))) &&
    (mask.drain ==> NoneDraining(q)) &&
    (forall role :: HasStage(q.nextMode, q.orig.empty, role) && BitOf(mask, role) ==>
       StageDone(role, q.orig.id) in q.log) &&
    FirstNonZero(q.orderr, error) == FirstError(q.log, q.orig.id)
  }

  ghost predicate Completed(q: Queue, done: bool) {
    Core(q, {}) && ErrorOk(q) && done == !Active(q) && (done ==> Awake(q))
  }

  lemma CompleteSeqKeeps(q: Queue, mask: OrdSeq, error: int, gap: set<Role>)
    requires MayComplete(q, mask, error, gap)
    ensures Completed(CompleteSeq(q, mask, error).0, CompleteSeq(q, mask, error).1)
  {
    var q1 := SetBits(q, mask, error);
    SetBitsLists(q, mask, error, gap);
    SameHolding(q, q1);
    SetBitsStages(q, mask, error, gap);
    SetBitsHistory(q, mask, error);
    if CurSeq(q1.ordseq) == SEQ_DONE {
      EndOriginalKeeps(q1);
    }
  }
}
