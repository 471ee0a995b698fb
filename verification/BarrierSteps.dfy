/**
 * Every other entry point keeps the invariant: marking started, dequeueing, completing,
 * requeueing, dispatching from the scheduler and adding a request.
 */
module BarrierSteps {
  import opened BarrierModel
  import opened BarrierInvariant
  import opened BarrierSequence
  import opened BarrierFetch

  lemma InsertInOrder(head: seq<Request>, pos: nat, x: Request)
    requires InOrder(head) && pos <= |head|
    requires forall j :: 0 <= j < pos ==> Before(head[j], x)
    requires forall j :: pos <= j < |head| ==> Before(x, head[j])
    ensures InOrder(InsertAt(head, pos, x))
    ensures forall r :: r in InsertAt(head, pos, x) <==> r in head || r == x
  {
    var s := InsertAt(head, pos, x);
    forall i, j | 0 <= i < j < |s| ensures Before(s[i], s[j]) {
      if i < pos {
        if j > pos { assert Before(head[i], head[j - 1]); }
      } else if i > pos {
        assert Before(head[i - 1], head[j - 1]);
      }
    }
    assert head == head[..pos] + head[pos..];
  }

  lemma RemoveInOrder(head: seq<Request>, i: nat)
    requires InOrder(head) && i < |head|
    ensures InOrder(head[..i] + head[i + 1..])
    ensures forall r :: r in head <==> r in head[..i] + head[i + 1..] || r == head[i]
    ensures forall r :: r in head[..i] + head[i + 1..] ==> !Same(r, head[i])
  {
    var s := head[..i] + head[i + 1..];
    forall a, b | 0 <= a < b < |s| ensures Before(s[a], s[b]) {
      assert Before(head[if a < i then a else a + 1], head[if b < i then b else b + 1]);
    }
    forall r | r in s ensures !Same(r, head[i]) {
      var a :| 0 <= a < |s| && s[a] == r;
      if a < i { assert Before(head[a], head[i]); } else { assert Before(head[i], head[a + 1]); }
    }
    assert head == head[..i] + [head[i]] + head[i + 1..];
  }

  lemma AccountedAdd(s: set<Request>, r: Request)
    requires r !in s
    ensures |AccountedIn(s + {r})| == |AccountedIn(s)| + Weight(r)
  {
    if Accounted(r) {
      assert AccountedIn(s + {r}) == AccountedIn(s) + {r};
    } else {
      assert AccountedIn(s + {r}) == AccountedIn(s);
    }
  }

  lemma AccountedDrop(s: set<Request>, r: Request)
    requires r in s
    ensures |AccountedIn(s - {r})| == |AccountedIn(s)| - Weight(r)
  {
    assert s == (s - {r}) + {r};
    AccountedAdd(s - {r}, r);
  }

  // ---- marking started -------------------------------------------------------------------

  lemma IssueOk(q: Queue)
    requires Core(q, {}) && q.head != [] && Ready(q, q.head[0])
    ensures EventOk(q.subs, q.nextMode, q.log, Issue(q.head[0].role, q.head[0].id))
  {
    var r := q.head[0];
    assert HeadOk(q, r);
    if r.role != Original {
      EndedBefore(q);
      assert Live(q, r.id);
    } else if r.kind == Fs {
      forall b | 0 <= b < r.id && q.subs[b].barrier ensures Ended(q.log, b) {
        EpochMono(q.subs, b, r.id);
        if !Ended(q.log, b) {
          BarrierPlace(q, b);
        }
      }
    }
  }

  // A barrier that has not ended is the stashed one, or it was not taken yet.
  lemma BarrierPlace(q: Queue, b: nat)
    requires Core(q, {}) && b < |q.subs| && q.subs[b].barrier && !Ended(q.log, b)
    ensures EpochAt(q.subs, b) >= Base(q)
  {
    if EpochAt(q.subs, b) < Base(q) {
      assert Live(q, b);
      forall r | r in q.head ensures !(r.role == Original && r.id == b) { assert HeadOk(q, r); }
      forall r | r in q.driver ensures !(r.role == Original && r.id == b) { assert DriverOk(q, r); }
      forall r | r in q.sorted ensures !(r.role == Original && r.id == b) { assert SortedOk(q, r); }
    }
  }

  lemma MarkElements(q: Queue)
    requires ListsOk(q) && q.head != [] && Ready(q, q.head[0]) && !q.head[0].started
    ensures var q' := MarkStarted(q);
      (forall r :: r in q'.head ==> HeadOk(q', r)) && (forall r :: r in q'.driver ==> DriverOk(q', r)) &&
      (forall r :: r in q'.sorted ==> SortedOk(q', r))
  {
    hide Apart, InOrder;
    var q' := MarkStarted(q);
    assert HeadOk(q, q.head[0]);
    forall x | x in q'.head ensures HeadOk(q', x) {
      if x in q.head[1..] { assert HeadOk(q, x); }
    }
    forall x | x in q.driver ensures DriverOk(q', x) { assert DriverOk(q, x); }
    forall x | x in q.sorted ensures SortedOk(q', x) { assert SortedOk(q, x); }
  }

  lemma MarkOrder(q: Queue)
    requires InOrder(q.head) && q.head != [] && !q.head[0].started
    ensures InOrder(MarkStarted(q).head)
  {
    var q' := MarkStarted(q);
    forall i, j | 0 <= i < j < |q'.head| ensures Before(q'.head[i], q'.head[j]) {
      assert Before(q.head[i], q.head[j]);
    }
  }

  // Marking changes nothing that tells requests apart.
  lemma MarkApart(q: Queue)
    requires q.head != [] && Apart(q) && !q.head[0].started
    ensures Apart(MarkStarted(q))
  {
    var h := q.head[0];
    var q' := MarkStarted(q);
    assert h in q.head;
    forall x | x in q'.head
      ensures (forall s :: s in q.driver || s in q.sorted ==> !Same(x, s)) && (Active(q) ==> !Same(x, q.orig))
    {
      var y := if x in q.head[1..] then x else h;
      assert y in q.head && Same(x, y);
    }
  }

  lemma MarkHolding(q: Queue)
    requires q.head != [] && !q.head[0].started
    ensures forall role, id :: Held(MarkStarted(q), role, id) == Held(q, role, id)
  {
    var r := q.head[0];
    var q' := MarkStarted(q);
    assert forall x :: x in q.head <==> x == r || x in q.head[1..];
    assert forall x :: x in q'.head <==> x == r.(started := true) || x in q.head[1..];
    forall role, id ensures Held(q', role, id) == Held(q, role, id) {
      if r.role == role && r.id == id { assert r.(started := true) in q'.head; }
    }
  }

  lemma MarkStartedKeeps(q: Queue)
    requires Inv(q) && q.head != [] && Ready(q, q.head[0])
    ensures Inv(MarkStarted(q))
  {
    hide HistoryOk, Conserved, Staged;
    var r := q.head[0];
    if !r.started {
      var q' := MarkStarted(q);
      MarkElements(q);
      MarkOrder(q);
      MarkApart(q);
      assert ListsOk(q');
      MarkHolding(q);
      IssueOk(q);
      HistoryAppend(q, q', Issue(r.role, r.id));
      ConservedBy(q, q');
      SameStages(q, q');
      assert ReqSeq(q', q'.head[0]) == ReqSeq(q, r);
    }
  }

  lemma FetchKeeps(q: Queue)
    requires Inv(q)
    ensures Inv(Fetch(q))
  {
    PeekKeeps(q);
    var (q1, rq) := Peek(q);
    if rq != [] && q1.head != [] { MarkStartedKeeps(q1); }
  }

  // ---- dequeueing -------------------------------------------------------------------------

  lemma DequeueElements(q: Queue, i: nat)
    requires ListsOk(q) && i < |q.head| && q.head[i].started
    ensures var q' := Dequeue(q, i);
            (forall x :: x in q'.head ==> HeadOk(q', x)) && (forall x :: x in q'.driver ==> DriverOk(q', x)) &&
            (forall x :: x in q.sorted ==> SortedOk(q', x))
  {
    hide Apart, InOrder;
    var r := q.head[i];
    var q' := Dequeue(q, i);
    assert HeadOk(q, r);
    forall x | x in q'.head ensures HeadOk(q', x) { assert HeadOk(q, x); }
    forall x | x in q'.driver ensures DriverOk(q', x) { if x != r { assert DriverOk(q, x); } }
    forall x | x in q.sorted ensures SortedOk(q', x) { assert SortedOk(q, x); }
  }

  lemma DequeueApart(q: Queue, i: nat)
    requires Apart(q) && InOrder(q.head) && i < |q.head|
    ensures Apart(Dequeue(q, i)) && InOrder(Dequeue(q, i).head) && q.head[i] !in q.driver
  {
    RemoveInOrder(q.head, i);
    assert q.head[i] in q.head;
  }

  lemma DequeueHolding(q: Queue, i: nat)
    requires i < |q.head|
    ensures forall role, id :: Held(Dequeue(q, i), role, id) == Held(q, role, id)
  {
    var r := q.head[i];
    var q' := Dequeue(q, i);
    assert r in q.head && r in q'.driver;
    assert forall x :: x in q.head <==> x == r || x in q'.head;
  }

  lemma DequeueLists(q: Queue, i: nat)
    requires ListsOk(q) && i < |q.head| && q.head[i].started
    ensures ListsOk(Dequeue(q, i)) && q.head[i] !in q.driver
    ensures forall role, id :: Held(Dequeue(q, i), role, id) == Held(q, role, id)
  {
    hide Held, HeadOk, DriverOk, SortedOk, Apart, InOrder;
    DequeueElements(q, i);
    DequeueApart(q, i);
    DequeueHolding(q, i);
  }

  lemma DequeueKeeps(q: Queue, i: nat)
    requires Inv(q) && i < |q.head| && q.head[i].started
    ensures Inv(Dequeue(q, i))
  {
    var q' := Dequeue(q, i);
    DequeueLists(q, i);
    AccountedAdd(q.driver, q.head[i]);
    ConservedBy(q, q');
    assert q.head[i] in q'.driver;
  }

  lemma ConservedBy(q: Queue, q': Queue)
    requires Conserved(q) && q'.subs == q.subs && q'.ordseq == q.ordseq && q'.orig == q.orig
    requires forall role, id :: Held(q', role, id) == Held(q, role, id)
    requires forall id :: Ended(q'.log, id) == Ended(q.log, id)
    ensures Conserved(q')
  {
    forall id | 0 <= id < |q.subs| ensures Live(q', id) <==> !Ended(q'.log, id) {
      assert Live(q', id) == Live(q, id);
    }
  }

  // ---- completion -------------------------------------------------------------------------

  // The queue after the driver has given a request up, before the sequence is looked at.
  function GivenUp(q: Queue, r: Request, events: seq<Event>, orderr: int): Queue {
    q.(driver := q.driver - {r}, inFlight := q.inFlight - Weight(r), log := q.log + events, orderr := orderr)
  }

  lemma GivenUpLists(q: Queue, r: Request, events: seq<Event>, orderr: int)
    requires ListsOk(q) && r in q.driver
    requires forall e :: e in events && e.StageDone? ==> Same(StageRequest(e.role, q.orig), r)
    requires q.orig.id == r.id || forall e :: e in events ==> !e.StageDone?
    ensures ListsOk(GivenUp(q, r, events, orderr))
  {
    var q' := GivenUp(q, r, events, orderr);
    forall x | x in q.head ensures HeadOk(q', x) { assert HeadOk(q, x); }
    forall x | x in q'.driver ensures DriverOk(q', x) { assert DriverOk(q, x); }
    forall x | x in q.sorted ensures SortedOk(q', x) { assert SortedOk(q, x); }
  }

  lemma GivenUpHolding(q: Queue, r: Request, events: seq<Event>, orderr: int)
    requires Apart(q) && r in q.driver
    ensures forall role, id :: Held(GivenUp(q, r, events, orderr), role, id) <==>
                               Held(q, role, id) && !(role == r.role && id == r.id)
  {
    var q' := GivenUp(q, r, events, orderr);
    forall role, id ensures Held(q', role, id) <==> Held(q, role, id) && !(role == r.role && id == r.id) {
      if Held(q, role, id) && !(role == r.role && id == r.id) {
        if x :| x in q.driver && x.role == role && x.id == id { assert x in q'.driver; }
      }
    }
  }

  lemma DriverFacts(q: Queue, r: Request)
    requires ListsOk(q) && r in q.driver
    ensures DriverOk(q, r) && Apart(q)
  {
  }

  lemma EndConserves(q: Queue, r: Request, error: int)
    requires Conserved(q) && Apart(q) && r in q.driver && r.role == Original && (Active(q) ==> q.orig.id != r.id)
    requires forall id :: Ended(q.log + [End(r.id, error)], id) <==> Ended(q.log, id) || id == r.id
    ensures Conserved(GivenUp(q, r, [End(r.id, error)], q.orderr))
  {
    var q' := GivenUp(q, r, [End(r.id, error)], q.orderr);
    GivenUpHolding(q, r, [End(r.id, error)], q.orderr);
    forall id | 0 <= id < |q.subs| ensures Live(q', id) <==> !Ended(q'.log, id) {
      assert id != r.id ==> Live(q', id) == Live(q, id);
    }
  }

  lemma EndOk(q: Queue, r: Request, error: int)
    requires ListsOk(q) && Conserved(q) && r in q.driver && r.role == Original
    ensures EventOk(q.subs, q.nextMode, q.log, End(r.id, error)) && !q.subs[r.id].barrier
    ensures Active(q) ==> q.orig.id != r.id || q.orig.role != Original
  {
    assert DriverOk(q, r);
    assert Held(q, Original, r.id);
    assert Live(q, r.id);
  }

  lemma EndRequest(q: Queue, r: Request, error: int)
    requires Core(q, {}) && ErrorOk(q) && r in q.driver && r.role == Original
    ensures Core(GivenUp(q, r, [End(r.id, error)], q.orderr), {}) && ErrorOk(GivenUp(q, r, [End(r.id, error)], q.orderr))
  {
    hide ListsOk, HistoryOk, Conserved, Staged, Apart, Held, EventOk, Ended;
    DriverFacts(q, r);
    var e := End(r.id, error);
    var q' := GivenUp(q, r, [e], q.orderr);
    EndOk(q, r, error);
    GivenUpLists(q, r, [e], q.orderr);
    HistoryAppend(q, q', e);
    EndConserves(q, r, error);
    AccountedDrop(q.driver, r);
    GivenUpHolding(q, r, [e], q.orderr);
    SameStages(q, q');
  }

  lemma SameStages(q: Queue, q': Queue)
    requires Staged(q, {}) && q'.ordseq == q.ordseq && q'.orig == q.orig
    requires forall role, id :: role != Original ==> (Held(q', role, id) <==> Held(q, role, id))
    ensures Staged(q', {})
  {
  }

  // When the drain check succeeds, no request queued before the barrier is left anywhere.
  lemma DrainCheck(q: Queue)
    requires Core(q, {}) && Active(q) && CurSeq(q.ordseq) == SEQ_DRAIN && q.inFlight == 0
    requires q.head == [] || ReqSeq(q, q.head[0]) > SEQ_DRAIN
    requires ErrorOk(q)
    ensures MayComplete(q, StageBit(Original), 0, {})
  {
    NothingInFlight(q);
    forall x | x in q.head ensures (x.role != Original ==> !x.started) &&
                                   (x.role == Original && x.kind == Fs ==> x.epoch != Base(q)) {
      assert HeadOk(q, x);
      var h := q.head[0];
      assert HeadOk(q, h);
      if h.role == Original { OneColourBit(q, {}); EpochMono(q.subs, q.orig.id, h.id); }
      var j :| 0 <= j < |q.head| && q.head[j] == x;
      assert j > 0 ==> Before(h, q.head[j]);
    }
    forall x | x in q.driver ensures x.role == Original { assert DriverOk(q, x); }
  }

  // elv_completed_request once the request has been given up
  function Completed(q: Queue): Queue {
    var drained := Active(q) && q.inFlight == 0 && CurSeq(q.ordseq) == SEQ_DRAIN &&
                   (q.head == [] || ReqSeq(q, q.head[0]) > SEQ_DRAIN);
    if drained then CompleteSeq(q, StageBit(Original), 0).0 else q
  }

  lemma ElvCompletedKeeps(q: Queue)
    requires Core(q, {}) && ErrorOk(q)
    ensures Inv(Completed(q))
  {
    if Active(q) && CurSeq(q.ordseq) == SEQ_DRAIN {
      if q.inFlight != 0 {
        SomethingInFlight(q.driver);
      } else if q.head == [] || ReqSeq(q, q.head[0]) > SEQ_DRAIN {
        DrainCheck(q);
        CompleteSeqKeeps(q, StageBit(Original), 0, {});
      }
    }
  }

  lemma CompleteIs(q: Queue, r: Request, error: int)
    requires r.role == Original
    ensures Complete(q, r, error) == Completed(GivenUp(q, r, [End(r.id, error)], q.orderr))
  {
    hide CompleteSeq;
  }

  lemma InvParts(q: Queue)
    ensures Inv(q) ==> Core(q, {}) && ErrorOk(q)
  {
  }

  lemma CompleteOriginalKeeps(q: Queue, r: Request, error: int)
    requires Inv(q) && r in q.driver && r.role == Original
    ensures Inv(Complete(q, r, error))
  {
    hide *;
    InvParts(q);
    EndRequest(q, r, error);
    ElvCompletedKeeps(GivenUp(q, r, [End(r.id, error)], q.orderr));
    CompleteIs(q, r, error);
  }

  lemma StageEvents(q: Queue, r: Request, error: int, q': Queue)
    requires HistoryOk(q) && Active(q) && DriverOk(q, r) && r.role != Original && OrigOk(q)
    requires q'.log == q.log + [StageError(r.id, error), StageDone(r.role, r.id)]
    requires q'.subs == q.subs && q'.nextMode == q.nextMode
    requires q'.ordseq == q.ordseq && q'.orig == q.orig && q'.taken == q.taken
    ensures HistoryOk(q') && forall id :: Ended(q'.log, id) == Ended(q.log, id)
    ensures FirstError(q'.log, q.orig.id) == FirstNonZero(FirstError(q.log, q.orig.id), error)
  {
    hide HistoryOk, LogOk;
    var e1, e2 := StageError(r.id, error), StageDone(r.role, r.id);
    var q1 := q.(log := q.log + [e1]);
    HistoryAppend(q, q1, e1);
    assert q1.log + [e2] == q'.log;
    HistoryAppend(q1, q', e2);
  }

  lemma StageGivenUp(q: Queue, r: Request, error: int, orderr: int)
    requires ListsOk(q) && Active(q) && r in q.driver && r.role != Original && r.id == q.orig.id
    ensures var q' := GivenUp(q, r, [StageError(r.id, error), StageDone(r.role, r.id)], orderr);
            ListsOk(q') && NoneStarted(q')
  {
    var events := [StageError(r.id, error), StageDone(r.role, r.id)];
    var q' := GivenUp(q, r, events, orderr);
    assert DriverOk(q, r);
    GivenUpLists(q, r, events, orderr);
    forall x | x in q'.driver ensures x.role == Original { assert DriverOk(q, x); }
    forall x | x in q'.head && x.role != Original ensures !x.started { assert HeadOk(q, x); assert !Same(x, r); }
  }

  lemma EndStage(q: Queue, r: Request, error: int)
    requires Core(q, {}) && ErrorOk(q) && r in q.driver && r.role != Original
    ensures var orderr := if r.role == BarProxy then FirstNonZero(q.orderr, error) else q.orderr;
            var q' := GivenUp(q, r, [StageError(r.id, error), StageDone(r.role, r.id)], orderr);
            MayComplete(q', StageBit(r.role), error, {r.role})
  {
    hide ListsOk, HistoryOk, Conserved, Staged, Apart, NoneStarted, Held, EventOk, Ended;
    var orderr := if r.role == BarProxy then FirstNonZero(q.orderr, error) else q.orderr;
    var events := [StageError(r.id, error), StageDone(r.role, r.id)];
    var q' := GivenUp(q, r, events, orderr);
    DriverFacts(q, r);
    StageGivenUp(q, r, error, orderr);
    StageEvents(q, r, error, q');
    GivenUpHolding(q, r, events, orderr);
    EndStageStages(q, r, q');
    ConservedOriginals(q, q');
    AccountedDrop(q.driver, r);
    assert Core(q', {r.role});
    StageBitFits(r.role);
  }

  lemma StageBitFits(r: Role)
    requires r != Original
    ensures forall role :: role != Original ==> (role in {r} <==> BitOf(StageBit(r), role))
  {
  }

  lemma ConservedOriginals(q: Queue, q': Queue)
    requires Conserved(q) && q'.subs == q.subs && q'.ordseq == q.ordseq && q'.orig == q.orig
    requires forall id :: Held(q', Original, id) == Held(q, Original, id)
    requires forall id :: Ended(q'.log, id) == Ended(q.log, id)
    ensures Conserved(q')
  {
    forall id | 0 <= id < |q.subs| ensures Live(q', id) <==> !Ended(q'.log, id) {
      assert Live(q', id) == Live(q, id);
    }
  }

  lemma EndStageStages(q: Queue, r: Request, q': Queue)
    requires Staged(q, {}) && Active(q) && r in q.driver && r.role != Original && r.id == q.orig.id
    requires q'.ordseq == q.ordseq && q'.orig == q.orig
    requires forall role, id :: Held(q', role, id) <==> Held(q, role, id) && !(role == r.role && id == r.id)
    ensures Staged(q', {r.role})
  {
  }

  lemma CompleteStageKeeps(q: Queue, r: Request, error: int)
    requires Inv(q) && r in q.driver && r.role != Original
    ensures Inv(Complete(q, r, error))
  {
    assert DriverOk(q, r);
    var orderr := if r.role == BarProxy then FirstNonZero(q.orderr, error) else q.orderr;
    var q' := GivenUp(q, r, [StageError(r.id, error), StageDone(r.role, r.id)], orderr);
    EndStage(q, r, error);
    CompleteSeqKeeps(q', StageBit(r.role), error, {r.role});
    StageResult(q, r, error);
  }

  // A stage completes after the drain stage, so the drain check does nothing.
  lemma StageResult(q: Queue, r: Request, error: int)
    requires r.role != Original && Active(q) && CurSeq(q.ordseq) == StageSeq(r.role)
    ensures var orderr := if r.role == BarProxy then FirstNonZero(q.orderr, error) else q.orderr;
            var q' := GivenUp(q, r, [StageError(r.id, error), StageDone(r.role, r.id)], orderr);
            Complete(q, r, error) == CompleteSeq(q', StageBit(r.role), error).0
    ensures Active(Complete(q, r, error)) ==> Complete(q, r, error).ordseq.drain
  {
  }

  lemma LogOnlyLists(q: Queue, q': Queue, e: Event)
    requires ListsOk(q) && q' == q.(log := q.log + [e], orderr := q'.orderr) && !e.StageDone?
    ensures ListsOk(q')
  {
    forall x | x in q.head ensures HeadOk(q', x) { assert HeadOk(q, x); }
    forall x | x in q.driver ensures DriverOk(q', x) { assert DriverOk(q, x); }
    forall x | x in q.sorted ensures SortedOk(q', x) { assert SortedOk(q, x); }
  }

  lemma BarErrorKeeps(q: Queue, r: Request, error: int)
    requires Inv(q) && r in q.driver && r.role == BarProxy
    ensures Inv(BarError(q, r, error))
  {
    hide ListsOk, HistoryOk, Conserved, Staged, Held, EventOk, Ended;
    var e := StageError(r.id, error);
    var q' := BarError(q, r, error);
    DriverFacts(q, r);
    StageErrorOk(q, r, error);
    LogOnlyLists(q, q', e);
    HistoryAppend(q, q', e);
    SameHolding(q, q');
    ConservedBy(q, q');
    SameStages(q, q');
  }

  lemma StageErrorOk(q: Queue, r: Request, error: int)
    requires DriverOk(q, r) && r.role != Original && OrigOk(q)
    ensures EventOk(q.subs, q.nextMode, q.log, StageError(r.id, error))
  {
  }
}
