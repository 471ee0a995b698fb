/**
 * What the barrier protocol guarantees over every run of a queue that drains.
 */
module BarrierTheorems {
  import opened BarrierModel
  import opened BarrierInvariant
  import opened BarrierFetch
  import opened BarrierSteps
  import opened BarrierQueueing
  import opened BarrierArrival

  lemma InitSound(m: Mode)
    requires DrainMode(m)
    ensures Inv(Init(m))
  {
    var q := Init(m);
    assert AccountedIn(q.driver) == {};
  }

  lemma StepSound(q: Queue, t: Step)
    requires Inv(q) && Enabled(q, t, false)
    ensures Inv(Apply(q, t, false)) && Apply(q, t, false).nextMode == q.nextMode
  {
    hide Inv;
    NextModeKept(q, t);
    match t
    case DoAdd(s, where_, moves) => AddRequestKeeps(q, s, where_, moves);
    case DoDispatch(m) => DispatchKeeps(q, m);
    case DoFetch => FetchKeeps(q);
    case DoDequeue(i) => DequeueKeeps(q, i);
    case DoComplete(r, error) =>
      if r.role == Original { CompleteOriginalKeeps(q, r, error); } else { CompleteStageKeeps(q, r, error); }
    case DoBarError(r, error) => BarErrorKeeps(q, r, error);
    case DoRequeue(r) => RequeueKeeps(q, r);
  }

  lemma {:induction false} PeekMode(q: Queue)
    ensures Peek(q).0.nextMode == q.nextMode
    decreases |q.head|
  {
    if q.head != [] && !DoOrdered(q).keep {
      DroppedHead(q);
      PeekMode(DoOrdered(q).q);
    }
  }

  lemma CompleteMode(q: Queue, r: Request, error: int)
    ensures Complete(q, r, error).nextMode == q.nextMode
  {
    var q1 := Complete(q, r, error);
    if r.role == Original {
      var q0 := q.(driver := q.driver - {r}, log := q.log + [End(r.id, error)]);
      assert q1 == ElvCompleted(q0, r);
    }
  }

  lemma NextModeKept(q: Queue, t: Step)
    requires Enabled(q, t, false)
    ensures Apply(q, t, false).nextMode == q.nextMode
  {
    match t
    case DoFetch => PeekMode(q);
    case DoComplete(r, error) => CompleteMode(q, r, error);
    case DoAdd(s, where_, moves) =>
    case DoDispatch(m) =>
    case DoDequeue(i) =>
    case DoBarError(r, error) =>
    case DoRequeue(r) =>
  }

  lemma {:induction false} RunSound(q: Queue, steps: seq<Step>)
    requires Inv(q) && Runs(q, steps, false)
    ensures Inv(Run(q, steps, false)) && Run(q, steps, false).nextMode == q.nextMode
    decreases |steps|
  {
    hide Inv;
    if steps != [] {
      StepSound(q, steps[0]);
      RunSound(Apply(q, steps[0], false), steps[1..]);
    }
  }

  // The guarantee: every event of every run obeys the ordering rules of EventOk, every
  // request queued is somewhere in the queue or has ended and never both, and neither the
  // sequence warning nor a BUG_ON is ever reached.
  lemma OrderingHolds(m: Mode, steps: seq<Step>)
    requires DrainMode(m) && Runs(Init(m), steps, false)
    ensures var q := Run(Init(m), steps, false);
            LogOk(q.subs, m, q.log) && Conserved(q) && !q.bug && !q.warned
  {
    InitSound(m);
    RunSound(Init(m), steps);
  }

  // Read off the log: nothing ends twice.
  lemma EndsOnce(m: Mode, steps: seq<Step>, i: nat, j: nat)
    requires DrainMode(m) && Runs(Init(m), steps, false)
    requires var log := Run(Init(m), steps, false).log;
             i < |log| && j < |log| && log[i].End? && log[j].End? && log[i].id == log[j].id
    ensures i == j
  {
    OrderingHolds(m, steps);
    var q := Run(Init(m), steps, false);
    var lo, hi := if i <= j then i else j, if i <= j then j else i;
    assert EventOk(q.subs, m, q.log[..hi], q.log[hi]);
    EndedPrefix(q.log, lo, hi);
  }

  lemma EndedPrefix(log: seq<Event>, i: nat, j: nat)
    requires i < |log| && j < |log|
    ensures i < j && log[i].End? ==> Ended(log[..j], log[i].id)
  {
    if i < j { assert log[..j][i] == log[i]; }
  }

  lemma EndedAt(log: seq<Event>, j: nat, id: nat) returns (i: nat)
    requires j <= |log| && Ended(log[..j], id)
    ensures i < j && log[i].End? && log[i].id == id
  {
    var e :| e in log[..j] && e.End? && e.id == id;
    i :| 0 <= i < j && log[..j][i] == e;
  }

  // Read off the log: when a barrier ends, every file-system request queued before it has
  // ended, and it carries the first error its stages reported.
  lemma EarlierEnded(m: Mode, steps: seq<Step>, b: nat, j: nat, error: int)
    requires DrainMode(m) && Runs(Init(m), steps, false)
    requires var q := Run(Init(m), steps, false);
             b < |q.subs| && q.subs[b].barrier && j < |q.log| && q.log[j] == End(b, error)
    ensures var q := Run(Init(m), steps, false);
            (forall a :: 0 <= a < b && q.subs[a].fs ==> exists i :: 0 <= i < j && q.log[i].End? && q.log[i].id == a) &&
            error == FirstError(q.log[..j], b)
  {
    OrderingHolds(m, steps);
    var q := Run(Init(m), steps, false);
    assert EventOk(q.subs, m, q.log[..j], q.log[j]);
    hide Runs, Run, Conserved;
    forall a | 0 <= a < b && q.subs[a].fs ensures exists i :: 0 <= i < j && q.log[i].End? && q.log[i].id == a {
      var i := EndedAt(q.log, j, a);
    }
  }

  // Read off the log: no request queued after a barrier reaches the driver before the barrier
  // ends, in particular not while its sequence is in progress.
  lemma LaterWait(m: Mode, steps: seq<Step>, b: nat, c: nat, i: nat)
    requires DrainMode(m) && Runs(Init(m), steps, false)
    requires var q := Run(Init(m), steps, false);
             b < c < |q.subs| && q.subs[b].barrier && q.subs[c].fs && i < |q.log| && q.log[i] == Issue(Original, c)
    ensures var q := Run(Init(m), steps, false);
            exists j :: 0 <= j < i && q.log[j].End? && q.log[j].id == b
  {
    OrderingHolds(m, steps);
    var q := Run(Init(m), steps, false);
    assert EventOk(q.subs, m, q.log[..i], q.log[i]);
    var j := EndedAt(q.log, i, b);
  }

  // While a sequence is in progress and the driver holds nothing, the queue always has
  // something to hand out: a sequence cannot get stuck.
  lemma NeverWedged(q: Queue)
    requires Inv(q) && Active(q) && q.driver == {}
    ensures Peek(q).1 != []
  {
    if q.ordseq.drain {
      var role := if !q.ordseq.preflush then PreFlush else if !q.ordseq.bar then BarProxy else PostFlush;
      PendingStage(q, role);
    }
    MidSequence(q);
  }

  // The proxy of the current stage is in the dispatch list, or the driver has it.
  lemma StageQueued(q: Queue, role: Role) returns (j: nat)
    requires ListsOk(q) && Staged(q, {}) && Active(q) && q.driver == {}
    requires role != Original && !BitOf(q.ordseq, role)
    ensures j < |q.head| && q.head[j].role == role && q.head[j].id == q.orig.id
  {
    hide Apart, InOrder, HeadOk, DriverOk;
    assert Held(q, role, q.orig.id);
    assert forall r :: r in q.sorted ==> SortedOk(q, r) && r.role == Original;
    var p :| p in q.head && p.role == role && p.id == q.orig.id;
    j :| 0 <= j < |q.head| && q.head[j] == p;
  }

  lemma PendingStage(q: Queue, role: Role)
    requires Inv(q) && Active(q) && q.driver == {} && q.ordseq.drain
    requires role != Original && StageSeq(role) == CurSeq(q.ordseq)
    ensures q.head != [] && DoOrdered(q).rq == [q.head[0]]
  {
    hide Apart, HistoryOk, Conserved, Staged, SortedOk, DriverOk;
    var j := StageQueued(q, role);
    assert HeadOk(q, q.head[j]) && HeadOk(q, q.head[0]);
    if 0 < j { assert Before(q.head[0], q.head[j]); }
  }

  // A file-system request coming back during a sequence carries the barrier's colour, and it
  // was queued before the barrier.
  lemma RequeueColour(q: Queue, r: Request)
    requires Inv(q) && Active(q) && r in q.driver && r.role == Original && r.kind == Fs
    ensures r.color == q.orig.color && r.id < q.orig.id
  {
    hide HistoryOk, Conserved, Staged, InOrder;
    assert DriverOk(q, r);
    assert !Same(r, q.orig);
    if r.id > q.orig.id { EpochMono(q.subs, q.orig.id, r.id); }
  }

  // ---- one colour bit is enough exactly when only file-system requests are hard barriers ----

  const DRAIN_ONLY := Mode(true, false, false, true, false)
  const BARRIER := Submission(Fs, true, false, false, true)
  const HARD_COMMAND := Submission(Special, true, false, false, false)
  const LATE_WRITE := Submission(Fs, false, true, false, true)

  // A barrier is at the driver when a command carrying REQ_HARDBARRIER and then a write are
  // queued: the second toggle gives the write the barrier's own colour.
  const LATE_STEPS := [DoAdd(BARRIER, Sort, []), DoFetch, DoDequeue(0),
                       DoAdd(HARD_COMMAND, Back, []), DoAdd(LATE_WRITE, Sort, []),
                       DoFetch, DoDequeue(0), DoFetch]

  lemma RunStep(q: Queue, t: Step, rest: seq<Step>, specialHard: bool)
    requires Enabled(q, t, specialHard) && Runs(Apply(q, t, specialHard), rest, specialHard)
    ensures Runs(q, [t] + rest, specialHard)
    ensures Run(q, [t] + rest, specialHard) == Run(Apply(q, t, specialHard), rest, specialHard)
  {
    assert ([t] + rest)[1..] == rest;
  }

  lemma LateWriteIssued()
    ensures Runs(Init(DRAIN_ONLY), LATE_STEPS, true)
    ensures Run(Init(DRAIN_ONLY), LATE_STEPS, true).warned
    ensures Issue(Original, 2) in Run(Init(DRAIN_ONLY), LATE_STEPS, true).log
    ensures !Ended(Run(Init(DRAIN_ONLY), LATE_STEPS, true).log, 0)
  {
    hide Apply, Enabled, Runs, Run, Fetch;
    var q0 := Init(DRAIN_ONLY);
    var bar := Request(0, Original, Fs, true, true, false, false, false, 0);
    var cmd := Request(1, Original, Special, true, true, true, false, false, 1);
    var late := Request(2, Original, Fs, false, true, false, false, false, 1);
    var proxy := StageRequest(BarProxy, bar).(started := true);
    var q1 := AddBack(q0, BARRIER, Sort);
    assert q1.head == [bar];
    var q2 := q1.(head := [proxy], mode := DRAIN_ONLY, orig := bar, taken := 1,
                  ordseq := OrdSeq(true, true, true, false, true), log := [Issue(BarProxy, 0)]);
    StartsAtOnce(q1, bar);
    var q3 := TakeFirst(q2);
    var q4 := AddBack(q3, HARD_COMMAND, Back);
    assert q4.head == [cmd];
    var q5 := AddBack(q4, LATE_WRITE, Sort);
    assert q5.head == [cmd, late];
    var q6 := ShowCommand(q5);
    var q7 := TakeFirst(q6);
    assert q7.head == [late];
    var q8 := ShowLate(q7);
    LateRun(q1, q2, q3, q4, q5, q6, q7, q8);
    assert q8.log == [Issue(BarProxy, 0), Issue(Original, 1), Issue(Original, 2)];
  }

  lemma AddBack(q: Queue, s: Submission, where_: Where) returns (q': Queue)
    requires q.sorted == {} && EffectiveWhere(s, where_) == Back && (s.kind == Fs ==> where_ != Front)
    ensures Enabled(q, DoAdd(s, where_, []), true) && q' == Apply(q, DoAdd(s, where_, []), true)
    ensures q' == q.(ordColor := if s.hard then !q.ordColor else q.ordColor,
                     subs := q.subs + [Sub(s.kind == Fs, s.kind == Fs && s.hard, s.empty)],
                     epoch := if s.kind == Fs && s.hard then q.epoch + 1 else q.epoch,
                     head := q.head + [NewRequest(q, s).(soft := true)])
  {
    q' := Apply(q, DoAdd(s, where_, []), true);
  }

  lemma TakeFirst(q: Queue) returns (q': Queue)
    requires q.head != [] && q.head[0].started
    ensures Enabled(q, DoDequeue(0), true) && q' == Apply(q, DoDequeue(0), true)
    ensures q'.head == q.head[1..] && q' == q.(head := q'.head, driver := q'.driver, inFlight := q'.inFlight)
  {
    q' := Apply(q, DoDequeue(0), true);
  }

  lemma ShowCommand(q: Queue) returns (q': Queue)
    requires Active(q) && q.head != [] && q.head[0].role == Original && q.head[0].kind == Special && !q.head[0].started
    ensures Enabled(q, DoFetch, true) && q' == Apply(q, DoFetch, true)
    ensures q' == q.(head := [q.head[0].(started := true)] + q.head[1..], log := q.log + [Issue(Original, q.head[0].id)])
  {
    q' := Apply(q, DoFetch, true);
  }

  lemma ShowLate(q: Queue) returns (q': Queue)
    requires Active(q) && q.head != [] && q.head[0].role == Original && q.head[0].kind == Fs && !q.head[0].started
    requires !q.mode.byTag && q.head[0].color == q.orig.color && CurSeq(q.ordseq) > SEQ_DRAIN
    ensures Enabled(q, DoFetch, true) && q' == Apply(q, DoFetch, true)
    ensures q'.warned && q'.log == q.log + [Issue(Original, q.head[0].id)]
  {
    q' := Apply(q, DoFetch, true);
  }

  lemma StartsAtOnce(q: Queue, bar: Request)
    requires !Active(q) && q.head == [bar] && q.inFlight == 0 && q.nextMode == DRAIN_ONLY
    requires IsBarrier(bar) && !bar.empty && !bar.started
    ensures var q' := Apply(q, DoFetch, true); var proxy := StageRequest(BarProxy, bar);
            Enabled(q, DoFetch, true) &&
            q' == q.(head := [proxy.(started := true)], orderr := 0, mode := DRAIN_ONLY, orig := bar,
                     ordseq := OrdSeq(true, true, true, false, true), taken := q.taken + 1,
                     log := q.log + [Issue(BarProxy, bar.id)])
  {
    var m := EffectiveMode(q.nextMode, bar.empty);
    assert Proxies(m, bar) + q.head[1..] == [StageRequest(BarProxy, bar)];
  }

  lemma LateRun(q1: Queue, q2: Queue, q3: Queue, q4: Queue, q5: Queue, q6: Queue, q7: Queue, q8: Queue)
    requires var t := LATE_STEPS; var q0 := Init(DRAIN_ONLY);
      Enabled(q0, t[0], true) && q1 == Apply(q0, t[0], true) && Enabled(q1, t[1], true) && q2 == Apply(q1, t[1], true) &&
      Enabled(q2, t[2], true) && q3 == Apply(q2, t[2], true) && Enabled(q3, t[3], true) && q4 == Apply(q3, t[3], true) &&
      Enabled(q4, t[4], true) && q5 == Apply(q4, t[4], true) && Enabled(q5, t[5], true) && q6 == Apply(q5, t[5], true) &&
      Enabled(q6, t[6], true) && q7 == Apply(q6, t[6], true) && Enabled(q7, t[7], true) && q8 == Apply(q7, t[7], true)
    ensures Runs(Init(DRAIN_ONLY), LATE_STEPS, true) && Run(Init(DRAIN_ONLY), LATE_STEPS, true) == q8
  {
    hide Apply, Enabled;
    var t := LATE_STEPS;
    assert t[8..] == [];
    RunStep(q7, t[7], [], true);
    RunStep(q6, t[6], [t[7]], true);
    assert [t[6]] + [t[7]] == t[6..];
    RunStep(q5, t[5], t[6..], true);
    assert [t[5]] + t[6..] == t[5..];
    RunStep(q4, t[4], t[5..], true);
    assert [t[4]] + t[5..] == t[4..];
    RunStep(q3, t[3], t[4..], true);
    assert [t[3]] + t[4..] == t[3..];
    RunStep(q2, t[2], t[3..], true);
    assert [t[2]] + t[3..] == t[2..];
    RunStep(q1, t[1], t[2..], true);
    assert [t[1]] + t[2..] == t[1..];
    RunStep(Init(DRAIN_ONLY), t[0], t[1..], true);
    assert [t[0]] + t[1..] == t;
  }

  predicate HardCommand(t: Step) { t.DoAdd? && t.s.hard && t.s.kind != Fs }

  // One step keeps the invariant unless it queues a request that is marked REQ_HARDBARRIER without
  // being a file-system request: that one toggles the colour although no barrier follows from it.
  lemma StepSoundIff(q: Queue, t: Step)
    requires Inv(q) && Enabled(q, t, true)
    ensures Inv(Apply(q, t, true)) <==> !HardCommand(t)
  {
    hide Inv, Apply;
    if HardCommand(t) {
      ColourLost(q, t.s, t.where_, t.moves);
      AddIsApply(q, t);
    } else {
      StepSound(q, t);
      SameApply(q, t);
    }
  }

  lemma AddIsApply(q: Queue, t: Step)
    requires t.DoAdd? && Enabled(q, t, true)
    ensures Apply(q, t, true) == AddRequest(q, t.s, t.where_, t.moves)
  {
  }

  lemma SameApply(q: Queue, t: Step)
    requires Enabled(q, t, false)
    ensures Enabled(q, t, true) && Apply(q, t, true) == Apply(q, t, false)
  {
  }

  lemma ColourLost(q: Queue, s: Submission, where_: Where, moves: seq<Move>)
    requires Inv(q) && LegalMoves(q, moves) && s.hard && s.kind != Fs
    ensures !Inv(AddRequest(q, s, where_, moves))
  {
    hide ListsOk, Conserved, Staged, HistoryOk, Drain, LegalMoves;
    assert ConfigOk(q);
    var q' := AddRequest(q, s, where_, moves);
    assert q'.ordColor == !q.ordColor && q'.epoch == q.epoch;
    assert !ConfigOk(q');
  }

  // The invariant holds at every point of the run.
  ghost predicate SoundThroughout(q: Queue, steps: seq<Step>)
    requires Runs(q, steps, true)
    decreases |steps|
  {
    Inv(q) && (steps == [] || SoundThroughout(Apply(q, steps[0], true), steps[1..]))
  }

  // A run is sound throughout if and only if none of its steps queues such a request.
  lemma {:induction false} RunSoundIff(q: Queue, steps: seq<Step>)
    requires Inv(q) && Runs(q, steps, true)
    ensures SoundThroughout(q, steps) <==> forall t :: t in steps ==> !HardCommand(t)
    ensures SoundThroughout(q, steps) ==> Inv(Run(q, steps, true)) && Run(q, steps, true).nextMode == q.nextMode
    decreases |steps|
  {
    hide Inv, Apply, Enabled, HardCommand;
    if steps != [] {
      StepSoundIff(q, steps[0]);
      assert forall t :: t in steps <==> t == steps[0] || t in steps[1..];
      if HardCommand(steps[0]) {
        NotSound(q, steps);
      } else {
        StepMode(q, steps[0]);
        RunSoundIff(Apply(q, steps[0], true), steps[1..]);
      }
    }
  }

  lemma NotSound(q: Queue, steps: seq<Step>)
    requires Runs(q, steps, true) && steps != [] && !Inv(Apply(q, steps[0], true))
    ensures !SoundThroughout(q, steps)
  {
    hide Inv, Apply, Enabled;
  }

  lemma StepMode(q: Queue, t: Step)
    requires Enabled(q, t, true) && !HardCommand(t)
    ensures Apply(q, t, true).nextMode == q.nextMode
  {
    NextModeKept(q, t);
    SameApply(q, t);
  }

  // What a run has done wrong, it owes to such a request: the warning, a BUG_ON, an event out of order
  // or a request lost or ended twice.
  lemma DisorderNeedsCommand(m: Mode, steps: seq<Step>)
    requires DrainMode(m) && Runs(Init(m), steps, true)
    requires var q := Run(Init(m), steps, true); q.warned || q.bug || !LogOk(q.subs, m, q.log) || !Conserved(q)
    ensures exists t :: t in steps && HardCommand(t)
  {
    InitSound(m);
    RunSoundIff(Init(m), steps);
  }

  // The warning stays silent in every run of every draining queue if and only if nobody sets
  // REQ_HARDBARRIER on a request that is not a file-system request.
  lemma OneColourBitIff(specialHard: bool)
    ensures (forall m, steps :: DrainMode(m) && Runs(Init(m), steps, specialHard) ==>
               !Run(Init(m), steps, specialHard).warned)
            <==> !specialHard
  {
    if specialHard {
      LateWriteIssued();
    } else {
      forall m, steps | DrainMode(m) && Runs(Init(m), steps, false) ensures !Run(Init(m), steps, false).warned {
        OrderingHolds(m, steps);
      }
    }
  }
}
