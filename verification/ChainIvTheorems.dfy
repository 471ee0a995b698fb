/**
 * What the chain-IV protocol guarantees over every interleaving, and the one way it can leave a
 * request behind.
 */
module ChainIvTheorems {
  import opened ChainIvModel
  import opened ChainIvProtocol

  lemma AddThread(threads: seq<Pc>, pc: Pc)
    ensures Owners(threads + [pc]) == Owners(threads) + if Owns(pc) then 1 else 0
    ensures Carried(threads + [pc]) == Carried(threads) + Carries(pc)
    ensures SomeoneComing(threads) ==> SomeoneComing(threads + [pc])
  {
    assert (threads + [pc])[..|threads|] == threads;
    if SomeoneComing(threads) {
      var i :| 0 <= i < |threads| && Coming(threads[i]);
      assert Coming((threads + [pc])[i]);
    }
  }

  lemma AddYouth(s: State, pc: Pc)
    requires Youth(s) && (Tried(s.log) || Early(s, pc))
    ensures Youth(s.(threads := s.threads + [pc]))
  {
    var t' := s.threads + [pc];
    if !Tried(s.log) && !s.first {
      var j :| 0 <= j < |s.threads| && s.threads[j].FirstRng?;
      assert t'[j].FirstRng?;
    }
  }

  lemma CallKeepsCore(s: State, mayBacklog: bool, viaFirst: bool)
    requires Core(s) && Enabled(s, Call(mayBacklog, viaFirst), true)
    ensures Core(Apply(s, Call(mayBacklog, viaFirst)))
  {
    hide Carried, Carries, Placed, Owners, ChainOk, IvAfter, Youth, Conserved;
    var r := Req(|s.submitted|, mayBacklog);
    AddThread(s.threads, if viaFirst then First(r) else Entry(r));
    CallConserves(s, mayBacklog, viaFirst);
    CallYouth(s, mayBacklog, viaFirst);
  }

  lemma CallConserves(s: State, mayBacklog: bool, viaFirst: bool)
    requires Conserved(s) && Enabled(s, Call(mayBacklog, viaFirst), true)
    ensures Conserved(Apply(s, Call(mayBacklog, viaFirst)))
  {
    hide Carried, Placed, Carries;
    var r := Req(|s.submitted|, mayBacklog);
    var pc := if viaFirst then First(r) else Entry(r);
    var s' := Apply(s, Call(mayBacklog, viaFirst));
    assert s'.threads == s.threads + [pc] && s'.submitted == s.submitted + [r];
    AddThread(s.threads, pc);
    CarriesNew(r);
    PlacedFrame(s, s');
    OneMore(Carried(s.threads), r, Placed(s), s.submitted);
  }

  lemma CarriesNew(r: Req)
    ensures Carries(First(r)) == multiset{r} && Carries(Entry(r)) == multiset{r}
  {
  }

  // Who comes past the first call before the seed finds the bit taken.
  lemma CallYouth(s: State, mayBacklog: bool, viaFirst: bool)
    requires OneOwner(s) && Youth(s) && Enabled(s, Call(mayBacklog, viaFirst), true)
    ensures Youth(Apply(s, Call(mayBacklog, viaFirst)))
  {
    hide Tried, Owners;
    var r := Req(|s.submitted|, mayBacklog);
    if !Tried(s.log) && !viaFirst {
      var j :| 0 <= j < |s.threads| && s.threads[j].FirstRng?;
      Alone(s, j);
    }
    AddYouth(s, if viaFirst then First(r) else Entry(r));
  }

  lemma OneMore(c: multiset<Req>, r: Req, p: multiset<Req>, submitted: seq<Req>)
    requires c + p == multiset(submitted)
    ensures (c + multiset{r}) + p == multiset(submitted + [r])
  {
    assert (c + multiset{r}) + p == (c + p) + multiset{r};
  }

  lemma CarriesNothing()
    ensures Carries(Dequeue) == multiset{}
  {
  }

  lemma StartWorkKeepsCore(s: State)
    requires Core(s) && s.pending
    ensures Core(Apply(s, StartWork))
  {
    hide Carried, Carries, Placed, Owners, ChainOk, IvAfter;
    AddThread(s.threads, Dequeue);
    PlacedFrame(s, Apply(s, StartWork));
    CarriesNothing();
    assert Carried(s.threads) + multiset{} == Carried(s.threads);
  }

  lemma MoveKeepsCore(s: State, i: nat, a: Answer)
    requires Core(s) && CanMove(s, i)
    ensures Core(Apply(s, Move(i, a)))
  {
    hide OneOwner, Conserved, ChainKept, Youth, Unopened;
    MoveOneOwner(s, i, a);
    MoveConserves(s, i, a);
    MoveChain(s, i, a);
    MoveYouth(s, i, a);
    MoveUnopened(s, i, a);
  }

  // One operation keeps everything, unless it is the one that leaves a request behind; then it
  // keeps all the rest.
  lemma MoveKeepsIff(s: State, i: nat, a: Answer)
    requires Inv(s) && CanMove(s, i)
    ensures Core(Apply(s, Move(i, a)))
    ensures Inv(Apply(s, Move(i, a))) <==> !LeavesBehind(s, i)
  {
    hide OneOwner, Conserved, ChainKept, Youth, NobodyWaits, Unopened;
    MoveKeepsCore(s, i, a);
    MoveNobodyWaits(s, i, a);
  }

  // ---- every step ------------------------------------------------------------------------------

  lemma StepCore(s: State, t: Step)
    requires Core(s) && Enabled(s, t, true)
    ensures Core(Apply(s, t))
  {
    hide Core;
    match t
    case Call(mayBacklog, viaFirst) => CallKeepsCore(s, mayBacklog, viaFirst);
    case StartWork => StartWorkKeepsCore(s);
    case Move(i, a) => MoveKeepsCore(s, i, a);
  }

  lemma {:induction false} RunCore(s: State, steps: seq<Step>, rngMayFail: bool)
    requires Core(s) && Runs(s, steps, rngMayFail)
    ensures Core(Run(s, steps, rngMayFail))
    decreases |steps|
  {
    hide Core;
    if steps != [] {
      StepCore(s, steps[0]);
      RunCore(Apply(s, steps[0]), steps[1..], rngMayFail);
    }
  }

  // ---- what is left behind ---------------------------------------------------------------------

  // A request is queued, nobody owns the chain and nobody is certain to come for it.
  predicate Left(s: State) { s.queue != [] && !s.bit && !SomeoneComing(s.threads) }

  // Whether a request is left after one step: one kind of step leaves it, and it stays left only
  // while nothing happens but that first callers come who have not begun yet.
  predicate LeftAfter(s: State, t: Step)
    requires Enabled(s, t, true)
  {
    match t
    case Call(_, viaFirst) => Left(s) && viaFirst
    case Move(i, _) => LeavesBehind(s, i)
    case StartWork => false
  }

  lemma StepLeft(s: State, t: Step)
    requires Core(s) && Enabled(s, t, true)
    ensures Left(Apply(s, t)) <==> LeftAfter(s, t)
  {
    hide Conserved, ChainKept, Youth, Unopened;
    match t
    case Call(mayBacklog, viaFirst) =>
      var r := Req(|s.submitted|, mayBacklog);
      AddComing(s.threads, if viaFirst then First(r) else Entry(r));
    case StartWork =>
    case Move(i, a) =>
      if Left(s) { LeftStays(s, i, a); } else { MoveNobodyWaits(s, i, a); }
  }

  lemma AddComing(threads: seq<Pc>, pc: Pc)
    ensures SomeoneComing(threads + [pc]) <==> SomeoneComing(threads) || Coming(pc)
  {
    var t' := threads + [pc];
    assert t'[|threads|] == pc;
    if SomeoneComing(threads) {
      var i :| 0 <= i < |threads| && Coming(threads[i]);
      assert Coming(t'[i]);
    }
  }

  // Where a request is left, every thread that can still move is a first call not yet begun.
  lemma LeftStays(s: State, i: nat, a: Answer)
    requires OneOwner(s) && Left(s) && CanMove(s, i)
    ensures s.threads[i].First? && !Left(Apply(s, Move(i, a)))
  {
    if Owns(s.threads[i]) { Alone(s, i); }
  }

  // ---- over whole runs -------------------------------------------------------------------------

  predicate NoRngError(s: State) { forall i :: 0 <= i < |s.threads| && s.threads[i].FirstClear? ==> s.threads[i].err == 0 }

  lemma StepSound(s: State, t: Step)
    requires Inv(s) && NoRngError(s) && Enabled(s, t, false)
    ensures Inv(Apply(s, t)) && NoRngError(Apply(s, t))
  {
    hide Core, SomeoneComing;
    StepCore(s, t);
    StepLeft(s, t);
  }

  lemma {:induction false} RunSound(s: State, steps: seq<Step>)
    requires Inv(s) && NoRngError(s) && Runs(s, steps, false)
    ensures Inv(Run(s, steps, false))
    decreases |steps|
  {
    hide Inv;
    if steps != [] {
      StepSound(s, steps[0]);
      RunSound(Apply(s, steps[0]), steps[1..]);
    }
  }

  lemma StartSound()
    ensures Inv(START)
  {
    assert multiset(START.submitted) == multiset{};
  }

  // Any number of callers and the worker, however interleaved, and whether the random numbers fail
  // or not: one owner at most, every request in exactly one place, IVs chained, and no BUG_ON.
  lemma ChainHolds(steps: seq<Step>, rngMayFail: bool)
    requires Runs(START, steps, rngMayFail)
    ensures var s := Run(START, steps, rngMayFail);
            ChainOk(s.log) && Conserved(s) && !s.bug &&
            (forall i, j :: 0 <= i < j < |s.threads| ==> !(Owns(s.threads[i]) && Owns(s.threads[j]))) &&
            (s.pending ==> forall i :: 0 <= i < |s.threads| ==> !Owns(s.threads[i]))
  {
    StartSound();
    RunCore(START, steps, rngMayFail);
    var s := Run(START, steps, rngMayFail);
    hide Runs, Run, Conserved, ChainOk, Youth, Unopened;
    forall i | 0 <= i < |s.threads| && Owns(s.threads[i])
      ensures !s.pending && forall j :: 0 <= j < |s.threads| && j != i ==> !Owns(s.threads[j])
    {
      Alone(s, i);
    }
  }

  // Every request was given an IV that comes from random numbers if and only if the one call of
  // the generator succeeded; a failing call is not repeated, and the requests after the one it
  // fails are served all the same.
  lemma SeededIff(steps: seq<Step>, rngMayFail: bool)
    requires Runs(START, steps, rngMayFail)
    ensures var log := Run(START, steps, rngMayFail).log;
            (forall i :: 0 <= i < |log| && log[i].Served? ==> Seeded(log[..i])) <==>
            |log| <= 1 || (log[0].Seed? && log[0].err == 0)
  {
    StartSound();
    RunCore(START, steps, rngMayFail);
    hide Runs, Run, OneOwner, Conserved, ChainKept, Youth;
    var log := Run(START, steps, rngMayFail).log;
    assert SeedFirst(log);
    if |log| > 1 {
      assert log[1].Served?;
      assert log[..1] == [log[0]];
      if log[0].err == 0 {
        forall i | 0 < i < |log| ensures Seeded(log[..i]) { assert log[0] == log[..i][0]; }
      }
    }
  }

  lemma {:induction false} NoOwners(threads: seq<Pc>)
    requires forall i :: 0 <= i < |threads| ==> threads[i].Done?
    ensures Owners(threads) == 0 && Carried(threads) == multiset{}
  {
    if threads != [] { NoOwners(threads[..|threads| - 1]); }
  }

  // When everybody is done the queue is empty and the bit clear, so nothing trips the BUG_ON of
  // async_chainiv_exit; every request was served or turned away, and each thread that is done
  // reports the error of the request it worked for.
  lemma QuietIsEmpty(steps: seq<Step>)
    requires Runs(START, steps, false) && Quiet(Run(START, steps, false))
    ensures var s := Run(START, steps, false);
            s.queue == [] && !s.bit && ServedIn(s.log) + multiset(s.dropped) == multiset(s.submitted) &&
            forall i :: 0 <= i < |s.threads| ==> s.threads[i].err == s.threads[i].own
  {
    StartSound();
    RunSound(START, steps);
    var s := Run(START, steps, false);
    hide Runs, Run, ChainOk, Youth, Unopened;
    QuietState(s);
  }

  lemma QuietState(s: State)
    requires Inv(s) && Quiet(s)
    ensures s.queue == [] && !s.bit && ServedIn(s.log) + multiset(s.dropped) == multiset(s.submitted)
    ensures forall i :: 0 <= i < |s.threads| ==> s.threads[i].err == s.threads[i].own
  {
    hide ChainOk, Youth, ServedIn;
    NoOwners(s.threads);
    assert forall i :: 0 <= i < |s.threads| ==> Current(s, s.threads[i]);
    assert !SomeoneComing(s.threads);
    var m := ServedIn(s.log) + multiset(s.dropped);
    assert multiset(s.queue) == multiset{};
    assert multiset{} + ((multiset{} + ServedIn(s.log)) + multiset(s.dropped)) == m;
  }

  // ---- when a request is left behind -----------------------------------------------------------

  lemma EnabledTrue(s: State, t: Step, rngMayFail: bool)
    requires Enabled(s, t, rngMayFail)
    ensures Enabled(s, t, true)
  {
  }

  lemma {:induction false} RunLast(s: State, steps: seq<Step>, rngMayFail: bool)
    requires Runs(s, steps, rngMayFail) && steps != []
    ensures var n := |steps| - 1;
            Runs(s, steps[..n], rngMayFail) && Enabled(Run(s, steps[..n], rngMayFail), steps[n], rngMayFail) &&
            Run(s, steps, rngMayFail) == Apply(Run(s, steps[..n], rngMayFail), steps[n])
    decreases |steps|
  {
    hide Apply, Enabled;
    var n := |steps| - 1;
    if n > 0 {
      EnabledTrue(s, steps[0], rngMayFail);
      RunLast(Apply(s, steps[0]), steps[1..], rngMayFail);
      assert steps[1..][..n - 1] == steps[..n][1..];
    }
  }

  // A run that ends with everybody done leaves a request in the queue if and only if its last step
  // is a first caller giving up on a random number error while requests are queued and nobody else
  // is on the way to the bit.
  lemma QuietLeftIff(steps: seq<Step>, rngMayFail: bool)
    requires Runs(START, steps, rngMayFail) && Quiet(Run(START, steps, rngMayFail)) && steps != []
    ensures var n := |steps| - 1;
            Runs(START, steps[..n], rngMayFail) &&
            var before := Run(START, steps[..n], rngMayFail);
            (steps[n].Move? ==> steps[n].i < |before.threads|) &&
            (Run(START, steps, rngMayFail).queue != [] <==> steps[n].Move? && LeavesBehind(before, steps[n].i))
  {
    var n := |steps| - 1;
    RunLast(START, steps, rngMayFail);
    StartSound();
    RunCore(START, steps[..n], rngMayFail);
    RunCore(START, steps, rngMayFail);
    hide Runs, Run;
    LastStep(Run(START, steps[..n], rngMayFail), steps[n]);
  }

  lemma NewCaller(s: State, t: Step)
    requires t.Call? && Enabled(s, t, true)
    ensures !Quiet(Apply(s, t))
  {
    assert !Apply(s, t).threads[|s.threads|].Done?;
  }

  lemma LastStep(s: State, t: Step)
    requires Core(s) && Enabled(s, t, true) && Core(Apply(s, t)) && Quiet(Apply(s, t))
    ensures Apply(s, t).queue != [] <==> t.Move? && LeavesBehind(s, t.i)
  {
    hide Conserved, ChainKept, Youth, Unopened, LeavesBehind;
    var s' := Apply(s, t);
    StepLeft(s, t);
    NoOwners(s'.threads);
    assert !SomeoneComing(s'.threads);
    if t.Call? { NewCaller(s, t); }
  }

  // ---- two runs in which the random numbers fail -----------------------------------------------

  const A := Req(0, false)
  const B := Req(1, false)
  const OK := Answer(0, 0)
  const OUT := Answer(-5, 0)

  ghost predicate Goes(s: State, t: Step, s': State) { Enabled(s, t, true) && s' == Apply(s, t) }

  // s comes to e by some steps.
  ghost predicate Comes(s: State, steps: seq<Step>, e: State) { Runs(s, steps, true) && Run(s, steps, true) == e }

  lemma RunStep(s: State, t: Step, s': State, rest: seq<Step>, steps: seq<Step>, e: State)
    requires Goes(s, t, s') && Comes(s', rest, e) && steps == [t] + rest
    ensures Comes(s, steps, e)
  {
    assert steps[1..] == rest;
  }

  lemma RunNothing(s: State)
    ensures Comes(s, [], s)
  {
  }

  lemma RunThree(s: State, t: Step, s1: State, t1: Step, s2: State, t2: Step, s3: State, rest: seq<Step>, e: State)
    requires Goes(s, t, s1) && Goes(s1, t1, s2) && Goes(s2, t2, s3) && Comes(s3, rest, e)
    ensures Comes(s, [t, t1, t2] + rest, e)
  {
    hide Goes, Comes;
    RunStep(s2, t2, s3, rest, [t2] + rest, e);
    RunStep(s1, t1, s2, [t2] + rest, [t1, t2] + rest, e);
    RunStep(s, t, s1, [t1, t2] + rest, [t, t1, t2] + rest, e);
  }

  // A first caller has the bit and has replaced givencrypt.
  const S1 := START.(threads := [First(A)], submitted := [A])
  const S2 := S1.(bit := true, threads := [FirstCheck(A)])
  const S3 := S2.(first := false, threads := [FirstRng(A)])

  lemma FirstCallerBegins()
    ensures Goes(START, Call(false, true), S1) && Goes(S1, Move(0, OK), S2) && Goes(S2, Move(0, OK), S3)
  {
  }

  // A second one queues behind it,
  const S4 := S3.(threads := [FirstRng(A), First(B)], submitted := [A, B])
  const S5 := S4.(threads := [FirstRng(A), Entry(B)])
  const S6 := S4.(threads := [FirstRng(A), Enqueue(B)])
  const S7 := S4.(queue := [B], threads := [FirstRng(A), PostTas(EINPROGRESS)])
  const S8 := S7.(threads := [FirstRng(A), Done(EINPROGRESS, EINPROGRESS)])

  lemma SecondCallerQueues()
    ensures Goes(S3, Call(false, true), S4) && Goes(S4, Move(1, OK), S5) && Goes(S5, Move(1, OK), S6)
    ensures Goes(S6, Move(1, OK), S7) && Goes(S7, Move(1, OK), S8)
  {
  }

  // and the random numbers fail.
  const S9 := S8.(log := [Seed(0, -5)], threads := [FirstClear(A, -5), Done(EINPROGRESS, EINPROGRESS)])
  const S10 := S9.(bit := false, dropped := [A], threads := [Done(-5, -5), Done(EINPROGRESS, EINPROGRESS)])

  lemma FirstCallerFails()
    ensures Goes(S8, Move(0, OUT), S9) && Goes(S9, Move(0, OUT), S10) && Quiet(S10)
  {
  }

  const QUEUEING := [Move(1, OK), Move(0, OUT), Move(0, OUT)]
  const COMING := [Call(false, true), Move(1, OK), Move(1, OK)] + ([Move(1, OK)] + QUEUEING)
  const STRANDING := [Call(false, true), Move(0, OK), Move(0, OK)] + COMING

  lemma Stranded()
    ensures Runs(START, STRANDING, true)
    ensures Quiet(Run(START, STRANDING, true)) && Run(START, STRANDING, true).queue == [B]
  {
    hide Goes, Runs, Run, Quiet;
    FirstCallerBegins();
    SecondCallerQueues();
    FirstCallerFails();
    RunNothing(S10);
    var m, o := Move(1, OK), Move(0, OUT);
    RunThree(S7, m, S8, o, S9, o, S10, [], S10);
    assert QUEUEING == [m, o, o] + [];
    RunStep(S6, m, S7, QUEUEING, [m] + QUEUEING, S10);
    RunThree(S3, Call(false, true), S4, m, S5, m, S6, [m] + QUEUEING, S10);
    RunThree(START, Call(false, true), S1, Move(0, OK), S2, Move(0, OK), S3, COMING, S10);
  }

  // The random numbers fail before anybody else comes; the next caller is served from an IV that
  // nothing has seeded.
  const T4 := S3.(log := [Seed(0, -5)], threads := [FirstClear(A, -5)])
  const T5 := T4.(bit := false, dropped := [A], threads := [Done(-5, -5)])
  const T6 := T5.(submitted := [A, B], threads := [Done(-5, -5), Entry(B)])
  const T7 := T6.(bit := true, threads := [Done(-5, -5), CheckQueue(B)])
  const T8 := T7.(threads := [Done(-5, -5), TailRead(B)])
  const T9 := T7.(threads := [Done(-5, -5), TailEncrypt(B, 0)])
  const T10 := T7.(threads := [Done(-5, -5), TailWrite(B, 0, 0)])
  const T11 := T7.(log := [Seed(0, -5), Served(B, 0, 0, 0)], threads := [Done(-5, -5), SchedErr(0)])

  lemma NextCallerComes()
    ensures Goes(S3, Move(0, OUT), T4) && Goes(T4, Move(0, OUT), T5) && Goes(T5, Call(false, false), T6) && Goes(T6, Move(1, OK), T7)
  {
  }

  lemma NextCallerServed()
    ensures Goes(T7, Move(1, OK), T8) && Goes(T8, Move(1, OK), T9) && Goes(T9, Move(1, OK), T10) && Goes(T10, Move(1, OK), T11)
  {
  }

  const SERVING := [Move(1, OK), Move(1, OK), Move(1, OK)]
  const FAILING := [Move(0, OUT), Move(0, OUT), Call(false, false)] + ([Move(1, OK)] + ([Move(1, OK)] + SERVING))
  const UNSEEDED := [Call(false, true), Move(0, OK), Move(0, OK)] + FAILING

  lemma ServedUnseeded()
    ensures Runs(START, UNSEEDED, true)
    ensures var log := Run(START, UNSEEDED, true).log; |log| == 2 && log[1].Served? && log[1].err == 0 && !Seeded(log[..1])
  {
    hide Runs, Run, Goes;
    FirstCallerBegins();
    NextCallerComes();
    NextCallerServed();
    RunNothing(T11);
    var m, o := Move(1, OK), Move(0, OUT);
    RunThree(T8, m, T9, m, T10, m, T11, [], T11);
    assert SERVING == [m, m, m] + [];
    RunStep(T7, m, T8, SERVING, [m] + SERVING, T11);
    RunStep(T6, m, T7, [m] + SERVING, [m] + ([m] + SERVING), T11);
    RunThree(S3, o, T4, o, T5, Call(false, false), T6, [m] + ([m] + SERVING), T11);
    RunThree(START, Call(false, true), S1, Move(0, OK), S2, Move(0, OK), S3, FAILING, T11);
    OnlyFailed(T11.log);
  }

  lemma OnlyFailed(log: seq<Event>)
    requires log == [Seed(0, -5), Served(B, 0, 0, 0)]
    ensures !Seeded(log[..1])
  {
    assert log[..1] == [Seed(0, -5)];
  }

  // Every quiet state of every run has an empty queue if and only if the random numbers that
  // seed the chain cannot fail.
  lemma NobodyLeftIff(rngMayFail: bool)
    ensures (forall steps :: Runs(START, steps, rngMayFail) && Quiet(Run(START, steps, rngMayFail)) ==>
               Run(START, steps, rngMayFail).queue == [])
            <==> !rngMayFail
  {
    hide Runs, Run, Quiet;
    if rngMayFail {
      Stranded();
    } else {
      forall steps | Runs(START, steps, false) && Quiet(Run(START, steps, false)) ensures Run(START, steps, false).queue == [] {
        QuietIsEmpty(steps);
      }
    }
  }
}
