/**
 * One owner of the chain at a time, no request left behind, no request lost, and the IVs chained.
 */
module ChainIvProtocol {
  import opened ChainIvModel

  // The thread holds the ownership bit.
  predicate Owns(pc: Pc) {
    pc.FirstCheck? || pc.FirstRng? || pc.FirstClear? || pc.CheckQueue? || pc.ClearForQueue? || pc.SetErr? ||
    pc.TailRead? || pc.TailEncrypt? || pc.TailWrite? || pc.SchedErr? || pc.SchedCheck? || pc.SchedClear? ||
    pc.SchedQueue? || pc.Dequeue?
  }

  // The thread is certain to try for the bit before it is done.
  predicate Coming(pc: Pc) {
    pc.Entry? || pc.Enqueue? || pc.PostTas? || pc.SchedRecheck? || pc.SchedTas?
  }

  function Owners(threads: seq<Pc>): nat {
    if threads == [] then 0 else Owners(threads[..|threads| - 1]) + if Owns(threads[|threads| - 1]) then 1 else 0
  }

  predicate SomeoneComing(threads: seq<Pc>) { exists i :: 0 <= i < |threads| && Coming(threads[i]) }

  datatype Load = Nothing | Load(r: Req)

  // The request a thread still has to place or to serve
  function LoadOf(pc: Pc): Load {
    match pc
    case First(r) => Load(r)
    case FirstCheck(r) => Load(r)
    case FirstRng(r) => Load(r)
    case FirstClear(r, _) => Load(r)
    case Entry(r) => Load(r)
    case CheckQueue(r) => Load(r)
    case ClearForQueue(r) => Load(r)
    case Enqueue(r) => Load(r)
    case TailRead(r) => Load(r)
    case TailEncrypt(r, _) => Load(r)
    case TailWrite(r, _, _) => Load(r)
    case _ => Nothing
  }

  function Carries(pc: Pc): multiset<Req> {
    match LoadOf(pc)
    case Nothing => multiset{}
    case Load(r) => multiset{r}
  }

  function Carried(threads: seq<Pc>): multiset<Req> {
    if threads == [] then multiset{} else Carried(threads[..|threads| - 1]) + Carries(threads[|threads| - 1])
  }

  function ServedIn(log: seq<Event>): multiset<Req> {
    if log == [] then multiset{}
    else
      var e := log[|log| - 1];
      ServedIn(log[..|log| - 1]) + if e.Served? then multiset{e.r} else multiset{}
  }

  // ---- the IV chain ------------------------------------------------------------------------

  // The random number generator was called.
  predicate Tried(log: seq<Event>) { exists e :: e in log && e.Seed? }

  // It was, and succeeded.
  predicate Seeded(log: seq<Event>) { exists e :: e in log && e.Seed? && e.err == 0 }

  // The IV the log leaves: what the generator left, or the last output of an encryption that succeeded
  function IvAfter(log: seq<Event>): nat {
    if log == [] then 0
    else
      match log[|log| - 1]
      case Seed(iv, _) => iv
      case Served(_, _, err, out) => if err == 0 then out else IvAfter(log[..|log| - 1])
  }

  // Every request was given the IV the one before it left, and never one from before the generator ran.
  predicate ChainOk(log: seq<Event>) {
    forall i :: 0 <= i < |log| && log[i].Served? ==> Tried(log[..i]) && log[i].giv == IvAfter(log[..i])
  }

  // ---- the invariant -------------------------------------------------------------------------

  // What a thread remembers of the shared context is still so.
  predicate Current(s: State, pc: Pc) {
    (pc.TailEncrypt? || pc.TailWrite? ==> pc.giv == s.iv) &&
    (pc.TailWrite? ==> s.err == 0) && (pc.SchedErr? ==> pc.own == s.err) &&
    (pc.SchedCheck? || pc.SchedClear? || pc.SchedRecheck? || pc.SchedTas? || pc.SchedQueue? || pc.Done? ==> pc.err == pc.own)
  }

  // Before the first seed nobody is beyond the first call, except to queue behind it.
  predicate Early(s: State, pc: Pc) {
    pc.First? || pc.FirstCheck? || pc.FirstRng? ||
    (s.bit && (pc.Entry? || pc.Enqueue? || pc.PostTas? || pc.Done?))
  }

  ghost predicate OneOwner(s: State) {
    (Owners(s.threads) + (if s.pending then 1 else 0) == (if s.bit then 1 else 0)) && !s.bug
  }

  ghost predicate NobodyWaits(s: State) { s.queue != [] && !s.bit ==> SomeoneComing(s.threads) }

  ghost predicate Conserved(s: State) {
    Carried(s.threads) + Placed(s) == multiset(s.submitted)
  }

  ghost predicate ChainKept(s: State) {
    ChainOk(s.log) && s.iv == IvAfter(s.log) && forall i :: 0 <= i < |s.threads| ==> Current(s, s.threads[i])
  }

  ghost predicate Youth(s: State) {
    !Tried(s.log) ==>
      !s.pending && (forall i :: 0 <= i < |s.threads| ==> Early(s, s.threads[i])) &&
      (!s.first ==> exists i :: 0 <= i < |s.threads| && s.threads[i].FirstRng?)
  }

  // The generator is called once, before anything else that is logged.
  predicate SeedFirst(log: seq<Event>) {
    log != [] ==> log[0].Seed? && forall i :: 0 < i < |log| ==> log[i].Served?
  }

  ghost predicate Unopened(s: State) {
    SeedFirst(s.log) && (s.first ==> s.log == []) &&
    forall i :: 0 <= i < |s.threads| && s.threads[i].FirstRng? ==> s.log == [] && !s.first
  }

  ghost predicate Core(s: State) { OneOwner(s) && Conserved(s) && ChainKept(s) && Youth(s) && Unopened(s) }

  ghost predicate Inv(s: State) { Core(s) && NobodyWaits(s) }

  // ---- counting --------------------------------------------------------------------------------

  lemma {:induction false} OwnersUpdate(threads: seq<Pc>, i: nat, pc: Pc)
    requires i < |threads|
    ensures Owners(threads[i := pc]) + (if Owns(threads[i]) then 1 else 0) == Owners(threads) + (if Owns(pc) then 1 else 0)
  {
    var n := |threads| - 1;
    if i < n {
      OwnersUpdate(threads[..n], i, pc);
      assert threads[i := pc][..n] == threads[..n][i := pc];
    } else {
      assert threads[i := pc][..n] == threads[..n];
    }
  }

  lemma Regroup(a: multiset<Req>, last: multiset<Req>, b: multiset<Req>, c: multiset<Req>, d: multiset<Req>)
    requires a + b == c + d
    ensures (a + last) + b == (c + last) + d
  {
    assert (a + last) + b == (a + b) + last && (c + last) + d == (c + d) + last;
  }

  lemma {:induction false} CarriedUpdate(threads: seq<Pc>, i: nat, pc: Pc)
    requires i < |threads|
    ensures Carried(threads[i := pc]) + Carries(threads[i]) == Carried(threads) + Carries(pc)
  {
    var n := |threads| - 1;
    if i < n {
      CarriedUpdate(threads[..n], i, pc);
      assert threads[i := pc][..n] == threads[..n][i := pc];
      Regroup(Carried(threads[..n][i := pc]), Carries(threads[n]), Carries(threads[i]), Carried(threads[..n]), Carries(pc));
    } else {
      assert threads[i := pc][..n] == threads[..n];
    }
  }

  lemma {:induction false} OwnerCounts(threads: seq<Pc>, i: nat)
    requires i < |threads| && Owns(threads[i])
    ensures Owners(threads) >= 1
    ensures forall j :: 0 <= j < |threads| && j != i && Owns(threads[j]) ==> Owners(threads) >= 2
  {
    var n := |threads| - 1;
    if i < n {
      OwnerCounts(threads[..n], i);
    } else {
      forall j | 0 <= j < n && Owns(threads[j]) ensures Owners(threads) >= 2 {
        OwnerCounts(threads[..n], j);
      }
    }
  }

  // An owner is alone: no other thread owns the chain and no work is queued.
  lemma Alone(s: State, i: nat)
    requires OneOwner(s) && i < |s.threads| && Owns(s.threads[i])
    ensures s.bit && !s.pending && forall j :: 0 <= j < |s.threads| && j != i ==> !Owns(s.threads[j])
  {
    OwnerCounts(s.threads, i);
  }

  lemma ComingUpdate(threads: seq<Pc>, i: nat, pc: Pc)
    requires i < |threads| && SomeoneComing(threads) && (Coming(pc) || !Coming(threads[i]))
    ensures SomeoneComing(threads[i := pc])
  {
    var j :| 0 <= j < |threads| && Coming(threads[j]);
    assert Coming(threads[i := pc][if j == i then i else j]);
  }

  // ---- every operation keeps the invariant -------------------------------------------------------

  predicate CanMove(s: State, i: nat) { i < |s.threads| && !s.threads[i].Done? }

  function Count(b: bool): nat { if b then 1 else 0 }

  // One operation takes the bit, gives it up or hands it on to the queued work, and never queues
  // the work twice.
  lemma ExecOwner(s: State, pc: Pc, a: Answer)
    requires !pc.Done? && (Owns(pc) ==> s.bit && !s.pending)
    ensures var o := Exec(s, pc, a);
            Count(Owns(o.pc)) + Count(o.s.pending) + Count(s.bit) == Count(Owns(pc)) + Count(s.pending) + Count(o.s.bit) &&
            o.s.bug == s.bug
  {
  }

  lemma OwnersOf(threads: seq<Pc>, i: nat, pc: Pc)
    requires i < |threads|
    ensures Owners(threads[i := pc]) + Count(Owns(threads[i])) == Owners(threads) + Count(Owns(pc))
  {
    hide Owns, Owners;
    OwnersUpdate(threads, i, pc);
  }

  // The owner is counted once, so schedule_work never finds the work queued already.
  lemma MoveOneOwner(s: State, i: nat, a: Answer)
    requires OneOwner(s) && CanMove(s, i)
    ensures OneOwner(Apply(s, Move(i, a)))
  {
    hide Exec, Owns, Owners;
    var o := Exec(s, s.threads[i], a);
    OwnersOf(s.threads, i, o.pc);
    if Owns(s.threads[i]) { Alone(s, i); }
    ExecOwner(s, s.threads[i], a);
  }

  lemma MultisetTail(q: seq<Req>)
    requires q != []
    ensures multiset(q) == multiset{q[0]} + multiset(q[1..])
  {
    assert q == [q[0]] + q[1..];
  }

  // The requests that are queued, served or turned away
  function Placed(s: State): multiset<Req> { multiset(s.queue) + ServedIn(s.log) + multiset(s.dropped) }

  lemma PlacedFrame(s: State, s': State)
    requires s'.queue == s.queue && s'.log == s.log && s'.dropped == s.dropped
    ensures Placed(s') == Placed(s)
  {
  }

  // The four ways a request changes its place
  lemma PlaceOne(s: State, r: Req, e: Event)
    requires e.Served? && e.r == r
    ensures Placed(s.(dropped := s.dropped + [r])) == multiset{r} + Placed(s)
    ensures Placed(s.(queue := s.queue + [r])) == multiset{r} + Placed(s)
    ensures Placed(s.(log := s.log + [e])) == multiset{r} + Placed(s)
  {
    assert (s.log + [e])[..|s.log|] == s.log;
  }

  lemma SeedOne(s: State, iv: nat, err: int)
    ensures Placed(s.(log := s.log + [Seed(iv, err)])) == Placed(s)
  {
    assert (s.log + [Seed(iv, err)])[..|s.log|] == s.log;
  }

  lemma TakeOne(s: State)
    requires s.queue != []
    ensures multiset{s.queue[0]} + Placed(s.(queue := s.queue[1..])) == Placed(s)
  {
    MultisetTail(s.queue);
  }

  // The other operations leave the request where it is.
  lemma ExecStays(s: State, pc: Pc, a: Answer)
    requires !pc.FirstRng? && !pc.Enqueue? && !pc.TailWrite? && !(pc.FirstClear? && pc.err != 0)
    requires !(pc.TailEncrypt? && a.err != 0) && !(pc.Dequeue? && s.queue != [])
    ensures var o := Exec(s, pc, a);
            o.s.queue == s.queue && o.s.log == s.log && o.s.dropped == s.dropped && LoadOf(o.pc) == LoadOf(pc)
  {
  }

  lemma ExecMoves(s: State, pc: Pc, a: Answer)
    requires pc.Enqueue? || pc.TailWrite? || (pc.FirstClear? && pc.err != 0) || (pc.TailEncrypt? && a.err != 0)
    ensures LoadOf(pc) == Load(pc.r) && LoadOf(Exec(s, pc, a).pc) == Nothing
  {
  }

  lemma NothingPlus(m: multiset<Req>)
    ensures multiset{} + m == m
  {
  }

  // A loaded thread puts its request down.
  lemma PutDownConserves(s: State, pc: Pc, a: Answer)
    requires pc.Enqueue? || pc.TailWrite? || (pc.FirstClear? && pc.err != 0) || (pc.TailEncrypt? && a.err != 0)
    ensures Carries(Exec(s, pc, a).pc) + Placed(Exec(s, pc, a).s) == Carries(pc) + Placed(s)
  {
    hide Placed, LoadOf;
    var o := Exec(s, pc, a);
    NothingPlus(Placed(o.s));
    ExecMoves(s, pc, a);
    if pc.FirstClear? {
      PlaceOne(s, pc.r, Served(pc.r, 0, 0, 0));
      PlacedFrame(s.(dropped := s.dropped + [pc.r]), o.s);
    } else if pc.Enqueue? {
      PlaceOne(s, pc.r, Served(pc.r, 0, 0, 0));
    } else {
      var e := o.s.log[|s.log|];
      PlaceOne(s, pc.r, e);
      PlacedFrame(s.(log := s.log + [e]), o.s);
    }
  }

  lemma LoadStays(s: State, pc: Pc, a: Answer)
    requires pc.FirstRng?
    ensures LoadOf(Exec(s, pc, a).pc) == LoadOf(pc)
  {
  }

  lemma LoadTaken(s: State, a: Answer)
    requires s.queue != []
    ensures LoadOf(Dequeue) == Nothing && LoadOf(Exec(s, Dequeue, a).pc) == Load(s.queue[0])
  {
  }

  // What one operation does to the requests: nothing is lost and nothing is made.
  lemma ExecConserves(s: State, pc: Pc, a: Answer)
    ensures Carries(Exec(s, pc, a).pc) + Placed(Exec(s, pc, a).s) == Carries(pc) + Placed(s)
  {
    hide Placed, LoadOf;
    var o := Exec(s, pc, a);
    if pc.Enqueue? || pc.TailWrite? || (pc.FirstClear? && pc.err != 0) || (pc.TailEncrypt? && a.err != 0) {
      PutDownConserves(s, pc, a);
    } else if pc.FirstRng? {
      SeedOne(s, a.iv, a.err);
      PlacedFrame(s.(log := s.log + [Seed(a.iv, a.err)]), o.s);
      LoadStays(s, pc, a);
    } else if pc.Dequeue? && s.queue != [] {
      TakeOne(s);
      NothingPlus(Placed(s));
      LoadTaken(s, a);
    } else {
      ExecStays(s, pc, a);
      PlacedFrame(s, o.s);
    }
  }

  lemma ExecKeepsSubmitted(s: State, pc: Pc, a: Answer)
    ensures Exec(s, pc, a).s.submitted == s.submitted
  {
  }

  lemma MoveConserves(s: State, i: nat, a: Answer)
    requires Conserved(s) && CanMove(s, i)
    ensures Conserved(Apply(s, Move(i, a)))
  {
    hide Exec, Carries, Carried, Placed;
    var o := Exec(s, s.threads[i], a);
    CarriedUpdate(s.threads, i, o.pc);
    ExecConserves(s, s.threads[i], a);
    ExecKeepsSubmitted(s, s.threads[i], a);
    Balance(Carried(s.threads), Carries(s.threads[i]), Carried(s.threads[i := o.pc]), Carries(o.pc), Placed(s), Placed(o.s));
    PlacedFrame(o.s, o.s.(threads := s.threads[i := o.pc]));
  }

  lemma Balance(a: multiset<Req>, b: multiset<Req>, a': multiset<Req>, b': multiset<Req>, r: multiset<Req>, r': multiset<Req>)
    requires a' + b == a + b' && b' + r' == b + r
    ensures a' + r' == a + r
  {
    forall x ensures (a' + r')[x] == (a + r)[x] {
      assert (a' + b)[x] == (a + b')[x] && (b' + r')[x] == (b + r)[x];
    }
  }

  lemma LogGrows(log: seq<Event>, e: Event)
    requires ChainOk(log) && (e.Served? ==> Tried(log) && e.giv == IvAfter(log))
    ensures ChainOk(log + [e])
  {
    var l' := log + [e];
    forall i | 0 <= i < |l'| && l'[i].Served? ensures Tried(l'[..i]) && l'[i].giv == IvAfter(l'[..i]) {
      if i < |log| { assert l'[..i] == log[..i]; } else { assert l'[..i] == log; }
    }
  }

  lemma TriedGrows(log: seq<Event>, e: Event)
    ensures Tried(log + [e]) <==> Tried(log) || e.Seed?
    ensures IvAfter(log + [e]) == match e { case Seed(iv, _) => iv case Served(_, _, err, out) => if err == 0 then out else IvAfter(log) }
  {
    assert (log + [e])[..|log|] == log;
    if e.Seed? { assert e in log + [e]; }
    if Tried(log) {
      var x :| x in log && x.Seed?;
      assert x in log + [e];
    }
  }

  // Only an owner changes the IV or the shared error.
  lemma ExecFrame(s: State, pc: Pc, a: Answer)
    ensures !Owns(pc) ==> Exec(s, pc, a).s.iv == s.iv && Exec(s, pc, a).s.err == s.err && Exec(s, pc, a).s.log == s.log
  {
  }

  lemma ExecCurrent(s: State, pc: Pc, a: Answer)
    requires Current(s, pc)
    ensures Current(Exec(s, pc, a).s, Exec(s, pc, a).pc)
  {
  }

  lemma ExecChain(s: State, pc: Pc, a: Answer)
    requires ChainOk(s.log) && s.iv == IvAfter(s.log) && Current(s, pc) && (Owns(pc) && !pc.FirstCheck? && !pc.FirstRng? ==> Tried(s.log))
    ensures var o := Exec(s, pc, a); ChainOk(o.s.log) && o.s.iv == IvAfter(o.s.log)
  {
    hide ChainOk, IvAfter, Tried;
    if pc.FirstRng? || pc.TailEncrypt? || pc.TailWrite? {
      var o := Exec(s, pc, a);
      if o.s.log != s.log {
        var e := o.s.log[|s.log|];
        LogGrows(s.log, e);
        TriedGrows(s.log, e);
      }
    }
  }

  lemma MoveChain(s: State, i: nat, a: Answer)
    requires Core(s) && CanMove(s, i)
    ensures ChainKept(Apply(s, Move(i, a)))
  {
    hide Exec, ChainOk, IvAfter, Tried, Conserved;
    var o := Exec(s, s.threads[i], a);
    ExecChain(s, s.threads[i], a);
    ExecCurrent(s, s.threads[i], a);
    ExecFrame(s, s.threads[i], a);
    if Owns(s.threads[i]) { Alone(s, i); }
  }

  lemma TriedStays(s: State, pc: Pc, a: Answer)
    requires Tried(s.log) || pc.FirstRng?
    ensures Tried(Exec(s, pc, a).s.log)
  {
    hide Tried;
    var o := Exec(s, pc, a);
    if o.s.log != s.log { TriedGrows(s.log, o.s.log[|s.log|]); }
  }

  // Before the generator ran, the owner is the one about to call it.
  lemma EarlyExec(s: State, pc: Pc, a: Answer)
    requires Early(s, pc) && !pc.FirstRng? && !pc.Done? && (Owns(pc) ==> s.bit) && (pc.FirstCheck? ==> s.first)
    ensures var o := Exec(s, pc, a);
            o.s.log == s.log && o.s.pending == s.pending && Early(o.s, o.pc) && (s.bit ==> o.s.bit) &&
            (o.s.first ==> s.first) && (s.first && !o.s.first ==> o.pc.FirstRng?)
  {
  }

  lemma MoveYouth(s: State, i: nat, a: Answer)
    requires Core(s) && CanMove(s, i)
    ensures Youth(Apply(s, Move(i, a)))
  {
    hide Conserved, ChainKept, Tried, Exec, OneOwner;
    var pc := s.threads[i];
    if Tried(s.log) || pc.FirstRng? {
      TriedStays(s, pc, a);
    } else {
      assert Early(s, pc);
      if Owns(pc) { Alone(s, i); }
      EarlyExec(s, pc, a);
      EarlyThreads(s, i, Exec(s, pc, a));
    }
  }

  lemma EarlyThreads(s: State, i: nat, o: Outcome)
    requires Youth(s) && !Tried(s.log) && i < |s.threads| && !s.threads[i].FirstRng?
    requires o.s.log == s.log && o.s.pending == s.pending && Early(o.s, o.pc) && (s.bit ==> o.s.bit)
    requires (o.s.first ==> s.first) && (s.first && !o.s.first ==> o.pc.FirstRng?)
    ensures Youth(o.s.(threads := s.threads[i := o.pc]))
  {
    hide Tried;
    var t' := s.threads[i := o.pc];
    assert t'[i] == o.pc;
    if !s.first {
      var j :| 0 <= j < |s.threads| && s.threads[j].FirstRng?;
      assert t'[j].FirstRng?;
    }
  }

  lemma MoveUnopened(s: State, i: nat, a: Answer)
    requires Core(s) && CanMove(s, i)
    ensures Unopened(Apply(s, Move(i, a)))
  {
    hide Conserved, ChainKept;
    var pc := s.threads[i];
    if Owns(pc) { Alone(s, i); }
    if s.log == [] {
      assert !Tried(s.log);
      assert Early(s, pc);
    }
  }

  // A queued request is left behind by one operation only: the first caller giving up on a
  // random number error, with requests queued and nobody else on the way to the bit.
  predicate LeavesBehind(s: State, i: nat)
    requires i < |s.threads|
  {
    s.threads[i].FirstClear? && s.threads[i].err != 0 && s.queue != [] && !SomeoneComing(s.threads[i := Done(0, 0)])
  }

  lemma MoveNobodyWaits(s: State, i: nat, a: Answer)
    requires OneOwner(s) && NobodyWaits(s) && CanMove(s, i)
    ensures NobodyWaits(Apply(s, Move(i, a))) <==> !LeavesBehind(s, i)
  {
    var pc := s.threads[i];
    var o := Exec(s, pc, a);
    var t' := s.threads[i := o.pc];
    if Owns(pc) { Alone(s, i); }
    if Coming(o.pc) { assert Coming(t'[i]); }
    if SomeoneComing(s.threads) && !Coming(pc) { ComingUpdate(s.threads, i, o.pc); }
    if pc.FirstClear? && pc.err != 0 { SameComing(s.threads, i, o.pc, Done(0, 0)); }
  }

  lemma SameComing(threads: seq<Pc>, i: nat, a: Pc, b: Pc)
    requires i < |threads| && !Coming(a) && !Coming(b)
    ensures SomeoneComing(threads[i := a]) <==> SomeoneComing(threads[i := b])
  {
    var x, y := threads[i := a], threads[i := b];
    assert forall j :: 0 <= j < |threads| ==> Coming(x[j]) == Coming(y[j]);
  }
}
