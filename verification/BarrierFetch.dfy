/**
 * Handing requests to the driver: starting a sequence, waiting one's turn, marking started.
 */
module BarrierFetch {
  import opened BarrierModel
  import opened BarrierInvariant
  import opened BarrierSequence

  // A barrier that was not taken yet is in the dispatch list.
  lemma PendingBarrier(q: Queue, gap: set<Role>, b: nat) returns (j: nat)
    requires Core(q, gap) && b < |q.subs| && q.subs[b].barrier && EpochAt(q.subs, b) >= q.taken
    ensures j < |q.head| && q.head[j].role == Original && q.head[j].id == b && Known(q, q.head[j])
  {
    assert !Ended(q.log, b);
    assert Live(q, b);
    forall r | r in q.driver ensures !(r.role == Original && r.id == b) { assert DriverOk(q, r); }
    forall r | r in q.sorted ensures !(r.role == Original && r.id == b) { assert SortedOk(q, r); }
    assert exists s :: s in q.head && s.role == Original && s.id == b;
    var s :| s in q.head && s.role == Original && s.id == b;
    assert HeadOk(q, s);
    j :| 0 <= j < |q.head| && q.head[j] == s;
  }

  // No file-system request at the head of the list has passed a pending barrier.
  lemma HeadEpoch(q: Queue, gap: set<Role>)
    requires Core(q, gap) && q.head != [] && q.head[0].role == Original && q.head[0].kind == Fs
    ensures q.head[0].epoch <= q.taken
  {
    var r := q.head[0];
    assert HeadOk(q, r);
    if r.epoch > q.taken {
      var b := EpochWitness(q.subs, r.id, q.taken);
      var j := PendingBarrier(q, gap, b);
    }
  }

  lemma {:induction false} NoStageError(log: seq<Event>, id: nat)
    requires forall e :: e in log && e.StageError? ==> e.id != id
    ensures FirstError(log, id) == 0
  {
    if log != [] {
      assert log[|log| - 1] in log;
      NoStageError(log[..|log| - 1], id);
    }
  }

  function SkippedRoles(m: Mode): set<Role> {
    (if m.doPre then {} else {PreFlush}) + (if m.doBar then {} else {BarProxy}) + (if m.doPost then {} else {PostFlush})
  }

  // What is known of a queue about to start a sequence: the barrier opens the current epoch
  // and everything that must keep order behind it belongs to a later one.
  lemma AtStart(q: Queue)
    requires Core(q, {}) && !Active(q) && q.head != [] && IsBarrier(q.head[0])
    ensures Known(q, q.head[0]) && q.head[0].epoch == q.taken < q.epoch && !q.head[0].started
    ensures forall r :: r in q.head[1..] ==>
              HeadOk(q, r) && r.role == Original && !Same(r, q.head[0]) && (r.kind == Fs ==> r.epoch > q.taken)
  {
    var rq := q.head[0];
    assert HeadOk(q, rq);
    HeadEpoch(q, {});
    EpochMono(q.subs, rq.id, |q.subs|);
    forall r | r in q.head[1..]
      ensures HeadOk(q, r) && r.role == Original && !Same(r, rq) && (r.kind == Fs ==> r.epoch > q.taken)
    {
      var j :| 0 <= j < |q.head[1..]| && q.head[1..][j] == r;
      assert q.head[j + 1] == r && Before(q.head[0], q.head[j + 1]);
    }
  }

  lemma ProxyFacts(m: Mode, orig: Request)
    ensures forall r :: r in Proxies(EffectiveMode(m, orig.empty), orig) ==>
              r.role != Original && r == StageRequest(r.role, orig) && HasStage(m, orig.empty, r.role)
  {
  }

  // What the head of the list is once the sequence is queued.
  lemma StashedHead(q: Queue)
    requires q.head != []
    ensures forall r :: r in Stash(q).head ==> r in Proxies(Stash(q).mode, q.head[0]) || r in q.head[1..]
    ensures forall r :: r in Proxies(Stash(q).mode, q.head[0]) ==>
              r.role != Original && r == StageRequest(r.role, q.head[0]) &&
              HasStage(q.nextMode, q.head[0].empty, r.role)
  {
    hide Proxies, EffectiveMode, HasStage, StageRequest;
    ProxyFacts(q.nextMode, q.head[0]);
  }

  lemma StashElements(q: Queue)
    requires ListsOk(q) && !Active(q) && q.head != [] && IsBarrier(q.head[0]) && q.head[0].epoch == q.taken
    requires forall r :: r in q.head[1..] ==>
               HeadOk(q, r) && r.role == Original && (r.kind == Fs ==> r.epoch > q.taken)
    requires forall role :: StageDone(role, q.head[0].id) !in q.log
    ensures var q1 := Stash(q);
      (forall r :: r in q1.head ==> HeadOk(q1, r) && (r.role != Original ==> !r.started)) &&
      (forall r :: r in q1.driver ==> DriverOk(q1, r) && r.role == Original) &&
      (forall r :: r in q1.sorted ==> SortedOk(q1, r))
  {
    hide Apart, InOrder, Proxies, EffectiveMode;
    StashedHead(q);
    var q1 := Stash(q);
    forall r | r in q1.head ensures HeadOk(q1, r) && (r.role != Original ==> !r.started) {}
    forall r | r in q.driver ensures DriverOk(q1, r) && r.role == Original { assert DriverOk(q, r); }
    forall r | r in q.sorted ensures SortedOk(q1, r) { assert SortedOk(q, r); }
  }

  lemma OrderedConcat(ps: seq<Request>, rest: seq<Request>)
    requires InOrder(ps) && InOrder(rest)
    requires forall p, r :: p in ps && r in rest ==> Before(p, r)
    ensures InOrder(ps + rest)
  {
    var s := ps + rest;
    forall i, j | 0 <= i < j < |s| ensures Before(s[i], s[j]) {
      if i < |ps| <= j { assert ps[i] in ps && rest[j - |ps|] in rest; }
    }
  }

  lemma InOrderTail(head: seq<Request>)
    requires InOrder(head) && head != []
    ensures InOrder(head[1..])
  {
    forall i, j | 0 <= i < j < |head[1..]| ensures Before(head[1..][i], head[1..][j]) {
      assert Before(head[i + 1], head[j + 1]);
    }
  }

  lemma AllOriginal(q: Queue)
    requires ListsOk(q) && !Active(q)
    ensures forall r :: r in q.head || r in q.driver || r in q.sorted ==> r.role == Original
  {
    forall r | r in q.head || r in q.driver || r in q.sorted ensures r.role == Original {
      if r in q.head { assert HeadOk(q, r); }
      else if r in q.driver { assert DriverOk(q, r); }
      else { assert SortedOk(q, r); }
    }
  }

  lemma StashOrder(q: Queue)
    requires InOrder(q.head) && q.head != [] && q.head[0].epoch == q.taken
    requires forall r :: r in q.head[1..] ==> r.role == Original && (r.kind == Fs ==> r.epoch > q.taken)
    ensures InOrder(Stash(q).head)
  {
    var ps := Proxies(Stash(q).mode, q.head[0]);
    InOrderTail(q.head);
    OrderedConcat(ps, q.head[1..]);
  }

  lemma StashApart(q: Queue)
    requires q.head != [] && Apart(q)
    requires forall r :: r in q.head || r in q.driver || r in q.sorted ==> r.role == Original
    requires forall r :: r in q.head[1..] ==> !Same(r, q.head[0])
    ensures Apart(Stash(q))
  {
    var q1 := Stash(q);
    assert q.head[0] in q.head;
    forall r | r in q1.head ensures r.role != Original || (r in q.head && r in q.head[1..]) {
      assert r in Proxies(q1.mode, q.head[0]) || r in q.head[1..];
    }
  }

  lemma StashConserves(q: Queue)
    requires q.head != [] && !Active(q) && Conserved(q) && q.head[0].role == Original
    requires forall r :: r in q.head[1..] ==> !Same(r, q.head[0])
    ensures Conserved(Stash(q))
  {
    var rq := q.head[0];
    var q1 := Stash(q);
    assert forall r :: r in q.head <==> r == rq || r in q.head[1..];
    assert forall r :: r in q1.head <==> r in Proxies(q1.mode, rq) || r in q.head[1..];
    forall id | 0 <= id < |q.subs| ensures Live(q1, id) <==> !Ended(q1.log, id) {
      if id == rq.id {
        assert Held(q, Original, id);
      } else {
        assert Held(q1, Original, id) == Held(q, Original, id);
      }
    }
  }

  lemma ProxyOf(m: Mode, orig: Request, role: Role)
    requires role != Original
    ensures forall r :: r in Proxies(m, orig) && r.role == role ==> r == StageRequest(role, orig)
    ensures StageRequest(role, orig) in Proxies(m, orig) <==> role !in SkippedRoles(m)
  {
  }

  lemma StashStage(q: Queue, role: Role)
    requires q.head != [] && role != Original
    requires forall r :: r in q.head || r in q.driver || r in q.sorted ==> r.role == Original
    ensures Held(Stash(q), role, q.head[0].id) <==> role !in SkippedRoles(Stash(q).mode)
  {
    hide Proxies, SkippedRoles, EffectiveMode;
    var q1 := Stash(q);
    var ps := Proxies(q1.mode, q.head[0]);
    ProxyOf(q1.mode, q.head[0], role);
    assert forall r :: r in q1.head <==> r in ps || r in q.head[1..];
    if role !in SkippedRoles(q1.mode) { assert StageRequest(role, q.head[0]) in q1.head; }
  }

  lemma StashConfig(q: Queue)
    requires ConfigOk(q) && !Active(q) && q.head != [] && IsBarrier(q.head[0])
    requires Known(q, q.head[0]) && q.head[0].epoch == q.taken < q.epoch && !q.head[0].started
    ensures ConfigOk(Stash(q)) && Active(Stash(q)) && Stash(q).orig == q.head[0]
  {
    hide Proxies, EffectiveMode;
  }

  lemma StashHistory(q: Queue)
    requires HistoryOk(q) && ConfigOk(q) && !Active(q) && q.head != []
    requires forall role :: StageDone(role, q.head[0].id) !in q.log
    ensures HistoryOk(Stash(q))
  {
    hide Proxies, EffectiveMode, LogOk;
  }

  lemma StashStages(q: Queue)
    requires q.head != []
    requires forall role :: role != Original ==>
               (Held(Stash(q), role, q.head[0].id) <==> role !in SkippedRoles(Stash(q).mode))
    ensures Staged(Stash(q), SkippedRoles(Stash(q).mode))
  {
    hide Proxies, EffectiveMode, Held, SkippedRoles;
  }

  lemma Unlogged(q: Queue)
    requires Core(q, {}) && !Active(q) && q.head != [] && IsBarrier(q.head[0]) && q.head[0].epoch == q.taken && Known(q, q.head[0])
    ensures forall role :: StageDone(role, q.head[0].id) !in q.log
    ensures forall e :: e in q.log && e.StageError? ==> e.id != q.head[0].id
  {
    hide LogOk, ListsOk, Conserved, Staged;
  }

  lemma StashCore(q: Queue)
    requires Core(q, {}) && !Active(q) && q.head != [] && IsBarrier(q.head[0])
    ensures Core(Stash(q), SkippedRoles(Stash(q).mode)) && NoneStarted(Stash(q))
    ensures FirstError(q.log, q.head[0].id) == 0
  {
    hide Apart, Conserved, Held, InOrder, HeadOk, DriverOk, SortedOk, Proxies, EffectiveMode, ConfigOk, HistoryOk, Staged, Known;
    AtStart(q);
    AllOriginal(q);
    Unlogged(q);
    StashElements(q);
    StashOrder(q);
    StashApart(q);
    StashConserves(q);
    forall role | role != Original ensures Held(Stash(q), role, q.head[0].id) <==> role !in SkippedRoles(Stash(q).mode) {
      StashStage(q, role);
    }
    StashStages(q);
    StashConfig(q);
    StashHistory(q);
    NoStageError(q.log, q.head[0].id);
  }

  // Nothing in flight means no file-system request is with the driver.
  lemma NothingInFlight(q: Queue)
    requires ListsOk(q) && |AccountedIn(q.driver)| == 0
    ensures forall r :: r in q.driver ==> r.kind != Fs
  {
    forall r | r in q.driver ensures r.kind != Fs {
      assert DriverOk(q, r);
      assert r !in AccountedIn(q.driver);
    }
  }

  lemma SomethingInFlight(driver: set<Request>)
    requires |AccountedIn(driver)| != 0
    ensures driver != {}
  {
    var r :| r in AccountedIn(driver);
  }

  // The head may be handed out: a proxy whose stage has come, a request queued before every
  // pending barrier, or a request that barriers do not concern.
  predicate Ready(q: Queue, r: Request) {
    (r.role != Original ==> CurSeq(q.ordseq) == StageSeq(r.role)) &&
    (r.role == Original && r.kind == Fs ==> r.epoch == Base(q) && !r.hard)
  }

  lemma SkipMaskFits(m: Mode, drains: bool)
    ensures forall role :: role != Original ==> (role in SkippedRoles(m) <==> BitOf(SkipMask(m, drains), role))
    ensures forall role, empty, next :: m == EffectiveMode(next, empty) && HasStage(next, empty, role) ==>
              !BitOf(SkipMask(m, drains), role)
  {
  }

  // What start_ordered returns is the first proxy, once it is its turn.
  lemma StartResult(q: Queue)
    requires q.head != [] && DrainMode(q.nextMode) && !Active(q)
    ensures var q1 := Stash(q); var o := StartOrdered(q);
      o.q == CompleteSeq(q1, SkipMask(q1.mode, q1.mode.byDrain && q1.inFlight != 0), 0).0 &&
      (o.rq != [] ==> o.keep && o.q.head != [] && o.rq == [o.q.head[0]] && Ready(o.q, o.q.head[0]))
  {
  }

  lemma SkipsDrain(q: Queue)
    requires ListsOk(q) && !Active(q) && q.head != [] && DrainMode(q.nextMode) && !q.head[0].started
    requires q.inFlight == |AccountedIn(q.driver)|
    requires forall r :: r in q.head[1..] ==> r.role == Original && (r.kind == Fs ==> r.epoch > q.taken)
    ensures Stash(q).inFlight == 0 ==> NoneDraining(Stash(q))
    ensures Stash(q).inFlight != 0 ==> q.driver != {}
  {
    var q1 := Stash(q);
    if q1.inFlight == 0 {
      NothingInFlight(q);
      forall r | r in q1.head && r.role == Original && r.kind == Fs ensures r.epoch != Base(q1) {
        assert r in Proxies(q1.mode, q.head[0]) || r in q.head[1..];
      }
    } else {
      SomethingInFlight(q.driver);
    }
  }

  lemma StashCompletes(q: Queue)
    requires Core(q, {}) && !Active(q) && q.head != [] && IsBarrier(q.head[0])
    ensures var q1 := Stash(q);
            var (q2, done) := CompleteSeq(q1, SkipMask(q1.mode, q1.inFlight != 0), 0);
            Completed(q2, done)
  {
    AtStart(q);
    StashCore(q);
    SkipsDrain(q);
    var q1 := Stash(q);
    SkipMaskFits(q1.mode, q1.inFlight != 0);
    CompleteSeqKeeps(q1, SkipMask(q1.mode, q1.inFlight != 0), 0, SkippedRoles(q1.mode));
  }

  lemma StartOrderedKeeps(q: Queue)
    requires Core(q, {}) && !Active(q) && q.head != [] && IsBarrier(q.head[0])
    ensures Inv(StartOrdered(q).q)
    ensures var o := StartOrdered(q);
            o.rq != [] ==> o.keep && o.q.head != [] && o.rq == [o.q.head[0]] && Ready(o.q, o.q.head[0])
  {
    AtStart(q);
    SkipsDrain(q);
    StashCompletes(q);
    StartResult(q);
  }

  // One colour bit is enough: while a sequence is in progress, the request at the head
  // carries the barrier's colour exactly if it was queued before the barrier.
  lemma OneColourBit(q: Queue, gap: set<Role>)
    requires Core(q, gap) && Active(q) && q.head != []
    requires q.head[0].role == Original && q.head[0].kind == Fs
    ensures q.head[0].color == q.orig.color <==> q.head[0].id < q.orig.id
    ensures q.head[0].id < q.orig.id ==> q.head[0].epoch == Base(q) && !q.ordseq.drain && !q.head[0].hard
  {
    var r := q.head[0];
    HeadEpoch(q, gap);
    assert HeadOk(q, r);
    assert !Same(r, q.orig);
    if r.id < q.orig.id { EpochMono(q.subs, r.id, q.orig.id); } else { EpochMono(q.subs, q.orig.id, r.id); }
  }

  // Within a sequence the request at the head is let through or held back; nothing changes
  // and the "seq < cur_seq" warning is never reached.
  lemma MidSequence(q: Queue)
    requires Core(q, {}) && Active(q) && q.head != []
    ensures DoOrdered(q).q == q && DoOrdered(q).keep
    ensures DoOrdered(q).rq != [] ==> DoOrdered(q).rq == [q.head[0]] && Ready(q, q.head[0])
  {
    var r := q.head[0];
    assert HeadOk(q, r);
    if r.role == Original && r.kind == Fs {
      OneColourBit(q, {});
      if r.id >= q.orig.id { assert ReqSeq(q, r) == SEQ_DONE; }
    }
  }

  lemma DoOrderedKeeps(q: Queue)
    requires Inv(q) && q.head != []
    ensures Inv(DoOrdered(q).q)
    ensures var o := DoOrdered(q);
            o.rq != [] ==> o.keep && o.q.head != [] && o.rq == [o.q.head[0]] && Ready(o.q, o.q.head[0])
  {
    var r := q.head[0];
    if Active(q) {
      MidSequence(q);
    } else if IsBarrier(r) {
      StartOrderedKeeps(q);
    } else {
      assert HeadOk(q, r);
      if r.kind == Fs { HeadEpoch(q, {}); }
    }
  }

  lemma {:induction false} PeekKeeps(q: Queue)
    requires Inv(q)
    ensures Inv(Peek(q).0)
    ensures var (q1, rq) := Peek(q); rq != [] ==> q1.head != [] && rq == [q1.head[0]] && Ready(q1, q1.head[0])
    decreases |q.head|
  {
    if q.head != [] {
      DoOrderedKeeps(q);
      if !DoOrdered(q).keep {
        DroppedHead(q);
        PeekKeeps(DoOrdered(q).q);
      }
    }
  }
}
