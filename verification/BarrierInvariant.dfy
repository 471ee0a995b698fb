/**
 * What holds between the entry points of a queue that orders barriers by draining.
 */
module BarrierInvariant {
  import opened BarrierModel

  // ---- epochs: how many barriers were queued before a request ------------------------------

  function EpochAt(subs: seq<Sub>, n: nat): nat
    requires n <= |subs|
  {
    if n == 0 then 0 else EpochAt(subs, n - 1) + if subs[n - 1].barrier then 1 else 0
  }

  lemma {:induction false} EpochMono(subs: seq<Sub>, a: nat, b: nat)
    requires a <= b <= |subs|
    ensures EpochAt(subs, a) <= EpochAt(subs, b)
    ensures a < b && subs[a].barrier ==> EpochAt(subs, a) < EpochAt(subs, b)
    decreases b
  {
    if a < b { EpochMono(subs, a, b - 1); }
  }

  lemma {:induction false} EpochPrefix(subs: seq<Sub>, s: Sub, n: nat)
    requires n <= |subs|
    ensures EpochAt(subs + [s], n) == EpochAt(subs, n)
  {
    if n > 0 { EpochPrefix(subs, s, n - 1); }
  }

  // Every epoch below the current one was closed by a barrier.
  lemma {:induction false} EpochWitness(subs: seq<Sub>, n: nat, e: nat) returns (b: nat)
    requires n <= |subs| && e < EpochAt(subs, n)
    ensures b < n && subs[b].barrier && EpochAt(subs, b) == e
  {
    if EpochAt(subs, n - 1) <= e { b := n - 1; } else { b := EpochWitness(subs, n - 1, e); }
  }

  // ---- the log -------------------------------------------------------------------------------

  ghost predicate Ended(log: seq<Event>, id: nat) {
    exists e :: e in log && e.End? && e.id == id
  }

  function FirstError(log: seq<Event>, id: nat): int {
    if log == [] then 0
    else
      var e := log[|log| - 1];
      FirstNonZero(FirstError(log[..|log| - 1], id), if e.StageError? && e.id == id then e.error else 0)
  }

  // Every file-system request queued before `id` has ended.
  ghost predicate AllEndedBefore(subs: seq<Sub>, log: seq<Event>, id: nat)
    requires id <= |subs|
  {
    forall a :: 0 <= a < id && subs[a].fs ==> Ended(log, a)
  }

  // Which stages a barrier goes through.
  predicate HasStage(m: Mode, empty: bool, role: Role) {
    match role
    case Original => false
    case PreFlush => m.doPre
    case BarProxy => m.doBar && !empty
    case PostFlush => m.doPost && !empty
  }

  // The ordering rules, in terms of the log alone: what must have happened before an event.
  ghost predicate EventOk(subs: seq<Sub>, m: Mode, log: seq<Event>, e: Event) {
    e.id < |subs| &&
    match e
    case Issue(role, id) =>
      (role == Original && subs[id].fs ==>
         !subs[id].barrier && forall b :: 0 <= b < id && subs[b].barrier ==> Ended(log, b)) &&
      (role != Original ==>
         subs[id].barrier && HasStage(m, subs[id].empty, role) && !Ended(log, id) &&
         AllEndedBefore(subs, log, id)) &&
      (role == BarProxy && HasStage(m, subs[id].empty, PreFlush) ==> StageDone(PreFlush, id) in log) &&
      (role == PostFlush && HasStage(m, subs[id].empty, BarProxy) ==> StageDone(BarProxy, id) in log)
    case StageError(_, _) => true
    case StageDone(role, id) => Issue(role, id) in log && StageDone(role, id) !in log
    case End(id, error) =>
      !Ended(log, id) &&
      if subs[id].barrier then
        AllEndedBefore(subs, log, id) && error == FirstError(log, id) &&
        forall role :: HasStage(m, subs[id].empty, role) ==> StageDone(role, id) in log
      else
        Issue(Original, id) in log
  }

  ghost predicate LogOk(subs: seq<Sub>, m: Mode, log: seq<Event>) {
    forall i :: 0 <= i < |log| ==> EventOk(subs, m, log[..i], log[i])
  }

  // ---- the lists -----------------------------------------------------------------------------

  function Base(q: Queue): int { if Active(q) then q.taken - 1 else q.taken }

  predicate Odd(n: nat) { n % 2 == 1 }

  // The stamp of an original request agrees with what was submitted.
  predicate Known(q: Queue, r: Request) {
    r.role == Original && r.id < |q.subs| && r.epoch == EpochAt(q.subs, r.id) &&
    q.subs[r.id] == Sub(r.kind == Fs, IsBarrier(r), r.empty) &&
    (r.kind == Fs ==> r.color == Odd(r.epoch)) && (r.hard ==> r.kind == Fs)
  }

  predicate BitOf(o: OrdSeq, role: Role) { Overlap(o, StageBit(role)) }

  predicate ProxyOk(q: Queue, r: Request) {
    r.role != Original && Active(q) && r.id == q.orig.id && r.epoch == q.orig.epoch && r.soft &&
    r.kind == (if r.role == BarProxy then Fs else Special) &&
    HasStage(q.nextMode, q.orig.empty, r.role) && !BitOf(q.ordseq, r.role) &&
    StageDone(r.role, r.id) !in q.log
  }

  predicate HeadOk(q: Queue, r: Request) {
    (r.started ==> Issue(r.role, r.id) in q.log) &&
    if r.role == Original then
      Known(q, r) && (r.kind == Special ==> r.soft) &&
      (r.kind == Fs ==>
         Base(q) <= r.epoch && (r.hard ==> q.taken <= r.epoch && !r.started) &&
         (r.started ==> r.epoch == Base(q)) &&
         (Active(q) && r.epoch == Base(q) ==> r.soft && !q.ordseq.drain))
    else
      ProxyOk(q, r) && (r.started ==> CurSeq(q.ordseq) == StageSeq(r.role))
  }

  predicate DriverOk(q: Queue, r: Request) {
    r.started && Issue(r.role, r.id) in q.log &&
    if r.role == Original then
      Known(q, r) &&
      (r.kind == Fs ==> r.epoch == Base(q) && !r.hard && (Active(q) ==> !q.ordseq.drain))
    else
      ProxyOk(q, r) && CurSeq(q.ordseq) == StageSeq(r.role)
  }

  predicate SortedOk(q: Queue, r: Request) {
    Known(q, r) && r.kind != Special && !r.hard && !r.soft && !r.started &&
    (r.kind == Fs ==> r.epoch == q.epoch)
  }

  predicate Same(r: Request, s: Request) { r.role == s.role && r.id == s.id }

  // File-system requests and proxies have a place in the order; the rest may go anywhere.
  predicate Placed(r: Request) { r.role != Original || r.kind == Fs }

  function Rank(r: Request): int {
    10 * r.epoch +
    match r.role
    case PreFlush => 1
    case BarProxy => 2
    case PostFlush => 3
    case Original => if r.hard then 4 else 0
  }

  predicate Before(r: Request, s: Request) {
    !Same(r, s) && (Placed(r) && Placed(s) ==> Rank(r) < Rank(s) || (Rank(r) == Rank(s) && r.role == Original && !r.hard))
  }

  predicate InOrder(head: seq<Request>) {
    forall i, j :: 0 <= i < j < |head| ==> Before(head[i], head[j])
  }

  // The parts of the invariant below are compared with `true` so that the verifier passes each
  // one on as a whole instead of conjunct by conjunct.
  predicate Apart(q: Queue) {
    ((forall r, s :: r in q.head && s in q.driver ==> !Same(r, s)) &&
     (forall r, s :: r in q.head && s in q.sorted ==> !Same(r, s)) &&
     (forall r, s :: r in q.driver && s in q.sorted ==> !Same(r, s)) &&
     (forall r, s :: r in q.driver && s in q.driver && Same(r, s) ==> r == s) &&
     (forall r, s :: r in q.sorted && s in q.sorted && Same(r, s) ==> r == s) &&
     (Active(q) ==>
        (forall r :: r in q.head ==> !Same(r, q.orig)) &&
        (forall r :: r in q.driver ==> !Same(r, q.orig)) &&
        (forall r :: r in q.sorted ==> !Same(r, q.orig)))) == true
  }

  ghost predicate Held(q: Queue, role: Role, id: nat) {
    (exists r :: r in q.head && r.role == role && r.id == id) ||
    (exists r :: r in q.driver && r.role == role && r.id == id) ||
    (exists r :: r in q.sorted && r.role == role && r.id == id)
  }

  ghost predicate Live(q: Queue, id: nat) {
    Held(q, Original, id) || (Active(q) && q.orig.id == id)
  }

  // Conservation: what was queued is either still somewhere or has ended, never both.
  ghost predicate Conserved(q: Queue) {
    (forall id :: 0 <= id < |q.subs| ==> (Live(q, id) <==> !Ended(q.log, id))) == true
  }

  predicate OrigOk(q: Queue) {
    Active(q) ==>
      Known(q, q.orig) && IsBarrier(q.orig) && !q.orig.started && q.orig.epoch + 1 == q.taken
  }

  // Each stage still to come has its proxy, unless the role is in `gap`.
  ghost predicate Staged(q: Queue, gap: set<Role>) {
    (Active(q) ==>
       forall role :: role != Original && !BitOf(q.ordseq, role) ==>
         (Held(q, role, q.orig.id) <==> role !in gap)) == true
  }

  ghost function AccountedIn(s: set<Request>): set<Request> { set r | r in s && Accounted(r) }

  predicate DrainMode(m: Mode) { m.byDrain && !m.byTag }

  ghost predicate ConfigOk(q: Queue) {
    (DrainMode(q.nextMode) && !q.bug && !q.warned &&
     q.ordColor == Odd(q.epoch) && q.epoch == EpochAt(q.subs, |q.subs|) && q.taken <= q.epoch &&
     (Active(q) ==> q.ordseq.started && CurSeq(q.ordseq) != SEQ_DONE &&
                    q.mode == EffectiveMode(q.nextMode, q.orig.empty)) &&
     OrigOk(q)) == true
  }

  ghost predicate ListsOk(q: Queue) {
    ((forall r :: r in q.head ==> HeadOk(q, r)) &&
     (forall r :: r in q.driver ==> DriverOk(q, r)) &&
     (forall r :: r in q.sorted ==> SortedOk(q, r)) &&
     InOrder(q.head) && Apart(q)) == true
  }

  // Past events belong to barriers already taken; a stage that is done is in the log.
  ghost predicate HistoryOk(q: Queue) {
    (LogOk(q.subs, q.nextMode, q.log) &&
     (forall e :: e in q.log && e.id < |q.subs| && q.subs[e.id].barrier && !e.Issue? ==>
        EpochAt(q.subs, e.id) < q.taken) &&
     (forall e :: e in q.log ==> e.id < |q.subs|) &&
     (Active(q) ==>
        forall role :: HasStage(q.nextMode, q.orig.empty, role) && BitOf(q.ordseq, role) ==>
          StageDone(role, q.orig.id) in q.log)) == true
  }

  ghost predicate ErrorOk(q: Queue) {
    Active(q) ==> q.orderr == FirstError(q.log, q.orig.id)
  }

  ghost predicate Core(q: Queue, gap: set<Role>) {
    ConfigOk(q) && ListsOk(q) && Conserved(q) && Staged(q, gap) && HistoryOk(q) &&
    q.inFlight == |AccountedIn(q.driver)|
  }

  // While draining, the driver has something to finish or something it may be given.
  ghost predicate Awake(q: Queue) {
    Active(q) && !q.ordseq.drain ==>
      q.driver != {} || (q.head != [] && ReqSeq(q, q.head[0]) <= SEQ_DRAIN)
  }

  ghost predicate Inv(q: Queue) { Core(q, {}) && ErrorOk(q) && Awake(q) }
}
