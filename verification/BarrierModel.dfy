/**
 * The ordered-write (barrier) protocol of the block layer: what one request queue
 * remembers, and what each entry point does to it. Every entry point runs under the
 * queue lock, so each is one atomic step.
 *
 * Requests are values. `subs`, `epoch`, `taken`, `log` and the `epoch` stamp of a request
 * are bookkeeping of this specification: no branch reads them.
 */
module BarrierModel {

  // cmd_type: file-system data, a discard command of another type, or anything else.
  datatype Kind = Fs | Discard | Special

  // A request a submitter owns, or one of the three requests embedded in the queue.
  datatype Role = Original | PreFlush | BarProxy | PostFlush

  // hard: REQ_HARDBARRIER, soft: REQ_SOFTBARRIER, color: REQ_ORDERED_COLOR,
  // started: REQ_STARTED, empty: hard_nr_sectors == 0.
  // A proxy carries the id and the epoch of the barrier it stands for.
  datatype Request = Request(id: nat, role: Role, kind: Kind, hard: bool, soft: bool,
                             color: bool, started: bool, empty: bool, epoch: nat)

  // QUEUE_ORDERED_*: QUEUE_ORDERED_NONE is the mode with every bit clear.
  datatype Mode = Mode(byDrain: bool, byTag: bool, doPre: bool, doBar: bool, doPost: bool)

  // QUEUE_ORDSEQ_* bits of q->ordseq; QUEUE_ORDSEQ_DONE is never stored.
  datatype OrdSeq = OrdSeq(started: bool, drain: bool, preflush: bool, bar: bool, postflush: bool)

  datatype Sub = Sub(fs: bool, barrier: bool, empty: bool)

  datatype Event =
    | Issue(role: Role, id: nat)
    | StageError(id: nat, error: int)
    | StageDone(role: Role, id: nat)
    | End(id: nat, error: int)

  datatype Queue = Queue(
    head: seq<Request>, sorted: set<Request>, driver: set<Request>, inFlight: int,
    ordseq: OrdSeq, orderr: int, mode: Mode, nextMode: Mode, orig: Request, ordColor: bool,
    bug: bool, warned: bool,
    subs: seq<Sub>, epoch: nat, taken: nat, log: seq<Event>)

  datatype Where = Front | Back | Sort

  datatype Submission = Submission(kind: Kind, hard: bool, soft: bool, empty: bool, elvPriv: bool)

  // One elevator_dispatch_fn result: which held request goes where in the dispatch list.
  datatype Move = Move(rq: Request, pos: nat)

  const MODE_NONE := Mode(false, false, false, false, false)
  const ORDSEQ_NONE := OrdSeq(false, false, false, false, false)

  const SEQ_STARTED: nat := 0x01
  const SEQ_DRAIN: nat := 0x02
  const SEQ_PREFLUSH: nat := 0x04
  const SEQ_BAR: nat := 0x08
  const SEQ_POSTFLUSH: nat := 0x10
  const SEQ_DONE: nat := 0x20

  const EOPNOTSUPP: int := -95

  predicate Active(q: Queue) { q.ordseq != ORDSEQ_NONE }

  // blk_account_rq
  predicate Accounted(r: Request) { r.started && r.kind != Special }

  function Weight(r: Request): int { if Accounted(r) then 1 else 0 }

  predicate IsBarrier(r: Request) { r.kind == Fs && r.hard }

  // blk_ordered_cur_seq: the lowest clear bit.
  function CurSeq(o: OrdSeq): nat {
    if o == ORDSEQ_NONE then 0
    else if !o.started then SEQ_STARTED
    else if !o.drain then SEQ_DRAIN
    else if !o.preflush then SEQ_PREFLUSH
    else if !o.bar then SEQ_BAR
    else if !o.postflush then SEQ_POSTFLUSH
    else SEQ_DONE
  }

  function Or(a: OrdSeq, b: OrdSeq): OrdSeq {
    OrdSeq(a.started || b.started, a.drain || b.drain, a.preflush || b.preflush,
           a.bar || b.bar, a.postflush || b.postflush)
  }

  predicate Overlap(a: OrdSeq, b: OrdSeq) {
    (a.started && b.started) || (a.drain && b.drain) || (a.preflush && b.preflush) ||
    (a.bar && b.bar) || (a.postflush && b.postflush)
  }

  function StageBit(role: Role): OrdSeq {
    match role
    case Original => OrdSeq(false, true, false, false, false)
    case PreFlush => OrdSeq(false, false, true, false, false)
    case BarProxy => OrdSeq(false, false, false, true, false)
    case PostFlush => OrdSeq(false, false, false, false, true)
  }

  function StageSeq(role: Role): nat {
    match role
    case Original => SEQ_DRAIN
    case PreFlush => SEQ_PREFLUSH
    case BarProxy => SEQ_BAR
    case PostFlush => SEQ_POSTFLUSH
  }

  // blk_ordered_req_seq, given the colour of the stashed barrier
  function SeqOf(color: bool, r: Request): nat {
    if r.role != Original then StageSeq(r.role)
    else if r.kind != Fs then SEQ_DRAIN
    else if r.color == color then SEQ_DRAIN
    else SEQ_DONE
  }

  function ReqSeq(q: Queue, r: Request): nat { SeqOf(q.orig.color, r) }

  // __blk_end_request on the stashed barrier: it ends, and elv_completed_request then
  // finds no sequence in progress.
  function EndOriginal(q: Queue): Queue {
    q.(ordseq := ORDSEQ_NONE, inFlight := q.inFlight - Weight(q.orig),
       log := q.log + [End(q.orig.id, q.orderr)])
  }

  function FirstNonZero(old_: int, new_: int): int { if new_ != 0 && old_ == 0 then new_ else old_ }

  // blk_ordered_complete_seq; the flag is its result.
  function CompleteSeq(q: Queue, mask: OrdSeq, error: int): (Queue, bool) {
    var q1 := q.(orderr := FirstNonZero(q.orderr, error),
                 bug := q.bug || Overlap(q.ordseq, mask),
                 ordseq := Or(q.ordseq, mask));
    if CurSeq(q1.ordseq) != SEQ_DONE then (q1, false) else (EndOriginal(q1), true)
  }

  // elv_completed_request, for a request the driver has already given up
  function ElvCompleted(q: Queue, r: Request): Queue {
    var q1 := q.(inFlight := q.inFlight - Weight(r));
    if Active(q1) && q1.inFlight == 0 && CurSeq(q1.ordseq) == SEQ_DRAIN
       && (q1.head == [] || ReqSeq(q1, q1.head[0]) > SEQ_DRAIN)
    then CompleteSeq(q1, StageBit(Original), 0).0
    else q1
  }

  // The flush requests are not file-system requests; the proxy inherits the barrier bio.
  function StageRequest(role: Role, orig: Request): Request {
    Request(orig.id, role, if role == BarProxy then Fs else Special, true, true, false, false,
            orig.empty, orig.epoch)
  }

  // q->ordered after the masking for an empty barrier
  function EffectiveMode(m: Mode, empty: bool): Mode {
    if !empty then m
    else
      var m1 := m.(doBar := false, doPost := false);
      if m1.byTag && !m1.doPre then m1.(byTag := false, byDrain := true) else m1
  }

  function Proxies(m: Mode, orig: Request): seq<Request> {
    (if m.doPre then [StageRequest(PreFlush, orig)] else []) +
    (if m.doBar then [StageRequest(BarProxy, orig)] else []) +
    (if m.doPost then [StageRequest(PostFlush, orig)] else [])
  }

  function SkipMask(m: Mode, drains: bool): OrdSeq {
    OrdSeq(false, !drains, !m.doPre, !m.doBar, !m.doPost)
  }

  // Results of blk_do_ordered and start_ordered: the queue, *rqp and the return value.
  datatype Ordered = Ordered(q: Queue, rq: seq<Request>, keep: bool)

  // start_ordered up to the completion of the skipped stages: the barrier is stashed away and
  // the proxies stand at the head of the list.
  function Stash(q: Queue): Queue
    requires q.head != []
  {
    var rq := q.head[0];
    var m := EffectiveMode(q.nextMode, rq.empty);
    q.(orderr := 0, mode := m, ordseq := Or(q.ordseq, OrdSeq(true, false, false, false, false)),
       inFlight := q.inFlight + Weight(rq), orig := rq, head := Proxies(m, rq) + q.head[1..], taken := q.taken + 1)
  }

  // start_ordered on the barrier at the head of the queue
  function StartOrdered(q: Queue): (o: Ordered)
    requires q.head != []
  {
    var q1 := Stash(q);
    var proxies := Proxies(q1.mode, q1.orig);
    var drains := q1.mode.byDrain && q1.inFlight != 0;
    var (q2, done) := CompleteSeq(q1, SkipMask(q1.mode, drains), 0);
    Ordered(q2, if drains || proxies == [] then [] else [proxies[0]], !done)
  }

  // A barrier on a queue without ordering support is refused.
  function RefuseBarrier(q: Queue): Queue
    requires q.head != []
  {
    var rq := q.head[0];
    q.(head := q.head[1..], taken := q.taken + 1, log := q.log + [End(rq.id, EOPNOTSUPP)])
  }

  // blk_do_ordered on the request at the head of the queue
  function DoOrdered(q: Queue): (o: Ordered)
    requires q.head != []
  {
    var rq := q.head[0];
    if !Active(q) then
      if !IsBarrier(rq) then Ordered(q, [rq], true)
      else if q.nextMode != MODE_NONE then StartOrdered(q)
      else Ordered(RefuseBarrier(q), [], false)
    else if rq.kind != Fs && rq.role != PreFlush && rq.role != PostFlush then Ordered(q, [rq], true)
    else if q.mode.byTag then
      Ordered(q, if IsBarrier(rq) && rq.role != BarProxy then [] else [rq], true)
    else
      Ordered(q.(warned := q.warned || ReqSeq(q, rq) < CurSeq(q.ordseq)),
              if ReqSeq(q, rq) > CurSeq(q.ordseq) then [] else [rq], true)
  }

  lemma DroppedHead(q: Queue)
    requires q.head != [] && !DoOrdered(q).keep
    ensures DoOrdered(q).q.head == q.head[1..]
  {
    if q.nextMode != MODE_NONE {
      var m := EffectiveMode(q.nextMode, q.head[0].empty);
      assert !m.doPre && !m.doBar && !m.doPost;
      assert Proxies(m, q.head[0]) + q.head[1..] == q.head[1..];
    }
  }

  // __elv_next_request on the requests already in the dispatch list
  function Peek(q: Queue): (Queue, seq<Request>)
    decreases |q.head|
  {
    if q.head == [] then (q, [])
    else
      var o := DoOrdered(q);
      if o.keep then (o.q, o.rq)
      else
        DroppedHead(q);
        Peek(o.q)
  }

  // elv_next_request marks what it hands out as started.
  function MarkStarted(q: Queue): Queue
    requires q.head != []
  {
    var r := q.head[0];
    if r.started then q
    else q.(head := [r.(started := true)] + q.head[1..], log := q.log + [Issue(r.role, r.id)])
  }

  function Fetch(q: Queue): Queue {
    var (q1, rq) := Peek(q);
    if rq == [] || q1.head == [] then q1 else MarkStarted(q1)
  }

  // elv_dequeue_request of a request the driver was shown
  function Dequeue(q: Queue, i: nat): Queue
    requires i < |q.head|
  {
    var r := q.head[i];
    q.(head := q.head[..i] + q.head[i + 1..], driver := q.driver + {r}, inFlight := q.inFlight + Weight(r))
  }

  // Final completion of a request the driver holds, by the end_io of each kind of request.
  // For the bar proxy req_bio_endio has recorded the error before.
  function Complete(q: Queue, r: Request, error: int): Queue {
    var q0 := q.(driver := q.driver - {r});
    if r.role == Original then
      ElvCompleted(q0.(log := q0.log + [End(r.id, error)]), r)
    else
      var q1 := q0.(log := q0.log + [StageError(r.id, error), StageDone(r.role, r.id)],
                    orderr := if r.role == BarProxy then FirstNonZero(q0.orderr, error) else q0.orderr);
      CompleteSeq(ElvCompleted(q1, r), StageBit(r.role), error).0
  }

  // req_bio_endio of the bar proxy records an error of a partial completion.
  function BarError(q: Queue, r: Request, error: int): Queue {
    q.(orderr := FirstNonZero(q.orderr, error), log := q.log + [StageError(r.id, error)])
  }

  // First position from i on whose sequence number is not below s.
  function RequeuePos(head: seq<Request>, color: bool, s: nat, i: nat): (p: nat)
    requires i <= |head|
    ensures i <= p <= |head|
    ensures forall j :: i <= j < p ==> SeqOf(color, head[j]) < s
    ensures p < |head| ==> s <= SeqOf(color, head[p])
    decreases |head| - i
  {
    if i == |head| || s <= SeqOf(color, head[i]) then i else RequeuePos(head, color, s, i + 1)
  }

  function InsertAt<T>(s: seq<T>, i: nat, x: T): seq<T>
    requires i <= |s|
  {
    s[..i] + [x] + s[i..]
  }

  // elv_requeue_request
  function Requeue(q: Queue, r: Request): Queue {
    var q1 := q.(driver := q.driver - {r}, inFlight := q.inFlight - Weight(r));
    var r1 := r.(started := false, soft := true);
    var pos := if !Active(q) then 0 else RequeuePos(q1.head, q1.orig.color, ReqSeq(q1, r1), 0);
    q1.(head := InsertAt(q1.head, pos, r1))
  }

  // elv_dispatch_sort and elv_dispatch_add_tail never pass a barrier or a started request,
  // nor a request on the other side of the discard divide.
  predicate Stops(r: Request) { r.soft || r.hard || r.started }

  predicate LegalPos(head: seq<Request>, r: Request, pos: nat) {
    pos <= |head| &&
    forall j :: pos <= j < |head| ==> !Stops(head[j]) && ((head[j].kind == Discard) == (r.kind == Discard))
  }

  function Dispatch(q: Queue, m: Move): Queue
    requires m.pos <= |q.head|
  {
    q.(sorted := q.sorted - {m.rq}, head := InsertAt(q.head, m.pos, m.rq))
  }

  predicate LegalMoves(q: Queue, moves: seq<Move>)
    decreases |moves|
  {
    moves == [] ||
    (moves[0].rq in q.sorted && LegalPos(q.head, moves[0].rq, moves[0].pos) &&
     LegalMoves(Dispatch(q, moves[0]), moves[1..]))
  }

  // elv_drain_elevator, given what the scheduler dispatches
  function Drain(q: Queue, moves: seq<Move>): Queue
    requires LegalMoves(q, moves)
    decreases |moves|
  {
    if moves == [] then q else Drain(Dispatch(q, moves[0]), moves[1..])
  }

  // Draining moves requests from the scheduler to the dispatch list and touches nothing else.
  lemma {:induction false} DrainFrame(q: Queue, q': Queue, moves: seq<Move>)
    requires LegalMoves(q, moves) && q'.head == q.head && q'.sorted == q.sorted
    ensures LegalMoves(q', moves)
    ensures Drain(q', moves) == q'.(sorted := Drain(q, moves).sorted, head := Drain(q, moves).head)
    decreases |moves|
  {
    if moves != [] { DrainFrame(Dispatch(q, moves[0]), Dispatch(q', moves[0]), moves[1..]); }
  }

  function NewRequest(q: Queue, s: Submission): Request {
    Request(|q.subs|, Original, s.kind, s.hard, s.soft, q.ordColor, false, s.empty, q.epoch)
  }

  function EffectiveWhere(s: Submission, where_: Where): Where {
    if where_ == Sort && (s.soft || s.hard || !s.elvPriv) then Back else where_
  }

  // __elv_add_request and elv_insert
  function AddRequest(q: Queue, s: Submission, where_: Where, moves: seq<Move>): Queue
    requires LegalMoves(q, moves)
  {
    var r := NewRequest(q, s);
    var q1 := q.(ordColor := if s.hard then !q.ordColor else q.ordColor,
                 subs := q.subs + [Sub(s.kind == Fs, s.kind == Fs && s.hard, s.empty)],
                 epoch := if s.kind == Fs && s.hard then q.epoch + 1 else q.epoch);
    match EffectiveWhere(s, where_)
    case Front => q1.(head := [r.(soft := true)] + q1.head)
    case Sort => q1.(sorted := q1.sorted + {r})
    case Back =>
      var d := Drain(q, moves);
      q1.(sorted := d.sorted, head := d.head + [r.(soft := true)])
  }

  // ---- runs ----------------------------------------------------------------------------

  datatype Step =
    | DoAdd(s: Submission, where_: Where, moves: seq<Move>)
    | DoDispatch(m: Move)
    | DoFetch
    | DoDequeue(i: nat)
    | DoComplete(r: Request, error: int)
    | DoBarError(r: Request, error: int)
    | DoRequeue(r: Request)

  // What callers may do. File-system requests never ask for front insertion, the scheduler
  // takes no Special request and empties itself when forced, and the driver acts only on
  // requests it was shown. `specialHard` says whether anybody sets REQ_HARDBARRIER on a
  // request that is not a file-system request.
  predicate Enabled(q: Queue, t: Step, specialHard: bool) {
    match t
    case DoAdd(s, where_, moves) =>
      LegalMoves(q, moves) &&
      (s.kind == Fs ==> where_ != Front) &&
      (s.hard ==> s.kind == Fs || specialHard) &&
      (match EffectiveWhere(s, where_)
       case Sort => s.kind != Special
       case Back => Drain(q, moves).sorted == {}
       case Front => true)
    case DoDispatch(m) => m.rq in q.sorted && LegalPos(q.head, m.rq, m.pos)
    case DoFetch => true
    case DoDequeue(i) => i < |q.head| && q.head[i].started
    case DoComplete(r, _) => r in q.driver
    case DoBarError(r, _) => r in q.driver && r.role == BarProxy
    case DoRequeue(r) => r in q.driver
  }

  function Apply(q: Queue, t: Step, specialHard: bool): Queue
    requires Enabled(q, t, specialHard)
  {
    match t
    case DoAdd(s, where_, moves) => AddRequest(q, s, where_, moves)
    case DoDispatch(m) => Dispatch(q, m)
    case DoFetch => Fetch(q)
    case DoDequeue(i) => Dequeue(q, i)
    case DoComplete(r, error) => Complete(q, r, error)
    case DoBarError(r, error) => BarError(q, r, error)
    case DoRequeue(r) => Requeue(q, r)
  }

  const NO_REQUEST := Request(0, Original, Special, false, false, false, false, false, 0)

  // A queue as blk_init_queue and blk_queue_ordered leave it
  function Init(m: Mode): Queue {
    Queue([], {}, {}, 0, ORDSEQ_NONE, 0, m, m, NO_REQUEST, false, false, false, [], 0, 0, [])
  }

  ghost predicate Runs(q: Queue, steps: seq<Step>, specialHard: bool)
    decreases |steps|
  {
    steps == [] ||
    (Enabled(q, steps[0], specialHard) && Runs(Apply(q, steps[0], specialHard), steps[1..], specialHard))
  }

  ghost function Run(q: Queue, steps: seq<Step>, specialHard: bool): Queue
    requires Runs(q, steps, specialHard)
    decreases |steps|
  {
    if steps == [] then q else Run(Apply(q, steps[0], specialHard), steps[1..], specialHard)
  }
}
