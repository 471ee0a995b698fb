/**
 * The request queue as the object the block layer updates in place. Each method is proved
 * against the step of the model that specifies it.
 */
module BarrierQueue {
  import opened BarrierModel

  class RequestQueue {
    var head: seq<Request>        // queue_head
    var sorted: set<Request>      // held by the I/O scheduler
    var inFlight: int
    var ordseq: OrdSeq
    var orderr: int
    var ordered: Mode
    const nextOrdered: Mode
    var origBar: Request
    var ordColor: bool

    // Bookkeeping of the specification, written but never read by a branch
    var driver: set<Request>
    var bug: bool
    var warned: bool
    var subs: seq<Sub>
    var epoch: nat
    var taken: nat
    var log: seq<Event>

    ghost function View(): Queue
      reads this
    {
      Queue(head, sorted, driver, inFlight, ordseq, orderr, ordered, nextOrdered, origBar, ordColor,
            bug, warned, subs, epoch, taken, log)
    }

    constructor (m: Mode)
      ensures View() == Init(m)
    {
      head, sorted, inFlight, ordseq, orderr := [], {}, 0, ORDSEQ_NONE, 0;
      ordered, nextOrdered, origBar, ordColor := m, m, NO_REQUEST, false;
      driver, bug, warned, subs, epoch, taken, log := {}, false, false, [], 0, 0, [];
    }

    // blk_ordered_complete_seq
    method CompleteOrdered(seq_: OrdSeq, error: int) returns (done: bool)
      modifies `orderr, `bug, `ordseq, `inFlight, `log
      ensures View() == CompleteSeq(old(View()), seq_, error).0
      ensures done == CompleteSeq(old(View()), seq_, error).1
    {
      if error != 0 && orderr == 0 { orderr := error; }
      bug := bug || Overlap(ordseq, seq_);
      ordseq := Or(ordseq, seq_);
      done := CurSeq(ordseq) == SEQ_DONE;
      if done { EndStashed(); }
    }

    // The end of the stashed barrier request
    method EndStashed()
      modifies `ordseq, `inFlight, `log
      ensures View() == EndOriginal(old(View()))
    {
      ordseq, inFlight, log := ORDSEQ_NONE, inFlight - Weight(origBar), log + [End(origBar.id, orderr)];
    }

    // elv_completed_request
    method CompletedRequest(r: Request)
      modifies this
      ensures View() == ElvCompleted(old(View()), r)
    {
      if Accounted(r) { inFlight := inFlight - 1; }
      if ordseq != ORDSEQ_NONE && inFlight == 0 {
        if CurSeq(ordseq) == SEQ_DRAIN && (head == [] || OrderedReqSeq(head[0]) > SEQ_DRAIN) {
          var _ := CompleteOrdered(StageBit(Original), 0);
        }
      }
    }

    // blk_ordered_req_seq
    function OrderedReqSeq(r: Request): (s: nat)
      reads this
      ensures s == SeqOf(origBar.color, r)
    {
      if r.role == PreFlush then SEQ_PREFLUSH
      else if r.role == BarProxy then SEQ_BAR
      else if r.role == PostFlush then SEQ_POSTFLUSH
      else if r.kind != Fs || r.color == origBar.color then SEQ_DRAIN
      else SEQ_DONE
    }

    // start_ordered up to the completion of the skipped stages. The proxies are inserted at the
    // front of the list, so they are queued in reverse order.
    method StashBarrier() returns (rqp: seq<Request>, skip: OrdSeq)
      requires head != []
      modifies `orderr, `ordered, `ordseq, `origBar, `head, `inFlight, `taken
      ensures View() == Stash(old(View()))
      ensures rqp == (if Proxies(ordered, origBar) == [] then [] else [Proxies(ordered, origBar)[0]])
      ensures skip == SkipMask(ordered, true)
    {
      var rq := head[0];
      var mode := ChooseMode(rq.empty);
      var list;
      list, rqp, skip := StackProxies(mode, rq, head[1..]);
      BeginSequence(mode, rq, list);
    }

    lemma ViewIs()
      ensures View() == Queue(head, sorted, driver, inFlight, ordseq, orderr, ordered, nextOrdered, origBar, ordColor,
                              bug, warned, subs, epoch, taken, log)
    {
    }

    method BeginSequence(mode: Mode, rq: Request, list: seq<Request>)
      modifies `orderr, `ordered, `ordseq, `origBar, `head, `inFlight, `taken
      ensures View() == old(View()).(orderr := 0, mode := mode, orig := rq, head := list, taken := old(taken) + 1,
                                     ordseq := Or(old(ordseq), OrdSeq(true, false, false, false, false)),
                                     inFlight := old(inFlight) + Weight(rq))
    {
      hide *;
      ViewIs();
      orderr := 0;
      ordered := mode;
      ordseq := Or(ordseq, OrdSeq(true, false, false, false, false));
      origBar := rq;
      head := list;
      inFlight := inFlight + Weight(rq);
      taken := taken + 1;
      ViewIs();
    }

    static method StackProxies(mode: Mode, rq: Request, rest: seq<Request>)
      returns (list: seq<Request>, rqp: seq<Request>, skip: OrdSeq)
      ensures list == Proxies(mode, rq) + rest
      ensures rqp == (if Proxies(mode, rq) == [] then [] else [Proxies(mode, rq)[0]])
      ensures skip == SkipMask(mode, true)
    {
      list, rqp, skip := rest, [], ORDSEQ_NONE;
      if mode.doPost {
        rqp := [StageRequest(PostFlush, rq)];
        list := rqp + list;
      } else {
        skip := skip.(postflush := true);
      }
      if mode.doBar {
        rqp := [StageRequest(BarProxy, rq)];
        list := rqp + list;
      } else {
        skip := skip.(bar := true);
      }
      if mode.doPre {
        rqp := [StageRequest(PreFlush, rq)];
        list := rqp + list;
      } else {
        skip := skip.(preflush := true);
      }
    }

    // The masking of q->ordered for an empty barrier
    method ChooseMode(empty: bool) returns (mode: Mode)
      ensures mode == EffectiveMode(nextOrdered, empty)
    {
      mode := nextOrdered;
      if empty {
        mode := mode.(doBar := false, doPost := false);
        if mode.byTag && !mode.doPre { mode := mode.(byTag := false, byDrain := true); }
      }
    }

    // start_ordered
    method Start() returns (rqp: seq<Request>, keep: bool)
      requires head != []
      modifies this
      ensures BarrierModel.Ordered(View(), rqp, keep) == StartOrdered(old(View()))
    {
      hide Stash, EffectiveMode, Proxies;
      var skip;
      rqp, skip := StashBarrier();
      if ordered.byDrain && inFlight != 0 {
        rqp := [];
      } else {
        skip := skip.(drain := true);
      }
      var done := CompleteOrdered(skip, 0);
      keep := !done;
    }

    // blk_do_ordered
    method OrderHead() returns (rqp: seq<Request>, keep: bool)
      requires head != []
      modifies this
      ensures BarrierModel.Ordered(View(), rqp, keep) == DoOrdered(old(View()))
    {
      var rq := head[0];
      var isBarrier := rq.kind == Fs && rq.hard;
      if ordseq == ORDSEQ_NONE {
        if !isBarrier { return [rq], true; }
        if nextOrdered != MODE_NONE {
          rqp, keep := Start();
          return;
        }
        head := head[1..];
        taken := taken + 1;
        log := log + [End(rq.id, EOPNOTSUPP)];
        return [], false;
      }
      if rq.kind != Fs && rq.role != PreFlush && rq.role != PostFlush { return [rq], true; }
      if ordered.byTag {
        return if isBarrier && rq.role != BarProxy then [] else [rq], true;
      }
      var cur := CurSeq(ordseq);
      warned := warned || OrderedReqSeq(rq) < cur;
      return if OrderedReqSeq(rq) > cur then [] else [rq], true;
    }

    // elv_next_request, for as long as the dispatch list yields something
    method NextRequest() returns (rq: seq<Request>)
      modifies this
      ensures View() == Fetch(old(View()))
      ensures rq != [] ==> head != [] && head[0].started
    {
      rq := [];
      var keep := false;
      while head != [] && !keep
        invariant !keep ==> Peek(View()) == Peek(old(View())) && rq == []
        invariant keep ==> (View(), rq) == Peek(old(View()))
        invariant keep || rq == []
        decreases !keep, |head|
      {
        ghost var before := View();
        if !DoOrdered(before).keep { DroppedHead(before); }
        rq, keep := OrderHead();
        if !keep { rq := []; }
      }
      if rq != [] && head != [] && !head[0].started {
        log := log + [Issue(head[0].role, head[0].id)];
        head := [head[0].(started := true)] + head[1..];
      }
      if head == [] { rq := []; }
    }

    // elv_dequeue_request by the driver
    method DequeueRequest(i: nat)
      requires i < |head|
      modifies this
      ensures View() == Dequeue(old(View()), i)
    {
      var r := head[i];
      head := head[..i] + head[i + 1..];
      driver := driver + {r};
      if Accounted(r) { inFlight := inFlight + 1; }
    }

    // end_that_request_last with the end_io handler of each kind of request
    method EndRequest(r: Request, error: int)
      modifies this
      ensures View() == Complete(old(View()), r, error)
    {
      if r.role == Original {
        driver, log := driver - {r}, log + [End(r.id, error)];
        CompletedRequest(r);
      } else {
        hide ElvCompleted, CompleteSeq;
        EndStage(r, error);
        CompletedRequest(r);
        var _ := CompleteOrdered(StageBit(r.role), error);
      }
    }

    // What is recorded when a proxy ends, before the sequence moves on
    method EndStage(r: Request, error: int)
      modifies `driver, `log, `orderr
      ensures View() == old(View()).(
                driver := old(driver) - {r},
                log := old(log) + [StageError(r.id, error), StageDone(r.role, r.id)],
                orderr := if r.role == BarProxy then FirstNonZero(old(orderr), error) else old(orderr))
    {
      driver, log := driver - {r}, log + [StageError(r.id, error), StageDone(r.role, r.id)];
      if r.role == BarProxy && error != 0 && orderr == 0 { orderr := error; }
    }

    // elv_requeue_request and the requeue case of elv_insert
    method RequeueRequest(r: Request)
      modifies this
      ensures View() == Requeue(old(View()), r)
    {
      hide RequeuePos, Accounted;
      driver, inFlight := driver - {r}, inFlight - Weight(r);
      var r1 := r.(started := false, soft := true);
      var pos := 0;
      if ordseq != ORDSEQ_NONE { pos := ScanPos(OrderedReqSeq(r1)); }
      head := head[..pos] + [r1] + head[pos..];
    }

    // The scan of elv_insert for a requeued request
    method ScanPos(s: nat) returns (pos: nat)
      ensures pos == RequeuePos(head, origBar.color, s, 0)
    {
      pos := 0;
      while pos < |head| && OrderedReqSeq(head[pos]) < s
        invariant pos <= |head|
        invariant RequeuePos(head, origBar.color, s, pos) == RequeuePos(head, origBar.color, s, 0)
      {
        pos := pos + 1;
      }
    }

    // elv_drain_elevator, given what the scheduler dispatches
    method DrainElevator(moves: seq<Move>)
      requires LegalMoves(View(), moves)
      modifies `sorted, `head
      ensures View() == Drain(old(View()), moves)
    {
      var i := 0;
      while i < |moves|
        invariant i <= |moves| && LegalMoves(View(), moves[i..])
        invariant Drain(View(), moves[i..]) == Drain(old(View()), moves)
      {
        assert moves[i..][1..] == moves[i + 1..];
        sorted := sorted - {moves[i].rq};
        head := head[..moves[i].pos] + [moves[i].rq] + head[moves[i].pos..];
        i := i + 1;
      }
    }

    // __elv_add_request and elv_insert
    method AddElvRequest(s: Submission, where_: Where, moves: seq<Move>)
      requires LegalMoves(View(), moves)
      modifies this
      ensures View() == AddRequest(old(View()), s, where_, moves)
    {
      hide *;
      ghost var before := View();
      ViewIs();
      var r := ColorRequest(s);
      ghost var coloured := View();
      ViewIs();
      DrainFrame(before, coloured, moves);
      var at := where_;
      if s.soft || s.hard {
        if at == Sort { at := Back; }
      } else if !s.elvPriv && at == Sort {
        at := Back;
      }
      InsertRequest(r, at, moves);
      ViewIs();
      Added(before, coloured, View(), s, where_, at, moves, r);
    }

    // The colouring of a new request: a barrier toggles the colour of what comes after it.
    method ColorRequest(s: Submission) returns (r: Request)
      modifies `ordColor, `subs, `epoch
      ensures r == NewRequest(old(View()), s)
      ensures View() == old(View()).(ordColor := ordColor, subs := subs, epoch := epoch)
      ensures ordColor == (if s.hard then !old(ordColor) else old(ordColor))
      ensures subs == old(subs) + [Sub(s.kind == Fs, s.kind == Fs && s.hard, s.empty)]
      ensures epoch == if s.kind == Fs && s.hard then old(epoch) + 1 else old(epoch)
    {
      r := Request(|subs|, Original, s.kind, s.hard, s.soft, ordColor, false, s.empty, epoch);
      ordColor, subs, epoch := if s.hard then !ordColor else ordColor,
        subs + [Sub(s.kind == Fs, s.kind == Fs && s.hard, s.empty)],
        if s.kind == Fs && s.hard then epoch + 1 else epoch;
    }

    // elv_insert
    method InsertRequest(r: Request, at: Where, moves: seq<Move>)
      requires LegalMoves(View(), moves)
      modifies `sorted, `head
      ensures View() == old(View()).(head := head, sorted := sorted)
      ensures at == Front ==> head == [r.(soft := true)] + old(head) && sorted == old(sorted)
      ensures at == Sort ==> head == old(head) && sorted == old(sorted) + {r}
      ensures at == Back ==> var d := Drain(old(View()), moves); head == d.head + [r.(soft := true)] && sorted == d.sorted
    {
      match at {
        case Front =>
          head := [r.(soft := true)] + head;
        case Sort =>
          sorted := sorted + {r};
        case Back =>
          DrainElevator(moves);
          head := head + [r.(soft := true)];
      }
    }
  }

  // Colouring and inserting a request is adding it.
  lemma Added(q: Queue, q1: Queue, q2: Queue, s: Submission, where_: Where, at: Where, moves: seq<Move>, r: Request)
    requires LegalMoves(q, moves) && r == NewRequest(q, s)
    requires q1 == q.(ordColor := q1.ordColor, subs := q1.subs, epoch := q1.epoch)
    requires q1.ordColor == (if s.hard then !q.ordColor else q.ordColor)
    requires q1.subs == q.subs + [Sub(s.kind == Fs, s.kind == Fs && s.hard, s.empty)]
    requires q1.epoch == if s.kind == Fs && s.hard then q.epoch + 1 else q.epoch
    requires at == if s.soft || s.hard then (if where_ == Sort then Back else where_)
                   else if !s.elvPriv && where_ == Sort then Back else where_
    requires LegalMoves(q1, moves) && Drain(q1, moves) == q1.(sorted := Drain(q, moves).sorted, head := Drain(q, moves).head)
    requires q2 == q1.(head := q2.head, sorted := q2.sorted)
    requires at == Front ==> q2.head == [r.(soft := true)] + q1.head && q2.sorted == q1.sorted
    requires at == Sort ==> q2.head == q1.head && q2.sorted == q1.sorted + {r}
    requires at == Back ==> var d := Drain(q1, moves); q2.head == d.head + [r.(soft := true)] && q2.sorted == d.sorted
    ensures q2 == AddRequest(q, s, where_, moves)
  {
    hide Drain, LegalMoves, NewRequest;
  }
}
