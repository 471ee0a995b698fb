/**
 * The asynchronous chain-IV generator as its callers and its worker execute it, one atomic
 * operation on the shared context at a time. CHAINIV_STATE_INUSE is the ownership of the chain.
 */
module ChainIvModel {

  datatype Req = Req(id: nat, mayBacklog: bool)

  // Where a caller or a worker instance stands: the operation it performs next.
  datatype Pc =
    | First(r: Req)                        // givencrypt_first: test_and_set_bit
    | FirstCheck(r: Req)                   //   is givencrypt still the first one?
    | FirstRng(r: Req)                     //   crypto_rng_get_bytes
    | FirstClear(r: Req, err: int)         //   clear_bit
    | Entry(r: Req)                        // givencrypt: test_and_set_bit
    | CheckQueue(r: Req)                   //   ctx->queue.qlen
    | ClearForQueue(r: Req)                //   clear_bit
    | Enqueue(r: Req)                      // postpone_request: skcipher_enqueue_givcrypt
    | PostTas(err: int)                    //   test_and_set_bit
    | SetErr(err: int)                     //   ctx->err = err
    | TailRead(r: Req)                     // givencrypt_tail: copy the IV out
    | TailEncrypt(r: Req, giv: nat)        //   ctx->err = crypto_ablkcipher_encrypt
    | TailWrite(r: Req, giv: nat, out: nat) //  copy the next IV in
    | SchedErr(own: int)                   // schedule_work: err = ctx->err
    | SchedCheck(err: int, own: int)       //   ctx->queue.qlen
    | SchedClear(err: int, own: int)       //   clear_bit
    | SchedRecheck(err: int, own: int)     //   ctx->queue.qlen again
    | SchedTas(err: int, own: int)         //   test_and_set_bit
    | SchedQueue(err: int, own: int)       //   schedule_work, BUG_ON(!queued)
    | Dequeue                              // do_postponed: skcipher_dequeue_givcrypt
    | Done(err: int, own: int)             // own: the error of the request it worked for

  // Seed: the call of the random number generator, whether it succeeded or not.
  datatype Event = Seed(iv: nat, err: int) | Served(r: Req, giv: nat, err: int, out: nat)

  // first: givencrypt is still async_chainiv_givencrypt_first. pending: the work is queued.
  // submitted, dropped and log are bookkeeping.
  datatype State = State(bit: bool, first: bool, err: int, iv: nat, queue: seq<Req>, pending: bool,
                         threads: seq<Pc>, bug: bool, submitted: seq<Req>, dropped: seq<Req>, log: seq<Event>)

  const MAX_QLEN := 100
  const EBUSY: int := -16
  const EINPROGRESS: int := -115

  const START := State(false, true, 0, 0, [], false, [], false, [], [], [])

  // What the environment answers: an error code, and a random or chained IV.
  datatype Answer = Answer(err: int, iv: nat)

  datatype Outcome = Outcome(s: State, pc: Pc)

  // test_and_set_bit: who finds the bit clear owns the chain.
  function Tas(s: State, won: Pc, lost: Pc): Outcome {
    if s.bit then Outcome(s, lost) else Outcome(s.(bit := true), won)
  }

  // crypto_enqueue_request
  function Admit(s: State, r: Req): Outcome {
    if |s.queue| < MAX_QLEN then Outcome(s.(queue := s.queue + [r]), PostTas(EINPROGRESS))
    else if r.mayBacklog then Outcome(s.(queue := s.queue + [r]), PostTas(EBUSY))
    else Outcome(s.(dropped := s.dropped + [r]), PostTas(EBUSY))
  }

  // One operation of a thread; the threads themselves are not touched.
  function Exec(s: State, pc: Pc, a: Answer): Outcome {
    match pc
    case First(r) => Tas(s, FirstCheck(r), Entry(r))
    case FirstCheck(r) => if s.first then Outcome(s.(first := false), FirstRng(r)) else Outcome(s, FirstClear(r, 0))
    case FirstRng(r) => Outcome(s.(iv := a.iv, log := s.log + [Seed(a.iv, a.err)]), FirstClear(r, a.err))
    case FirstClear(r, err) =>
      if err == 0 then Outcome(s.(bit := false), Entry(r))
      else Outcome(s.(bit := false, dropped := s.dropped + [r]), Done(err, err))
    case Entry(r) => Tas(s, CheckQueue(r), Enqueue(r))
    case CheckQueue(r) => Outcome(s, if s.queue != [] then ClearForQueue(r) else TailRead(r))
    case ClearForQueue(r) => Outcome(s.(bit := false), Enqueue(r))
    case Enqueue(r) => Admit(s, r)
    case PostTas(err) => Tas(s, SetErr(err), Done(err, err))
    case SetErr(err) => Outcome(s.(err := err), SchedErr(err))
    case TailRead(r) => Outcome(s, TailEncrypt(r, s.iv))
    case TailEncrypt(r, giv) =>
      if a.err == 0 then Outcome(s.(err := 0), TailWrite(r, giv, a.iv))
      else Outcome(s.(err := a.err, log := s.log + [Served(r, giv, a.err, a.iv)]), SchedErr(a.err))
    case TailWrite(r, giv, out) => Outcome(s.(iv := out, log := s.log + [Served(r, giv, 0, out)]), SchedErr(0))
    case SchedErr(own) => Outcome(s, SchedCheck(s.err, own))
    case SchedCheck(err, own) => Outcome(s, if s.queue == [] then SchedClear(err, own) else SchedQueue(err, own))
    case SchedClear(err, own) => Outcome(s.(bit := false), SchedRecheck(err, own))
    case SchedRecheck(err, own) => Outcome(s, if s.queue == [] then Done(err, own) else SchedTas(err, own))
    case SchedTas(err, own) => Tas(s, SchedQueue(err, own), Done(err, own))
    case SchedQueue(err, own) => Outcome(s.(bug := s.bug || s.pending, pending := true), Done(err, own))
    case Dequeue =>
      if s.queue == [] then Outcome(s, SchedErr(s.err)) else Outcome(s.(queue := s.queue[1..]), TailRead(s.queue[0]))
    case Done(_, _) => Outcome(s, pc)
  }

  // A caller enters, a thread performs its next operation, or the queued work starts.
  datatype Step = Call(mayBacklog: bool, viaFirst: bool) | Move(i: nat, a: Answer) | StartWork

  // A caller may still come through the first givencrypt after it was replaced. `rngMayFail`
  // says whether crypto_rng_get_bytes may report an error.
  predicate Enabled(s: State, t: Step, rngMayFail: bool) {
    match t
    case Call(_, viaFirst) => viaFirst || !s.first
    case Move(i, a) => i < |s.threads| && !s.threads[i].Done? && (s.threads[i].FirstRng? && a.err != 0 ==> rngMayFail)
    case StartWork => s.pending
  }

  function Apply(s: State, t: Step): State
    requires Enabled(s, t, true)
  {
    match t
    case Call(mayBacklog, viaFirst) =>
      var r := Req(|s.submitted|, mayBacklog);
      s.(submitted := s.submitted + [r], threads := s.threads + [if viaFirst then First(r) else Entry(r)])
    case Move(i, a) =>
      var o := Exec(s, s.threads[i], a);
      o.s.(threads := s.threads[i := o.pc])
    case StartWork => s.(pending := false, threads := s.threads + [Dequeue])
  }

  ghost predicate Runs(s: State, steps: seq<Step>, rngMayFail: bool)
    decreases |steps|
  {
    steps == [] || (Enabled(s, steps[0], rngMayFail) && Runs(Apply(s, steps[0]), steps[1..], rngMayFail))
  }

  ghost function Run(s: State, steps: seq<Step>, rngMayFail: bool): State
    requires Runs(s, steps, rngMayFail)
    decreases |steps|
  {
    if steps == [] then s else Run(Apply(s, steps[0]), steps[1..], rngMayFail)
  }

  // Nobody is under way and no work is queued: what async_chainiv_exit finds.
  predicate Quiet(s: State) { !s.pending && forall i :: 0 <= i < |s.threads| ==> s.threads[i].Done? }
}
