/**
 * How long reads can keep a pending write waiting.
 */
module DeadlineStarvation {
  import opened DeadlineModel
  import opened DeadlineIndexes
  import opened DeadlineSteps

  function Excess(a: nat, b: nat): nat { if b < a then a - b else 0 }

  function AtLeastOne(a: nat): nat { if a == 0 then 1 else a }

  // What is left of the running batch, and a batch for each time writes may still be passed over
  function Allowance(s: State): nat {
    Excess(s.fifoBatch, s.batching) + Excess(Unsigned(s.writesStarved), s.starved) * AtLeastOne(s.fifoBatch)
  }

  // The direction a dispatch serves
  function Serves(s: State): Dir {
    if InBatch(s) then if s.next.w != Null then WRITE else READ else NewDir(s)
  }

  lemma MoveOutput(s: State, d: Dir, id: nat)
    ensures MoveRequest(s, d, id).out == s.out + [Gone(id, d)]
  {
  }

  lemma ServesIsServed(s: State, now: int)
    requires Inv(s) && !Idle(s)
    ensures exists id :: Dispatch(s, now).out == s.out + [Gone(id, Serves(s))]
  {
    hide TreeOk, FifoOk, NodeIds, ItemIds, MoveRequest, Find;
    Chosen(s, now);
    var d := Serves(s);
    var id := if InBatch(s) then s.next.Get(d).id else Find(s.fifo.Get(d), s.next.Get(d), now).id;
    var starved := if d == WRITE then 0 else if s.fifo.w != [] then s.starved + 1 else s.starved;
    MoveOutput(s.(clock := now, batching := s.batching + 1), d, id);
    MoveOutput(s.(clock := now, batching := 1, starved := starved), d, id);
  }

  lemma OneBatchLess(w: nat, starved: nat, b: nat)
    requires starved < w
    ensures Excess(w, starved) * AtLeastOne(b) == Excess(w, starved + 1) * AtLeastOne(b) + AtLeastOne(b)
  {
    var x, m := Excess(w, starved + 1), AtLeastOne(b);
    assert Excess(w, starved) == x + 1;
    assert (x + 1) * m == x * m + m;
  }

  lemma AtLeastOneIs(n: nat)
    ensures AtLeastOne(n) >= 1 && AtLeastOne(n) >= n
  {
  }

  // Serving a read while a write waits uses up the allowance.
  lemma ReadCosts(s: State, now: int)
    requires Inv(s) && s.fifo.w != [] && Serves(s) == READ
    ensures Allowance(Dispatch(s, now)) + 1 <= Allowance(s)
  {
    hide TreeOk, FifoOk, NodeIds, ItemIds, Remove, Unsigned, AtLeastOne;
    Chosen(s, now);
    AtLeastOneIs(s.fifoBatch);
    CountersOf(s, now);
    if !InBatch(s) { OneBatchLess(Unsigned(s.writesStarved), s.starved, s.fifoBatch); }
  }

  lemma CountersOf(s: State, now: int)
    requires Inv(s) && !Idle(s)
    ensures Dispatch(s, now).fifoBatch == s.fifoBatch && Dispatch(s, now).writesStarved == s.writesStarved
    ensures Dispatch(s, now).batching == if InBatch(s) then s.batching + 1 else 1
    ensures Dispatch(s, now).starved == if InBatch(s) then s.starved
                                        else if NewDir(s) == WRITE then 0 else if s.fifo.w != [] then s.starved + 1 else s.starved
  {
    hide TreeOk, FifoOk, NodeIds, ItemIds, Cut, Find;
    Chosen(s, now);
  }

  lemma {:induction false} AddRbCounters(s: State, d: Dir, id: nat, sector: nat)
    ensures Allowance(AddRb(s, d, id, sector)) == Allowance(s)
    decreases |s.tree.Get(d)|
  {
    match Alias(s.tree.Get(d), sector)
    case Rq(alias) =>
      MoveFewer(s, d, alias, sector);
      AddRbCounters(MoveRequest(s, d, alias), d, id, sector);
    case Null =>
  }

  // Adds, merges and the requests they push out leave it alone.
  lemma OthersFree(s: State, t: Step)
    requires !t.DoDispatch?
    ensures Allowance(Apply(s, t)) == Allowance(s)
  {
    hide Allowance;
    match t
    case DoAdd(d, id, sector, now) =>
      var s0 := s.(nrSorted := s.nrSorted + 1);
      AddRbCounters(s0, d, id, sector);
      SameAllowance(s, s0);
      SameAllowance(AddRb(s0, d, id, sector), Add(s, d, id, sector, now));
    case DoFrontMerged(d, id, sector) =>
      var tree := s.tree.Get(d);
      var s0 := s.(tree := s.tree.Set(d, Cut(tree, IndexOf(tree, id))));
      AddRbCounters(s0, d, id, sector);
      SameAllowance(s, s0);
    case DoMergedRequests(d, req, next) =>
      SameAllowance(s, MergedRequests(s, d, req, next));
  }

  lemma SameAllowance(s: State, s': State)
    requires s'.fifoBatch == s.fifoBatch && s'.batching == s.batching && s'.starved == s.starved && s'.writesStarved == s.writesStarved
    ensures Allowance(s') == Allowance(s)
  {
  }

  // No write is served by a dispatch although one waits whenever a dispatch is made.
  ghost predicate Passed(s: State, steps: seq<Step>)
    decreases |steps|
  {
    steps == [] ||
    ((steps[0].DoDispatch? ==> s.fifo.w != [] && Serves(s) == READ) && Passed(Apply(s, steps[0]), steps[1..]))
  }

  lemma DispatchCosts(s: State, t: Step)
    requires Inv(s) && s.fifo.w != [] && Serves(s) == READ && t.DoDispatch?
    ensures Allowance(Apply(s, t)) + 1 <= Allowance(s)
  {
    hide Allowance, Dispatch, Inv, Serves;
    ReadCosts(s, t.now);
  }

  function Dispatches(steps: seq<Step>): nat {
    if steps == [] then 0 else Dispatches(steps[1..]) + if steps[0].DoDispatch? then 1 else 0
  }

  // Whatever adds, merges and alias moves intervene, reads pass a waiting write at most
  // max(0, fifo_batch - batching) + max(0, writes_starved - starved) * max(1, fifo_batch) times.
  lemma {:induction false} StarvationBound(s: State, steps: seq<Step>)
    requires Inv(s) && Runs(s, steps) && Passed(s, steps)
    ensures Dispatches(steps) <= Allowance(s)
    decreases |steps|
  {
    hide Inv, Apply, Enabled, Allowance, Serves;
    if steps != [] {
      StepKeeps(s, steps[0]);
      StarvationBound(Apply(s, steps[0]), steps[1..]);
      if steps[0].DoDispatch? { DispatchCosts(s, steps[0]); } else { OthersFree(s, steps[0]); }
    }
  }

  // The settings the driver starts with let at most 48 reads pass.
  lemma DefaultBound(expire: Pair<nat>, clock: int, steps: seq<Step>)
    requires var s := Init(expire, 16, 2, clock); Runs(s, steps) && Passed(s, steps)
    ensures Dispatches(steps) <= 48
  {
    hide Runs, Passed, Dispatches, Inv;
    InitOk(expire, 16, 2, clock);
    StarvationBound(Init(expire, 16, 2, clock), steps);
  }

  // Outside a batch a waiting write is served before a waiting read if and only if it was passed
  // over writes_starved times, read as an unsigned number: a negative setting, which the
  // attribute accepts, is a bound of more than two thousand million.
  lemma WriteServedIff(s: State)
    requires !InBatch(s) && s.fifo.r != [] && s.fifo.w != [] && -0x8000_0000 <= s.writesStarved < 0x8000_0000
    ensures Serves(s) == WRITE <==>
            s.starved >= if s.writesStarved >= 0 then s.writesStarved else 0x1_0000_0000 + s.writesStarved
  {
  }

  // With the setting -1 a write that was passed a million times waits on.
  lemma NegativeStarves(s: State)
    requires !InBatch(s) && s.fifo.r != [] && s.fifo.w != [] && s.writesStarved == -1 && s.starved <= 1_000_000
    ensures Serves(s) == READ
  {
  }
}
