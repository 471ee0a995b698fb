/**
 * The deadline I/O scheduler: per direction a tree of requests by sector and a list by age, a
 * cached next request, and the counters that bound how long reads may starve writes.
 */
module DeadlineModel {

  datatype Dir = READ | WRITE

  datatype Pair<T> = Pair(r: T, w: T) {
    function Get(d: Dir): T { if d == READ then r else w }

    function Set(d: Dir, v: T): Pair<T> { if d == READ then Pair(v, w) else Pair(r, v) }
  }

  datatype Link = Null | Rq(id: nat)

  // An entry of sort_list, which the red-black tree keeps in sector order, and of fifo_list
  datatype Node = Node(sector: nat, id: nat)
  datatype Item = Item(id: nat, time: int)

  datatype Gone = Gone(id: nat, dir: Dir)

  // clock is the latest time seen; out is the dispatch list of the queue.
  datatype State = State(
    tree: Pair<seq<Node>>, fifo: Pair<seq<Item>>, next: Pair<Link>, batching: nat, starved: nat,
    expire: Pair<nat>, fifoBatch: nat, writesStarved: int,
    nrSorted: int, out: seq<Gone>, clock: int)

  // An int compared with an unsigned int
  function Unsigned(x: int): nat { x % 0x1_0000_0000 }

  // ---- trees and lists -----------------------------------------------------------------------

  // How many nodes lie before a sector
  function Pos(tree: seq<Node>, sector: nat): (p: nat)
    ensures p <= |tree|
  {
    if tree == [] || sector <= tree[0].sector then 0 else 1 + Pos(tree[1..], sector)
  }

  function IndexOf(tree: seq<Node>, id: nat): (i: nat)
    ensures i <= |tree|
    ensures i < |tree| ==> tree[i].id == id
    ensures forall j :: 0 <= j < i ==> tree[j].id != id
  {
    if tree == [] || tree[0].id == id then 0 else 1 + IndexOf(tree[1..], id)
  }

  function Place(fifo: seq<Item>, id: nat): (i: nat)
    ensures i <= |fifo|
    ensures i < |fifo| ==> fifo[i].id == id
    ensures forall j :: 0 <= j < i ==> fifo[j].id != id
  {
    if fifo == [] || fifo[0].id == id then 0 else 1 + Place(fifo[1..], id)
  }

  function Cut<T>(s: seq<T>, i: nat): seq<T> { if i < |s| then s[..i] + s[i + 1..] else s }

  function Put<T>(s: seq<T>, i: nat, x: T): seq<T>
    requires i <= |s|
  {
    s[..i] + [x] + s[i..]
  }

  // deadline_latter_request
  function Latter(tree: seq<Node>, id: nat): Link {
    var i := IndexOf(tree, id);
    if i + 1 < |tree| then Rq(tree[i + 1].id) else Null
  }

  // The request elv_rb_add reports as already being at the sector
  function Alias(tree: seq<Node>, sector: nat): Link {
    var p := Pos(tree, sector);
    if p < |tree| && tree[p].sector == sector then Rq(tree[p].id) else Null
  }

  // ---- the operations ------------------------------------------------------------------------

  // deadline_remove_request with deadline_del_rq_rb
  function Remove(s: State, d: Dir, id: nat): State {
    var tree := s.tree.Get(d);
    var next := if s.next.Get(d) == Rq(id) then Latter(tree, id) else s.next.Get(d);
    s.(fifo := s.fifo.Set(d, Cut(s.fifo.Get(d), Place(s.fifo.Get(d), id))),
       next := s.next.Set(d, next),
       tree := s.tree.Set(d, Cut(tree, IndexOf(tree, id))))
  }

  // deadline_move_request
  function MoveRequest(s: State, d: Dir, id: nat): State {
    var s1 := s.(next := Pair(Null, Null).Set(d, Latter(s.tree.Get(d), id)));
    var s2 := Remove(s1, d, id);
    s2.(out := s2.out + [Gone(id, d)], nrSorted := s2.nrSorted - 1)
  }

  lemma MoveShrinks(s: State, d: Dir, id: nat)
    requires IndexOf(s.tree.Get(d), id) < |s.tree.Get(d)|
    ensures |MoveRequest(s, d, id).tree.Get(d)| == |s.tree.Get(d)| - 1
  {
  }

  lemma {:induction false} HeldAt(tree: seq<Node>, i: nat)
    requires i < |tree|
    ensures IndexOf(tree, tree[i].id) <= i
  {
    if i > 0 { HeldAt(tree[1..], i - 1); }
  }

  // deadline_add_rq_rb: whoever sits at the sector is dispatched first.
  function AddRb(s: State, d: Dir, id: nat, sector: nat): State
    decreases |s.tree.Get(d)|
  {
    var tree := s.tree.Get(d);
    match Alias(tree, sector)
    case Rq(alias) =>
      HeldAt(tree, Pos(tree, sector));
      MoveShrinks(s, d, alias);
      AddRb(MoveRequest(s, d, alias), d, id, sector)
    case Null => s.(tree := s.tree.Set(d, Put(tree, Pos(tree, sector), Node(sector, id))))
  }

  // deadline_add_request, with the count elv_insert keeps
  function Add(s: State, d: Dir, id: nat, sector: nat, now: int): State {
    var s1 := AddRb(s.(nrSorted := s.nrSorted + 1), d, id, sector);
    s1.(fifo := s1.fifo.Set(d, s1.fifo.Get(d) + [Item(id, now + s.expire.Get(d))]), clock := now)
  }

  // deadline_merged_request after a front merge moved the request to a lower sector
  function FrontMerged(s: State, d: Dir, id: nat, sector: nat): State {
    var tree := s.tree.Get(d);
    AddRb(s.(tree := s.tree.Set(d, Cut(tree, IndexOf(tree, id)))), d, id, sector)
  }

  // The fifo half of deadline_merged_requests: the older of the two times wins.
  function Inherit(fifo: seq<Item>, req: nat, next: nat): seq<Item> {
    var i, j := Place(fifo, req), Place(fifo, next);
    if i < |fifo| && j < |fifo| && fifo[j].time < fifo[i].time then
      var f := Cut(fifo, i);
      var p := Place(f, next);
      if p < |f| then Put(f, p + 1, Item(req, fifo[j].time)) else fifo
    else fifo
  }

  // deadline_merged_requests, with the count elv_merge_requests keeps
  function MergedRequests(s: State, d: Dir, req: nat, next: nat): State {
    var s1 := s.(fifo := s.fifo.Set(d, Inherit(s.fifo.Get(d), req, next)));
    var s2 := Remove(s1, d, next);
    s2.(nrSorted := s2.nrSorted - 1)
  }

  // deadline_check_fifo
  predicate Expired(fifo: seq<Item>, now: int) { fifo != [] && fifo[0].time < now }

  // dispatch_find_request
  function Find(fifo: seq<Item>, next: Link, now: int): Link {
    if Expired(fifo, now) || next == Null then if fifo == [] then Null else Rq(fifo[0].id) else next
  }

  // The direction a new batch takes
  function NewDir(s: State): Dir {
    if s.fifo.r != [] && !(s.fifo.w != [] && s.starved >= Unsigned(s.writesStarved)) then READ else WRITE
  }

  predicate InBatch(s: State) { (s.next.w != Null || s.next.r != Null) && s.batching < s.fifoBatch }

  // deadline_dispatch_requests
  function Dispatch(s: State, now: int): State {
    var s0 := s.(clock := now);
    if InBatch(s) then
      var d := if s.next.w != Null then WRITE else READ;
      MoveRequest(s0.(batching := s.batching + 1), d, s.next.Get(d).id)
    else if s.fifo.r == [] && s.fifo.w == [] then s0
    else
      var d := NewDir(s);
      var rq := Find(s.fifo.Get(d), s.next.Get(d), now);
      var starved := if d == WRITE then 0 else if s.fifo.w != [] then s.starved + 1 else s.starved;
      if rq == Null then s0 else MoveRequest(s0.(batching := 1, starved := starved), d, rq.id)
  }

  predicate Idle(s: State) { s.fifo.r == [] && s.fifo.w == [] }

  // ---- runs ------------------------------------------------------------------------------------

  datatype Step =
    | DoAdd(d: Dir, id: nat, sector: nat, now: int)
    | DoFrontMerged(d: Dir, id: nat, sector: nat)
    | DoMergedRequests(d: Dir, req: nat, next: nat)
    | DoDispatch(now: int)

  predicate Holds(s: State, d: Dir, id: nat) { Place(s.fifo.Get(d), id) < |s.fifo.Get(d)| }

  predicate Enabled(s: State, t: Step) {
    match t
    case DoAdd(_, id, _, now) => !Holds(s, READ, id) && !Holds(s, WRITE, id) && s.clock <= now
    case DoFrontMerged(d, id, _) => Holds(s, d, id)
    case DoMergedRequests(d, req, next) => req != next && Holds(s, d, req) && Holds(s, d, next)
    case DoDispatch(now) => s.clock <= now
  }

  function Apply(s: State, t: Step): State {
    match t
    case DoAdd(d, id, sector, now) => Add(s, d, id, sector, now)
    case DoFrontMerged(d, id, sector) => FrontMerged(s, d, id, sector)
    case DoMergedRequests(d, req, next) => MergedRequests(s, d, req, next)
    case DoDispatch(now) => Dispatch(s, now)
  }

  ghost predicate Runs(s: State, steps: seq<Step>)
    decreases |steps|
  {
    steps == [] || (Enabled(s, steps[0]) && Runs(Apply(s, steps[0]), steps[1..]))
  }

  ghost function Run(s: State, steps: seq<Step>): State
    decreases |steps|
  {
    if steps == [] then s else Run(Apply(s, steps[0]), steps[1..])
  }

  // deadline_init_queue, with any settings
  function Init(expire: Pair<nat>, fifoBatch: nat, writesStarved: int, clock: int): State {
    State(Pair([], []), Pair([], []), Pair(Null, Null), 0, 0, expire, fifoBatch, writesStarved, 0, [], clock)
  }
}
