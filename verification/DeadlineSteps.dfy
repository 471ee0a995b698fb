/**
 * The invariant of the deadline scheduler over its operations and over whole runs.
 */
module DeadlineSteps {
  import opened DeadlineModel
  import opened DeadlineIndexes

  function Other(d: Dir): Dir { if d == READ then WRITE else READ }

  // One direction while request id is in its list but not (or not yet) in its tree, or the
  // other way round
  predicate Almost(s: State, d: Dir, id: nat) {
    TreeOk(s.tree.Get(d)) && FifoOk(s.fifo.Get(d), s.clock + s.expire.Get(d)) &&
    NodeIds(s.tree.Get(d)) == ItemIds(s.fifo.Get(d)) - {id} && LinkOk(s.next.Get(d), ItemIds(s.fifo.Get(d)))
  }

  // The other direction keeps its requests; its cached link may be dropped.
  predicate Leaves(s: State, s': State, d: Dir) {
    s'.tree.Get(Other(d)) == s.tree.Get(Other(d)) && s'.fifo.Get(Other(d)) == s.fifo.Get(Other(d)) &&
    (s'.next.Get(Other(d)) == s.next.Get(Other(d)) || s'.next.Get(Other(d)) == Null) &&
    (s.next.r == Null || s.next.w == Null ==> s'.next.r == Null || s'.next.w == Null) &&
    s'.clock == s.clock && s'.expire == s.expire && s'.fifoBatch == s.fifoBatch && s'.writesStarved == s.writesStarved &&
    s'.batching == s.batching && s'.starved == s.starved
  }

  lemma InIds(fifo: seq<Item>, id: nat)
    ensures id in ItemIds(fifo) <==> Place(fifo, id) < |fifo|
  {
    if id in ItemIds(fifo) { var i :| 0 <= i < |fifo| && fifo[i].id == id; }
  }

  lemma RemoveKeeps(s: State, d: Dir, id: nat)
    requires DirOk(s, d) && id in ItemIds(s.fifo.Get(d))
    ensures DirOk(Remove(s, d, id), d) && Leaves(s, Remove(s, d, id), d)
    ensures ItemIds(Remove(s, d, id).fifo.Get(d)) == ItemIds(s.fifo.Get(d)) - {id}
    ensures |Remove(s, d, id).fifo.Get(d)| == |s.fifo.Get(d)| - 1
  {
    hide TreeOk, FifoOk, NodeIds, ItemIds, Cut, Place, IndexOf, Latter;
    CutTree(s.tree.Get(d), id);
    CutFifo(s.fifo.Get(d), id, s.clock + s.expire.Get(d));
    LatterHeld(s.tree.Get(d), id);
  }

  // Moving a request out, while another one may be missing from the tree
  lemma MoveKeeps(s: State, d: Dir, id: nat, missing: nat)
    requires Almost(s, d, missing) && id in NodeIds(s.tree.Get(d))
    ensures Almost(MoveRequest(s, d, id), d, missing) && Leaves(s, MoveRequest(s, d, id), d)
    ensures ItemIds(MoveRequest(s, d, id).fifo.Get(d)) == ItemIds(s.fifo.Get(d)) - {id}
    ensures |MoveRequest(s, d, id).fifo.Get(d)| == |s.fifo.Get(d)| - 1 && MoveRequest(s, d, id).nrSorted == s.nrSorted - 1
    ensures NodeIds(MoveRequest(s, d, id).tree.Get(d)) == NodeIds(s.tree.Get(d)) - {id}
    ensures MoveRequest(s, d, id).out == s.out + [Gone(id, d)]
    ensures MoveRequest(s, d, id).next.Get(Other(d)) == Null
    ensures LinkOk(MoveRequest(s, d, id).next.Get(d), NodeIds(s.tree.Get(d)) - {id})
  {
    hide TreeOk, FifoOk, NodeIds, ItemIds, Cut, Place, IndexOf, Latter;
    CutTree(s.tree.Get(d), id);
    CutFifo(s.fifo.Get(d), id, s.clock + s.expire.Get(d));
    LatterHeld(s.tree.Get(d), id);
  }

  lemma AliasHeld(tree: seq<Node>, sector: nat)
    requires Alias(tree, sector).Rq?
    ensures Alias(tree, sector).id in NodeIds(tree)
  {
  }

  // What inserting into the tree does: the request is in it now, and whoever gave way is gone
  // from tree and list.
  predicate Inserted(s: State, s': State, d: Dir, id: nat) {
    TreeOk(s'.tree.Get(d)) && FifoOk(s'.fifo.Get(d), s.clock + s.expire.Get(d)) &&
    NodeIds(s'.tree.Get(d)) == (ItemIds(s'.fifo.Get(d)) - {id}) + {id} &&
    (id in ItemIds(s'.fifo.Get(d)) <==> id in ItemIds(s.fifo.Get(d))) &&
    LinkOk(s'.next.Get(d), ItemIds(s'.fifo.Get(d))) && Leaves(s, s', d) &&
    s'.nrSorted - |s'.fifo.Get(d)| == s.nrSorted - |s.fifo.Get(d)|
  }

  lemma {:induction false} AddRbKeeps(s: State, d: Dir, id: nat, sector: nat)
    requires Almost(s, d, id)
    ensures Inserted(s, AddRb(s, d, id, sector), d, id)
    decreases |s.tree.Get(d)|
  {
    hide TreeOk, FifoOk, NodeIds, ItemIds, MoveRequest, Alias, Pos, Put;
    var tree := s.tree.Get(d);
    match Alias(tree, sector)
    case Rq(alias) =>
      AliasHeld(tree, sector);
      MoveKeeps(s, d, alias, id);
      MoveFewer(s, d, alias, sector);
      AddRbKeeps(MoveRequest(s, d, alias), d, id, sector);
    case Null =>
      PutTree(tree, sector, id);
  }

  lemma MoveFewer(s: State, d: Dir, alias: nat, sector: nat)
    requires Alias(s.tree.Get(d), sector) == Rq(alias)
    ensures |MoveRequest(s, d, alias).tree.Get(d)| < |s.tree.Get(d)|
  {
    HeldAt(s.tree.Get(d), Pos(s.tree.Get(d), sector));
    MoveShrinks(s, d, alias);
  }

  // ---- the entry points ----------------------------------------------------------------------

  lemma AppendItem(fifo: seq<Item>, id: nat, latest: int, latest': int)
    requires FifoOk(fifo, latest) && id !in ItemIds(fifo) && latest <= latest'
    ensures FifoOk(fifo + [Item(id, latest')], latest') && ItemIds(fifo + [Item(id, latest')]) == ItemIds(fifo) + {id}
  {
    var f := fifo + [Item(id, latest')];
    forall x | x in ItemIds(fifo) + {id} ensures x in ItemIds(f) {
      if x != id {
        var i :| 0 <= i < |fifo| && fifo[i].id == x;
        assert f[i].id == x;
      } else {
        assert f[|fifo|].id == x;
      }
    }
  }

  lemma LaterFifo(fifo: seq<Item>, latest: int, latest': int)
    requires FifoOk(fifo, latest) && latest <= latest'
    ensures FifoOk(fifo, latest')
  {
  }

  lemma ClockMoves(s: State, now: int)
    requires Inv(s) && s.clock <= now
    ensures Inv(s.(clock := now))
  {
    hide TreeOk, FifoOk, NodeIds, ItemIds;
    LaterFifo(s.fifo.r, s.clock + s.expire.r, now + s.expire.r);
    LaterFifo(s.fifo.w, s.clock + s.expire.w, now + s.expire.w);
  }

  lemma AddKeeps(s: State, d: Dir, id: nat, sector: nat, now: int)
    requires Inv(s) && Enabled(s, DoAdd(d, id, sector, now))
    ensures Inv(Add(s, d, id, sector, now))
  {
    hide TreeOk, FifoOk, NodeIds, ItemIds, AddRb, Place;
    InIds(s.fifo.Get(d), id);
    var s0 := s.(nrSorted := s.nrSorted + 1);
    assert ItemIds(s.fifo.Get(d)) - {id} == ItemIds(s.fifo.Get(d));
    AddRbKeeps(s0, d, id, sector);
    var s1 := AddRb(s0, d, id, sector);
    AppendItem(s1.fifo.Get(d), id, s.clock + s.expire.Get(d), now + s.expire.Get(d));
    LaterFifo(s.fifo.Get(Other(d)), s.clock + s.expire.Get(Other(d)), now + s.expire.Get(Other(d)));
  }

  lemma FrontMergedKeeps(s: State, d: Dir, id: nat, sector: nat)
    requires Inv(s) && Holds(s, d, id)
    ensures Inv(FrontMerged(s, d, id, sector))
  {
    hide TreeOk, FifoOk, NodeIds, ItemIds, AddRb, Place, Cut, IndexOf;
    InIds(s.fifo.Get(d), id);
    var tree := s.tree.Get(d);
    CutTree(tree, id);
    var s0 := s.(tree := s.tree.Set(d, Cut(tree, IndexOf(tree, id))));
    AddRbKeeps(s0, d, id, sector);
    var s1 := AddRb(s0, d, id, sector);
    assert ItemIds(s1.fifo.Get(d)) - {id} + {id} == ItemIds(s1.fifo.Get(d));
  }

  // Moving entry i behind entry j, with j's time
  lemma MovedBehind(fifo: seq<Item>, i: nat, j: nat)
    requires j < i < |fifo|
    ensures var g := Put(Cut(fifo, i), j + 1, Item(fifo[i].id, fifo[j].time));
            |g| == |fifo| && g[j + 1] == Item(fifo[i].id, fifo[j].time) &&
            (forall k :: 0 <= k <= j || i < k < |g| ==> g[k] == fifo[k]) &&
            (forall k :: j + 1 < k <= i ==> g[k] == fifo[k - 1])
  {
  }

  lemma MovedBehindOk(fifo: seq<Item>, g: seq<Item>, i: nat, j: nat, latest: int)
    requires FifoOk(fifo, latest) && j < i < |fifo| == |g| && g[j + 1] == Item(fifo[i].id, fifo[j].time)
    requires forall k :: 0 <= k <= j || i < k < |g| ==> g[k] == fifo[k]
    requires forall k :: j + 1 < k <= i ==> g[k] == fifo[k - 1]
    ensures FifoOk(g, latest) && ItemIds(g) == ItemIds(fifo)
  {
    forall x | x in ItemIds(fifo) ensures x in ItemIds(g) {
      var k :| 0 <= k < |fifo| && fifo[k].id == x;
      assert g[if k <= j || i < k then k else if k == i then j + 1 else k + 1].id == x;
    }
  }

  // A request that takes over an earlier deadline also takes over its place.
  lemma InheritKeeps(fifo: seq<Item>, req: nat, next: nat, latest: int)
    requires FifoOk(fifo, latest) && req != next && req in ItemIds(fifo) && next in ItemIds(fifo)
    ensures FifoOk(Inherit(fifo, req, next), latest) && ItemIds(Inherit(fifo, req, next)) == ItemIds(fifo)
    ensures |Inherit(fifo, req, next)| == |fifo|
  {
    hide Cut, Put, ItemIds, UniqueItems;
    InIds(fifo, req);
    InIds(fifo, next);
    var i, j := Place(fifo, req), Place(fifo, next);
    if fifo[j].time < fifo[i].time {
      CutIndexes(fifo, i);
      PlaceAt(Cut(fifo, i), j, next);
      MovedBehind(fifo, i, j);
      MovedBehindOk(fifo, Put(Cut(fifo, i), j + 1, Item(req, fifo[j].time)), i, j, latest);
    }
  }

  lemma PlaceAt(f: seq<Item>, j: nat, id: nat)
    requires j < |f| && f[j].id == id && forall k :: 0 <= k < j ==> f[k].id != id
    ensures Place(f, id) == j
  {
  }

  lemma MergedRequestsKeeps(s: State, d: Dir, req: nat, next: nat)
    requires Inv(s) && Enabled(s, DoMergedRequests(d, req, next))
    ensures Inv(MergedRequests(s, d, req, next))
  {
    hide TreeOk, FifoOk, NodeIds, ItemIds, Inherit, Remove, Place;
    InIds(s.fifo.Get(d), req);
    InIds(s.fifo.Get(d), next);
    InheritKeeps(s.fifo.Get(d), req, next, s.clock + s.expire.Get(d));
    var s1 := s.(fifo := s.fifo.Set(d, Inherit(s.fifo.Get(d), req, next)));
    RemoveKeeps(s1, d, next);
    RemoveCounts(s1, d, next);
  }

  lemma RemoveCounts(s: State, d: Dir, id: nat)
    ensures Remove(s, d, id).nrSorted == s.nrSorted && Remove(s, d, id).out == s.out
  {
  }

  // ---- dispatching ---------------------------------------------------------------------------

  // Moving any held request out keeps the invariant.
  lemma MoveOut(s: State, d: Dir, id: nat)
    requires Inv(s) && id in ItemIds(s.fifo.Get(d))
    ensures Inv(MoveRequest(s, d, id))
    ensures |MoveRequest(s, d, id).fifo.Get(d)| == |s.fifo.Get(d)| - 1 && Leaves(s, MoveRequest(s, d, id), d)
    ensures MoveRequest(s, d, id).out == s.out + [Gone(id, d)]
  {
    hide TreeOk, FifoOk, NodeIds, ItemIds, Cut, Place, IndexOf, Latter;
    CutTree(s.tree.Get(d), id);
    CutFifo(s.fifo.Get(d), id, s.clock + s.expire.Get(d));
    LatterHeld(s.tree.Get(d), id);
  }

  lemma FirstHeld(fifo: seq<Item>)
    requires fifo != []
    ensures fifo[0].id in ItemIds(fifo)
  {
  }

  // Which request a dispatch takes: it is one the scheduler holds in the chosen direction.
  lemma Chosen(s: State, now: int)
    requires Inv(s) && !Idle(s)
    ensures !InBatch(s) ==> s.fifo.Get(NewDir(s)) != [] && Find(s.fifo.Get(NewDir(s)), s.next.Get(NewDir(s)), now).Rq? &&
                            Find(s.fifo.Get(NewDir(s)), s.next.Get(NewDir(s)), now).id in ItemIds(s.fifo.Get(NewDir(s)))
    ensures InBatch(s) ==> var d := if s.next.w != Null then WRITE else READ;
                           s.next.Get(d).Rq? && s.next.Get(d).id in ItemIds(s.fifo.Get(d))
  {
    hide TreeOk, FifoOk, NodeIds, ItemIds;
    if s.fifo.Get(NewDir(s)) != [] { FirstHeld(s.fifo.Get(NewDir(s))); }
  }

  lemma InBatchHolds(s: State)
    requires Inv(s) && InBatch(s)
    ensures !Idle(s)
  {
  }

  // A dispatch of a scheduler that is not idle moves exactly one request out; an idle one does
  // nothing. So the result is 0 exactly when nothing is held.
  lemma DispatchKeeps(s: State, now: int)
    requires Inv(s) && s.clock <= now
    ensures Inv(Dispatch(s, now)) && Dispatch(s, now).clock == now
    ensures Idle(s) ==> Dispatch(s, now) == s.(clock := now)
    ensures !Idle(s) ==> Dispatch(s, now).nrSorted == s.nrSorted - 1 && |Dispatch(s, now).out| == |s.out| + 1 &&
                         Dispatch(s, now).out[..|s.out|] == s.out
  {
    hide TreeOk, FifoOk, NodeIds, ItemIds, MoveRequest, Find;
    ClockMoves(s, now);
    if InBatch(s) { InBatchHolds(s); }
    if !Idle(s) {
      Chosen(s, now);
      if InBatch(s) {
        var d := if s.next.w != Null then WRITE else READ;
        MoveOut(s.(clock := now, batching := s.batching + 1), d, s.next.Get(d).id);
      } else {
        var d := NewDir(s);
        var starved := if d == WRITE then 0 else if s.fifo.w != [] then s.starved + 1 else s.starved;
        MoveOut(s.(clock := now, batching := 1, starved := starved), d, Find(s.fifo.Get(d), s.next.Get(d), now).id);
      }
    }
  }

  // ---- runs ------------------------------------------------------------------------------------

  lemma InitOk(expire: Pair<nat>, fifoBatch: nat, writesStarved: int, clock: int)
    ensures Inv(Init(expire, fifoBatch, writesStarved, clock))
  {
  }

  lemma StepKeeps(s: State, t: Step)
    requires Inv(s) && Enabled(s, t)
    ensures Inv(Apply(s, t))
  {
    hide Inv, Add, FrontMerged, MergedRequests, Dispatch;
    match t
    case DoAdd(d, id, sector, now) => AddKeeps(s, d, id, sector, now);
    case DoFrontMerged(d, id, sector) => FrontMergedKeeps(s, d, id, sector);
    case DoMergedRequests(d, req, next) => MergedRequestsKeeps(s, d, req, next);
    case DoDispatch(now) => DispatchKeeps(s, now);
  }

  // Whatever adds, merges, alias moves and dispatches happen: trees and lists agree, sectors are
  // distinct, deadlines are in order, at most one direction has a next request, and the count
  // is that of the requests held.
  lemma {:induction false} RunKeeps(s: State, steps: seq<Step>)
    requires Inv(s) && Runs(s, steps)
    ensures Inv(Run(s, steps))
    decreases |steps|
  {
    hide Inv, Apply, Enabled;
    if steps != [] {
      StepKeeps(s, steps[0]);
      RunKeeps(Apply(s, steps[0]), steps[1..]);
    }
  }
}
