/**
 * Which request the anticipatory I/O scheduler takes next. One direction of the scheduler: its
 * tree of requests by sector, the cached next request and the position of the head.
 */
module AnticipatoryModel {

  datatype Req = Req(id: nat, sector: nat, nr: nat)

  datatype Link = Null | Rq(r: Req)

  datatype State = State(tree: seq<Req>, next: Link, last: nat, out: seq<Req>)

  const MAXBACK := 1024 * 1024
  const BACK_PENALTY := 2

  function End(r: Req): nat { r.sector + r.nr }

  // Too far behind the head to go back for
  predicate Wraps(last: nat, s: nat) { s < last && s + MAXBACK < last }

  function Distance(last: nat, s: nat): nat { if s >= last then s - last else (last - s) * BACK_PENALTY }

  // as_choose_req
  function Choose(last: nat, a: Link, b: Link): Link {
    if a == Null || a == b then b
    else if b == Null then a
    else
      var s1, s2 := a.r.sector, b.r.sector;
      var w1, w2 := Wraps(last, s1), Wraps(last, s2);
      if !w1 && w2 then a
      else if !w2 && w1 then b
      else if w1 && w2 then if s1 <= s2 then a else b
      else if Distance(last, s1) < Distance(last, s2) then a
      else if Distance(last, s2) < Distance(last, s1) then b
      else if s1 >= s2 then a else b
  }

  // as_find_next_rq: only the neighbours of the request at i, or the first one, are considered.
  function FindNext(tree: seq<Req>, last: nat, i: nat): Link
    requires i < |tree|
  {
    var next := if i + 1 < |tree| then Rq(tree[i + 1]) else if i != 0 then Rq(tree[0]) else Null;
    var prev := if i > 0 then Rq(tree[i - 1]) else Null;
    Choose(last, next, prev)
  }

  function Cut(tree: seq<Req>, i: nat): seq<Req>
    requires i < |tree|
  {
    tree[..i] + tree[i + 1..]
  }

  // as_remove_queued_request
  function RemoveQueued(s: State, i: nat): State
    requires i < |s.tree|
  {
    s.(next := if s.next == Rq(s.tree[i]) then FindNext(s.tree, s.last, i) else s.next, tree := Cut(s.tree, i))
  }

  // as_move_to_dispatch
  function MoveToDispatch(s: State, i: nat): State
    requires i < |s.tree|
  {
    var last := End(s.tree[i]);
    var s1 := RemoveQueued(s.(last := last, next := FindNext(s.tree, last, i)), i);
    s1.(out := s1.out + [s.tree[i]])
  }

  // How many requests lie before a sector
  function Pos(tree: seq<Req>, sector: nat): (p: nat)
    ensures p <= |tree|
  {
    if tree == [] || sector <= tree[0].sector then 0 else 1 + Pos(tree[1..], sector)
  }

  function Insert(tree: seq<Req>, r: Req): seq<Req> {
    var p := Pos(tree, r.sector);
    tree[..p] + [r] + tree[p..]
  }

  // as_add_rq_rb: whoever sits at the sector is dispatched first.
  function AddRb(s: State, r: Req): State
    decreases |s.tree|
  {
    var p := Pos(s.tree, r.sector);
    if p < |s.tree| && s.tree[p].sector == r.sector then AddRb(MoveToDispatch(s, p), r)
    else s.(tree := Insert(s.tree, r))
  }

  // as_add_request and as_update_rq
  function Add(s: State, r: Req): State {
    var s1 := AddRb(s, r);
    s1.(next := Choose(s1.last, Rq(r), s1.next))
  }

  // The cached pointer follows a request whose fields change.
  function Retarget(next: Link, r: Req, r': Req): Link { if next == Rq(r) then Rq(r') else next }

  // A back merge with a bio of n sectors
  function BackMerged(s: State, i: nat, n: nat): State
    requires i < |s.tree|
  {
    var r := s.tree[i];
    s.(tree := s.tree[i := r.(nr := r.nr + n)], next := Retarget(s.next, r, r.(nr := r.nr + n)))
  }

  // as_merged_requests: the request before the one at i has grown to its end and replaces it.
  function MergedRequests(s: State, i: nat): State
    requires 0 < i < |s.tree|
  {
    RemoveQueued(BackMerged(s, i - 1, s.tree[i].nr), i)
  }

  // as_merged_request after a front merge: the request now begins at a lower sector.
  function FrontMerged(s: State, i: nat, r: Req): State
    requires i < |s.tree|
  {
    AddRb(s.(tree := Cut(s.tree, i), next := Retarget(s.next, s.tree[i], r)), r)
  }

  // ---- the order the choice follows ------------------------------------------------------------

  // r is preferred to x: short seeks first, going back counts double, and what is too far behind
  // waits until the head has wrapped around.
  predicate Beats(last: nat, r: Req, x: Req) {
    if Wraps(last, r.sector) != Wraps(last, x.sector) then Wraps(last, x.sector)
    else if Wraps(last, r.sector) then r.sector < x.sector
    else Distance(last, r.sector) < Distance(last, x.sector) ||
         (Distance(last, r.sector) == Distance(last, x.sector) && r.sector > x.sector)
  }

  lemma BeatsOrders(last: nat, a: Req, b: Req, c: Req)
    ensures !Beats(last, a, a)
    ensures a.sector != b.sector ==> Beats(last, a, b) || Beats(last, b, a)
    ensures Beats(last, a, b) && Beats(last, b, c) ==> Beats(last, a, c)
  {
  }

  lemma ChooseIs(last: nat, a: Req, b: Req)
    requires a.sector != b.sector
    ensures Choose(last, Rq(a), Rq(b)) == if Beats(last, a, b) then Rq(a) else Rq(b)
  {
  }

  predicate Sorted(tree: seq<Req>) { forall i, j :: 0 <= i < j < |tree| ==> tree[i].sector < tree[j].sector }

  predicate Apart(tree: seq<Req>) { forall i, j :: 0 <= i < j < |tree| ==> End(tree[i]) <= tree[j].sector }

  // r is the request as_choose_req prefers to every other one.
  predicate Best(tree: seq<Req>, last: nat, r: Req) {
    r in tree && forall x :: x in tree && x != r ==> Beats(last, r, x)
  }

  predicate NextBest(s: State) { if s.tree == [] then s.next == Null else s.next.Rq? && Best(s.tree, s.last, s.next.r) }

  predicate Inv(s: State) { Sorted(s.tree) && Apart(s.tree) && NextBest(s) }

  // Without the geometry: a next request is cached whenever there is one.
  predicate NextCached(s: State) {
    Sorted(s.tree) && (s.tree == [] <==> s.next == Null) && (s.next.Rq? ==> s.next.r in s.tree)
  }

  // ---- runs ------------------------------------------------------------------------------------

  datatype Step =
    | DoAdd(r: Req)
    | DoDispatch(i: nat)
    | DoBackMerged(i: nat, n: nat)
    | DoMergedRequests(i: nat)
    | DoFrontMerged(i: nat, r: Req)

  predicate Clear(r: Req, x: Req) { r.sector != x.sector && (End(r) <= x.sector || End(x) <= r.sector) }

  // Requests do not overlap; any held request may be dispatched, be it the cached one or the
  // oldest; merges join what is contiguous.
  predicate Enabled(s: State, t: Step) {
    match t
    case DoAdd(r) => forall x :: x in s.tree ==> Clear(r, x)
    case DoDispatch(i) => i < |s.tree|
    case DoBackMerged(i, n) => i < |s.tree| && (i + 1 < |s.tree| ==> End(s.tree[i]) + n <= s.tree[i + 1].sector)
    case DoMergedRequests(i) => 0 < i < |s.tree| && End(s.tree[i - 1]) == s.tree[i].sector
    case DoFrontMerged(i, r) =>
      i < |s.tree| && r.id == s.tree[i].id && End(r) == End(s.tree[i]) && r.sector < s.tree[i].sector &&
      forall x :: x in Cut(s.tree, i) ==> Clear(r, x)
  }

  function Apply(s: State, t: Step): State
    requires Enabled(s, t)
  {
    match t
    case DoAdd(r) => Add(s, r)
    case DoDispatch(i) => MoveToDispatch(s, i)
    case DoBackMerged(i, n) => BackMerged(s, i, n)
    case DoMergedRequests(i) => MergedRequests(s, i)
    case DoFrontMerged(i, r) => FrontMerged(s, i, r)
  }

  // A front merge does not look at the cached request again: it stays the best only if the merged
  // request has not moved to a better place, or, being the cached one, to a worse one.
  predicate Steady(s: State, t: Step)
    requires Enabled(s, t)
  {
    match t
    case DoFrontMerged(i, r) =>
      if s.next == Rq(s.tree[i]) then
        var c := FindNext(s.tree, s.last, i); c.Rq? ==> !Beats(s.last, c.r, r)
      else s.next.Rq? ==> !Beats(s.last, r, s.next.r)
    case _ => true
  }

  ghost predicate Runs(s: State, steps: seq<Step>)
    decreases |steps|
  {
    steps == [] || (Enabled(s, steps[0]) && Runs(Apply(s, steps[0]), steps[1..]))
  }

  ghost predicate SteadyRun(s: State, steps: seq<Step>)
    requires Runs(s, steps)
    decreases |steps|
  {
    steps == [] || (Steady(s, steps[0]) && SteadyRun(Apply(s, steps[0]), steps[1..]))
  }

  ghost function Run(s: State, steps: seq<Step>): State
    requires Runs(s, steps)
    decreases |steps|
  {
    if steps == [] then s else Run(Apply(s, steps[0]), steps[1..])
  }

  const START := State([], Null, 0, [])
}
