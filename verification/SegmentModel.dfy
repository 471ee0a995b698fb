/**
 * Cutting the memory of a request into physical segments. A part is a run of bvecs that one
 * scatterlist entry may cover; the two counting passes of the block layer are greedy, and a
 * greedy cut never has more parts than any other valid one.
 */
module SegmentModel {

  // bv_page and bv_offset as one physical address; high: the page lies above the bounce limit.
  datatype Bvec = Bvec(start: nat, len: nat, high: bool)

  type Window = w: nat | 0 < w witness 1

  // window is seg_boundary_mask + 1
  datatype Limits = Limits(cluster: bool, maxSize: nat, window: Window, maxPhys: nat, maxHw: nat, maxSectors: nat)

  type Part = seq<Bvec>

  // BIOVEC_PHYS_MERGEABLE and BIOVEC_SEG_BOUNDARY of two neighbours
  predicate Joinable(l: Limits, a: Bvec, b: Bvec) {
    a.start + a.len == b.start && a.start / l.window == (b.start + b.len - 1) / l.window
  }

  function Size(p: Part): nat {
    if p == [] then 0 else Size(p[..|p| - 1]) + p[|p| - 1].len
  }

  function Last<T>(s: seq<T>): T
    requires s != []
  {
    s[|s| - 1]
  }

  function Init<T>(s: seq<T>): seq<T>
    requires s != []
  {
    s[..|s| - 1]
  }

  // Each bvec may share an entry with the one before it.
  predicate Chained(l: Limits, p: Part) {
    forall i, j {:trigger p[i], p[j]} :: 0 <= i && j == i + 1 < |p| ==> Joinable(l, p[i], p[j])
  }

  predicate PartOk(l: Limits, p: Part) {
    p != [] && (|p| > 1 ==> l.cluster && Size(p) <= l.maxSize) && Chained(l, p)
  }

  predicate PartsOk(l: Limits, parts: seq<Part>) {
    forall i :: 0 <= i < |parts| ==> PartOk(l, parts[i])
  }

  function Flat(parts: seq<Part>): seq<Bvec> {
    if parts == [] then [] else Flat(Init(parts)) + Last(parts)
  }

  function FirstSize(parts: seq<Part>): nat { if parts == [] then 0 else Size(parts[0]) }

  function LastSize(parts: seq<Part>): nat { if parts == [] then 0 else Size(Last(parts)) }

  // ---- the greedy passes -----------------------------------------------------------------

  // bounce: also keep pages that may be bounced in parts of their own, as the segment count does
  predicate Joins(l: Limits, p: Part, b: Bvec, bounce: bool) {
    p != [] && l.cluster && (bounce ==> !b.high && !p[0].high) && Size(p) + b.len <= l.maxSize && Joinable(l, Last(p), b)
  }

  function Extend(l: Limits, parts: seq<Part>, b: Bvec, bounce: bool): seq<Part> {
    if parts != [] && Joins(l, Last(parts), b, bounce) then Init(parts) + [Last(parts) + [b]] else parts + [[b]]
  }

  function Greedy(l: Limits, vecs: seq<Bvec>, bounce: bool): seq<Part> {
    if vecs == [] then [] else Extend(l, Greedy(l, Init(vecs), bounce), Last(vecs), bounce)
  }

  lemma SizeAppend(p: Part, b: Bvec)
    ensures Size(p + [b]) == Size(p) + b.len
  {
    assert (p + [b])[..|p|] == p;
  }

  lemma FlatAppend(parts: seq<Part>, p: Part)
    ensures Flat(parts + [p]) == Flat(parts) + p
  {
    assert (parts + [p])[..|parts|] == parts;
  }

  lemma {:induction false} FlatConcat(a: seq<Part>, b: seq<Part>)
    ensures Flat(a + b) == Flat(a) + Flat(b)
  {
    if b == [] {
      assert a + b == a;
    } else {
      FlatConcat(a, Init(b));
      assert a + b == (a + Init(b)) + [Last(b)];
      FlatAppend(a + Init(b), Last(b));
      assert Flat(a) + (Flat(Init(b)) + Last(b)) == (Flat(a) + Flat(Init(b))) + Last(b);
    }
  }

  lemma ExtendOk(l: Limits, parts: seq<Part>, b: Bvec, bounce: bool)
    requires PartsOk(l, parts)
    ensures PartsOk(l, Extend(l, parts, b, bounce))
    ensures Flat(Extend(l, parts, b, bounce)) == Flat(parts) + [b]
    ensures Extend(l, parts, b, bounce) != []
  {
    if parts != [] && Joins(l, Last(parts), b, bounce) {
      SizeAppend(Last(parts), b);
      FlatAppend(Init(parts), Last(parts) + [b]);
      assert PartOk(l, Last(parts));
    } else {
      FlatAppend(parts, [b]);
    }
  }

  // Either pass cuts the whole request into valid parts.
  lemma {:induction false} GreedyOk(l: Limits, vecs: seq<Bvec>, bounce: bool)
    ensures PartsOk(l, Greedy(l, vecs, bounce)) && Flat(Greedy(l, vecs, bounce)) == vecs
    ensures vecs != [] ==> Greedy(l, vecs, bounce) != []
  {
    hide PartOk, Extend;
    if vecs != [] {
      GreedyOk(l, Init(vecs), bounce);
      ExtendOk(l, Greedy(l, Init(vecs), bounce), Last(vecs), bounce);
    }
  }

  // Dropping the last bvec of a valid cut leaves a valid cut.
  lemma DropLast(l: Limits, parts: seq<Part>) returns (shorter: seq<Part>)
    requires PartsOk(l, parts) && parts != []
    ensures Flat(parts) != [] && Last(Flat(parts)) == Last(Last(parts))
    ensures PartsOk(l, shorter) && Flat(shorter) == Init(Flat(parts))
    ensures if |Last(parts)| == 1 then shorter == Init(parts) else shorter == Init(parts) + [Init(Last(parts))]
  {
    var p := Last(parts);
    assert PartOk(l, p);
    if |p| == 1 {
      shorter := Init(parts);
    } else {
      shorter := Init(parts) + [Init(p)];
      FlatAppend(Init(parts), Init(p));
      assert PartOk(l, Init(p));
    }
  }

  lemma LastOfFlat(l: Limits, parts: seq<Part>)
    requires PartsOk(l, parts) && parts != []
    ensures Last(parts) != [] && Flat(parts) != [] && Last(Flat(parts)) == Last(Last(parts))
  {
    assert PartOk(l, Last(parts));
  }

  // Whether the pass adds `b` to the last part
  predicate Grows(l: Limits, parts: seq<Part>, b: Bvec, bounce: bool) {
    parts != [] && Joins(l, Last(parts), b, bounce)
  }

  lemma ExtendSizes(l: Limits, parts: seq<Part>, b: Bvec, bounce: bool)
    ensures |Extend(l, parts, b, bounce)| == |parts| + if Grows(l, parts, b, bounce) then 0 else 1
    ensures LastSize(Extend(l, parts, b, bounce)) == b.len + if Grows(l, parts, b, bounce) then LastSize(parts) else 0
    ensures |parts| >= 2 || (|parts| == 1 && !Grows(l, parts, b, bounce)) ==> FirstSize(Extend(l, parts, b, bounce)) == FirstSize(parts)
  {
    hide Joins;
    if parts != [] { SizeAppend(Last(parts), b); }
    SizeAppend([], b);
    assert [] + [b] == [b];
  }

  // A cut whose last part has room for `b` leads to a greedy cut that has room for it too.
  lemma StillGrows(l: Limits, g: seq<Part>, shorter: seq<Part>, p: Part, b: Bvec)
    requires PartsOk(l, g) && PartsOk(l, shorter) && g != [] && shorter != [] && Flat(g) == Flat(shorter)
    requires PartOk(l, p) && |p| > 1 && Last(p) == b && Last(shorter) == Init(p) && LastSize(g) <= LastSize(shorter)
    ensures Grows(l, g, b, false)
  {
    hide Flat, Joinable, PartsOk;
    LastOfFlat(l, g);
    LastOfFlat(l, shorter);
    assert Joinable(l, p[|p| - 2], p[|p| - 1]);
  }

  lemma LastOk(l: Limits, parts: seq<Part>)
    requires PartsOk(l, parts) && parts != []
    ensures PartOk(l, Last(parts))
  {
  }

  // The induction step: `g` does at least as well as `shorter`, which is `parts` without `b`.
  lemma MinimalStep(l: Limits, g: seq<Part>, shorter: seq<Part>, parts: seq<Part>, b: Bvec)
    requires PartsOk(l, g) && PartsOk(l, shorter) && PartsOk(l, parts) && parts != []
    requires Flat(g) == Flat(shorter) && (g == [] <==> shorter == []) && Last(parts) != [] && b == Last(Last(parts))
    requires |g| <= |shorter| && (|g| == |shorter| ==> LastSize(g) <= LastSize(shorter))
    requires if |Last(parts)| == 1 then shorter == Init(parts) else shorter == Init(parts) + [Init(Last(parts))]
    ensures |Extend(l, g, b, false)| <= |parts|
    ensures |Extend(l, g, b, false)| == |parts| ==> LastSize(Extend(l, g, b, false)) <= LastSize(parts)
  {
    hide Flat, PartsOk, Extend, Joins, Chained;
    var p := Last(parts);
    LastOk(l, parts);
    ExtendSizes(l, g, b, false);
    if |p| > 1 && |g| == |shorter| { StillGrows(l, g, shorter, p, b); }
  }

  // Greedy cutting is optimal: it has no more parts than any valid cut of the same bvecs and,
  // when it has as many, its last part is no larger.
  lemma {:induction false} GreedyMinimal(l: Limits, parts: seq<Part>)
    requires PartsOk(l, parts)
    ensures |Greedy(l, Flat(parts), false)| <= |parts|
    ensures |Greedy(l, Flat(parts), false)| == |parts| ==> LastSize(Greedy(l, Flat(parts), false)) <= LastSize(parts)
    decreases |Flat(parts)|
  {
    hide Extend, Size, PartOk;
    if parts != [] {
      var shorter := DropLast(l, parts);
      var g := Greedy(l, Flat(shorter), false);
      GreedyMinimal(l, shorter);
      GreedyOk(l, Flat(shorter), false);
      assert Flat(shorter) != [] || shorter == [] by { if shorter != [] { LastOfFlat(l, shorter); } }
      MinimalStep(l, g, shorter, parts, Last(Last(parts)));
    }
  }

  // ---- joining two cuts --------------------------------------------------------------------

  // Two cuts side by side, their neighbouring parts made one when `contig`
  function Glue(a: seq<Part>, b: seq<Part>, contig: bool): seq<Part>
    requires a != [] && b != []
  {
    if contig then Init(a) + [Last(a) + b[0]] + b[1..] else a + b
  }

  lemma {:induction false} SizeConcat(a: Part, b: Part)
    ensures Size(a + b) == Size(a) + Size(b)
  {
    if b == [] {
      assert a + b == a;
    } else {
      assert Init(a + b) == a + Init(b);
      SizeConcat(a, Init(b));
    }
  }

  lemma ChainedConcat(l: Limits, a: Part, b: Part)
    requires Chained(l, a) && Chained(l, b) && a != [] && b != [] && Joinable(l, Last(a), b[0])
    ensures Chained(l, a + b)
  {
    var p := a + b;
    forall i, j {:trigger p[i], p[j]} | 0 <= i && j == i + 1 < |p| ensures Joinable(l, p[i], p[j]) {
      if i >= |a| { assert Joinable(l, b[i - |a|], b[j - |a|]); }
    }
  }

  lemma FlatPrepend(p: Part, rest: seq<Part>)
    ensures Flat([p] + rest) == p + Flat(rest)
  {
    FlatConcat([p], rest);
    FlatAppend([], p);
    assert [] + [p] == [p];
  }

  lemma Regroup<T>(w: seq<T>, x: seq<T>, y: seq<T>, z: seq<T>)
    ensures w + (x + y) + z == (w + x) + (y + z)
  {
  }

  lemma GlueFlat(a: seq<Part>, b: seq<Part>)
    requires a != [] && b != []
    ensures Flat(Init(a) + [Last(a) + b[0]] + b[1..]) == Flat(a) + Flat(b)
  {
    hide Flat;
    var x, p, q, y := Init(a), Last(a), b[0], b[1..];
    FlatAppend(x, p + q);
    FlatConcat(x + [p + q], y);
    FlatAppend(x, p);
    FlatPrepend(q, y);
    assert x + [p] == a;
    assert [q] + y == b;
    Regroup(Flat(x), p, q, Flat(y));
  }

  // Two parts that meet may be one.
  lemma MidOk(l: Limits, p: Part, q: Part)
    requires PartOk(l, p) && PartOk(l, q)
    requires l.cluster && Size(p) + Size(q) <= l.maxSize && Joinable(l, Last(p), q[0])
    ensures PartOk(l, p + q) && Size(p + q) == Size(p) + Size(q)
  {
    hide Joinable, Chained, Size;
    SizeConcat(p, q);
    ChainedConcat(l, p, q);
  }

  lemma GlueParts(l: Limits, a: seq<Part>, b: seq<Part>, contig: bool)
    requires PartsOk(l, a) && PartsOk(l, b) && a != [] && b != []
    requires contig ==> PartOk(l, Last(a) + b[0])
    ensures PartsOk(l, Glue(a, b, contig)) && |Glue(a, b, contig)| == |a| + |b| - if contig then 1 else 0
  {
    hide PartOk;
  }

  lemma GluedSizes(a: seq<Part>, b: seq<Part>, contig: bool)
    requires a != [] && b != [] && Size(Last(a) + b[0]) == Size(Last(a)) + Size(b[0])
    ensures FirstSize(Glue(a, b, contig)) == FirstSize(a) + if contig && |a| == 1 then FirstSize(b) else 0
    ensures LastSize(Glue(a, b, contig)) == LastSize(b) + if contig && |b| == 1 then LastSize(a) else 0
  {
    hide Size;
  }

  lemma GlueOk(l: Limits, a: seq<Part>, b: seq<Part>, contig: bool)
    requires PartsOk(l, a) && PartsOk(l, b) && a != [] && b != []
    requires Last(a) != [] && b[0] != []
    requires contig ==> l.cluster && Size(Last(a)) + Size(b[0]) <= l.maxSize && Joinable(l, Last(Last(a)), b[0][0])
    ensures PartsOk(l, Glue(a, b, contig)) && Flat(Glue(a, b, contig)) == Flat(a) + Flat(b)
    ensures |Glue(a, b, contig)| == |a| + |b| - if contig then 1 else 0
    ensures FirstSize(Glue(a, b, contig)) == FirstSize(a) + if contig && |a| == 1 then FirstSize(b) else 0
    ensures LastSize(Glue(a, b, contig)) == LastSize(b) + if contig && |b| == 1 then LastSize(a) else 0
  {
    hide Flat, Joinable, Chained, Size, PartOk, FirstSize, LastSize, Glue, Last;
    LastOk(l, a);
    assert PartOk(l, b[0]);
    SizeConcat(Last(a), b[0]);
    if contig { MidOk(l, Last(a), b[0]); }
    GlueFlatten(a, b, contig);
    GlueParts(l, a, b, contig);
    GluedSizes(a, b, contig);
  }

  lemma GlueFlatten(a: seq<Part>, b: seq<Part>, contig: bool)
    requires a != [] && b != []
    ensures Flat(Glue(a, b, contig)) == Flat(a) + Flat(b)
  {
    hide Flat;
    if contig { GlueFlat(a, b); } else { FlatConcat(a, b); }
  }

  // ---- scatterlists ------------------------------------------------------------------------

  datatype Sg = Sg(start: nat, len: nat)

  function Range(start: nat, len: nat): seq<nat> { seq(len, i requires 0 <= i => start + i) }

  function VecBytes(vecs: seq<Bvec>): seq<nat> {
    if vecs == [] then [] else VecBytes(Init(vecs)) + Range(Last(vecs).start, Last(vecs).len)
  }

  function SgBytes(sg: seq<Sg>): seq<nat> {
    if sg == [] then [] else SgBytes(Init(sg)) + Range(Last(sg).start, Last(sg).len)
  }

  function Entry(p: Part): Sg
    requires p != []
  {
    Sg(p[0].start, Size(p))
  }

  predicate Entries(l: Limits, sg: seq<Sg>, parts: seq<Part>) {
    |sg| == |parts| && PartsOk(l, parts) && forall i :: 0 <= i < |sg| ==> PartOk(l, parts[i]) && sg[i] == Entry(parts[i])
  }

  lemma Associate<T>(a: seq<T>, b: seq<T>, c: seq<T>)
    ensures (a + b) + c == a + (b + c)
  {
  }

  lemma {:induction false} VecBytesConcat(a: seq<Bvec>, b: seq<Bvec>)
    ensures VecBytes(a + b) == VecBytes(a) + VecBytes(b)
  {
    hide Range;
    if b == [] {
      assert a + b == a;
    } else {
      VecBytesConcat(a, Init(b));
      assert Init(a + b) == a + Init(b);
      Associate(VecBytes(a), VecBytes(Init(b)), Range(Last(b).start, Last(b).len));
    }
  }

  lemma RangeSplit(start: nat, a: nat, b: nat)
    ensures Range(start, a) + Range(start + a, b) == Range(start, a + b)
  {
  }

  // A part is one stretch of memory.
  lemma {:induction false} PartBytes(l: Limits, p: Part)
    requires p != [] && Chained(l, p)
    ensures VecBytes(p) == Range(p[0].start, Size(p))
    ensures Last(p).start + Last(p).len == p[0].start + Size(p)
  {
    hide Range;
    var q := Init(p);
    if q == [] {
      assert Size(q) == 0 && VecBytes(q) == [];
      RangeEmpty(p[0].start, p[0].len);
    } else {
      PartBytes(l, q);
      assert Joinable(l, p[|p| - 2], p[|p| - 1]);
      RangeSplit(p[0].start, Size(q), Last(p).len);
    }
  }

  lemma RangeEmpty(start: nat, len: nat)
    ensures [] + Range(start, len) == Range(start, len)
  {
  }

  // The entries cover the bytes of the request, in order.
  lemma {:induction false} EntriesCover(l: Limits, sg: seq<Sg>, parts: seq<Part>)
    requires Entries(l, sg, parts)
    ensures SgBytes(sg) == VecBytes(Flat(parts))
  {
    if sg != [] {
      EntriesCover(l, Init(sg), Init(parts));
      VecBytesConcat(Flat(Init(parts)), Last(parts));
      assert PartOk(l, Last(parts));
      PartBytes(l, Last(parts));
      assert Last(sg) == Entry(Last(parts));
    }
  }

  lemma DivMono(a: nat, b: nat, w: Window)
    requires a <= b
    ensures a / w <= b / w
  {
    var x, y := a / w, b / w;
    assert x * w <= a && b < (y + 1) * w;
    assert x >= y + 1 ==> x * w >= (y + 1) * w;
  }

  // An entry that joins several bvecs stays within the maximum size and within one window.
  lemma {:induction false} EntryInWindow(l: Limits, p: Part)
    requires |p| > 1 && forall i :: 0 <= i < |p| ==> p[i].len > 0
    requires Chained(l, p)
    ensures p[0].start / l.window == (p[0].start + Size(p) - 1) / l.window == Last(p).start / l.window
  {
    var n := |p|;
    var q := Init(p);
    PartBytes(l, p);
    assert Joinable(l, p[n - 2], p[n - 1]);
    DivMono(p[n - 2].start, p[n - 1].start, l.window);
    DivMono(p[n - 1].start, p[n - 1].start + p[n - 1].len - 1, l.window);
    if n > 2 { EntryInWindow(l, q); }
  }
}
