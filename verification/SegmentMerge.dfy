/**
 * Requests grown by back, front and request-to-request merges, with the segment count and the
 * outer segment sizes cached in them, and the mapping to a scatterlist that relies on both.
 */
module SegmentMerge {
  import opened SegmentModel

  // phys, front, back: bi_phys_segments, bi_seg_front_size, bi_seg_back_size;
  // counted: BIO_SEG_VALID.
  class Bio {
    const vecs: seq<Bvec>
    const sector: nat
    const sectors: nat
    var phys: nat
    var front: nat
    var back: nat
    var counted: bool

    constructor (v: seq<Bvec>, s: nat, n: nat)
      ensures vecs == v && sector == s && sectors == n && !counted && front == 0 && back == 0
    {
      vecs, sector, sectors := v, s, n;
      phys, front, back, counted := 0, 0, 0, false;
    }

    // A bio some bytes of which are done: its counts stay as they were.
    constructor Rest(b: Bio, v: seq<Bvec>, n: nat)
      requires n <= b.sectors
      ensures vecs == v && sector == b.sector + n && sectors == b.sectors - n
      ensures phys == b.phys && front == b.front && back == b.back && counted == b.counted
    {
      vecs, sector, sectors := v, b.sector + n, b.sectors - n;
      phys, front, back, counted := b.phys, b.front, b.back, b.counted;
    }

    // What a count, once made, says.
    ghost predicate CountOk(l: Limits)
      reads this
    {
      counted ==> var parts := Greedy(l, vecs, true);
                  phys == |parts| && FirstSize(parts) <= front && LastSize(parts) <= back
    }
  }

  function AllVecs(bios: seq<Bio>): seq<Bvec> {
    if bios == [] then [] else AllVecs(Init(bios)) + Last(bios).vecs
  }

  predicate Distinct(bios: seq<Bio>) { forall i, j :: 0 <= i < j < |bios| ==> bios[i] != bios[j] }

  // The bios cover consecutive sectors.
  predicate Tiles(bios: seq<Bio>) {
    forall i, j {:trigger bios[i], bios[j]} :: 0 <= i && j == i + 1 < |bios| ==> bios[j].sector == bios[i].sector + bios[i].sectors
  }

  predicate DataOnly(bios: seq<Bio>) { forall b :: b in bios ==> b.vecs != [] }

  lemma {:induction false} AllVecsConcat(a: seq<Bio>, b: seq<Bio>)
    ensures AllVecs(a + b) == AllVecs(a) + AllVecs(b)
  {
    if b == [] {
      assert a + b == a;
    } else {
      AllVecsConcat(a, Init(b));
      assert Init(a + b) == a + Init(b);
      Associate(AllVecs(a), AllVecs(Init(b)), Last(b).vecs);
    }
  }

  lemma OneBio(bio: Bio)
    ensures AllVecs([bio]) == bio.vecs && Distinct([bio]) && Tiles([bio]) && (bio.vecs != [] ==> DataOnly([bio]))
  {
    assert AllVecs([bio]) == AllVecs([]) + bio.vecs;
  }

  function Max(a: nat, b: nat): nat { if a < b then b else a }

  // __blk_recalc_rq_segments on the chain a request or a single bio holds
  method CountSegments(l: Limits, bios: seq<Bio>) returns (nr: nat)
    modifies bios
    ensures nr == |Greedy(l, AllVecs(bios), true)|
    ensures forall b :: b in bios ==> b.phys == old(b.phys) && b.counted == old(b.counted)
    ensures forall b :: b in bios ==> b.front == (if b == bios[0] then Max(old(b.front), FirstSize(Greedy(l, AllVecs(bios), true))) else old(b.front))
    ensures forall b :: b in bios ==> b.back == (if b == Last(bios) then Max(old(b.back), LastSize(Greedy(l, AllVecs(bios), true))) else old(b.back))
  {
    hide Size, Extend, Greedy, AllVecs, FirstSize, Cursor;
    nr := 0;
    CountStart(l);
    if bios == [] { return; }
    var segSize: nat, prev, highPrev := 0, Bvec(0, 0, false), true;
    ghost var parts: seq<Part> := [];
    var i := 0;
    while i < |bios|
      invariant i <= |bios|
      invariant parts == Greedy(l, AllVecs(bios[..i]), true)
      invariant Cursor(parts, nr, segSize, prev, highPrev)
      invariant forall b :: b in bios ==> b.phys == old(b.phys) && b.counted == old(b.counted) && b.back == old(b.back)
      invariant forall b :: b in bios && b != bios[0] ==> b.front == old(b.front)
      invariant bios[0].front == if nr <= 1 then old(bios[0].front) else Max(old(bios[0].front), FirstSize(parts))
    {
      nr, segSize, prev, highPrev, parts := CountBio(l, bios[0], bios[i].vecs, nr, segSize, prev, highPrev, AllVecs(bios[..i]), parts);
      AllVecsStep(bios, i);
      i := i + 1;
    }
    assert bios[..i] == bios;
    CursorSizes(parts, nr, segSize, prev, highPrev);
    if nr == 1 && segSize > bios[0].front { bios[0].front := segSize; }
    var tail := bios[|bios| - 1];
    if segSize > tail.back { tail.back := segSize; }
  }

  // The running variables of the count describe the parts found so far.
  ghost predicate Cursor(parts: seq<Part>, nr: nat, segSize: nat, prev: Bvec, highPrev: bool) {
    nr == |parts| && segSize == LastSize(parts) &&
    if parts == [] then highPrev else Last(parts) != [] && prev == Last(Last(parts)) && highPrev == Last(parts)[0].high
  }

  lemma CountStart(l: Limits)
    ensures Greedy(l, AllVecs([]), true) == [] && Cursor([], 0, 0, Bvec(0, 0, false), true) && LastSize([]) == 0 == FirstSize([])
  {
  }

  lemma CursorSizes(parts: seq<Part>, nr: nat, segSize: nat, prev: Bvec, highPrev: bool)
    requires Cursor(parts, nr, segSize, prev, highPrev)
    ensures nr == |parts| && segSize == LastSize(parts) && (nr == 1 ==> FirstSize(parts) == segSize) && (nr == 0 ==> FirstSize(parts) == 0)
  {
  }

  lemma AllVecsStep(bios: seq<Bio>, i: nat)
    requires i < |bios|
    ensures AllVecs(bios[..i + 1]) == AllVecs(bios[..i]) + bios[i].vecs
  {
    assert Init(bios[..i + 1]) == bios[..i];
  }

  // The inner loop over the bvecs of one bio
  method CountBio(l: Limits, first: Bio, vecs: seq<Bvec>, nr0: nat, segSize0: nat, prev0: Bvec, highPrev0: bool,
                  ghost seen: seq<Bvec>, ghost parts0: seq<Part>)
    returns (nr: nat, segSize: nat, prev: Bvec, highPrev: bool, ghost parts: seq<Part>)
    requires parts0 == Greedy(l, seen, true) && Cursor(parts0, nr0, segSize0, prev0, highPrev0)
    modifies first`front
    ensures parts == Greedy(l, seen + vecs, true) && Cursor(parts, nr, segSize, prev, highPrev)
    ensures nr0 <= nr && (nr0 >= 2 ==> FirstSize(parts) == FirstSize(parts0))
    ensures first.front == if nr0 >= 2 || nr <= 1 then old(first.front) else Max(old(first.front), FirstSize(parts))
  {
    nr, segSize, prev, highPrev, parts := nr0, segSize0, prev0, highPrev0, parts0;
    var j := 0;
    assert seen + vecs[..0] == seen;
    while j < |vecs|
      invariant j <= |vecs|
      invariant parts == Greedy(l, seen + vecs[..j], true) && Cursor(parts, nr, segSize, prev, highPrev)
      invariant nr0 <= nr && (nr0 >= 2 ==> FirstSize(parts) == FirstSize(parts0))
      invariant first.front == if nr0 >= 2 || nr <= 1 then old(first.front) else Max(old(first.front), FirstSize(parts))
    {
      var bv := vecs[j];
      assert Init(seen + vecs[..j + 1]) == seen + vecs[..j];
      ExtendSizes(l, parts, bv, true);
      if !bv.high && !highPrev && l.cluster && segSize + bv.len <= l.maxSize && Joinable(l, prev, bv) {
        segSize := segSize + bv.len;
      } else {
        if nr == 1 && segSize > first.front { first.front := segSize; }
        nr, segSize, highPrev := nr + 1, bv.len, bv.high;
      }
      prev := bv;
      parts := Extend(l, parts, bv, true);
      j := j + 1;
    }
    assert vecs[..j] == vecs;
  }

  // blk_recount_segments
  method Recount(l: Limits, bio: Bio)
    modifies bio
    ensures bio.counted && bio.CountOk(l) && bio.phys == |Greedy(l, bio.vecs, true)|
    ensures bio.front >= old(bio.front) && bio.back >= old(bio.back)
  {
    bio.phys := CountSegments(l, [bio]);
    bio.counted := true;
    OneBio(bio);
  }

  // bio_phys_segments: count unless that was done before.
  method PhysSegments(l: Limits, bio: Bio)
    requires bio.CountOk(l)
    modifies bio
    ensures bio.counted && bio.CountOk(l) && bio.front >= old(bio.front) && bio.back >= old(bio.back)
    ensures old(bio.counted) ==> bio.phys == old(bio.phys)
  {
    hide Greedy;
    if !bio.counted { Recount(l, bio); }
  }

  // The count of a bio that is in a request already may be stale; only its sizes matter.
  method Refresh(l: Limits, bio: Bio)
    modifies bio
    ensures bio.front >= old(bio.front) && bio.back >= old(bio.back)
  {
    if !bio.counted { Recount(l, bio); }
  }

  predicate Apart(a: seq<Bio>, b: seq<Bio>) { forall x, y :: x in a && y in b ==> x != y }

  // blk_phys_contig_segment, given the cached sizes and the neighbouring bvecs
  predicate Contig(l: Limits, back: nat, front: nat, a: Bvec, b: Bvec) {
    l.cluster && back + front <= l.maxSize && Joinable(l, a, b)
  }

  function Together(a: nat, b: nat, contig: bool): int { a + b - if contig then 1 else 0 }

  // blk_phys_contig_segment; an empty bio joins anything.
  predicate PhysContig(l: Limits, bio: Bio, next: Bio)
    requires next.vecs != []
    reads bio, next
  {
    l.cluster && bio.back + next.front <= l.maxSize && (bio.vecs == [] || Joinable(l, Last(bio.vecs), next.vecs[0]))
  }

  predicate OuterFit(parts: seq<Part>, first: Bio, last: Bio)
    reads first, last
  {
    FirstSize(parts) <= first.front && LastSize(parts) <= last.back
  }

  // Two chains end to end, with a valid cut of each: the cuts side by side, or joined in the
  // middle, are a valid cut of the whole.
  lemma Beside(l: Limits, a: seq<Bio>, b: seq<Bio>, p: seq<Part>, q: seq<Part>, contig: bool)
    requires a != [] && b != [] && Distinct(a) && Distinct(b) && Apart(a, b) && DataOnly(a) && DataOnly(b) && Tiles(a) && Tiles(b)
    requires b[0].sector == Last(a).sector + Last(a).sectors
    requires p != [] && q != [] && PartsOk(l, p) && PartsOk(l, q) && Flat(p) == AllVecs(a) && Flat(q) == AllVecs(b)
    requires contig ==> l.cluster && Size(Last(p)) + Size(q[0]) <= l.maxSize && Joinable(l, Last(Last(a).vecs), b[0].vecs[0])
    ensures Distinct(a + b) && DataOnly(a + b) && Tiles(a + b)
    ensures PartsOk(l, Glue(p, q, contig)) && Flat(Glue(p, q, contig)) == AllVecs(a + b)
    ensures |Glue(p, q, contig)| == Together(|p|, |q|, contig)
    ensures FirstSize(Glue(p, q, contig)) == FirstSize(p) + if contig && |p| == 1 then FirstSize(q) else 0
    ensures LastSize(Glue(p, q, contig)) == LastSize(q) + if contig && |q| == 1 then LastSize(p) else 0
  {
    hide Distinct, DataOnly, Tiles, Glue, PartsOk, Flat, AllVecs, Joinable;
    ChainsJoin(a, b);
    AllVecsConcat(a, b);
    OuterVecs(l, a, p);
    OuterVecs(l, b, q);
    GlueOk(l, p, q, contig);
  }

  lemma ChainsJoin(a: seq<Bio>, b: seq<Bio>)
    requires a != [] && b != [] && Distinct(a) && Distinct(b) && Apart(a, b) && DataOnly(a) && DataOnly(b) && Tiles(a) && Tiles(b)
    requires b[0].sector == Last(a).sector + Last(a).sectors
    ensures Distinct(a + b) && DataOnly(a + b) && Tiles(a + b)
  {
    var c := a + b;
    forall i, j | 0 <= i < j < |c| ensures c[i] != c[j] {
      if i < |a| <= j { assert a[i] in a && b[j - |a|] in b; }
    }
  }

  lemma {:induction false} FirstOfAll(a: seq<Bio>)
    requires a != [] && DataOnly(a)
    ensures AllVecs(a) != [] && AllVecs(a)[0] == a[0].vecs[0] && Last(AllVecs(a)) == Last(Last(a).vecs)
  {
    if |a| > 1 {
      assert Init(a)[0] == a[0];
      FirstOfAll(Init(a));
    } else {
      assert AllVecs(a) == AllVecs([]) + a[0].vecs;
    }
  }

  lemma {:induction false} FirstOfFlat(l: Limits, p: seq<Part>)
    requires p != [] && PartsOk(l, p)
    ensures p[0] != [] && Flat(p) != [] && Flat(p)[0] == p[0][0]
  {
    assert PartOk(l, p[0]);
    if |p| > 1 {
      assert Init(p)[0] == p[0];
      FirstOfFlat(l, Init(p));
    } else {
      assert Flat(p) == Flat([]) + p[0];
    }
  }

  // The outer bvecs of a chain are the outer bvecs of its cut.
  lemma OuterVecs(l: Limits, a: seq<Bio>, p: seq<Part>)
    requires a != [] && DataOnly(a) && p != [] && PartsOk(l, p) && Flat(p) == AllVecs(a)
    ensures p[0] != [] && Last(p) != [] && p[0][0] == a[0].vecs[0] && Last(Last(p)) == Last(Last(a).vecs)
  {
    FirstOfAll(a);
    FirstOfFlat(l, p);
    LastOfFlat(l, p);
  }

  lemma RangeDrop(start: nat, len: nat, n: nat)
    requires n <= len
    ensures Range(start, len)[n..] == Range(start + n, len - n)
  {
  }

  // The bvecs behind the first n bytes
  method Rest(vecs: seq<Bvec>, n: nat) returns (rest: seq<Bvec>)
    requires n < |VecBytes(vecs)|
    ensures rest != [] && VecBytes(rest) == VecBytes(vecs)[n..]
  {
    hide VecBytes, Range;
    var idx: nat, left: nat := 0, n;
    SomeBytes(vecs);
    assert vecs[0..] == vecs;
    while left > 0 && vecs[idx].len <= left
      invariant idx < |vecs| && left < |VecBytes(vecs[idx..])| && VecBytes(vecs[idx..])[left..] == VecBytes(vecs)[n..]
      decreases |vecs| - idx
    {
      FirstBytes(vecs, idx, left);
      left, idx := left - vecs[idx].len, idx + 1;
    }
    var b := vecs[idx];
    rest := [Bvec(b.start + left, b.len - left, b.high)] + vecs[idx + 1..];
    RestBytes(vecs, idx, left);
  }

  lemma OneVec(b: Bvec)
    ensures VecBytes([b]) == Range(b.start, b.len)
  {
    assert Init([b]) == [];
    assert VecBytes([b]) == VecBytes([]) + Range(b.start, b.len);
  }

  lemma SplitBytes(vecs: seq<Bvec>, idx: nat)
    requires idx < |vecs|
    ensures VecBytes(vecs[idx..]) == Range(vecs[idx].start, vecs[idx].len) + VecBytes(vecs[idx + 1..])
  {
    hide VecBytes;
    assert vecs[idx..] == [vecs[idx]] + vecs[idx + 1..];
    VecBytesConcat([vecs[idx]], vecs[idx + 1..]);
    OneVec(vecs[idx]);
  }

  lemma SomeBytes(vecs: seq<Bvec>)
    ensures VecBytes(vecs) != [] ==> vecs != []
  {
  }

  lemma FirstBytes(vecs: seq<Bvec>, idx: nat, left: nat)
    requires idx < |vecs| && vecs[idx].len <= left < |VecBytes(vecs[idx..])|
    ensures idx + 1 < |vecs| && left - vecs[idx].len < |VecBytes(vecs[idx + 1..])|
    ensures VecBytes(vecs[idx + 1..])[left - vecs[idx].len..] == VecBytes(vecs[idx..])[left..]
  {
    hide VecBytes;
    SplitBytes(vecs, idx);
    SomeBytes(vecs[idx + 1..]);
  }

  lemma RestBytes(vecs: seq<Bvec>, idx: nat, left: nat)
    requires idx < |vecs| && left <= vecs[idx].len && left <= |VecBytes(vecs[idx..])|
    ensures var b := vecs[idx];
            VecBytes([Bvec(b.start + left, b.len - left, b.high)] + vecs[idx + 1..]) == VecBytes(vecs[idx..])[left..]
  {
    hide VecBytes, Range;
    var b := vecs[idx];
    var c := Bvec(b.start + left, b.len - left, b.high);
    SplitBytes(vecs, idx);
    VecBytesConcat([c], vecs[idx + 1..]);
    OneVec(c);
    RangeDrop(b.start, b.len, left);
    RangeLength(b.start, b.len);
  }

  lemma RangeLength(start: nat, len: nat)
    ensures |Range(start, len)| == len
  {
  }

  // A chain without its first bios and some bytes of the next
  lemma ChainCut(bios: seq<Bio>, i: nat, first: Bio, n: nat)
    requires i < |bios| && Distinct(bios) && DataOnly(bios) && Tiles(bios) && first !in bios && first.vecs != []
    requires first.sector + first.sectors == bios[i].sector + bios[i].sectors
    requires n <= |VecBytes(bios[i].vecs)| && VecBytes(first.vecs) == VecBytes(bios[i].vecs)[n..]
    ensures var rest := [first] + bios[i + 1..];
            Distinct(rest) && DataOnly(rest) && Tiles(rest) &&
            first.sector <= Last(rest).sector + Last(rest).sectors == Last(bios).sector + Last(bios).sectors &&
            |VecBytes(AllVecs(bios[..i]))| + n <= |VecBytes(AllVecs(bios))| &&
            VecBytes(AllVecs(rest)) == VecBytes(AllVecs(bios))[|VecBytes(AllVecs(bios[..i]))| + n..]
  {
    ChainCutShape(bios, i, first);
    ChainCutBytes(bios, i, first, n);
  }

  lemma ChainCutShape(bios: seq<Bio>, i: nat, first: Bio)
    requires i < |bios| && Distinct(bios) && DataOnly(bios) && Tiles(bios) && first !in bios && first.vecs != []
    requires first.sector + first.sectors == bios[i].sector + bios[i].sectors
    ensures var rest := [first] + bios[i + 1..];
            Distinct(rest) && DataOnly(rest) && Tiles(rest) &&
            first.sector <= Last(rest).sector + Last(rest).sectors == Last(bios).sector + Last(bios).sectors
  {
    var rest := [first] + bios[i + 1..];
    forall j | 0 < j < |rest| ensures rest[j] == bios[i + j] {}
    TilesOn(rest);
  }

  lemma {:induction false} TilesOn(bios: seq<Bio>)
    requires bios != [] && Tiles(bios)
    ensures bios[0].sector <= Last(bios).sector + Last(bios).sectors
  {
    if |bios| > 1 {
      assert bios[1].sector == bios[0].sector + bios[0].sectors;
      TilesOn(bios[1..]);
    }
  }

  lemma ChainCutBytes(bios: seq<Bio>, i: nat, first: Bio, n: nat)
    requires i < |bios| && n <= |VecBytes(bios[i].vecs)| && VecBytes(first.vecs) == VecBytes(bios[i].vecs)[n..]
    ensures |VecBytes(AllVecs(bios[..i]))| + n <= |VecBytes(AllVecs(bios))|
    ensures VecBytes(AllVecs([first] + bios[i + 1..])) == VecBytes(AllVecs(bios))[|VecBytes(AllVecs(bios[..i]))| + n..]
  {
    hide AllVecs, VecBytes;
    var a, b, c := bios[..i], bios[i], bios[i + 1..];
    assert bios == a + ([b] + c);
    AllVecsConcat(a, [b] + c);
    AllVecsConcat([b], c);
    AllVecsConcat([first], c);
    OneBio(b);
    OneBio(first);
    VecBytesConcat(AllVecs(a), AllVecs([b] + c));
    VecBytesConcat(b.vecs, AllVecs(c));
    VecBytesConcat(first.vecs, AllVecs(c));
  }

  // bios: the bi_next chain from bio to biotail. mergeable: none of the flags that forbid
  // merging for good is set. target: the data direction, the disk and the integrity profile.
  class Request {
    var bios: seq<Bio>
    var nr: nat
    var sector: nat
    var nrSectors: nat
    var noMerge: bool
    const special: bool
    const mergeable: bool
    const target: int
    ghost var parts: seq<Part>   // some valid cut of the whole request

    // The cached count is the size of a valid cut whose outer parts fit the cached sizes.
    ghost predicate Valid(l: Limits)
      reads this, bios
    {
      bios != [] && Distinct(bios) && DataOnly(bios) && Tiles(bios) &&
      bios[0].sector == sector && Last(bios).sector + Last(bios).sectors == sector + nrSectors &&
      parts != [] && PartsOk(l, parts) && Flat(parts) == AllVecs(bios) && nr == |parts| &&
      FirstSize(parts) <= bios[0].front && LastSize(parts) <= Last(bios).back
    }

    // init_request_from_bio for a data bio
    constructor (l: Limits, bio: Bio, sp: bool, m: bool, t: int)
      requires bio.vecs != [] && bio.CountOk(l)
      modifies bio
      ensures Valid(l) && bios == [bio] && special == sp && mergeable == m && target == t && !noMerge
    {
      hide Distinct, Tiles, PartsOk, Flat, AllVecs, Greedy, Size;
      bios, sector, nrSectors, noMerge, special, mergeable, target := [bio], bio.sector, bio.sectors, false, sp, m, t;
      new;
      PhysSegments(l, bio);
      nr, parts := bio.phys, Greedy(l, bio.vecs, true);
      GreedyOk(l, bio.vecs, true);
      OneBio(bio);
    }

    // bio_phys_segments and ll_new_hw_segment
    method NewSegment(l: Limits, bio: Bio) returns (ok: bool)
      requires Valid(l) && bio.CountOk(l) && bio !in bios
      modifies `nr, `noMerge, bio
      ensures bio.counted && bio.CountOk(l)
      ensures ok == (old(nr) + bio.phys <= l.maxHw && old(nr) + bio.phys <= l.maxPhys)
      ensures nr == old(nr) + (if ok then bio.phys else 0) && noMerge == (old(noMerge) || !ok)
    {
      PhysSegments(l, bio);
      ok := nr + bio.phys <= l.maxHw && nr + bio.phys <= l.maxPhys;
      if ok { nr := nr + bio.phys; } else { noMerge := true; }
    }

    // The back merge branch of __make_request with ll_back_merge_fn
    method BackMerge(l: Limits, bio: Bio) returns (ok: bool)
      requires Valid(l) && bio.CountOk(l) && bio !in bios && bio.vecs != [] && bio.sector == sector + nrSectors
      modifies this, bios, bio
      ensures Valid(l) && sector == old(sector)
      ensures ok == (old(nrSectors) + bio.sectors <= l.maxSectors &&
                     old(nr) + bio.phys <= l.maxHw && old(nr) + bio.phys <= l.maxPhys)
      ensures ok ==> bios == old(bios) + [bio] && nr == old(nr) + bio.phys && nrSectors == old(nrSectors) + bio.sectors
      ensures !ok ==> bios == old(bios) && nr == old(nr) && nrSectors == old(nrSectors) && noMerge
    {
      hide Distinct, Tiles, PartsOk, Flat, AllVecs, Greedy, Joinable, Size;
      if nrSectors + bio.sectors > l.maxSectors { noMerge := true; return false; }
      Refresh(l, bios[|bios| - 1]);
      ok := NewSegment(l, bio);
      if ok {
        GreedyOk(l, bio.vecs, true);
        OneBio(bio);
        Beside(l, bios, [bio], parts, Greedy(l, bio.vecs, true), false);
        bios, nrSectors, parts := bios + [bio], nrSectors + bio.sectors, parts + Greedy(l, bio.vecs, true);
      }
    }

    // The front merge branch of __make_request with ll_front_merge_fn
    method FrontMerge(l: Limits, bio: Bio) returns (ok: bool)
      requires Valid(l) && bio.CountOk(l) && bio !in bios && bio.vecs != [] && bio.sector + bio.sectors == sector
      modifies this, bios, bio
      ensures Valid(l) && sector + nrSectors == old(sector) + old(nrSectors)
      ensures ok == (old(nrSectors) + bio.sectors <= l.maxSectors &&
                     old(nr) + bio.phys <= l.maxHw && old(nr) + bio.phys <= l.maxPhys)
      ensures ok ==> bios == [bio] + old(bios) && nr == old(nr) + bio.phys && nrSectors == old(nrSectors) + bio.sectors
      ensures !ok ==> bios == old(bios) && nr == old(nr) && nrSectors == old(nrSectors) && noMerge
    {
      hide Distinct, Tiles, DataOnly, PartsOk, Flat, AllVecs, Greedy, Joinable, Size;
      if nrSectors + bio.sectors > l.maxSectors { noMerge := true; return false; }
      PhysSegments(l, bio);
      Refresh(l, bios[0]);
      ok := NewSegment(l, bio);
      if ok {
        GreedyOk(l, bio.vecs, true);
        OneBio(bio);
        Beside(l, [bio], bios, Greedy(l, bio.vecs, true), parts, false);
        bios, sector, nrSectors, parts := [bio] + bios, bio.sector, nrSectors + bio.sectors, Greedy(l, bio.vecs, true) + parts;
      }
    }

    // ll_merge_requests_fn. The sizes are widened before the limits are checked, so they stay
    // bounds of the outer parts even when the merge is then refused.
    method MergeFn(l: Limits, next: Request) returns (ok: bool, ghost contig: bool)
      requires Valid(l) && next.Valid(l) && this != next && Apart(bios, next.bios)
      modifies `nr, bios[0], next.bios[|next.bios| - 1]
      ensures contig == Contig(l, old(Last(bios).back), old(next.bios[0].front), Last(Last(bios).vecs), next.bios[0].vecs[0])
      ensures ok == (!special && !next.special && nrSectors + next.nrSectors <= l.maxSectors &&
                     Together(old(nr), next.nr, contig) <= l.maxPhys && Together(old(nr), next.nr, contig) <= l.maxHw)
      ensures nr == if ok then Together(old(nr), next.nr, contig) else old(nr)
      ensures next.Valid(l) && (!ok ==> Valid(l))
      ensures ok ==> OuterFit(Glue(parts, next.parts, contig), bios[0], Last(next.bios))
    {
      hide Distinct, Tiles, PartsOk, Flat, AllVecs, Greedy, Joinable, FirstSize, LastSize, Glue;
      var tail, head := bios[|bios| - 1], next.bios[0];
      var segSize := tail.back + head.front;
      contig := Contig(l, tail.back, head.front, Last(tail.vecs), head.vecs[0]);
      GlueSizes(l, this, next, contig);
      if special || next.special || nrSectors + next.nrSectors > l.maxSectors { return false, contig; }
      var total := nr + next.nr;
      if PhysContig(l, tail, head) {
        if nr == 1 { bios[0].front := segSize; }
        var nextTail := next.bios[|next.bios| - 1];
        if next.nr == 1 { nextTail.back := segSize; }
        total := total - 1;
      }
      if total > l.maxPhys || total > l.maxHw { return false, contig; }
      nr := total;
      return true, contig;
    }

    // attempt_merge: `next` is freed when it succeeds.
    method AttemptMerge(l: Limits, next: Request) returns (ok: bool)
      requires Valid(l) && next.Valid(l) && this != next && Apart(bios, next.bios)
      modifies this, bios, next.bios
      ensures Valid(l) && sector == old(sector) && (!ok ==> next.Valid(l))
      ensures var contig := Contig(l, old(Last(bios).back), old(next.bios[0].front), old(Last(Last(bios).vecs)), old(next.bios[0].vecs[0]));
              var joint := Together(old(nr), old(next.nr), contig);
              ok == (mergeable && next.mergeable && !old(noMerge) && !old(next.noMerge) && target == next.target &&
                     old(sector) + old(nrSectors) == old(next.sector) && !special && !next.special &&
                     old(nrSectors) + old(next.nrSectors) <= l.maxSectors && joint <= l.maxPhys && joint <= l.maxHw) &&
              (ok ==> bios == old(bios) + old(next.bios) && nrSectors == old(nrSectors) + old(next.nrSectors) && nr == joint)
      ensures !ok ==> bios == old(bios) && nr == old(nr) && nrSectors == old(nrSectors)
    {
      hide Distinct, Tiles, DataOnly, PartsOk, Flat, AllVecs, Joinable, Glue;
      if !mergeable || noMerge || !next.mergeable || next.noMerge { return false; }
      if sector + nrSectors != next.sector { return false; }
      if target != next.target || next.special { return false; }
      ghost var back, front := bios[|bios| - 1].back, next.bios[0].front;
      ghost var contig;
      ok, contig := MergeFn(l, next);
      if ok {
        Beside(l, bios, next.bios, parts, next.parts, contig);
        bios, nrSectors, parts := bios + next.bios, nrSectors + next.nrSectors, Glue(parts, next.parts, contig);
      }
    }

    // blk_recalc_rq_segments, after the chain was cut short at the front
    method RecalcSegments(l: Limits)
      requires bios != [] && Distinct(bios) && DataOnly(bios) && Tiles(bios) && bios[0].sector == sector
      requires Last(bios).sector + Last(bios).sectors == sector + nrSectors
      modifies `nr, `parts, bios
      ensures Valid(l) && parts == Greedy(l, AllVecs(bios), true)
    {
      nr := CountSegments(l, bios);
      parts := Greedy(l, AllVecs(bios), true);
      GreedyOk(l, AllVecs(bios), true);
      FirstOfAll(bios);
    }

    // The end of __end_that_request_first: `done` bios have ended and n bytes of the next one. Its bvecs
    // are advanced, the sectors of the request follow, and the segments are counted again.
    method Advance(l: Limits, done: nat, n: nat)
      requires Valid(l) && done < |bios| && n % 512 == 0 && n < |VecBytes(bios[done].vecs)| == 512 * bios[done].sectors
      modifies this, bios
      ensures Valid(l) && parts == Greedy(l, AllVecs(bios), true)
      ensures |VecBytes(AllVecs(old(bios)[..done]))| + n <= |VecBytes(AllVecs(old(bios)))|
      ensures VecBytes(AllVecs(bios)) == VecBytes(AllVecs(old(bios)))[|VecBytes(AllVecs(old(bios)[..done]))| + n..]
      ensures sector == old(bios)[done].sector + n / 512 && sector + nrSectors == old(sector) + old(nrSectors)
      ensures |bios| == |old(bios)| - done && bios[1..] == old(bios)[done + 1..]
    {
      hide Distinct, DataOnly, PartsOk, Flat, AllVecs, Greedy, VecBytes, Size;
      var nsect, i := 0, 0;
      while i < done
        invariant i <= done && sector + nsect == bios[i].sector
      {
        nsect, i := nsect + bios[i].sectors, i + 1;
      }
      var vecs := Rest(bios[done].vecs, n);
      var first := new Bio.Rest(bios[done], vecs, n / 512);
      nsect := nsect + n / 512;
      ChainCut(bios, done, first, n);
      bios := [first] + bios[done + 1..];
      sector, nrSectors := sector + nsect, nrSectors - nsect;
      RecalcSegments(l);
    }

    // blk_rq_map_sg up to the padding: never more entries than counted, and the entries cover
    // the bytes of the request in order.
    method MapSg(l: Limits) returns (sg: seq<Sg>)
      requires Valid(l)
      ensures Entries(l, sg, Greedy(l, AllVecs(bios), false))
      ensures |sg| <= nr && SgBytes(sg) == VecBytes(AllVecs(bios))
    {
      sg := [];
      var prev: seq<Bvec> := [];
      ghost var seen: seq<Bvec> := [];
      var i := 0;
      while i < |bios|
        invariant i <= |bios| && seen == AllVecs(bios[..i])
        invariant Mapped(l, sg, prev, seen)
      {
        ghost var before := seen;
        var j := 0;
        while j < |bios[i].vecs|
          invariant j <= |bios[i].vecs| && seen == before + bios[i].vecs[..j]
          invariant Mapped(l, sg, prev, seen)
        {
          var bv := bios[i].vecs[j];
          MapStep(l, sg, prev, seen, bv);
          if prev != [] && l.cluster && sg[|sg| - 1].len + bv.len <= l.maxSize && Joinable(l, prev[0], bv) {
            sg := sg[|sg| - 1 := sg[|sg| - 1].(len := sg[|sg| - 1].len + bv.len)];
          } else {
            sg := sg + [Sg(bv.start, bv.len)];
          }
          prev, seen := [bv], seen + [bv];
          j := j + 1;
        }
        assert Init(bios[..i + 1]) == bios[..i];
        assert bios[i].vecs[..j] == bios[i].vecs;
        i := i + 1;
      }
      assert bios[..i] == bios;
      GreedyMinimal(l, parts);
      EntriesCover(l, sg, Greedy(l, seen, false));
      GreedyOk(l, seen, false);
    }
  }

  // The entries made so far, and the bvec before, are those of the greedy cut so far.
  ghost predicate Mapped(l: Limits, sg: seq<Sg>, prev: seq<Bvec>, seen: seq<Bvec>) {
    Entries(l, sg, Greedy(l, seen, false)) &&
    if seen == [] then sg == [] && prev == [] else sg != [] && prev == [Last(seen)]
  }

  function MapNext(l: Limits, sg: seq<Sg>, prev: seq<Bvec>, bv: Bvec): seq<Sg>
    requires prev != [] ==> sg != []
  {
    if prev != [] && l.cluster && Last(sg).len + bv.len <= l.maxSize && Joinable(l, prev[0], bv)
    then sg[|sg| - 1 := Sg(Last(sg).start, Last(sg).len + bv.len)]
    else sg + [Sg(bv.start, bv.len)]
  }

  lemma MapStep(l: Limits, sg: seq<Sg>, prev: seq<Bvec>, seen: seq<Bvec>, bv: Bvec)
    requires Mapped(l, sg, prev, seen)
    ensures prev != [] ==> sg != []
    ensures Mapped(l, MapNext(l, sg, prev, bv), [bv], seen + [bv])
  {
    hide Flat, Joinable;
    var parts := Greedy(l, seen, false);
    assert Init(seen + [bv]) == seen;
    GreedyOk(l, seen, false);
    ExtendOk(l, parts, bv, false);
    assert [] + [bv] == [bv];
    SizeAppend([], bv);
    if seen != [] {
      LastOfFlat(l, parts);
      SizeAppend(Last(parts), bv);
      assert Last(sg) == Entry(Last(parts));
    }
  }

  lemma GlueSizes(l: Limits, r: Request, next: Request, contig: bool)
    requires r.Valid(l) && next.Valid(l) && Apart(r.bios, next.bios)
    requires contig ==> Contig(l, Last(r.bios).back, next.bios[0].front, Last(Last(r.bios).vecs), next.bios[0].vecs[0])
    ensures (r.nr == 1 ==> FirstSize(r.parts) == LastSize(r.parts)) && (next.nr == 1 ==> FirstSize(next.parts) == LastSize(next.parts))
    ensures FirstSize(Glue(r.parts, next.parts, contig)) == FirstSize(r.parts) + if contig && r.nr == 1 then FirstSize(next.parts) else 0
    ensures LastSize(Glue(r.parts, next.parts, contig)) == LastSize(next.parts) + if contig && next.nr == 1 then LastSize(r.parts) else 0
  {
    OuterVecs(l, r.bios, r.parts);
    OuterVecs(l, next.bios, next.parts);
    GlueOk(l, r.parts, next.parts, contig);
  }
}
