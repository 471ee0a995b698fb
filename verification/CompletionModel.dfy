/**
 * Partial completion of a request: what is left of a chain of bios after some bytes are done.
 * This is the specification; the loop of __end_that_request_first is proved against it.
 */
module CompletionModel {

  // bv_page and bv_offset as one address
  datatype Vec = Vec(start: nat, len: nat)

  // vecs: the bvecs from bi_idx on. size: bi_size.
  datatype Bio = Bio(id: nat, vecs: seq<Vec>, size: nat, sector: nat, upToDate: bool)

  datatype Ended = Ended(id: nat, error: int)

  // The chain left, the bios ended in order, and the bytes done
  datatype Result = Result(bios: seq<Bio>, ended: seq<Ended>, total: nat)

  const EIO: int := -5

  function Len(vecs: seq<Vec>): nat { if vecs == [] then 0 else vecs[0].len + Len(vecs[1..]) }

  predicate Sound(b: Bio) { b.size == Len(b.vecs) }

  predicate AllSound(bios: seq<Bio>) { forall b :: b in bios ==> Sound(b) }

  // The bvecs left when n bytes at the front are done. One that ends exactly there is passed.
  function DropBytes(vecs: seq<Vec>, n: nat): seq<Vec>
    requires n < Len(vecs)
    decreases |vecs|
  {
    if vecs[0].len > n then [Vec(vecs[0].start + n, vecs[0].len - n)] + vecs[1..]
    else if vecs[0].len == n then vecs[1..]
    else DropBytes(vecs[1..], n - vecs[0].len)
  }

  // req_bio_endio on n bytes of a bio that does not end
  function Advance(b: Bio, n: nat, error: int): Bio
    requires n < b.size && Sound(b)
  {
    if n == 0 then b
    else b.(vecs := DropBytes(b.vecs, n), size := b.size - n, sector := b.sector + n / 512,
            upToDate := b.upToDate && error == 0)
  }

  // What bio_endio is told
  function EndError(b: Bio, error: int): int {
    if error != 0 then error else if b.upToDate then 0 else EIO
  }

  function Complete(bios: seq<Bio>, n: nat, error: int): Result
    requires AllSound(bios)
  {
    if bios == [] then Result([], [], 0)
    else if n < bios[0].size then Result([Advance(bios[0], n, error)] + bios[1..], [], n)
    else
      var e := Ended(bios[0].id, EndError(bios[0], error));
      if n == bios[0].size then Result(bios[1..], [e], n)
      else
        var r := Complete(bios[1..], n - bios[0].size, error);
        Result(r.bios, [e] + r.ended, bios[0].size + r.total)
  }

  // ---- the bytes themselves ------------------------------------------------------------------

  function Range(start: nat, len: nat): seq<nat> { seq(len, i requires 0 <= i => start + i) }

  function VecBytes(vecs: seq<Vec>): seq<nat> {
    if vecs == [] then [] else Range(vecs[0].start, vecs[0].len) + VecBytes(vecs[1..])
  }

  function Bytes(bios: seq<Bio>): seq<nat> {
    if bios == [] then [] else VecBytes(bios[0].vecs) + Bytes(bios[1..])
  }

  function Total(bios: seq<Bio>): nat { if bios == [] then 0 else bios[0].size + Total(bios[1..]) }

  function Min(a: nat, b: nat): nat { if a < b then a else b }

  lemma {:induction false} VecBytesLen(vecs: seq<Vec>)
    ensures |VecBytes(vecs)| == Len(vecs)
  {
    if vecs != [] { VecBytesLen(vecs[1..]); }
  }

  lemma {:induction false} BytesLen(bios: seq<Bio>)
    requires AllSound(bios)
    ensures |Bytes(bios)| == Total(bios)
  {
    if bios != [] {
      assert Sound(bios[0]);
      VecBytesLen(bios[0].vecs);
      BytesLen(bios[1..]);
    }
  }

  lemma {:induction false} DropBytesOk(vecs: seq<Vec>, n: nat)
    requires n < Len(vecs)
    ensures |VecBytes(vecs)| == Len(vecs)
    ensures VecBytes(DropBytes(vecs, n)) == VecBytes(vecs)[n..] && Len(DropBytes(vecs, n)) == Len(vecs) - n
    decreases |vecs|
  {
    VecBytesLen(vecs);
    var head := Range(vecs[0].start, vecs[0].len);
    if vecs[0].len > n {
      var cut := Vec(vecs[0].start + n, vecs[0].len - n);
      assert ([cut] + vecs[1..])[1..] == vecs[1..];
      assert Range(cut.start, cut.len) == head[n..];
    } else if vecs[0].len < n {
      DropBytesOk(vecs[1..], n - vecs[0].len);
    }
  }

  lemma AdvanceOk(b: Bio, n: nat, error: int)
    requires n < b.size && Sound(b)
    ensures Sound(Advance(b, n, error)) && Advance(b, n, error).size == b.size - n
    ensures |VecBytes(b.vecs)| == b.size && VecBytes(Advance(b, n, error).vecs) == VecBytes(b.vecs)[n..]
  {
    VecBytesLen(b.vecs);
    DropBytesOk(b.vecs, n);
  }

  lemma BytesOf(bios: seq<Bio>)
    requires AllSound(bios) && bios != []
    ensures Bytes(bios) == VecBytes(bios[0].vecs) + Bytes(bios[1..]) && |VecBytes(bios[0].vecs)| == bios[0].size
  {
    assert Sound(bios[0]);
    VecBytesLen(bios[0].vecs);
  }

  // Completing n bytes removes exactly the first min(n, total) bytes, and reports how many.
  lemma {:induction false} CompleteRemoves(bios: seq<Bio>, n: nat, error: int)
    requires AllSound(bios)
    ensures Complete(bios, n, error).total == Min(n, Total(bios)) <= |Bytes(bios)|
    ensures Bytes(Complete(bios, n, error).bios) == Bytes(bios)[Min(n, Total(bios))..]
    ensures AllSound(Complete(bios, n, error).bios)
  {
    hide VecBytes, Advance;
    BytesLen(bios);
    if bios != [] {
      BytesOf(bios);
      if n < bios[0].size {
        AdvanceOk(bios[0], n, error);
        assert ([Advance(bios[0], n, error)] + bios[1..])[1..] == bios[1..];
      } else {
        BytesLen(bios[1..]);
        if n > bios[0].size { CompleteRemoves(bios[1..], n - bios[0].size, error); }
      }
    }
  }

  // Each bio ends once, in order, when its last byte goes; the bios behind are not touched. The
  // request is done exactly when nothing is left: a bio without data at the end keeps it alive
  // unless more was completed than there was.
  lemma {:induction false} CompleteEnds(bios: seq<Bio>, n: nat, error: int)
    requires AllSound(bios)
    ensures var r := Complete(bios, n, error);
            |r.ended| + |r.bios| == |bios| &&
            (forall i :: 0 <= i < |r.ended| ==> r.ended[i] == Ended(bios[i].id, EndError(bios[i], error))) &&
            (r.bios != [] ==> r.bios[0].id == bios[|r.ended|].id && r.bios[1..] == bios[|r.ended| + 1..])
    ensures Complete(bios, n, error).bios == [] <==>
            n > Total(bios) || (n == Total(bios) && (|bios| <= 1 || bios[|bios| - 1].size > 0))
  {
    hide EndError;
    if bios != [] && n > bios[0].size {
      CompleteEnds(bios[1..], n - bios[0].size, error);
    } else if bios != [] && n == bios[0].size {
      TotalPositive(bios[1..]);
    } else if bios != [] {
      assert ([Advance(bios[0], n, error)] + bios[1..])[1..] == bios[1..];
    }
  }

  lemma {:induction false} TotalPositive(bios: seq<Bio>)
    ensures bios != [] && bios[|bios| - 1].size > 0 ==> Total(bios) > 0
  {
    if |bios| > 1 { TotalPositive(bios[1..]); }
  }

  // ---- completing in two steps ---------------------------------------------------------------

  lemma {:induction false} DropTwice(vecs: seq<Vec>, a: nat, b: nat)
    requires 0 < a && 0 < b && a + b < Len(vecs)
    ensures b < Len(DropBytes(vecs, a)) && DropBytes(DropBytes(vecs, a), b) == DropBytes(vecs, a + b)
    decreases |vecs|
  {
    DropBytesOk(vecs, a);
    if vecs[0].len < a {
      DropTwice(vecs[1..], a - vecs[0].len, b);
    } else if vecs[0].len > a {
      var cut := Vec(vecs[0].start + a, vecs[0].len - a);
      assert ([cut] + vecs[1..])[1..] == vecs[1..];
    }
  }

  predicate SameBio(x: Bio, y: Bio, sectors: bool) { x == if sectors then y else y.(sector := x.sector) }

  predicate SameBios(xs: seq<Bio>, ys: seq<Bio>, sectors: bool) {
    |xs| == |ys| && forall i :: 0 <= i < |xs| ==> SameBio(xs[i], ys[i], sectors)
  }

  predicate Whole(bios: seq<Bio>) { forall b :: b in bios ==> b.size % 512 == 0 }

  lemma AdvanceTwice(x: Bio, a: nat, b: nat, error: int, sectors: bool)
    requires Sound(x) && a + b < x.size && (sectors ==> a % 512 == 0)
    ensures Sound(Advance(x, a, error)) && b < Advance(x, a, error).size
    ensures SameBio(Advance(Advance(x, a, error), b, error), Advance(x, a + b, error), sectors)
  {
    AdvanceOk(x, a, error);
    if a > 0 && b > 0 {
      DropTwice(x.vecs, a, b);
      if a % 512 == 0 { assert (x.sector + a / 512) + b / 512 == x.sector + (a + b) / 512; }
    }
  }

  // What completing a and then b has to do with completing a + b
  ghost predicate Composes(first: Result, second: Result, both: Result, sectors: bool) {
    SameBios(second.bios, both.bios, sectors) && both.ended == first.ended + second.ended &&
    both.total == first.total + second.total
  }

  lemma TwiceWithin(bios: seq<Bio>, a: nat, b: nat, error: int, sectors: bool)
    requires AllSound(bios) && bios != [] && a < bios[0].size && (sectors ==> a % 512 == 0)
    ensures var first := Complete(bios, a, error);
            AllSound(first.bios) &&
            Composes(first, Complete(first.bios, b, error), Complete(bios, a + b, error), sectors)
  {
    hide Advance, SameBio;
    var x := Advance(bios[0], a, error);
    AdvanceOk(bios[0], a, error);
    var left := [x] + bios[1..];
    assert left[1..] == bios[1..];
    if a + b < bios[0].size {
      AdvanceTwice(bios[0], a, b, error, sectors);
    } else {
      SameEnd(bios[0], a, error);
    }
    SameAll(bios[1..], sectors);
    SameAll(Complete(bios, a + b, error).bios, sectors);
    assert [] + Complete(left, b, error).ended == Complete(left, b, error).ended;
  }

  // A bio advanced by the same error ends with what it would have ended with.
  lemma SameEnd(x: Bio, a: nat, error: int)
    requires Sound(x) && a < x.size
    ensures Advance(x, a, error).id == x.id && EndError(Advance(x, a, error), error) == EndError(x, error)
  {
  }

  lemma SameAll(bios: seq<Bio>, sectors: bool)
    ensures forall i :: 0 <= i < |bios| ==> SameBio(bios[i], bios[i], sectors)
  {
  }

  lemma NothingDone(bios: seq<Bio>, error: int)
    requires AllSound(bios) && (bios == [] || bios[0].size > 0)
    ensures Complete(bios, 0, error) == Result(bios, [], 0)
  {
    if bios != [] { assert [bios[0]] + bios[1..] == bios; }
  }

  lemma TwiceAt(bios: seq<Bio>, b: nat, error: int)
    requires AllSound(bios) && bios != [] && (b > 0 || bios[1..] == [] || bios[1].size > 0)
    ensures var first := Complete(bios, bios[0].size, error);
            first.bios == bios[1..] &&
            Composes(first, Complete(bios[1..], b, error), Complete(bios, bios[0].size + b, error), true)
  {
    if b == 0 { NothingDone(bios[1..], error); }
  }

  lemma CompleteMore(bios: seq<Bio>, n: nat, error: int)
    requires AllSound(bios) && bios != [] && n > bios[0].size
    ensures var r := Complete(bios[1..], n - bios[0].size, error);
            Complete(bios, n, error) == Result(r.bios, [Ended(bios[0].id, EndError(bios[0], error))] + r.ended, bios[0].size + r.total)
  {
  }

  lemma TwicePast(bios: seq<Bio>, a: nat, b: nat, error: int, sectors: bool)
    requires AllSound(bios) && bios != [] && a > bios[0].size
    requires var first := Complete(bios[1..], a - bios[0].size, error);
             AllSound(first.bios) &&
             Composes(first, Complete(first.bios, b, error), Complete(bios[1..], a - bios[0].size + b, error), sectors)
    ensures var first := Complete(bios, a, error);
            Composes(first, Complete(first.bios, b, error), Complete(bios, a + b, error), sectors)
  {
    hide Complete, SameBios;
    var e := Ended(bios[0].id, EndError(bios[0], error));
    var first := Complete(bios[1..], a - bios[0].size, error);
    var second := Complete(first.bios, b, error);
    CompleteMore(bios, a, error);
    var both := Complete(bios[1..], a - bios[0].size + b, error);
    CompleteMore(bios, a + b, error);
    assert [e] + (first.ended + second.ended) == ([e] + first.ended) + second.ended;
  }

  lemma WholeRest(bios: seq<Bio>, a: nat)
    requires bios != [] && Whole(bios) && a % 512 == 0
    ensures Whole(bios[1..]) && (a - bios[0].size) % 512 == 0
  {
    assert bios[0] in bios;
  }

  lemma CompleteSound(bios: seq<Bio>, a: nat, error: int)
    requires AllSound(bios)
    ensures AllSound(Complete(bios, a, error).bios)
  {
    CompleteRemoves(bios, a, error);
  }

  lemma CompletePast(bios: seq<Bio>, a: nat, error: int)
    requires AllSound(bios) && bios != [] && a > bios[0].size
    ensures Complete(bios, a, error).bios == Complete(bios[1..], a - bios[0].size, error).bios
  {
  }

  lemma CompleteAt(bios: seq<Bio>, error: int)
    requires AllSound(bios) && bios != []
    ensures Complete(bios, bios[0].size, error).bios == bios[1..]
  {
  }

  lemma TwiceNothing(a: nat, b: nat, error: int, sectors: bool)
    ensures Complete([], a, error).bios == []
    ensures Composes(Complete([], a, error), Complete([], b, error), Complete([], a + b, error), sectors)
  {
  }

  lemma {:induction false} TwiceWhen(bios: seq<Bio>, a: nat, b: nat, error: int, sectors: bool)
    requires AllSound(bios) && (sectors ==> a % 512 == 0 && Whole(bios))
    requires var left := Complete(bios, a, error).bios; b > 0 || left == [] || left[0].size > 0
    ensures AllSound(Complete(bios, a, error).bios)
    ensures var first := Complete(bios, a, error);
            Composes(first, Complete(first.bios, b, error), Complete(bios, a + b, error), sectors)
  {
    hide Composes, Whole, Complete;
    CompleteSound(bios, a, error);
    if bios == [] {
      TwiceNothing(a, b, error, sectors);
    } else if a < bios[0].size {
      TwiceWithin(bios, a, b, error, sectors);
    } else if a > bios[0].size {
      if sectors { WholeRest(bios, a); }
      CompletePast(bios, a, error);
      TwiceWhen(bios[1..], a - bios[0].size, b, error, sectors);
      TwicePast(bios, a, b, error, sectors);
    } else {
      CompleteAt(bios, error);
      TwiceAt(bios, b, error);
      ComposesWeaker(Complete(bios, a, error), Complete(bios[1..], b, error), Complete(bios, a + b, error), sectors);
    }
  }

  lemma ComposesWeaker(first: Result, second: Result, both: Result, sectors: bool)
    requires Composes(first, second, both, true)
    ensures Composes(first, second, both, sectors)
  {
  }

  // Completing a bytes and then b leaves the chain that completing a + b leaves, with the same
  // bios ended, unless the second step has no bytes and finds a bio without data in front: it ends
  // that bio. The sector fields agree too when whole sectors are completed.
  lemma CompleteTwice(bios: seq<Bio>, a: nat, b: nat, error: int, sectors: bool)
    requires AllSound(bios) && (sectors ==> a % 512 == 0 && Whole(bios))
    ensures AllSound(Complete(bios, a, error).bios)
    ensures var first := Complete(bios, a, error);
            Composes(first, Complete(first.bios, b, error), Complete(bios, a + b, error), sectors)
            <==> b > 0 || first.bios == [] || first.bios[0].size > 0
  {
    CompleteSound(bios, a, error);
    var first := Complete(bios, a, error);
    if b > 0 || first.bios == [] || first.bios[0].size > 0 {
      TwiceWhen(bios, a, b, error, sectors);
    } else {
      assert |Complete(first.bios, b, error).ended| == 1;
    }
  }

  // A chain on which the exception happens
  lemma NoBytesEndEmptyBio()
    ensures var bios := [Bio(0, [Vec(0, 512)], 512, 0, true), Bio(1, [], 0, 1, true)];
            AllSound(bios) && Complete(bios, 512 + 0, 0).bios != [] &&
            AllSound(Complete(bios, 512, 0).bios) && Complete(Complete(bios, 512, 0).bios, 0, 0).bios == []
  {
    var x, y := Bio(0, [Vec(0, 512)], 512, 0, true), Bio(1, [], 0, 1, true);
    assert Len([Vec(0, 512)][1..]) == 0;
    assert [x, y][1..] == [y];
  }
}
