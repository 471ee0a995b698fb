/**
 * __end_that_request_first, req_bio_endio and blk_recalc_rq_sectors on a request and its bios.
 */
module Completion {
  import opened CompletionModel

  // The sector fields of a request; nr and sector are the submission pointers.
  datatype Sectors = Sectors(hardSector: int, hardNr: int, sector: int, nr: int, hardCur: int, cur: int)

  class BioNode {
    const id: nat
    var vecs: seq<Vec>
    var idx: nat
    var size: nat
    var sector: nat
    var upToDate: bool

    ghost predicate Valid()
      reads this
    {
      idx <= |vecs| && size == Len(vecs[idx..])
    }

    // The bio from its current bvec on
    ghost function View(): (b: Bio)
      reads this
      ensures Valid() ==> Sound(b)
    {
      Bio(id, if idx <= |vecs| then vecs[idx..] else [], size, sector, upToDate)
    }
  }

  // bio_cur_sectors
  function CurSectors(b: Bio): nat { if b.vecs == [] then b.size / 512 else b.vecs[0].len / 512 }

  // blk_recalc_rq_sectors of a file-system or discard request whose first bio has `cur` sectors
  function Recalc(s: Sectors, nsect: nat, cur: nat): Sectors {
    var s1 := s.(hardSector := s.hardSector + nsect, hardNr := s.hardNr - nsect);
    var s2 := if s1.nr >= s1.hardNr && s1.sector <= s1.hardSector
              then s1.(sector := s1.hardSector, nr := s1.hardNr, hardCur := cur, cur := cur) else s1;
    if s2.nr < s2.cur then s2.(nr := s2.cur) else s2
  }

  // The submission pointers never run behind the completion pointers.
  predicate Level(s: Sectors) { s.sector <= s.hardSector && s.hardNr <= s.nr }

  // Completing na sectors and then nb is completing them together.
  lemma RecalcTwice(s: Sectors, na: nat, nb: nat, curA: nat, cur: nat)
    requires Level(s)
    ensures Level(Recalc(s, na, curA)) && Recalc(Recalc(s, na, curA), nb, cur) == Recalc(s, na + nb, cur)
    ensures var r := Recalc(s, na, cur); r.sector == r.hardSector == s.hardSector + na && r.nr == Max(s.hardNr - na, cur)
  {
  }

  // What a completion changes of a request
  datatype Snapshot = Snapshot(chain: seq<Bio>, sectors: Sectors, ended: seq<Ended>)

  function EndStep(s: Snapshot, n: nat, error: int, fs: bool): Snapshot
    requires AllSound(s.chain)
  {
    var r := Complete(s.chain, n, error);
    Snapshot(r.bios,
             if r.bios != [] && fs then Recalc(s.sectors, r.total / 512, CurSectors(r.bios[0])) else s.sectors,
             s.ended + r.ended)
  }

  // Completing a bytes, whole sectors, and then b leaves a request that is not done exactly as
  // completing a + b does; one that is done has the same bios ended. Only a second step of no
  // bytes before a bio without data makes a difference.
  lemma EndTwice(s: Snapshot, a: nat, b: nat, error: int, fs: bool)
    requires AllSound(s.chain) && Whole(s.chain) && a % 512 == 0 && Level(s.sectors)
    ensures AllSound(EndStep(s, a, error, fs).chain)
    ensures var first := EndStep(s, a, error, fs); var second, both := EndStep(first, b, error, fs), EndStep(s, a + b, error, fs);
            && (second.chain == both.chain && second.ended == both.ended <==> b > 0 || first.chain == [] || first.chain[0].size > 0)
            && ((b > 0 || first.chain == [] || first.chain[0].size > 0) && (both.chain != [] || first.chain == []) ==> second == both)
  {
    hide Complete, Recalc, CurSectors;
    var r := Complete(s.chain, a, error);
    CompleteTwice(s.chain, a, b, error, true);
    var t, u := Complete(r.bios, b, error), Complete(s.chain, a + b, error);
    assert (s.ended + r.ended) + t.ended == s.ended + (r.ended + t.ended);
    if b > 0 || r.bios == [] || r.bios[0].size > 0 {
      assert t.bios == u.bios;
      if r.bios != [] && u.bios != [] && fs { SectorsTwice(s, a, b, error); }
    } else {
      OneEnds(r.bios, error);
      assert u == r;
    }
    if r.bios == [] { NoneLeft(s.chain, a, b, error); }
  }

  // A step of no bytes ends a bio without data.
  lemma OneEnds(bios: seq<Bio>, error: int)
    requires AllSound(bios) && bios != [] && bios[0].size == 0
    ensures |Complete(bios, 0, error).ended| == 1
  {
  }

  lemma NoneLeft(chain: seq<Bio>, a: nat, b: nat, error: int)
    requires AllSound(chain) && Complete(chain, a, error).bios == []
    ensures Complete([], b, error) == Result([], [], 0) && Complete(chain, a + b, error).bios == []
  {
    CompleteTwice(chain, a, b, error, false);
  }

  lemma SectorsTwice(s: Snapshot, a: nat, b: nat, error: int)
    requires AllSound(s.chain) && a % 512 == 0 && Level(s.sectors) && Complete(s.chain, a, error).bios != []
    requires AllSound(Complete(s.chain, a, error).bios)
    requires var r := Complete(s.chain, a, error).bios;
             Complete(r, b, error).bios != [] && Complete(r, b, error).bios == Complete(s.chain, a + b, error).bios
    ensures var r, u := Complete(s.chain, a, error), Complete(s.chain, a + b, error);
            Recalc(Recalc(s.sectors, r.total / 512, CurSectors(r.bios[0])), Complete(r.bios, b, error).total / 512, CurSectors(u.bios[0]))
            == Recalc(s.sectors, u.total / 512, CurSectors(u.bios[0]))
  {
    hide Complete, Recalc, CurSectors;
    var r, u := Complete(s.chain, a, error), Complete(s.chain, a + b, error);
    var t := Complete(r.bios, b, error);
    Unfinished(s.chain, a, error);
    Unfinished(s.chain, a + b, error);
    Unfinished(r.bios, b, error);
    assert r.total / 512 + t.total / 512 == u.total / 512;
    RecalcTwice(s.sectors, r.total / 512, t.total / 512, CurSectors(r.bios[0]), CurSectors(u.bios[0]));
  }

  // While something is left, all the bytes asked for are done.
  lemma Unfinished(chain: seq<Bio>, n: nat, error: int)
    requires AllSound(chain) && Complete(chain, n, error).bios != []
    ensures Complete(chain, n, error).total == n
  {
    CompleteRemoves(chain, n, error);
    CompleteEnds(chain, n, error);
  }

  function Max(a: int, b: int): int { if a < b then b else a }

  class Request {
    var bios: seq<BioNode>      // the chain from req->bio
    var sectors: Sectors
    var errors: int
    const fs: bool              // a file-system or discard request
    const pc: bool              // a SCSI command request keeps its sense data
    var ended: seq<Ended>       // what bio_endio was told

    ghost predicate Valid()
      reads `bios, bios
    {
      (forall i :: 0 <= i < |bios| ==> bios[i].Valid()) && forall i, j :: 0 <= i < j < |bios| ==> bios[i] != bios[j]
    }

    ghost function Chain(): (c: seq<Bio>)
      reads `bios, bios
      ensures Valid() ==> AllSound(c)
    {
      Views(bios)
    }

    ghost function State(): Snapshot
      reads `bios, bios, `sectors, `ended
    {
      Snapshot(Chain(), sectors, ended)
    }

    // req_bio_endio of a request that is not a proxy barrier
    method BioEndio(bio: BioNode, done: nat, error: int)
      modifies bio`size, bio`sector, bio`upToDate, `ended
      ensures bio.upToDate == (old(bio.upToDate) && error == 0)
      ensures var n := Min(done, old(bio.size)); bio.size == old(bio.size) - n && bio.sector == old(bio.sector) + n / 512
      ensures ended == if bio.size == 0
                       then old(ended) + [Ended(bio.id, if error != 0 then error else if old(bio.upToDate) then 0 else EIO)]
                       else old(ended)
    {
      var err, n := error, done;
      if error != 0 {
        bio.upToDate := false;
      } else if !bio.upToDate {
        err := EIO;
      }
      if n > bio.size { n := bio.size; }
      bio.size := bio.size - n;
      bio.sector := bio.sector + n / 512;
      if bio.size == 0 { ended := ended + [Ended(bio.id, err)]; }
    }

    // blk_recalc_rq_sectors
    method RecalcSectors(nsect: nat)
      requires bios != [] && Valid()
      modifies `sectors
      ensures sectors == if fs then Recalc(old(sectors), nsect, CurSectors(Chain()[0])) else old(sectors)
    {
      if fs {
        var s := sectors;
        s := s.(hardSector := s.hardSector + nsect, hardNr := s.hardNr - nsect);
        if s.nr >= s.hardNr && s.sector <= s.hardSector {
          var bio := bios[0];
          var cur := if bio.idx == |bio.vecs| then bio.size / 512 else bio.vecs[bio.idx].len / 512;
          s := s.(sector := s.hardSector, nr := s.hardNr, hardCur := cur, cur := cur);
        }
        if s.nr < s.cur { s := s.(nr := s.cur); }
        sectors := s;
      }
    }

    // The end of the first bio, whose last byte is done
    method EndWhole(error: int) returns (nbytes: nat)
      requires Valid() && bios != []
      modifies `bios, bios, `ended
      ensures Valid() && bios == old(bios)[1..] && Chain() == old(Chain())[1..] && nbytes == old(Chain())[0].size
      ensures ended == old(ended) + [Ended(old(Chain())[0].id, EndError(old(Chain())[0], error))]
    {
      hide Views, Sound, BioNode.View;
      ghost var c := Chain();
      var bio := bios[0];
      NodeFacts(bio);
      bios := bios[1..];
      nbytes := bio.size;
      BioEndio(bio, nbytes, error);
      SameViews(bios, c, 1);
    }

    // The update of a bio that is done in part
    method AdvanceBio(bio: BioNode, done: nat, nextIdx: nat, rest: nat, error: int)
      requires bio.Valid() && 0 < done < bio.size && Parted(bio.View().vecs, nextIdx, done, rest)
      modifies bio, `ended
      ensures bio.Valid() && bio.View() == Advance(old(bio.View()), done, error) && ended == old(ended)
    {
      DropBytesOk(bio.View().vecs, done);
      BioEndio(bio, done, error);
      bio.idx := bio.idx + nextIdx;
      bio.vecs := bio.vecs[bio.idx := Vec(bio.vecs[bio.idx].start + rest, bio.vecs[bio.idx].len - rest)];
    }

    // What is done of the first bio left
    method AdvanceFirst(error: int, bioBytes: nat, nextIdx: nat, nr: nat)
      requires Valid() && bios != []
      requires bioBytes > 0 ==> bioBytes < bios[0].View().size && Parted(bios[0].View().vecs, nextIdx, bioBytes, nr)
      modifies bios, `ended
      ensures Valid() && ended == old(ended)
      ensures var c := old(Chain());
              Sound(c[0]) && (bioBytes > 0 ==> bioBytes < c[0].size) &&
              Chain() == if bioBytes == 0 then c else [Advance(c[0], bioBytes, error)] + c[1..]
    {
      hide Advance, Len, Parted, DropBytes;
      ghost var c := Chain();
      if bioBytes != 0 {
        AdvanceBio(bios[0], bioBytes, nextIdx, nr, error);
        NewHead(bios, c, Advance(c[0], bioBytes, error));
      }
    }

    lemma FirstView(chain: seq<Bio>, k: nat)
      requires k < |chain| && bios != [] && Valid() && Chain() == chain[k..]
      ensures var b := bios[0];
              Sound(chain[k]) && chain[k].size == b.size && b.idx + |chain[k].vecs| == |b.vecs| &&
              forall i :: 0 <= i < |chain[k].vecs| ==> b.vecs[b.idx + i] == chain[k].vecs[i]
    {
      assert Chain()[0] == chain[k];
      NodeFacts(bios[0]);
    }

    lemma ChainLength()
      ensures |Chain()| == |bios|
      ensures Valid() ==> AllSound(Chain())
    {
    }

    // "if the request wasn't completed, update state"
    method UpdateState(error: int, total: nat, bioBytes: nat, nextIdx: nat, nr: nat)
      requires Valid() && bios != []
      requires bioBytes > 0 ==> bioBytes < bios[0].View().size && Parted(bios[0].View().vecs, nextIdx, bioBytes, nr)
      modifies bios, `ended, `sectors
      ensures Valid() && ended == old(ended)
      ensures var c := old(Chain());
              Sound(c[0]) && (bioBytes > 0 ==> bioBytes < c[0].size) &&
              Chain() == if bioBytes == 0 then c else [Advance(c[0], bioBytes, error)] + c[1..]
      ensures sectors == if fs then Recalc(old(sectors), total / 512, CurSectors(Chain()[0])) else old(sectors)
    {
      hide Advance, Parted, Recalc, CurSectors, Sound, BioNode.View, BioNode.Valid;
      AdvanceFirst(error, bioBytes, nextIdx, nr);
      RecalcSectors(total / 512);
    }

    // The loop of __end_that_request_first: k bios end, then bioBytes bytes of the next one are
    // done, nextIdx whole bvecs and nr bytes.
    method Walk(error: int, nrBytes: nat) returns (nr: nat, total: nat, bioBytes: nat, nextIdx: nat, ghost k: nat)
      requires Valid()
      modifies `bios, `ended, bios
      ensures k <= |old(bios)| && bios == old(bios)[k..] && Valid()
      ensures Chain() == old(Chain())[k..]
      ensures Stopped(old(Chain()), nrBytes, error, k, ended, old(ended), total, bioBytes, nextIdx, nr)
    {
      hide *;
      ghost var chain, before := Chain(), ended;
      ChainLength();
      nr, total, bioBytes, nextIdx, k := nrBytes, 0, 0, 0, 0;
      StartWalking(chain, nrBytes, error, before);
      var stop := false;
      while bios != [] && !stop
        invariant k <= |old(bios)| == |chain| && bios == old(bios)[k..] && chain == old(Chain())
        invariant Valid() && Chain() == chain[k..]
        invariant Walking(chain, nrBytes, error, k, ended, before, total, bioBytes, nextIdx, nr, stop)
        decreases |bios|, !stop, if k < |chain| then |chain[k].vecs| - nextIdx else 0
      {
        var bio := bios[0];
        FirstView(chain, k);
        if nr >= bio.size {
          WholeStep(chain, nrBytes, error, k, ended, before, total, bioBytes, nextIdx, nr);
          var nbytes := EndWhole(error);
          total, nr, nextIdx, bioBytes, k := total + nbytes, nr - nbytes, 0, 0, k + 1;
          stop := bios != [] && nr <= 0;
        } else {
          InsideBio(chain, nrBytes, error, k, ended, before, total, bioBytes, nextIdx, nr);
          nr, total, bioBytes, nextIdx, stop :=
            NextVec(bio.vecs[bio.idx + nextIdx].len, chain, nrBytes, error, k, ended, before, nr, total, bioBytes, nextIdx);
        }
      }
      StopWalking(chain, nrBytes, error, k, ended, before, total, bioBytes, nextIdx, nr, stop);
    }

    // The loop body for one bvec of a bio that does not end
    static method NextVec(nbytes: nat, ghost chain: seq<Bio>, ghost n: nat, ghost error: int, ghost k: nat, ghost ended: seq<Ended>,
                          ghost before: seq<Ended>, nr0: nat, total0: nat, bioBytes0: nat, nextIdx0: nat)
      returns (nr: nat, total: nat, bioBytes: nat, nextIdx: nat, stop: bool)
      requires Walking(chain, n, error, k, ended, before, total0, bioBytes0, nextIdx0, nr0, false)
      requires k < |chain| && Sound(chain[k]) && Within(chain[k].vecs, chain[k].size, nextIdx0, bioBytes0, nr0)
      requires nbytes == chain[k].vecs[nextIdx0].len
      ensures Walking(chain, n, error, k, ended, before, total, bioBytes, nextIdx, nr, stop)
      ensures stop || (nextIdx0 < nextIdx <= |chain[k].vecs|)
    {
      hide Complete, DropBytes, Advance, Len, Within, Reached, Stopped, Parted;
      var b := chain[k];
      WithinStep(b, nextIdx0, bioBytes0, nr0);
      nr, total, bioBytes, nextIdx := nr0, total0, bioBytes0, nextIdx0;
      if nbytes > nr {
        bioBytes, total := bioBytes + nr, total + nr;
        stop := true;
      } else {
        nextIdx, bioBytes := nextIdx + 1, bioBytes + nbytes;
        total, nr := total + nbytes, nr - nbytes;
        stop := nr <= 0;
      }
      if stop { StopPartial(chain, n, error, k, ended, before, total, bioBytes, nextIdx, nr); }
    }

    // The loop and the update: what is left is what the specification leaves.
    method EndLoop(error: int, nrBytes: nat) returns (total: nat)
      requires Valid()
      modifies `bios, `ended, `sectors, bios
      ensures Valid() && total == Min(nrBytes, Total(old(Chain()))) && Completed(old(Chain()), nrBytes, error, Chain(), old(ended), ended)
      ensures sectors == if bios != [] && fs then Recalc(old(sectors), total / 512, CurSectors(Chain()[0])) else old(sectors)
    {
      hide Completed, Complete, Total, DropBytes, Advance, Len, Parted, Stopped, Recalc, CurSectors, Sound, Views, BioNode.View, BioNode.Valid;
      ghost var chain := Chain();
      var nr, bioBytes, nextIdx;
      ghost var k;
      nr, total, bioBytes, nextIdx, k := Walk(error, nrBytes);
      StoppedMeans(chain, nrBytes, error, k, ended, old(ended), total, bioBytes, nextIdx, nr);
      if bios != [] { UpdateState(error, total, bioBytes, nextIdx, nr); }
    }

    // __end_that_request_first: the new state, and whether anything is left
    method EndFirst(error: int, nrBytes: nat) returns (more: bool)
      requires Valid()
      modifies this, bios
      ensures Valid() && more == (bios != [])
      ensures AllSound(old(Chain())) && State() == EndStep(old(State()), nrBytes, error, fs)
      ensures errors == if pc then old(errors) else 0
    {
      hide *;
      ghost var before := State();
      StateIs();
      if !pc { errors := 0; }
      var total := EndLoop(error, nrBytes);
      more := bios != [];
      StateIs();
      StepIs(before, nrBytes, error, fs, State());
    }

    lemma StateIs()
      requires Valid()
      ensures State().chain == Chain() && State().sectors == sectors && State().ended == ended && (Chain() == [] <==> bios == [])
      ensures AllSound(Chain())
    {
    }
  }

  // The chain that is left and the bios ended are those of the specification.
  ghost predicate Completed(chain: seq<Bio>, n: nat, error: int, left: seq<Bio>, before: seq<Ended>, ended: seq<Ended>) {
    AllSound(chain) && left == Complete(chain, n, error).bios && ended == before + Complete(chain, n, error).ended
  }

  lemma StepIs(s: Snapshot, n: nat, error: int, fs: bool, t: Snapshot)
    requires Completed(s.chain, n, error, t.chain, s.ended, t.ended)
    requires t.sectors == if t.chain != [] && fs then Recalc(s.sectors, Min(n, Total(s.chain)) / 512, CurSectors(t.chain[0])) else s.sectors
    ensures AllSound(s.chain) && t == EndStep(s, n, error, fs)
  {
    hide Complete, Recalc, CurSectors, Total;
    CompleteRemoves(s.chain, n, error);
  }

  lemma StoppedMeans(chain: seq<Bio>, n: nat, error: int, k: nat, ended: seq<Ended>, before: seq<Ended>, total: nat,
                     bioBytes: nat, nextIdx: nat, nr: nat)
    requires Stopped(chain, n, error, k, ended, before, total, bioBytes, nextIdx, nr)
    ensures AllSound(chain) && k <= |chain| && total == Min(n, Total(chain))
    ensures var c := chain[k..];
            (bioBytes > 0 ==> c != [] && Sound(c[0]) && bioBytes < c[0].size && Parted(c[0].vecs, nextIdx, bioBytes, nr)) &&
            Completed(chain, n, error, if bioBytes == 0 then c else [Advance(c[0], bioBytes, error)] + c[1..], before, ended)
  {
    hide Complete, Parted, Advance;
    CompleteRemoves(chain, n, error);
    if bioBytes > 0 { assert chain[k..][1..] == chain[k + 1..]; }
  }

  lemma NodeFacts(bio: BioNode)
    requires bio.Valid()
    ensures Sound(bio.View()) && bio.View().size == bio.size && bio.View().id == bio.id && bio.View().upToDate == bio.upToDate
    ensures bio.idx + |bio.View().vecs| == |bio.vecs|
    ensures forall i :: 0 <= i < |bio.View().vecs| ==> bio.vecs[bio.idx + i] == bio.View().vecs[i]
  {
  }

  lemma SameViews(bios: seq<BioNode>, chain: seq<Bio>, k: nat)
    requires k <= |chain| && |bios| == |chain| - k
    requires forall i :: 0 <= i < |bios| ==> bios[i].View() == chain[k + i]
    ensures Views(bios) == chain[k..]
  {
  }

  lemma NewHead(bios: seq<BioNode>, chain: seq<Bio>, head: Bio)
    requires bios != [] && |bios| == |chain| && bios[0].View() == head
    requires forall i :: 1 <= i < |bios| ==> bios[i].View() == chain[i]
    ensures Views(bios) == [head] + chain[1..]
  {
  }

  // After k bios ended, what remains to be done is to complete `left` bytes of the rest.
  ghost predicate Reached(chain: seq<Bio>, n: nat, error: int, k: nat, ended: seq<Ended>, before: seq<Ended>, total: nat, left: nat) {
    AllSound(chain) && k <= |chain| && AllSound(chain[k..]) &&
    var all, r := Complete(chain, n, error), Complete(chain[k..], left, error);
    all.bios == r.bios && before + all.ended == ended + r.ended && all.total == total + r.total
  }

  // Inside a bio: the bvecs before nextIdx hold bioBytes bytes, nr more are to go.
  predicate Within(vecs: seq<Vec>, size: nat, nextIdx: nat, bioBytes: nat, nr: nat) {
    bioBytes + nr < size == Len(vecs) && nextIdx < |vecs| && nr < Len(vecs[nextIdx..]) &&
    (nr > 0 ==> DropBytes(vecs, bioBytes + nr) == DropBytes(vecs[nextIdx..], nr))
  }

  // Dropping `done` bytes is passing nextIdx bvecs and moving into the next by `rest`.
  predicate Parted(vecs: seq<Vec>, nextIdx: nat, done: nat, rest: nat) {
    0 < done < Len(vecs) && nextIdx < |vecs| && rest <= vecs[nextIdx].len &&
    DropBytes(vecs, done) == [Vec(vecs[nextIdx].start + rest, vecs[nextIdx].len - rest)] + vecs[nextIdx + 1..]
  }

  // The loop has stopped with k bios ended and bioBytes of the next one done.
  ghost predicate Stopped(chain: seq<Bio>, n: nat, error: int, k: nat, ended: seq<Ended>, before: seq<Ended>, total: nat,
                          bioBytes: nat, nextIdx: nat, nr: nat) {
    AllSound(chain) && k <= |chain| &&
    var all := Complete(chain, n, error);
    before + all.ended == ended && all.total == total &&
    if bioBytes == 0 then all.bios == chain[k..]
    else k < |chain| && Sound(chain[k]) && bioBytes < chain[k].size && Parted(chain[k].vecs, nextIdx, bioBytes, nr) &&
         all.bios == [Advance(chain[k], bioBytes, error)] + chain[k + 1..]
  }

  // The invariant of the loop
  ghost predicate Walking(chain: seq<Bio>, n: nat, error: int, k: nat, ended: seq<Ended>, before: seq<Ended>, total: nat,
                          bioBytes: nat, nextIdx: nat, nr: nat, stop: bool) {
    if stop then Stopped(chain, n, error, k, ended, before, total, bioBytes, nextIdx, nr)
    else
      bioBytes <= total && Reached(chain, n, error, k, ended, before, total - bioBytes, nr + bioBytes) &&
      (nextIdx == 0 ==> bioBytes == 0) &&
      (nextIdx > 0 ==> k < |chain| && nr > 0 && Within(chain[k].vecs, chain[k].size, nextIdx, bioBytes, nr))
  }

  lemma StartWalking(chain: seq<Bio>, n: nat, error: int, before: seq<Ended>)
    requires AllSound(chain)
    ensures Walking(chain, n, error, 0, before, before, 0, 0, 0, n, false)
  {
    hide Complete;
    assert chain[0..] == chain;
  }

  lemma StopWalking(chain: seq<Bio>, n: nat, error: int, k: nat, ended: seq<Ended>, before: seq<Ended>, total: nat,
                    bioBytes: nat, nextIdx: nat, nr: nat, stop: bool)
    requires Walking(chain, n, error, k, ended, before, total, bioBytes, nextIdx, nr, stop) && (stop || k == |chain|)
    ensures Stopped(chain, n, error, k, ended, before, total, bioBytes, nextIdx, nr)
  {
    hide Within;
    if !stop { assert chain[k..] == []; }
  }

  lemma WholeStep(chain: seq<Bio>, n: nat, error: int, k: nat, ended: seq<Ended>, before: seq<Ended>, total: nat,
                  bioBytes: nat, nextIdx: nat, nr: nat)
    requires Walking(chain, n, error, k, ended, before, total, bioBytes, nextIdx, nr, false)
    requires k < |chain| && nr >= chain[k].size
    ensures var e := ended + [Ended(chain[k].id, EndError(chain[k], error))]; var left := nr - chain[k].size;
            Walking(chain, n, error, k + 1, e, before, total + chain[k].size, 0, 0, left, k + 1 < |chain| && left <= 0)
  {
    hide EndError, DropBytes;
    assert chain[k..][1..] == chain[k + 1..];
  }

  // In a bio that does not end, the loop is within its bvecs.
  lemma InsideBio(chain: seq<Bio>, n: nat, error: int, k: nat, ended: seq<Ended>, before: seq<Ended>, total: nat,
                  bioBytes: nat, nextIdx: nat, nr: nat)
    requires Walking(chain, n, error, k, ended, before, total, bioBytes, nextIdx, nr, false)
    requires k < |chain| && Sound(chain[k]) && nr < chain[k].size
    ensures Within(chain[k].vecs, chain[k].size, nextIdx, bioBytes, nr) && nextIdx < |chain[k].vecs|
  {
    hide Reached;
    if nextIdx == 0 { WithinStart(chain[k], nr); }
  }

  lemma WithinStart(b: Bio, nr: nat)
    requires Sound(b) && nr < b.size
    ensures Within(b.vecs, b.size, 0, 0, nr)
  {
    assert b.vecs[0..] == b.vecs;
  }

  lemma WithinStep(b: Bio, nextIdx: nat, bioBytes: nat, nr: nat)
    requires Within(b.vecs, b.size, nextIdx, bioBytes, nr)
    ensures var len := b.vecs[nextIdx].len;
            if len > nr then bioBytes + nr > 0 && nr > 0 ==> Parted(b.vecs, nextIdx, bioBytes + nr, nr)
            else if len == nr then nr > 0 ==> nextIdx + 1 < |b.vecs| && Parted(b.vecs, nextIdx + 1, bioBytes + nr, 0)
            else Within(b.vecs, b.size, nextIdx + 1, bioBytes + len, nr - len)
    ensures nextIdx < |b.vecs| && bioBytes + nr < b.size
  {
    var v := b.vecs[nextIdx..];
    assert v[0] == b.vecs[nextIdx] && v[1..] == b.vecs[nextIdx + 1..];
    if v[0].len == nr && nr > 0 {
      assert v[1..] == [v[1]] + v[2..];
    }
  }

  lemma StopPartial(chain: seq<Bio>, n: nat, error: int, k: nat, ended: seq<Ended>, before: seq<Ended>, total: nat,
                    bioBytes: nat, nextIdx: nat, nr: nat)
    requires k < |chain| && bioBytes <= total && bioBytes < chain[k].size
    requires Reached(chain, n, error, k, ended, before, total - bioBytes, bioBytes)
    requires bioBytes > 0 ==> Parted(chain[k].vecs, nextIdx, bioBytes, nr)
    ensures Stopped(chain, n, error, k, ended, before, total, bioBytes, nextIdx, nr)
  {
    hide DropBytes;
    assert chain[k..][1..] == chain[k + 1..];
    assert [chain[k]] + chain[k + 1..] == chain[k..];
  }

  ghost function Views(bios: seq<BioNode>): (c: seq<Bio>)
    reads bios
    ensures |c| == |bios| && forall i :: 0 <= i < |c| ==> c[i] == bios[i].View()
  {
    if bios == [] then [] else [bios[0].View()] + Views(bios[1..])
  }
}
