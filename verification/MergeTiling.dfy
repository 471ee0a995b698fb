/**
 * The merge branches of __make_request over the elevator's hash: the chain of bios of every request
 * tiles its sectors while the request stays hashed by its end.
 */
module MergeTiling {
  import opened MergeHash

  // The sectors of a bio
  datatype Span = Span(start: nat, n: nat)

  // The bios cover the sectors from s to e, each beginning where the one before ends.
  predicate Covers(chain: seq<Span>, s: nat, e: nat) {
    if chain == [] then s == e else chain[0].start == s && Covers(chain[1..], s + chain[0].n, e)
  }

  lemma {:induction false} CoversConcat(a: seq<Span>, b: seq<Span>, s: nat, m: nat, e: nat)
    requires Covers(a, s, m) && Covers(b, m, e)
    ensures Covers(a + b, s, e)
  {
    if a == [] {
      assert a + b == b;
    } else {
      assert (a + b)[1..] == a[1..] + b;
      CoversConcat(a[1..], b, s + a[0].n, m, e);
    }
  }

  lemma OneSpan(x: Span)
    ensures Covers([x], x.start, x.start + x.n)
  {
    assert [x][1..] == [];
  }

  // Tiling a stretch leaves no room: every sector of it lies in exactly one bio.
  function Holders(chain: seq<Span>, sector: nat): nat {
    if chain == [] then 0 else Holders(chain[1..], sector) + if chain[0].start <= sector < chain[0].start + chain[0].n then 1 else 0
  }

  lemma {:induction false} OneHolder(chain: seq<Span>, s: nat, e: nat, sector: nat)
    requires Covers(chain, s, e)
    ensures s <= e && Holders(chain, sector) == if s <= sector < e then 1 else 0
  {
    if chain != [] { OneHolder(chain[1..], s + chain[0].n, e, sector); }
  }

  type Chains = map<nat, seq<Span>>

  // The request is as it was or has taken in another one.
  ghost predicate Extended(c: Chains, c': Chains, id: nat)
    requires id in c
  {
    c' == c || exists n :: n in c && n != id && c' == c[id := c[id] + c[n]] - {n}
  }

  // The request is as it was or has been appended to another one.
  ghost predicate Appended(c: Chains, c': Chains, id: nat, into: nat)
    requires id in c
  {
    if into == id then c' == c else into in c && c' == c[into := c[into] + c[id]] - {id}
  }

  // Where the bio has gone: it is alone in a request, or it came at the end of one, which may then go
  // on with another one, or at the beginning of one, which may then continue another one. Nothing else
  // changes.
  ghost predicate Placed(c: Chains, c': Chains, bio: Span, id: nat) {
    || (id !in c && c' == c[id := [bio]])
    || (id in c && Extended(c[id := c[id] + [bio]], c', id))
    || (exists r :: r in c && Appended(c[r := [bio] + c[r]], c', r, id))
  }

  lemma PlacedAlone(c: Chains, bio: Span, id: nat)
    requires id !in c
    ensures Placed(c, c[id := [bio]], bio, id)
  {
  }

  lemma PlacedBehind(c: Chains, c1: Chains, c2: Chains, bio: Span, id: nat)
    requires id in c && c1 == c[id := c[id] + [bio]] && Extended(c1, c2, id)
    ensures Placed(c, c2, bio, id)
  {
  }

  lemma PlacedInFront(c: Chains, c1: Chains, c2: Chains, bio: Span, r: nat, id: nat)
    requires r in c && c1 == c[r := [bio] + c[r]] && Appended(c1, c2, r, id)
    ensures Placed(c, c2, bio, id)
  {
  }

  class RequestList {
    const elevator: Elevator
    var chains: map<nat, seq<Span>>

    // Every request has its bios in the order of their sectors, and the hash knows where it ends.
    ghost predicate Valid()
      reads this, elevator
    {
      elevator.Valid() && chains.Keys == elevator.attr.Keys &&
      forall id :: id in chains ==> Covers(chains[id], elevator.attr[id].sector, Key(elevator.attr[id]))
    }

    constructor (h: nat -> nat)
      ensures Valid() && chains == map[] && fresh(elevator)
    {
      elevator := new Elevator(h);
      chains := map[];
    }

    method BackMerge(id: nat, bio: Span)
      requires Valid() && id in chains && bio.start == Key(elevator.attr[id])
      modifies this, elevator
      ensures Valid() && chains == old(chains)[id := old(chains)[id] + [bio]]
    {
      OneSpan(bio);
      CoversConcat(chains[id], [bio], elevator.attr[id].sector, bio.start, bio.start + bio.n);
      chains := chains[id := chains[id] + [bio]];
      elevator.BackMerged(id, bio.n);
    }

    method FrontMerge(id: nat, bio: Span)
      requires Valid() && id in chains && bio.start + bio.n == elevator.attr[id].sector
      modifies this, elevator
      ensures Valid() && chains == old(chains)[id := [bio] + old(chains)[id]]
    {
      OneSpan(bio);
      CoversConcat([bio], chains[id], bio.start, bio.start + bio.n, Key(elevator.attr[id]));
      chains := chains[id := [bio] + chains[id]];
      elevator.FrontMerged(id, bio.n);
    }

    // attempt_merge: the request that continues this one is absorbed.
    method Absorb(id: nat, next: nat)
      requires Valid() && id in chains && next in chains && id != next && Key(elevator.attr[id]) == elevator.attr[next].sector
      modifies this, elevator
      ensures Valid() && chains == old(chains)[id := old(chains)[id] + old(chains)[next]] - {next}
    {
      var a := elevator.attr;
      CoversConcat(chains[id], chains[next], a[id].sector, Key(a[id]), Key(a[next]));
      chains := chains[id := chains[id] + chains[next]] - {next};
      elevator.MergeRequests(id, next);
    }

    // init_request_from_bio and the insertion of the request
    method Begin(id: nat, bio: Span, mergeable: bool)
      requires Valid() && id !in chains
      modifies this, elevator
      ensures Valid() && chains == old(chains)[id := [bio]]
    {
      OneSpan(bio);
      chains := chains[id := [bio]];
      elevator.Insert(id, Attr(bio.start, bio.n, mergeable));
    }

    // elv_rb_find: the request that begins at a sector
    method FindFront(sector: nat) returns (r: Link)
      ensures r.Rq? ==> r.id in elevator.attr && elevator.attr[r.id].sector == sector
      ensures r == Null ==> forall i :: i in elevator.attr ==> elevator.attr[i].sector != sector
    {
      r := Null;
      var ids := elevator.attr.Keys;
      while r == Null && ids != {}
        invariant ids <= elevator.attr.Keys
        invariant r.Rq? ==> r.id in elevator.attr && elevator.attr[r.id].sector == sector
        invariant r == Null ==> forall i :: i in elevator.attr && i !in ids ==> elevator.attr[i].sector != sector
        decreases r == Null, ids
      {
        var i :| i in ids;
        ids := ids - {i};
        if elevator.attr[i].sector == sector { r := Rq(i); }
      }
    }

    // attempt_back_merge: whoever continues the request is absorbed, unless something is against it.
    method AttemptBackMerge(id: nat)
      requires Valid() && id in chains
      modifies this, elevator
      ensures Valid() && Extended(old(chains), chains, id)
    {
      var next := FindFront(Key(elevator.attr[id]));
      var joins: bool := *;
      if joins && next.Rq? && next.id != id { Absorb(id, next.id); }
    }

    // attempt_front_merge: the request is absorbed by one it continues.
    method AttemptFrontMerge(id: nat) returns (into: nat)
      requires Valid() && id in chains
      modifies this, elevator
      ensures Valid() && Appended(old(chains), chains, id, into)
    {
      into := id;
      var joins: bool := *;
      if joins {
        var prev :| prev in chains;
        if prev != id && Key(elevator.attr[prev]) == elevator.attr[id].sector {
          Absorb(prev, id);
          into := prev;
        }
      }
    }

    method TakeBehind(id: nat, bio: Span)
      requires Valid() && id in chains && bio.start == Key(elevator.attr[id])
      modifies this, elevator
      ensures Valid() && Placed(old(chains), chains, bio, id)
    {
      hide *;
      BackMerge(id, bio);
      ghost var c := chains;
      AttemptBackMerge(id);
      PlacedBehind(old(chains), c, chains, bio, id);
    }

    method TakeInFront(r: nat, bio: Span) returns (id: nat)
      requires Valid() && r in chains && bio.start + bio.n == elevator.attr[r].sector
      modifies this, elevator
      ensures Valid() && Placed(old(chains), chains, bio, id)
    {
      hide *;
      FrontMerge(r, bio);
      ghost var c := chains;
      id := AttemptFrontMerge(r);
      PlacedInFront(old(chains), c, chains, bio, r, id);
    }

    // elv_merge changes no request.
    method Lookup(bio: Span, ok: nat -> bool, noMerges: bool, frontMerges: bool) returns (r: Result)
      requires Valid() && forall i :: i in chains && ok(i) ==> elevator.attr[i].mergeable
      modifies elevator`hash, elevator`order
      ensures Valid()
      ensures r.BackMerge? ==> r.id in chains && Key(elevator.attr[r.id]) == bio.start
      ensures r.FrontMerge? ==> r.id in chains && elevator.attr[r.id].sector == bio.start + bio.n
    {
      hide Covers, Scan, Elevator.HashOk;
      var front := Null;
      if frontMerges { front := FindFront(bio.start + bio.n); }
      r := elevator.Merge(bio.start, bio.n, ok, noMerges, front);
    }

    method Refuse(id: nat)
      requires Valid() && id in chains
      modifies elevator
      ensures Valid()
    {
      hide Covers, Elevator.Valid;
      elevator.SetNoMerge(id);
    }

    // __make_request: the bio is merged where the elevator finds a place and the limits of the queue
    // allow it, and gets a request of its own otherwise.
    method MakeRequest(bio: Span, fresh_: nat, barrier: bool, mergeable: bool, ok: nat -> bool, noMerges: bool, frontMerges: bool)
      returns (id: nat)
      requires Valid() && fresh_ !in chains && forall i :: i in chains && ok(i) ==> elevator.attr[i].mergeable
      modifies this, elevator
      ensures Valid() && Placed(old(chains), chains, bio, id) && (barrier ==> id == fresh_)
    {
      hide *;
      PlacedAlone(chains, bio, fresh_);
      var r := NoMerge;
      if !barrier { r := Lookup(bio, ok, noMerges, frontMerges); }
      var fits: bool := *;
      if r == NoMerge || !fits {
        if r != NoMerge { Refuse(r.id); }
        Begin(fresh_, bio, mergeable);
        id := fresh_;
      } else if r.BackMerge? {
        id := r.id;
        TakeBehind(id, bio);
      } else {
        id := TakeInFront(r.id, bio);
      }
    }

    // A bio that a lookup says can be appended continues the tiling of the request it finds.
    method Continues(offset: nat) returns (rq: Link)
      requires Valid()
      modifies elevator
      ensures Valid() && chains == old(chains)
      ensures rq.Rq? ==> rq.id in chains && Covers(chains[rq.id], elevator.attr[rq.id].sector, offset)
    {
      ScanIs(elevator.order, elevator.attr, offset);
      rq := elevator.Find(offset);
    }
  }
}
