/**
 * The merge hash of the elevator: requests hashed by the sector behind their end, so that a bio
 * that begins there finds the request it can be appended to.
 */
module MergeHash {

  datatype Attr = Attr(sector: nat, nr: nat, mergeable: bool)

  datatype Link = Null | Rq(id: nat)

  datatype Result = NoMerge | BackMerge(id: nat) | FrontMerge(id: nat)

  type Attrs = map<nat, Attr>

  const ENTRIES: nat := 64

  // rq_hash_key
  function Key(a: Attr): nat { a.sector + a.nr }

  // ELV_HASH_FN, with any hash function
  function Bucket(h: nat -> nat, sector: nat): nat { h(sector / 8) % ENTRIES }

  predicate Known(order: seq<nat>, attr: Attrs) { forall i :: i in order ==> i in attr }

  predicate Distinct(order: seq<nat>) { forall i, j :: 0 <= i < j < |order| ==> order[i] != order[j] }

  // The hashed requests of one bucket, latest first like the whole list
  function InBucket(order: seq<nat>, attr: Attrs, h: nat -> nat, b: nat): seq<nat>
    requires Known(order, attr)
  {
    if order == [] then []
    else
      var rest := InBucket(order[1..], attr, h, b);
      if Bucket(h, Key(attr[order[0]])) == b then [order[0]] + rest else rest
  }

  // A linear scan for a mergeable request that ends at a sector
  function Scan(order: seq<nat>, attr: Attrs, sector: nat): Link
    requires Known(order, attr)
  {
    if order == [] then Null
    else if attr[order[0]].mergeable && Key(attr[order[0]]) == sector then Rq(order[0])
    else Scan(order[1..], attr, sector)
  }

  function Without(order: seq<nat>, id: nat): (r: seq<nat>)
    ensures forall i :: i in r <==> i in order && i != id
  {
    if order == [] then [] else if order[0] == id then Without(order[1..], id) else [order[0]] + Without(order[1..], id)
  }

  lemma {:induction false} WithoutDistinct(order: seq<nat>, id: nat)
    requires Distinct(order)
    ensures Distinct(Without(order, id))
  {
    if order != [] {
      WithoutDistinct(order[1..], id);
      assert order[0] !in order[1..];
    }
  }

  lemma {:induction false} WithoutAbsent(order: seq<nat>, id: nat)
    requires id !in order
    ensures Without(order, id) == order
  {
    if order != [] {
      assert order[0] in order && forall i :: i in order[1..] ==> i in order;
      WithoutAbsent(order[1..], id);
    }
  }

  // Unlinking a request from the list unlinks it from its bucket.
  lemma {:induction false} BucketWithout(order: seq<nat>, attr: Attrs, h: nat -> nat, b: nat, id: nat)
    requires Known(order, attr)
    ensures InBucket(Without(order, id), attr, h, b) == Without(InBucket(order, attr, h, b), id)
  {
    if order != [] {
      BucketWithout(order[1..], attr, h, b, id);
      var rest := InBucket(order[1..], attr, h, b);
      assert ([order[0]] + rest)[1..] == rest;
      assert ([order[0]] + Without(order[1..], id))[1..] == Without(order[1..], id);
    }
  }

  lemma {:induction false} SameBucket(order: seq<nat>, attr: Attrs, attr': Attrs, h: nat -> nat, b: nat)
    requires Known(order, attr) && Known(order, attr') && forall i :: i in order ==> Key(attr[i]) == Key(attr'[i])
    ensures InBucket(order, attr, h, b) == InBucket(order, attr', h, b)
  {
    if order != [] { SameBucket(order[1..], attr, attr', h, b); }
  }

  lemma {:induction false} BucketKnown(order: seq<nat>, attr: Attrs, h: nat -> nat, b: nat)
    requires Known(order, attr)
    ensures forall i :: i in InBucket(order, attr, h, b) <==> i in order && Bucket(h, Key(attr[i])) == b
  {
    if order != [] { BucketKnown(order[1..], attr, h, b); }
  }

  // The bucket of a sector is all that has to be searched.
  lemma {:induction false} ScanBucket(order: seq<nat>, attr: Attrs, h: nat -> nat, sector: nat)
    requires Known(order, attr)
    ensures Known(InBucket(order, attr, h, Bucket(h, sector)), attr)
    ensures Scan(InBucket(order, attr, h, Bucket(h, sector)), attr, sector) == Scan(order, attr, sector)
  {
    BucketKnown(order, attr, h, Bucket(h, sector));
    if order != [] {
      ScanBucket(order[1..], attr, h, sector);
      var rest := InBucket(order[1..], attr, h, Bucket(h, sector));
      assert ([order[0]] + rest)[1..] == rest;
    }
  }

  // What cannot be merged does not matter to a scan.
  lemma {:induction false} ScanWithout(order: seq<nat>, attr: Attrs, sector: nat, id: nat)
    requires Known(order, attr) && (id in attr ==> !attr[id].mergeable)
    ensures Scan(Without(order, id), attr, sector) == Scan(order, attr, sector)
  {
    if order != [] {
      ScanWithout(order[1..], attr, sector, id);
      assert ([order[0]] + Without(order[1..], id))[1..] == Without(order[1..], id);
    }
  }

  lemma {:induction false} ScanIs(order: seq<nat>, attr: Attrs, sector: nat)
    requires Known(order, attr)
    ensures var r := Scan(order, attr, sector);
            (r.Rq? ==> r.id in order && attr[r.id].mergeable && Key(attr[r.id]) == sector) &&
            (r == Null <==> forall i :: i in order ==> !(attr[i].mergeable && Key(attr[i]) == sector))
  {
    if order != [] { ScanIs(order[1..], attr, sector); }
  }

  class Elevator {
    var attr: Attrs
    var hash: seq<seq<nat>>
    var lastMerge: Link
    const h: nat -> nat
    ghost var order: seq<nat>     // the hashed requests, latest first

    ghost predicate HashOk(a: Attrs)
      reads this
    {
      Known(order, a) && Distinct(order) && |hash| == ENTRIES &&
      forall b :: 0 <= b < ENTRIES ==> hash[b] == InBucket(order, a, h, b)
    }

    // Every hashed request sits in the bucket of its current end sector, and the one-hit cache
    // points to a request the scheduler has.
    ghost predicate Valid()
      reads this
    {
      HashOk(attr) && (lastMerge.Rq? ==> lastMerge.id in attr)
    }

    constructor (f: nat -> nat)
      ensures Valid() && order == [] && h == f && attr == map[] && lastMerge == Null
    {
      attr, hash, lastMerge, h, order := map[], seq(ENTRIES, _ => []), Null, f, [];
    }

    // __elv_rqhash_del: the node is unlinked wherever it hangs, so its key may be newer than its
    // place. `a` has the key it was hashed with.
    method HashDel(id: nat, ghost a: Attrs)
      requires HashOk(a) && Known(order, attr) && forall i :: i in order && i != id ==> Key(attr[i]) == Key(a[i])
      modifies `hash, `order
      ensures HashOk(attr) && order == Without(old(order), id)
    {
      forall b: nat | b < ENTRIES ensures InBucket(Without(order, id), attr, h, b) == Without(hash[b], id) {
        BucketWithout(order, a, h, b, id);
        SameBucket(Without(order, id), a, attr, h, b);
      }
      WithoutDistinct(order, id);
      hash := seq(|hash|, b requires 0 <= b < |hash| reads this => Without(hash[b], id));
      order := Without(order, id);
    }

    // elv_rqhash_add
    method HashAdd(id: nat)
      requires HashOk(attr) && id in attr && id !in order
      modifies `hash, `order
      ensures HashOk(attr) && order == [id] + old(order)
    {
      var b := Bucket(h, Key(attr[id]));
      assert ([id] + order)[1..] == order;
      hash := hash[b := [id] + hash[b]];
      order := [id] + order;
    }

    // elv_rqhash_reposition
    method Reposition(id: nat, ghost a: Attrs)
      requires HashOk(a) && Known(order, attr) && forall i :: i in order && i != id ==> Key(attr[i]) == Key(a[i])
      requires id in attr
      modifies `hash, `order
      ensures HashOk(attr) && order == [id] + Without(old(order), id)
    {
      HashDel(id, a);
      HashAdd(id);
    }

    // elv_rqhash_find: what is not mergeable any more is taken out on the way. The result is that
    // of a scan of all hashed requests.
    method Find(offset: nat) returns (rq: Link)
      requires Valid()
      modifies `hash, `order
      ensures Valid() && rq == Scan(old(order), attr, offset)
      ensures forall i :: i in old(order) && attr[i].mergeable ==> i in order
      ensures forall i :: i in order ==> i in old(order)
    {
      var b := Bucket(h, offset);
      var list := hash[b];
      ScanBucket(order, attr, h, offset);
      var i := 0;
      while i < |list|
        invariant i <= |list| && list == old(hash)[b] && Valid()
        invariant forall k :: k in old(order) && attr[k].mergeable ==> k in order
        invariant forall k :: k in order ==> k in old(order)
        invariant Known(list[i..], attr) && Scan(list[i..], attr, offset) == Scan(old(order), attr, offset)
      {
        var id := list[i];
        assert list[i..][0] == id && list[i..][1..] == list[i + 1..];
        if !attr[id].mergeable {
          HashDel(id, attr);
        } else if Key(attr[id]) == offset {
          return Rq(id);
        }
        i := i + 1;
      }
      rq := Null;
    }

    // elv_insert of a request the scheduler takes
    method Insert(id: nat, a: Attr)
      requires Valid() && id !in attr
      modifies this
      ensures Valid() && attr == old(attr)[id := a] && order == if a.mergeable then [id] + old(order) else old(order)
    {
      forall b: nat | b < ENTRIES ensures InBucket(order, attr[id := a], h, b) == hash[b] { SameBucket(order, attr, attr[id := a], h, b); }
      attr := attr[id := a];
      if a.mergeable {
        HashAdd(id);
        if lastMerge == Null { lastMerge := Rq(id); }
      }
    }

    // elv_dispatch_sort and elv_dispatch_add_tail
    method Dispatch(id: nat)
      requires Valid() && id in attr
      modifies this
      ensures Valid() && attr == old(attr) - {id} && order == Without(old(order), id)
    {
      if lastMerge == Rq(id) { lastMerge := Null; }
      HashDel(id, attr);
      forall b: nat | b < ENTRIES ensures InBucket(order, attr - {id}, h, b) == hash[b] { SameBucket(order, attr, attr - {id}, h, b); }
      attr := attr - {id};
    }

    // REQ_NOMERGE, set by a merge that would make the request too large
    method SetNoMerge(id: nat)
      requires Valid() && id in attr
      modifies `attr
      ensures Valid() && attr == old(attr)[id := old(attr)[id].(mergeable := false)]
    {
      var a := attr[id := attr[id].(mergeable := false)];
      forall b: nat | b < ENTRIES ensures InBucket(order, a, h, b) == hash[b] { SameBucket(order, attr, a, h, b); }
      attr := a;
    }

    // A back merge with a bio of n sectors: the end moves, so the request is hashed anew.
    method BackMerged(id: nat, n: nat)
      requires Valid() && id in attr
      modifies this
      ensures Valid() && attr == old(attr)[id := old(attr)[id].(nr := old(attr)[id].nr + n)]
      ensures order == [id] + Without(old(order), id) && lastMerge == Rq(id)
    {
      ghost var a := attr;
      attr := attr[id := attr[id].(nr := attr[id].nr + n)];
      Reposition(id, a);
      lastMerge := Rq(id);
    }

    // A front merge: the end stays, and so may the request.
    method FrontMerged(id: nat, n: nat)
      requires Valid() && id in attr && n <= attr[id].sector
      modifies this
      ensures Valid() && attr == old(attr)[id := old(attr)[id].(sector := old(attr)[id].sector - n, nr := old(attr)[id].nr + n)]
      ensures order == old(order) && lastMerge == Rq(id)
    {
      var a := attr[id := attr[id].(sector := attr[id].sector - n, nr := attr[id].nr + n)];
      forall b: nat | b < ENTRIES ensures InBucket(order, a, h, b) == hash[b] { SameBucket(order, attr, a, h, b); }
      attr := a;
      lastMerge := Rq(id);
    }

    // attempt_merge and elv_merge_requests: `next` continues `id` and is absorbed by it.
    method MergeRequests(id: nat, next: nat)
      requires Valid() && id in attr && next in attr && id != next && Key(attr[id]) == attr[next].sector
      modifies this
      ensures Valid() && next !in attr && attr.Keys == old(attr).Keys - {next}
      ensures attr[id].sector == old(attr)[id].sector && Key(attr[id]) == Key(old(attr)[next])
      ensures forall i :: i in attr && i != id ==> attr[i] == old(attr)[i]
      ensures order == Without([id] + Without(old(order), id), next) && lastMerge == Rq(id)
    {
      ghost var a := attr;
      attr := attr[id := attr[id].(nr := attr[id].nr + attr[next].nr)];
      Reposition(id, a);
      HashDel(next, attr);
      var a' := attr - {next};
      forall b: nat | b < ENTRIES ensures InBucket(order, a', h, b) == hash[b] { SameBucket(order, attr, a', h, b); }
      attr := a';
      lastMerge := Rq(id);
    }

    // elv_try_merge for a bio at `sector` of n sectors that may be merged with the request
    static function TryMerge(id: nat, a: Attr, sector: nat, n: nat): Result {
      if Key(a) == sector then BackMerge(id) else if a.sector == sector + n then FrontMerge(id) else NoMerge
    }

    // elv_merge: `ok` is elv_rq_merge_ok, `front` what the scheduler finds for a front merge.
    method Merge(sector: nat, n: nat, ok: nat -> bool, noMerges: bool, front: Link) returns (r: Result)
      requires Valid() && (front.Rq? ==> front.id in attr && attr[front.id].sector == sector + n)
      requires forall i :: i in attr && ok(i) ==> attr[i].mergeable
      modifies `hash, `order
      ensures Valid()
      // a merge joins the bio to the right end of a request,
      ensures r.BackMerge? ==> r.id in attr && ok(r.id) && Key(attr[r.id]) == sector
      ensures r.FrontMerge? ==> r.id in attr && ok(r.id) && attr[r.id].sector == sector + n
      // and none is found only if the latest hashed request that ends there does not allow it.
      ensures r == NoMerge && !noMerges ==> Scan(old(order), attr, sector) == Null || !ok(Scan(old(order), attr, sector).id)
    {
      ScanIs(order, attr, sector);
      if lastMerge.Rq? && ok(lastMerge.id) {
        r := TryMerge(lastMerge.id, attr[lastMerge.id], sector, n);
        if r != NoMerge { return; }
      }
      if noMerges { return NoMerge; }
      var rq := Find(sector);
      if rq.Rq? && ok(rq.id) { return BackMerge(rq.id); }
      if front.Rq? && ok(front.id) { return FrontMerge(front.id); }
      return NoMerge;
    }
  }
}
