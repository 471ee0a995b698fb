/**
 * The service tree: it stays sorted, its counts stay right, and the cached leftmost queue is the
 * one to be served first.
 */
module CfqTree {
  import opened CfqModel

  predicate Ahead(a: Queue, b: Queue) { Less(a.rt, a.idle, a.key, b) }

  predicate Sorted(queues: seq<Queue>, service: seq<nat>)
    requires InRange(queues, service)
  {
    forall i, j :: 0 <= i < j < |service| ==> !Ahead(queues[service[j]], queues[service[i]])
  }

  predicate Distinct(service: seq<nat>) { forall i, j :: 0 <= i < j < |service| ==> service[i] != service[j] }

  predicate LeftOk(s: State) { s.left.Some? ==> s.service != [] && s.left.x == s.service[0] }

  // The tree as such
  predicate TreeOk(s: State) { InRange(s.queues, s.service) && Distinct(s.service) && Sorted(s.queues, s.service) && LeftOk(s) }

  function CountRt(queues: seq<Queue>, service: seq<nat>): nat
    requires InRange(queues, service)
  {
    if service == [] then 0 else CountRt(queues, service[1..]) + if queues[service[0]].rt then 1 else 0
  }

  // Exactly the busy queues are in the tree, and they are counted.
  predicate ServiceOk(s: State) {
    && TreeOk(s)
    && (forall y :: 0 <= y < |s.queues| ==> (y in s.service <==> s.queues[y].onRr))
    && s.busy == |s.service| && s.busyRt == CountRt(s.queues, s.service)
  }

  lemma OrderLaws(a: Queue, b: Queue, c: Queue)
    ensures !Ahead(a, a) && (Ahead(a, b) ==> !Ahead(b, a)) && (Ahead(a, b) && Ahead(b, c) ==> Ahead(a, c))
    ensures !Ahead(b, a) && Ahead(b, c) ==> Ahead(a, c)
    ensures !Ahead(b, a) && !Ahead(c, b) ==> !Ahead(c, a)
    ensures Ahead(a, b) && !Ahead(c, b) ==> Ahead(a, c)
  {
  }

  // ---- lists -----------------------------------------------------------------------------------

  lemma CutFacts<T>(s: seq<T>, p: nat)
    requires p < |s|
    ensures |Cut(s, p)| == |s| - 1
    ensures forall i :: 0 <= i < p ==> Cut(s, p)[i] == s[i]
    ensures forall i :: p <= i < |s| - 1 ==> Cut(s, p)[i] == s[i + 1]
  {
  }

  lemma PutFacts<T>(s: seq<T>, p: nat, x: T)
    requires p <= |s|
    ensures |Put(s, p, x)| == |s| + 1 && Put(s, p, x)[p] == x
    ensures forall i :: 0 <= i < p ==> Put(s, p, x)[i] == s[i]
    ensures forall i :: p < i <= |s| ==> Put(s, p, x)[i] == s[i - 1]
    ensures forall y :: y in Put(s, p, x) <==> y in s || y == x
  {
  }

  lemma {:induction false} DropIs(service: seq<nat>, x: nat) returns (p: nat)
    requires x in service
    ensures p < |service| && service[p] == x && Drop(service, x) == Cut(service, p)
    ensures forall i :: 0 <= i < p ==> service[i] != x
  {
    if service[0] == x {
      p := 0;
    } else {
      var p' := DropIs(service[1..], x);
      p := p' + 1;
    }
  }

  lemma CutDistinct(service: seq<nat>, p: nat)
    requires Distinct(service) && p < |service|
    ensures Distinct(Cut(service, p)) && service[p] !in Cut(service, p)
  {
    CutFacts(service, p);
    hide Cut;
  }

  lemma CutHas(service: seq<nat>, p: nat, i: nat)
    requires p < |service| && i < |service| && i != p
    ensures service[i] in Cut(service, p)
  {
    CutFacts(service, p);
    assert Cut(service, p)[if i < p then i else i - 1] == service[i];
  }

  lemma CutFrom(service: seq<nat>, p: nat, y: nat)
    requires p < |service| && y in Cut(service, p)
    ensures y in service
  {
  }

  lemma DropMembers(service: seq<nat>, x: nat)
    requires Distinct(service) && x in service
    ensures Distinct(Drop(service, x)) && forall y :: y in Drop(service, x) <==> y in service && y != x
  {
    hide *;
    var p := DropIs(service, x);
    CutDistinct(service, p);
    forall y ensures y in Drop(service, x) <==> y in service && y != x {
      if y in service && y != x {
        var i :| 0 <= i < |service| && service[i] == y;
        CutHas(service, p, i);
      }
      if y in Drop(service, x) { CutFrom(service, p, y); }
    }
  }

  lemma {:induction false} CountSplit(queues: seq<Queue>, a: seq<nat>, b: seq<nat>)
    requires InRange(queues, a) && InRange(queues, b)
    ensures InRange(queues, a + b) && CountRt(queues, a + b) == CountRt(queues, a) + CountRt(queues, b)
  {
    if a == [] {
      assert a + b == b;
    } else {
      CountSplit(queues, a[1..], b);
      assert (a + b)[1..] == a[1..] + b;
    }
  }

  lemma {:induction false} CountFrame(queues: seq<Queue>, queues': seq<Queue>, service: seq<nat>)
    requires InRange(queues, service) && InRange(queues', service)
    requires forall i :: 0 <= i < |service| ==> queues'[service[i]].rt == queues[service[i]].rt
    ensures CountRt(queues', service) == CountRt(queues, service)
  {
    if service != [] { CountFrame(queues, queues', service[1..]); }
  }

  lemma CountOne(queues: seq<Queue>, x: nat)
    requires x < |queues|
    ensures InRange(queues, [x]) && CountRt(queues, [x]) == if queues[x].rt then 1 else 0
  {
    assert [x][1..] == [];
    assert CountRt(queues, []) == 0;
  }

  lemma CountPut(queues: seq<Queue>, service: seq<nat>, p: nat, x: nat)
    requires InRange(queues, service) && x < |queues| && p <= |service|
    ensures InRange(queues, Put(service, p, x))
    ensures CountRt(queues, Put(service, p, x)) == CountRt(queues, service) + if queues[x].rt then 1 else 0
  {
    CountOne(queues, x);
    CountSplit(queues, service[..p], [x]);
    CountSplit(queues, service[..p] + [x], service[p..]);
    CountSplit(queues, service[..p], service[p..]);
    assert service == service[..p] + service[p..];
  }

  lemma CountCut(queues: seq<Queue>, service: seq<nat>, p: nat)
    requires InRange(queues, service) && p < |service|
    ensures InRange(queues, Cut(service, p))
    ensures CountRt(queues, Cut(service, p)) + (if queues[service[p]].rt then 1 else 0) == CountRt(queues, service)
  {
    CutFacts(service, p);
    CountPut(queues, Cut(service, p), p, service[p]);
    assert Put(Cut(service, p), p, service[p]) == service;
  }

  // ---- insertion and removal -------------------------------------------------------------------

  lemma {:induction false} SlotSplits(queues: seq<Queue>, service: seq<nat>, q: Queue)
    requires InRange(queues, service) && Sorted(queues, service)
    ensures var p := Slot(queues, service, q.rt, q.idle, q.key);
            (forall i :: 0 <= i < p ==> !Ahead(q, queues[service[i]])) && forall i :: p <= i < |service| ==> Ahead(q, queues[service[i]])
  {
    if service != [] {
      if Ahead(q, queues[service[0]]) {
        forall i | 0 <= i < |service| ensures Ahead(q, queues[service[i]]) {
          if i > 0 { OrderLaws(q, queues[service[0]], queues[service[i]]); }
        }
      } else {
        SlotSplits(queues, service[1..], q);
      }
    }
  }

  lemma PutSorted(s: State, x: nat, q: Queue, p: nat)
    requires InRange(s.queues, s.service) && Sorted(s.queues, s.service) && x < |s.queues| && x !in s.service && p <= |s.service|
    requires (forall i :: 0 <= i < p ==> !Ahead(q, s.queues[s.service[i]])) && forall i :: p <= i < |s.service| ==> Ahead(q, s.queues[s.service[i]])
    ensures InRange(s.queues[x := q], Put(s.service, p, x)) && Sorted(s.queues[x := q], Put(s.service, p, x))
  {
    hide Put, Less;
    PutFacts(s.service, p, x);
    var queues, service := s.queues[x := q], Put(s.service, p, x);
    forall i, j | 0 <= i < j < |service| ensures !Ahead(queues[service[j]], queues[service[i]]) {
      if i == p { OrderLaws(q, s.queues[s.service[j - 1]], q); }
    }
  }

  // A queue goes behind those it is not ahead of; the cache follows when it comes first.
  lemma InsertOk(s: State, x: nat, key: nat)
    requires TreeOk(s) && x < |s.queues| && x !in s.service
    ensures TreeOk(Insert(s, x, key)) && |Insert(s, x, key).service| == |s.service| + 1
    ensures forall y :: y in Insert(s, x, key).service <==> y in s.service || y == x
    ensures CountRt(Insert(s, x, key).queues, Insert(s, x, key).service) == CountRt(s.queues, s.service) + if s.queues[x].rt then 1 else 0
  {
    hide CountRt, Slot, Put, Ahead, Sorted;
    var q := s.queues[x].(key := key);
    var p := Slot(s.queues, s.service, q.rt, q.idle, key);
    var s' := Insert(s, x, key);
    SlotSplits(s.queues, s.service, q);
    PutFacts(s.service, p, x);
    PutSorted(s, x, q, p);
    CountPut(s.queues, s.service, p, x);
    CountFrame(s.queues, s'.queues, s'.service);
  }

  lemma EraseOk(s: State, x: nat)
    requires TreeOk(s) && x in s.service
    ensures TreeOk(Erase(s, x)) && |Erase(s, x).service| == |s.service| - 1
    ensures forall y :: y in Erase(s, x).service <==> y in s.service && y != x
    ensures x < |s.queues| && CountRt(s.queues, Erase(s, x).service) + (if s.queues[x].rt then 1 else 0) == CountRt(s.queues, s.service)
  {
    hide CountRt, Less, Cut;
    var p := DropIs(s.service, x);
    CutFacts(s.service, p);
    CountCut(s.queues, s.service, p);
    DropMembers(s.service, x);
  }

  // cfq_service_tree_add moves a queue or brings it in.
  lemma ServiceAddOk(s: State, x: nat, k: Key, front: bool)
    requires TreeOk(s) && x < |s.queues|
    ensures var s' := ServiceAdd(s, x, k, front);
            TreeOk(s') && (forall y :: y in s'.service <==> y in s.service || y == x) &&
            |s'.service| == |s.service| + (if x in s.service then 0 else 1) &&
            CountRt(s'.queues, s'.service) == CountRt(s.queues, s.service) + if s.queues[x].rt && x !in s.service then 1 else 0
  {
    hide Insert, Erase, NewKey, CountRt, Sorted, Distinct;
    var key := NewKey(s, x, k, front);
    if x in s.service {
      EraseOk(s, x);
      EraseFrame(s, x);
      InsertOk(Erase(s, x), x, key);
    } else {
      InsertOk(s, x, key);
    }
  }

  lemma EraseFrame(s: State, x: nat)
    ensures Erase(s, x).queues == s.queues
  {
  }

  lemma ResortOk(s: State, x: nat, k: Key)
    requires ServiceOk(s) && x < |s.queues|
    ensures ServiceOk(Resort(s, x, k))
  {
    hide ServiceAdd, TreeOk, CountRt;
    TreeRange(s);
    AddedSame(s, x, k, false);
    ServiceAddOk(s, x, k, false);
  }

  lemma TreeRange(s: State)
    requires TreeOk(s)
    ensures InRange(s.queues, s.service)
  {
  }

  lemma AddRrOk(s: State, x: nat, k: Key)
    requires ServiceOk(s) && x < |s.queues| && !s.queues[x].onRr
    ensures ServiceOk(AddRr(s, x, k)) && AddRr(s, x, k).bug == s.bug
    ensures AddRrFrame(s, x, AddRr(s, x, k))
  {
    hide ServiceAdd, CountRt, Less;
    var q := s.queues[x];
    var s1 := s.(bug := s.bug || q.onRr, queues := s.queues[x := q.(onRr := true)], busy := s.busy + 1,
                 busyRt := s.busyRt + if q.rt then 1 else 0);
    TreeFrame(s, s1);
    AddedSame(s1, x, k, false);
    ServiceAddOk(s1, x, k, false);
  }

  // The tree looks at classes and keys only.
  lemma TreeFrame(s: State, s': State)
    requires TreeOk(s) && s'.service == s.service && s'.left == s.left && |s'.queues| == |s.queues|
    requires forall y :: 0 <= y < |s.queues| ==> s'.queues[y].rt == s.queues[y].rt && s'.queues[y].idle == s.queues[y].idle && s'.queues[y].key == s.queues[y].key
    ensures TreeOk(s') && CountRt(s'.queues, s'.service) == CountRt(s.queues, s.service)
  {
    hide CountRt;
    CountFrame(s.queues, s'.queues, s.service);
  }

  // What AddRr does to the rest
  predicate AddRrFrame(s: State, x: nat, s': State)
    requires x < |s.queues|
  {
    |s'.queues| == |s.queues| && s'.queues[x] == s.queues[x].(onRr := true, key := s'.queues[x].key) &&
    (forall y :: 0 <= y < |s.queues| && y != x ==> s'.queues[y] == s.queues[y]) &&
    s' == s.(left := s'.left, service := s'.service, queues := s'.queues, busy := s'.busy, busyRt := s'.busyRt)
  }

  lemma DelRrOk(s: State, x: nat)
    requires ServiceOk(s) && x < |s.queues| && s.queues[x].onRr
    ensures ServiceOk(DelRr(s, x)) && DelRr(s, x).bug == s.bug
    ensures DelRr(s, x).queues == s.queues[x := s.queues[x].(onRr := false)]
  {
    hide Erase, CountRt, Less;
    var s1 := s.(bug := s.bug || !s.queues[x].onRr || s.busy == 0, queues := s.queues[x := s.queues[x].(onRr := false)]);
    assert s.service != [];
    TreeFrame(s, s1);
    EraseOk(s1, x);
    EraseFrame(s1, x);
    ErasedRest(s1, x);
  }

  lemma ErasedRest(s: State, x: nat)
    ensures Erase(s, x) == s.(left := Erase(s, x).left, service := Erase(s, x).service)
  {
  }

  // ---- who is served first ---------------------------------------------------------------------

  // The queue cfq_rb_first yields: real time first, idle last, then by key
  lemma FirstIsMin(s: State)
    requires ServiceOk(s) && s.busy > 0
    ensures var s' := First(s);
            ServiceOk(s') && s'.left.Some? && s'.left.x in s.service && s'.left.x < |s.queues| &&
            forall y :: y in s.service ==> y < |s.queues| && !Ahead(s.queues[y], s.queues[s'.left.x])
  {
    hide CountRt, Less;
    var m := s.service[0];
    forall y | y in s.service ensures y < |s.queues| && !Ahead(s.queues[y], s.queues[m]) {
      var i :| 0 <= i < |s.service| && s.service[i] == y;
      OrderLaws(s.queues[m], s.queues[m], s.queues[m]);
    }
  }

  // Who is inserted comes first if its slot is the first one.
  lemma InsertedFirst(s: State, x: nat, key: nat)
    requires TreeOk(s) && x < |s.queues| && x !in s.service
    ensures var p := Slot(s.queues, s.service, s.queues[x].rt, s.queues[x].idle, key);
            First(Insert(s, x, key)).left == Some(x) <==> p == 0
  {
    hide Slot, Sorted, Less;
    var p := Slot(s.queues, s.service, s.queues[x].rt, s.queues[x].idle, key);
    PutFacts(s.service, p, x);
    if p > 0 { assert s.service[0] in s.service; }
  }

  // The first slot is the one ahead of everybody.
  lemma FirstSlot(s: State, q: Queue)
    requires TreeOk(s)
    ensures Slot(s.queues, s.service, q.rt, q.idle, q.key) == 0 <==>
            forall y :: y in s.service ==> y < |s.queues| && Ahead(q, s.queues[y])
  {
    hide Less, Slot;
    var p := Slot(s.queues, s.service, q.rt, q.idle, q.key);
    SlotSplits(s.queues, s.service, q);
    if p > 0 {
      assert s.service[0] in s.service && !Ahead(q, s.queues[s.service[0]]);
    } else {
      forall y | y in s.service ensures y < |s.queues| && Ahead(q, s.queues[y]) {
        var i :| 0 <= i < |s.service| && s.service[i] == y;
      }
    }
  }

  // Who comes first with a new key: who was first if the key is the old one, for then nothing moves,
  // and otherwise who is ahead of every other, for equals go behind.
  predicate ComesFirst(s: State, x: nat, key: nat)
    requires x < |s.queues|
  {
    if key == s.queues[x].key then s.service != [] && s.service[0] == x
    else forall y :: y in s.service && y != x ==> y < |s.queues| && Ahead(s.queues[x].(key := key), s.queues[y])
  }

  lemma ServiceAddFirst(s: State, x: nat, k: Key, front: bool)
    requires ServiceOk(s) && x < |s.queues| && s.queues[x].onRr
    ensures InRange(s.queues, s.service)
    ensures First(ServiceAdd(s, x, k, front)).left == Some(x) <==> ComesFirst(s, x, NewKey(s, x, k, front))
  {
    hide CountRt, Less, Slot, Ahead, Insert, Erase, First, Sorted, Distinct, LeftOk, NewKey;
    var key := NewKey(s, x, k, front);
    if key == s.queues[x].key {
      FirstIs(s);
    } else {
      EraseOk(s, x);
      EraseFrame(s, x);
      InsertedFirst(Erase(s, x), x, key);
      FirstSlot(Erase(s, x), s.queues[x].(key := key));
    }
  }

  lemma FirstIs(s: State)
    requires TreeOk(s)
    ensures First(s).left == if s.service == [] then None else Some(s.service[0])
  {
    hide Sorted;
  }
}
