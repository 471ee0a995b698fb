/**
 * Every operation of the deadline scheduler keeps its indexes in agreement.
 */
module DeadlineIndexes {
  import opened DeadlineModel

  predicate SortedTree(tree: seq<Node>) { forall i, j :: 0 <= i < j < |tree| ==> tree[i].sector < tree[j].sector }

  predicate UniqueNodes(tree: seq<Node>) { forall i, j :: 0 <= i < j < |tree| ==> tree[i].id != tree[j].id }

  predicate UniqueItems(fifo: seq<Item>) { forall i, j :: 0 <= i < j < |fifo| ==> fifo[i].id != fifo[j].id }

  function NodeIds(tree: seq<Node>): set<nat> { set i | 0 <= i < |tree| :: tree[i].id }

  function ItemIds(fifo: seq<Item>): set<nat> { set i | 0 <= i < |fifo| :: fifo[i].id }

  // The oldest deadline comes first.
  predicate SortedFifo(fifo: seq<Item>) { forall i, j :: 0 <= i < j < |fifo| ==> fifo[i].time <= fifo[j].time }

  predicate TreeOk(tree: seq<Node>) { SortedTree(tree) && UniqueNodes(tree) }

  // No deadline lies further ahead than a request added now would get.
  predicate FifoOk(fifo: seq<Item>, latest: int) {
    UniqueItems(fifo) && SortedFifo(fifo) && forall i :: 0 <= i < |fifo| ==> fifo[i].time <= latest
  }

  predicate LinkOk(next: Link, held: set<nat>) { next.Rq? ==> next.id in held }

  // Tree and list hold the same requests, and the cached next one is among them.
  predicate DirOk(s: State, d: Dir) {
    TreeOk(s.tree.Get(d)) && FifoOk(s.fifo.Get(d), s.clock + s.expire.Get(d)) &&
    NodeIds(s.tree.Get(d)) == ItemIds(s.fifo.Get(d)) && LinkOk(s.next.Get(d), ItemIds(s.fifo.Get(d)))
  }

  ghost predicate Inv(s: State) {
    DirOk(s, READ) && DirOk(s, WRITE) && (s.next.r == Null || s.next.w == Null) &&
    s.nrSorted == |s.fifo.r| + |s.fifo.w|
  }

  // ---- trees ---------------------------------------------------------------------------------

  lemma {:induction false} PosSplits(tree: seq<Node>, sector: nat)
    requires SortedTree(tree)
    ensures var p := Pos(tree, sector);
            (forall i :: 0 <= i < p ==> tree[i].sector < sector) && forall i :: p <= i < |tree| ==> sector <= tree[i].sector
  {
    if tree != [] && tree[0].sector < sector { PosSplits(tree[1..], sector); }
  }

  lemma AliasNull(tree: seq<Node>, sector: nat)
    requires SortedTree(tree) && Alias(tree, sector) == Null
    ensures forall i :: 0 <= i < |tree| ==> tree[i].sector != sector
  {
    PosSplits(tree, sector);
  }

  lemma PutTree(tree: seq<Node>, sector: nat, id: nat)
    requires TreeOk(tree) && id !in NodeIds(tree) && Alias(tree, sector) == Null
    ensures TreeOk(Put(tree, Pos(tree, sector), Node(sector, id)))
    ensures NodeIds(Put(tree, Pos(tree, sector), Node(sector, id))) == NodeIds(tree) + {id}
  {
    hide Put, Pos;
    PosSplits(tree, sector);
    AliasNull(tree, sector);
    var p := Pos(tree, sector);
    var t := Put(tree, p, Node(sector, id));
    PutIndexes(tree, p, Node(sector, id));
    forall x | x in NodeIds(tree) + {id} ensures x in NodeIds(t) {
      if x != id {
        var i :| 0 <= i < |tree| && tree[i].id == x;
        assert t[if i < p then i else i + 1].id == x;
      } else {
        assert t[p].id == x;
      }
    }
  }

  lemma PutIndexes<T>(s: seq<T>, p: nat, x: T)
    requires p <= |s|
    ensures |Put(s, p, x)| == |s| + 1 && Put(s, p, x)[p] == x
    ensures forall i :: 0 <= i < p ==> Put(s, p, x)[i] == s[i]
    ensures forall i :: p < i <= |s| ==> Put(s, p, x)[i] == s[i - 1]
  {
  }

  lemma CutNothing<T>(s: seq<T>, p: nat)
    ensures p >= |s| ==> Cut(s, p) == s
  {
  }

  lemma CutIndexes<T>(s: seq<T>, p: nat)
    requires p < |s|
    ensures |Cut(s, p)| == |s| - 1
    ensures forall i :: 0 <= i < p ==> Cut(s, p)[i] == s[i]
    ensures forall i :: p <= i < |s| - 1 ==> Cut(s, p)[i] == s[i + 1]
  {
  }

  lemma CutTree(tree: seq<Node>, id: nat)
    requires TreeOk(tree)
    ensures TreeOk(Cut(tree, IndexOf(tree, id))) && NodeIds(Cut(tree, IndexOf(tree, id))) == NodeIds(tree) - {id}
  {
    hide Cut, IndexOf;
    var p := IndexOf(tree, id);
    var t := Cut(tree, p);
    CutNothing(tree, p);
    if p < |tree| {
      CutIndexes(tree, p);
      forall x | x in NodeIds(tree) - {id} ensures x in NodeIds(t) {
        var i :| 0 <= i < |tree| && tree[i].id == x;
        assert t[if i < p then i else i - 1].id == x;
      }
    }
  }

  lemma CutFifo(fifo: seq<Item>, id: nat, latest: int)
    requires FifoOk(fifo, latest)
    ensures FifoOk(Cut(fifo, Place(fifo, id)), latest) && ItemIds(Cut(fifo, Place(fifo, id))) == ItemIds(fifo) - {id}
    ensures |Cut(fifo, Place(fifo, id))| == |fifo| - if id in ItemIds(fifo) then 1 else 0
  {
    hide Cut, Place;
    var p := Place(fifo, id);
    var t := Cut(fifo, p);
    CutNothing(fifo, p);
    if p < |fifo| {
      CutIndexes(fifo, p);
      forall x | x in ItemIds(fifo) - {id} ensures x in ItemIds(t) {
        var i :| 0 <= i < |fifo| && fifo[i].id == x;
        assert t[if i < p then i else i - 1].id == x;
      }
    }
  }

  // The successor in sector order is in the tree and is another request.
  lemma LatterHeld(tree: seq<Node>, id: nat)
    requires TreeOk(tree) && id in NodeIds(tree)
    ensures LinkOk(Latter(tree, id), NodeIds(tree) - {id})
  {
    var i := IndexOf(tree, id);
    if i + 1 < |tree| { assert tree[i].id != tree[i + 1].id; }
  }
}
