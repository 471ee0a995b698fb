/**
 * crypto_queue: a bounded list whose backlog pointer marks the first request beyond the bound.
 */
module CryptoQueue {
  import opened ChainIvModel

  // A list_head pointer: the list itself or the entry of a request
  datatype Link = ListHead | At(r: Req)

  datatype Taken = None | Some(r: Req)

  class RequestList {
    var list: seq<Req>
    var qlen: nat
    var backlog: Link
    const maxQlen: nat

    predicate Valid()
      reads this
    {
      qlen == |list| && (forall i, j :: 0 <= i < j < |list| ==> list[i] != list[j]) &&
      backlog == if maxQlen < |list| then At(list[maxQlen]) else ListHead
    }

    // crypto_init_queue
    constructor (max: nat)
      ensures Valid() && list == [] && maxQlen == max
    {
      list, qlen, backlog, maxQlen := [], 0, ListHead, max;
    }

    // crypto_enqueue_request
    method Enqueue(r: Req) returns (err: int)
      requires Valid() && r !in list
      modifies this
      ensures Valid()
      ensures err == if old(|list|) >= maxQlen then EBUSY else EINPROGRESS
      ensures list == if err == EBUSY && !r.mayBacklog then old(list) else old(list) + [r]
    {
      err := EINPROGRESS;
      if qlen >= maxQlen {
        err := EBUSY;
        if !r.mayBacklog { return; }
        if backlog == ListHead { backlog := At(r); }
      }
      qlen := qlen + 1;
      list := list + [r];
    }

    // backlog->next
    method Next(p: Req, ghost k: nat) returns (n: Link)
      requires Valid() && k < |list| && list[k] == p
      ensures n == if k + 1 < |list| then At(list[k + 1]) else ListHead
    {
      var i := 0;
      while list[i] != p
        invariant 0 <= i <= k
        decreases k - i
      {
        i := i + 1;
      }
      n := if i + 1 < |list| then At(list[i + 1]) else ListHead;
    }

    // crypto_dequeue_request
    method Dequeue() returns (r: Taken)
      requires Valid()
      modifies this
      ensures Valid()
      ensures r == if old(list) == [] then None else Some(old(list)[0])
      ensures list == if old(list) == [] then [] else old(list)[1..]
    {
      if qlen == 0 { return None; }
      var next := backlog;
      if backlog != ListHead { next := Next(backlog.r, maxQlen); }
      qlen, backlog := qlen - 1, next;
      r := Some(list[0]);
      list := list[1..];
    }
  }

  // The queue step of the chain-IV protocol is this enqueue with the bound it was set up with.
  method AdmitAsQueue(q: RequestList, s: State, r: Req) returns (err: int)
    requires q.Valid() && q.list == s.queue && q.maxQlen == MAX_QLEN && r !in s.queue
    modifies q
    ensures Admit(s, r).s.queue == q.list && Admit(s, r).pc == PostTas(err)
  {
    err := q.Enqueue(r);
  }
}
