/**
 * A request arrives: the submission table grows and the request joins one of the lists.
 */
module BarrierArrival {
  import opened BarrierModel
  import opened BarrierInvariant
  import opened BarrierFetch
  import opened BarrierQueueing

  function Entry(s: Submission): Sub { Sub(s.kind == Fs, s.kind == Fs && s.hard, s.empty) }

  // The queue with the submission recorded and the colour toggled, before insertion.
  function Recorded(q: Queue, s: Submission): Queue {
    q.(ordColor := if s.hard then !q.ordColor else q.ordColor,
       subs := q.subs + [Entry(s)],
       epoch := if s.kind == Fs && s.hard then q.epoch + 1 else q.epoch)
  }

  lemma KnownGrows(q: Queue, s: Submission, r: Request)
    requires Known(q, r)
    ensures Known(Recorded(q, s), r)
  {
    EpochPrefix(q.subs, Entry(s), r.id);
  }

  lemma LogGrows(subs: seq<Sub>, m: Mode, log: seq<Event>, s: Sub)
    requires LogOk(subs, m, log)
    ensures LogOk(subs + [s], m, log)
  {
    forall i | 0 <= i < |log| ensures EventOk(subs + [s], m, log[..i], log[i]) {
      assert EventOk(subs, m, log[..i], log[i]);
    }
  }

  lemma HistoryGrows(q: Queue, s: Submission, q': Queue)
    requires HistoryOk(q)
    requires q'.subs == q.subs + [Entry(s)] && q'.log == q.log && q'.nextMode == q.nextMode
    requires q'.ordseq == q.ordseq && q'.orig == q.orig && q'.taken == q.taken
    ensures HistoryOk(q')
  {
    LogGrows(q.subs, q.nextMode, q.log, Entry(s));
    forall e | e in q'.log && e.id < |q'.subs| && q'.subs[e.id].barrier && !e.Issue?
      ensures EpochAt(q'.subs, e.id) < q'.taken
    {
      EpochPrefix(q.subs, Entry(s), e.id);
    }
  }

  lemma ConfigGrows(q: Queue, s: Submission, q': Queue)
    requires ConfigOk(q) && (s.hard ==> s.kind == Fs)
    requires q' == Recorded(q, s).(head := q'.head, sorted := q'.sorted)
    ensures ConfigOk(q')
  {
    EpochPrefix(q.subs, Entry(s), |q.subs|);
    if Active(q) { KnownGrows(q, s, q.orig); }
  }

  lemma ArrivalHolding(q: Queue, q': Queue, r: Request)
    requires q'.driver == q.driver && r.role == Original
    requires forall x :: (x in q'.head || x in q'.sorted) <==> (x in q.head || x in q.sorted || x == r)
    ensures forall role, id :: Held(q', role, id) <==> Held(q, role, id) || (role == Original && id == r.id)
  {
    forall role, id ensures Held(q', role, id) <==> Held(q, role, id) || (role == Original && id == r.id) {
      if role == Original && id == r.id { assert r in q'.head || r in q'.sorted; }
      if Held(q, role, id) {
        var x :| (x in q.head || x in q.driver || x in q.sorted) && x.role == role && x.id == id;
        assert x in q'.head || x in q'.driver || x in q'.sorted;
      }
      if Held(q', role, id) {
        var x :| (x in q'.head || x in q'.driver || x in q'.sorted) && x.role == role && x.id == id;
        assert x in q.head || x in q.driver || x in q.sorted || x == r;
      }
    }
  }

  lemma ArrivalConserves(q: Queue, s: Submission, q': Queue, r: Request)
    requires Conserved(q) && HistoryOk(q) && r.id == |q.subs| && OrigOk(q)
    requires q'.subs == q.subs + [Entry(s)] && q'.log == q.log && q'.ordseq == q.ordseq && q'.orig == q.orig
    requires forall role, id :: Held(q', role, id) <==> Held(q, role, id) || (role == Original && id == r.id)
    ensures Conserved(q')
  {
    forall id | 0 <= id < |q'.subs| ensures Live(q', id) <==> !Ended(q'.log, id) {
      if id < |q.subs| {
        assert Live(q', id) == Live(q, id);
      } else {
        assert !Ended(q.log, id);
        assert Held(q', Original, id);
      }
    }
  }

  lemma ArrivalStages(q: Queue, q': Queue, r: Request)
    requires Staged(q, {}) && q'.ordseq == q.ordseq && q'.orig == q.orig
    requires forall role, id :: Held(q', role, id) <==> Held(q, role, id) || (role == Original && id == r.id)
    ensures Staged(q', {})
  {
  }

  lemma ArrivalElements(q: Queue, s: Submission, q': Queue, r: Request)
    requires ListsOk(q) && q' == Recorded(q, s).(head := q'.head, sorted := q'.sorted)
    requires forall x :: x in q'.head ==> x in q.head || HeadOk(q', x)
    requires forall x :: x in q'.sorted ==> (x in q.sorted && q'.epoch == q.epoch) || SortedOk(q', x)
    ensures (forall x :: x in q'.head ==> HeadOk(q', x)) && (forall x :: x in q'.driver ==> DriverOk(q', x)) &&
            (forall x :: x in q'.sorted ==> SortedOk(q', x))
  {
    hide Apart, InOrder;
    forall x | x in q'.head ensures HeadOk(q', x) {
      if x in q.head {
        assert HeadOk(q, x);
        if x.role == Original { KnownGrows(q, s, x); }
      }
    }
    forall x | x in q'.driver ensures DriverOk(q', x) {
      assert DriverOk(q, x);
      if x.role == Original { KnownGrows(q, s, x); }
    }
    forall x | x in q'.sorted ensures SortedOk(q', x) {
      if x in q.sorted && q'.epoch == q.epoch { assert SortedOk(q, x); KnownGrows(q, s, x); }
    }
  }

  // A new request has a number nobody else has.
  lemma NewNumber(q: Queue, r: Request)
    requires ListsOk(q) && OrigOk(q) && r.role == Original && r.id == |q.subs|
    ensures forall x :: x in q.head || x in q.driver || x in q.sorted ==> !Same(x, r) && !Same(r, x)
    ensures Active(q) ==> !Same(r, q.orig)
  {
    forall x | x in q.head || x in q.driver || x in q.sorted ensures !Same(x, r) {
      if x in q.head { assert HeadOk(q, x); }
      else if x in q.driver { assert DriverOk(q, x); }
      else { assert SortedOk(q, x); }
    }
  }

  lemma ArrivalApart(q: Queue, q': Queue, r: Request)
    requires Apart(q) && q'.driver == q.driver && q'.ordseq == q.ordseq && q'.orig == q.orig
    requires ((forall x :: x in q'.head <==> x in q.head || x == r) && q'.sorted == q.sorted) ||
             (q'.head == q.head && q'.sorted == q.sorted + {r})
    requires forall x :: x in q.head || x in q.driver || x in q.sorted ==> !Same(x, r) && !Same(r, x)
    requires Active(q) ==> !Same(r, q.orig)
    ensures Apart(q')
  {
  }

  // What every arrival has in common, once the lists are known to be in order.
  lemma ArrivalCore(q: Queue, s: Submission, q': Queue, r: Request)
    requires Core(q, {}) && ErrorOk(q) && (s.hard ==> s.kind == Fs)
    requires r.role == Original && r.id == |q.subs|
    requires q' == Recorded(q, s).(head := q'.head, sorted := q'.sorted)
    requires forall x :: (x in q'.head || x in q'.sorted) <==> (x in q.head || x in q.sorted || x == r)
    requires ListsOk(q')
    ensures Core(q', {}) && ErrorOk(q')
  {
    hide ListsOk, HistoryOk, Conserved, Staged, Held;
    ConfigGrows(q, s, q');
    HistoryGrows(q, s, q');
    ArrivalHolding(q, q', r);
    ArrivalConserves(q, s, q', r);
    ArrivalStages(q, q', r);
  }

  lemma FrontKeeps(q: Queue, s: Submission, moves: seq<Move>)
    requires Inv(q) && LegalMoves(q, moves) && s.kind != Fs && !s.hard
    ensures Inv(AddRequest(q, s, Front, moves))
  {
    var r := NewRequest(q, s).(soft := true);
    var q' := AddRequest(q, s, Front, moves);
    assert q' == Recorded(q, s).(head := [r] + q.head);
    NewNumber(q, r);
    EpochPrefix(q.subs, Entry(s), |q.subs|);
    assert HeadOk(q', r);
    ArrivalElements(q, s, q', r);
    ArrivalApart(q, q', r);
    assert InOrder(q'.head) by {
      forall i, j | 0 <= i < j < |q'.head| ensures Before(q'.head[i], q'.head[j]) {
        assert q'.head[j] == q.head[j - 1] && q.head[j - 1] in q.head;
        if i > 0 { assert q'.head[i] == q.head[i - 1]; }
      }
    }
    ArrivalCore(q, s, q', r);
  }

  lemma SortKeeps(q: Queue, s: Submission, moves: seq<Move>)
    requires Inv(q) && LegalMoves(q, moves) && s.kind != Special && !s.hard && !s.soft && s.elvPriv
    ensures Inv(AddRequest(q, s, Sort, moves))
  {
    var r := NewRequest(q, s);
    var q' := AddRequest(q, s, Sort, moves);
    assert q' == Recorded(q, s).(sorted := q.sorted + {r});
    NewNumber(q, r);
    EpochPrefix(q.subs, Entry(s), |q.subs|);
    assert SortedOk(q', r);
    ArrivalElements(q, s, q', r);
    ArrivalApart(q, q', r);
    ArrivalCore(q, s, q', r);
    assert Awake(q') by {
      if q.head != [] { assert ReqSeq(q', q'.head[0]) == ReqSeq(q, q.head[0]); }
    }
  }

  lemma BackOrder(q: Queue, s: Submission)
    requires ListsOk(q) && ConfigOk(q)
    ensures InOrder(q.head + [NewRequest(q, s).(soft := true)])
  {
    var r := NewRequest(q, s).(soft := true);
    NewNumber(q, r);
    forall x | x in q.head ensures Before(x, r) {
      assert HeadOk(q, x);
      if x.role == Original { EpochMono(q.subs, x.id, |q.subs|); }
    }
    OrderedConcat(q.head, [r]);
  }

  lemma BackKeeps(q: Queue, s: Submission)
    requires Inv(q) && q.sorted == {} && (s.hard ==> s.kind == Fs)
    ensures Inv(Recorded(q, s).(head := q.head + [NewRequest(q, s).(soft := true)]))
  {
    var r := NewRequest(q, s).(soft := true);
    var q' := Recorded(q, s).(head := q.head + [r]);
    NewNumber(q, r);
    EpochPrefix(q.subs, Entry(s), |q.subs|);
    BackOrder(q, s);
    assert HeadOk(q', r);
    ArrivalElements(q, s, q', r);
    ArrivalApart(q, q', r);
    ArrivalCore(q, s, q', r);
    assert Awake(q') by {
      if q.head != [] { assert ReqSeq(q', q'.head[0]) == ReqSeq(q, q.head[0]); }
    }
  }

  lemma AddRequestKeeps(q: Queue, s: Submission, where_: Where, moves: seq<Move>)
    requires Inv(q) && Enabled(q, DoAdd(s, where_, moves), false)
    ensures Inv(AddRequest(q, s, where_, moves))
  {
    hide Inv, Drain;
    match EffectiveWhere(s, where_)
    case Front =>
      FrontKeeps(q, s, moves);
    case Sort =>
      SortKeeps(q, s, moves);
    case Back =>
      DrainKeeps(q, moves);
      BackKeeps(Drain(q, moves), s);
      AddBack(q, s, where_, moves);
  }

  lemma AddBack(q: Queue, s: Submission, where_: Where, moves: seq<Move>)
    requires LegalMoves(q, moves) && EffectiveWhere(s, where_) == Back
    ensures var d := Drain(q, moves);
            AddRequest(q, s, where_, moves) == Recorded(d, s).(head := d.head + [NewRequest(d, s).(soft := true)])
  {
    hide Drain;
    DrainFrame(q, q, moves);
  }
}
