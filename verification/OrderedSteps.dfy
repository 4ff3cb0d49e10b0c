/** Every step keeps the invariant of `OrderedInvariant`. */
module OrderedSteps {
  import opened Ordered
  import opened OrderedInvariant

  lemma InitInv(m: Method)
    requires Supported(m)
    ensures Inv(Init(m))
  {
    assert FsNames(map[]) == {};
  }

  // ----- log bookkeeping -----

  lemma FirstErrorSnoc(log: seq<Event>, e: Event, b: nat)
    ensures FirstError(log + [e], b) ==
            if FirstError(log, b) != 0 then FirstError(log, b) else ErrorOf(e, b)
  {
    assert (log + [e])[..|log|] == log;
  }

  lemma OverSnoc(log: seq<Event>, e: Event, x: nat)
    ensures Over(log + [e], x) <==> Over(log, x) || e == Finished(x) || (e.Ended? && e.barrier == x)
  {
    if EndedIn(log, x) {
      var err :| Ended(x, err) in log;
      assert Ended(x, err) in log + [e];
    }
    if e.Ended? && e.barrier == x {
      assert Ended(x, e.error) in log + [e];
    }
  }

  lemma ProxyDoneSnoc(log: seq<Event>, e: Event, b: nat, p: Name)
    ensures ProxyDone(log, b, p) ==> ProxyDone(log + [e], b, p)
    ensures e.ProxyFinished? && e.barrier == b && e.proxy == p ==> ProxyDone(log + [e], b, p)
  {
    if ProxyDone(log, b, p) {
      var err :| ProxyFinished(b, p, err) in log;
      assert ProxyFinished(b, p, err) in log + [e];
    }
    if e.ProxyFinished? && e.barrier == b && e.proxy == p {
      assert ProxyFinished(b, p, e.error) in log + [e];
    }
  }

  /** What one more event does to everything that is read off the log. */
  lemma LogSnoc(log: seq<Event>, e: Event)
    ensures forall x: nat :: Over(log + [e], x) <==> Over(log, x) || e == Finished(x) || (e.Ended? && e.barrier == x)
    ensures forall b: nat :: FirstError(log + [e], b) ==
                             if FirstError(log, b) != 0 then FirstError(log, b) else ErrorOf(e, b)
    ensures forall b: nat, n :: ProxyDone(log, b, n) ==> ProxyDone(log + [e], b, n)
    ensures forall x: nat, k :: Submitted(x, k) in log + [e] <==> Submitted(x, k) in log || e == Submitted(x, k)
  {
    forall x: nat
      ensures Over(log + [e], x) <==> Over(log, x) || e == Finished(x) || (e.Ended? && e.barrier == x)
    {
      OverSnoc(log, e, x);
    }
    forall b: nat
      ensures FirstError(log + [e], b) == if FirstError(log, b) != 0 then FirstError(log, b) else ErrorOf(e, b)
    {
      FirstErrorSnoc(log, e, b);
    }
    forall b: nat, n | ProxyDone(log, b, n) ensures ProxyDone(log + [e], b, n) {
      ProxyDoneSnoc(log, e, b, n);
    }
  }

  // ----- closing a sequence -----

  lemma SettleRecords(q: Queue)
    requires Places(q.dispatch, q.held, q.driver, OrigNames(q.orig)) && OrigKind(q.book, q.orig) && Records(q)
    requires q.orig.Some? && CurSeq(q.ordseq) == DONE
    ensures Records(Settle(q))
  {
    var q' := Settle(q);
    LogSnoc(q.log, Ended(OrigId(q), q.orderr));
    assert LiveNames(q') == LiveNames(q) - {q.orig.value.name};
  }

  lemma SettleShape(q: Queue)
    requires Places(q.dispatch, q.held, q.driver, OrigNames(q.orig))
    requires ProxiesPending(NamesOf(q.dispatch) + q.driver.Keys, q.ordseq)
    requires Configuration(q.next, q.ordered, q.ordseq, q.orig)
    requires CurSeq(q.ordseq) == DONE
    ensures var q' := Settle(q);
      && Places(q'.dispatch, q'.held, q'.driver, OrigNames(q'.orig))
      && ProxiesPending(NamesOf(q'.dispatch) + q'.driver.Keys, q'.ordseq)
      && Configuration(q'.next, q'.ordered, q'.ordseq, q'.orig)
      && q.orig.Some?
  {
  }

  lemma SettleInv(q: Queue)
    requires InvOpen(q)
    ensures Inv(Settle(q))
  {
    if CurSeq(q.ordseq) == DONE {
      SettleShape(q);
      SettleRecords(q);
    }
  }

  // ----- submission -----

  lemma SubmitBook(q: Queue, k: Kind)
    requires Epochs(q.book, q.epoch, q.ordcolor)
    ensures var q' := Submit(q, k); Epochs(q'.book, q'.epoch, q'.ordcolor)
  {
  }

  lemma Append(book: seq<Entry>, e: Entry)
    ensures forall r :: WellFormed(book, r) ==> WellFormed(book + [e], r) && EpochOf(book + [e], r) == EpochOf(book, r)
  {
  }

  lemma SubmitKinds(q: Queue, k: Kind)
    requires Kinds(q)
    ensures Kinds(Submit(q, k))
  {
    SubmitBook(q, k);
    Append(q.book, Entry(k, q.epoch));
    var book' := Submit(q, k).book;
    assert forall r :: DispatchKind(q.book, r) ==> DispatchKind(book', r);
    assert forall r :: HeldKind(q.book, r) ==> HeldKind(book', r);
    assert forall r :: DriverKind(q.book, r) ==> DriverKind(book', r);
  }

  /** The log after a submission, with the new request among the live ones. */
  lemma SubmitLog(q: Queue, k: Kind)
    requires Records(q)
    ensures var q' := Submit(q, k);
      && Submissions(q'.book, q'.log)
      && Tracked(LiveNames(q) + {User(|q.book|)}, q'.book, q'.log)
      && Errors(q'.book, q.dispatch, q'.log)
      && Progress(q.ordered, q.ordseq, q.orderr, OrigId(q), q'.log)
      && FirstError(q'.log, |q.book|) == 0
  {
    LogSnoc(q.log, Submitted(|q.book|, k));
    assert !Over(q.log, |q.book|);
  }

  lemma FreshName(q: Queue)
    requires Kinds(q) && Places(q.dispatch, q.held, q.driver, OrigNames(q.orig))
    ensures User(|q.book|) !in LiveNames(q)
  {
    assert forall r :: r in q.dispatch ==> DispatchKind(q.book, r);
    assert forall n :: n in q.driver ==> DriverKind(q.book, q.driver[n]);
    assert forall n :: n in q.held ==> HeldKind(q.book, q.held[n]);
  }

  lemma LineFrame(book: seq<Entry>, e: Entry, d: seq<Request>, lo: nat, hi: nat)
    requires DispatchKinds(book, d)
    requires BarrierLine(book, d, lo, hi)
    ensures BarrierLine(book + [e], d, lo, hi)
  {
    Append(book, e);
    forall i | 0 <= i < |d| ensures EpochOf(book + [e], d[i]) == EpochOf(book, d[i]) {
      assert DispatchKind(book, d[i]);
    }
    forall x | lo <= x < hi ensures HasBarrier(book + [e], d, x) {
      assert HasBarrier(book, d, x);
    }
  }

  lemma OrigFrame(book: seq<Entry>, e: Entry, orig: Option<Request>, ended: nat)
    requires OrigKind(book, orig) && OrigEpoch(book, orig, ended)
    ensures OrigEpoch(book + [e], orig, ended)
  {
  }

  lemma AddSortPlaces(q: Queue)
    requires Places(q.dispatch, q.held, q.driver, OrigNames(q.orig))
    requires User(|q.book|) !in LiveNames(q)
    ensures var q' := SortRequest(q);
      && Places(q'.dispatch, q'.held, q'.driver, OrigNames(q'.orig))
      && LiveNames(q') == LiveNames(q) + {User(|q.book|)}
  {
  }

  lemma AddSortKinds(q: Queue)
    requires Kinds(q)
    ensures Kinds(SortRequest(q))
  {
    SubmitKinds(q, Plain);
    var q' := SortRequest(q);
    assert HeldKind(q'.book, q'.held[User(|q.book|)]);
  }

  lemma AddSortInv(q: Queue)
    requires Inv(q)
    ensures Inv(SortRequest(q))
  {
    FreshName(q);
    AddSortPlaces(q);
    AddSortKinds(q);
    SubmitLog(q, Plain);
    LineFrame(q.book, Entry(Plain, q.epoch), q.dispatch, Lowest(q.orig, q.ended), q.epoch);
    OrigFrame(q.book, Entry(Plain, q.epoch), q.orig, q.ended);
  }

  // ----- inserting into and removing from the dispatch queue -----

  lemma InsertNames(d: seq<Request>, p: nat, r: Request)
    requires p <= |d|
    ensures NamesOf(InsertAt(d, p, r)) == NamesOf(d) + {r.name}
    ensures forall x :: x in InsertAt(d, p, r) <==> x in d || x == r
  {
    var d' := InsertAt(d, p, r);
    assert d'[p] == r;
    assert d == d[..p] + d[p..];
    assert forall x :: x in d' <==> x in d || x == r;
  }

  lemma InsertDistinct(d: seq<Request>, p: nat, r: Request)
    requires p <= |d| && Distinct(d) && r.name !in NamesOf(d)
    ensures Distinct(InsertAt(d, p, r))
  {
    assert forall i :: 0 <= i < |d| ==> d[i] in d;
  }

  /** Where a request of `d` is after an insertion at `p`. */
  function Moved(p: nat, i: nat): nat { if i < p then i else i + 1 }

  lemma InsertAtIs(d: seq<Request>, p: nat, r: Request)
    requires p <= |d|
    ensures var d' := InsertAt(d, p, r);
      |d'| == |d| + 1 && d'[p] == r && forall i: nat :: i < |d| ==> d'[Moved(p, i)] == d[i]
  {
  }

  lemma InsertHas(book: seq<Entry>, d: seq<Request>, p: nat, r: Request, e: int)
    requires p <= |d| && HasBarrier(book, d, e)
    ensures HasBarrier(book, InsertAt(d, p, r), e)
  {
    InsertAtIs(d, p, r);
    var i: nat :| i < |d| && UserBarrier(d[i]) && EpochOf(book, d[i]) == e;
    assert InsertAt(d, p, r)[Moved(p, i)] == d[i];
  }

  /** Inserting anything but a barrier leaves the line of barriers alone. */
  lemma InsertLine(book: seq<Entry>, d: seq<Request>, p: nat, r: Request, lo: nat, hi: nat)
    requires p <= |d|
    requires !UserBarrier(r)
    requires BarrierLine(book, d, lo, hi)
    ensures BarrierLine(book, InsertAt(d, p, r), lo, hi)
  {
    var d' := InsertAt(d, p, r);
    assert forall i :: 0 <= i < p ==> d'[i] == d[i];
    assert forall i :: p < i < |d'| ==> d'[i] == d[i - 1];
    forall e | lo <= e < hi ensures HasBarrier(book, d', e) {
      assert HasBarrier(book, d, e);
      InsertHas(book, d, p, r, e);
    }
  }

  lemma HeadNames(d: seq<Request>)
    requires d != []
    ensures NamesOf(d) == {d[0].name} + NamesOf(d[1..])
    ensures Distinct(d) ==> Distinct(d[1..]) && d[0].name !in NamesOf(d[1..])
    ensures forall x :: x in d <==> x in d[1..] || x == d[0]
  {
    assert d == [d[0]] + d[1..];
    assert forall x :: x in d <==> x in d[1..] || x == d[0];
  }

  /** Taking off a head that is no barrier leaves the line of barriers alone. */
  lemma DropLine(book: seq<Entry>, d: seq<Request>, lo: nat, hi: nat)
    requires d != []
    requires !UserBarrier(d[0])
    requires BarrierLine(book, d, lo, hi)
    ensures BarrierLine(book, d[1..], lo, hi)
  {
    forall e | lo <= e < hi ensures HasBarrier(book, d[1..], e) {
      assert HasBarrier(book, d, e);
      var i :| 0 <= i < |d| && UserBarrier(d[i]) && EpochOf(book, d[i]) == e;
      assert d[1..][i - 1] == d[i];
    }
  }

  /** A barrier at the head is the one of the lowest epoch. */
  lemma HeadLine(book: seq<Entry>, d: seq<Request>, lo: nat, hi: nat)
    requires d != []
    requires UserBarrier(d[0])
    requires BarrierLine(book, d, lo, hi)
    ensures EpochOf(book, d[0]) == lo < hi
    ensures BarrierLine(book, d[1..], lo + 1, hi)
  {
    assert HasBarrier(book, d, lo);
    forall e | lo + 1 <= e < hi ensures HasBarrier(book, d[1..], e) {
      assert HasBarrier(book, d, e);
      var i :| 0 <= i < |d| && UserBarrier(d[i]) && EpochOf(book, d[i]) == e;
      assert d[1..][i - 1] == d[i];
    }
  }

  // ----- back and front insertion -----

  lemma BackLine(q: Queue, k: Kind)
    requires BarrierLine(q.book, q.dispatch, Lowest(q.orig, q.ended), q.epoch)
    requires DispatchKinds(q.book, q.dispatch)
    ensures var q' := BackRequest(q, k);
      BarrierLine(q'.book, q'.dispatch, Lowest(q'.orig, q'.ended), q'.epoch)
  {
    var lo := Lowest(q.orig, q.ended);
    var e, r := Entry(k, q.epoch), NewRequest(q, k, true);
    var q' := BackRequest(q, k);
    var d, d' := q.dispatch, q'.dispatch;
    LineFrame(q.book, e, d, lo, q.epoch);
    if k.Barrier? {
      assert EpochOf(q'.book, d'[|d|]) == q.epoch;
      assert forall i :: 0 <= i < |d| ==> d'[i] == d[i];
      forall x | lo <= x < q'.epoch ensures HasBarrier(q'.book, d', x) {
        if x < q.epoch {
          assert HasBarrier(q'.book, d, x);
          var i :| 0 <= i < |d| && UserBarrier(d[i]) && EpochOf(q'.book, d[i]) == x;
          assert d'[i] == d[i];
        } else {
          assert UserBarrier(d'[|d|]);
        }
      }
    } else {
      assert d' == InsertAt(d, |d|, r);
      InsertLine(q'.book, d, |d|, r, lo, q.epoch);
    }
  }

  lemma AddKinds(q: Queue, k: Kind, p: nat)
    requires Kinds(q) && p <= |q.dispatch|
    ensures Kinds(Submit(q, k).(dispatch := InsertAt(q.dispatch, p, NewRequest(q, k, true))))
  {
    SubmitKinds(q, k);
    var r := NewRequest(q, k, true);
    InsertNames(q.dispatch, p, r);
    assert DispatchKind(Submit(q, k).book, r);
  }

  lemma AddPlaces(q: Queue, k: Kind, p: nat)
    requires Places(q.dispatch, q.held, q.driver, OrigNames(q.orig))
    requires User(|q.book|) !in LiveNames(q) && p <= |q.dispatch|
    ensures var d' := InsertAt(q.dispatch, p, NewRequest(q, k, true));
      && Places(d', q.held, q.driver, OrigNames(q.orig))
      && NamesOf(d') == NamesOf(q.dispatch) + {User(|q.book|)}
  {
    InsertNames(q.dispatch, p, NewRequest(q, k, true));
    InsertDistinct(q.dispatch, p, NewRequest(q, k, true));
  }

  lemma AddRecords(q: Queue, k: Kind, p: nat)
    requires Records(q) && p <= |q.dispatch|
    ensures Records(Submit(q, k).(dispatch := InsertAt(q.dispatch, p, NewRequest(q, k, true))))
  {
    SubmitLog(q, k);
    var r := NewRequest(q, k, true);
    InsertNames(q.dispatch, p, r);
    var q' := Submit(q, k).(dispatch := InsertAt(q.dispatch, p, r));
    assert LiveNames(q') == LiveNames(q) + {User(|q.book|)};
  }

  lemma AddPending(queued: set<Name>, driver: set<Name>, o: Ordseq, n: Name)
    requires ProxiesPending(queued + driver, o) && n.User?
    ensures ProxiesPending(queued + {n} + driver, o)
  {
  }

  lemma AddBackInv(q: Queue, k: Kind)
    requires Inv(q)
    ensures Inv(BackRequest(q, k))
  {
    var d := q.dispatch;
    assert BackRequest(q, k) == Submit(q, k).(dispatch := InsertAt(d, |d|, NewRequest(q, k, true)));
    FreshName(q);
    AddPlaces(q, k, |d|);
    AddKinds(q, k, |d|);
    AddRecords(q, k, |d|);
    AddPending(NamesOf(d), q.driver.Keys, q.ordseq, User(|q.book|));
    BackLine(q, k);
    OrigFrame(q.book, Entry(k, q.epoch), q.orig, q.ended);
  }

  lemma FrontLine(q: Queue)
    requires BarrierLine(q.book, q.dispatch, Lowest(q.orig, q.ended), q.epoch)
    requires DispatchKinds(q.book, q.dispatch)
    ensures var q' := FrontRequest(q);
      && q' == Submit(q, Special).(dispatch := InsertAt(q.dispatch, 0, NewRequest(q, Special, true)))
      && BarrierLine(q'.book, q'.dispatch, Lowest(q'.orig, q'.ended), q'.epoch)
  {
    var lo := Lowest(q.orig, q.ended);
    LineFrame(q.book, Entry(Special, q.epoch), q.dispatch, lo, q.epoch);
    assert FrontRequest(q).dispatch == InsertAt(q.dispatch, 0, NewRequest(q, Special, true));
    InsertLine(FrontRequest(q).book, q.dispatch, 0, NewRequest(q, Special, true), lo, q.epoch);
  }

  lemma AddFrontInv(q: Queue)
    requires Inv(q)
    ensures Inv(FrontRequest(q))
  {
    FrontLine(q);
    FreshName(q);
    AddPlaces(q, Special, 0);
    AddKinds(q, Special, 0);
    AddRecords(q, Special, 0);
    AddPending(NamesOf(q.dispatch), q.driver.Keys, q.ordseq, User(|q.book|));
    OrigFrame(q.book, Entry(Special, q.epoch), q.orig, q.ended);
  }

  // ----- dispatch by the scheduler -----

  lemma DispatchPlaces(q: Queue, n: Name, p: nat)
    requires Places(q.dispatch, q.held, q.driver, OrigNames(q.orig))
    requires n in q.held && p <= |q.dispatch|
    ensures var q' := DispatchRequest(q, n, p);
      && Places(q'.dispatch, q'.held, q'.driver, OrigNames(q'.orig))
      && NamesOf(q'.dispatch) == NamesOf(q.dispatch) + {n}
      && LiveNames(q') == LiveNames(q)
  {
    InsertNames(q.dispatch, p, q.held[n]);
    InsertDistinct(q.dispatch, p, q.held[n]);
  }

  lemma DispatchKindsKept(q: Queue, n: Name, p: nat)
    requires Kinds(q) && Keyed(q.held) && n in q.held && p <= |q.dispatch|
    ensures Kinds(DispatchRequest(q, n, p))
    ensures !UserBarrier(q.held[n]) && n.User?
  {
    InsertNames(q.dispatch, p, q.held[n]);
    assert HeldKind(q.book, q.held[n]);
    assert DispatchKind(q.book, q.held[n]);
  }

  lemma InsertErrors(book: seq<Entry>, d: seq<Request>, p: nat, r: Request, log: seq<Event>)
    requires p <= |d| && Errors(book, d, log) && !UserBarrier(r)
    ensures Errors(book, InsertAt(d, p, r), log)
  {
    InsertNames(d, p, r);
  }

  lemma DispatchInv(q: Queue, n: Name, p: nat)
    requires Inv(q) && n in q.held && p <= |q.dispatch|
    ensures Inv(DispatchRequest(q, n, p))
  {
    DispatchPlaces(q, n, p);
    DispatchKindsKept(q, n, p);
    var r := q.held[n];
    AddPending(NamesOf(q.dispatch), q.driver.Keys, q.ordseq, n);
    InsertLine(q.book, q.dispatch, p, r, Lowest(q.orig, q.ended), q.epoch);
    InsertErrors(q.book, q.dispatch, p, r, q.log);
  }

  // ----- starting a sequence -----

  /** The state `StartSequence` reaches before it settles. */
  ghost function Opened(q: Queue): Queue
    requires q.dispatch != []
  {
    var r := q.dispatch[0];
    var m := SequenceMethod(q.next, r.empty);
    q.(orderr := 0, ordered := m, ordseq := Skipped(m, q.inFlight).(started := true), orig := Some(r),
       dispatch := Proxies(m) + q.dispatch[1..])
  }

  lemma OpenedSettles(q: Queue)
    requires q.dispatch != [] && q.ordseq == Idle && !q.dispatch[0].started
    ensures StartSequence(q) == Settle(Opened(q))
  {
  }

  lemma ProxyNames(m: Method)
    ensures forall n :: n in NamesOf(Proxies(m)) <==> Configured(m, n)
    ensures Distinct(Proxies(m))
    ensures forall r :: r in Proxies(m) ==> !UserBarrier(r) && !r.name.User? && r.hard && !r.started
  {
    var p := Proxies(m);
    if m.pre { assert PreFlushProxy in p; }
    if m.bar { assert BarProxy in p; }
    if m.post { assert PostFlushProxy in p; }
  }

  lemma ConcatNames(a: seq<Request>, b: seq<Request>)
    ensures NamesOf(a + b) == NamesOf(a) + NamesOf(b)
  {
    assert forall x :: x in a + b <==> x in a || x in b;
  }

  lemma ConcatDistinct(a: seq<Request>, b: seq<Request>)
    requires Distinct(a) && Distinct(b) && NamesOf(a) !! NamesOf(b)
    ensures Distinct(a + b)
  {
    var c := a + b;
    forall i, j | 0 <= i < j < |c| ensures c[i].name != c[j].name {
      if i < |a| <= j {
        assert a[i] in a && b[j - |a|] in b;
        assert a[i].name in NamesOf(a) && b[j - |a|].name in NamesOf(b);
      }
    }
  }

  lemma ConcatLine(book: seq<Entry>, a: seq<Request>, b: seq<Request>, lo: nat, hi: nat)
    requires forall r :: r in a ==> !UserBarrier(r)
    requires BarrierLine(book, b, lo, hi)
    ensures BarrierLine(book, a + b, lo, hi)
  {
    forall e | lo <= e < hi ensures HasBarrier(book, a + b, e) {
      assert HasBarrier(book, b, e);
      var i :| 0 <= i < |b| && UserBarrier(b[i]) && EpochOf(book, b[i]) == e;
      assert (a + b)[|a| + i] == b[i];
    }
  }

  lemma StartPlaces(q: Queue)
    requires Places(q.dispatch, q.held, q.driver, OrigNames(q.orig)) && q.orig.None?
    requires ProxiesPending(NamesOf(q.dispatch) + q.driver.Keys, Idle)
    requires HeldKinds(q.book, q.held)
    requires q.dispatch != [] && q.dispatch[0].name.User?
    ensures var q' := Opened(q);
      && Places(q'.dispatch, q'.held, q'.driver, OrigNames(q'.orig))
      && NamesOf(q'.dispatch) == NamesOf(Proxies(q'.ordered)) + NamesOf(q.dispatch[1..])
  {
    var m := SequenceMethod(q.next, q.dispatch[0].empty);
    assert forall n :: n in q.held ==> HeldKind(q.book, q.held[n]) && n.User?;
    HeadNames(q.dispatch);
    ProxyNames(m);
    ConcatNames(Proxies(m), q.dispatch[1..]);
    assert forall n :: n in NamesOf(Proxies(m)) ==> !n.User? && !Pending(Idle, n);
    ConcatDistinct(Proxies(m), q.dispatch[1..]);
  }

  lemma StartPending(q: Queue)
    requires ProxiesPending(NamesOf(q.dispatch) + q.driver.Keys, Idle)
    requires q.dispatch != []
    requires NamesOf(Opened(q).dispatch) == NamesOf(Proxies(Opened(q).ordered)) + NamesOf(q.dispatch[1..])
    ensures var q' := Opened(q); ProxiesPending(NamesOf(q'.dispatch) + q'.driver.Keys, q'.ordseq)
  {
    HeadNames(q.dispatch);
    var q' := Opened(q);
    ProxyNames(q'.ordered);
    forall n: Name | !n.User?
      ensures n in NamesOf(q'.dispatch) + q'.driver.Keys <==> Pending(q'.ordseq, n)
    {
      assert !Pending(Idle, n);
      assert n !in NamesOf(q.dispatch) + q.driver.Keys;
      assert Pending(q'.ordseq, n) <==> Configured(q'.ordered, n);
    }
  }

  lemma StartKinds(q: Queue)
    requires Kinds(q) && q.dispatch != [] && UserBarrier(q.dispatch[0])
    ensures Kinds(Opened(q))
    ensures !q.dispatch[0].started
  {
    assert DispatchKind(q.book, q.dispatch[0]);
    ProxyNames(Opened(q).ordered);
    assert forall r :: r in Opened(q).dispatch ==> r in Proxies(Opened(q).ordered) || r in q.dispatch;
  }

  lemma MoreProxies(live: set<Name>, more: set<Name>, book: seq<Entry>, log: seq<Event>)
    requires Tracked(live, book, log) && forall n :: n in more ==> !n.User?
    ensures Tracked(live + more, book, log)
  {
  }

  lemma StartLive(q: Queue)
    requires q.orig.None? && q.dispatch != []
    ensures LiveNames(Opened(q)) == LiveNames(q) + NamesOf(Proxies(Opened(q).ordered))
  {
    HeadNames(q.dispatch);
    ConcatNames(Proxies(Opened(q).ordered), q.dispatch[1..]);
  }

  lemma StartErrors(q: Queue)
    requires Errors(q.book, q.dispatch, q.log) && q.dispatch != [] && UserBarrier(q.dispatch[0])
    ensures Errors(q.book, Opened(q).dispatch, q.log)
    ensures FirstError(q.log, q.dispatch[0].name.id) == 0
  {
    var q' := Opened(q);
    ProxyNames(q'.ordered);
    assert forall r :: r in q'.dispatch ==> r in Proxies(q'.ordered) || r in q.dispatch;
    assert q.dispatch[0] in q.dispatch;
  }

  lemma StartRecords(q: Queue)
    requires Records(q) && q.orig.None? && q.dispatch != [] && UserBarrier(q.dispatch[0])
    ensures Records(Opened(q))
  {
    var m := Opened(q).ordered;
    ProxyNames(m);
    StartLive(q);
    MoreProxies(LiveNames(q), NamesOf(Proxies(m)), q.book, q.log);
    StartErrors(q);
  }

  lemma StartLine(q: Queue)
    requires BarrierLine(q.book, q.dispatch, Lowest(q.orig, q.ended), q.epoch) && q.orig.None?
    requires q.dispatch != [] && UserBarrier(q.dispatch[0])
    ensures var q' := Opened(q);
      && BarrierLine(q'.book, q'.dispatch, Lowest(q'.orig, q'.ended), q'.epoch)
      && OrigEpoch(q'.book, q'.orig, q'.ended)
  {
    HeadLine(q.book, q.dispatch, q.ended, q.epoch);
    ProxyNames(Opened(q).ordered);
    ConcatLine(q.book, Proxies(Opened(q).ordered), q.dispatch[1..], q.ended + 1, q.epoch);
  }

  lemma StartConfiguration(q: Queue)
    requires Configuration(q.next, q.ordered, q.ordseq, q.orig) && q.next != Unordered && q.dispatch != []
    ensures var q' := Opened(q); Configuration(q'.next, q'.ordered, q'.ordseq, q'.orig)
  {
  }

  lemma StartOpen(q: Queue)
    requires Inv(q) && q.next != Unordered
    requires q.dispatch != [] && q.ordseq == Idle && UserBarrier(q.dispatch[0])
    ensures InvOpen(Opened(q))
    ensures !q.dispatch[0].started
  {
    StartPlaces(q);
    StartPending(q);
    StartKinds(q);
    StartRecords(q);
    StartLine(q);
    StartConfiguration(q);
  }

  lemma StartSequenceInv(q: Queue)
    requires Inv(q) && q.next != Unordered
    requires q.dispatch != [] && q.ordseq == Idle && UserBarrier(q.dispatch[0])
    ensures Inv(StartSequence(q))
  {
    StartOpen(q);
    OpenedSettles(q);
    SettleInv(Opened(q));
  }

  // ----- rejecting a barrier -----

  lemma RejectRecords(q: Queue)
    requires Records(q) && Places(q.dispatch, q.held, q.driver, OrigNames(q.orig)) && q.orig.None?
    requires DispatchKinds(q.book, q.dispatch)
    requires q.dispatch != [] && UserBarrier(q.dispatch[0]) && q.ordseq == Idle
    ensures Records(Reject(q))
  {
    var q' := Reject(q);
    assert DispatchKind(q.book, q.dispatch[0]);
    HeadNames(q.dispatch);
    LogSnoc(q.log, Ended(q.dispatch[0].name.id, EOPNOTSUPP));
    assert LiveNames(q') == LiveNames(q) - {q.dispatch[0].name};
    assert Submissions(q'.book, q'.log);
    assert Tracked(LiveNames(q'), q'.book, q'.log);
    assert Errors(q'.book, q'.dispatch, q'.log);
  }

  lemma RejectShape(q: Queue)
    requires Places(q.dispatch, q.held, q.driver, OrigNames(q.orig))
    requires ProxiesPending(NamesOf(q.dispatch) + q.driver.Keys, q.ordseq)
    requires BarrierLine(q.book, q.dispatch, Lowest(q.orig, q.ended), q.epoch) && q.orig.None?
    requires q.dispatch != [] && UserBarrier(q.dispatch[0])
    ensures var q' := Reject(q);
      && Places(q'.dispatch, q'.held, q'.driver, OrigNames(q'.orig))
      && ProxiesPending(NamesOf(q'.dispatch) + q'.driver.Keys, q'.ordseq)
      && BarrierLine(q'.book, q'.dispatch, Lowest(q'.orig, q'.ended), q'.epoch)
  {
    HeadNames(q.dispatch);
    HeadLine(q.book, q.dispatch, q.ended, q.epoch);
  }

  lemma HeadKinds(q: Queue)
    requires Kinds(q) && q.dispatch != []
    ensures DispatchKinds(q.book, q.dispatch[1..])
  {
    HeadNames(q.dispatch);
  }

  lemma RejectInv(q: Queue)
    requires Inv(q) && q.ordseq == Idle && q.dispatch != [] && UserBarrier(q.dispatch[0])
    ensures Inv(Reject(q))
  {
    RejectShape(q);
    RejectRecords(q);
    HeadKinds(q);
  }

  // ----- peek and start -----

  /** An event that neither submits, finishes nor reports anything changes no record. */
  lemma QuietRecords(q: Queue, e: Event)
    requires Records(q)
    requires e.Issued? || e.ProxyIssued? || e.Warn?
    ensures Records(Emit(q, e))
  {
    LogSnoc(q.log, e);
  }

  /** The request that gets through is never a user's barrier. */
  lemma PassesNoBarrier(q: Queue)
    requires BarrierLine(q.book, q.dispatch, Lowest(q.orig, q.ended), q.epoch) && OrigEpoch(q.book, q.orig, q.ended)
    requires Kinds(q) && Configuration(q.next, q.ordered, q.ordseq, q.orig) && CurSeq(q.ordseq) != DONE
    requires q.dispatch != [] && Passes(q, q.dispatch[0])
    ensures !UserBarrier(q.dispatch[0])
  {
    var r := q.dispatch[0];
    assert DispatchKind(q.book, r);
    if UserBarrier(r) {
      HeadLine(q.book, q.dispatch, Lowest(q.orig, q.ended), q.epoch);
    }
  }

  lemma UpdateHead(d: seq<Request>, r: Request)
    requires d != [] && r.name == d[0].name
    ensures NamesOf(d[0 := r]) == NamesOf(d)
    ensures Distinct(d) ==> Distinct(d[0 := r])
    ensures forall x :: x in d[0 := r] ==> x in d || x == r
  {
    HeadNames(d);
    HeadNames(d[0 := r]);
    assert d[0 := r][1..] == d[1..];
  }

  lemma UpdateLine(book: seq<Entry>, d: seq<Request>, r: Request, lo: nat, hi: nat)
    requires d != [] && !UserBarrier(d[0]) && !UserBarrier(r)
    requires BarrierLine(book, d, lo, hi)
    ensures BarrierLine(book, d[0 := r], lo, hi)
  {
    var d' := d[0 := r];
    forall e | lo <= e < hi ensures HasBarrier(book, d', e) {
      assert HasBarrier(book, d, e);
      var i :| 0 <= i < |d| && UserBarrier(d[i]) && EpochOf(book, d[i]) == e;
      assert d'[i] == d[i];
    }
  }

  ghost function Marked(q: Queue): Queue
    requires q.dispatch != []
  {
    q.(dispatch := q.dispatch[0 := q.dispatch[0].(started := true)])
  }

  lemma MarkedShape(q: Queue)
    requires Places(q.dispatch, q.held, q.driver, OrigNames(q.orig))
    requires BarrierLine(q.book, q.dispatch, Lowest(q.orig, q.ended), q.epoch)
    requires q.dispatch != [] && !UserBarrier(q.dispatch[0])
    ensures var q' := Marked(q);
      && Places(q'.dispatch, q'.held, q'.driver, OrigNames(q'.orig))
      && BarrierLine(q'.book, q'.dispatch, Lowest(q'.orig, q'.ended), q'.epoch)
      && NamesOf(q'.dispatch) == NamesOf(q.dispatch)
  {
    var r := q.dispatch[0].(started := true);
    UpdateHead(q.dispatch, r);
    UpdateLine(q.book, q.dispatch, r, Lowest(q.orig, q.ended), q.epoch);
  }

  lemma MarkedKinds(q: Queue)
    requires Kinds(q) && q.dispatch != [] && !UserBarrier(q.dispatch[0])
    ensures Kinds(Marked(q))
  {
    var r := q.dispatch[0].(started := true);
    assert DispatchKind(q.book, q.dispatch[0]);
    assert DispatchKind(q.book, r);
    UpdateHead(q.dispatch, r);
  }

  lemma MarkedErrors(q: Queue)
    requires Errors(q.book, q.dispatch, q.log) && q.dispatch != [] && !UserBarrier(q.dispatch[0])
    ensures Errors(q.book, Marked(q).dispatch, q.log)
  {
    UpdateHead(q.dispatch, q.dispatch[0].(started := true));
  }

  lemma MarkedInv(q: Queue)
    requires Inv(q) && q.dispatch != [] && !UserBarrier(q.dispatch[0])
    ensures Inv(Marked(q))
  {
    MarkedShape(q);
    MarkedKinds(q);
    MarkedErrors(q);
  }

  lemma QuietInv(q: Queue, e: Event)
    requires Inv(q)
    requires e.Issued? || e.ProxyIssued? || e.Warn?
    ensures Inv(Emit(q, e))
  {
    QuietRecords(q, e);
  }

  lemma PeekInv(q: Queue)
    requires Inv(q) && q.dispatch != [] && Passes(q, q.dispatch[0])
    ensures Inv(PeekHead(q))
    ensures !UserBarrier(q.dispatch[0])
  {
    PassesNoBarrier(q);
    MarkedInv(q);
    var r := q.dispatch[0];
    if Warns(q, r) {
      QuietInv(Marked(q), Warn);
      QuietInv(Emit(Marked(q), Warn), IssueEvent(q, r));
    } else {
      QuietInv(Marked(q), IssueEvent(q, r));
    }
  }

  lemma FsAdd(driver: map<Name, Request>, r: Request)
    requires r.name !in driver
    ensures |FsNames(driver[r.name := r])| == |FsNames(driver)| + if r.fs then 1 else 0
  {
    assert FsNames(driver[r.name := r]) == FsNames(driver) + if r.fs then {r.name} else {};
  }

  lemma FsRemove(driver: map<Name, Request>, n: Name)
    requires n in driver
    ensures |FsNames(driver - {n})| == |FsNames(driver)| - if driver[n].fs then 1 else 0
  {
    assert FsNames(driver) == FsNames(driver - {n}) + if driver[n].fs then {n} else {};
  }

  lemma StartHeadShape(q: Queue)
    requires Places(q.dispatch, q.held, q.driver, OrigNames(q.orig))
    requires ProxiesPending(NamesOf(q.dispatch) + q.driver.Keys, q.ordseq)
    requires BarrierLine(q.book, q.dispatch, Lowest(q.orig, q.ended), q.epoch)
    requires q.dispatch != [] && !UserBarrier(q.dispatch[0])
    ensures var q' := StartHead(q);
      && Places(q'.dispatch, q'.held, q'.driver, OrigNames(q'.orig))
      && ProxiesPending(NamesOf(q'.dispatch) + q'.driver.Keys, q'.ordseq)
      && BarrierLine(q'.book, q'.dispatch, Lowest(q'.orig, q'.ended), q'.epoch)
      && LiveNames(q') == LiveNames(q)
  {
    HeadNames(q.dispatch);
    DropLine(q.book, q.dispatch, Lowest(q.orig, q.ended), q.epoch);
    var q' := StartHead(q);
    assert NamesOf(q'.dispatch) + q'.driver.Keys == NamesOf(q.dispatch) + q.driver.Keys;
  }

  lemma StartHeadKinds(q: Queue)
    requires Kinds(q) && q.dispatch != [] && q.dispatch[0].started && !UserBarrier(q.dispatch[0])
    ensures Kinds(StartHead(q))
  {
    HeadNames(q.dispatch);
    assert DispatchKind(q.book, q.dispatch[0]);
    assert DriverKind(q.book, q.dispatch[0]);
  }

  lemma StartHeadCount(q: Queue)
    requires Places(q.dispatch, q.held, q.driver, OrigNames(q.orig))
    requires q.inFlight == |FsNames(q.driver)| && q.dispatch != [] && q.dispatch[0].started
    ensures StartHead(q).inFlight == |FsNames(StartHead(q).driver)|
  {
    HeadNames(q.dispatch);
    FsAdd(q.driver, q.dispatch[0]);
  }

  lemma StartHeadErrors(q: Queue)
    requires Errors(q.book, q.dispatch, q.log) && q.dispatch != []
    ensures Errors(q.book, q.dispatch[1..], q.log)
  {
    HeadNames(q.dispatch);
  }

  lemma StartHeadInv(q: Queue)
    requires Inv(q) && q.dispatch != [] && q.dispatch[0].started && !UserBarrier(q.dispatch[0])
    ensures Inv(StartHead(q))
  {
    StartHeadShape(q);
    StartHeadKinds(q);
    StartHeadCount(q);
    StartHeadErrors(q);
  }

  // ----- requeue -----

  lemma RequeueShape(q: Queue, n: Name)
    requires Places(q.dispatch, q.held, q.driver, OrigNames(q.orig))
    requires ProxiesPending(NamesOf(q.dispatch) + q.driver.Keys, q.ordseq)
    requires n in q.driver
    ensures var q' := RequeueRequest(q, n);
      && Places(q'.dispatch, q'.held, q'.driver, OrigNames(q'.orig))
      && ProxiesPending(NamesOf(q'.dispatch) + q'.driver.Keys, q'.ordseq)
      && LiveNames(q') == LiveNames(q)
  {
    var p, r := RequeuePos(q, q.driver[n]), q.driver[n].(started := false, soft := true);
    InsertNames(q.dispatch, p, r);
    InsertDistinct(q.dispatch, p, r);
    var q' := RequeueRequest(q, n);
    assert NamesOf(q'.dispatch) + q'.driver.Keys == NamesOf(q.dispatch) + q.driver.Keys;
  }

  lemma RequeueKinds(q: Queue, n: Name)
    requires Kinds(q) && n in q.driver
    ensures Kinds(RequeueRequest(q, n))
    ensures !UserBarrier(q.driver[n]) && q.driver[n].started
  {
    var p, r := RequeuePos(q, q.driver[n]), q.driver[n].(started := false, soft := true);
    InsertNames(q.dispatch, p, r);
    assert DriverKind(q.book, q.driver[n]);
    assert DispatchKind(q.book, r);
  }

  /** A special request that is requeued goes to the front, so that it never waits behind the ordering. */
  lemma SpecialToFront(q: Queue, r: Request)
    requires r.name.User? && !r.fs
    ensures RequeuePos(q, r) == 0
  {
  }

  lemma RequeueInv(q: Queue, n: Name)
    requires Inv(q) && n in q.driver
    ensures Inv(RequeueRequest(q, n))
  {
    RequeueShape(q, n);
    RequeueKinds(q, n);
    FsRemove(q.driver, n);
    var p, r := RequeuePos(q, q.driver[n]), q.driver[n].(started := false, soft := true);
    InsertLine(q.book, q.dispatch, p, r, Lowest(q.orig, q.ended), q.epoch);
    InsertErrors(q.book, q.dispatch, p, r, q.log);
  }

  // ----- completion -----

  lemma RecordErrorInv(q: Queue, error: int)
    requires Inv(q) && BarRq in q.driver && error != 0
    ensures Inv(RecordError(q, error))
  {
    RecordErrorRecords(q, error);
  }

  lemma RecordErrorRecords(q: Queue, error: int)
    requires Records(q) && error != 0
    requires Places(q.dispatch, q.held, q.driver, OrigNames(q.orig)) && Kinds(q)
    requires ProxiesPending(NamesOf(q.dispatch) + q.driver.Keys, q.ordseq) && BarRq in q.driver
    requires Configuration(q.next, q.ordered, q.ordseq, q.orig)
    ensures Records(RecordError(q, error))
  {
    LogSnoc(q.log, BarError(OrigId(q), error));
    assert Pending(q.ordseq, BarRq);
    OrigApart(q);
    assert Errors(q.book, q.dispatch, RecordError(q, error).log);
  }

  /** No queued barrier has the name of the barrier in progress. */
  lemma OrigApart(q: Queue)
    requires Places(q.dispatch, q.held, q.driver, OrigNames(q.orig)) && OrigKind(q.book, q.orig) && q.orig.Some?
    ensures q.orig.value.name == User(OrigId(q)) && OrigId(q) < |q.book|
    ensures forall r :: r in q.dispatch ==> r.name != User(OrigId(q))
  {
    assert forall r :: r in q.dispatch ==> r.name in NamesOf(q.dispatch);
  }

  /** The driver gives back request `n`: gone from the driver, reported in the log. */
  ghost function Released(q: Queue, n: Name, e: Event): Queue
    requires n in q.driver
  {
    Emit(q.(driver := q.driver - {n}, inFlight := if q.driver[n].Accounted() then q.inFlight - 1 else q.inFlight), e)
  }

  lemma ReleasedPlaces(q: Queue, n: Name, e: Event)
    requires Places(q.dispatch, q.held, q.driver, OrigNames(q.orig)) && n in q.driver
    ensures var q' := Released(q, n, e);
      && Places(q'.dispatch, q'.held, q'.driver, OrigNames(q'.orig))
      && LiveNames(q') == LiveNames(q) - {n}
      && NamesOf(q'.dispatch) + q'.driver.Keys == NamesOf(q.dispatch) + q.driver.Keys - {n}
  {
  }

  lemma ReleasedKinds(q: Queue, n: Name, e: Event)
    requires Kinds(q) && n in q.driver
    ensures Kinds(Released(q, n, e))
    ensures q.driver[n].started
  {
    assert DriverKind(q.book, q.driver[n]);
  }

  lemma FinishedRecords(q: Queue, n: Name)
    requires Records(q) && n in q.driver && n.User? && DriverKinds(q.book, q.driver) && Keyed(q.driver)
    requires LiveNames(Released(q, n, Finished(n.id))) == LiveNames(q) - {n}
    ensures Records(Released(q, n, Finished(n.id)))
  {
    assert DriverKind(q.book, q.driver[n]);
    LogSnoc(q.log, Finished(n.id));
  }

  lemma ReleasedUserInv(q: Queue, n: Name)
    requires Inv(q) && n in q.driver && n.User?
    ensures Inv(Released(q, n, Finished(n.id)))
    ensures q.driver[n].started
  {
    ReleasedPlaces(q, n, Finished(n.id));
    ReleasedKinds(q, n, Finished(n.id));
    FinishedRecords(q, n);
    FsRemove(q.driver, n);
  }

  /** Setting the drain bit touches nothing else. */
  lemma DrainBitInv(q: Queue)
    requires Inv(q) && q.ordseq.started
    ensures InvOpen(q.(ordseq := Or(q.ordseq, DrainBit)))
  {
    var o := Or(q.ordseq, DrainBit);
    assert forall n :: Pending(o, n) == Pending(q.ordseq, n);
  }

  lemma CompletedInv(q: Queue)
    requires Inv(q) && DrainComplete(q)
    ensures Inv(CompleteSeq(q, DrainBit, 0))
  {
    DrainBitInv(q);
    SettleInv(q.(ordseq := Or(q.ordseq, DrainBit)));
    assert CompleteSeq(q, DrainBit, 0) == Settle(q.(ordseq := Or(q.ordseq, DrainBit)));
  }

  lemma CompleteUserInv(q: Queue, n: Name, error: int)
    requires Inv(q) && n in q.driver && n.User?
    ensures Inv(CompleteRequest(q, n, error))
  {
    ReleasedUserInv(q, n);
    var q1 := Released(q, n, Finished(n.id));
    if DrainComplete(q1) {
      CompletedInv(q1);
    }
  }

  // ----- completion of a proxy -----

  /** The state a completed proxy leads to before it settles. */
  ghost function Staged(q: Queue, n: Name, error: int): Queue
    requires n in q.driver
  {
    var q1 := Released(q, n, ProxyFinished(OrigId(q), n, error));
    var o := if DrainComplete(q1) then Or(q.ordseq, DrainBit) else q.ordseq;
    q1.(ordseq := Or(o, StageBit(n)), orderr := if error != 0 && q.orderr == 0 then error else q.orderr)
  }

  /** The stage of a proxy held by the driver has not completed before. */
  lemma StageOpen(q: Queue, n: Name)
    requires ProxiesPending(NamesOf(q.dispatch) + q.driver.Keys, q.ordseq) && n in q.driver && !n.User?
    ensures Pending(q.ordseq, n)
    ensures !Overlap(q.ordseq, StageBit(n)) && !Overlap(Or(q.ordseq, DrainBit), StageBit(n))
    ensures CurSeq(q.ordseq) != DONE && CurSeq(Or(q.ordseq, DrainBit)) != DONE
  {
    assert n in NamesOf(q.dispatch) + q.driver.Keys;
  }

  lemma StagedSettles(q: Queue, n: Name, error: int)
    requires ProxiesPending(NamesOf(q.dispatch) + q.driver.Keys, q.ordseq) && n in q.driver && !n.User?
    ensures CompleteRequest(q, n, error) == Settle(Staged(q, n, error))
  {
    StageOpen(q, n);
    var q1 := Released(q, n, ProxyFinished(OrigId(q), n, error));
    var q2 := if DrainComplete(q1) then q1.(ordseq := Or(q1.ordseq, DrainBit)) else q1;
    assert CompletedRequest(Emit(q.(driver := q.driver - {n}), ProxyFinished(OrigId(q), n, error)), q.driver[n]) == q2;
  }

  lemma StagedSequence(q: Queue, n: Name, error: int)
    requires Places(q.dispatch, q.held, q.driver, OrigNames(q.orig))
    requires ProxiesPending(NamesOf(q.dispatch) + q.driver.Keys, q.ordseq) && n in q.driver && !n.User?
    requires Configuration(q.next, q.ordered, q.ordseq, q.orig)
    ensures var q' := Staged(q, n, error);
      && ProxiesPending(NamesOf(q'.dispatch) + q'.driver.Keys, q'.ordseq)
      && Configuration(q'.next, q'.ordered, q'.ordseq, q'.orig)
  {
    ReleasedPlaces(q, n, ProxyFinished(OrigId(q), n, error));
    StageOpen(q, n);
    var q' := Staged(q, n, error);
    assert forall m :: Pending(q'.ordseq, m) <==> Pending(q.ordseq, m) && m != n;
  }

  lemma StagedRecords(q: Queue, n: Name, error: int)
    requires Places(q.dispatch, q.held, q.driver, OrigNames(q.orig)) && OrigKind(q.book, q.orig)
    requires ProxiesPending(NamesOf(q.dispatch) + q.driver.Keys, q.ordseq) && n in q.driver && !n.User?
    requires Configuration(q.next, q.ordered, q.ordseq, q.orig)
    requires Records(q)
    ensures Records(Staged(q, n, error))
  {
    StageOpen(q, n);
    OrigApart(q);
    var b, q' := OrigId(q), Staged(q, n, error);
    var e := ProxyFinished(b, n, error);
    ReleasedPlaces(q, n, e);
    LogSnoc(q.log, e);
    ProxyDoneSnoc(q.log, e, b, n);
    assert Errors(q'.book, q'.dispatch, q'.log);
    assert Tracked(LiveNames(q'), q'.book, q'.log);
    assert forall m :: Pending(q'.ordseq, m) <==> Pending(q.ordseq, m) && m != n;
    assert Progress(q'.ordered, q'.ordseq, q'.orderr, b, q'.log);
  }

  lemma StagedInv(q: Queue, n: Name, error: int)
    requires Inv(q) && n in q.driver && !n.User?
    ensures InvOpen(Staged(q, n, error))
  {
    var e := ProxyFinished(OrigId(q), n, error);
    ReleasedPlaces(q, n, e);
    ReleasedKinds(q, n, e);
    FsRemove(q.driver, n);
    StagedSequence(q, n, error);
    StagedRecords(q, n, error);
  }

  lemma CompleteProxyInv(q: Queue, n: Name, error: int)
    requires Inv(q) && n in q.driver && !n.User?
    ensures Inv(CompleteRequest(q, n, error))
  {
    StagedInv(q, n, error);
    StagedSettles(q, n, error);
    SettleInv(Staged(q, n, error));
  }

  // ----- all steps, all runs -----

  lemma StepInv(q: Queue, step: Step)
    requires Inv(q) && Enabled(q, step)
    ensures Inv(Apply(q, step))
  {
    match step
    case AddSort => AddSortInv(q);
    case AddBack(k) => AddBackInv(q, k);
    case AddFront => AddFrontInv(q);
    case Dispatch(n, p) => DispatchInv(q, n, p);
    case StartOrdered =>
      HeadBarrier(q);
      if q.next != Unordered { StartSequenceInv(q); } else { RejectInv(q); }
    case Peek => PeekInv(q);
    case Fetch =>
      PeekInv(q);
      StartHeadInv(PeekHead(q));
    case Requeue(n) => RequeueInv(q, n);
    case PartialBar(e) => RecordErrorInv(q, e);
    case Complete(n, e) =>
      if n.User? { CompleteUserInv(q, n, e); } else { CompleteProxyInv(q, n, e); }
  }

  /** While no sequence runs, a barrier at the head is a user's. */
  lemma HeadBarrier(q: Queue)
    requires Inv(q) && q.ordseq == Idle && q.dispatch != [] && q.dispatch[0].Barrier()
    ensures UserBarrier(q.dispatch[0])
  {
    var n := q.dispatch[0].name;
    assert n in NamesOf(q.dispatch) + q.driver.Keys;
    assert !Pending(q.ordseq, n);
  }

  lemma RunInv(q: Queue, steps: seq<Step>)
    requires Inv(q) && Feasible(q, steps)
    ensures Inv(Run(q, steps))
    decreases |steps|
  {
    if steps != [] {
      StepInv(q, steps[0]);
      RunInv(Apply(q, steps[0]), steps[1..]);
    }
  }

  lemma RunSnoc(q: Queue, steps: seq<Step>, step: Step)
    requires Feasible(q, steps) && Enabled(Run(q, steps), step)
    ensures Feasible(q, steps + [step]) && Run(q, steps + [step]) == Apply(Run(q, steps), step)
    decreases |steps|
  {
    if steps == [] {
      assert steps + [step] == [step];
    } else {
      assert (steps + [step])[1..] == steps[1..] + [step];
      RunSnoc(Apply(q, steps[0]), steps[1..], step);
    }
  }

  lemma RunAppend(q: Queue, steps: seq<Step>, more: seq<Step>)
    requires Feasible(q, steps) && Feasible(Run(q, steps), more)
    ensures Feasible(q, steps + more) && Run(q, steps + more) == Run(Run(q, steps), more)
    decreases |steps|
  {
    if steps == [] {
      assert steps + more == more;
    } else {
      assert (steps + more)[1..] == steps[1..] + more;
      RunAppend(Apply(q, steps[0]), steps[1..], more);
    }
  }
}
