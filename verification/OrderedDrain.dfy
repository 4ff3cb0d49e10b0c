/** What every step keeps on a queue that orders by draining. */
module OrderedDrain {
  import opened Ordered
  import opened OrderedInvariant
  import opened OrderedSteps

  /** The place of a request in the order in which the queue must serve it. */
  ghost function Key(book: seq<Entry>, r: Request, active: bool, ended: nat): int {
    match r.name
    case PreFlushRq => PREFLUSH
    case BarRq => BAR
    case PostFlushRq => POSTFLUSH
    case User(_) =>
      var e := EpochOf(book, r);
      if active && e == ended then DRAIN
      else DONE + 2 * (e - ended) + if r.hard then 1 else 0
  }

  /** Apart from special requests, the dispatch queue is in serving order. */
  ghost predicate Sorted(book: seq<Entry>, d: seq<Request>, active: bool, ended: nat) {
    forall i, j :: 0 <= i < j < |d| && !d[i].Free() && !d[j].Free() ==>
      Key(book, d[i], active, ended) <= Key(book, d[j], active, ended)
  }

  ghost predicate HeldNewest(book: seq<Entry>, held: map<Name, Request>, epoch: nat) {
    forall n :: n in held ==> EpochOf(book, held[n]) == epoch
  }

  /** Fs requests in the driver precede the oldest barrier; once drained there are none. */
  ghost predicate DriverOldest(book: seq<Entry>, driver: map<Name, Request>, o: Ordseq, ended: nat) {
    forall n :: n in driver && UserFs(driver[n]) ==> EpochOf(book, driver[n]) == ended && !o.drain
  }

  /** A proxy is in the driver only when every earlier stage is complete. */
  ghost predicate Stages(driver: set<Name>, o: Ordseq) {
    var holds :=
      && (PreFlushRq in driver ==> o.drain)
      && (BarRq in driver ==> o.drain && o.pre)
      && (PostFlushRq in driver ==> o.drain && o.pre && o.bar);
    holds
  }

  ghost predicate QueuedOld(book: seq<Entry>, r: Request, o: Ordseq, ended: nat) {
    && (r.Free() ==> r.soft)
    && (UserFs(r) ==> EpochOf(book, r) >= ended && (o.started && EpochOf(book, r) == ended ==> r.soft && !o.drain))
  }

  /** Queued requests that precede the barrier in progress were requeued, and only before the drain. */
  ghost predicate DispatchOld(book: seq<Entry>, d: seq<Request>, o: Ordseq, ended: nat) {
    forall r :: r in d ==> QueuedOld(book, r, o, ended)
  }

  /** While the queue drains, something is in the driver or may be issued. */
  ghost predicate Draining(q: Queue) {
    q.ordseq.started && !q.ordseq.drain ==>
      q.driver != map[] || (q.dispatch != [] && ReqSeq(q, q.dispatch[0]) <= DRAIN)
  }

  ghost predicate DrainOpen(q: Queue) {
    var holds :=
      && q.next.byDrain
      && HeldNewest(q.book, q.held, q.epoch)
      && DriverOldest(q.book, q.driver, q.ordseq, q.ended)
      && Stages(q.driver.Keys, q.ordseq)
      && Sorted(q.book, q.dispatch, q.orig.Some?, q.ended)
      && DispatchOld(q.book, q.dispatch, q.ordseq, q.ended);
    holds
  }

  ghost predicate Drain(q: Queue) { DrainOpen(q) && Draining(q) }

  lemma InitDrain(m: Method)
    requires m.byDrain
    ensures Drain(Init(m))
  {
  }

  // ----- the head of the queue -----

  /** The head is not younger than the oldest barrier still queued. */
  lemma HeadEpoch(q: Queue)
    requires q.dispatch != [] && UserFs(q.dispatch[0])
    requires Epochs(q.book, q.epoch, q.ordcolor) && DispatchKinds(q.book, q.dispatch)
    requires BarrierLine(q.book, q.dispatch, Lowest(q.orig, q.ended), q.epoch)
    requires Sorted(q.book, q.dispatch, q.orig.Some?, q.ended)
    ensures EpochOf(q.book, q.dispatch[0]) <= Lowest(q.orig, q.ended)
  {
    var d, lo := q.dispatch, Lowest(q.orig, q.ended);
    assert DispatchKind(q.book, d[0]);
    if lo < q.epoch {
      assert HasBarrier(q.book, d, lo);
      var i :| 0 <= i < |d| && UserBarrier(d[i]) && EpochOf(q.book, d[i]) == lo;
    }
  }

  /** What the colour test says about the head while a sequence runs. */
  lemma HeadSeq(q: Queue)
    requires q.dispatch != [] && !q.dispatch[0].Free() && q.orig.Some?
    requires Kinds(q) && OrigEpoch(q.book, q.orig, q.ended)
    requires BarrierLine(q.book, q.dispatch, Lowest(q.orig, q.ended), q.epoch)
    requires Sorted(q.book, q.dispatch, q.orig.Some?, q.ended)
    requires DispatchOld(q.book, q.dispatch, q.ordseq, q.ended)
    ensures var r := q.dispatch[0];
      ReqSeq(q, r) == if r.name.User? && EpochOf(q.book, r) > q.ended then DONE else Key(q.book, r, true, q.ended)
  {
    assert DispatchKind(q.book, q.dispatch[0]);
    assert QueuedOld(q.book, q.dispatch[0], q.ordseq, q.ended);
    if q.dispatch[0].name.User? {
      HeadEpoch(q);
    }
  }

  /** The request that gets through on a draining queue. */
  lemma PassesOldest(q: Queue)
    requires q.dispatch != [] && Passes(q, q.dispatch[0]) && CurSeq(q.ordseq) != DONE
    requires Kinds(q) && OrigEpoch(q.book, q.orig, q.ended)
    requires ProxiesPending(NamesOf(q.dispatch) + q.driver.Keys, q.ordseq)
    requires Configuration(q.next, q.ordered, q.ordseq, q.orig) && q.next.byDrain
    requires BarrierLine(q.book, q.dispatch, Lowest(q.orig, q.ended), q.epoch)
    requires Sorted(q.book, q.dispatch, q.orig.Some?, q.ended)
    requires DispatchOld(q.book, q.dispatch, q.ordseq, q.ended)
    ensures var r := q.dispatch[0];
      && !Warns(q, r)
      && (UserFs(r) ==> EpochOf(q.book, r) == q.ended && !q.ordseq.drain)
      && Stages({r.name}, q.ordseq)
  {
    var r := q.dispatch[0];
    PassesNoBarrier(q);
    assert r.name in NamesOf(q.dispatch) + q.driver.Keys;
    assert QueuedOld(q.book, r, q.ordseq, q.ended);
    assert DispatchKind(q.book, r);
    if q.ordseq == Idle {
      if UserFs(r) { HeadEpoch(q); }
    } else if !r.Free() {
      HeadSeq(q);
    }
  }

  // ----- submission -----

  lemma BookFrame(q: Queue, e: Entry)
    requires Kinds(q) && DrainOpen(q)
    ensures var book' := q.book + [e];
      && HeldNewest(book', q.held, q.epoch)
      && DriverOldest(book', q.driver, q.ordseq, q.ended)
      && Sorted(book', q.dispatch, q.orig.Some?, q.ended)
      && DispatchOld(book', q.dispatch, q.ordseq, q.ended)
  {
    var book' := q.book + [e];
    Append(q.book, e);
    forall n | n in q.held ensures EpochOf(book', q.held[n]) == q.epoch { assert HeldKind(q.book, q.held[n]); }
    forall n | n in q.driver ensures EpochOf(book', q.driver[n]) == EpochOf(q.book, q.driver[n]) {
      assert DriverKind(q.book, q.driver[n]);
    }
    forall r | r in q.dispatch ensures EpochOf(book', r) == EpochOf(q.book, r) { assert DispatchKind(q.book, r); }
    forall r | r in q.dispatch ensures QueuedOld(book', r, q.ordseq, q.ended) {
      assert QueuedOld(q.book, r, q.ordseq, q.ended);
    }
    forall i | 0 <= i < |q.dispatch|
      ensures Key(book', q.dispatch[i], q.orig.Some?, q.ended) == Key(q.book, q.dispatch[i], q.orig.Some?, q.ended)
    {
      assert q.dispatch[i] in q.dispatch;
    }
  }

  lemma AddSortDrain(q: Queue)
    requires Inv(q) && Drain(q)
    ensures Drain(SortRequest(q))
  {
    SortDrains(q);
  }

  lemma SortDrains(q: Queue)
    requires Kinds(q) && Drain(q)
    ensures Drain(SortRequest(q))
  {
    var e := Entry(Plain, q.epoch);
    BookFrame(q, e);
    HeldAdd(q.book + [e], q.held, q.epoch, NewRequest(q, Plain, false));
  }

  lemma HeldAdd(book: seq<Entry>, held: map<Name, Request>, epoch: nat, r: Request)
    requires HeldNewest(book, held, epoch) && EpochOf(book, r) == epoch
    ensures HeldNewest(book, held[r.name := r], epoch)
  {
  }

  /** Inserting a request where its key fits keeps the order. */
  lemma SortedInsert(book: seq<Entry>, d: seq<Request>, p: nat, r: Request, active: bool, ended: nat)
    requires p <= |d| && Sorted(book, d, active, ended)
    requires r.Free() || (
      && (forall i :: 0 <= i < p && !d[i].Free() ==> Key(book, d[i], active, ended) <= Key(book, r, active, ended))
      && (forall i :: p <= i < |d| && !d[i].Free() ==> Key(book, r, active, ended) <= Key(book, d[i], active, ended)))
    ensures Sorted(book, InsertAt(d, p, r), active, ended)
  {
    var d' := InsertAt(d, p, r);
    assert forall i :: 0 <= i < p ==> d'[i] == d[i];
    assert forall i :: p < i < |d'| ==> d'[i] == d[i - 1];
  }

  lemma InsertOld(book: seq<Entry>, d: seq<Request>, p: nat, r: Request, o: Ordseq, ended: nat)
    requires p <= |d| && DispatchOld(book, d, o, ended) && QueuedOld(book, r, o, ended)
    ensures DispatchOld(book, InsertAt(d, p, r), o, ended)
  {
    InsertNames(d, p, r);
  }

  /** A request just submitted comes last in the serving order. */
  lemma NewestKey(book: seq<Entry>, epoch: nat, color: bool, ended: nat, active: bool, r: Request, s: Request)
    requires Epochs(book, epoch, color) && WellFormed(book, r) && !r.Free()
    requires UserFs(s) && EpochOf(book, s) == epoch && ended <= epoch && (active ==> ended < epoch)
    ensures Key(book, r, active, ended) <= Key(book, s, active, ended)
  {
  }

  lemma BackKeys(q: Queue, k: Kind)
    requires Kinds(q) && BarrierLine(q.book, q.dispatch, Lowest(q.orig, q.ended), q.epoch) && IsFs(k)
    ensures var book', s := q.book + [Entry(k, q.epoch)], NewRequest(q, k, true);
      forall i :: 0 <= i < |q.dispatch| && !q.dispatch[i].Free() ==>
        Key(book', q.dispatch[i], q.orig.Some?, q.ended) <= Key(book', s, q.orig.Some?, q.ended)
  {
    var d, book', s := q.dispatch, q.book + [Entry(k, q.epoch)], NewRequest(q, k, true);
    Append(q.book, Entry(k, q.epoch));
    forall i | 0 <= i < |d| && !d[i].Free()
      ensures Key(book', d[i], q.orig.Some?, q.ended) <= Key(book', s, q.orig.Some?, q.ended)
    {
      assert DispatchKind(q.book, d[i]);
      BackKey(q, k, d[i]);
    }
  }

  lemma BackKey(q: Queue, k: Kind, r: Request)
    requires Epochs(q.book, q.epoch, q.ordcolor) && WellFormed(q.book, r) && !r.Free()
    requires Lowest(q.orig, q.ended) <= q.epoch && IsFs(k)
    ensures var book', s := q.book + [Entry(k, q.epoch)], NewRequest(q, k, true);
      Key(book', r, q.orig.Some?, q.ended) <= Key(book', s, q.orig.Some?, q.ended)
  {
  }

  lemma BackSorted(q: Queue, k: Kind)
    requires Kinds(q) && BarrierLine(q.book, q.dispatch, Lowest(q.orig, q.ended), q.epoch)
    requires Sorted(q.book + [Entry(k, q.epoch)], q.dispatch, q.orig.Some?, q.ended)
    requires DispatchOld(q.book + [Entry(k, q.epoch)], q.dispatch, q.ordseq, q.ended)
    requires q.ordseq.started ==> q.orig.Some?
    ensures var q' := BackRequest(q, k);
      && Sorted(q'.book, q'.dispatch, q'.orig.Some?, q'.ended)
      && DispatchOld(q'.book, q'.dispatch, q'.ordseq, q'.ended)
  {
    var s, d, q' := NewRequest(q, k, true), q.dispatch, BackRequest(q, k);
    assert q'.dispatch == InsertAt(d, |d|, s);
    if IsFs(k) { BackKeys(q, k); }
    SortedInsert(q'.book, d, |d|, s, q.orig.Some?, q.ended);
    InsertOld(q'.book, d, |d|, s, q.ordseq, q.ended);
  }

  lemma BackDraining(q: Queue, k: Kind)
    requires Draining(q)
    ensures Draining(BackRequest(q, k))
  {
  }

  lemma AddBackDrain(q: Queue, k: Kind)
    requires Inv(q) && Drain(q) && q.held == map[]
    ensures Drain(BackRequest(q, k))
  {
    BookFrame(q, Entry(k, q.epoch));
    BackSorted(q, k);
    BackDraining(q, k);
  }

  lemma FrontSorted(q: Queue)
    requires Sorted(q.book + [Entry(Special, q.epoch)], q.dispatch, q.orig.Some?, q.ended)
    requires DispatchOld(q.book + [Entry(Special, q.epoch)], q.dispatch, q.ordseq, q.ended)
    ensures var q' := FrontRequest(q);
      && Sorted(q'.book, q'.dispatch, q'.orig.Some?, q'.ended)
      && DispatchOld(q'.book, q'.dispatch, q'.ordseq, q'.ended)
      && Draining(q')
  {
    var s, d, q' := NewRequest(q, Special, true), q.dispatch, FrontRequest(q);
    assert q'.dispatch == InsertAt(d, 0, s);
    SortedInsert(q'.book, d, 0, s, q.orig.Some?, q.ended);
    InsertOld(q'.book, d, 0, s, q.ordseq, q.ended);
  }

  lemma AddFrontDrain(q: Queue)
    requires Inv(q) && Drain(q)
    ensures Drain(FrontRequest(q))
  {
    BookFrame(q, Entry(Special, q.epoch));
    FrontSorted(q);
  }

  // ----- dispatch by the scheduler -----

  /** Behind the last fence only requests of the newest epoch remain. */
  lemma TailNewest(q: Queue, p: nat, j: nat)
    requires p <= j < |q.dispatch| && !q.dispatch[j].Free()
    requires forall i :: p <= i < |q.dispatch| ==> !q.dispatch[i].Fenced()
    requires Kinds(q) && BarrierLine(q.book, q.dispatch, Lowest(q.orig, q.ended), q.epoch)
    requires Sorted(q.book, q.dispatch, q.orig.Some?, q.ended)
    requires DispatchOld(q.book, q.dispatch, q.ordseq, q.ended)
    requires q.ordseq.started <==> q.orig.Some?
    ensures UserFs(q.dispatch[j]) && EpochOf(q.book, q.dispatch[j]) == q.epoch
  {
    var d, r := q.dispatch, q.dispatch[j];
    assert DispatchKind(q.book, r) && QueuedOld(q.book, r, q.ordseq, q.ended);
    var e := EpochOf(q.book, r);
    assert Lowest(q.orig, q.ended) <= e;
    assert e < q.epoch ==> HasBarrier(q.book, d, e);
  }

  lemma DispatchSorted(q: Queue, n: Name, p: nat)
    requires n in q.held && p <= |q.dispatch| && forall i :: p <= i < |q.dispatch| ==> !q.dispatch[i].Fenced()
    requires Kinds(q) && BarrierLine(q.book, q.dispatch, Lowest(q.orig, q.ended), q.epoch)
    requires HeldNewest(q.book, q.held, q.epoch)
    requires Sorted(q.book, q.dispatch, q.orig.Some?, q.ended)
    requires DispatchOld(q.book, q.dispatch, q.ordseq, q.ended)
    requires q.ordseq.started <==> q.orig.Some?
    ensures var q' := DispatchRequest(q, n, p);
      && Sorted(q'.book, q'.dispatch, q'.orig.Some?, q'.ended)
      && DispatchOld(q'.book, q'.dispatch, q'.ordseq, q'.ended)
  {
    var d, r := q.dispatch, q.held[n];
    assert HeldKind(q.book, r);
    forall i | 0 <= i < |d| && !d[i].Free()
      ensures Key(q.book, d[i], q.orig.Some?, q.ended) <= Key(q.book, r, q.orig.Some?, q.ended)
    {
      assert DispatchKind(q.book, d[i]);
      NewestKey(q.book, q.epoch, q.ordcolor, q.ended, q.orig.Some?, d[i], r);
    }
    forall j | p <= j < |d| && !d[j].Free()
      ensures Key(q.book, r, q.orig.Some?, q.ended) <= Key(q.book, d[j], q.orig.Some?, q.ended)
    {
      TailNewest(q, p, j);
    }
    SortedInsert(q.book, d, p, r, q.orig.Some?, q.ended);
    InsertOld(q.book, d, p, r, q.ordseq, q.ended);
  }

  lemma DispatchDraining(q: Queue, n: Name, p: nat)
    requires n in q.held && p <= |q.dispatch| && forall i :: p <= i < |q.dispatch| ==> !q.dispatch[i].Fenced()
    requires Kinds(q) && OrigEpoch(q.book, q.orig, q.ended)
    requires BarrierLine(q.book, q.dispatch, Lowest(q.orig, q.ended), q.epoch)
    requires Sorted(q.book, q.dispatch, q.orig.Some?, q.ended)
    requires DispatchOld(q.book, q.dispatch, q.ordseq, q.ended)
    requires q.ordseq.started <==> q.orig.Some?
    requires Draining(q)
    ensures Draining(DispatchRequest(q, n, p))
  {
    if q.ordseq.started && !q.ordseq.drain && q.driver == map[] {
      var r := q.dispatch[0];
      assert QueuedOld(q.book, r, q.ordseq, q.ended);
      if !r.Free() { HeadSeq(q); }
    }
  }

  lemma DispatchDrain(q: Queue, n: Name, p: nat)
    requires Inv(q) && Drain(q) && Enabled(q, Dispatch(n, p))
    ensures Drain(DispatchRequest(q, n, p))
  {
    DispatchSorted(q, n, p);
    DispatchDraining(q, n, p);
  }

  // ----- starting and closing a sequence -----

  lemma StartTail(q: Queue, j: nat)
    requires 0 < j < |q.dispatch| && UserBarrier(q.dispatch[0]) && UserFs(q.dispatch[j]) && q.orig.None?
    requires DispatchKinds(q.book, q.dispatch)
    requires BarrierLine(q.book, q.dispatch, Lowest(q.orig, q.ended), q.epoch)
    requires Sorted(q.book, q.dispatch, q.orig.Some?, q.ended)
    requires DispatchOld(q.book, q.dispatch, q.ordseq, q.ended)
    ensures EpochOf(q.book, q.dispatch[j]) > q.ended
  {
    HeadLine(q.book, q.dispatch, q.ended, q.epoch);
    assert QueuedOld(q.book, q.dispatch[j], q.ordseq, q.ended);
    assert DispatchKind(q.book, q.dispatch[j]) && DispatchKind(q.book, q.dispatch[0]);
  }

  lemma StartSorted(q: Queue)
    requires q.dispatch != [] && UserBarrier(q.dispatch[0]) && q.orig.None?
    requires ProxiesPending(NamesOf(q.dispatch) + q.driver.Keys, Idle)
    requires DispatchKinds(q.book, q.dispatch)
    requires BarrierLine(q.book, q.dispatch, Lowest(q.orig, q.ended), q.epoch)
    requires Sorted(q.book, q.dispatch, q.orig.Some?, q.ended)
    requires DispatchOld(q.book, q.dispatch, q.ordseq, q.ended)
    ensures var q' := Opened(q); Sorted(q'.book, q'.dispatch, q'.orig.Some?, q'.ended)
  {
    var d, m := q.dispatch, Opened(q).ordered;
    forall j | 0 < j < |d| && !d[j].Free()
      ensures Key(q.book, d[j], true, q.ended) == Key(q.book, d[j], false, q.ended) > DONE
    {
      assert d[j].name in NamesOf(d) + q.driver.Keys;
      assert DispatchKind(q.book, d[j]) && !Pending(Idle, d[j].name);
      StartTail(q, j);
    }
    ProxyKeys(q.book, m, q.ended);
    SortedConcat(q.book, Proxies(m), d, q.ended);
  }

  lemma SortedConcat(book: seq<Entry>, ps: seq<Request>, d: seq<Request>, ended: nat)
    requires d != [] && Sorted(book, d, false, ended) && Sorted(book, ps, true, ended)
    requires forall r :: r in ps ==> Key(book, r, true, ended) < DONE
    requires forall j :: 0 < j < |d| && !d[j].Free() ==>
      Key(book, d[j], true, ended) == Key(book, d[j], false, ended) > DONE
    ensures Sorted(book, ps + d[1..], true, ended)
  {
    var c := ps + d[1..];
    assert forall i :: |ps| <= i < |c| ==> c[i] == d[i - |ps| + 1];
  }

  lemma ProxyKeys(book: seq<Entry>, m: Method, ended: nat)
    ensures Sorted(book, Proxies(m), true, ended)
    ensures forall r :: r in Proxies(m) ==> Key(book, r, true, ended) < DONE && !r.Free()
  {
  }

  lemma StartOld(q: Queue)
    requires q.dispatch != [] && UserBarrier(q.dispatch[0]) && q.orig.None?
    requires DispatchKinds(q.book, q.dispatch)
    requires BarrierLine(q.book, q.dispatch, Lowest(q.orig, q.ended), q.epoch)
    requires Sorted(q.book, q.dispatch, q.orig.Some?, q.ended)
    requires DispatchOld(q.book, q.dispatch, q.ordseq, q.ended)
    ensures var q' := Opened(q); DispatchOld(q'.book, q'.dispatch, q'.ordseq, q'.ended)
  {
    var d, q' := q.dispatch, Opened(q);
    ProxyNames(q'.ordered);
    ProxyKeys(q.book, q'.ordered, q.ended);
    forall r | r in q'.dispatch ensures QueuedOld(q'.book, r, q'.ordseq, q'.ended) {
      if r !in Proxies(q'.ordered) {
        assert r in d[1..];
        var j :| 0 < j < |d| && d[j] == r;
        assert QueuedOld(q.book, r, q.ordseq, q.ended);
        if UserFs(r) { StartTail(q, j); }
      }
    }
  }

  lemma FsGone(book: seq<Entry>, driver: map<Name, Request>, o: Ordseq, o': Ordseq, ended: nat, inFlight: int)
    requires DriverOldest(book, driver, o, ended) && inFlight == |FsNames(driver)|
    requires o'.drain ==> o.drain || inFlight == 0
    ensures DriverOldest(book, driver, o', ended)
    ensures inFlight != 0 ==> driver != map[]
    ensures driver == map[] ==> inFlight == 0
  {
    forall n | n in driver && UserFs(driver[n]) ensures EpochOf(book, driver[n]) == ended && !o'.drain {
      assert n in FsNames(driver);
    }
    if driver == map[] { assert FsNames(driver) == {}; }
  }

  lemma StartOpenDrain(q: Queue)
    requires Inv(q) && Drain(q)
    requires q.dispatch != [] && q.ordseq == Idle && UserBarrier(q.dispatch[0])
    ensures Drain(Opened(q))
    ensures q.next != Unordered
  {
    StartSorted(q);
    StartOld(q);
    var o' := Opened(q).ordseq;
    FsGone(q.book, q.driver, q.ordseq, o', q.ended, q.inFlight);
    StartStages(q);
  }

  lemma StartStages(q: Queue)
    requires ProxiesPending(NamesOf(q.dispatch) + q.driver.Keys, Idle) && q.dispatch != []
    ensures Stages(Opened(q).driver.Keys, Opened(q).ordseq)
  {
    assert forall n: Name :: !n.User? ==> !Pending(Idle, n);
    assert forall n: Name :: !n.User? ==> n !in NamesOf(q.dispatch) + q.driver.Keys;
  }

  lemma SettleSorted(q: Queue)
    requires CurSeq(q.ordseq) == DONE && q.orig.Some?
    requires DispatchKinds(q.book, q.dispatch)
    requires ProxiesPending(NamesOf(q.dispatch) + q.driver.Keys, q.ordseq)
    requires Sorted(q.book, q.dispatch, q.orig.Some?, q.ended)
    requires DispatchOld(q.book, q.dispatch, q.ordseq, q.ended)
    ensures var q' := Settle(q);
      && Sorted(q'.book, q'.dispatch, q'.orig.Some?, q'.ended)
      && DispatchOld(q'.book, q'.dispatch, q'.ordseq, q'.ended)
  {
    var d, q' := q.dispatch, Settle(q);
    forall r | r in d
      ensures QueuedOld(q'.book, r, q'.ordseq, q'.ended)
      ensures !r.Free() ==> Key(q.book, r, false, q.ended + 1) == Key(q.book, r, true, q.ended) - 2
    {
      assert r.name in NamesOf(d) + q.driver.Keys;
      assert QueuedOld(q.book, r, q.ordseq, q.ended) && DispatchKind(q.book, r);
    }
  }

  lemma SettleDriver(q: Queue)
    requires CurSeq(q.ordseq) == DONE
    requires ProxiesPending(NamesOf(q.dispatch) + q.driver.Keys, q.ordseq)
    requires DriverOldest(q.book, q.driver, q.ordseq, q.ended)
    ensures var q' := Settle(q);
      DriverOldest(q'.book, q'.driver, q'.ordseq, q'.ended) && Stages(q'.driver.Keys, q'.ordseq)
  {
    assert forall n: Name :: !n.User? ==> n !in NamesOf(q.dispatch) + q.driver.Keys;
  }

  lemma SettleDrain(q: Queue)
    requires InvOpen(q) && Drain(q)
    ensures Drain(Settle(q))
  {
    if CurSeq(q.ordseq) == DONE {
      SettleSorted(q);
      SettleDriver(q);
    }
  }

  lemma StartSequenceDrain(q: Queue)
    requires Inv(q) && Drain(q)
    requires q.dispatch != [] && q.ordseq == Idle && UserBarrier(q.dispatch[0])
    ensures q.next != Unordered && Drain(StartSequence(q))
  {
    StartOpenDrain(q);
    StartOpen(q);
    OpenedSettles(q);
    SettleDrain(Opened(q));
  }

  // ----- peek, start and requeue -----

  lemma MarkedDrain(q: Queue)
    requires DrainOpen(q) && Draining(q) && q.dispatch != []
    ensures Drain(Marked(q))
  {
    MarkedSorted(q);
  }

  lemma MarkedSorted(q: Queue)
    requires q.dispatch != []
    requires Sorted(q.book, q.dispatch, q.orig.Some?, q.ended)
    requires DispatchOld(q.book, q.dispatch, q.ordseq, q.ended)
    requires Draining(q)
    ensures var q' := Marked(q);
      && Sorted(q'.book, q'.dispatch, q'.orig.Some?, q'.ended)
      && DispatchOld(q'.book, q'.dispatch, q'.ordseq, q'.ended)
      && Draining(q')
  {
    var r := q.dispatch[0].(started := true);
    UpdateHead(q.dispatch, r);
    assert QueuedOld(q.book, q.dispatch[0], q.ordseq, q.ended);
    assert QueuedOld(q.book, r, q.ordseq, q.ended);
    assert forall i :: 0 < i < |q.dispatch| ==> Marked(q).dispatch[i] == q.dispatch[i];
  }

  lemma PeekDrain(q: Queue)
    requires Inv(q) && Drain(q) && q.dispatch != [] && Passes(q, q.dispatch[0])
    ensures Drain(PeekHead(q))
    ensures !Warns(q, q.dispatch[0])
    ensures var q1 := PeekHead(q); var r := q1.dispatch[0];
      && (UserFs(r) ==> EpochOf(q1.book, r) == q1.ended && !q1.ordseq.drain)
      && Stages({r.name}, q1.ordseq)
  {
    PassesOldest(q);
    MarkedDrain(q);
  }

  lemma StartHeadDrain(q: Queue)
    requires DrainOpen(q) && q.dispatch != []
    requires var r := q.dispatch[0];
      && (UserFs(r) ==> EpochOf(q.book, r) == q.ended && !q.ordseq.drain)
      && Stages({r.name}, q.ordseq)
    ensures Drain(StartHead(q))
  {
    var q' := StartHead(q);
    HeadNames(q.dispatch);
    assert q.dispatch[0].name in q'.driver;
    assert q'.driver.Keys == q.driver.Keys + {q.dispatch[0].name};
  }

  lemma RequeueUserSorted(q: Queue, r: Request)
    requires r.name.User? && (r.fs ==> EpochOf(q.book, r) == q.ended && !r.hard)
    requires DispatchKinds(q.book, q.dispatch) && WellFormed(q.book, r) && Kinds(q)
    requires OrigEpoch(q.book, q.orig, q.ended) && (q.ordseq == Idle <==> q.orig.None?)
    requires ProxiesPending(NamesOf(q.dispatch) + q.driver.Keys, q.ordseq) && (q.ordseq.started <==> q.orig.Some?)
    requires Sorted(q.book, q.dispatch, q.orig.Some?, q.ended)
    requires DispatchOld(q.book, q.dispatch, q.ordseq, q.ended)
    ensures RequeuePos(q, r) == 0 && (q.ordseq != Idle ==> ReqSeq(q, r) == DRAIN)
    ensures Sorted(q.book, InsertAt(q.dispatch, 0, r.(started := false, soft := true)), q.orig.Some?, q.ended)
  {
    var d, r1 := q.dispatch, r.(started := false, soft := true);
    forall i | 0 <= i < |d| && !d[i].Free() && !r.Free()
      ensures Key(q.book, r1, q.orig.Some?, q.ended) <= Key(q.book, d[i], q.orig.Some?, q.ended)
    {
      assert d[i].name in NamesOf(d) + q.driver.Keys;
      assert QueuedOld(q.book, d[i], q.ordseq, q.ended) && DispatchKind(q.book, d[i]);
    }
    SortedInsert(q.book, d, 0, r1, q.orig.Some?, q.ended);
  }

  /** A requeued proxy goes behind special requests only. */
  lemma RequeueProxySorted(q: Queue, n: Name)
    requires n in q.driver && !n.User? && Keyed(q.driver)
    requires Kinds(q) && OrigEpoch(q.book, q.orig, q.ended) && q.ordseq.started && q.orig.Some?
    requires ProxiesPending(NamesOf(q.dispatch) + q.driver.Keys, q.ordseq) && Stages(q.driver.Keys, q.ordseq)
    requires BarrierLine(q.book, q.dispatch, Lowest(q.orig, q.ended), q.epoch)
    requires Sorted(q.book, q.dispatch, q.orig.Some?, q.ended)
    requires DispatchOld(q.book, q.dispatch, q.ordseq, q.ended)
    ensures var r := q.driver[n];
      Sorted(q.book, InsertAt(q.dispatch, RequeuePos(q, r), r.(started := false, soft := true)), true, q.ended)
  {
    var d, r := q.dispatch, q.driver[n];
    var p, r1 := RequeuePos(q, r), r.(started := false, soft := true);
    forall i | 0 <= i < |d| && !d[i].Free()
      ensures Key(q.book, r, true, q.ended) <= Key(q.book, d[i], true, q.ended)
    {
      assert d[i].name in NamesOf(d) + q.driver.Keys;
      assert QueuedOld(q.book, d[i], q.ordseq, q.ended) && DispatchKind(q.book, d[i]);
    }
    if p > 0 && exists i :: 0 <= i < p && !d[i].Free() {
      var i := FirstOrdered(d, p);
      LeadSeq(q, i);
    }
    SortedInsert(q.book, d, p, r1, true, q.ended);
  }

  /** The first request subject to ordering among the first `p`. */
  lemma FirstOrdered(d: seq<Request>, p: nat) returns (i: nat)
    requires p <= |d| && exists k :: 0 <= k < p && !d[k].Free()
    ensures i < p && !d[i].Free() && forall k :: 0 <= k < i ==> d[k].Free()
  {
    i := 0;
    while d[i].Free()
      invariant i < p
      invariant exists k :: i <= k < p && !d[k].Free()
      invariant forall k :: 0 <= k < i ==> d[k].Free()
      decreases p - i
    {
      i := i + 1;
    }
  }

  /** The first request subject to ordering is judged by its key, once the queue has drained. */
  lemma LeadSeq(q: Queue, i: nat)
    requires i < |q.dispatch| && !q.dispatch[i].Free() && forall k :: 0 <= k < i ==> q.dispatch[k].Free()
    requires Kinds(q) && OrigEpoch(q.book, q.orig, q.ended) && q.ordseq.started && q.orig.Some? && q.ordseq.drain
    requires BarrierLine(q.book, q.dispatch, Lowest(q.orig, q.ended), q.epoch)
    requires Sorted(q.book, q.dispatch, q.orig.Some?, q.ended)
    requires DispatchOld(q.book, q.dispatch, q.ordseq, q.ended)
    ensures var r := q.dispatch[i];
      ReqSeq(q, r) == if r.name.User? then DONE else Key(q.book, r, true, q.ended)
  {
    var d, r := q.dispatch, q.dispatch[i];
    assert DispatchKind(q.book, r) && QueuedOld(q.book, r, q.ordseq, q.ended);
    if r.name.User? {
      var lo := q.ended + 1;
      assert EpochOf(q.book, r) > lo ==> HasBarrier(q.book, d, lo);
    }
  }

  lemma RequeueDriver(q: Queue, n: Name)
    requires n in q.driver
    requires DriverOldest(q.book, q.driver, q.ordseq, q.ended) && Stages(q.driver.Keys, q.ordseq)
    ensures DriverOldest(q.book, q.driver - {n}, q.ordseq, q.ended) && Stages((q.driver - {n}).Keys, q.ordseq)
  {
    assert (q.driver - {n}).Keys == q.driver.Keys - {n};
  }

  lemma RequeueUserDrain(q: Queue, n: Name)
    requires Inv(q) && Drain(q) && n in q.driver && n.User?
    ensures Drain(RequeueRequest(q, n))
  {
    var r := q.driver[n];
    assert DriverKind(q.book, r) && r.name == n;
    RequeueUserSorted(q, r);
    RequeueDriver(q, n);
    InsertOld(q.book, q.dispatch, 0, r.(started := false, soft := true), q.ordseq, q.ended);
    assert Draining(RequeueRequest(q, n));
  }

  lemma RequeueProxyDrain(q: Queue, n: Name)
    requires Inv(q) && Drain(q) && n in q.driver && !n.User?
    ensures Drain(RequeueRequest(q, n))
  {
    var r := q.driver[n];
    StageOpen(q, n);
    assert DriverKind(q.book, r) && r.name == n;
    RequeueProxySorted(q, n);
    RequeueDriver(q, n);
    InsertOld(q.book, q.dispatch, RequeuePos(q, r), r.(started := false, soft := true), q.ordseq, q.ended);
  }

  // ----- completion -----

  /** When the head is past the drain stage, so is the whole queue. */
  lemma DrainedOld(q: Queue)
    requires Kinds(q) && OrigEpoch(q.book, q.orig, q.ended) && q.orig.Some?
    requires q.dispatch != [] ==> ReqSeq(q, q.dispatch[0]) > DRAIN
    requires BarrierLine(q.book, q.dispatch, Lowest(q.orig, q.ended), q.epoch)
    requires Sorted(q.book, q.dispatch, q.orig.Some?, q.ended)
    requires DispatchOld(q.book, q.dispatch, q.ordseq, q.ended)
    ensures DispatchOld(q.book, q.dispatch, Or(q.ordseq, DrainBit), q.ended)
  {
    if q.dispatch != [] {
      var d := q.dispatch;
      assert DispatchKind(q.book, d[0]);
      HeadSeq(q);
      forall r | r in d ensures QueuedOld(q.book, r, Or(q.ordseq, DrainBit), q.ended) {
        assert QueuedOld(q.book, r, q.ordseq, q.ended);
        var j :| 0 <= j < |d| && d[j] == r;
        if UserFs(r) && j > 0 {
          assert Key(q.book, d[0], true, q.ended) <= Key(q.book, d[j], true, q.ended);
        }
      }
    }
  }

  lemma DrainBitDrain(q: Queue)
    requires Inv(q) && DrainOpen(q) && DrainComplete(q)
    ensures Drain(q.(ordseq := Or(q.ordseq, DrainBit)))
  {
    DrainedOld(q);
    FsGone(q.book, q.driver, q.ordseq, Or(q.ordseq, DrainBit), q.ended, q.inFlight);
    DrainBitStages(q.driver.Keys, q.ordseq);
  }

  lemma DrainBitStages(driver: set<Name>, o: Ordseq)
    requires Stages(driver, o)
    ensures Stages(driver, Or(o, DrainBit))
  {
  }

  lemma ReleasedDrain(q: Queue, n: Name, e: Event)
    requires DrainOpen(q) && n in q.driver
    ensures DrainOpen(Released(q, n, e))
  {
    RequeueDriver(q, n);
  }

  lemma NotDrained(q: Queue)
    requires q.inFlight == |FsNames(q.driver)| && !DrainComplete(q)
    ensures Draining(q)
  {
    if q.driver == map[] { assert FsNames(q.driver) == {}; }
  }

  lemma CompleteUserDrain(q: Queue, n: Name, error: int)
    requires Inv(q) && Drain(q) && n in q.driver && n.User?
    ensures Drain(CompleteRequest(q, n, error))
  {
    ReleasedUserInv(q, n);
    var q1 := Released(q, n, Finished(n.id));
    ReleasedDrain(q, n, Finished(n.id));
    if DrainComplete(q1) {
      DrainBitDrain(q1);
      DrainBitInv(q1);
      SettleDrain(q1.(ordseq := Or(q1.ordseq, DrainBit)));
    } else {
      NotDrained(q1);
    }
  }

  lemma StagedFrame(q: Queue, n: Name, error: int)
    requires n in q.driver && !n.User?
    requires ProxiesPending(NamesOf(q.dispatch) + q.driver.Keys, q.ordseq) && Stages(q.driver.Keys, q.ordseq)
    requires DriverOldest(q.book, q.driver, q.ordseq, q.ended)
    requires DispatchOld(q.book, q.dispatch, q.ordseq, q.ended)
    ensures var q' := Staged(q, n, error);
      && q'.ordseq == Or(q.ordseq, StageBit(n)) && q'.ordseq.drain
      && DriverOldest(q'.book, q'.driver, q'.ordseq, q'.ended)
      && DispatchOld(q'.book, q'.dispatch, q'.ordseq, q'.ended)
      && Stages(q'.driver.Keys, q'.ordseq)
  {
    StageOpen(q, n);
    RequeueDriver(q, n);
    forall r | r in q.dispatch ensures QueuedOld(q.book, r, Or(q.ordseq, StageBit(n)), q.ended) {
      assert QueuedOld(q.book, r, q.ordseq, q.ended);
    }
  }

  lemma CompleteProxyDrain(q: Queue, n: Name, error: int)
    requires Inv(q) && Drain(q) && n in q.driver && !n.User?
    ensures Drain(CompleteRequest(q, n, error))
  {
    StagedFrame(q, n, error);
    StagedInv(q, n, error);
    StagedSettles(q, n, error);
    SettleDrain(Staged(q, n, error));
  }

  // ----- all steps, all runs -----

  lemma StepDrain(q: Queue, step: Step)
    requires Inv(q) && Drain(q) && Enabled(q, step)
    ensures Drain(Apply(q, step))
  {
    match step
    case AddSort => AddSortDrain(q);
    case AddBack(k) => AddBackDrain(q, k);
    case AddFront => AddFrontDrain(q);
    case Dispatch(n, p) => DispatchDrain(q, n, p);
    case StartOrdered =>
      HeadBarrier(q);
      StartSequenceDrain(q);
    case Peek => PeekDrain(q);
    case Fetch =>
      PeekDrain(q);
      StartHeadDrain(PeekHead(q));
    case Requeue(n) =>
      if n.User? { RequeueUserDrain(q, n); } else { RequeueProxyDrain(q, n); }
    case PartialBar(e) =>
    case Complete(n, e) =>
      if n.User? { CompleteUserDrain(q, n, e); } else { CompleteProxyDrain(q, n, e); }
  }
}
