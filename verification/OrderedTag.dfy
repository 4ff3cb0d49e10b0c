/** What every step keeps about the proxies of a queue that orders by tag. */
module OrderedTag {
  import opened Ordered
  import opened OrderedInvariant
  import opened OrderedSteps

  /** No user's barrier stands in front of a proxy. */
  ghost predicate ProxiesFirst(d: seq<Request>) {
    forall i, j :: 0 <= i < j < |d| && UserBarrier(d[i]) ==> d[j].name.User?
  }

  /** A sequence by tag never waits for the driver to drain. */
  ghost predicate TagDrained(m: Method, o: Ordseq) { o.started && m.byTag ==> o.drain }

  ghost predicate TagOrder(q: Queue) { ProxiesFirst(q.dispatch) && TagDrained(q.ordered, q.ordseq) }

  // ----- the dispatch queue -----

  lemma InsertUser(d: seq<Request>, p: nat, r: Request)
    requires p <= |d| && ProxiesFirst(d) && r.name.User? && !UserBarrier(r)
    ensures ProxiesFirst(InsertAt(d, p, r))
  {
    var d' := InsertAt(d, p, r);
    assert forall i :: 0 <= i < |d'| && i != p ==> d'[i] == d[if i < p then i else i - 1];
  }

  lemma InsertProxy(d: seq<Request>, p: nat, r: Request)
    requires p <= |d| && ProxiesFirst(d) && !r.name.User? && forall i :: 0 <= i < p ==> !UserBarrier(d[i])
    ensures ProxiesFirst(InsertAt(d, p, r))
  {
    var d' := InsertAt(d, p, r);
    assert forall i :: 0 <= i < |d'| && i != p ==> d'[i] == d[if i < p then i else i - 1];
  }

  /** Two barriers on, the colour is that of the barrier in progress again; the next one differs. */
  lemma RequeueBefore(q: Queue, n: Name, i: nat)
    requires n in q.driver && q.driver[n].name == n && !n.User? && q.ordseq != Idle && q.orig.Some?
    requires Kinds(q) && OrigEpoch(q.book, q.orig, q.ended)
    requires BarrierLine(q.book, q.dispatch, Lowest(q.orig, q.ended), q.epoch)
    requires i < RequeuePos(q, q.driver[n])
    ensures !UserBarrier(q.dispatch[i])
  {
    var d, lo := q.dispatch, q.ended + 1;
    if lo < q.epoch {
      assert HasBarrier(q.book, d, lo);
      var k :| 0 <= k < |d| && UserBarrier(d[k]) && EpochOf(q.book, d[k]) == lo;
      assert DispatchKind(q.book, d[k]);
      assert ReqSeq(q, d[k]) == DONE;
    }
  }

  lemma RequeueTag(q: Queue, n: Name)
    requires Inv(q) && TagOrder(q) && n in q.driver
    ensures TagOrder(RequeueRequest(q, n))
  {
    var r := q.driver[n];
    assert DriverKind(q.book, r) && r.name == n;
    if n.User? {
      InsertUser(q.dispatch, RequeuePos(q, r), r.(started := false, soft := true));
    } else {
      StageOpen(q, n);
      forall i | 0 <= i < RequeuePos(q, r) ensures !UserBarrier(q.dispatch[i]) { RequeueBefore(q, n, i); }
      InsertProxy(q.dispatch, RequeuePos(q, r), r.(started := false, soft := true));
    }
  }

  // ----- the sequence -----

  lemma SettleTag(q: Queue, stages: Ordseq, error: int)
    requires TagOrder(q) && !stages.started
    ensures TagOrder(CompleteSeq(q, stages, error))
  {
  }

  lemma StartTag(q: Queue)
    requires DispatchKinds(q.book, q.dispatch) && Supported(q.next)
    requires ProxiesPending(NamesOf(q.dispatch) + q.driver.Keys, Idle)
    requires q.dispatch != [] && q.ordseq == Idle && UserBarrier(q.dispatch[0])
    ensures TagOrder(StartSequence(q))
  {
    assert DispatchKind(q.book, q.dispatch[0]);
    StartFirst(q, Opened(q).ordered);
    OpenedSettles(q);
  }

  lemma StartFirst(q: Queue, m: Method)
    requires ProxiesPending(NamesOf(q.dispatch) + q.driver.Keys, Idle) && q.dispatch != []
    ensures ProxiesFirst(Proxies(m) + q.dispatch[1..])
  {
    var d, ps := q.dispatch, Proxies(m);
    ProxyNames(m);
    forall i | 0 <= i < |d| ensures d[i].name.User? {
      assert d[i].name in NamesOf(d) + q.driver.Keys;
      assert !Pending(Idle, d[i].name);
    }
    assert forall i :: 0 <= i < |ps| ==> ps[i] in ps && !UserBarrier(ps[i]);
  }

  // ----- all steps -----

  lemma StepTag(q: Queue, step: Step)
    requires Inv(q) && TagOrder(q) && Enabled(q, step)
    ensures TagOrder(Apply(q, step))
  {
    match step
    case AddSort =>
    case AddBack(k) => AddTag(q, k);
    case AddFront => AddTag(q, Special);
    case Dispatch(n, p) =>
      assert HeldKind(q.book, q.held[n]);
      InsertUser(q.dispatch, p, q.held[n]);
    case StartOrdered =>
      HeadBarrier(q);
      if q.next != Unordered { StartTag(q); } else { RejectTag(q); }
    case Peek => PeekTag(q);
    case Fetch => PeekTag(q);
    case Requeue(n) => RequeueTag(q, n);
    case PartialBar(_) =>
    case Complete(n, e) => CompleteTag(q, n, e);
  }

  lemma AddTag(q: Queue, k: Kind)
    requires TagOrder(q)
    ensures TagOrder(BackRequest(q, k)) && TagOrder(FrontRequest(q))
  {
  }

  lemma PeekTag(q: Queue)
    requires TagOrder(q) && q.dispatch != []
    ensures TagOrder(PeekHead(q)) && TagOrder(StartHead(PeekHead(q)))
  {
  }

  lemma RejectTag(q: Queue)
    requires TagOrder(q) && q.dispatch != []
    ensures TagOrder(Reject(q))
  {
  }

  lemma CompleteTag(q: Queue, n: Name, error: int)
    requires TagOrder(q) && n in q.driver
    ensures TagOrder(CompleteRequest(q, n, error))
  {
    var e := if n.User? then Finished(n.id) else ProxyFinished(OrigId(q), n, error);
    var q1 := Released(q, n, e);
    SettleTag(q1, DrainBit, 0);
    var q2 := if DrainComplete(q1) then CompleteSeq(q1, DrainBit, 0) else q1;
    assert CompletedRequest(Emit(q.(driver := q.driver - {n}), e), q.driver[n]) == q2;
    if !n.User? { SettleTag(q2, StageBit(n), error); }
  }

  ghost function CurrentProxy(o: Ordseq): Name {
    if !o.pre then PreFlushRq else if !o.bar then BarRq else PostFlushRq
  }

  /** With an idle driver, a proxy that is still to come keeps user's barriers off the head. */
  lemma TagServed(q: Queue)
    requires q.driver == map[] && q.dispatch != [] && q.ordseq.started && CurSeq(q.ordseq) != DONE
    requires ProxiesPending(NamesOf(q.dispatch) + q.driver.Keys, q.ordseq)
    requires TagOrder(q) && q.ordered.byTag && DispatchKinds(q.book, q.dispatch)
    ensures Passes(q, q.dispatch[0])
  {
    var d, o := q.dispatch, q.ordseq;
    var n := CurrentProxy(o);
    assert Pending(o, n);
    assert n in NamesOf(d) + q.driver.Keys;
    var i :| 0 <= i < |d| && d[i].name == n;
    assert DispatchKind(q.book, d[0]);
  }
}
