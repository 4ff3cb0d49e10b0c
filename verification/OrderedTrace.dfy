/**
  The guarantees of the ordered-write protocol, stated on what an observer sees.

  `Rule` says when an event may follow a log, in terms of the log alone.  The
  main theorems say that every run of every supported queue obeys it, and that the
  original barrier request ends exactly once.
 */
module OrderedTrace {
  import opened Ordered
  import opened OrderedInvariant
  import opened OrderedSteps
  import opened OrderedDrain

  // ----- the rules -----

  ghost predicate IsBarrier(log: seq<Event>, b: nat) {
    Submitted(b, Barrier(false)) in log || Submitted(b, Barrier(true)) in log
  }

  ghost predicate IsFsRequest(log: seq<Event>, x: nat) { Submitted(x, Plain) in log || IsBarrier(log, x) }

  /**
    The stages that a barrier needs on a queue configured as `m`: with data all
    that are configured, without data the pre-flush at most.
   */
  ghost predicate Needs(m: Method, empty: bool, p: Name) {
    if empty then p.PreFlushRq? && m.pre else Configured(m, p)
  }

  ghost predicate HasStage(m: Method, log: seq<Event>, b: nat, p: Name) {
    || (Submitted(b, Barrier(false)) in log && Needs(m, false, p))
    || (Submitted(b, Barrier(true)) in log && Needs(m, true, p))
  }

  /** A sequence has exactly the stages that its barrier needs. */
  lemma SequenceStages(m: Method, empty: bool, p: Name)
    ensures Configured(SequenceMethod(m, empty), p) <==> Needs(m, empty, p)
  {
  }

  /** It orders as the queue does, except that nothing to issue cannot be ordered by tag. */
  lemma SequenceOrders(m: Method, empty: bool)
    requires Supported(m) && m != Unordered
    ensures SequenceMethod(m, empty).byDrain <==> m.byDrain || (empty && !m.pre)
    ensures SequenceMethod(m, empty).byTag <==> m.byTag && !(empty && !m.pre)
  {
  }

  /** Every fs request submitted before barrier `b` is over. */
  ghost predicate AllBefore(log: seq<Event>, b: nat) {
    forall x: nat :: x < b && IsFsRequest(log, x) ==> Over(log, x)
  }

  /** Every barrier submitted before barrier `b` has ended. */
  ghost predicate BarriersBefore(log: seq<Event>, b: nat) {
    forall x: nat :: x < b && IsBarrier(log, x) ==> EndedIn(log, x)
  }

  ghost predicate Earlier(p: Name, p': Name) {
    (p.PreFlushRq? && (p'.BarRq? || p'.PostFlushRq?)) || (p.BarRq? && p'.PostFlushRq?)
  }

  /** What holds on every supported queue. */
  ghost predicate Lawful(m: Method, log: seq<Event>, e: Event) {
    match e
    case Submitted(x, _) => forall y: nat, k :: Submitted(y, k) in log ==> y < x
    case Issued(x) => (Submitted(x, Plain) in log || Submitted(x, Special) in log) && !Over(log, x)
    case Finished(x) => (Submitted(x, Plain) in log || Submitted(x, Special) in log) && !Over(log, x)
    case ProxyIssued(b, p) => HasStage(m, log, b, p) && !EndedIn(log, b) && BarriersBefore(log, b)
    case ProxyFinished(b, p, _) => HasStage(m, log, b, p) && !EndedIn(log, b)
    case BarError(b, _) => HasStage(m, log, b, BarRq) && !EndedIn(log, b)
    case Ended(b, err) =>
      && IsBarrier(log, b)
      && !EndedIn(log, b)
      && BarriersBefore(log, b)
      && (if m == Unordered then err == EOPNOTSUPP
          else err == FirstError(log, b) && forall p :: HasStage(m, log, b, p) ==> ProxyDone(log, b, p))
    case Bug => false
    case Warn => true
  }

  /** What holds on a queue that orders by draining. */
  ghost predicate InOrder(m: Method, log: seq<Event>, e: Event) {
    match e
    case Issued(x) => Submitted(x, Plain) in log ==> BarriersBefore(log, x)
    case ProxyIssued(b, p) =>
      AllBefore(log, b) && forall p' :: Earlier(p', p) && HasStage(m, log, b, p') ==> ProxyDone(log, b, p')
    case Ended(b, _) => AllBefore(log, b)
    case Warn => false
    case _ => true
  }

  ghost predicate Rule(m: Method, log: seq<Event>, e: Event) {
    Lawful(m, log, e) && (m.byDrain ==> InOrder(m, log, e))
  }

  ghost predicate Orderly(m: Method, log: seq<Event>) {
    forall j :: 0 <= j < |log| ==> Rule(m, log[..j], log[j])
  }

  lemma OrderlySnoc(m: Method, log: seq<Event>, e: Event)
    requires Orderly(m, log) && Rule(m, log, e)
    ensures Orderly(m, log + [e])
  {
    var log' := log + [e];
    forall j | 0 <= j < |log'| ensures Rule(m, log'[..j], log'[j]) {
      if j < |log| { assert log'[..j] == log[..j]; } else { assert log'[..j] == log; }
    }
  }

  /** The invariant that goes with the rules. */
  ghost predicate Good(q: Queue) { Inv(q) && (q.next.byDrain ==> Drain(q)) }

  ghost predicate GoodOpen(q: Queue) { InvOpen(q) && (q.next.byDrain ==> Drain(q)) }

  // ----- reading requests off the log -----

  lemma LiveNotOver(q: Queue, x: nat)
    requires Records(q) && User(x) in LiveNames(q) && x < |q.book|
    ensures Submitted(x, q.book[x].kind) in q.log && !Over(q.log, x)
  {
  }

  /** The barrier in progress, as the log shows it. */
  lemma OrigSubmitted(q: Queue)
    requires Records(q) && OrigKind(q.book, q.orig) && q.orig.Some?
    ensures Submitted(OrigId(q), Barrier(q.orig.value.empty)) in q.log && !EndedIn(q.log, OrigId(q))
    ensures OrigId(q) < |q.book|
    ensures forall m, p :: HasStage(m, q.log, OrigId(q), p) <==> Configured(SequenceMethod(m, q.orig.value.empty), p)
  {
    LiveNotOver(q, OrigId(q));
    forall m, p ensures HasStage(m, q.log, OrigId(q), p) <==> Configured(SequenceMethod(m, q.orig.value.empty), p) {
      SequenceStages(m, q.orig.value.empty, p);
    }
  }

  // ----- barriers in turn -----

  /** The barriers before a request of the oldest epoch are over. */
  lemma OldestBarriers(q: Queue, x: nat)
    requires x < |q.book| && q.book[x].epoch == q.ended
    requires Kinds(q) && Records(q) && OrigEpoch(q.book, q.orig, q.ended) && Keyed(q.held) && Keyed(q.driver)
    requires BarrierLine(q.book, q.dispatch, Lowest(q.orig, q.ended), q.epoch)
    ensures forall b: nat :: b < x && IsBarrier(q.log, b) ==> Over(q.log, b)
  {
    forall b: nat | b < x && IsBarrier(q.log, b) ensures Over(q.log, b) {
      var n := User(b);
      assert b < |q.book| && q.book[b].epoch < q.ended;
      forall r | r in q.dispatch ensures r.name != n {
        assert DispatchKind(q.book, r);
        var i :| 0 <= i < |q.dispatch| && q.dispatch[i] == r;
      }
      forall k | k in q.held ensures k != n { assert HeldKind(q.book, q.held[k]); }
      forall k | k in q.driver ensures k != n { assert DriverKind(q.book, q.driver[k]); }
      assert n !in LiveNames(q);
    }
  }

  /** A barrier is over exactly when it was ended: the driver never finishes one. */
  ghost predicate BarriersEnd(log: seq<Event>) {
    forall x: nat :: Finished(x) in log ==> !IsBarrier(log, x)
  }

  lemma OrderlyBarriersEnd(q: Queue)
    requires Records(q) && Orderly(q.next, q.log)
    ensures BarriersEnd(q.log)
  {
    forall x: nat | Finished(x) in q.log ensures !IsBarrier(q.log, x) {
      var j :| 0 <= j < |q.log| && q.log[j] == Finished(x);
      assert Rule(q.next, q.log[..j], q.log[j]);
      assert Submitted(x, Plain) in q.log || Submitted(x, Special) in q.log;
    }
  }

  /** And so they have ended, since the driver finishes no barrier. */
  lemma BarriersServed(q: Queue, x: nat)
    requires x < |q.book| && q.book[x].epoch == q.ended
    requires Kinds(q) && Records(q) && OrigEpoch(q.book, q.orig, q.ended) && Keyed(q.held) && Keyed(q.driver)
    requires BarrierLine(q.book, q.dispatch, Lowest(q.orig, q.ended), q.epoch) && Orderly(q.next, q.log)
    ensures BarriersBefore(q.log, x)
  {
    OldestBarriers(q, x);
    OrderlyBarriersEnd(q);
  }

  // ----- ending a barrier -----

  /** Once the drain stage is complete, every earlier fs request is over. */
  lemma EarlierOver(q: Queue)
    requires Kinds(q) && OrigEpoch(q.book, q.orig, q.ended) && q.orig.Some? && q.ordseq.started && q.ordseq.drain
    requires BarrierLine(q.book, q.dispatch, Lowest(q.orig, q.ended), q.epoch)
    requires Keyed(q.held) && Keyed(q.driver)
    requires Records(q) && DrainOpen(q)
    ensures AllBefore(q.log, OrigId(q))
  {
    forall x: nat | x < OrigId(q) && IsFsRequest(q.log, x) ensures Over(q.log, x) {
      if !Over(q.log, x) {
        assert x < |q.book| && q.book[x].epoch <= q.ended;
        EarlierLive(q, x);
      }
    }
  }

  lemma EarlierLive(q: Queue, x: nat)
    requires x < |q.book| && IsFs(q.book[x].kind) && q.book[x].epoch <= q.ended
    requires Kinds(q) && q.orig.Some? && q.ordseq.started && q.ordseq.drain && x != OrigId(q)
    requires BarrierLine(q.book, q.dispatch, Lowest(q.orig, q.ended), q.epoch)
    requires Keyed(q.held) && Keyed(q.driver)
    requires DrainOpen(q)
    ensures User(x) !in LiveNames(q)
  {
    var n := User(x);
    forall r | r in q.dispatch ensures r.name != n {
      assert DispatchKind(q.book, r) && QueuedOld(q.book, r, q.ordseq, q.ended);
    }
    assert n in q.held ==> HeldKind(q.book, q.held[n]);
    assert n in q.driver ==> DriverKind(q.book, q.driver[n]);
  }

  lemma EndedRule(q: Queue)
    requires GoodOpen(q) && Orderly(q.next, q.log) && CurSeq(q.ordseq) == DONE
    ensures Rule(q.next, q.log, Ended(OrigId(q), q.orderr))
  {
    OrigSubmitted(q);
    EndedStages(q);
    BarriersServed(q, OrigId(q));
    if q.next.byDrain { EarlierOver(q); }
  }

  lemma EndedStages(q: Queue)
    requires Records(q) && OrigKind(q.book, q.orig) && Configuration(q.next, q.ordered, q.ordseq, q.orig)
    requires CurSeq(q.ordseq) == DONE
    ensures q.orig.Some? && q.next != Unordered
    ensures q.orderr == FirstError(q.log, OrigId(q))
    ensures forall p :: HasStage(q.next, q.log, OrigId(q), p) ==> ProxyDone(q.log, OrigId(q), p)
  {
    OrigSubmitted(q);
    assert forall p :: !Pending(q.ordseq, p);
  }

  lemma SettleOrderly(q: Queue)
    requires GoodOpen(q) && Orderly(q.next, q.log)
    ensures Orderly(q.next, Settle(q).log)
  {
    if CurSeq(q.ordseq) == DONE {
      EndedRule(q);
      OrderlySnoc(q.next, q.log, Ended(OrigId(q), q.orderr));
    }
  }

  // ----- issuing -----

  lemma IssueUserLawful(q: Queue)
    requires q.dispatch != [] && q.dispatch[0].name.User? && !UserBarrier(q.dispatch[0])
    requires DispatchKinds(q.book, q.dispatch) && Records(q)
    ensures Lawful(q.next, q.log, IssueEvent(q, q.dispatch[0]))
  {
    var r := q.dispatch[0];
    assert DispatchKind(q.book, r);
    assert r.name in NamesOf(q.dispatch);
    LiveNotOver(q, r.name.id);
  }

  lemma IssueProxyRule(q: Queue)
    requires q.dispatch != [] && !q.dispatch[0].name.User?
    requires ProxiesPending(NamesOf(q.dispatch) + q.driver.Keys, q.ordseq)
    requires Configuration(q.next, q.ordered, q.ordseq, q.orig) && Records(q) && OrigKind(q.book, q.orig)
    ensures BarriersBefore(q.log, OrigId(q)) ==> Lawful(q.next, q.log, IssueEvent(q, q.dispatch[0]))
    ensures Stages({q.dispatch[0].name}, q.ordseq) ==>
      forall p' :: Earlier(p', q.dispatch[0].name) && HasStage(q.next, q.log, OrigId(q), p') ==>
        ProxyDone(q.log, OrigId(q), p')
    ensures q.orig.Some? && q.ordseq.started
  {
    var n := q.dispatch[0].name;
    assert n in NamesOf(q.dispatch) + q.driver.Keys;
    assert Pending(q.ordseq, n);
    OrigSubmitted(q);
  }

  lemma IssueRule(q: Queue)
    requires Good(q) && Orderly(q.next, q.log) && q.dispatch != [] && Passes(q, q.dispatch[0])
    ensures Rule(q.next, q.log, IssueEvent(q, q.dispatch[0]))
    ensures q.next.byDrain ==> !Warns(q, q.dispatch[0])
  {
    var r := q.dispatch[0];
    PassesNoBarrier(q);
    if q.next.byDrain { PassesOldest(q); }
    if r.name.User? {
      IssueUserLawful(q);
      if q.next.byDrain && r.fs {
        BarriersServed(q, r.name.id);
      } else if q.next.byDrain {
        IssueSpecial(q);
      }
    } else {
      IssueProxyRule(q);
      OrigSubmitted(q);
      BarriersServed(q, OrigId(q));
      if q.next.byDrain { EarlierOver(q); }
    }
  }

  lemma IssueSpecial(q: Queue)
    requires q.dispatch != [] && q.dispatch[0].name.User? && !q.dispatch[0].fs
    requires DispatchKinds(q.book, q.dispatch) && Submissions(q.book, q.log)
    ensures Submitted(q.dispatch[0].name.id, Plain) !in q.log
  {
    assert DispatchKind(q.book, q.dispatch[0]);
  }

  lemma WarnRule(q: Queue)
    requires Orderly(q.next, q.log) && !q.next.byDrain
    ensures Orderly(q.next, Emit(q, Warn).log)
  {
    OrderlySnoc(q.next, q.log, Warn);
  }

  lemma PeekOrderly(q: Queue)
    requires Good(q) && Orderly(q.next, q.log) && q.dispatch != [] && Passes(q, q.dispatch[0])
    ensures Orderly(q.next, PeekHead(q).log)
  {
    var e := IssueEvent(q, q.dispatch[0]);
    IssueRule(q);
    if Warns(q, q.dispatch[0]) {
      WarnRule(q);
      WarnQuiet(q, e);
      OrderlySnoc(q.next, q.log + [Warn], e);
    } else {
      OrderlySnoc(q.next, q.log, e);
    }
  }

  lemma WarnQuiet(q: Queue, e: Event)
    requires !q.next.byDrain && (e.Issued? || e.ProxyIssued?) && Lawful(q.next, q.log, e)
    ensures Lawful(q.next, q.log + [Warn], e)
  {
    LogSnoc(q.log, Warn);
    assert forall x: nat :: IsBarrier(q.log + [Warn], x) <==> IsBarrier(q.log, x);
    assert forall x: nat :: EndedIn(q.log + [Warn], x) <==> EndedIn(q.log, x);
  }

  // ----- the other events -----

  lemma SubmitOrderly(q: Queue, k: Kind)
    requires Records(q) && Orderly(q.next, q.log)
    ensures Orderly(q.next, Submit(q, k).log)
  {
    OrderlySnoc(q.next, q.log, Submitted(|q.book|, k));
  }

  lemma RejectOrderly(q: Queue)
    requires Inv(q) && Orderly(q.next, q.log) && q.next == Unordered
    requires q.dispatch != [] && UserBarrier(q.dispatch[0])
    ensures Orderly(q.next, Reject(q).log)
  {
    var r := q.dispatch[0];
    assert DispatchKind(q.book, r);
    assert r.name in NamesOf(q.dispatch);
    LiveNotOver(q, r.name.id);
    HeadLine(q.book, q.dispatch, q.ended, q.epoch);
    BarriersServed(q, r.name.id);
    OrderlySnoc(q.next, q.log, Ended(r.name.id, EOPNOTSUPP));
  }

  lemma FinishedRule(q: Queue, n: Name)
    requires DriverKinds(q.book, q.driver) && Keyed(q.driver) && Records(q) && n in q.driver && n.User?
    ensures Rule(q.next, q.log, Finished(n.id))
  {
    assert DriverKind(q.book, q.driver[n]);
    LiveNotOver(q, n.id);
  }

  lemma ProxyFinishedRule(q: Queue, n: Name, error: int)
    requires ProxiesPending(NamesOf(q.dispatch) + q.driver.Keys, q.ordseq) && n in q.driver && !n.User?
    requires Configuration(q.next, q.ordered, q.ordseq, q.orig) && Records(q) && OrigKind(q.book, q.orig)
    ensures Rule(q.next, q.log, ProxyFinished(OrigId(q), n, error))
    ensures n == BarRq ==> Rule(q.next, q.log, BarError(OrigId(q), error))
  {
    StageOpen(q, n);
    OrigSubmitted(q);
  }

  lemma StartOrderly(q: Queue)
    requires Good(q) && Orderly(q.next, q.log) && Enabled(q, StartOrdered)
    ensures Orderly(q.next, Apply(q, StartOrdered).log)
  {
    HeadBarrier(q);
    if q.next == Unordered {
      RejectOrderly(q);
    } else {
      StartOpen(q);
      OpenedSettles(q);
      if q.next.byDrain { StartOpenDrain(q); }
      SettleOrderly(Opened(q));
    }
  }

  lemma CompleteUserOrderly(q: Queue, n: Name, error: int)
    requires Good(q) && Orderly(q.next, q.log) && n in q.driver && n.User?
    ensures Orderly(q.next, CompleteRequest(q, n, error).log)
  {
    FinishedRule(q, n);
    OrderlySnoc(q.next, q.log, Finished(n.id));
    ReleasedUserInv(q, n);
    var q1 := Released(q, n, Finished(n.id));
    if q.next.byDrain { ReleasedDrain(q, n, Finished(n.id)); }
    if DrainComplete(q1) {
      DrainedOrderly(q1);
    }
  }

  /** The last request before the barrier is done: the drain stage completes. */
  lemma DrainedOrderly(q: Queue)
    requires Inv(q) && (q.next.byDrain ==> DrainOpen(q)) && DrainComplete(q) && Orderly(q.next, q.log)
    ensures Orderly(q.next, Settle(q.(ordseq := Or(q.ordseq, DrainBit))).log)
  {
    DrainBitInv(q);
    if q.next.byDrain { DrainBitDrain(q); }
    SettleOrderly(q.(ordseq := Or(q.ordseq, DrainBit)));
  }

  lemma CompleteProxyOrderly(q: Queue, n: Name, error: int)
    requires Good(q) && Orderly(q.next, q.log) && n in q.driver && !n.User?
    ensures Orderly(q.next, CompleteRequest(q, n, error).log)
  {
    ProxyFinishedRule(q, n, error);
    OrderlySnoc(q.next, q.log, ProxyFinished(OrigId(q), n, error));
    StagedInv(q, n, error);
    StagedSettles(q, n, error);
    if q.next.byDrain { StagedFrame(q, n, error); }
    SettleOrderly(Staged(q, n, error));
  }

  lemma StepGood(q: Queue, step: Step)
    requires Good(q) && Enabled(q, step)
    ensures Good(Apply(q, step))
  {
    StepInv(q, step);
    if q.next.byDrain { StepDrain(q, step); }
    NextKept(q, step);
  }

  /** The configured method never changes. */
  lemma NextKept(q: Queue, step: Step)
    requires Enabled(q, step)
    ensures Apply(q, step).next == q.next
  {
    if step.Complete? { CompleteNext(q, step.name, step.error); }
    if step.StartOrdered? { StartNext(q); }
  }

  lemma StartNext(q: Queue)
    requires q.dispatch != []
    ensures StartSequence(q).next == q.next && Reject(q).next == q.next
  {
  }

  lemma CompleteNext(q: Queue, n: Name, error: int)
    requires n in q.driver
    ensures CompleteRequest(q, n, error).next == q.next
  {
    forall q: Queue, r ensures CompletedRequest(q, r).next == q.next {
      assert forall q: Queue, o, e :: CompleteSeq(q, o, e).next == q.next;
    }
    assert forall q: Queue, o, e :: CompleteSeq(q, o, e).next == q.next;
  }

  lemma StepOrderly(q: Queue, step: Step)
    requires Good(q) && Orderly(q.next, q.log) && Enabled(q, step)
    ensures Orderly(q.next, Apply(q, step).log)
  {
    match step
    case AddSort => SubmitOrderly(q, Plain);
    case AddBack(k) => SubmitOrderly(q, k);
    case AddFront => SubmitOrderly(q, Special);
    case Dispatch(_, _) =>
    case StartOrdered => StartOrderly(q);
    case Peek => PeekOrderly(q);
    case Fetch => PeekOrderly(q);
    case Requeue(_) =>
    case PartialBar(e) => PartialOrderly(q, e);
    case Complete(n, e) =>
      if n.User? { CompleteUserOrderly(q, n, e); } else { CompleteProxyOrderly(q, n, e); }
  }

  lemma PartialOrderly(q: Queue, error: int)
    requires Inv(q) && Orderly(q.next, q.log) && BarRq in q.driver
    ensures Orderly(q.next, RecordError(q, error).log)
  {
    ProxyFinishedRule(q, BarRq, error);
    OrderlySnoc(q.next, q.log, BarError(OrigId(q), error));
  }

  lemma RunOrderly(q: Queue, steps: seq<Step>)
    requires Good(q) && Orderly(q.next, q.log) && Feasible(q, steps)
    ensures var q' := Run(q, steps); Good(q') && q'.next == q.next && Orderly(q'.next, q'.log)
    decreases |steps|
  {
    if steps != [] {
      StepGood(q, steps[0]);
      StepOrderly(q, steps[0]);
      NextKept(q, steps[0]);
      RunOrderly(Apply(q, steps[0]), steps[1..]);
    }
  }

  // ----- the theorems -----

  /** Every run of every supported queue obeys the rules. */
  lemma RunsObeyRules(m: Method, steps: seq<Step>)
    requires Supported(m) && Feasible(Init(m), steps)
    ensures Orderly(m, Run(Init(m), steps).log)
    ensures Good(Run(Init(m), steps))
  {
    InitInv(m);
    if m.byDrain { InitDrain(m); }
    RunOrderly(Init(m), steps);
  }

  /** In an orderly log a barrier is ended at most once. */
  lemma EndedOnce(m: Method, log: seq<Event>, b: nat, i: nat, j: nat)
    requires Orderly(m, log) && i <= j < |log|
    requires log[i].Ended? && log[i].barrier == b && log[j].Ended? && log[j].barrier == b
    ensures i == j
  {
    assert Rule(m, log[..j], log[j]);
    assert forall k :: 0 <= k < j ==> log[..j][k] == log[k] && log[k] in log[..j];
    assert i < j ==> EndedIn(log[..j], b);
  }

  /** Barrier `b` is waiting in the queue, in progress, or has ended: exactly one of the three. */
  ghost predicate InOnePlace(q: Queue, b: nat) {
    var waiting, started, over := User(b) in NamesOf(q.dispatch), OrigNames(q.orig) == {User(b)}, EndedIn(q.log, b);
    (waiting || started || over) && !(waiting && started) && !(waiting && over) && !(started && over)
  }

  lemma BarrierPlaces(q: Queue, b: nat)
    requires Places(q.dispatch, q.held, q.driver, OrigNames(q.orig)) && Kinds(q) && Records(q) && BarriersEnd(q.log)
    requires IsBarrier(q.log, b)
    ensures InOnePlace(q, b)
  {
    var n := User(b);
    assert b < |q.book| && q.book[b].kind.Barrier?;
    forall k | k in q.held ensures k != n { assert HeldKind(q.book, q.held[k]); }
    forall k | k in q.driver ensures k != n { assert DriverKind(q.book, q.driver[k]); }
  }

  lemma BarrierAccounted(m: Method, steps: seq<Step>, b: nat)
    requires Supported(m) && Feasible(Init(m), steps)
    requires IsBarrier(Run(Init(m), steps).log, b)
    ensures InOnePlace(Run(Init(m), steps), b)
  {
    RunsObeyRules(m, steps);
    RunNext(Init(m), steps);
    var q := Run(Init(m), steps);
    OrderlyBarriersEnd(q);
    BarrierPlaces(q, b);
  }

  lemma RunNext(q: Queue, steps: seq<Step>)
    requires Feasible(q, steps)
    ensures Run(q, steps).next == q.next
    decreases |steps|
  {
    if steps != [] {
      NextKept(q, steps[0]);
      RunNext(Apply(q, steps[0]), steps[1..]);
    }
  }

  // ----- what only draining gives -----

  ghost predicate KeepsOrder(m: Method, log: seq<Event>) {
    forall j :: 0 <= j < |log| ==> InOrder(m, log[..j], log[j])
  }

  const TwoSubmitted := [Submitted(0, Plain), Issued(0), Submitted(1, Barrier(false))]

  /** A request is in the driver, and a barrier at the head. */
  ghost predicate AtBarrier(q: Queue, m: Method) {
    && q.next == m && q.log == TwoSubmitted && q.ordseq == Idle
    && q.dispatch == [Request(User(1), true, true, true, false, false, false)]
  }

  lemma ReachBarrier(m: Method) returns (steps: seq<Step>)
    ensures Feasible(Init(m), steps) && AtBarrier(Run(Init(m), steps), m)
  {
    var q := Init(m);
    var q1 := Apply(q, AddBack(Plain));
    var q2 := Apply(q1, Fetch);
    RunSnoc(q, [], AddBack(Plain));
    RunSnoc(q, [AddBack(Plain)], Fetch);
    RunSnoc(q, [AddBack(Plain)] + [Fetch], AddBack(Barrier(false)));
    steps := [AddBack(Plain)] + [Fetch] + [AddBack(Barrier(false))];
    assert q2.dispatch == [] && q2.log == [Submitted(0, Plain), Issued(0)];
  }

  lemma RejectEnds(q: Queue)
    requires AtBarrier(q, Unordered)
    ensures Apply(q, StartOrdered).log == TwoSubmitted + [Ended(1, EOPNOTSUPP)]
  {
  }

  lemma TagIssues(q: Queue, m: Method)
    requires AtBarrier(q, m) && Supported(m) && m.byTag
    ensures var q1 := Apply(q, StartOrdered);
      Enabled(q1, Fetch) && exists p :: Apply(q1, Fetch).log == TwoSubmitted + [ProxyIssued(1, p)]
  {
    var q1, p := Apply(q, StartOrdered), Proxies(m)[0].name;
    assert q1.log == TwoSubmitted && q1.dispatch[0] == Proxies(m)[0] && q1.ordered == m;
    assert Apply(q1, Fetch).log == TwoSubmitted + [ProxyIssued(1, p)];
  }

  lemma OutOfOrder(m: Method, e: Event)
    requires e.ProxyIssued? || e.Ended?
    requires e.barrier == 1
    ensures !KeepsOrder(m, TwoSubmitted + [e])
  {
    var log := TwoSubmitted + [e];
    assert log[..3] == TwoSubmitted;
    assert IsFsRequest(TwoSubmitted, 0) && !Over(TwoSubmitted, 0) by { assert Submitted(0, Plain) == TwoSubmitted[0]; }
    assert !InOrder(m, log[..3], log[3]);
  }

  /** Without draining, a barrier overtakes a request in the driver. */
  lemma Overtaken(m: Method) returns (steps: seq<Step>)
    requires Supported(m) && !m.byDrain
    ensures Feasible(Init(m), steps) && !KeepsOrder(m, Run(Init(m), steps).log)
  {
    steps := ReachBarrier(m);
    var q := Run(Init(m), steps);
    RunSnoc(Init(m), steps, StartOrdered);
    steps := steps + [StartOrdered];
    if m == Unordered {
      RejectEnds(q);
      OutOfOrder(m, Ended(1, EOPNOTSUPP));
    } else {
      TagIssues(q, m);
      RunSnoc(Init(m), steps, Fetch);
      steps := steps + [Fetch];
      var p :| Run(Init(m), steps).log == TwoSubmitted + [ProxyIssued(1, p)];
      OutOfOrder(m, ProxyIssued(1, p));
    }
  }

  /** The queue itself keeps the order in every run exactly when it drains. */
  lemma KeepsOrderIff(m: Method)
    requires Supported(m)
    ensures m.byDrain <==> forall steps :: Feasible(Init(m), steps) ==> KeepsOrder(m, Run(Init(m), steps).log)
  {
    if m.byDrain {
      forall steps | Feasible(Init(m), steps) ensures KeepsOrder(m, Run(Init(m), steps).log) {
        RunsObeyRules(m, steps);
      }
    } else {
      var steps := Overtaken(m);
    }
  }
}
