/**
  When an idle driver is served.

  On every supported queue but one, a driver that holds nothing gets the head of
  the dispatch queue, or the head starts its own sequence.  The exception is the
  queue that orders by tag without flushes: an empty barrier makes it drain, and a
  request that was requeued two barriers late has the wrong colour for that.
 */
module OrderedService {
  import opened Ordered
  import opened OrderedInvariant
  import opened OrderedSteps
  import opened OrderedDrain
  import opened OrderedTrace
  import opened OrderedTag

  /** Not by tag without a pre-flush. */
  predicate AlwaysServes(m: Method) { !(m.byTag && !m.pre) }

  ghost predicate Steady(q: Queue) { Good(q) && TagOrder(q) }

  /** The head is not withheld from an idle driver. */
  ghost predicate Served(q: Queue) {
    q.driver == map[] && q.dispatch != [] ==> Enabled(q, Peek) || Enabled(q, StartOrdered)
  }

  lemma {:induction false} RunSteady(q: Queue, steps: seq<Step>)
    requires Steady(q) && Feasible(q, steps)
    ensures Steady(Run(q, steps)) && Run(q, steps).next == q.next
    decreases |steps|
  {
    if steps != [] {
      StepGood(q, steps[0]);
      StepTag(q, steps[0]);
      NextKept(q, steps[0]);
      RunSteady(Apply(q, steps[0]), steps[1..]);
    }
  }

  lemma InitSteady(m: Method)
    requires Supported(m)
    ensures Steady(Init(m))
  {
    InitInv(m);
    if m.byDrain { InitDrain(m); }
  }

  // ----- the head -----

  lemma HeadPasses(q: Queue)
    requires q.driver == map[] && q.dispatch != [] && q.ordseq.started && q.orig.Some? && !q.dispatch[0].Free()
    requires Kinds(q) && OrigEpoch(q.book, q.orig, q.ended) && CurSeq(q.ordseq) != DONE
    requires ProxiesPending(NamesOf(q.dispatch) + q.driver.Keys, q.ordseq)
    requires Configuration(q.next, q.ordered, q.ordseq, q.orig) && q.next.byDrain
    requires BarrierLine(q.book, q.dispatch, Lowest(q.orig, q.ended), q.epoch)
    requires Sorted(q.book, q.dispatch, q.orig.Some?, q.ended)
    requires DispatchOld(q.book, q.dispatch, q.ordseq, q.ended)
    requires Draining(q)
    ensures Passes(q, q.dispatch[0])
  {
    var d, r := q.dispatch, q.dispatch[0];
    HeadSeq(q);
    assert DispatchKind(q.book, r);
    if q.ordseq.drain {
      var n := CurrentProxy(q.ordseq);
      assert Pending(q.ordseq, n);
      assert n in NamesOf(d) + q.driver.Keys;
      var i :| 0 <= i < |d| && d[i].name == n;
      assert DispatchKind(q.book, d[i]);
    }
  }

  lemma DrainHead(q: Queue)
    requires Inv(q) && Drain(q) && q.driver == map[] && q.dispatch != [] && q.ordseq != Idle
    ensures Passes(q, q.dispatch[0])
  {
    if !q.dispatch[0].Free() { HeadPasses(q); }
  }

  lemma TagHead(q: Queue)
    requires Inv(q) && TagOrder(q) && q.driver == map[] && q.dispatch != [] && q.ordseq != Idle
    requires !q.next.byDrain && AlwaysServes(q.next)
    ensures Passes(q, q.dispatch[0])
  {
    assert q.ordered.byTag;
    TagServed(q);
  }

  /** Unless a sequence runs, the head passes or starts one. */
  lemma ServedBy(q: Queue)
    requires q.dispatch != [] && q.ordseq != Idle ==> Passes(q, q.dispatch[0])
    ensures Served(q)
  {
  }

  lemma HeadServed(q: Queue)
    requires Steady(q) && AlwaysServes(q.next)
    ensures Served(q)
  {
    if q.driver == map[] && q.dispatch != [] {
      if q.ordseq != Idle {
        if q.next.byDrain { DrainHead(q); } else { TagHead(q); }
      }
      ServedBy(q);
    }
  }

  /** What such a queue withholds, it withholds for a request that the driver holds. */
  lemma IdleDriverServed(q: Queue)
    requires Steady(q) && AlwaysServes(q.next) && Withheld(q)
    ensures q.driver != map[]
  {
    HeadServed(q);
    assert q.driver == map[] ==> FsNames(q.driver) == {};
  }

  // ----- the exception -----

  const PlainTag := Method(false, true, false, true, false)

  /** The queue between two steps, without its history. */
  ghost predicate Stands(q: Queue, d: seq<Request>, driver: map<Name, Request>, inFlight: int, o: Ordseq,
                         orig: Option<Request>, color: bool, submitted: nat)
  {
    && q.next == PlainTag && q.dispatch == d && q.held == map[] && q.driver == driver && q.inFlight == inFlight
    && q.ordseq == o && q.orig == orig && q.ordcolor == color && |q.book| == submitted
  }

  /** The request that is requeued, the two barriers behind it, and a special request. */
  const Early := Request(User(0), true, false, true, false, false, false)
  const First := Request(User(1), true, true, true, false, false, false)
  const Second := Request(User(2), true, true, true, false, true, true)
  const Late := Request(User(3), false, false, true, false, false, false)

  /** A sequence that waits for the driver to drain, and has no proxy. */
  const Waiting := Ordseq(true, false, true, true, true)

  lemma EarlyIssued(q: Queue)
    requires Stands(q, [], map[], 0, Idle, None, false, 0)
    ensures Feasible(q, [AddBack(Plain), Fetch])
    ensures Stands(Run(q, [AddBack(Plain), Fetch]), [], map[User(0) := Early.(started := true)], 1, Idle, None,
                   false, 1)
  {
    var q1 := Apply(q, AddBack(Plain));
    assert q1.dispatch == [Early];
    assert [AddBack(Plain), Fetch][1..] == [Fetch];
  }

  lemma FirstStarts(q: Queue)
    requires Stands(q, [], map[User(0) := Early.(started := true)], 1, Idle, None, false, 1)
    ensures Feasible(q, [AddBack(Barrier(false)), StartOrdered])
    ensures var q' := Run(q, [AddBack(Barrier(false)), StartOrdered]);
      && Stands(q', [BarProxy], map[User(0) := Early.(started := true)], 1, Ordseq(true, true, true, false, true),
                Some(First), true, 2)
      && q'.ordered == PlainTag
  {
    var q1 := Apply(q, AddBack(Barrier(false)));
    assert q1.dispatch == [First];
    assert [AddBack(Barrier(false)), StartOrdered][1..] == [StartOrdered];
    assert Proxies(PlainTag) == [BarProxy];
  }

  lemma FirstEnds(q: Queue)
    requires Stands(q, [BarProxy], map[User(0) := Early.(started := true)], 1, Ordseq(true, true, true, false, true),
                    Some(First), true, 2)
    requires q.ordered == PlainTag
    ensures Feasible(q, [Fetch, Complete(BarRq, 0)])
    ensures Stands(Run(q, [Fetch, Complete(BarRq, 0)]), [], map[User(0) := Early.(started := true)], 1, Idle, None,
                   true, 2)
  {
    var q1 := Apply(q, Fetch);
    assert q1.driver[BarRq] == BarProxy.(started := true);
    assert q1.driver - {BarRq} == map[User(0) := Early.(started := true)];
    assert [Fetch, Complete(BarRq, 0)][1..] == [Complete(BarRq, 0)];
  }

  lemma SecondStarts(q: Queue)
    requires Stands(q, [], map[User(0) := Early.(started := true)], 1, Idle, None, true, 2)
    ensures Feasible(q, [AddBack(Barrier(true)), StartOrdered])
    ensures var q' := Run(q, [AddBack(Barrier(true)), StartOrdered]);
      && Stands(q', [], map[User(0) := Early.(started := true)], 1, Waiting, Some(Second), false, 3)
      && !q'.ordered.byTag
  {
    var q1 := Apply(q, AddBack(Barrier(true)));
    assert q1.dispatch == [Second];
    assert [AddBack(Barrier(true)), StartOrdered][1..] == [StartOrdered];
  }

  lemma EarlyRequeued(q: Queue)
    requires Stands(q, [], map[User(0) := Early.(started := true)], 1, Waiting, Some(Second), false, 3)
    requires !q.ordered.byTag
    ensures Feasible(q, [Requeue(User(0))])
    ensures var q' := Run(q, [Requeue(User(0))]);
      Stands(q', [Early], map[], 0, Waiting, Some(Second), false, 3) && !q'.ordered.byTag && !Served(q')
  {
    assert Apply(q, Requeue(User(0))).dispatch == [Early];
  }

  lemma LateServed(q: Queue)
    requires Stands(q, [Early], map[], 0, Waiting, Some(Second), false, 3) && !q.ordered.byTag
    ensures Feasible(q, [AddFront, Fetch, Complete(User(3), 0)])
    ensures var q' := Run(q, [AddFront, Fetch, Complete(User(3), 0)]);
      q'.dispatch == [Early] && EndedIn(q'.log, 2) && |q'.book| == 4
  {
    var q1 := Apply(q, AddFront);
    assert q1.dispatch == [Late, Early];
    var q2 := Apply(q1, Fetch);
    var q3 := Apply(q2, Complete(User(3), 0));
    assert Ended(2, q.orderr) in q3.log;
    assert [AddFront, Fetch, Complete(User(3), 0)][1..] == [Fetch, Complete(User(3), 0)];
    assert [Fetch, Complete(User(3), 0)][1..] == [Complete(User(3), 0)];
  }

  /** The first barrier comes and goes while the early request is in the driver; the second one waits for it. */
  const Hang := [AddBack(Plain), Fetch, AddBack(Barrier(false)), StartOrdered, Fetch, Complete(BarRq, 0),
                 AddBack(Barrier(true)), StartOrdered, Requeue(User(0))]

  lemma FirstPasses(q: Queue)
    requires Stands(q, [], map[], 0, Idle, None, false, 0)
    ensures Feasible(q, Hang[..6])
    ensures Stands(Run(q, Hang[..6]), [], map[User(0) := Early.(started := true)], 1, Idle, None, true, 2)
  {
    EarlyIssued(q);
    var q1 := Run(q, [AddBack(Plain), Fetch]);
    FirstStarts(q1);
    var q2 := Run(q1, [AddBack(Barrier(false)), StartOrdered]);
    FirstEnds(q2);
    RunAppend(q1, [AddBack(Barrier(false)), StartOrdered], [Fetch, Complete(BarRq, 0)]);
    var more := [AddBack(Barrier(false)), StartOrdered] + [Fetch, Complete(BarRq, 0)];
    RunAppend(q, [AddBack(Plain), Fetch], more);
    assert [AddBack(Plain), Fetch] + more == Hang[..6];
  }

  /** Driver and scheduler are empty, a request waits, and nobody serves it. */
  lemma PlainTagHangs()
    ensures Feasible(Init(PlainTag), Hang)
    ensures var q := Run(Init(PlainTag), Hang);
      !Served(q) && !q.ordered.byTag && Stands(q, [Early], map[], 0, Waiting, Some(Second), false, 3)
  {
    var q := Init(PlainTag);
    FirstPasses(q);
    var q1 := Run(q, Hang[..6]);
    SecondStarts(q1);
    var q2 := Run(q1, [AddBack(Barrier(true)), StartOrdered]);
    EarlyRequeued(q2);
    RunAppend(q1, [AddBack(Barrier(true)), StartOrdered], [Requeue(User(0))]);
    var more := [AddBack(Barrier(true)), StartOrdered] + [Requeue(User(0))];
    RunAppend(q, Hang[..6], more);
    assert Hang[..6] + more == Hang;
  }

  /** A special request then ends the second barrier, although it drained the queue and request 0 is not over. */
  lemma PlainTagEndsEarly()
    ensures var steps := Hang + [AddFront, Fetch, Complete(User(3), 0)];
      && Feasible(Init(PlainTag), steps)
      && EndedIn(Run(Init(PlainTag), steps).log, 2) && !Over(Run(Init(PlainTag), steps).log, 0)
  {
    var q, more := Init(PlainTag), [AddFront, Fetch, Complete(User(3), 0)];
    PlainTagHangs();
    LateServed(Run(q, Hang));
    RunAppend(q, Hang, more);
    RunsObeyRules(PlainTag, Hang + more);
    var q' := Run(q, Hang + more);
    assert q'.dispatch[0] in q'.dispatch && User(0) in NamesOf(q'.dispatch);
    LiveNotOver(q', 0);
  }

  /** An idle driver is served in every run of a queue exactly when it does not order by tag without flushes. */
  lemma ServedIff(m: Method)
    requires Supported(m)
    ensures AlwaysServes(m) <==> forall steps :: Feasible(Init(m), steps) ==> Served(Run(Init(m), steps))
  {
    if AlwaysServes(m) {
      forall steps | Feasible(Init(m), steps) ensures Served(Run(Init(m), steps)) {
        InitSteady(m);
        RunSteady(Init(m), steps);
        HeadServed(Run(Init(m), steps));
      }
    } else {
      assert m == PlainTag;
      PlainTagHangs();
    }
  }
}
