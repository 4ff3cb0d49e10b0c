/**
  The request queue updated in place, as the block layer does it: proxies are
  stacked at the head one by one, the requeue position and the next request are
  found by loops.  Every method is tied to the function of `Ordered` for the
  same operation, so the theorems of `OrderedTrace` speak of it.  `ordseq` is the
  mask of bits that the source keeps, and `View` decodes it.
 */
module RequestQueues {
  import opened Ordered
  import opened OrdseqMask
  import opened OrderedSteps
  import opened OrderedService

  function FirstOf(error: int, recorded: int): int { if error != 0 && recorded == 0 then error else recorded }

  /** `CompleteSeq` field by field. */
  lemma CompleteSeqFields(q: Queue, stages: Ordseq, error: int)
    ensures var q', o := CompleteSeq(q, stages, error), Or(q.ordseq, stages);
      q' == if CurSeq(o) == DONE
            then q.(orderr := FirstOf(error, q.orderr), ordseq := Idle, orig := None, ended := q.ended + 1,
                    log := q'.log)
            else q.(orderr := FirstOf(error, q.orderr), ordseq := o, log := q'.log)
  {
  }

  ghost predicate OnlyDispatch(steps: seq<Step>) {
    var holds := forall i :: 0 <= i < |steps| ==> steps[i].Dispatch?;
    holds
  }

  lemma DispatchSnoc(steps: seq<Step>, step: Step)
    requires OnlyDispatch(steps) && step.Dispatch?
    ensures OnlyDispatch(steps + [step])
  {
  }

  /** A sequence that starts without waiting can issue its first proxy at once. */
  lemma FirstProxyPasses(q: Queue)
    requires q.dispatch != [] && q.ordseq == Idle && Proxies(Stashed(q).ordered) != []
    requires !(Stashed(q).ordered.byDrain && Stashed(q).inFlight != 0)
    ensures var q' := StartSequence(q);
      q'.ordseq != Idle && q'.dispatch != [] && Passes(q', q'.dispatch[0])
  {
    var q1 := Stashed(q);
    CompleteSeqFields(q1, Skipped(q1.ordered, q1.inFlight), 0);
    assert q1.dispatch[0] == Proxies(q1.ordered)[0];
  }

  /** A sequence that cannot issue a proxy at once is over, or waits for the driver to drain. */
  lemma SequenceWaits(q: Queue)
    requires q.dispatch != [] && q.ordseq == Idle && StartSequence(q).ordseq != Idle
    requires Proxies(Stashed(q).ordered) == [] || (Stashed(q).ordered.byDrain && Stashed(q).inFlight != 0)
    ensures Withheld(StartSequence(q))
  {
    var q1 := Stashed(q);
    CompleteSeqFields(q1, Skipped(q1.ordered, q1.inFlight), 0);
  }

  /** A sequence is over at once only if it has no proxy. */
  lemma OverAtOnce(q: Queue)
    requires q.dispatch != [] && q.ordseq == Idle && StartSequence(q).ordseq == Idle
    ensures StartSequence(q).dispatch == q.dispatch[1..]
  {
    var q1 := Stashed(q);
    CompleteSeqFields(q1, Skipped(q1.ordered, q1.inFlight), 0);
    assert Proxies(q1.ordered) == [];
  }

  datatype Where = Front | Back | Sort

  /** __elv_add_request: barriers, and requests the scheduler has no data for, go to the back. */
  function Placement(kind: Kind, soft: bool, priv: bool, where: Where): Where {
    if where == Sort && (kind.Barrier? || soft || !priv) then Back else where
  }

  /** Only plain requests with scheduler data reach the scheduler; a barrier goes to the back of the queue. */
  lemma PlacedBySort(kind: Kind, soft: bool, priv: bool, where: Where)
    ensures Placement(kind, soft, priv, where) == Sort <==> where == Sort && !kind.Barrier? && !soft && priv
    ensures where == Sort ==> Placement(kind, soft, priv, where) != Front
    ensures where != Sort ==> Placement(kind, soft, priv, where) == where
  {
  }

  function InsertionStep(kind: Kind, where: Where): Step {
    match where
    case Front => AddFront
    case Back => AddBack(kind)
    case Sort => AddSort
  }

  class RequestQueue {
    var nextOrdered: Method
    var ordered: Method
    var ordseq: Mask
    var orderr: int
    var origBar: Option<Request>
    var ordcolor: bool
    var dispatch: seq<Request>
    var held: map<Name, Request>
    var driver: map<Name, Request>
    var inFlight: int
    ghost var book: seq<Entry>
    ghost var epoch: nat
    ghost var ended: nat
    ghost var log: seq<Event>

    ghost function View(): Queue
      reads this
    {
      Queue(nextOrdered, ordered, Decode(ordseq), orderr, origBar, ordcolor, dispatch, held, driver, inFlight,
            book, epoch, ended, log)
    }

    constructor (m: Method)
      ensures View() == Init(m)
    {
      nextOrdered, ordered, ordseq, orderr, origBar, ordcolor := m, m, 0, 0, None, false;
      dispatch, held, driver, inFlight := [], map[], map[], 0;
      book, epoch, ended, log := [], 0, 0, [];
    }

    /** blk_ordered_req_seq */
    method RequestSeq(r: Request) returns (s: bv8)
      ensures SequenceBit(s) && SeqValue(s) == ReqSeq(View(), r)
    {
      match r.name
      case PreFlushRq => s := PREFLUSH_BIT;
      case BarRq => s := BAR_BIT;
      case PostFlushRq => s := POSTFLUSH_BIT;
      case User(_) =>
        if !r.fs || (origBar.Some? && origBar.value.color == r.color) {
          s := DRAIN_BIT;
        } else {
          s := DONE_BIT;
        }
    }

    /** blk_ordered_complete_seq */
    method FinishStages(stages: Mask, error: int) returns (over: bool)
      modifies this
      ensures View() == CompleteSeq(old(View()), Decode(stages), error)
      ensures over == (CurSeq(Or(old(Decode(ordseq)), Decode(stages))) == DONE)
    {
      ghost var q, q1 := View(), CompleteSeq(View(), Decode(stages), error);
      CompleteSeqFields(q, Decode(stages), error);
      if error != 0 && orderr == 0 {
        orderr := error;
      }
      ordseq, over := SetBits(ordseq, stages);
      if over {
        ordseq, origBar, ended := 0, None, ended + 1;
        IdleBits(ordseq);
      }
      log := q1.log;
    }

    /** elv_completed_request */
    method CompletedRequest(r: Request)
      modifies this
      ensures View() == Ordered.CompletedRequest(old(View()), r)
    {
      if r.Accounted() {
        inFlight := inFlight - 1;
      }
      IdleBits(ordseq);
      if ordseq != 0 {
        var later := true;
        if dispatch != [] {
          var s := RequestSeq(dispatch[0]);
          CompareBits(DRAIN_BIT, s);
          later := s > DRAIN_BIT;
        }
        var cur := CurrentBit(ordseq);
        if inFlight == 0 && cur == DRAIN_BIT && later {
          var _ := FinishStages(DRAIN_BIT, 0);
        }
      }
    }

    /** blk_dequeue_request on the head */
    method DequeueHead()
      requires dispatch != []
      modifies this`dispatch, this`inFlight
      ensures dispatch == old(dispatch)[1..]
      ensures inFlight == if old(dispatch)[0].Accounted() then old(inFlight) + 1 else old(inFlight)
    {
      if dispatch[0].Accounted() {
        inFlight := inFlight + 1;
      }
      dispatch := dispatch[1..];
    }

    /** The proxies are stacked at the head, so they are queued in reverse order. */
    method StackProxies() returns (rq: Option<Request>, skip: Mask)
      modifies this`dispatch
      ensures dispatch == Proxies(ordered) + old(dispatch)
      ensures rq.Some? ==> Proxies(ordered) != [] && rq.value == Proxies(ordered)[0]
      ensures Proxies(ordered) != [] ==> rq.Some?
      ensures Decode(skip) == Ordseq(false, false, !ordered.pre, !ordered.bar, !ordered.post)
    {
      rq, skip := None, 0;
      if ordered.post {
        dispatch, rq := [PostFlushProxy] + dispatch, Some(PostFlushProxy);
      } else {
        skip := skip | POSTFLUSH_BIT;
      }
      if ordered.bar {
        dispatch, rq := [BarProxy] + dispatch, Some(BarProxy);
      } else {
        skip := skip | BAR_BIT;
      }
      if ordered.pre {
        dispatch, rq := [PreFlushProxy] + dispatch, Some(PreFlushProxy);
      } else {
        skip := skip | PREFLUSH_BIT;
      }
    }

    /** start_ordered up to the stashing of the original request */
    method StashOriginal()
      requires dispatch != []
      modifies this`orderr, this`ordered, this`ordseq, this`origBar, this`dispatch, this`inFlight
      ensures orderr == 0 && ordered == SequenceMethod(nextOrdered, old(dispatch)[0].empty)
      ensures Decode(ordseq) == old(Decode(ordseq)).(started := true) && origBar == Some(old(dispatch)[0])
      ensures dispatch == old(dispatch)[1..]
      ensures inFlight == if old(dispatch)[0].Accounted() then old(inFlight) + 1 else old(inFlight)
    {
      var r := dispatch[0];
      orderr, ordered, ordseq := 0, nextOrdered, ordseq | STARTED_BIT;
      if r.empty {
        ordered := ordered.(bar := false, post := false);
        if ordered.byTag && !ordered.pre {
          ordered := ordered.(byTag := false, byDrain := true);
        }
      }
      DequeueHead();
      origBar := Some(r);
    }

    /** Everything start_ordered does before it completes the skipped stages. */
    method QueueSequence() returns (rq: Option<Request>, skip: Mask)
      requires dispatch != []
      modifies this
      ensures View() == Stashed(old(View())) && Decode(skip) == Skipped(ordered, inFlight)
      ensures rq.Some? <==> Proxies(ordered) != [] && !(ordered.byDrain && inFlight != 0)
      ensures rq.Some? ==> rq.value == Proxies(ordered)[0]
    {
      StashOriginal();
      rq, skip := StackProxies();
      if ordered.byDrain && inFlight != 0 {
        rq := None;
      } else {
        skip := skip | DRAIN_BIT;
      }
    }

    /** start_ordered */
    method StartOrdered() returns (rq: Option<Request>, alive: bool)
      requires dispatch != [] && ordseq == 0
      modifies this
      ensures View() == StartSequence(old(View()))
      ensures rq.Some? && alive ==> dispatch != [] && rq.value == dispatch[0] && Passes(View(), dispatch[0])
      ensures rq.None? && alive ==> Withheld(View())
      ensures !alive ==> dispatch == old(dispatch)[1..]
    {
      ghost var q := View();
      var skip;
      rq, skip := QueueSequence();
      CompleteSeqFields(View(), Decode(skip), 0);
      var over := FinishStages(skip, 0);
      alive := !over;
      if rq.Some? { FirstProxyPasses(q); }
      if over { OverAtOnce(q); } else if rq.None? { SequenceWaits(q); }
    }

    /** blk_do_ordered with an unsupported barrier */
    method RejectHead()
      requires dispatch != []
      modifies this
      ensures View() == Reject(old(View()))
    {
      var r := dispatch[0];
      log := Reject(View()).log;
      ended := ended + 1;
      DequeueHead();
      if r.Accounted() {
        inFlight := inFlight - 1;
      }
    }

    /** Waiting for its turn: whether the ordering lets head `r` through. */
    method MayPass(r: Request) returns (pass: bool)
      requires ordseq != 0
      ensures pass == Passes(View(), r)
    {
      IdleBits(ordseq);
      if r.Free() {
        return true;
      }
      if ordered.byTag {
        pass := !(r.Barrier() && r.name != BarRq);
      } else {
        var s := RequestSeq(r);
        var cur := CurrentBit(ordseq);
        CompareBits(cur, s);
        pass := s <= cur;
      }
    }

    /** blk_do_ordered on the head: what may be issued, and whether the head is still there. */
    method DoOrdered() returns (rq: Option<Request>, settled: bool, ghost steps: seq<Step>)
      requires dispatch != []
      modifies this
      ensures Feasible(old(View()), steps) && View() == Run(old(View()), steps)
      ensures rq.Some? && settled ==> dispatch != [] && rq.value == dispatch[0] && Passes(View(), dispatch[0])
      ensures rq.None? && settled ==> Withheld(View())
      ensures !settled ==> dispatch == old(dispatch)[1..]
      ensures !settled ==> held == old(held)
    {
      var r := dispatch[0];
      IdleBits(ordseq);
      if ordseq == 0 {
        if !r.Barrier() {
          return Some(r), true, [];
        }
        steps := [Step.StartOrdered];
        if nextOrdered != Unordered {
          rq, settled := StartOrdered();
        } else {
          RejectHead();
          rq, settled := None, false;
        }
      } else {
        var pass := MayPass(r);
        rq, settled, steps := if pass then Some(r) else None, true, [];
      }
    }

    /** The scheduler feeds the tail of the dispatch queue with some request it holds. */
    method DispatchOne() returns (moved: bool, ghost step: Step)
      modifies this`held, this`dispatch
      ensures moved <==> old(held) != map[]
      ensures moved ==> Enabled(old(View()), step) && step.Dispatch? && View() == Apply(old(View()), step)
      ensures moved ==> |held| == |old(held)| - 1 && |dispatch| == |old(dispatch)| + 1
      ensures !moved ==> held == old(held) && dispatch == old(dispatch)
    {
      step := AddFront;
      moved := held != map[];
      if moved {
        assert held.Keys != {};
        var n :| n in held.Keys;
        step := Dispatch(n, |dispatch|);
        assert dispatch + [held[n]] == InsertAt(dispatch, |dispatch|, held[n]);
        assert held.Keys == (held - {n}).Keys + {n};
        dispatch, held := dispatch + [held[n]], held - {n};
      }
    }

    /** __elv_next_request */
    method NextRequest() returns (rq: Option<Request>, ghost steps: seq<Step>)
      modifies this
      ensures Feasible(old(View()), steps) && View() == Run(old(View()), steps)
      ensures rq.Some? ==> dispatch != [] && rq.value == dispatch[0] && Passes(View(), dispatch[0])
      ensures rq.None? ==> Exhausted(View()) || Withheld(View())
    {
      steps := [];
      while true
        invariant Feasible(old(View()), steps) && View() == Run(old(View()), steps)
        decreases 2 * |held| + |dispatch|
      {
        if dispatch != [] {
          var settled;
          ghost var more;
          rq, settled, more := DoOrdered();
          RunAppend(old(View()), steps, more);
          steps := steps + more;
          if settled {
            return;
          }
        } else {
          var moved;
          ghost var step;
          moved, step := DispatchOne();
          if !moved {
            return None, steps;
          }
          RunSnoc(old(View()), steps, step);
          steps := steps + [step];
        }
      }
    }

    /** blk_peek_request, once for the request at hand */
    method PeekRequest() returns (rq: Option<Request>, ghost steps: seq<Step>)
      modifies this
      ensures Feasible(old(View()), steps) && View() == Run(old(View()), steps)
      ensures rq.Some? ==> dispatch != [] && rq.value == dispatch[0] && rq.value.started
      ensures rq.None? ==> Exhausted(View()) || Withheld(View())
    {
      rq, steps := NextRequest();
      if rq.Some? {
        RunSnoc(old(View()), steps, Peek);
        steps := steps + [Peek];
        MarkStarted();
        rq := Some(dispatch[0]);
      }
    }

    method MarkStarted()
      requires dispatch != []
      modifies this`dispatch, this`log
      ensures View() == PeekHead(old(View()))
      ensures dispatch != [] && dispatch[0].started
    {
      log := PeekHead(View()).log;
      dispatch := dispatch[0 := dispatch[0].(started := true)];
    }

    /** blk_start_request */
    method StartRequest()
      requires dispatch != []
      modifies this`dispatch, this`driver, this`inFlight
      ensures View() == StartHead(old(View()))
    {
      driver := driver[dispatch[0].name := dispatch[0]];
      DequeueHead();
    }

    /** blk_fetch_request.  An idle driver gets a request as long as there is one, on queues that always serve. */
    method FetchRequest() returns (rq: Option<Request>, ghost steps: seq<Step>)
      modifies this
      ensures Feasible(old(View()), steps) && View() == Run(old(View()), steps)
      ensures rq.Some? ==> rq.value.name in driver && driver[rq.value.name] == rq.value && rq.value.started
      ensures rq.None? ==> Exhausted(View()) || Withheld(View())
      ensures rq.None? && old(Steady(View())) && AlwaysServes(nextOrdered) && driver == map[] ==> Exhausted(View())
    {
      ghost var q := View();
      rq, steps := NextRequest();
      if rq.None? && Steady(q) {
        RunSteady(q, steps);
        if AlwaysServes(nextOrdered) && Withheld(View()) {
          IdleDriverServed(View());
        }
      }
      if rq.Some? {
        RunSnoc(old(View()), steps, Fetch);
        steps := steps + [Fetch];
        MarkStarted();
        rq := Some(dispatch[0]);
        StartRequest();
      }
    }

    /** elv_drain_elevator */
    method DrainScheduler() returns (ghost steps: seq<Step>)
      modifies this`held, this`dispatch
      ensures Feasible(old(View()), steps) && View() == Run(old(View()), steps)
      ensures held == map[]
      ensures OnlyDispatch(steps)
    {
      steps := [];
      var moved := true;
      while moved
        invariant Feasible(old(View()), steps) && View() == Run(old(View()), steps)
        invariant !moved ==> held == map[]
        invariant OnlyDispatch(steps)
        decreases |held|, moved
      {
        ghost var step;
        moved, step := DispatchOne();
        if moved {
          RunSnoc(old(View()), steps, step);
          DispatchSnoc(steps, step);
          steps := steps + [step];
        }
      }
    }

    /** __elv_add_request: the request takes the queue's colour, a barrier toggles it. */
    method TakeColor(id: nat, kind: Kind, soft: bool) returns (r: Request)
      requires id == |book|
      modifies this`ordcolor, this`book, this`epoch, this`log
      ensures View() == Submit(old(View()), kind)
      ensures r == NewRequest(old(View()), kind, soft)
    {
      r := Request(User(id), IsFs(kind), kind.Barrier?, soft, false, ordcolor, kind.Barrier? && kind.empty);
      ghost var q := Submit(View(), kind);
      if kind.Barrier? {
        ordcolor := !ordcolor;
      }
      book, epoch, log := q.book, q.epoch, q.log;
    }

    /**
      __elv_add_request and elv_insert.  Only special requests go to the front,
      and only fs requests are given to the scheduler.
     */
    method AddRequest(id: nat, kind: Kind, soft: bool, priv: bool, where: Where) returns (ghost steps: seq<Step>)
      requires id == |book|
      requires where == Front ==> kind.Special?
      requires where == Sort && priv && !soft ==> !kind.Special?
      modifies this
      ensures Feasible(old(View()), steps) && View() == Run(old(View()), steps)
      ensures steps != [] && steps[|steps| - 1] == InsertionStep(kind, Placement(kind, soft, priv, where))
      ensures OnlyDispatch(steps[..|steps| - 1])
    {
      var place := Placement(kind, soft, priv, where);
      steps := [];
      if place == Back {
        steps := DrainScheduler();
      }
      RunSnoc(old(View()), steps, InsertionStep(kind, place));
      ghost var drained := steps;
      steps := steps + [InsertionStep(kind, place)];
      assert steps[..|steps| - 1] == drained;
      var r := TakeColor(id, kind, place != Sort);
      match place
      case Front => dispatch := [r] + dispatch;
      case Back => dispatch := dispatch + [r];
      case Sort => held := held[r.name := r];
    }

    /** ELEVATOR_INSERT_REQUEUE: the place a requeued request goes to. */
    method RequeuePosition(r: Request) returns (p: nat)
      ensures p == RequeuePos(View(), r)
    {
      p := 0;
      IdleBits(ordseq);
      if ordseq == 0 {
        return;
      }
      var o := RequestSeq(r);
      while p < |dispatch|
        invariant p <= |dispatch|
        invariant RequeueFrom(View(), SeqValue(o), 0) == RequeueFrom(View(), SeqValue(o), p)
      {
        var s := RequestSeq(dispatch[p]);
        CompareBits(s, o);
        if o <= s {
          break;
        }
        p := p + 1;
      }
    }

    /** blk_requeue_request, elv_requeue_request */
    method Requeue(n: Name)
      requires n in driver
      modifies this
      ensures View() == RequeueRequest(old(View()), n)
    {
      var r := driver[n];
      var p := RequeuePosition(r);
      if r.Accounted() {
        inFlight := inFlight - 1;
      }
      dispatch := InsertAt(dispatch, p, r.(started := false, soft := true));
      driver := driver - {n};
    }

    /** The driver completes request `n`; the end_io handlers of the proxies finish their stage. */
    method EndRequest(n: Name, error: int)
      requires n in driver
      modifies this
      ensures View() == CompleteRequest(old(View()), n, error)
    {
      var r := driver[n];
      driver := driver - {n};
      log := log + [if n.User? then Finished(n.id) else ProxyFinished(OrigId(View()), n, error)];
      CompletedRequest(r);
      if !n.User? {
        var bit := if n.PreFlushRq? then PREFLUSH_BIT else if n.BarRq? then BAR_BIT else POSTFLUSH_BIT;
        var _ := FinishStages(bit, error);
      }
    }

    /** req_bio_endio while the bar request is in progress */
    method BarIoError(error: int)
      modifies this`orderr, this`log
      ensures View() == if error != 0 then RecordError(old(View()), error) else old(View())
    {
      if error != 0 {
        log := RecordError(View(), error).log;
        orderr := if orderr == 0 then error else orderr;
      }
    }
  }
}
