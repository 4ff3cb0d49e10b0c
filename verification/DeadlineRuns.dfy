/** The promises of the deadline scheduler, over every run. */
module DeadlineRuns {
  import opened Lists
  import opened Deadline
  import opened DeadlineInvariant
  import opened DeadlineSteps

  lemma {:induction false} RunInv(t: Tunables, s: Sched, es: seq<Event>, q: Sched)
    requires Inv(t, s) && Leads(t, s, es, q)
    ensures Inv(t, q)
    decreases |es|
  {
    if es != [] {
      StepInv(t, s, es[0]);
      RunInv(t, Step(t, s, es[0]), es[1..], q);
    }
  }

  lemma InitInv(t: Tunables)
    ensures Inv(t, Init())
  {
  }

  /**
    In every reachable state tree and FIFO of a direction hold the same requests,
    the tree in order of distinct sectors, the next request of a batch is queued
    and belongs to one direction, and nr_sorted counts what is held.
   */
  lemma IndexesAgree(t: Tunables, es: seq<Event>, q: Sched, d: Dir)
    requires Leads(t, Init(), es, q)
    ensures Elems(SideOf(q, d).tree) == Elems(SideOf(q, d).fifo) && NoDup(SideOf(q, d).tree) && NoDup(SideOf(q, d).fifo)
    ensures InSectorOrder(q.rqs, SideOf(q, d).tree)
    ensures SideOf(q, d).next.Some? ==> SideOf(q, d).next.value in Elems(SideOf(q, d).tree)
    ensures q.read.next.None? || q.write.next.None?
    ensures q.sorted == |q.read.fifo| + |q.write.fifo|
  {
    InitInv(t);
    RunInv(t, Init(), es, q);
    CoreEither(t, q, d);
    RisingAbove(q.rqs, SideOf(q, d).tree, None);
  }

  /** The head of each FIFO has the earliest deadline of its direction. */
  lemma EarliestFirst(t: Tunables, es: seq<Event>, q: Sched, d: Dir, id: nat)
    requires Leads(t, Init(), es, q) && id in q.rqs && q.rqs[id].dir == d
    ensures var fifo := SideOf(q, d).fifo;
      fifo != [] && fifo[0] in q.rqs && q.rqs[fifo[0]].expires <= q.rqs[id].expires
  {
    InitInv(t);
    RunInv(t, Init(), es, q);
    CoreEither(t, q, d);
    InOwn(t, q.rqs, SideOf(q, d), SideOf(q, Other(d)), d, q.now, id);
    HeadIsEarliest(q.rqs, SideOf(q, d).fifo, None, q.now + Expire(t, d));
  }

  /** Of two merged requests the survivor keeps the earlier deadline, and the other is gone. */
  lemma EarlierDeadlineKept(s: Sched, id: nat, next: nat)
    requires id in s.rqs && next in s.rqs && id != next && s.rqs[id].dir == s.rqs[next].dir
    ensures var s1 := MergedRequests(s, id, next);
      && next !in s1.rqs && id in s1.rqs && s1.rqs[id].expires <= s.rqs[id].expires
      && s1.rqs[id].expires <= s.rqs[next].expires
      && (s1.rqs[id].expires == s.rqs[id].expires || s1.rqs[id].expires == s.rqs[next].expires)
      && s1.rqs[id].start == s.rqs[id].start && s1.rqs[id].end == s.rqs[next].end && s1.out == s.out
  {
    MergedShape(s, s.rqs[id].dir, id, next);
  }

  // ----- draining -----

  /** Dispatches `i` to `i + n - 1`, each at its time. */
  function Drain(t: Tunables, s: Sched, clock: nat -> int, i: nat, n: nat): Sched
    decreases n
  {
    if n == 0 then s else Drain(t, Dispatch(t, s.(now := clock(i))), clock, i + 1, n - 1)
  }

  ghost predicate Forward(clock: nat -> int) { forall i: nat, j: nat :: i <= j ==> clock(i) <= clock(j) }

  ghost predicate Empty(q: Sched) {
    q.read.fifo == [] && q.write.fifo == [] && q.read.tree == [] && q.write.tree == [] && q.sorted == 0
  }

  /**
    elv_drain_elevator: as many forced dispatches as requests are held empty the
    scheduler, however much time passes between them.
   */
  lemma {:induction false} DrainEmpties(t: Tunables, s: Sched, clock: nat -> int, i: nat, n: nat)
    requires Inv(t, s) && Forward(clock) && s.now <= clock(i) && n >= Held(s)
    ensures Empty(Drain(t, s, clock, i, n)) && Choose(t, Drain(t, s, clock, i, n)).Nothing?
    decreases n
  {
    if n > 0 {
      var s1 := Dispatch(t, s.(now := clock(i)));
      DispatchAt(t, s, clock(i));
      DrainEmpties(t, s1, clock, i + 1, n - 1);
      assert Drain(t, s, clock, i, n) == Drain(t, s1, clock, i + 1, n - 1);
    } else {
      NothingLeft(t, s);
    }
  }

  lemma NothingLeft(t: Tunables, s: Sched)
    requires Inv(t, s) && Held(s) == 0
    ensures Empty(s) && Choose(t, s).Nothing?
  {
    EmptyTree(s.read.tree);
    EmptyTree(s.write.tree);
    CoreEither(t, s, Write);
    NextInFifo(t, s, Read);
    NextInFifo(t, s, Write);
  }

  /** A dispatch at a later time. */
  lemma DispatchAt(t: Tunables, s: Sched, now: int)
    requires Inv(t, s) && s.now <= now
    ensures var q := Dispatch(t, s.(now := now));
      Inv(t, q) && q.now == now && Held(q) == if Held(s) == 0 then 0 else Held(s) - 1
  {
    LaterCore(t, s, now);
    DispatchInv(t, s.(now := now));
    ClockKept(t, s.(now := now));
  }

  lemma ClockKept(t: Tunables, s: Sched)
    ensures Dispatch(t, s).now == s.now
  {
  }

  lemma EmptyTree(s: seq<nat>)
    ensures Elems(s) == {} ==> s == []
  {
    if s != [] {
      assert s[0] in Elems(s);
    }
  }

  // ----- starvation -----

  function BatchSize(t: Tunables): nat { if t.fifoBatch > 1 then t.fifoBatch else 1 }

  /** How many reads may still be dispatched before a write. */
  function Patience(t: Tunables, s: Sched): int {
    (if s.batching < t.fifoBatch then t.fifoBatch - s.batching else 0) + (t.writesStarved - s.starved) * BatchSize(t)
  }

  predicate ChoosesRead(t: Tunables, s: Sched) {
    match Choose(t, s)
    case Nothing => false
    case Batch(id) => id in s.rqs && s.rqs[id].dir.Read?
    case Fresh(d, _) => d.Read?
  }

  /** Along the run writes are waiting at every dispatch, and every dispatch takes a read. */
  ghost predicate WritesPassedOver(t: Tunables, s: Sched, es: seq<Event>)
    decreases |es|
  {
    es != [] && Enabled(s, es[0]) ==>
      && (es[0].DispatchRequests? ==> var s1 := s.(now := es[0].now); s1.write.fifo != [] && ChoosesRead(t, s1))
      && WritesPassedOver(t, Step(t, s, es[0]), es[1..])
  }

  function Dispatches(es: seq<Event>): nat {
    if es == [] then 0 else (if es[0].DispatchRequests? then 1 else 0) + Dispatches(es[1..])
  }

  /** Adds, merges and the moves of aliases touch neither the batch nor the starvation count. */
  lemma CountsUntouched(t: Tunables, s: Sched, e: Event)
    requires Enabled(s, e) && !e.DispatchRequests?
    ensures Step(t, s, e).batching == s.batching && Step(t, s, e).starved == s.starved
  {
  }

  lemma OneLess(w: int, b: int)
    ensures (w - 1) * b == w * b - b
  {
  }

  lemma PatienceShrinks(t: Tunables, s: Sched)
    requires Inv(t, s) && s.write.fifo != [] && ChoosesRead(t, s)
    ensures Patience(t, Dispatch(t, s)) <= Patience(t, s) - 1
  {
    ChoiceQueued(t, s);
    match Choose(t, s)
    case Nothing =>
    case Batch(id) => MoveShape(s.(batching := s.batching + 1), s.rqs[id].dir, id);
    case Fresh(d, id) =>
      MoveShape(s.(batching := 1, starved := Starved(s, d)), d, id);
      OneLess(t.writesStarved - s.starved, BatchSize(t));
  }

  lemma PatienceStep(t: Tunables, s: Sched, e: Event)
    requires Inv(t, s) && Enabled(s, e)
    requires e.DispatchRequests? ==> var s1 := s.(now := e.now); s1.write.fifo != [] && ChoosesRead(t, s1)
    ensures Patience(t, Step(t, s, e)) <= Patience(t, s) - if e.DispatchRequests? then 1 else 0
  {
    if e.DispatchRequests? {
      LaterCore(t, s, e.now);
      PatienceShrinks(t, s.(now := e.now));
    } else {
      CountsUntouched(t, s, e);
    }
  }

  /** The first step of a run, and the rest of it. */
  lemma Peel(t: Tunables, s: Sched, es: seq<Event>, q: Sched, s1: Sched)
    requires Leads(t, s, es, q) && WritesPassedOver(t, s, es) && es != [] && Enabled(s, es[0]) &&
      s1 == Step(t, s, es[0])
    ensures Leads(t, s1, es[1..], q) && WritesPassedOver(t, s1, es[1..])
    ensures es[0].DispatchRequests? ==> var s2 := s.(now := es[0].now); s2.write.fifo != [] && ChoosesRead(t, s2)
  {
  }

  lemma Starts(t: Tunables, s: Sched, es: seq<Event>, q: Sched)
    requires Leads(t, s, es, q) && es != []
    ensures Enabled(s, es[0])
  {
  }

  lemma {:induction false} PatienceLasts(t: Tunables, s: Sched, es: seq<Event>, q: Sched)
    requires Inv(t, s) && Leads(t, s, es, q) && WritesPassedOver(t, s, es)
    ensures Patience(t, q) <= Patience(t, s) - Dispatches(es) && Inv(t, q)
    decreases |es|
  {
    if es != [] {
      Starts(t, s, es, q);
      Peel(t, s, es, q, Step(t, s, es[0]));
      StepInv(t, s, es[0]);
      PatienceStep(t, s, es[0]);
      PatienceLasts(t, Step(t, s, es[0]), es[1..], q);
    }
  }

  /** Between nothing and a full allowance. */
  lemma PatienceBounds(t: Tunables, s: Sched)
    requires Inv(t, s)
    ensures 0 <= Patience(t, s) <= (t.writesStarved + 1) * BatchSize(t)
  {
    PatienceRange(t, s.batching, s.starved);
  }

  lemma PatienceRange(t: Tunables, batching: nat, starved: nat)
    requires starved <= t.writesStarved
    ensures 0 <= (t.writesStarved - starved) * BatchSize(t) <= t.writesStarved * BatchSize(t)
    ensures (t.writesStarved + 1) * BatchSize(t) == t.writesStarved * BatchSize(t) + BatchSize(t)
  {
    Product(starved, BatchSize(t));
    Product(t.writesStarved - starved, BatchSize(t));
    assert t.writesStarved * BatchSize(t) == (t.writesStarved - starved) * BatchSize(t) + starved * BatchSize(t);
  }

  lemma Product(a: nat, b: nat)
    ensures a * b >= 0
  {
  }

  /**
    While writes wait, at most (writes_starved + 1) * max(1, fifo_batch) dispatches
    in a row take reads, from any reachable state and whatever else happens
    between them.
   */
  lemma WritesNotStarved(t: Tunables, es0: seq<Event>, s: Sched, es: seq<Event>, q: Sched)
    requires Leads(t, Init(), es0, s) && Leads(t, s, es, q) && WritesPassedOver(t, s, es)
    ensures Dispatches(es) <= (t.writesStarved + 1) * BatchSize(t)
  {
    InitInv(t);
    RunInv(t, Init(), es0, s);
    PatienceLasts(t, s, es, q);
    PatienceBounds(t, s);
    PatienceBounds(t, q);
  }
}
