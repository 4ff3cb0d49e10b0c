/** Which request a dispatch takes, in terms of the requests that wait and their deadlines alone. */
module DeadlineDispatch {
  import opened Lists
  import opened Deadline
  import opened DeadlineInvariant
  import opened DeadlineSteps
  import opened DeadlineRuns

  ghost predicate OfDir(s: Sched, d: Dir, id: nat) { id in s.rqs && s.rqs[id].dir == d }

  ghost predicate Waits(s: Sched, d: Dir) { exists id :: OfDir(s, d, id) }

  /** No request of the direction expires earlier. */
  ghost predicate Earliest(s: Sched, d: Dir, id: nat) {
    OfDir(s, d, id) && forall k :: OfDir(s, d, k) ==> s.rqs[id].expires <= s.rqs[k].expires
  }

  /** A deadline of the direction has passed. */
  ghost predicate Late(s: Sched, d: Dir) { exists id :: OfDir(s, d, id) && s.now > s.rqs[id].expires }

  /** The first request of the direction above sector `start`, if there is one. */
  ghost predicate FirstAbove(s: Sched, d: Dir, start: int, m: Maybe<nat>) {
    && (m.Some? ==> OfDir(s, d, m.value) && start < s.rqs[m.value].start)
    && forall k :: OfDir(s, d, k) && start < s.rqs[k].start ==> m.Some? && s.rqs[m.value].start <= s.rqs[k].start
  }

  /** The batch goes on: there is a next request, and the batch is not full. */
  predicate GoesOn(t: Tunables, s: Sched) {
    (s.read.next.Some? || s.write.next.Some?) && s.batching < t.fifoBatch
  }

  /** Otherwise reads are served, unless there are none, or writes wait and were passed over often enough. */
  ghost predicate ServesWrites(t: Tunables, s: Sched) {
    Waits(s, Write) && (!Waits(s, Read) || s.starved >= t.writesStarved)
  }

  // ----- what is queued is what waits -----

  lemma QueuedWaits(t: Tunables, s: Sched, d: Dir, id: nat)
    requires Inv(t, s)
    ensures OfDir(s, d, id) <==> id in Elems(SideOf(s, d).fifo)
    ensures id in Elems(SideOf(s, d).fifo) <==> id in Elems(SideOf(s, d).tree)
  {
    CoreEither(t, s, d);
    if OfDir(s, d, id) { InOwn(t, s.rqs, SideOf(s, d), SideOf(s, Other(d)), d, s.now, id); }
  }

  lemma FifoWaits(t: Tunables, s: Sched, d: Dir)
    requires Inv(t, s)
    ensures Waits(s, d) <==> SideOf(s, d).fifo != []
  {
    var fifo := SideOf(s, d).fifo;
    if fifo != [] {
      QueuedWaits(t, s, d, fifo[0]);
    }
    if Waits(s, d) {
      var id :| OfDir(s, d, id);
      QueuedWaits(t, s, d, id);
    }
  }

  lemma HeadEarliest(t: Tunables, s: Sched, d: Dir)
    requires Inv(t, s) && SideOf(s, d).fifo != []
    ensures var id := SideOf(s, d).fifo[0]; Earliest(s, d, id) && (Late(s, d) <==> s.now > s.rqs[id].expires)
  {
    var fifo := SideOf(s, d).fifo;
    CoreEither(t, s, d);
    QueuedWaits(t, s, d, fifo[0]);
    HeadIsEarliest(s.rqs, fifo, None, s.now + Expire(t, d));
    forall k | OfDir(s, d, k) ensures s.rqs[fifo[0]].expires <= s.rqs[k].expires { QueuedWaits(t, s, d, k); }
  }

  // ----- the choice -----

  /** What a new batch takes from direction `d`. */
  ghost predicate FreshTake(s: Sched, d: Dir, id: nat) {
    if Late(s, d) || SideOf(s, d).next.None? then Earliest(s, d, id) else SideOf(s, d).next == Some(id)
  }

  lemma DirectionIs(t: Tunables, s: Sched)
    requires Inv(t, s)
    ensures Direction(t, s) ==
      if !Waits(s, Read) && !Waits(s, Write) then None else Some(if ServesWrites(t, s) then Write else Read)
  {
    FifoWaits(t, s, Read);
    FifoWaits(t, s, Write);
  }

  lemma ChoiceIs(t: Tunables, s: Sched)
    requires Inv(t, s)
    ensures match Choose(t, s)
      case Nothing => !Waits(s, Read) && !Waits(s, Write)
      case Batch(id) => GoesOn(t, s) && (s.read.next == Some(id) || s.write.next == Some(id))
      case Fresh(d, id) =>
        !GoesOn(t, s) && d == (if ServesWrites(t, s) then Write else Read) && FreshTake(s, d, id)
  {
    DirectionIs(t, s);
    FifoWaits(t, s, Read);
    FifoWaits(t, s, Write);
    if s.read.fifo != [] { HeadEarliest(t, s, Read); }
    if s.write.fifo != [] { HeadEarliest(t, s, Write); }
    ChoiceQueued(t, s);
  }

  // ----- the move -----

  lemma {:induction false} LatterAbove(rqs: map<nat, Req>, tree: seq<nat>, id: nat, lo: Maybe<int>)
    requires Rising(rqs, tree, lo) && id in Elems(tree)
    ensures id in rqs && var m := Latter(tree, id);
      && (m.Some? ==> m.value in Elems(tree) && m.value in rqs && rqs[id].start < rqs[m.value].start)
      && forall k :: k in Elems(tree) && k in rqs && rqs[id].start < rqs[k].start ==>
           m.Some? && rqs[m.value].start <= rqs[k].start
  {
    var rest := tree[1..];
    RisingAbove(rqs, tree, lo);
    RisingAbove(rqs, rest, Some(rqs[tree[0]].start));
    if tree[0] == id {
      if rest != [] { RisingAbove(rqs, rest[1..], Some(rqs[rest[0]].start)); }
    } else {
      LatterAbove(rqs, rest, id, Some(rqs[tree[0]].start));
    }
  }

  /** The batch goes on with the first request above the one that was moved. */
  lemma MoveNext(t: Tunables, s: Sched, d: Dir, id: nat)
    requires Inv(t, s) && OfDir(s, d, id)
    ensures FirstAbove(Move(s, id), d, s.rqs[id].start, SideOf(Move(s, id), d).next)
    ensures SideOf(Move(s, id), Other(d)).next.None? && Move(s, id).lastSector == s.rqs[id].end
  {
    var tree, q := SideOf(s, d).tree, Move(s, id);
    MoveShape(s, d, id);
    CoreEither(t, s, d);
    QueuedWaits(t, s, d, id);
    RisingAbove(s.rqs, tree, None);
    LatterAbove(s.rqs, tree, id, None);
    LatterIn(tree, id);
    var m := Latter(tree, id);
    assert SideOf(q, d).next == m;
    if m.Some? { QueuedWaits(t, s, d, m.value); }
    forall k | OfDir(q, d, k) && s.rqs[id].start < q.rqs[k].start
      ensures m.Some? && q.rqs[m.value].start <= q.rqs[k].start
    {
      QueuedWaits(t, s, d, k);
    }
  }

  // ----- the law -----

  /** What a dispatch of request `id` does to the scheduler. */
  ghost predicate Takes(s: Sched, q: Sched, id: nat, batching: nat, starved: nat) {
    var holds :=
      && id in s.rqs && q.out == s.out + [id] && q.rqs == s.rqs - {id}
      && q.lastSector == s.rqs[id].end && q.batching == batching && q.starved == starved
      && FirstAbove(q, s.rqs[id].dir, s.rqs[id].start, SideOf(q, s.rqs[id].dir).next)
      && SideOf(q, Other(s.rqs[id].dir)).next.None?;
    holds
  }

  /** How often writes have been passed over once a new batch in direction `d` starts. */
  ghost function PassedOver(s: Sched, d: Dir): nat {
    if d.Write? then 0 else if Waits(s, Write) then s.starved + 1 else s.starved
  }

  /** The law: nothing if nothing waits; the next request of a batch that goes on; or the start of a new one. */
  ghost predicate Dispatched(t: Tunables, s: Sched, q: Sched) {
    if !Waits(s, Read) && !Waits(s, Write) then q == s
    else if GoesOn(t, s) then
      exists id :: (s.read.next == Some(id) || s.write.next == Some(id)) && Takes(s, q, id, s.batching + 1, s.starved)
    else
      var d := if ServesWrites(t, s) then Write else Read;
      exists id :: FreshTake(s, d, id) && Takes(s, q, id, 1, PassedOver(s, d))
  }

  lemma TakesMove(t: Tunables, s: Sched, id: nat, batching: nat, starved: nat)
    requires Inv(t, s) && id in s.rqs && starved <= t.writesStarved
    ensures Takes(s, Move(s.(batching := batching, starved := starved), id), id, batching, starved)
  {
    var d, s1 := s.rqs[id].dir, s.(batching := batching, starved := starved);
    assert Core(t, s1, Read, None) && Inv(t, s1);
    assert OfDir(s1, d, id);
    MoveNext(t, s1, d, id);
    MoveShape(s1, d, id);
  }

  lemma NextWaits(t: Tunables, s: Sched)
    requires Inv(t, s) && GoesOn(t, s)
    ensures Waits(s, Read) || Waits(s, Write)
  {
    CoreEither(t, s, Write);
    if s.read.next.Some? { QueuedWaits(t, s, Read, s.read.next.value); }
    if s.write.next.Some? { QueuedWaits(t, s, Write, s.write.next.value); }
  }

  lemma FreshLaw(t: Tunables, s: Sched, d: Dir, id: nat)
    requires Inv(t, s) && Choose(t, s) == Fresh(d, id)
    ensures Dispatched(t, s, Dispatch(t, s))
  {
    ChoiceIs(t, s);
    ChoiceQueued(t, s);
    FifoWaits(t, s, Write);
    FifoWaits(t, s, Read);
    assert OfDir(s, d, id);
    TakesMove(t, s, id, 1, Starved(s, d));
    assert FreshTake(s, d, id) && Takes(s, Dispatch(t, s), id, 1, PassedOver(s, d));
  }

  lemma BatchLaw(t: Tunables, s: Sched, id: nat)
    requires Inv(t, s) && Choose(t, s) == Batch(id)
    ensures Dispatched(t, s, Dispatch(t, s))
  {
    ChoiceIs(t, s);
    ChoiceQueued(t, s);
    NextWaits(t, s);
    TakesMove(t, s, id, s.batching + 1, s.starved);
    assert s.(batching := s.batching + 1, starved := s.starved) == s.(batching := s.batching + 1);
    assert Takes(s, Dispatch(t, s), id, s.batching + 1, s.starved);
  }

  lemma DispatchLawAt(t: Tunables, s: Sched)
    requires Inv(t, s)
    ensures Dispatched(t, s, Dispatch(t, s))
  {
    match Choose(t, s)
    case Nothing => ChoiceIs(t, s);
    case Batch(id) => BatchLaw(t, s, id);
    case Fresh(d, id) => FreshLaw(t, s, d, id);
  }

  /** In every reachable state, at any later time. */
  lemma DispatchLaw(t: Tunables, es: seq<Event>, q: Sched, time: int)
    requires Leads(t, Init(), es, q) && time >= q.now
    ensures Dispatched(t, q.(now := time), Step(t, q, DispatchRequests(time)))
  {
    InitInv(t);
    RunInv(t, Init(), es, q);
    LaterCore(t, q, time);
    DispatchLawAt(t, q.(now := time));
  }

  // ----- arrival -----

  /** Request `a` at the same sector leaves for `id`. */
  ghost predicate Displaced(s: Sched, q: Sched, d: Dir, start: int, id: nat, a: nat) {
    && OfDir(s, d, a) && s.rqs[a].start == start && q.out == s.out + [a]
    && id in q.rqs && q.rqs == s.rqs[id := q.rqs[id]] - {a}
  }

  /** A request arrives with the deadline of its direction; at most an alias at its sector leaves for it. */
  lemma Arrival(t: Tunables, s: Sched, id: nat, d: Dir, start: int, end: int, now: int)
    requires Inv(t, s) && id !in s.rqs && now >= s.now
    ensures var q := Add(t, s, id, d, start, end, now);
      && id in q.rqs && q.rqs[id] == Req(d, start, end, now + if d.Read? then t.readExpire else t.writeExpire)
      && ((q.out == s.out && q.rqs == s.rqs[id := q.rqs[id]]) || exists a :: Displaced(s, q, d, start, id, a))
  {
    AddMoves(t, s, id, d, start, end, now);
    var q := Add(t, s, id, d, start, end, now);
    var a := AliasOf(t, s, id, d, start, end, now);
    if a.Some? {
      AliasAt(s.rqs[id := Req(d, start, end, now + Expire(t, d))], SideOf(s, d).tree, start);
      QueuedWaits(t, s, d, a.value);
      QueuedWaits(t, s, d, id);
      assert Displaced(s, q, d, start, id, a.value);
    }
  }

  /** The request at the sector of a new one. */
  function AliasOf(t: Tunables, s: Sched, id: nat, d: Dir, start: int, end: int, now: int): Maybe<nat> {
    Alias(s.rqs[id := Req(d, start, end, now + Expire(t, d))], SideOf(s, d).tree, start)
  }

  lemma AddMoves(t: Tunables, s: Sched, id: nat, d: Dir, start: int, end: int, now: int)
    ensures var q, r := Add(t, s, id, d, start, end, now), Req(d, start, end, now + Expire(t, d));
      var a, rqs := AliasOf(t, s, id, d, start, end, now), s.rqs[id := r];
      if a.Some? && a.value in rqs && a.value != id then q.rqs == rqs - {a.value} && q.out == s.out + [a.value]
      else q.rqs == rqs && q.out == s.out && SideOf(q, d).next == SideOf(s, d).next
  {
    var r := Req(d, start, end, now + Expire(t, d));
    AddTreeMoves(s.(rqs := s.rqs[id := r], sorted := s.sorted + 1, now := now), id);
  }

  /** deadline_add_rq_rb, as far as it concerns which requests are there */
  lemma AddTreeMoves(s: Sched, id: nat)
    requires id in s.rqs
    ensures var a, q := Alias(s.rqs, SideOf(s, s.rqs[id].dir).tree, s.rqs[id].start), AddTree(s, id);
      if a.Some? && a.value in s.rqs && a.value != id then q.rqs == s.rqs - {a.value} && q.out == s.out + [a.value]
      else q.rqs == s.rqs && q.out == s.out && q.read.next == s.read.next && q.write.next == s.write.next
  {
  }

  /**
    A request that arrives leaves the next of the batch alone.  So that one is still
    the first above sector `base` exactly if the new request is not in between.
   */
  lemma ArrivalBetween(t: Tunables, s: Sched, id: nat, d: Dir, start: int, end: int, now: int, base: int)
    requires Inv(t, s) && id !in s.rqs && FirstAbove(s, d, base, SideOf(s, d).next)
    requires forall k :: OfDir(s, d, k) ==> s.rqs[k].start != start
    ensures var q, m := Add(t, s, id, d, start, end, now), SideOf(s, d).next;
      && SideOf(q, d).next == m
      && (FirstAbove(q, d, base, m) <==> !(base < start && (m.Some? ==> start < s.rqs[m.value].start)))
  {
    var q := Add(t, s, id, d, start, end, now);
    ArrivalPlain(t, s, id, d, start, end, now);
    StillFirst(s, q, d, base, id);
  }

  /** Without an alias nothing else changes. */
  lemma ArrivalPlain(t: Tunables, s: Sched, id: nat, d: Dir, start: int, end: int, now: int)
    requires Inv(t, s) && id !in s.rqs && forall k :: OfDir(s, d, k) ==> s.rqs[k].start != start
    ensures var q := Add(t, s, id, d, start, end, now);
      && SideOf(q, d).next == SideOf(s, d).next && id in q.rqs && q.rqs == s.rqs[id := q.rqs[id]]
      && q.rqs[id].dir == d && q.rqs[id].start == start
  {
    var a := AliasOf(t, s, id, d, start, end, now);
    AliasAt(s.rqs[id := Req(d, start, end, now + Expire(t, d))], SideOf(s, d).tree, start);
    QueuedWaits(t, s, d, id);
    if a.Some? { QueuedWaits(t, s, d, a.value); }
    assert a.None?;
    AddMoves(t, s, id, d, start, end, now);
  }

  lemma StillFirst(s: Sched, q: Sched, d: Dir, base: int, id: nat)
    requires id !in s.rqs && id in q.rqs && q.rqs == s.rqs[id := q.rqs[id]] && q.rqs[id].dir == d
    requires FirstAbove(s, d, base, SideOf(s, d).next)
    ensures var m, start := SideOf(s, d).next, q.rqs[id].start;
      FirstAbove(q, d, base, m) <==> !(base < start && (m.Some? ==> start < s.rqs[m.value].start))
  {
    assert OfDir(q, d, id);
    assert forall k :: OfDir(q, d, k) <==> OfDir(s, d, k) || k == id;
  }

  /** A front merge gives a request its new start, and keeps its deadline. */
  lemma FrontMergeKeeps(s: Sched, id: nat, start: int)
    requires id in s.rqs
    ensures var q, d := FrontMerged(s, id, start), s.rqs[id].dir;
      && id in q.rqs && q.rqs[id] == s.rqs[id].(start := start)
      && ((q.out == s.out && q.rqs == s.rqs[id := q.rqs[id]])
          || exists a :: a in s.rqs && a != id && q.out == s.out + [a] && q.rqs == s.rqs[id := q.rqs[id]] - {a})
  {
    var r := s.rqs[id].(start := start);
    var x := SideOf(s, r.dir);
    AddTreeMoves(WithSide(s, r.dir, x.(tree := Without(x.tree, id))).(rqs := s.rqs[id := r]), id);
  }

  lemma {:induction false} AliasAt(rqs: map<nat, Req>, tree: seq<nat>, start: int)
    ensures var a := Alias(rqs, tree, start);
      a.Some? ==> a.value in Elems(tree) && a.value in rqs && rqs[a.value].start == start
  {
    if tree != [] { AliasAt(rqs, tree[1..], start); }
  }
}
