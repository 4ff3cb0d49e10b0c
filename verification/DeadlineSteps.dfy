/** Every operation of the deadline scheduler keeps the invariant. */
module DeadlineSteps {
  import opened Lists
  import opened Deadline
  import opened DeadlineInvariant

  // ----- adding -----

  lemma NewHole(a: map<nat, Req>, b: map<nat, Req>, id: nat, x: Side, d: Dir, limit: int, limit1: int)
    requires SideInv(a, x, d, limit, None) && AlikeBut(a, b, id) && id !in Elems(x.fifo) && limit <= limit1
    ensures SideInv(b, x, d, limit1, Some(id))
  {
    SideFrame(a, b, id, x, d, limit, limit1);
  }

  lemma NewPair(t: Tunables, rqs: map<nat, Req>, r: Req, x: Side, y: Side, d: Dir, now: int, now1: int, id: nat)
    requires Pair(t, rqs, x, y, d, now, None) && id !in rqs && now <= now1
    ensures Pair(t, rqs[id := r], x, y, d, now1, Some(id)) && id !in Elems(x.fifo)
  {
    var lx, ly := Expire(t, d), Expire(t, Other(d));
    NotThere(rqs, x, d, now + lx, id);
    NotThere(rqs, y, Other(d), now + ly, id);
    NewHole(rqs, rqs[id := r], id, x, d, now + lx, now1 + lx);
    SideFrame(rqs, rqs[id := r], id, y, Other(d), now + ly, now1 + ly);
  }

  lemma NotThere(rqs: map<nat, Req>, x: Side, d: Dir, limit: int, id: nat)
    requires SideInv(rqs, x, d, limit, None) && id !in rqs
    ensures id !in Elems(x.fifo)
  {
  }

  lemma {:induction false} LastingAppend(rqs: map<nat, Req>, fifo: seq<nat>, lo: Maybe<int>, limit: int, id: nat)
    requires Lasting(rqs, fifo, lo, limit) && id in rqs && rqs[id].expires == limit && (lo.Some? ==> lo.value <= limit)
    ensures Lasting(rqs, fifo + [id], lo, limit)
  {
    if fifo == [] {
      assert fifo + [id] == [id] && [id][1..] == [];
    } else {
      LastingAppend(rqs, fifo[1..], Some(rqs[fifo[0]].expires), limit, id);
      assert (fifo + [id])[1..] == fifo[1..] + [id];
    }
  }

  /** A placed request that expires last goes to the end of the FIFO. */
  lemma AppendSide(rqs: map<nat, Req>, x: Side, tree: seq<nat>, d: Dir, limit: int, id: nat)
    requires SideInv(rqs, x.(tree := tree), d, limit, Some(id)) && InSectorOrder(rqs, x.tree) && InBoth(x, id)
    requires id in rqs && rqs[id].dir == d && rqs[id].expires == limit && id !in Elems(x.fifo)
    ensures SideInv(rqs, x.(fifo := x.fifo + [id]), d, limit, None)
  {
    LastingAppend(rqs, x.fifo, None, limit, id);
    var one := [id];
    assert one[1..] == [] && Elems(one) == {id} && NoDup(one);
    ElemsAppend(x.fifo, one);
  }

  lemma AppendCore(t: Tunables, s: Sched, d: Dir, id: nat)
    requires Placed(t, s, d, id) && id !in Elems(SideOf(s, d).fifo) && s.rqs[id].expires == s.now + Expire(t, d)
    ensures var s1 := WithSide(s, d, SideOf(s, d).(fifo := SideOf(s, d).fifo + [id]));
      Core(t, s1, d, None) && Held(s1) == Held(s) + 1
  {
    AppendPair(t, s.rqs, SideOf(s, d), SideOf(s, Other(d)), d, s.now, id);
  }

  lemma AppendPair(t: Tunables, rqs: map<nat, Req>, x: Side, y: Side, d: Dir, now: int, id: nat)
    requires Pair(t, rqs, x.(tree := Without(x.tree, id)), y, d, now, Some(id)) && InSectorOrder(rqs, x.tree) &&
      InBoth(x, id)
    requires id in rqs && rqs[id].dir == d && rqs[id].expires == now + Expire(t, d) && id !in Elems(x.fifo)
    ensures Pair(t, rqs, x.(fifo := x.fifo + [id]), y, d, now, None)
  {
    SplitPair(t, rqs, x.(tree := Without(x.tree, id)), y, d, now, Some(id));
    AppendSide(rqs, x, Without(x.tree, id), d, now + Expire(t, d), id);
    ListedAppend(rqs, x, y, d, id);
    MakePair(t, rqs, x.(fifo := x.fifo + [id]), y, d, now, None);
  }

  lemma ListedAppend(rqs: map<nat, Req>, x: Side, y: Side, d: Dir, id: nat)
    requires Listed(rqs, x, y, d, Some(id)) && id in rqs && rqs[id].dir == d
    ensures Listed(rqs, x.(fifo := x.fifo + [id]), y, d, None)
  {
    ElemsAppend(x.fifo, [id]);
    assert [id][1..] == [];
  }

  lemma AddPlaced(t: Tunables, s: Sched, s0: Sched, d: Dir, id: nat, r: Req)
    requires Core(t, s, d, None) && id !in s.rqs &&
      s0 == s.(rqs := s.rqs[id := r], sorted := s.sorted + 1, now := s0.now)
    requires s0.now >= s.now && r.dir == d
    ensures var s1 := AddTree(s0, id);
      && Placed(t, s1, d, id) && id !in Elems(SideOf(s1, d).fifo) && s1.rqs[id] == r && s1.now == s0.now
      && s1.sorted - Held(s1) == s.sorted + 1 - Held(s) && s1.starved == s.starved
  {
    NewPair(t, s.rqs, r, SideOf(s, d), SideOf(s, Other(d)), d, s.now, s0.now, id);
    AddTreeCore(t, s0, d, id);
  }

  lemma AddInv(t: Tunables, s: Sched, id: nat, d: Dir, start: int, end: int, now: int)
    requires Inv(t, s) && id !in s.rqs && now >= s.now
    ensures Inv(t, Add(t, s, id, d, start, end, now))
  {
    var r := Req(d, start, end, now + Expire(t, d));
    var s0 := s.(rqs := s.rqs[id := r], sorted := s.sorted + 1, now := now);
    CoreEither(t, s, d);
    AddPlaced(t, s, s0, d, id, r);
    AddEnd(t, AddTree(s0, id), d, id);
    AddShape(t, s, s0, id, d, start, end, now);
  }

  lemma AddShape(t: Tunables, s: Sched, s0: Sched, id: nat, d: Dir, start: int, end: int, now: int)
    requires s0 == s.(rqs := s.rqs[id := Req(d, start, end, now + Expire(t, d))], sorted := s.sorted + 1, now := now)
    ensures var s1 := AddTree(s0, id);
      Add(t, s, id, d, start, end, now) == WithSide(s1, d, SideOf(s1, d).(fifo := SideOf(s1, d).fifo + [id]))
  {
  }

  lemma AddEnd(t: Tunables, s: Sched, d: Dir, id: nat)
    requires Placed(t, s, d, id) && id !in Elems(SideOf(s, d).fifo) && s.rqs[id].expires == s.now + Expire(t, d)
    requires s.sorted == Held(s) + 1 && s.starved <= t.writesStarved
    ensures Inv(t, WithSide(s, d, SideOf(s, d).(fifo := SideOf(s, d).fifo + [id])))
  {
    AppendCore(t, s, d, id);
    CoreEither(t, WithSide(s, d, SideOf(s, d).(fifo := SideOf(s, d).fifo + [id])), d);
  }

  // ----- merging -----

  /** Same direction, sector and expiry: the FIFO and the tree do not see the difference. */
  ghost predicate SameKeys(a: Req, b: Req) { a.dir == b.dir && a.start == b.start && a.expires == b.expires }

  lemma SameKeysSide(rqs: map<nat, Req>, r: Req, id: nat, x: Side, d: Dir, limit: int)
    requires SideInv(rqs, x, d, limit, None) && id in rqs && SameKeys(rqs[id], r)
    ensures SideInv(rqs[id := r], x, d, limit, None)
  {
    LastingFrame(rqs, rqs[id := r], id, x.fifo, None, limit);
    SameStarts(rqs, r, id, x.tree, None);
  }

  lemma {:induction false} SameStarts(rqs: map<nat, Req>, r: Req, id: nat, tree: seq<nat>, lo: Maybe<int>)
    requires Rising(rqs, tree, lo) && id in rqs && rqs[id].start == r.start
    ensures Rising(rqs[id := r], tree, lo)
  {
    if tree != [] {
      SameStarts(rqs, r, id, tree[1..], Some(rqs[tree[0]].start));
    }
  }

  lemma SameKeysPair(t: Tunables, rqs: map<nat, Req>, x: Side, y: Side, d: Dir, now: int, id: nat, r: Req)
    requires Pair(t, rqs, x, y, d, now, None) && id in rqs && SameKeys(rqs[id], r)
    ensures Pair(t, rqs[id := r], x, y, d, now, None)
  {
    SameKeysSide(rqs, r, id, x, d, now + Expire(t, d));
    SameKeysSide(rqs, r, id, y, Other(d), now + Expire(t, Other(d)));
  }

  lemma BackMergedInv(t: Tunables, s: Sched, id: nat, end: int)
    requires Inv(t, s) && id in s.rqs
    ensures Inv(t, BackMerged(s, id, end))
  {
    SameKeysPair(t, s.rqs, s.read, s.write, Read, s.now, id, s.rqs[id].(end := end));
  }

  lemma TakenSide(rqs: map<nat, Req>, x: Side, d: Dir, limit: int, id: nat, r: Req)
    requires SideInv(rqs, x, d, limit, None) && id in Elems(x.fifo) && r.dir == d && r.expires == rqs[id].expires
    ensures SideInv(rqs[id := r], x.(tree := Without(x.tree, id)), d, limit, Some(id))
  {
    WithoutKeepsOrder(rqs, x.tree, id, None);
    WithoutIs(x.tree, id);
    RisingFrame(rqs - {id}, rqs[id := r], id, Without(x.tree, id), None);
    LastingFrame(rqs, rqs[id := r], id, x.fifo, None, limit);
  }

  lemma InOwn(t: Tunables, rqs: map<nat, Req>, x: Side, y: Side, d: Dir, now: int, id: nat)
    requires Pair(t, rqs, x, y, d, now, None) && id in rqs && rqs[id].dir == d
    ensures id in Elems(x.fifo) && id !in Elems(y.fifo)
  {
  }

  /** Out of the tree, with its new sector. */
  lemma TakenPair(t: Tunables, rqs: map<nat, Req>, x: Side, y: Side, d: Dir, now: int, id: nat, r: Req)
    requires Pair(t, rqs, x, y, d, now, None) && id in rqs && rqs[id].dir == d == r.dir && r.expires == rqs[id].expires
    ensures Pair(t, rqs[id := r], x.(tree := Without(x.tree, id)), y, d, now, Some(id))
  {
    var limit := now + Expire(t, Other(d));
    InOwn(t, rqs, x, y, d, now, id);
    TakenSide(rqs, x, d, now + Expire(t, d), id, r);
    SideFrame(rqs, rqs[id := r], id, y, Other(d), limit, limit);
  }

  /** A placed request that is on the FIFO leaves no hole. */
  lemma PlacedSide(rqs: map<nat, Req>, x: Side, tree: seq<nat>, d: Dir, limit: int, id: nat)
    requires SideInv(rqs, x.(tree := tree), d, limit, Some(id)) && InSectorOrder(rqs, x.tree) && InBoth(x, id) &&
      id in Elems(x.fifo)
    ensures SideInv(rqs, x, d, limit, None)
  {
  }

  lemma PlacedIsCore(t: Tunables, s: Sched, d: Dir, id: nat)
    requires Placed(t, s, d, id) && id in Elems(SideOf(s, d).fifo)
    ensures Core(t, s, d, None)
  {
    PlacedPair(t, s.rqs, SideOf(s, d), SideOf(s, Other(d)), d, s.now, id);
  }

  lemma PlacedPair(t: Tunables, rqs: map<nat, Req>, x: Side, y: Side, d: Dir, now: int, id: nat)
    requires Pair(t, rqs, x.(tree := Without(x.tree, id)), y, d, now, Some(id)) && InSectorOrder(rqs, x.tree) &&
      InBoth(x, id)
    requires id in rqs && rqs[id].dir == d && id in Elems(x.fifo)
    ensures Pair(t, rqs, x, y, d, now, None)
  {
    SplitPair(t, rqs, x.(tree := Without(x.tree, id)), y, d, now, Some(id));
    PlacedSide(rqs, x, Without(x.tree, id), d, now + Expire(t, d), id);
    MakePair(t, rqs, x, y, d, now, None);
  }

  lemma FrontMergedInv(t: Tunables, s: Sched, id: nat, start: int)
    requires Inv(t, s) && id in s.rqs
    ensures Inv(t, FrontMerged(s, id, start))
  {
    var d := s.rqs[id].dir;
    var r := s.rqs[id].(start := start);
    var s0 := WithSide(s, d, SideOf(s, d).(tree := Without(SideOf(s, d).tree, id))).(rqs := s.rqs[id := r]);
    CoreEither(t, s, d);
    InOwn(t, s.rqs, SideOf(s, d), SideOf(s, Other(d)), d, s.now, id);
    TakenPair(t, s.rqs, SideOf(s, d), SideOf(s, Other(d)), d, s.now, id, r);
    AddTreeCore(t, s0, d, id);
    PlacedIsCore(t, AddTree(s0, id), d, id);
    CoreEither(t, FrontMerged(s, id, start), d);
  }

  /** Two requests of a direction: the FIFO afterwards, and who holds which deadline. */
  lemma {:induction false} InsertAfterIs(rqs: map<nat, Req>, fifo: seq<nat>, next: nat, id: nat, lo: Maybe<int>,
                                         limit: int)
    requires Lasting(rqs, fifo, lo, limit) && NoDup(fifo) && next in Elems(fifo) && id !in Elems(fifo)
    requires id in rqs && next in rqs && rqs[id].expires == rqs[next].expires
    ensures var f := InsertAfter(fifo, next, id);
      Lasting(rqs, f, lo, limit) && NoDup(f) && Elems(f) == Elems(fifo) + {id} && |f| == |fifo| + 1
  {
    var f, rest := InsertAfter(fifo, next, id), fifo[1..];
    if fifo[0] == next {
      assert f == [next] + ([id] + rest) && f[1..] == [id] + rest && ([id] + rest)[1..] == rest;
    } else {
      InsertAfterIs(rqs, rest, next, id, Some(rqs[fifo[0]].expires), limit);
      assert f[1..] == InsertAfter(rest, next, id);
    }
  }

  /** The FIFO after request `id`, now as early as `next`, moved next to it. */
  lemma InheritIs(rqs: map<nat, Req>, fifo: seq<nat>, id: nat, next: nat, r: Req, limit: int)
    requires Lasting(rqs, fifo, None, limit) && NoDup(fifo) && id in Elems(fifo) && next in Elems(fifo) && id != next
    requires next in rqs && r.expires == rqs[next].expires
    ensures var f := Inherit(fifo, id, next);
      Lasting(rqs[id := r], f, None, limit) && NoDup(f) && Elems(f) == Elems(fifo) && |f| == |fifo|
  {
    var w, rqs1 := Without(fifo, id), rqs[id := r];
    WithoutIs(fifo, id);
    WithoutKeepsExpiry(rqs, fifo, id, None, limit);
    Alike(rqs, id, r);
    LastingFrame(rqs - {id}, rqs1, id, w, None, limit);
    InsertAfterIs(rqs1, w, next, id, None, limit);
  }

  lemma InheritSide(rqs: map<nat, Req>, x: Side, d: Dir, limit: int, id: nat, next: nat, r: Req)
    requires SideInv(rqs, x, d, limit, None) && id in Elems(x.fifo) && next in Elems(x.fifo) && id != next
    requires next in rqs && id in rqs && r.expires == rqs[next].expires && r.dir == d && r.start == rqs[id].start
    ensures SideInv(rqs[id := r], x.(fifo := Inherit(x.fifo, id, next)), d, limit, None)
  {
    InheritIs(rqs, x.fifo, id, next, r, limit);
    SameStarts(rqs, r, id, x.tree, None);
  }

  /** Request `id` inherits the deadline of `next`. */
  lemma InheritPair(t: Tunables, rqs: map<nat, Req>, x: Side, y: Side, d: Dir, now: int, id: nat, next: nat, r: Req)
    requires Pair(t, rqs, x, y, d, now, None) && id in rqs && next in rqs && id != next
    requires rqs[id].dir == d == rqs[next].dir == r.dir && r.expires == rqs[next].expires && r.start == rqs[id].start
    ensures Pair(t, rqs[id := r], x.(fifo := Inherit(x.fifo, id, next)), y, d, now, None)
  {
    var limit, x1 := now + Expire(t, Other(d)), x.(fifo := Inherit(x.fifo, id, next));
    InOwn(t, rqs, x, y, d, now, id);
    InOwn(t, rqs, x, y, d, now, next);
    SplitPair(t, rqs, x, y, d, now, None);
    InheritSide(rqs, x, d, now + Expire(t, d), id, next, r);
    Alike(rqs, id, r);
    SideFrame(rqs, rqs[id := r], id, y, Other(d), limit, limit);
    ListedInherit(rqs, x, y, d, id, next, r, now + Expire(t, d));
    MakePair(t, rqs[id := r], x1, y, d, now, None);
  }

  lemma ListedInherit(rqs: map<nat, Req>, x: Side, y: Side, d: Dir, id: nat, next: nat, r: Req, limit: int)
    requires Listed(rqs, x, y, d, None) && SideInv(rqs, x, d, limit, None)
    requires id in Elems(x.fifo) && next in Elems(x.fifo) && id != next && next in rqs && id in rqs
    requires rqs[id].dir == d == r.dir && r.expires == rqs[next].expires
    ensures Listed(rqs[id := r], x.(fifo := Inherit(x.fifo, id, next)), y, d, None)
  {
    InheritIs(rqs, x.fifo, id, next, r, limit);
  }

  lemma OtherKept(rqs: map<nat, Req>, y: Side, d: Dir, limit: int, id: nat)
    requires SideInv(rqs, y, Other(d), limit, None) && id in rqs && rqs[id].dir == d
    ensures SideInv(rqs - {id}, y, Other(d), limit, None)
  {
    NotInOther(rqs, y, d, limit, id);
    Alike(rqs, id, rqs[id]);
    SideFrame(rqs, rqs - {id}, id, y, Other(d), limit, limit);
  }

  lemma RemovePair(t: Tunables, rqs: map<nat, Req>, x: Side, y: Side, d: Dir, now: int, id: nat)
    requires Pair(t, rqs, x, y, d, now, None) && id in rqs && rqs[id].dir == d
    ensures Pair(t, rqs - {id}, RemoveFrom(x, id), y, d, now, None) && |RemoveFrom(x, id).fifo| == |x.fifo| - 1
  {
    InOwn(t, rqs, x, y, d, now, id);
    SplitPair(t, rqs, x, y, d, now, None);
    RemoveSide(rqs, x, d, now + Expire(t, d), None, id);
    OtherKept(rqs, y, d, now + Expire(t, Other(d)), id);
    ListedMove(rqs, x, y, d, None, id, RemoveFrom(x, id), y);
    MakePair(t, rqs - {id}, RemoveFrom(x, id), y, d, now, None);
    WithoutIs(x.fifo, id);
  }

  /** The survivor of a request merge: it ends where `next` ended and keeps the earlier deadline. */
  function Survivor(r: Req, r2: Req): Req {
    r.(end := r2.end, expires := if r2.expires < r.expires then r2.expires else r.expires)
  }

  function SurvivorSide(x: Side, r: Req, r2: Req, id: nat, next: nat): Side {
    if r2.expires < r.expires then x.(fifo := Inherit(x.fifo, id, next)) else x
  }

  lemma MergedShape(s: Sched, d: Dir, id: nat, next: nat)
    requires id in s.rqs && next in s.rqs && id != next && s.rqs[id].dir == d == s.rqs[next].dir
    ensures var s1, r, r2 := MergedRequests(s, id, next), s.rqs[id], s.rqs[next];
      && s1.rqs == s.rqs[id := Survivor(r, r2)] - {next}
      && SideOf(s1, d) == RemoveFrom(SurvivorSide(SideOf(s, d), r, r2, id, next), next)
      && SideOf(s1, Other(d)) == SideOf(s, Other(d)) && s1.now == s.now && s1.sorted == s.sorted - 1
      && s1.starved == s.starved
  {
  }

  lemma SurvivorPair(t: Tunables, rqs: map<nat, Req>, x: Side, y: Side, d: Dir, now: int, id: nat, next: nat)
    requires Pair(t, rqs, x, y, d, now, None) && id in rqs && next in rqs && id != next &&
      rqs[id].dir == d == rqs[next].dir
    ensures var r, r2 := rqs[id], rqs[next];
      Pair(t, rqs[id := Survivor(r, r2)], SurvivorSide(x, r, r2, id, next), y, d, now, None)
  {
    var r, r2 := rqs[id], rqs[next];
    if r2.expires < r.expires {
      InheritPair(t, rqs, x, y, d, now, id, next, Survivor(r, r2));
    } else {
      SameKeysPair(t, rqs, x, y, d, now, id, Survivor(r, r2));
    }
  }

  lemma SurvivorLength(t: Tunables, rqs: map<nat, Req>, x: Side, y: Side, d: Dir, now: int, id: nat, next: nat)
    requires Pair(t, rqs, x, y, d, now, None) && id in rqs && next in rqs && id != next &&
      rqs[id].dir == d == rqs[next].dir
    ensures |SurvivorSide(x, rqs[id], rqs[next], id, next).fifo| == |x.fifo|
  {
    InOwn(t, rqs, x, y, d, now, id);
    InOwn(t, rqs, x, y, d, now, next);
    InheritIs(rqs, x.fifo, id, next, rqs[next], now + Expire(t, d));
  }

  lemma MergedInv(t: Tunables, s: Sched, id: nat, next: nat)
    requires Inv(t, s) && id in s.rqs && next in s.rqs && id != next && s.rqs[id].dir == s.rqs[next].dir
    ensures Inv(t, MergedRequests(s, id, next))
  {
    var d := s.rqs[id].dir;
    var x, y, r, r2 := SideOf(s, d), SideOf(s, Other(d)), s.rqs[id], s.rqs[next];
    var rqs1, x1 := s.rqs[id := Survivor(r, r2)], SurvivorSide(x, r, r2, id, next);
    CoreEither(t, s, d);
    SurvivorPair(t, s.rqs, x, y, d, s.now, id, next);
    SurvivorLength(t, s.rqs, x, y, d, s.now, id, next);
    RemovePair(t, rqs1, x1, y, d, s.now, next);
    MergedShape(s, d, id, next);
    CoreEither(t, MergedRequests(s, id, next), d);
  }

  // ----- dispatching -----

  lemma InFifoInTree(t: Tunables, s: Sched, d: Dir, id: nat)
    requires Core(t, s, d, None) && id in Elems(SideOf(s, d).fifo)
    ensures id in Elems(SideOf(s, d).tree) && id in s.rqs && s.rqs[id].dir == d
  {
  }

  lemma NextInFifo(t: Tunables, s: Sched, d: Dir)
    requires Core(t, s, d, None)
    ensures SideOf(s, d).next.Some? ==> SideOf(s, d).next.value in Elems(SideOf(s, d).fifo)
  {
  }

  /** What is chosen is queued; nothing is chosen only if nothing is queued. */
  ghost predicate Queued(t: Tunables, s: Sched, c: Choice) {
    match c
    case Nothing => s.read.fifo == [] && s.write.fifo == []
    case Batch(id) =>
      && id in s.rqs && id in Elems(SideOf(s, s.rqs[id].dir).tree) && s.batching < t.fifoBatch
    case Fresh(d, id) =>
      && id in s.rqs && s.rqs[id].dir == d && id in Elems(SideOf(s, d).tree) && Direction(t, s) == Some(d)
  }

  lemma ChoiceQueued(t: Tunables, s: Sched)
    requires Inv(t, s)
    ensures Queued(t, s, Choose(t, s))
  {
    CoreEither(t, s, Write);
    NextInFifo(t, s, Read);
    NextInFifo(t, s, Write);
    match Choose(t, s)
    case Nothing =>
    case Batch(id) => InFifoInTree(t, s, if s.write.next.Some? then Write else Read, id);
    case Fresh(d, id) => InFifoInTree(t, s, d, id);
  }

  lemma MoveInv(t: Tunables, s: Sched, d: Dir, id: nat)
    requires Core(t, s, d, None) && s.sorted == Held(s) && s.starved <= t.writesStarved &&
      id in Elems(SideOf(s, d).tree)
    ensures id in s.rqs && s.rqs[id].dir == d && Inv(t, Move(s, id)) && Held(Move(s, id)) == Held(s) - 1
  {
    MoveCore(t, s, d, None, id);
    MoveShape(s, d, id);
    CoreEither(t, Move(s, id), d);
  }

  lemma LaterCore(t: Tunables, s: Sched, now: int)
    requires Inv(t, s) && now >= s.now
    ensures Inv(t, s.(now := now))
  {
    LaterSide(s.rqs, s.read, Read, s.now + t.readExpire, now + t.readExpire);
    LaterSide(s.rqs, s.write, Write, s.now + t.writeExpire, now + t.writeExpire);
  }

  lemma LaterSide(rqs: map<nat, Req>, x: Side, d: Dir, limit: int, limit1: int)
    requires SideInv(rqs, x, d, limit, None) && limit <= limit1
    ensures SideInv(rqs, x, d, limit1, None)
  {
    LastingFrom(rqs, x.fifo, None, None, limit, limit1);
  }

  lemma DispatchInv(t: Tunables, s: Sched)
    requires Inv(t, s)
    ensures Inv(t, Dispatch(t, s))
    ensures Held(Dispatch(t, s)) == if Held(s) == 0 then 0 else Held(s) - 1
  {
    ChoiceQueued(t, s);
    match Choose(t, s)
    case Nothing =>
    case Batch(id) =>
      CoreEither(t, s, s.rqs[id].dir);
      MoveInv(t, s.(batching := s.batching + 1), s.rqs[id].dir, id);
    case Fresh(d, id) =>
      CoreEither(t, s, d);
      MoveInv(t, s.(batching := 1, starved := Starved(s, d)), d, id);
  }

  lemma StepInv(t: Tunables, s: Sched, e: Event)
    requires Inv(t, s) && Enabled(s, e)
    ensures Inv(t, Step(t, s, e))
  {
    match e
    case AddRequest(id, d, start, end, now) => AddInv(t, s, id, d, start, end, now);
    case MergeFront(id, start) => FrontMergedInv(t, s, id, start);
    case MergeBack(id, end) => BackMergedInv(t, s, id, end);
    case MergeRequests(id, next) => MergedInv(t, s, id, next);
    case DispatchRequests(now) =>
      LaterCore(t, s, now);
      DispatchInv(t, s.(now := now));
  }
}
