/** What every operation of the deadline scheduler keeps. */
module DeadlineInvariant {
  import opened Lists
  import opened Deadline

  // ----- one direction -----

  ghost predicate Rising(rqs: map<nat, Req>, tree: seq<nat>, lo: Maybe<int>) {
    tree != [] ==>
      && tree[0] in rqs && (lo.Some? ==> lo.value < rqs[tree[0]].start)
      && Rising(rqs, tree[1..], Some(rqs[tree[0]].start))
  }

  /** In sector order, all sectors different. */
  ghost predicate InSectorOrder(rqs: map<nat, Req>, tree: seq<nat>) { Rising(rqs, tree, None) }

  ghost predicate Lasting(rqs: map<nat, Req>, fifo: seq<nat>, lo: Maybe<int>, limit: int) {
    fifo != [] ==>
      && fifo[0] in rqs && (lo.Some? ==> lo.value <= rqs[fifo[0]].expires) && rqs[fifo[0]].expires <= limit
      && Lasting(rqs, fifo[1..], Some(rqs[fifo[0]].expires), limit)
  }

  /** In order of expiry, none later than `limit`. */
  ghost predicate InExpiryOrder(rqs: map<nat, Req>, fifo: seq<nat>, limit: int) { Lasting(rqs, fifo, None, limit) }

  function Only(m: Maybe<nat>): set<nat> { if m.Some? then {m.value} else {} }

  /** Tree and FIFO hold the same requests, but for `hole`, which is in neither or only in the FIFO. */
  ghost predicate Agree(x: Side, hole: Maybe<nat>) {
    && Elems(x.tree) == Elems(x.fifo) - Only(hole)
    && (x.next.Some? ==> x.next.value in Elems(x.fifo))
  }

  ghost predicate SideInv(rqs: map<nat, Req>, x: Side, d: Dir, limit: int, hole: Maybe<nat>) {
    var holds :=
      && InSectorOrder(rqs, x.tree) && InExpiryOrder(rqs, x.fifo, limit) && Agree(x, hole)
      && NoDup(x.fifo) && Directed(rqs, x.fifo, d);
    holds
  }

  ghost predicate Directed(rqs: map<nat, Req>, fifo: seq<nat>, d: Dir) {
    forall id :: id in Elems(fifo) ==> id in rqs && rqs[id].dir == d
  }

  /** `a` and `b` differ at most in request `id`. */
  ghost predicate AlikeBut(a: map<nat, Req>, b: map<nat, Req>, id: nat) {
    var holds := forall k :: k != id ==> (k in a <==> k in b) && (k in a ==> a[k] == b[k]);
    holds
  }

  lemma Alike(rqs: map<nat, Req>, id: nat, r: Req)
    ensures AlikeBut(rqs, rqs - {id}, id) && AlikeBut(rqs, rqs[id := r], id) && AlikeBut(rqs - {id}, rqs[id := r], id)
  {
  }

  lemma {:induction false} RisingAbove(rqs: map<nat, Req>, tree: seq<nat>, lo: Maybe<int>)
    requires Rising(rqs, tree, lo)
    ensures NoDup(tree) && forall k :: k in Elems(tree) ==> k in rqs && (lo.Some? ==> lo.value < rqs[k].start)
  {
    if tree != [] {
      RisingAbove(rqs, tree[1..], Some(rqs[tree[0]].start));
    }
  }

  lemma RisingFrom(rqs: map<nat, Req>, tree: seq<nat>, lo: Maybe<int>, lo1: Maybe<int>)
    requires Rising(rqs, tree, lo) && (lo1.Some? ==> lo.Some? && lo1.value <= lo.value)
    ensures Rising(rqs, tree, lo1)
  {
  }

  lemma {:induction false} RisingFrame(a: map<nat, Req>, b: map<nat, Req>, id: nat, tree: seq<nat>, lo: Maybe<int>)
    requires Rising(a, tree, lo) && AlikeBut(a, b, id) && id !in Elems(tree)
    ensures Rising(b, tree, lo)
  {
    if tree != [] {
      assert tree[0] != id && tree[0] in b;
      RisingFrame(a, b, id, tree[1..], Some(a[tree[0]].start));
    }
  }

  lemma {:induction false} LastingFrom(rqs: map<nat, Req>, fifo: seq<nat>, lo: Maybe<int>, lo1: Maybe<int>, limit: int,
                                       limit1: int)
    requires Lasting(rqs, fifo, lo, limit) && (lo1.Some? ==> lo.Some? && lo1.value <= lo.value) && limit <= limit1
    ensures Lasting(rqs, fifo, lo1, limit1)
  {
    if fifo != [] {
      var e := Some(rqs[fifo[0]].expires);
      LastingFrom(rqs, fifo[1..], e, e, limit, limit1);
    }
  }

  lemma {:induction false} LastingFrame(a: map<nat, Req>, b: map<nat, Req>, id: nat, fifo: seq<nat>, lo: Maybe<int>,
                                        limit: int)
    requires Lasting(a, fifo, lo, limit) && AlikeBut(a, b, id)
    requires id in Elems(fifo) ==> id in a && id in b && a[id].expires == b[id].expires
    ensures Lasting(b, fifo, lo, limit)
  {
    if fifo != [] {
      LastingFrame(a, b, id, fifo[1..], Some(a[fifo[0]].expires), limit);
    }
  }

  /** The head of the FIFO has the earliest deadline. */
  lemma {:induction false} HeadIsEarliest(rqs: map<nat, Req>, fifo: seq<nat>, lo: Maybe<int>, limit: int)
    requires Lasting(rqs, fifo, lo, limit)
    ensures forall k :: k in Elems(fifo) ==>
      k in rqs && (lo.Some? ==> lo.value <= rqs[k].expires) && rqs[fifo[0]].expires <= rqs[k].expires
  {
    if fifo != [] {
      HeadIsEarliest(rqs, fifo[1..], Some(rqs[fifo[0]].expires), limit);
    }
  }

  lemma SideFrame(a: map<nat, Req>, b: map<nat, Req>, id: nat, x: Side, d: Dir, limit: int, limit1: int)
    requires SideInv(a, x, d, limit, None) && AlikeBut(a, b, id) && id !in Elems(x.fifo) && limit <= limit1
    ensures SideInv(b, x, d, limit1, None) && SideInv(b, x.(next := None), d, limit1, None)
  {
    RisingFrame(a, b, id, x.tree, None);
    LastingFrame(a, b, id, x.fifo, None, limit);
    LastingFrom(b, x.fifo, None, None, limit, limit1);
  }

  // ----- taking one out -----

  lemma {:induction false} WithoutKeepsOrder(rqs: map<nat, Req>, s: seq<nat>, id: nat, lo: Maybe<int>)
    requires Rising(rqs, s, lo)
    ensures Rising(rqs - {id}, Without(s, id), lo)
  {
    if s != [] {
      var rest := Without(s[1..], id);
      WithoutKeepsOrder(rqs, s[1..], id, Some(rqs[s[0]].start));
      RisingFrom(rqs - {id}, rest, Some(rqs[s[0]].start), lo);
      assert ([s[0]] + rest)[1..] == rest && [] + rest == rest;
    }
  }

  lemma {:induction false} WithoutKeepsExpiry(rqs: map<nat, Req>, s: seq<nat>, id: nat, lo: Maybe<int>, limit: int)
    requires Lasting(rqs, s, lo, limit)
    ensures Lasting(rqs - {id}, Without(s, id), lo, limit)
  {
    if s != [] {
      var rest := Without(s[1..], id);
      WithoutKeepsExpiry(rqs, s[1..], id, Some(rqs[s[0]].expires), limit);
      LastingFrom(rqs - {id}, rest, Some(rqs[s[0]].expires), lo, limit, limit);
      assert ([s[0]] + rest)[1..] == rest && [] + rest == rest;
    }
  }

  /** A request leaves tree and FIFO; `next` steps on if it was that request. */
  lemma RemoveSide(rqs: map<nat, Req>, x: Side, d: Dir, limit: int, hole: Maybe<nat>, id: nat)
    requires SideInv(rqs, x, d, limit, hole) && id in Elems(x.tree)
    ensures SideInv(rqs - {id}, RemoveFrom(x, id), d, limit, hole)
  {
    WithoutKeepsOrder(rqs, x.tree, id, None);
    WithoutKeepsExpiry(rqs, x.fifo, id, None, limit);
    WithoutIs(x.tree, id);
    WithoutIs(x.fifo, id);
    RisingAbove(rqs, x.tree, None);
    LatterIn(x.tree, id);
  }

  // ----- putting one in -----

  lemma {:induction false} AliasIs(rqs: map<nat, Req>, tree: seq<nat>, start: int, lo: Maybe<int>)
    requires Rising(rqs, tree, lo)
    ensures var a := Alias(rqs, tree, start);
      if a.Some? then a.value in Elems(tree) && a.value in rqs && rqs[a.value].start == start
      else forall k :: k in Elems(tree) ==> k in rqs && rqs[k].start != start
  {
    if tree != [] {
      AliasIs(rqs, tree[1..], start, Some(rqs[tree[0]].start));
    }
  }

  lemma {:induction false} PlaceIs(rqs: map<nat, Req>, tree: seq<nat>, id: nat, lo: Maybe<int>)
    requires Rising(rqs, tree, lo) && id in rqs && (lo.Some? ==> lo.value < rqs[id].start)
    requires forall k :: k in Elems(tree) ==> k in rqs && rqs[k].start != rqs[id].start
    ensures Rising(rqs, Place(rqs, tree, id), lo)
    ensures Elems(Place(rqs, tree, id)) == Elems(tree) + {id}
  {
    if tree == [] {
      assert [id][1..] == [];
    } else {
      if rqs[id].start < rqs[tree[0]].start {
        assert ([id] + tree)[1..] == tree;
      } else {
        PlaceIs(rqs, tree[1..], id, Some(rqs[tree[0]].start));
        assert ([tree[0]] + Place(rqs, tree[1..], id))[1..] == Place(rqs, tree[1..], id);
      }
    }
  }

  // ----- both directions -----

  function Other(d: Dir): Dir { if d.Read? then Write else Read }

  /** Every request, but the hole, is on the FIFO of its direction: `x` for direction `d`, `y` for the other. */
  ghost predicate Listed(rqs: map<nat, Req>, x: Side, y: Side, d: Dir, hole: Maybe<nat>) {
    var holds := forall id :: id in rqs && Some(id) != hole ==>
      id in Elems(if rqs[id].dir == d then x.fifo else y.fifo);
    holds
  }

  /** The invariant of the two sides, with `hole` a request of direction `d` that the tree lacks. */
  ghost predicate Pair(t: Tunables, rqs: map<nat, Req>, x: Side, y: Side, d: Dir, now: int, hole: Maybe<nat>) {
    var holds :=
      && SideInv(rqs, x, d, now + Expire(t, d), hole)
      && SideInv(rqs, y, Other(d), now + Expire(t, Other(d)), None)
      && Listed(rqs, x, y, d, hole) && (x.next.None? || y.next.None?);
    holds
  }

  ghost predicate Core(t: Tunables, s: Sched, d: Dir, hole: Maybe<nat>) {
    Pair(t, s.rqs, SideOf(s, d), SideOf(s, Other(d)), d, s.now, hole)
  }

  function Held(s: Sched): nat { |s.read.fifo| + |s.write.fifo| }

  ghost predicate Inv(t: Tunables, s: Sched) {
    var holds := Core(t, s, Read, None) && s.sorted == Held(s) && s.starved <= t.writesStarved;
    holds
  }

  lemma CoreEither(t: Tunables, s: Sched, d: Dir)
    ensures Core(t, s, d, None) <==> Core(t, s, Read, None)
  {
  }

  lemma MoveShape(s: Sched, d: Dir, id: nat)
    requires id in s.rqs && s.rqs[id].dir == d
    ensures var s1, x, y := Move(s, id), SideOf(s, d), SideOf(s, Other(d));
      && SideOf(s1, d) == RemoveFrom(x.(next := Latter(x.tree, id)), id) && SideOf(s1, Other(d)) == y.(next := None)
      && s1.rqs == s.rqs - {id} && s1.sorted == s.sorted - 1 && s1.starved == s.starved && s1.now == s.now
      && s1.batching == s.batching && s1.out == s.out + [id]
  {
  }

  lemma MoveSide(rqs: map<nat, Req>, x: Side, d: Dir, limit: int, hole: Maybe<nat>, id: nat)
    requires SideInv(rqs, x, d, limit, hole) && id in Elems(x.tree)
    ensures var x1 := RemoveFrom(x.(next := Latter(x.tree, id)), id);
      && SideInv(rqs - {id}, x1, d, limit, hole) && |x1.fifo| == |x.fifo| - 1
      && id in rqs && rqs[id].dir == d
  {
    RisingAbove(rqs, x.tree, None);
    LatterIn(x.tree, id);
    WithoutIs(x.fifo, id);
    RemoveSide(rqs, x.(next := Latter(x.tree, id)), d, limit, hole, id);
  }

  lemma NotInOther(rqs: map<nat, Req>, y: Side, d: Dir, limit: int, id: nat)
    requires SideInv(rqs, y, Other(d), limit, None) && id in rqs && rqs[id].dir == d
    ensures id !in Elems(y.fifo)
  {
  }

  lemma ListedMove(rqs: map<nat, Req>, x: Side, y: Side, d: Dir, hole: Maybe<nat>, id: nat, x1: Side, y1: Side)
    requires Listed(rqs, x, y, d, hole) && x1.fifo == Without(x.fifo, id) && y1.fifo == y.fifo
    ensures Listed(rqs - {id}, x1, y1, d, hole)
  {
    WithoutIs(x.fifo, id);
  }

  lemma MakePair(t: Tunables, rqs: map<nat, Req>, x: Side, y: Side, d: Dir, now: int, hole: Maybe<nat>)
    requires SideInv(rqs, x, d, now + Expire(t, d), hole) && SideInv(rqs, y, Other(d), now + Expire(t, Other(d)), None)
    requires Listed(rqs, x, y, d, hole) && (x.next.None? || y.next.None?)
    ensures Pair(t, rqs, x, y, d, now, hole)
  {
  }

  lemma SplitPair(t: Tunables, rqs: map<nat, Req>, x: Side, y: Side, d: Dir, now: int, hole: Maybe<nat>)
    requires Pair(t, rqs, x, y, d, now, hole)
    ensures SideInv(rqs, x, d, now + Expire(t, d), hole) && SideInv(rqs, y, Other(d), now + Expire(t, Other(d)), None)
    ensures Listed(rqs, x, y, d, hole) && (x.next.None? || y.next.None?)
  {
  }

  lemma InTree(rqs: map<nat, Req>, x: Side, d: Dir, limit: int, hole: Maybe<nat>, id: nat)
    requires SideInv(rqs, x, d, limit, hole) && id in Elems(x.tree)
    ensures id in Elems(x.fifo) && id in rqs && rqs[id].dir == d
  {
  }

  lemma OtherMoved(rqs: map<nat, Req>, y: Side, d: Dir, limit: int, id: nat)
    requires SideInv(rqs, y, Other(d), limit, None) && id in rqs && rqs[id].dir == d
    ensures SideInv(rqs - {id}, y.(next := None), Other(d), limit, None)
  {
    NotInOther(rqs, y, d, limit, id);
    Alike(rqs, id, rqs[id]);
    SideFrame(rqs, rqs - {id}, id, y, Other(d), limit, limit);
  }

  lemma MovePair(t: Tunables, rqs: map<nat, Req>, x: Side, y: Side, d: Dir, now: int, hole: Maybe<nat>, id: nat,
                 x1: Side)
    requires Pair(t, rqs, x, y, d, now, hole) && id in Elems(x.tree) &&
      x1 == RemoveFrom(x.(next := Latter(x.tree, id)), id)
    ensures Pair(t, rqs - {id}, x1, y.(next := None), d, now, hole)
  {
    SplitPair(t, rqs, x, y, d, now, hole);
    InTree(rqs, x, d, now + Expire(t, d), hole, id);
    MoveSide(rqs, x, d, now + Expire(t, d), hole, id);
    OtherMoved(rqs, y, d, now + Expire(t, Other(d)), id);
    ListedMove(rqs, x, y, d, hole, id, x1, y.(next := None));
    MakePair(t, rqs - {id}, x1, y.(next := None), d, now, hole);
  }

  /** A request moves to the dispatch queue. */
  lemma MoveCore(t: Tunables, s: Sched, d: Dir, hole: Maybe<nat>, id: nat)
    requires Core(t, s, d, hole) && id in Elems(SideOf(s, d).tree)
    ensures id in s.rqs && s.rqs[id].dir == d
    ensures Core(t, Move(s, id), d, hole) && Held(Move(s, id)) == Held(s) - 1
  {
    InTree(s.rqs, SideOf(s, d), d, s.now + Expire(t, d), hole, id);
    MoveShape(s, d, id);
    MovePair(t, s.rqs, SideOf(s, d), SideOf(s, Other(d)), d, s.now, hole, id, SideOf(Move(s, id), d));
    WithoutIs(SideOf(s, d).fifo, id);
  }

  /** The hole is filled: request `id` is in the tree, and the rest as before. */
  ghost predicate Placed(t: Tunables, s: Sched, d: Dir, id: nat) {
    id in s.rqs && s.rqs[id].dir == d &&
    var x := SideOf(s, d);
    var holds :=
      && InSectorOrder(s.rqs, x.tree) && InBoth(x, id)
      && Pair(t, s.rqs, x.(tree := Without(x.tree, id)), SideOf(s, Other(d)), d, s.now, Some(id));
    holds
  }

  ghost predicate InBoth(x: Side, id: nat) { Elems(x.tree) == Elems(x.fifo) + {id} }

  lemma PlaceSide(rqs: map<nat, Req>, x: Side, d: Dir, limit: int, id: nat)
    requires id in rqs && SideInv(rqs, x, d, limit, Some(id))
    requires forall k :: k in Elems(x.tree) ==> k in rqs && rqs[k].start != rqs[id].start
    ensures var x1 := x.(tree := Place(rqs, x.tree, id));
      InSectorOrder(rqs, x1.tree) && InBoth(x1, id) && x1.(tree := Without(x1.tree, id)) == x
  {
    PlaceIs(rqs, x.tree, id, None);
    PlaceThenTake(rqs, x.tree, id);
  }

  lemma PlaceCore(t: Tunables, s: Sched, d: Dir, id: nat)
    requires id in s.rqs && s.rqs[id].dir == d && Core(t, s, d, Some(id))
    requires forall k :: k in Elems(SideOf(s, d).tree) ==> k in s.rqs && s.rqs[k].start != s.rqs[id].start
    ensures Placed(t, WithSide(s, d, SideOf(s, d).(tree := Place(s.rqs, SideOf(s, d).tree, id))), d, id)
  {
    PlaceSide(s.rqs, SideOf(s, d), d, s.now + Expire(t, d), id);
  }

  /** deadline_add_rq_rb fills the hole; the request at its sector, if any, was dispatched. */
  lemma AddTreeCore(t: Tunables, s: Sched, d: Dir, id: nat)
    requires id in s.rqs && s.rqs[id].dir == d && Core(t, s, d, Some(id))
    ensures var s1 := AddTree(s, id);
      && Placed(t, s1, d, id) && s1.rqs[id] == s.rqs[id] && s1.starved == s.starved && s1.now == s.now
      && s1.sorted - Held(s1) == s.sorted - Held(s)
      && (id in Elems(SideOf(s1, d).fifo) <==> id in Elems(SideOf(s, d).fifo))
  {
    var x := SideOf(s, d);
    var a := Alias(s.rqs, x.tree, s.rqs[id].start);
    AliasIs(s.rqs, x.tree, s.rqs[id].start, None);
    if a.Some? {
      MoveCore(t, s, d, Some(id), a.value);
      MoveShape(s, d, a.value);
      WithoutIs(x.tree, a.value);
      WithoutIs(x.fifo, a.value);
      StartsApart(s.rqs, x.tree, a.value, None);
      PlaceCore(t, Move(s, a.value), d, id);
    } else {
      PlaceCore(t, s, d, id);
    }
  }

  lemma {:induction false} StartsApart(rqs: map<nat, Req>, tree: seq<nat>, a: nat, lo: Maybe<int>)
    requires Rising(rqs, tree, lo) && a in Elems(tree)
    ensures a in rqs && forall k :: k in Elems(tree) && k != a ==> k in rqs && rqs[k].start != rqs[a].start
  {
    RisingAbove(rqs, tree[1..], Some(rqs[tree[0]].start));
    if a != tree[0] {
      StartsApart(rqs, tree[1..], a, Some(rqs[tree[0]].start));
    }
  }

  lemma {:induction false} PlaceThenTake(rqs: map<nat, Req>, tree: seq<nat>, id: nat)
    requires id in rqs && id !in Elems(tree)
    ensures Without(Place(rqs, tree, id), id) == tree
  {
    if tree == [] {
      WithoutOne(id);
    } else {
      assert tree == [tree[0]] + tree[1..];
      PlaceThenTake(rqs, tree[1..], id);
      if tree[0] in rqs && rqs[id].start < rqs[tree[0]].start {
        WithoutAll(tree, id);
        assert ([id] + tree)[1..] == tree;
      } else {
        var p := Place(rqs, tree[1..], id);
        assert ([tree[0]] + p)[1..] == p;
      }
    }
  }

  lemma WithoutOne(id: nat)
    ensures Without([id], id) == []
  {
    assert [id][1..] == [];
  }
}
