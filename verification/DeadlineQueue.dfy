/** struct deadline_data, with the operations the elevator calls. */
module DeadlineQueue {
  import opened Lists
  import opened Deadline
  import opened DeadlineInvariant
  import opened DeadlineSteps
  import opened DeadlineRuns

  /** The head of the FIFO and the next request of a batch exist. */
  ghost predicate Usable(rqs: map<nat, Req>, x: Side) {
    (x.fifo != [] ==> x.fifo[0] in rqs) && (x.next.Some? ==> x.next.value in rqs)
  }

  lemma ChoiceExists(t: Tunables, s: Sched)
    requires Usable(s.rqs, s.read) && Usable(s.rqs, s.write)
    ensures match Choose(t, s) case Nothing => true case Batch(id) => id in s.rqs case Fresh(_, id) => id in s.rqs
  {
  }

  lemma InvUsable(t: Tunables, s: Sched)
    requires Inv(t, s)
    ensures Usable(s.rqs, s.read) && Usable(s.rqs, s.write)
  {
    assert s.read.fifo != [] ==> s.read.fifo[0] in Elems(s.read.fifo);
    assert s.write.fifo != [] ==> s.write.fifo[0] in Elems(s.write.fifo);
  }

  /** On the way to `end`, before dispatch `i`; without `more` to come it is reached. */
  ghost predicate Draining(t: Tunables, s: Sched, clock: nat -> int, i: nat, more: bool, end: Sched) {
    var holds :=
      && Inv(t, s) && Forward(clock) && s.now <= clock(i)
      && end == if more then Drain(t, s, clock, i, Held(s) + 1) else s;
    holds
  }

  /** A dispatch that found nothing means that nothing is held; otherwise one less is. */
  lemma DrainStep(t: Tunables, s: Sched, clock: nat -> int, i: nat, end: Sched)
    requires Draining(t, s, clock, i, true, end)
    ensures var s0 := s.(now := clock(i));
      var s1, more := Dispatch(t, s0), !Choose(t, s0).Nothing?;
      && Draining(t, s1, clock, i + 1, more, end) && Usable(s.rqs, s.read) && Usable(s.rqs, s.write)
      && (more ==> Held(s1) < Held(s)) && Held(s1) <= Held(s)
  {
    DispatchAt(t, s, clock(i));
    LaterCore(t, s, clock(i));
    NothingHeld(t, s.(now := clock(i)));
    InvUsable(t, s);
    DrainOnce(t, s, clock, i, Held(s), Dispatch(t, s.(now := clock(i))));
  }

  lemma DrainOnce(t: Tunables, s: Sched, clock: nat -> int, i: nat, n: nat, s1: Sched)
    requires s1 == Dispatch(t, s.(now := clock(i)))
    ensures Drain(t, s, clock, i, n + 1) == Drain(t, s1, clock, i + 1, n) && Drain(t, s1, clock, i + 1, 0) == s1
  {
  }

  lemma NothingHeld(t: Tunables, s: Sched)
    requires Inv(t, s)
    ensures Choose(t, s).Nothing? ==> Held(s) == 0 && Dispatch(t, s) == s
    ensures !Choose(t, s).Nothing? ==> Held(s) > 0
  {
    ChoiceQueued(t, s);
    DispatchInv(t, s);
    if !Choose(t, s).Nothing? {
      EmptyElems(s);
    }
  }

  /** A queued request is held. */
  lemma EmptyElems(s: Sched)
    ensures Held(s) == 0 ==> Elems(s.read.fifo) == {} && Elems(s.write.fifo) == {}
  {
  }

  /** A tree of direction `d` in sector order, without request `id`. */
  ghost predicate Searchable(rqs: map<nat, Req>, tree: seq<nat>, d: Dir, id: nat) {
    InSectorOrder(rqs, tree) && Directed(rqs, tree, d) && id !in Elems(tree)
  }

  lemma AliasThere(rqs: map<nat, Req>, tree: seq<nat>, d: Dir, id: nat, start: int)
    requires Searchable(rqs, tree, d, id)
    ensures var a := Alias(rqs, tree, start); a.Some? ==> a.value in rqs && a.value != id && rqs[a.value].dir == d
  {
    AliasIs(rqs, tree, start, None);
  }

  /** Once the alias is dispatched there is no other. */
  lemma AliasGone(s: Sched, d: Dir, id: nat, a: nat, start: int)
    requires Searchable(s.rqs, SideOf(s, d).tree, d, id) && Alias(s.rqs, SideOf(s, d).tree, start) == Some(a)
    requires a in s.rqs && s.rqs[a].dir == d
    ensures var s1 := Move(s, a); Alias(s1.rqs, SideOf(s1, d).tree, start).None?
  {
    var tree := SideOf(s, d).tree;
    AliasIs(s.rqs, tree, start, None);
    MoveShape(s, d, a);
    WithoutKeepsOrder(s.rqs, tree, a, None);
    WithoutIs(tree, a);
    AliasIs(s.rqs - {a}, Without(tree, a), start, None);
    StartsApart(s.rqs, tree, a, None);
  }

  class DeadlineData {
    var rqs: map<nat, Req>
    var read: Side
    var write: Side
    var batching: nat
    var starved: nat
    var lastSector: int
    var sorted: int
    var out: seq<nat>
    var now: int

    ghost function View(): Sched
      reads this
    {
      Sched(rqs, read, write, batching, starved, lastSector, sorted, out, now)
    }

    /** deadline_remove_request */
    method RemoveRequest(id: nat)
      requires id in rqs
      modifies this`rqs, this`read, this`write
      ensures View() == Remove(old(View()), id)
    {
      if rqs[id].dir.Read? {
        read := RemoveFrom(read, id);
      } else {
        write := RemoveFrom(write, id);
      }
      rqs := rqs - {id};
    }

    /** deadline_move_request */
    method MoveRequest(id: nat)
      requires id in rqs
      modifies this`rqs, this`read, this`write, this`lastSector, this`sorted, this`out
      ensures View() == Move(old(View()), id)
    {
      var latter := Latter(if rqs[id].dir.Read? then read.tree else write.tree, id);
      if rqs[id].dir.Read? {
        read, write := read.(next := latter), write.(next := None);
      } else {
        read, write := read.(next := None), write.(next := latter);
      }
      lastSector := rqs[id].end;
      RemoveRequest(id);
      sorted := sorted - 1;
      out := out + [id];
    }

    /** deadline_add_rq_rb: requests at the same sector are dispatched until the tree takes this one */
    method AddRqRb(id: nat)
      requires id in rqs && Searchable(rqs, if rqs[id].dir.Read? then read.tree else write.tree, rqs[id].dir, id)
      modifies this`rqs, this`read, this`write, this`lastSector, this`sorted, this`out
      ensures View() == AddTree(old(View()), id)
    {
      var r := rqs[id];
      ghost var s := View();
      ghost var tree := SideOf(s, r.dir).tree;
      AliasThere(rqs, tree, r.dir, id, r.start);
      var moved := false;
      var alias := Alias(rqs, if r.dir.Read? then read.tree else write.tree, r.start);
      while alias.Some?
        invariant id in rqs && rqs[id] == r
        invariant if !moved then View() == s && alias == Alias(s.rqs, tree, r.start)
                  else alias.None? && Alias(s.rqs, tree, r.start).Some?
                       && View() == Move(s, Alias(s.rqs, tree, r.start).value)
        decreases !moved
      {
        MoveRequest(alias.value);
        AliasGone(s, r.dir, id, alias.value, r.start);
        moved := true;
        alias := Alias(rqs, if r.dir.Read? then read.tree else write.tree, r.start);
      }
      if r.dir.Read? {
        read := read.(tree := Place(rqs, read.tree, id));
      } else {
        write := write.(tree := Place(rqs, write.tree, id));
      }
    }

    /** deadline_add_request, with the count of elv_insert */
    method AddRequest(t: Tunables, id: nat, dir: Dir, start: int, end: int, time: int)
      requires id !in rqs
      requires Searchable(rqs[id := Req(dir, start, end, 0)], if dir.Read? then read.tree else write.tree, dir, id)
      modifies this
      ensures View() == Add(t, old(View()), id, dir, start, end, time)
    {
      var r := Req(dir, start, end, time + Expire(t, dir));
      ghost var rqs0 := rqs[id := Req(dir, start, end, 0)];
      SameStarts(rqs0, r, id, if dir.Read? then read.tree else write.tree, None);
      assert rqs0[id := r] == rqs[id := r];
      rqs, sorted, now := rqs[id := r], sorted + 1, time;
      AddRqRb(id);
      AddTail(dir, id);
    }

    method AddTail(dir: Dir, id: nat)
      modifies this`read, this`write
      ensures View() == WithSide(old(View()), dir,
        SideOf(old(View()), dir).(fifo := SideOf(old(View()), dir).fifo + [id]))
    {
      if dir.Read? {
        read := read.(fifo := read.fifo + [id]);
      } else {
        write := write.(fifo := write.fifo + [id]);
      }
    }

    /** deadline_merged_request after a front merge; `next_rq` is left alone while the request is out of the tree */
    method MergedRequest(id: nat, start: int)
      requires id in rqs
      requires var x := if rqs[id].dir.Read? then read else write;
        Searchable(rqs[id := rqs[id].(start := start)], Without(x.tree, id), rqs[id].dir, id)
      modifies this
      ensures View() == FrontMerged(old(View()), id, start)
    {
      var r := rqs[id].(start := start);
      if r.dir.Read? {
        read := read.(tree := Without(read.tree, id));
      } else {
        write := write.(tree := Without(write.tree, id));
      }
      rqs := rqs[id := r];
      AddRqRb(id);
    }

    /** deadline_merged_requests */
    method MergedRequestPair(id: nat, next: nat)
      requires id in rqs && next in rqs && id != next
      modifies this
      ensures View() == MergedRequests(old(View()), id, next)
    {
      var r, r2 := rqs[id], rqs[next];
      if r2.expires < r.expires {
        if r.dir.Read? {
          read := read.(fifo := Inherit(read.fifo, id, next));
        } else {
          write := write.(fifo := Inherit(write.fifo, id, next));
        }
        rqs := rqs[id := r.(end := r2.end, expires := r2.expires)];
      } else {
        rqs := rqs[id := r.(end := r2.end)];
      }
      RemoveRequest(next);
      sorted := sorted - 1;
    }

    /** The direction to take when no batch is running; writes_starved counts. */
    method SelectDirection(t: Tunables) returns (dir: Maybe<Dir>)
      modifies this`starved
      ensures dir == Direction(t, old(View()))
      ensures starved == if dir.Some? then Starved(old(View()), dir.value) else old(starved)
    {
      var hasReads, hasWrites := read.fifo != [], write.fifo != [];
      if hasReads {
        var passed := starved;
        if hasWrites {
          starved := starved + 1;
        }
        if !hasWrites || passed < t.writesStarved {
          return Some(Read);
        }
      }
      if hasWrites {
        starved := 0;
        return Some(Write);
      }
      return None;
    }

    /** The first part of deadline_dispatch_requests: what to dispatch, counting reads that pass writes. */
    method SelectRequest(t: Tunables) returns (c: Choice)
      requires Usable(rqs, read) && Usable(rqs, write)
      modifies this`starved
      ensures c == Choose(t, old(View()))
      ensures starved == if c.Fresh? then Starved(old(View()), c.dir) else old(starved)
    {
      var rq := if write.next.Some? then write.next else read.next;
      if rq.Some? && batching < t.fifoBatch {
        return Batch(rq.value);
      }
      var dir := SelectDirection(t);
      if dir.None? {
        return Nothing;
      }
      var x := if dir.value.Read? then read else write;
      var head := x.fifo[0];
      if now > rqs[head].expires || x.next.None? {
        return Fresh(dir.value, head);
      }
      return Fresh(dir.value, x.next.value);
    }

    /** deadline_dispatch_requests, at time `time`; false when nothing was queued */
    method DispatchRequests(t: Tunables, time: int) returns (dispatched: bool)
      requires Usable(rqs, read) && Usable(rqs, write)
      modifies this
      ensures View() == Dispatch(t, old(View()).(now := time))
      ensures dispatched == !Choose(t, old(View()).(now := time)).Nothing?
    {
      now := time;
      ghost var s := View();
      ChoiceExists(t, s);
      var c := SelectRequest(t);
      match c
      case Nothing => return false;
      case Batch(id) =>
        batching := batching + 1;
        MoveRequest(id);
        return true;
      case Fresh(d, id) =>
        batching := 1;
        MoveRequest(id);
        return true;
    }

    /** elv_drain_elevator; dispatch `i` happens at time `clock(i)` */
    method DrainElevator(t: Tunables, clock: nat -> int)
      requires Inv(t, View()) && Forward(clock) && now <= clock(0)
      modifies this
      ensures View() == Drain(t, old(View()), clock, 0, old(Held(View())) + 1)
      ensures read.fifo == [] && write.fifo == [] && read.tree == [] && write.tree == [] && sorted == 0
    {
      DrainEmpties(t, View(), clock, 0, Held(View()) + 1);
      ghost var end := Drain(t, View(), clock, 0, Held(View()) + 1);
      var more, i: nat := true, 0;
      while more
        invariant Draining(t, View(), clock, i, more, end)
        decreases Held(View()), more
      {
        DrainStep(t, View(), clock, i, end);
        more := DispatchRequests(t, clock(i));
        i := i + 1;
      }
    }
  }
}
