/**
  The deadline I/O scheduler: for each direction a tree in sector order and a
  FIFO in order of arrival hold the same requests.  Times do not wrap here.
 */
module Deadline {
  import opened Lists

  datatype Dir = Read | Write

  datatype Req = Req(dir: Dir, start: int, end: int, expires: int)

  /** sort_list, fifo_list and next_rq of one direction; the tree is its in-order listing. */
  datatype Side = Side(tree: seq<nat>, fifo: seq<nat>, next: Maybe<nat>)

  /** deadline_data, q->nr_sorted, and the tail of the dispatch queue; `now` is the latest time seen. */
  datatype Sched = Sched(rqs: map<nat, Req>, read: Side, write: Side, batching: nat, starved: nat,
                         lastSector: int, sorted: int, out: seq<nat>, now: int)

  datatype Tunables = Tunables(readExpire: nat, writeExpire: nat, fifoBatch: nat, writesStarved: nat)

  function SideOf(s: Sched, d: Dir): Side { if d.Read? then s.read else s.write }

  function WithSide(s: Sched, d: Dir, x: Side): Sched { if d.Read? then s.(read := x) else s.(write := x) }

  function Expire(t: Tunables, d: Dir): nat { if d.Read? then t.readExpire else t.writeExpire }

  // ----- the tree -----

  /** elv_rb_add finds a request at the same sector. */
  function Alias(rqs: map<nat, Req>, tree: seq<nat>, start: int): Maybe<nat> {
    if tree == [] then None
    else if tree[0] in rqs && rqs[tree[0]].start == start then Some(tree[0])
    else Alias(rqs, tree[1..], start)
  }

  /** elv_rb_add where there is none. */
  function Place(rqs: map<nat, Req>, tree: seq<nat>, id: nat): seq<nat>
    requires id in rqs
  {
    if tree == [] then [id]
    else if tree[0] in rqs && rqs[id].start < rqs[tree[0]].start then [id] + tree
    else [tree[0]] + Place(rqs, tree[1..], id)
  }

  // ----- moving requests -----

  /** deadline_remove_request: off the FIFO and the tree, with `next` stepped on. */
  function RemoveFrom(x: Side, id: nat): Side {
    Side(Without(x.tree, id), Without(x.fifo, id), if x.next == Some(id) then Latter(x.tree, id) else x.next)
  }

  function Remove(s: Sched, id: nat): Sched
    requires id in s.rqs
  {
    var d := s.rqs[id].dir;
    WithSide(s, d, RemoveFrom(SideOf(s, d), id)).(rqs := s.rqs - {id})
  }

  /** deadline_move_request: to the dispatch queue, and the batch goes on behind it. */
  function Move(s: Sched, id: nat): Sched
    requires id in s.rqs
  {
    var d := s.rqs[id].dir;
    var latter := Latter(SideOf(s, d).tree, id);
    var s1 := s.(read := s.read.(next := if d.Read? then latter else None),
                 write := s.write.(next := if d.Write? then latter else None),
                 lastSector := s.rqs[id].end);
    Remove(s1, id).(sorted := s.sorted - 1, out := s.out + [id])
  }

  /** deadline_add_rq_rb: a request already at the sector is dispatched first. */
  function AddTree(s: Sched, id: nat): Sched
    requires id in s.rqs
  {
    var d := s.rqs[id].dir;
    var a := Alias(s.rqs, SideOf(s, d).tree, s.rqs[id].start);
    var s1 := if a.Some? && a.value in s.rqs && a.value != id then Move(s, a.value) else s;
    if id in s1.rqs then WithSide(s1, d, SideOf(s1, d).(tree := Place(s1.rqs, SideOf(s1, d).tree, id))) else s1
  }

  // ----- the scheduler's operations -----

  /** deadline_add_request, from elv_insert */
  function Add(t: Tunables, s: Sched, id: nat, d: Dir, start: int, end: int, now: int): Sched {
    var r := Req(d, start, end, now + Expire(t, d));
    var s1 := AddTree(s.(rqs := s.rqs[id := r], sorted := s.sorted + 1, now := now), id);
    WithSide(s1, d, SideOf(s1, d).(fifo := SideOf(s1, d).fifo + [id]))
  }

  /** deadline_merged_request after a front merge: the request is taken out of the tree and put back. */
  function FrontMerged(s: Sched, id: nat, start: int): Sched
    requires id in s.rqs
  {
    var r := s.rqs[id].(start := start);
    var x := SideOf(s, r.dir);
    AddTree(WithSide(s, r.dir, x.(tree := Without(x.tree, id))).(rqs := s.rqs[id := r]), id)
  }

  function BackMerged(s: Sched, id: nat, end: int): Sched
    requires id in s.rqs
  {
    s.(rqs := s.rqs[id := s.rqs[id].(end := end)])
  }

  /** deadline_merged_requests: `id` takes the FIFO place of `next` if that expires earlier. */
  function MergedRequests(s: Sched, id: nat, next: nat): Sched
    requires id in s.rqs && next in s.rqs
  {
    var r, r2 := s.rqs[id], s.rqs[next];
    var x := SideOf(s, r.dir);
    var s1 :=
      if r2.expires < r.expires
      then WithSide(s, r.dir, x.(fifo := Inherit(x.fifo, id, next)))
           .(rqs := s.rqs[id := r.(end := r2.end, expires := r2.expires)])
      else s.(rqs := s.rqs[id := r.(end := r2.end)]);
    Remove(s1, next).(sorted := s.sorted - 1)
  }

  /** list_move: `id` directly behind `next`. */
  function Inherit(fifo: seq<nat>, id: nat, next: nat): seq<nat> {
    InsertAfter(Without(fifo, id), next, id)
  }

  function InsertAfter(s: seq<nat>, at: nat, id: nat): seq<nat> {
    if s == [] then [] else if s[0] == at then [at, id] + s[1..] else [s[0]] + InsertAfter(s[1..], at, id)
  }

  // ----- deadline_dispatch_requests -----

  datatype Choice = Nothing | Batch(id: nat) | Fresh(dir: Dir, id: nat)

  /** The direction when no batch is running: reads, unless writes were passed over often enough. */
  function Direction(t: Tunables, s: Sched): Maybe<Dir> {
    if s.read.fifo != [] && !(s.write.fifo != [] && s.starved >= t.writesStarved) then Some(Read)
    else if s.write.fifo != [] then Some(Write)
    else None
  }

  function Choose(t: Tunables, s: Sched): Choice {
    var next := if s.write.next.Some? then s.write.next else s.read.next;
    if next.Some? && s.batching < t.fifoBatch then Batch(next.value)
    else
      var d := Direction(t, s);
      if d.None? then Nothing
      else
        var x := SideOf(s, d.value);
        if x.fifo == [] then Nothing
        else if (x.fifo[0] in s.rqs && s.now > s.rqs[x.fifo[0]].expires) || x.next.None? then Fresh(d.value, x.fifo[0])
        else Fresh(d.value, x.next.value)
  }

  /** The starvation count when a new batch in direction `d` starts. */
  function Starved(s: Sched, d: Dir): nat {
    if d.Write? then 0 else if s.write.fifo != [] then s.starved + 1 else s.starved
  }

  function Dispatch(t: Tunables, s: Sched): Sched {
    match Choose(t, s)
    case Nothing => s
    case Batch(id) => if id in s.rqs then Move(s.(batching := s.batching + 1), id) else s
    case Fresh(d, id) => if id in s.rqs then Move(s.(batching := 1, starved := Starved(s, d)), id) else s
  }

  // ----- runs -----

  datatype Event =
    | AddRequest(id: nat, dir: Dir, start: int, end: int, now: int)
    | MergeFront(id: nat, start: int)
    | MergeBack(id: nat, end: int)
    | MergeRequests(id: nat, next: nat)
    | DispatchRequests(now: int)

  ghost predicate Enabled(s: Sched, e: Event) {
    match e
    case AddRequest(id, _, _, _, now) => id !in s.rqs && now >= s.now
    case MergeFront(id, _) => id in s.rqs
    case MergeBack(id, _) => id in s.rqs
    case MergeRequests(id, next) => id in s.rqs && next in s.rqs && id != next && s.rqs[id].dir == s.rqs[next].dir
    case DispatchRequests(now) => now >= s.now
  }

  function Step(t: Tunables, s: Sched, e: Event): Sched
    requires Enabled(s, e)
  {
    match e
    case AddRequest(id, d, start, end, now) => Add(t, s, id, d, start, end, now)
    case MergeFront(id, start) => FrontMerged(s, id, start)
    case MergeBack(id, end) => BackMerged(s, id, end)
    case MergeRequests(id, next) => MergedRequests(s, id, next)
    case DispatchRequests(now) => Dispatch(t, s.(now := now))
  }

  function Init(): Sched { Sched(map[], Side([], [], None), Side([], [], None), 0, 0, 0, 0, [], 0) }

  ghost predicate Leads(t: Tunables, s: Sched, es: seq<Event>, q: Sched)
    decreases |es|
  {
    if es == [] then s == q else Enabled(s, es[0]) && Leads(t, Step(t, s, es[0]), es[1..], q)
  }
}
