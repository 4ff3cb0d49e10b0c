/** The pool of requests of a queue: accounting, throttling and the tasks that sleep for a free one. */
module RequestLists {

  /**
    One direction of struct request_list.  Some of the counted requests are still
    being allocated with the lock dropped.  `sleepers` wait on the queue and
    `woken` were woken up but did not try again yet.
   */
  datatype Side = Side(count: int, starved: bool, full: bool, allocating: int, outstanding: int, sleepers: nat,
                       woken: nat)

  datatype Pool = Pool(async: Side, sync: Side)

  datatype MayQueue = No | May | Must

  function Of(p: Pool, sync: bool): Side { if sync then p.sync else p.async }

  function With(p: Pool, sync: bool, x: Side): Pool { if sync then p.(sync := x) else p.(async := x) }

  /** __freed_request: one sleeper is woken, and the direction is no longer full. */
  function Notify(nr: nat, x: Side): Side {
    if x.count + 1 <= nr
    then if x.sleepers > 0 then x.(sleepers := x.sleepers - 1, woken := x.woken + 1, full := false)
         else x.(full := false)
    else x
  }

  /** freed_request */
  function Freed(nr: nat, p: Pool, sync: bool): Pool {
    var x := Of(p, sync);
    var p1 := With(p, sync, Notify(nr, x.(count := x.count - 1)));
    if Of(p1, !sync).starved then With(p1, !sync, Notify(nr, Of(p1, !sync))) else p1
  }

  /** The failing exits of get_request, for a task that then sleeps if it `waits`. */
  function GiveUp(x: Side, starving: bool, waits: bool): Side {
    x.(starved := x.starved || (starving && x.count == 0), sleepers := x.sleepers + if waits then 1 else 0)
  }

  /** get_request up to the allocation; `batching`: the process may go beyond nr_requests. */
  function Take(nr: nat, x: Side, may: MayQueue, batching: bool, waits: bool): Side {
    var fills := x.count + 1 >= nr;
    var x1 := if fills && !may.No? then x.(full := true) else x;
    if may.No? then GiveUp(x, true, waits)
    else if fills && x.full && !may.Must? && !batching then GiveUp(x, false, waits)
    else if x.count >= 3 * nr / 2 then GiveUp(x1, false, waits)
    else x1.(count := x.count + 1, starved := false, allocating := x.allocating + 1)
  }

  // ----- runs -----

  datatype Event =
    | Get(sync: bool, may: MayQueue, batching: bool, waits: bool)
    | Retry(sync: bool, may: MayQueue, batching: bool)             // a woken task tries again
    | Allocated(sync: bool)
    | NotAllocated(sync: bool, waits: bool)
    | Free(sync: bool)

  ghost predicate Enabled(p: Pool, e: Event) {
    match e
    case Get(_, _, _, _) => true
    case Retry(sync, _, _) => Of(p, sync).woken > 0
    case Allocated(sync) => Of(p, sync).allocating > 0
    case NotAllocated(sync, _) => Of(p, sync).allocating > 0
    case Free(sync) => Of(p, sync).outstanding > 0
  }

  function Step(nr: nat, p: Pool, e: Event): Pool
    requires Enabled(p, e)
  {
    var x := Of(p, e.sync);
    match e
    case Get(sync, may, batching, waits) => With(p, sync, Take(nr, x, may, batching, waits))
    case Retry(sync, may, batching) => With(p, sync, Take(nr, x.(woken := x.woken - 1), may, batching, true))
    case Allocated(sync) => With(p, sync, x.(allocating := x.allocating - 1, outstanding := x.outstanding + 1))
    case NotAllocated(sync, waits) =>
      var p1 := Freed(nr, With(p, sync, x.(allocating := x.allocating - 1)), sync);
      With(p1, sync, GiveUp(Of(p1, sync), true, waits))
    case Free(sync) => Freed(nr, With(p, sync, x.(outstanding := x.outstanding - 1)), sync)
  }

  function Init(): Pool {
    var x := Side(0, false, false, 0, 0, 0, 0);
    Pool(x, x)
  }

  ghost predicate Leads(nr: nat, p: Pool, es: seq<Event>, q: Pool)
    decreases |es|
  {
    if es == [] then p == q else Enabled(p, es[0]) && Leads(nr, Step(nr, p, es[0]), es[1..], q)
  }

  // ----- what every step keeps -----

  /** A sleeper that nobody is about to relieve has something to wait for. */
  ghost predicate Relieved(x: Side) { x.sleepers > 0 && x.woken == 0 ==> x.count > 0 || x.starved }

  ghost predicate Counted(nr: nat, x: Side) {
    && x.count == x.allocating + x.outstanding && x.allocating >= 0 && x.outstanding >= 0 && x.count <= 3 * nr / 2
    && (x.starved ==> x.count == 0) && (x.full <==> x.count >= nr)
  }

  ghost predicate SideInv(nr: nat, x: Side) {
    var holds := Counted(nr, x) && Relieved(x);
    holds
  }

  ghost predicate Inv(nr: nat, p: Pool) {
    var holds := SideInv(nr, p.async) && SideInv(nr, p.sync);
    holds
  }

  /** Whatever the outcome, a task that tries leaves no stranded sleeper, itself included. */
  lemma TakeInv(nr: nat, x: Side, may: MayQueue, batching: bool, waits: bool)
    requires nr >= 1 && Counted(nr, x) && (Relieved(x) || waits)
    ensures SideInv(nr, Take(nr, x, may, batching, waits))
  {
  }

  /** One request less, of those out or of those being allocated. */
  lemma NotifyInv(nr: nat, x: Side, y: Side)
    requires nr >= 1 && SideInv(nr, x) && x.count > 0 && y.count == x.count - 1 == y.allocating + y.outstanding
    requires y.allocating >= 0 && y.outstanding >= 0 && y.starved == x.starved && y.full == x.full
    requires y.sleepers == x.sleepers && y.woken == x.woken
    ensures SideInv(nr, Notify(nr, y))
  {
  }

  lemma NotifyStarved(nr: nat, x: Side)
    requires SideInv(nr, x) && x.starved
    ensures SideInv(nr, Notify(nr, x))
  {
  }

  lemma FreedInv(nr: nat, p: Pool, sync: bool, y: Side)
    requires nr >= 1 && Inv(nr, p) && Of(p, sync).count > 0 && y.count == Of(p, sync).count
    requires y.allocating + y.outstanding == y.count - 1 && y.allocating >= 0 && y.outstanding >= 0
    requires y.starved == Of(p, sync).starved && y.full == Of(p, sync).full
    requires y.sleepers == Of(p, sync).sleepers && y.woken == Of(p, sync).woken
    ensures Inv(nr, Freed(nr, With(p, sync, y), sync))
  {
    NotifyInv(nr, Of(p, sync), y.(count := y.count - 1));
    if Of(p, !sync).starved {
      NotifyStarved(nr, Of(p, !sync));
    }
  }

  lemma GiveUpInv(nr: nat, x: Side, waits: bool)
    requires SideInv(nr, x)
    ensures SideInv(nr, GiveUp(x, true, waits))
  {
  }

  lemma AllocatedInv(nr: nat, x: Side)
    requires SideInv(nr, x) && x.allocating > 0
    ensures SideInv(nr, x.(allocating := x.allocating - 1, outstanding := x.outstanding + 1))
  {
  }

  lemma WithInv(nr: nat, p: Pool, sync: bool, y: Side)
    requires Inv(nr, p) && SideInv(nr, y)
    ensures Inv(nr, With(p, sync, y))
  {
  }

  lemma TryInv(nr: nat, p: Pool, e: Event)
    requires nr >= 1 && Inv(nr, p) && Enabled(p, e) && (e.Get? || e.Retry?)
    ensures Inv(nr, Step(nr, p, e))
  {
    var x := Of(p, e.sync);
    if e.Get? {
      TakeInv(nr, x, e.may, e.batching, e.waits);
      WithInv(nr, p, e.sync, Take(nr, x, e.may, e.batching, e.waits));
    } else {
      TakeInv(nr, x.(woken := x.woken - 1), e.may, e.batching, true);
      WithInv(nr, p, e.sync, Take(nr, x.(woken := x.woken - 1), e.may, e.batching, true));
    }
  }

  lemma NotAllocatedInv(nr: nat, p: Pool, sync: bool, waits: bool)
    requires nr >= 1 && Inv(nr, p) && Of(p, sync).allocating > 0
    ensures Inv(nr, Step(nr, p, NotAllocated(sync, waits)))
  {
    var y := Of(p, sync).(allocating := Of(p, sync).allocating - 1);
    var p1 := Freed(nr, With(p, sync, y), sync);
    FreedInv(nr, p, sync, y);
    GiveUpInv(nr, Of(p1, sync), waits);
    WithInv(nr, p1, sync, GiveUp(Of(p1, sync), true, waits));
  }

  lemma StepInv(nr: nat, p: Pool, e: Event)
    requires nr >= 1 && Inv(nr, p) && Enabled(p, e)
    ensures Inv(nr, Step(nr, p, e))
  {
    match e
    case Get(_, _, _, _) => TryInv(nr, p, e);
    case Retry(_, _, _) => TryInv(nr, p, e);
    case Allocated(sync) =>
      var x := Of(p, sync);
      AllocatedInv(nr, x);
      WithInv(nr, p, sync, x.(allocating := x.allocating - 1, outstanding := x.outstanding + 1));
    case NotAllocated(sync, waits) => NotAllocatedInv(nr, p, sync, waits);
    case Free(sync) => FreedInv(nr, p, sync, Of(p, sync).(outstanding := Of(p, sync).outstanding - 1));
  }

  lemma {:induction false} RunInv(nr: nat, p: Pool, es: seq<Event>, q: Pool)
    requires nr >= 1 && Inv(nr, p) && Leads(nr, p, es, q)
    ensures Inv(nr, q)
    decreases |es|
  {
    if es != [] {
      StepInv(nr, p, es[0]);
      RunInv(nr, Step(nr, p, es[0]), es[1..], q);
    }
  }

  /**
    After every run: no task sleeps unless one is about to try again, requests of
    its direction are out, or the direction is marked starved; and the count is
    the number of requests out, at most half again nr_requests.
   */
  lemma NoStrandedSleeper(nr: nat, es: seq<Event>, q: Pool, sync: bool)
    requires nr >= 1 && Leads(nr, Init(), es, q)
    ensures var x := Of(q, sync);
      && (x.sleepers > 0 && x.woken == 0 ==> x.count > 0 || x.starved)
      && x.count == x.allocating + x.outstanding && 0 <= x.count <= 3 * nr / 2
      && (x.full <==> x.count >= nr)
  {
    RunInv(nr, Init(), es, q);
  }

  /** Why that is enough: freeing the last request, or one of the other direction under the mark, wakes a sleeper. */
  /**
    A task may have a request unless the scheduler says no: below nr_requests any
    task, and below half again as many a batcher or one that the scheduler
    insists on.
   */
  predicate MayHave(nr: nat, x: Side, may: MayQueue, batching: bool) {
    !may.No? && x.count < if batching || may.Must? then 3 * nr / 2 else nr
  }

  /** After every run an attempt is granted exactly to a task that may have a request; another sleeps if it waits. */
  lemma GrantedIff(nr: nat, es: seq<Event>, q: Pool, sync: bool, may: MayQueue, batching: bool, waits: bool)
    requires nr >= 1 && Leads(nr, Init(), es, q)
    ensures var x := Of(q, sync);
      var y, got := Take(nr, x, may, batching, waits), MayHave(nr, x, may, batching);
      && y.count == x.count + (if got then 1 else 0) && y.allocating == x.allocating + (if got then 1 else 0)
      && y.sleepers == x.sleepers + (if !got && waits then 1 else 0)
      && y.outstanding == x.outstanding && y.woken == x.woken
      && (y.starved <==> !got && (x.starved || (may.No? && x.count == 0)))
  {
    RunInv(nr, Init(), es, q);
  }

  /** A notification wakes one sleeper, if there is one and room below nr_requests, and touches no request. */
  lemma WakesOne(nr: nat, x: Side)
    ensures var y, wakes := Notify(nr, x), x.sleepers > 0 && x.count < nr;
      && y.woken == x.woken + (if wakes then 1 else 0) && y.sleepers == x.sleepers - (if wakes then 1 else 0)
      && y.count == x.count && y.allocating == x.allocating && y.outstanding == x.outstanding && y.starved == x.starved
      && (y.full <==> x.full && x.count >= nr)
  {
  }

  lemma FreeingWakes(nr: nat, es: seq<Event>, q: Pool, sync: bool, freed: bool)
    requires nr >= 1 && Leads(nr, Init(), es, q) && Of(q, freed).outstanding > 0
    requires Of(q, sync).sleepers > 0 && Of(q, sync).woken == 0
    requires if freed == sync then Of(q, sync).count <= nr else Of(q, sync).starved
    ensures Of(Step(nr, q, Free(freed)), sync).woken > 0
  {
    RunInv(nr, Init(), es, q);
  }

  /** struct request_list, with the sleeping tasks */
  class RequestList {
    var async: Side
    var sync: Side

    ghost function View(): Pool
      reads this
    {
      Pool(async, sync)
    }

    method Store(s: bool, x: Side)
      modifies this
      ensures View() == With(old(View()), s, x)
    {
      if s {
        sync := x;
      } else {
        async := x;
      }
    }

    /** __freed_request */
    method NotifyFreed(nr: nat, s: bool)
      modifies this
      ensures View() == With(old(View()), s, Notify(nr, Of(old(View()), s)))
    {
      var x := if s then sync else async;
      if x.count + 1 <= nr {
        if x.sleepers > 0 {
          x := x.(sleepers := x.sleepers - 1, woken := x.woken + 1);
        }
        Store(s, x.(full := false));
      }
    }

    /** freed_request */
    method FreedRequest(nr: nat, s: bool)
      modifies this
      ensures View() == Freed(nr, old(View()), s)
    {
      var x := if s then sync else async;
      Store(s, x.(count := x.count - 1));
      NotifyFreed(nr, s);
      if (if s then async else sync).starved {
        NotifyFreed(nr, !s);
      }
    }

    /** get_request up to the allocation, and the start of the sleep in get_request_wait */
    method GetRequest(nr: nat, s: bool, may: MayQueue, batching: bool, waits: bool) returns (taken: bool)
      modifies this
      ensures View() == With(old(View()), s, Take(nr, Of(old(View()), s), may, batching, waits))
      ensures taken == (Of(View(), s).count > Of(old(View()), s).count)
    {
      var x := if s then sync else async;
      if may.No? {
        Store(s, GiveUp(x, true, waits));
        return false;
      }
      if x.count + 1 >= nr {
        if !x.full {
          x := x.(full := true);
        } else if !may.Must? && !batching {
          Store(s, GiveUp(x, false, waits));
          return false;
        }
      }
      if x.count >= 3 * nr / 2 {
        Store(s, GiveUp(x, false, waits));
        return false;
      }
      Store(s, x.(count := x.count + 1, starved := false, allocating := x.allocating + 1));
      return true;
    }
  }
}
