/**
  The block layer's ordered-write protocol, as a transition system.

  A barrier write is taken off the dispatch queue and replaced by up to three
  proxy requests embedded in the queue: pre-flush, bar and post-flush.  A bit
  set, a one-bit colour and an in-flight count decide which request may be
  handed to the driver.  Each operation is one function on a `Queue` value; the
  class `RequestQueue` performs the same operations in place.

  Three components are history: `book` (what was submitted, in submission
  order), `epoch` and `ended` (barriers submitted and ended so far), and `log`
  (what an outside observer saw).  No operation reads them to decide anything.
 */
module Ordered {

  datatype Option<+T> = None | Some(value: T)

  // ----- requests -----

  /** `User(i)` is the i-th request ever submitted; the others are the three
      requests embedded in the queue. */
  datatype Name = User(id: nat) | PreFlushRq | BarRq | PostFlushRq

  /** `fs`: REQ_TYPE_FS; `hard`, `soft`: REQ_HARDBARRIER, REQ_SOFTBARRIER;
      `started`: REQ_STARTED; `color`: REQ_ORDERED_COLOR; `empty`: no sectors. */
  datatype Request = Request(name: Name, fs: bool, hard: bool, soft: bool,
                             started: bool, color: bool, empty: bool)
  {
    predicate Barrier() { fs && hard }
    predicate Fenced() { hard || soft || started }
    predicate Accounted() { started && fs }
    /** Not subject to ordering: everything but fs requests and the flushes. */
    predicate Free() { !fs && name != PreFlushRq && name != PostFlushRq }
  }

  const PreFlushProxy := Request(PreFlushRq, false, true, true, false, false, false)
  const BarProxy := Request(BarRq, true, true, true, false, false, false)
  const PostFlushProxy := Request(PostFlushRq, false, true, true, false, false, false)

  // ----- QUEUE_ORDERED_* and QUEUE_ORDSEQ_* -----

  /** The QUEUE_ORDERED_* flags; FUA only decorates the bar request. */
  datatype Method = Method(byDrain: bool, byTag: bool, pre: bool, bar: bool, post: bool)

  const Unordered := Method(false, false, false, false, false)

  /** The values blk_queue_ordered accepts. */
  predicate Supported(m: Method) {
    m == Unordered ||
    (m.bar && m.byDrain != m.byTag && (m.post ==> m.pre))
  }

  /** The method start_ordered settles on for one sequence. */
  function SequenceMethod(next: Method, empty: bool): Method {
    if !empty then next
    else
      var m := next.(bar := false, post := false);
      if m.byTag && !m.pre then m.(byTag := false, byDrain := true) else m
  }

  const DRAIN: int := 2
  const PREFLUSH: int := 4
  const BAR: int := 8
  const POSTFLUSH: int := 16
  const DONE: int := 32

  /** The bits of q->ordseq below DONE. */
  datatype Ordseq = Ordseq(started: bool, drain: bool, pre: bool, bar: bool, post: bool)

  const Idle := Ordseq(false, false, false, false, false)

  function Or(a: Ordseq, b: Ordseq): Ordseq {
    Ordseq(a.started || b.started, a.drain || b.drain, a.pre || b.pre, a.bar || b.bar, a.post || b.post)
  }

  predicate Overlap(a: Ordseq, b: Ordseq) {
    (a.started && b.started) || (a.drain && b.drain) || (a.pre && b.pre) || (a.bar && b.bar) || (a.post && b.post)
  }

  function CurSeq(o: Ordseq): int {
    if o == Idle then 0
    else if !o.started then 1
    else if !o.drain then DRAIN
    else if !o.pre then PREFLUSH
    else if !o.bar then BAR
    else if !o.post then POSTFLUSH
    else DONE
  }

  // ----- observable events -----

  datatype Kind = Special | Plain | Barrier(empty: bool)

  datatype Event =
    | Submitted(id: nat, kind: Kind)
    | Issued(id: nat)                                   // handed to the driver
    | Finished(id: nat)                                 // completed by the driver
    | ProxyIssued(barrier: nat, proxy: Name)
    | ProxyFinished(barrier: nat, proxy: Name, error: int)
    | BarError(barrier: nat, error: int)                // error on a part of bar
    | Ended(barrier: nat, error: int)                   // the original barrier request
    | Bug                                               // a BUG_ON fired
    | Warn                                              // the WARN_ON fired

  const EOPNOTSUPP: int := -95

  // ----- the queue -----

  datatype Entry = Entry(kind: Kind, epoch: nat)

  datatype Queue = Queue(
    next: Method, ordered: Method, ordseq: Ordseq, orderr: int, orig: Option<Request>, ordcolor: bool,
    dispatch: seq<Request>, held: map<Name, Request>, driver: map<Name, Request>, inFlight: int,
    book: seq<Entry>, epoch: nat, ended: nat, log: seq<Event>)

  function Init(m: Method): Queue {
    Queue(m, m, Idle, 0, None, false, [], map[], map[], 0, [], 0, 0, [])
  }

  function InsertAt<T>(s: seq<T>, p: nat, x: T): seq<T>
    requires p <= |s|
  {
    s[..p] + [x] + s[p..]
  }

  function Emit(q: Queue, e: Event): Queue { q.(log := q.log + [e]) }

  function OrigId(q: Queue): nat {
    if q.orig.Some? && q.orig.value.name.User? then q.orig.value.name.id else 0
  }

  function ReqSeq(q: Queue, r: Request): int {
    match r.name
    case PreFlushRq => PREFLUSH
    case BarRq => BAR
    case PostFlushRq => POSTFLUSH
    case User(_) =>
      if !r.fs then DRAIN
      else if q.orig.Some? && q.orig.value.color == r.color then DRAIN
      else DONE
  }

  // ----- completion of stages -----

  /** Once every stage is complete the sequence is over and the original request ends. */
  function Settle(q: Queue): Queue {
    if CurSeq(q.ordseq) != DONE then q
    else Emit(q.(ordseq := Idle, orig := None, ended := q.ended + 1), Ended(OrigId(q), q.orderr))
  }

  /** blk_ordered_complete_seq */
  function CompleteSeq(q: Queue, stages: Ordseq, error: int): Queue {
    var q1 := if Overlap(q.ordseq, stages) then Emit(q, Bug) else q;
    Settle(q1.(orderr := if error != 0 && q.orderr == 0 then error else q.orderr,
               ordseq := Or(q.ordseq, stages)))
  }

  const DrainBit := Ordseq(false, true, false, false, false)

  function StageBit(proxy: Name): Ordseq {
    Ordseq(false, false, proxy == PreFlushRq, proxy == BarRq, proxy == PostFlushRq)
  }

  predicate DrainComplete(q: Queue) {
    q.ordseq != Idle && q.inFlight == 0 && CurSeq(q.ordseq) == DRAIN &&
    (q.dispatch == [] || ReqSeq(q, q.dispatch[0]) > DRAIN)
  }

  /** elv_completed_request */
  function CompletedRequest(q: Queue, r: Request): Queue {
    var q1 := if r.Accounted() then q.(inFlight := q.inFlight - 1) else q;
    if DrainComplete(q1) then CompleteSeq(q1, DrainBit, 0) else q1
  }

  // ----- the steps -----

  datatype Step =
    | AddSort                                 // fs request handed to the scheduler
    | AddBack(kind: Kind)                     // barrier, soft barrier, or special at the back
    | AddFront                                // special request at the front
    | Dispatch(name: Name, pos: nat)          // the scheduler feeds the dispatch queue
    | StartOrdered                            // a barrier reached the head
    | Peek                                    // the driver looks at the head
    | Fetch                                   // the driver takes the head
    | Requeue(name: Name)
    | PartialBar(error: int)
    | Complete(name: Name, error: int)

  predicate IsFs(k: Kind) { !k.Special? }

  function NewRequest(q: Queue, k: Kind, soft: bool): Request {
    Request(User(|q.book|), IsFs(k), k.Barrier?, soft, false, q.ordcolor, k.Barrier? && k.empty)
  }

  /** __elv_add_request up to the choice of place: colour, then toggle. */
  function Submit(q: Queue, k: Kind): Queue {
    Emit(q.(book := q.book + [Entry(k, q.epoch)],
            epoch := if k.Barrier? then q.epoch + 1 else q.epoch,
            ordcolor := if k.Barrier? then !q.ordcolor else q.ordcolor),
         Submitted(|q.book|, k))
  }

  /** ELEVATOR_INSERT_SORT */
  function SortRequest(q: Queue): Queue {
    var r := NewRequest(q, Plain, false);
    Submit(q, Plain).(held := q.held[r.name := r])
  }

  /** ELEVATOR_INSERT_BACK, once the scheduler has been drained */
  function BackRequest(q: Queue, k: Kind): Queue {
    Submit(q, k).(dispatch := q.dispatch + [NewRequest(q, k, true)])
  }

  /** ELEVATOR_INSERT_FRONT */
  function FrontRequest(q: Queue): Queue {
    Submit(q, Special).(dispatch := [NewRequest(q, Special, true)] + q.dispatch)
  }

  /** The scheduler moves a request it holds to place `p` of the dispatch queue. */
  function DispatchRequest(q: Queue, n: Name, p: nat): Queue
    requires n in q.held && p <= |q.dispatch|
  {
    q.(held := q.held - {n}, dispatch := InsertAt(q.dispatch, p, q.held[n]))
  }

  function Proxies(m: Method): seq<Request> {
    (if m.pre then [PreFlushProxy] else []) +
    (if m.bar then [BarProxy] else []) +
    (if m.post then [PostFlushProxy] else [])
  }

  function Skipped(m: Method, inFlight: int): Ordseq {
    Ordseq(false, !(m.byDrain && inFlight != 0), !m.pre, !m.bar, !m.post)
  }

  /** start_ordered before it completes the skipped stages */
  function Stashed(q: Queue): Queue
    requires q.dispatch != []
  {
    var r := q.dispatch[0];
    var m := SequenceMethod(q.next, r.empty);
    q.(orderr := 0, ordered := m, ordseq := q.ordseq.(started := true), orig := Some(r),
       dispatch := Proxies(m) + q.dispatch[1..],
       inFlight := if r.Accounted() then q.inFlight + 1 else q.inFlight)
  }

  function StartSequence(q: Queue): Queue
    requires q.dispatch != []
  {
    var q1 := Stashed(q);
    CompleteSeq(q1, Skipped(q1.ordered, q1.inFlight), 0)
  }

  /** A barrier on a queue without ordering support is ended with an error. */
  function Reject(q: Queue): Queue
    requires q.dispatch != []
  {
    var r := q.dispatch[0];
    Emit(q.(dispatch := q.dispatch[1..], ended := q.ended + 1),
         Ended(if r.name.User? then r.name.id else 0, EOPNOTSUPP))
  }

  /** Whether blk_do_ordered lets the head request `r` through. */
  predicate Passes(q: Queue, r: Request) {
    if q.ordseq == Idle then !r.Barrier()
    else if r.Free() then true
    else if q.ordered.byTag then !(r.Barrier() && r.name != BarRq)
    else ReqSeq(q, r) <= CurSeq(q.ordseq)
  }

  /** A sequence is running, and it holds back the head or waits for the driver to drain. */
  predicate Withheld(q: Queue) {
    && q.ordseq != Idle
    && ((q.dispatch != [] && !Passes(q, q.dispatch[0])) || (CurSeq(q.ordseq) == DRAIN && q.inFlight != 0))
  }

  /** No request waits to be served. */
  predicate Exhausted(q: Queue) { q.dispatch == [] && q.held == map[] }

  predicate Warns(q: Queue, r: Request) {
    q.ordseq != Idle && !r.Free() && !q.ordered.byTag && ReqSeq(q, r) < CurSeq(q.ordseq)
  }

  function IssueEvent(q: Queue, r: Request): Event {
    if r.name.User? then Issued(r.name.id) else ProxyIssued(OrigId(q), r.name)
  }

  /** blk_peek_request once a request got through: mark it started. */
  function PeekHead(q: Queue): Queue
    requires q.dispatch != []
  {
    var r := q.dispatch[0];
    var q1 := if Warns(q, r) then Emit(q, Warn) else q;
    Emit(q1.(dispatch := q.dispatch[0 := r.(started := true)]), IssueEvent(q, r))
  }

  /** blk_start_request on the head: off the queue, into the driver. */
  function StartHead(q: Queue): Queue
    requires q.dispatch != []
  {
    var r := q.dispatch[0];
    q.(dispatch := q.dispatch[1..], driver := q.driver[r.name := r],
       inFlight := if r.Accounted() then q.inFlight + 1 else q.inFlight)
  }

  /** First place in the dispatch queue, from `i` on, whose sequence number is not below `o`. */
  function RequeueFrom(q: Queue, o: int, i: nat): (p: nat)
    requires i <= |q.dispatch|
    ensures i <= p <= |q.dispatch|
    ensures forall j :: i <= j < p ==> ReqSeq(q, q.dispatch[j]) < o
    ensures p < |q.dispatch| ==> o <= ReqSeq(q, q.dispatch[p])
    decreases |q.dispatch| - i
  {
    if i == |q.dispatch| || o <= ReqSeq(q, q.dispatch[i]) then i else RequeueFrom(q, o, i + 1)
  }

  function RequeuePos(q: Queue, r: Request): (p: nat)
    ensures p <= |q.dispatch|
  {
    if q.ordseq == Idle then 0 else RequeueFrom(q, ReqSeq(q, r), 0)
  }

  /** elv_requeue_request */
  function RequeueRequest(q: Queue, n: Name): Queue
    requires n in q.driver
  {
    var r := q.driver[n];
    var r1 := r.(started := false, soft := true);
    q.(driver := q.driver - {n}, inFlight := if r.Accounted() then q.inFlight - 1 else q.inFlight,
       dispatch := InsertAt(q.dispatch, RequeuePos(q, r), r1))
  }

  /** Final completion of a request the driver holds. */
  function CompleteRequest(q: Queue, n: Name, error: int): Queue
    requires n in q.driver
  {
    var r := q.driver[n];
    var q1 := q.(driver := q.driver - {n});
    if n.User? then CompletedRequest(Emit(q1, Finished(n.id)), r)
    else
      CompleteSeq(CompletedRequest(Emit(q1, ProxyFinished(OrigId(q), n, error)), r), StageBit(n), error)
  }

  /** req_bio_endio on a part of the bar request */
  function RecordError(q: Queue, error: int): Queue {
    Emit(q.(orderr := if q.orderr == 0 then error else q.orderr), BarError(OrigId(q), error))
  }

  predicate Enabled(q: Queue, step: Step) {
    match step
    case AddSort => true
    case AddBack(_) => q.held == map[]
    case AddFront => true
    case Dispatch(n, p) =>
      n in q.held && p <= |q.dispatch| && forall i :: p <= i < |q.dispatch| ==> !q.dispatch[i].Fenced()
    case StartOrdered => q.dispatch != [] && q.ordseq == Idle && q.dispatch[0].Barrier()
    case Peek => q.dispatch != [] && Passes(q, q.dispatch[0])
    case Fetch => q.dispatch != [] && Passes(q, q.dispatch[0])
    case Requeue(n) => n in q.driver
    case PartialBar(e) => BarRq in q.driver && e != 0
    case Complete(n, _) => n in q.driver
  }

  function Apply(q: Queue, step: Step): Queue
    requires Enabled(q, step)
  {
    match step
    case AddSort => SortRequest(q)
    case AddBack(k) => BackRequest(q, k)
    case AddFront => FrontRequest(q)
    case Dispatch(n, p) => DispatchRequest(q, n, p)
    case StartOrdered =>
      if q.next != Unordered then StartSequence(q) else Reject(q)
    case Peek => PeekHead(q)
    case Fetch => StartHead(PeekHead(q))
    case Requeue(n) => RequeueRequest(q, n)
    case PartialBar(e) => RecordError(q, e)
    case Complete(n, e) => CompleteRequest(q, n, e)
  }

  // ----- runs -----

  predicate Feasible(q: Queue, steps: seq<Step>)
    decreases |steps|
  {
    steps == [] || (Enabled(q, steps[0]) && Feasible(Apply(q, steps[0]), steps[1..]))
  }

  function Run(q: Queue, steps: seq<Step>): Queue
    requires Feasible(q, steps)
    decreases |steps|
  {
    if steps == [] then q else Run(Apply(q, steps[0]), steps[1..])
  }
}
