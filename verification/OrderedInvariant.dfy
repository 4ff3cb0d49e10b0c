/** What every step of the ordered-write protocol keeps, for draining and for tagged queues. */
module OrderedInvariant {
  import opened Ordered

  // ----- reading the log -----

  ghost predicate EndedIn(log: seq<Event>, x: nat) { exists e :: Ended(x, e) in log }

  /** The request is over: completed by the driver, or a barrier that was ended. */
  ghost predicate Over(log: seq<Event>, x: nat) { Finished(x) in log || EndedIn(log, x) }

  ghost predicate ProxyDone(log: seq<Event>, b: nat, p: Name) { exists e :: ProxyFinished(b, p, e) in log }

  function ErrorOf(e: Event, b: nat): int {
    match e
    case ProxyFinished(x, _, err) => if x == b then err else 0
    case BarError(x, err) => if x == b then err else 0
    case _ => 0
  }

  /** The first error reported for barrier `b`, 0 if none. */
  function FirstError(log: seq<Event>, b: nat): int {
    if log == [] then 0
    else
      var f := FirstError(log[..|log| - 1], b);
      if f != 0 then f else ErrorOf(log[|log| - 1], b)
  }

  // ----- where requests are -----

  ghost function NamesOf(d: seq<Request>): set<Name> { set r | r in d :: r.name }

  ghost function OrigNames(orig: Option<Request>): set<Name> {
    if orig.Some? then {orig.value.name} else {}
  }

  ghost function LiveNames(q: Queue): set<Name> {
    NamesOf(q.dispatch) + q.held.Keys + q.driver.Keys + OrigNames(q.orig)
  }

  ghost predicate Distinct(d: seq<Request>) {
    forall i, j :: 0 <= i < j < |d| ==> d[i].name != d[j].name
  }

  ghost predicate Keyed(m: map<Name, Request>) { forall n :: n in m ==> m[n].name == n }

  /** Every request is in one place, once. */
  ghost predicate Places(d: seq<Request>, held: map<Name, Request>, driver: map<Name, Request>, orig: set<Name>) {
    var holds :=
      && Distinct(d)
      && Keyed(held)
      && Keyed(driver)
      && NamesOf(d) !! held.Keys !! driver.Keys !! orig;
    holds
  }

  // ----- requests agree with what was submitted -----

  ghost predicate Odd(n: nat) { n % 2 == 1 }

  ghost predicate WellFormed(book: seq<Entry>, r: Request) {
    var holds :=
      match r.name
      case User(id) =>
        && id < |book|
        && r.fs == IsFs(book[id].kind)
        && r.hard == book[id].kind.Barrier?
        && r.empty == (book[id].kind.Barrier? && book[id].kind.empty)
        && r.color == Odd(book[id].epoch)
      case BarRq => r.fs && r.hard
      case _ => !r.fs && r.hard;
    holds
  }

  ghost function EpochOf(book: seq<Entry>, r: Request): int {
    if r.name.User? && r.name.id < |book| then book[r.name.id].epoch else 0
  }

  ghost predicate UserBarrier(r: Request) { r.name.User? && r.Barrier() }
  ghost predicate UserFs(r: Request) { r.name.User? && r.fs }

  ghost function Weight(k: Kind): nat { if k.Barrier? then 1 else 0 }

  /** Epochs count the barriers submitted before; the colour is their parity. */
  ghost predicate Epochs(book: seq<Entry>, epoch: nat, color: bool) {
    var holds :=
      && (forall x :: 0 <= x < |book| ==> book[x].epoch + Weight(book[x].kind) <= epoch)
      && (forall x, y :: 0 <= x < y < |book| ==> book[x].epoch + Weight(book[x].kind) <= book[y].epoch)
      && color == Odd(epoch);
    holds
  }

  ghost predicate DispatchKind(book: seq<Entry>, r: Request) {
    var holds :=
      WellFormed(book, r) && (UserBarrier(r) ==> !r.started);
    holds
  }

  ghost predicate HeldKind(book: seq<Entry>, r: Request) {
    var holds :=
      WellFormed(book, r) && UserFs(r) && !r.Fenced();
    holds
  }

  ghost predicate DriverKind(book: seq<Entry>, r: Request) {
    var holds :=
      WellFormed(book, r) && r.started && !UserBarrier(r);
    holds
  }

  ghost predicate DispatchKinds(book: seq<Entry>, d: seq<Request>) {
    forall r :: r in d ==> DispatchKind(book, r)
  }

  ghost predicate HeldKinds(book: seq<Entry>, held: map<Name, Request>) {
    forall n :: n in held ==> HeldKind(book, held[n])
  }

  ghost predicate DriverKinds(book: seq<Entry>, driver: map<Name, Request>) {
    forall n :: n in driver ==> DriverKind(book, driver[n])
  }

  ghost predicate OrigKind(book: seq<Entry>, orig: Option<Request>) {
    orig.Some? ==> WellFormed(book, orig.value) && UserBarrier(orig.value)
  }

  ghost predicate Kinds(q: Queue) {
    var holds :=
      && Epochs(q.book, q.epoch, q.ordcolor)
      && DispatchKinds(q.book, q.dispatch)
      && HeldKinds(q.book, q.held)
      && DriverKinds(q.book, q.driver)
      && OrigKind(q.book, q.orig);
    holds
  }

  // ----- the sequence in progress -----

  ghost predicate Pending(o: Ordseq, n: Name) {
    o.started && match n
                 case PreFlushRq => !o.pre
                 case BarRq => !o.bar
                 case PostFlushRq => !o.post
                 case User(_) => false
  }

  /** A proxy exists exactly while its stage is pending. */
  ghost predicate ProxiesPending(present: set<Name>, o: Ordseq) {
    forall n: Name :: !n.User? ==> (n in present <==> Pending(o, n))
  }

  ghost predicate Configuration(next: Method, m: Method, o: Ordseq, orig: Option<Request>) {
    var holds :=
      && Supported(next)
      && (o.started <==> orig.Some?)
      && (!o.started ==> o == Idle)
      && (o.started ==>
            && next != Unordered
            && m == SequenceMethod(next, orig.value.empty)
            && (!m.pre ==> o.pre) && (!m.bar ==> o.bar) && (!m.post ==> o.post));
    holds
  }

  ghost function FsNames(driver: map<Name, Request>): set<Name> {
    set n | n in driver && driver[n].fs
  }

  // ----- barriers still to come -----

  ghost function Lowest(orig: Option<Request>, ended: nat): nat { if orig.Some? then ended + 1 else ended }

  ghost predicate HasBarrier(book: seq<Entry>, d: seq<Request>, e: int) {
    exists i :: 0 <= i < |d| && UserBarrier(d[i]) && EpochOf(book, d[i]) == e
  }

  /** The queued barriers are those of the epochs not yet ended, one each, in order. */
  ghost predicate BarrierLine(book: seq<Entry>, d: seq<Request>, lo: nat, hi: nat) {
    var holds :=
      && lo <= hi
      && (forall i :: 0 <= i < |d| && UserBarrier(d[i]) ==> lo <= EpochOf(book, d[i]) < hi)
      && (forall i, j :: 0 <= i < j < |d| && UserBarrier(d[i]) && UserBarrier(d[j]) ==>
            EpochOf(book, d[i]) < EpochOf(book, d[j]))
      && (forall e :: lo <= e < hi ==> HasBarrier(book, d, e));
    holds
  }

  ghost predicate OrigEpoch(book: seq<Entry>, orig: Option<Request>, ended: nat) {
    orig.Some? ==> EpochOf(book, orig.value) == ended
  }

  // ----- the log agrees with the state -----

  ghost predicate Submissions(book: seq<Entry>, log: seq<Event>) {
    forall x: nat, k :: Submitted(x, k) in log <==> x < |book| && book[x].kind == k
  }

  /** A submitted request is either still somewhere or over, never both. */
  ghost predicate Tracked(live: set<Name>, book: seq<Entry>, log: seq<Event>) {
    var holds :=
      && (forall x: nat :: x < |book| ==> (User(x) in live <==> !Over(log, x)))
      && (forall x: nat :: x >= |book| ==> !Over(log, x));
    holds
  }

  ghost predicate Errors(book: seq<Entry>, d: seq<Request>, log: seq<Event>) {
    var holds :=
      && (forall r :: r in d && UserBarrier(r) ==> FirstError(log, r.name.id) == 0)
      && (forall x: nat :: x >= |book| ==> FirstError(log, x) == 0);
    holds
  }

  ghost predicate Configured(m: Method, n: Name) {
    match n case PreFlushRq => m.pre case BarRq => m.bar case PostFlushRq => m.post case User(_) => false
  }

  ghost predicate Progress(m: Method, o: Ordseq, orderr: int, b: nat, log: seq<Event>) {
    var holds :=
      o.started ==>
        && orderr == FirstError(log, b)
        && forall n: Name :: Configured(m, n) && !Pending(o, n) ==> ProxyDone(log, b, n);
    holds
  }

  ghost predicate Records(q: Queue) {
    var holds :=
      && Submissions(q.book, q.log)
      && Tracked(LiveNames(q), q.book, q.log)
      && Errors(q.book, q.dispatch, q.log)
      && Progress(q.ordered, q.ordseq, q.orderr, OrigId(q), q.log);
    holds
  }

  /** Also describes the instant when the last stage of a sequence has just completed. */
  ghost predicate InvOpen(q: Queue) {
    var holds :=
      && Places(q.dispatch, q.held, q.driver, OrigNames(q.orig))
      && Kinds(q)
      && ProxiesPending(NamesOf(q.dispatch) + q.driver.Keys, q.ordseq)
      && Configuration(q.next, q.ordered, q.ordseq, q.orig)
      && q.inFlight == |FsNames(q.driver)|
      && BarrierLine(q.book, q.dispatch, Lowest(q.orig, q.ended), q.epoch)
      && OrigEpoch(q.book, q.orig, q.ended)
      && Records(q);
    holds
  }

  ghost predicate Inv(q: Queue) { InvOpen(q) && CurSeq(q.ordseq) != DONE }
}
