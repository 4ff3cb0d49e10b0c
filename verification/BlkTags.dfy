/** Tagged queueing: handing out tags, taking them back, and resizing the map. */
module BlkTags {
  import opened Lists

  /** `stamp` numbers the starts of requests, for the record. */
  datatype Rq = Rq(sync: bool, queued: bool, tag: int, stamp: nat)

  /**
    `bits` is tag_map and `index` is tag_index, both real_max_depth long.  `busy`
    is tag_busy_list, `queue` the dispatch queue and `clock` the number of starts.
   */
  datatype Tags = Tags(bits: seq<bool>, index: seq<Maybe<nat>>, maxDepth: nat,
                       rqs: map<nat, Rq>, busy: seq<nat>, queue: seq<nat>, clock: nat)

  /** The tags a request may take: the last two are kept for synchronous ones. */
  function Allowed(maxDepth: nat, sync: bool): nat {
    if sync || maxDepth <= 1 then maxDepth else if maxDepth == 2 then 1 else maxDepth - 2
  }

  /** find_first_zero_bit among the first `n` */
  function FirstClear(bits: seq<bool>, n: nat): (t: nat)
    requires n <= |bits|
    ensures t <= n && (t < n ==> !bits[t]) && forall i :: 0 <= i < t ==> bits[i]
  {
    if n == 0 then 0
    else
      var t := FirstClear(bits, n - 1);
      if t < n - 1 then t else if bits[n - 1] then n else n - 1
  }

  /** blk_queue_start_tag; `full`: too many asynchronous requests are in flight. */
  function Start(s: Tags, id: nat, full: bool): Tags
    requires id in s.rqs && s.maxDepth <= |s.bits| == |s.index|
  {
    var r := s.rqs[id];
    var n := Allowed(s.maxDepth, r.sync);
    var t := FirstClear(s.bits, n);
    if (!r.sync && s.maxDepth > 1 && full) || t >= n then s
    else Tags(s.bits[t := true], s.index[t := Some(id)], s.maxDepth,
              s.rqs[id := Rq(r.sync, true, t, s.clock)], [id] + s.busy, Without(s.queue, id), s.clock + 1)
  }

  /** blk_queue_end_tag */
  function End(s: Tags, id: nat): Tags
    requires id in s.rqs && |s.bits| == |s.index|
  {
    var t := s.rqs[id].tag;
    if t < 0 || t >= |s.bits| then s
    else s.(bits := s.bits[t := false], index := s.index[t := None], busy := Without(s.busy, id),
            rqs := s.rqs[id := s.rqs[id].(queued := false, tag := -1)])
  }

  function Cleared<T>(n: nat, x: T): seq<T> { seq(n, _ => x) }

  /** blk_queue_resize_tags; a shared map, or one that cannot be allocated, is left alone. */
  function Resize(s: Tags, depth: nat, nrRequests: nat, mayGrow: bool): Tags
    requires |s.bits| == |s.index| && (depth > |s.bits| ==> 2 * nrRequests >= |s.bits|)
  {
    var had := |s.bits|;
    var n := if depth > 2 * nrRequests then 2 * nrRequests else depth;
    if depth <= had then s.(maxDepth := depth)
    else if !mayGrow then s
    else s.(bits := s.bits + Cleared(n - had, false), index := s.index + Cleared(n - had, None), maxDepth := n)
  }

  // ----- what the operations do -----

  /** How many tags are out of reach for a request at depth `d`. */
  function KeptBack(d: nat, sync: bool): nat { if sync || d <= 1 then 0 else if d == 2 then 1 else 2 }

  ghost predicate FreeBelow(bits: seq<bool>, n: int, t: int) { 0 <= t < n && t < |bits| && !bits[t] }

  /**
    A request is started exactly when a tag is free within its reach, and an
    asynchronous one is not held up; it takes the lowest.  A synchronous request
    reaches every tag, the reserve included.
   */
  lemma StartsIff(s: Tags, id: nat, full: bool, q: Tags, reach: int)
    requires id in s.rqs && !s.rqs[id].queued && s.maxDepth <= |s.bits| == |s.index|
    requires q == Start(s, id, full) && reach == s.maxDepth - KeptBack(s.maxDepth, s.rqs[id].sync)
    ensures id in q.rqs
    ensures q.rqs[id].queued <==>
      (s.rqs[id].sync || s.maxDepth <= 1 || !full) && exists t :: FreeBelow(s.bits, reach, t)
    ensures !q.rqs[id].queued ==> q == s
    ensures q.rqs[id].queued ==> q.busy == [id] + s.busy && q.queue == Without(s.queue, id)
    ensures q.rqs[id].queued ==> FreeBelow(s.bits, reach, q.rqs[id].tag)
    ensures q.rqs[id].queued ==> forall t :: FreeBelow(s.bits, reach, t) ==> q.rqs[id].tag <= t
  {
    var t := FirstClear(s.bits, reach);
    assert reach == Allowed(s.maxDepth, s.rqs[id].sync);
    if t < reach {
      assert FreeBelow(s.bits, reach, t);
    }
    forall k | FreeBelow(s.bits, reach, k) ensures t <= k { }
  }

  /** Taking a tag back frees it, and only it. */
  lemma EndFrees(s: Tags, id: nat)
    requires id in s.rqs && |s.bits| == |s.index| && 0 <= s.rqs[id].tag < |s.bits|
    ensures var q, t := End(s, id), s.rqs[id].tag;
      && !q.bits[t] && q.index[t] == None && !q.rqs[id].queued
      && (forall k :: 0 <= k < |s.bits| && k != t ==> q.bits[k] == s.bits[k] && q.index[k] == s.index[k])
      && q.queue == s.queue && q.maxDepth == s.maxDepth
  {
  }

  /**
    A new depth within the map is taken as it is.  Beyond it the map grows, to the
    new depth but to no more than twice nr_requests, and keeps what it holds.
   */
  lemma ResizeDepth(s: Tags, depth: nat, nrRequests: nat, mayGrow: bool)
    requires |s.bits| == |s.index| && (depth > |s.bits| ==> 2 * nrRequests >= |s.bits|)
    ensures var q := Resize(s, depth, nrRequests, mayGrow);
      && (depth <= |s.bits| ==> q.maxDepth == depth && q.bits == s.bits && q.index == s.index)
      && (depth > |s.bits| && !mayGrow ==> q == s)
      && (depth > |s.bits| && mayGrow ==>
            && q.maxDepth == |q.bits| == |q.index| <= depth && q.maxDepth <= 2 * nrRequests
            && (q.maxDepth == depth || q.maxDepth == 2 * nrRequests)
            && q.bits[..|s.bits|] == s.bits && q.index[..|s.bits|] == s.index
            && forall t :: |s.bits| <= t < |q.bits| ==> !q.bits[t])
      && q.rqs == s.rqs && q.busy == s.busy && q.queue == s.queue
  {
  }

  // ----- what every operation keeps -----

  ghost predicate Slots(s: Tags) {
    && |s.bits| == |s.index| && s.maxDepth <= |s.bits|
    && forall t :: 0 <= t < |s.bits| ==> SlotOk(s.rqs, s.bits[t], s.index[t], t)
  }

  /** The slot names a request that is queued under tag t. */
  ghost predicate Names(rqs: map<nat, Rq>, entry: Maybe<nat>, t: int) {
    entry.Some? && entry.value in rqs && rqs[entry.value].queued && rqs[entry.value].tag == t
  }

  /** Bit t is set just when slot t names a request that is queued under tag t. */
  ghost predicate SlotOk(rqs: map<nat, Rq>, bit: bool, entry: Maybe<nat>, t: int) {
    && (bit <==> entry.Some?)
    && (entry.Some? ==> entry.value in rqs && rqs[entry.value].queued && rqs[entry.value].tag == t)
  }

  /** Every queued request sits in the slot of its tag. */
  ghost predicate Held(rqs: map<nat, Rq>, index: seq<Maybe<nat>>) {
    forall id :: id in rqs && rqs[id].queued ==> 0 <= rqs[id].tag < |index| && index[rqs[id].tag] == Some(id)
  }

  /** The busy list names the queued requests, the latest start first. */
  ghost predicate Latest(rqs: map<nat, Rq>, busy: seq<nat>, before: nat) {
    busy != [] ==> busy[0] in rqs && rqs[busy[0]].stamp < before && Latest(rqs, busy[1..], rqs[busy[0]].stamp)
  }

  ghost predicate Busy(s: Tags) {
    && Latest(s.rqs, s.busy, s.clock) && NoDup(s.busy)
    && forall id :: id in Elems(s.busy) <==> id in s.rqs && s.rqs[id].queued
  }

  ghost predicate Inv(s: Tags) { Slots(s) && Held(s.rqs, s.index) && Busy(s) }

  lemma {:induction false} LatestFrame(a: map<nat, Rq>, b: map<nat, Rq>, busy: seq<nat>, before: nat, before1: nat)
    requires Latest(a, busy, before) && before <= before1
    requires forall id :: id in Elems(busy) ==> id in a && id in b && a[id].stamp == b[id].stamp
    ensures Latest(b, busy, before1)
  {
    if busy != [] {
      assert busy[0] in Elems(busy);
      LatestFrame(a, b, busy[1..], a[busy[0]].stamp, a[busy[0]].stamp);
    }
  }

  lemma {:induction false} LatestWithout(rqs: map<nat, Rq>, busy: seq<nat>, id: nat, before: nat)
    requires Latest(rqs, busy, before)
    ensures Latest(rqs, Without(busy, id), before)
  {
    if busy != [] {
      var rest := Without(busy[1..], id);
      LatestWithout(rqs, busy[1..], id, rqs[busy[0]].stamp);
      assert ([busy[0]] + rest)[1..] == rest && [] + rest == rest;
      LatestWeaken(rqs, rest, rqs[busy[0]].stamp, before);
    }
  }

  lemma LatestWeaken(rqs: map<nat, Rq>, busy: seq<nat>, before: nat, before1: nat)
    requires Latest(rqs, busy, before) && before <= before1
    ensures Latest(rqs, busy, before1)
  {
  }

  lemma StartBusy(s: Tags, id: nat, r: Rq)
    requires Busy(s) && id in s.rqs && !s.rqs[id].queued && r.queued && r.stamp == s.clock
    ensures Busy(s.(rqs := s.rqs[id := r], busy := [id] + s.busy, clock := s.clock + 1))
  {
    var busy := [id] + s.busy;
    assert busy[1..] == s.busy;
    LatestFrame(s.rqs, s.rqs[id := r], s.busy, s.clock, s.clock);
  }

  lemma EndBusy(s: Tags, id: nat, r: Rq)
    requires Busy(s) && id in s.rqs && !r.queued && r.stamp == s.rqs[id].stamp
    ensures Busy(s.(rqs := s.rqs[id := r], busy := Without(s.busy, id)))
  {
    WithoutIs(s.busy, id);
    LatestWithout(s.rqs, s.busy, id, s.clock);
    LatestFrame(s.rqs, s.rqs[id := r], Without(s.busy, id), s.clock, s.clock);
  }

  lemma StartInv(s: Tags, id: nat, full: bool)
    requires Inv(s) && id in s.rqs && !s.rqs[id].queued
    ensures Inv(Start(s, id, full))
  {
    var r := s.rqs[id];
    var t := FirstClear(s.bits, Allowed(s.maxDepth, r.sync));
    StartBusy(s, id, Rq(r.sync, true, t, s.clock));
    assert t < |s.bits| ==> SlotOk(s.rqs, s.bits[t], s.index[t], t);
  }

  lemma EndInv(s: Tags, id: nat)
    requires Inv(s) && id in s.rqs && s.rqs[id].queued
    ensures Inv(End(s, id)) && !End(s, id).rqs[id].queued && End(s, id).busy == Without(s.busy, id)
  {
    EndBusy(s, id, s.rqs[id].(queued := false, tag := -1));
    forall t | 0 <= t < |s.bits| ensures var s1 := End(s, id); SlotOk(s1.rqs, s1.bits[t], s1.index[t], t) {
      assert SlotOk(s.rqs, s.bits[t], s.index[t], t);
    }
  }

  lemma ResizeInv(s: Tags, depth: nat, nrRequests: nat, mayGrow: bool)
    requires Inv(s) && (depth > |s.bits| ==> 2 * nrRequests >= |s.bits|)
    ensures Inv(Resize(s, depth, nrRequests, mayGrow))
  {
    var s1 := Resize(s, depth, nrRequests, mayGrow);
    forall t | 0 <= t < |s1.bits| ensures SlotOk(s1.rqs, s1.bits[t], s1.index[t], t) {
      assert t < |s.bits| ==> SlotOk(s.rqs, s.bits[t], s.index[t], t);
    }
  }

  // ----- blk_queue_invalidate_tags -----

  /** blk_requeue_request outside an ordered sequence: the tag is freed, the request goes to the front. */
  function Requeue(s: Tags, id: nat): Tags
    requires id in s.rqs && |s.bits| == |s.index|
  {
    var s1 := End(s, id);
    s1.(queue := [id] + s1.queue)
  }

  function Invalidate(s: Tags): Tags
    requires Inv(s)
    decreases |s.busy|
  {
    if s.busy == [] then s
    else
      RequeueHead(s);
      Invalidate(Requeue(s, s.busy[0]))
  }

  lemma RequeueHead(s: Tags)
    requires Inv(s) && s.busy != []
    ensures s.busy[0] in s.rqs && s.rqs[s.busy[0]].queued
    ensures var s1 := Requeue(s, s.busy[0]); Inv(s1) && s1.busy == s.busy[1..] && s1.queue == [s.busy[0]] + s.queue
  {
    var id := s.busy[0];
    assert id in Elems(s.busy);
    EndInv(s, id);
    WithoutAll(s.busy[1..], id);
  }

  function Reversed(s: seq<nat>): seq<nat> { if s == [] then [] else Reversed(s[1..]) + [s[0]] }

  /**
    Outside an ordered sequence, invalidation frees every tag and leaves the
    requests that held one, the first started first, ahead of the old queue.
   */
  lemma {:induction false} InvalidateIs(s: Tags)
    requires Inv(s)
    ensures var q := Invalidate(s);
      && Inv(q) && q.busy == [] && (forall id :: id in q.rqs ==> !q.rqs[id].queued)
      && (forall t :: 0 <= t < |q.bits| ==> !q.bits[t])
      && q.queue == Reversed(s.busy) + s.queue
    decreases |s.busy|
  {
    if s.busy == [] {
      forall t | 0 <= t < |s.bits| ensures !s.bits[t] {
        assert SlotOk(s.rqs, s.bits[t], s.index[t], t);
      }
    } else {
      RequeueHead(s);
      InvalidateIs(Requeue(s, s.busy[0]));
      assert Reversed(s.busy[1..]) + ([s.busy[0]] + s.queue) == Reversed(s.busy) + s.queue;
    }
  }

  lemma {:induction false} StartedBefore(rqs: map<nat, Rq>, busy: seq<nat>, before: nat, i: nat)
    requires Latest(rqs, busy, before) && i < |Reversed(busy)|
    ensures Reversed(busy)[i] in rqs && rqs[Reversed(busy)[i]].stamp < before
  {
    if i < |Reversed(busy[1..])| {
      StartedBefore(rqs, busy[1..], rqs[busy[0]].stamp, i);
    }
  }

  /** Read backwards, the busy list is in order of start. */
  lemma {:induction false} StartOrder(rqs: map<nat, Rq>, busy: seq<nat>, before: nat, i: nat, j: nat)
    requires Latest(rqs, busy, before) && i < j < |Reversed(busy)|
    ensures Reversed(busy)[i] in rqs && Reversed(busy)[j] in rqs
    ensures rqs[Reversed(busy)[i]].stamp < rqs[Reversed(busy)[j]].stamp
  {
    var stamp := rqs[busy[0]].stamp;
    if j < |Reversed(busy[1..])| {
      StartOrder(rqs, busy[1..], stamp, i, j);
    } else {
      StartedBefore(rqs, busy[1..], stamp, i);
    }
  }

  // ----- runs -----

  datatype Event =
    | NewRequest(id: nat, sync: bool)
    | StartTag(id: nat, full: bool)
    | EndTag(id: nat)
    | ResizeTags(depth: nat, nrRequests: nat, mayGrow: bool)
    | InvalidateTags

  ghost predicate Enabled(s: Tags, e: Event) {
    match e
    case NewRequest(id, _) => id !in s.rqs
    case StartTag(id, _) => id in s.rqs && !s.rqs[id].queued
    case EndTag(id) => id in s.rqs && s.rqs[id].queued
    case ResizeTags(depth, nr, _) => depth > |s.bits| ==> 2 * nr >= |s.bits|
    case InvalidateTags => true
  }

  function Step(s: Tags, e: Event): Tags
    requires Inv(s) && Enabled(s, e)
  {
    match e
    case NewRequest(id, sync) => s.(rqs := s.rqs[id := Rq(sync, false, -1, 0)], queue := s.queue + [id])
    case StartTag(id, full) => Start(s, id, full)
    case EndTag(id) => End(s, id)
    case ResizeTags(depth, nr, mayGrow) => Resize(s, depth, nr, mayGrow)
    case InvalidateTags => Invalidate(s)
  }

  lemma NewInv(s: Tags, id: nat, sync: bool)
    requires Inv(s) && id !in s.rqs
    ensures Inv(s.(rqs := s.rqs[id := Rq(sync, false, -1, 0)], queue := s.queue + [id]))
  {
    var rqs := s.rqs[id := Rq(sync, false, -1, 0)];
    LatestFrame(s.rqs, rqs, s.busy, s.clock, s.clock);
    forall t | 0 <= t < |s.bits| ensures SlotOk(rqs, s.bits[t], s.index[t], t) {
      assert SlotOk(s.rqs, s.bits[t], s.index[t], t);
    }
  }

  lemma StepInv(s: Tags, e: Event)
    requires Inv(s) && Enabled(s, e)
    ensures Inv(Step(s, e))
  {
    match e
    case NewRequest(id, sync) => NewInv(s, id, sync);
    case StartTag(id, full) => StartInv(s, id, full);
    case EndTag(id) => EndInv(s, id);
    case ResizeTags(depth, nr, mayGrow) => ResizeInv(s, depth, nr, mayGrow);
    case InvalidateTags => InvalidateIs(s);
  }

  ghost predicate Leads(s: Tags, es: seq<Event>, q: Tags)
    decreases |es|
  {
    if es == [] then s == q else Inv(s) && Enabled(s, es[0]) && Leads(Step(s, es[0]), es[1..], q)
  }

  function Fresh(depth: nat): Tags { Tags(Cleared(depth, false), Cleared(depth, None), depth, map[], [], [], 0) }

  lemma {:induction false} RunInv(s: Tags, es: seq<Event>, q: Tags)
    requires Inv(s) && Leads(s, es, q)
    ensures Inv(q)
    decreases |es|
  {
    if es != [] {
      StepInv(s, es[0]);
      RunInv(Step(s, es[0]), es[1..], q);
    }
  }

  /**
    After every run: a set bit names the one request queued under that tag, every
    queued request is named by its tag, and no tag is held twice.
   */
  lemma TagsAreExact(depth: nat, es: seq<Event>, q: Tags)
    requires Leads(Fresh(depth), es, q)
    ensures |q.bits| == |q.index|
    ensures forall t :: 0 <= t < |q.bits| ==> (q.bits[t] <==> Names(q.rqs, q.index[t], t))
    ensures forall id :: id in q.rqs && q.rqs[id].queued ==>
      0 <= q.rqs[id].tag < |q.bits| && q.index[q.rqs[id].tag] == Some(id)
    ensures forall a, b ::
      a in q.rqs && b in q.rqs && q.rqs[a].queued && q.rqs[b].queued && q.rqs[a].tag == q.rqs[b].tag ==> a == b
  {
    RunInv(Fresh(depth), es, q);
    forall t | 0 <= t < |q.bits|
      ensures q.bits[t] <==> Names(q.rqs, q.index[t], t)
    {
      assert SlotOk(q.rqs, q.bits[t], q.index[t], t);
    }
  }

  /** `ids` are the requests that hold a tag, each once, in the order in which they were started. */
  ghost predicate TaggedInOrder(s: Tags, ids: seq<nat>) {
    && (forall id :: id in ids <==> id in s.rqs && s.rqs[id].queued)
    && forall i, j :: 0 <= i < j < |ids| ==>
         ids[i] in s.rqs && ids[j] in s.rqs && s.rqs[ids[i]].stamp < s.rqs[ids[j]].stamp
  }

  lemma {:induction false} ReversedHas(s: seq<nat>, id: nat)
    ensures id in Reversed(s) <==> id in Elems(s)
  {
    if s != [] {
      ReversedHas(s[1..], id);
    }
  }

  /**
    After every run, invalidation frees every tag and leaves the requests that
    held one, in order of start, ahead of the old queue.
   */
  lemma InvalidationKeepsOrder(depth: nat, es: seq<Event>, q: Tags)
    requires Leads(Fresh(depth), es, q)
    ensures Inv(q) && TaggedInOrder(q, Reversed(q.busy))
    ensures Invalidate(q).queue == Reversed(q.busy) + q.queue
    ensures forall t :: 0 <= t < |Invalidate(q).bits| ==> !Invalidate(q).bits[t]
  {
    RunInv(Fresh(depth), es, q);
    InvalidateIs(q);
    var ids := Reversed(q.busy);
    forall id ensures id in ids <==> id in q.rqs && q.rqs[id].queued {
      ReversedHas(q.busy, id);
    }
    forall i, j | 0 <= i < j < |ids|
      ensures ids[i] in q.rqs && ids[j] in q.rqs && q.rqs[ids[i]].stamp < q.rqs[ids[j]].stamp
    {
      StartOrder(q.rqs, q.busy, q.clock, i, j);
    }
  }

  // ----- the reserve for synchronous requests -----

  /** Asynchronous requests hold only tags that they may take at this depth. */
  ghost predicate Reserved(s: Tags) {
    forall id :: id in s.rqs && s.rqs[id].queued && !s.rqs[id].sync ==> s.rqs[id].tag < Allowed(s.maxDepth, false)
  }

  /** Some tags are kept back exactly from a depth of two on: one at two, two above. */
  lemma ReserveIff(d: nat)
    ensures Allowed(d, false) < d <==> d >= 2
    ensures d == 2 ==> Allowed(d, false) == d - 1
    ensures d >= 3 <==> Allowed(d, false) == d - 2
    ensures d <= 1 ==> Allowed(d, false) == d
  {
  }

  ghost predicate NoResize(es: seq<Event>) { forall i :: 0 <= i < |es| ==> !es[i].ResizeTags? }

  lemma ReservedStep(s: Tags, e: Event)
    requires Inv(s) && Enabled(s, e) && !e.ResizeTags? && Reserved(s)
    ensures Reserved(Step(s, e)) && Step(s, e).maxDepth == s.maxDepth
  {
    if e.InvalidateTags? {
      InvalidateIs(s);
      InvalidateDepth(s);
    }
  }

  lemma {:induction false} InvalidateDepth(s: Tags)
    requires Inv(s)
    ensures Invalidate(s).maxDepth == s.maxDepth
    decreases |s.busy|
  {
    if s.busy != [] {
      RequeueHead(s);
      InvalidateDepth(Requeue(s, s.busy[0]));
    }
  }

  /** At a fixed depth, whatever it is, asynchronous requests never hold a tag of the reserve. */
  lemma {:induction false} ReserveKept(s: Tags, es: seq<Event>, q: Tags)
    requires Inv(s) && Leads(s, es, q) && NoResize(es) && Reserved(s)
    ensures Reserved(q) && q.maxDepth == s.maxDepth
    decreases |es|
  {
    if es != [] {
      StepInv(s, es[0]);
      ReservedStep(s, es[0]);
      assert NoResize(es[1..]) by {
        assert forall i :: 0 <= i < |es[1..]| ==> es[1..][i] == es[i + 1];
      }
      ReserveKept(Step(s, es[0]), es[1..], q);
    }
  }

  /** In particular, at a depth of three or more they never hold the last two tags. */
  lemma LastTwoForSync(depth: nat, es: seq<Event>, q: Tags, id: nat)
    requires Leads(Fresh(depth), es, q) && NoResize(es) && depth >= 3
    requires id in q.rqs && q.rqs[id].queued && !q.rqs[id].sync
    ensures q.rqs[id].tag < depth - 2
  {
    ReserveKept(Fresh(depth), es, q);
    ReserveIff(depth);
  }
}
