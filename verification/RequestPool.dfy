/**
  All requests of a queue: bios arrive and are merged or get requests of their
  own, the scheduler hands requests over, and the driver completes them piece by
  piece.
 */
module RequestPool {
  import opened Segments
  import opened RequestChain
  import opened RequestCounts
  import opened RequestCompletion
  import opened Lists
  import opened MergeHash
  import opened RequestRanges

  /** `rqs` wait in the scheduler, `out` are dispatched; `last` is q->last_merge. */
  datatype Pool = Pool(rqs: map<nat, Rq>, out: map<nat, Rq>, hash: Table, last: Maybe<nat>)

  /**
    Submit: a bio arrives.  `front` is the scheduler's front merge candidate and
    `neighbour` what elv_latter_request or elv_former_request returns.  Requests
    in `allowed` agree with the bio, and with each other, in direction, disk and
    the other attributes that the merge tests compare.  `id` names the request
    the bio gets if it is not merged.
   */
  datatype Event =
    | Submit(bio: Bio, id: nat, kind: Kind, barrier: bool, front: Maybe<nat>, neighbour: Maybe<nat>, allowed: set<nat>)
    | Dispatch(id: nat)
    | Finish(id: nat, bytes: nat)

  /** Every waiting request has data, and the table is in order. */
  ghost predicate Ready(p: Pool) { HashOk(p.rqs, p.hash) && forall id :: id in p.rqs ==> p.rqs[id].bios != [] }

  // ----- elv_merge -----

  datatype Choice = NoMerge | Back(id: nat) | Front(id: nat)

  /** elv_rq_merge_ok */
  predicate MergeOk(rqs: map<nat, Rq>, allowed: set<nat>, id: nat) {
    id in rqs && Mergeable(rqs[id]) && !rqs[id].special && id in allowed
  }

  /** elv_try_merge */
  function TryMerge(rqs: map<nat, Rq>, allowed: set<nat>, id: nat, b: Bio): Choice {
    if !MergeOk(rqs, allowed, id) then NoMerge
    else if End(rqs[id]) == b.sector then Back(id)
    else if rqs[id].sector - b.size / 512 == b.sector then Front(id)
    else NoMerge
  }

  /** elv_merge: the table afterwards, and what to merge with. */
  function Choose(p: Pool, e: Event): (Table, Choice)
    requires e.Submit? && HashOk(p.rqs, p.hash)
  {
    var cached := if p.last.Some? then TryMerge(p.rqs, e.allowed, p.last.value, e.bio) else NoMerge;
    if cached != NoMerge then (p.hash, cached)
    else
      var (hash, found) := Find(p.rqs, p.hash, e.bio.sector);
      if found.Some? && MergeOk(p.rqs, e.allowed, found.value) then (hash, Back(found.value))
      else if e.front.Some? && MergeOk(p.rqs, e.allowed, e.front.value) then (hash, Front(e.front.value))
      else (hash, NoMerge)
  }

  // ----- __make_request -----

  function Forget(last: Maybe<nat>, id: nat): Maybe<nat> { if last == Some(id) then None else last }

  /** init_request_from_bio and elv_insert in the scheduler */
  function Insert(l: Limits, p: Pool, e: Event, b: Bio): Pool
    requires e.Submit? && |p.hash| == ELV_HASH_ENTRIES
  {
    var r := NewRequest(l, e.kind, b, e.barrier, false);
    if Mergeable(r)
    then p.(rqs := p.rqs[e.id := r], hash := Add(p.hash, e.id, End(r)),
            last := if p.last.None? then Some(e.id) else p.last)
    else p.(rqs := p.rqs[e.id := r])
  }

  /** The tests of attempt_merge before ll_merge_requests_fn */
  predicate MayAttempt(rqs: map<nat, Rq>, allowed: set<nat>, i: nat, j: nat) {
    && i in rqs && j in rqs && i != j && Mergeable(rqs[i]) && Mergeable(rqs[j])
    && End(rqs[i]) == rqs[j].sector && !rqs[j].special && i in allowed && j in allowed
    && rqs[i].bios != [] && rqs[j].bios != []
  }

  /** elv_merge_requests: request `j` went into `r`, which replaces request `i`. */
  function Absorb(p: Pool, i: nat, j: nat, r: Rq): Pool
    requires |p.hash| == ELV_HASH_ENTRIES
  {
    p.(rqs := p.rqs[i := r] - {j}, hash := Del(Add(Del(p.hash, i), i, End(r)), j), last := Some(i))
  }

  function Rehash(p: Pool, i: nat, r: Rq): Pool
    requires |p.hash| == ELV_HASH_ENTRIES
  {
    p.(rqs := p.rqs[i := r], hash := Add(Del(p.hash, i), i, End(r)), last := Some(i))
  }

  /** After a back merge left `r` in place of request `i`: attempt_back_merge, or elv_merged_request. */
  function AfterBack(l: Limits, p: Pool, e: Event, i: nat, r: Rq): Pool
    requires e.Submit? && |p.hash| == ELV_HASH_ENTRIES
  {
    var rqs := p.rqs[i := r];
    if e.neighbour.Some? && MayAttempt(rqs, e.allowed, i, e.neighbour.value) then
      var j := e.neighbour.value;
      var m := MergeRequests(l, r, rqs[j]);
      if m.ok then Absorb(p, i, j, m.rq) else Rehash(p, i, m.rq).(rqs := p.rqs[i := m.rq][j := m.next])
    else Rehash(p, i, r)
  }

  /** After a front merge left `r` in place of request `i`: attempt_front_merge, or elv_merged_request. */
  function AfterFront(l: Limits, p: Pool, e: Event, i: nat, r: Rq): Pool
    requires e.Submit? && |p.hash| == ELV_HASH_ENTRIES
  {
    var p1 := p.(rqs := p.rqs[i := r]);
    if e.neighbour.Some? && MayAttempt(p1.rqs, e.allowed, e.neighbour.value, i) then
      var j := e.neighbour.value;
      var m := MergeRequests(l, p1.rqs[j], r);
      if m.ok then Absorb(p1, j, i, m.rq) else p1.(rqs := p1.rqs[j := m.rq][i := m.next], last := Some(i))
    else p1.(last := Some(i))
  }

  function Refuse(p: Pool, i: nat, r: Rq): Pool { p.(rqs := p.rqs[i := r], last := Forget(p.last, i)) }

  /** __make_request on a bio with data */
  function MakeRequest(l: Limits, p: Pool, e: Event): Pool
    requires e.Submit? && Ready(p)
  {
    if e.barrier || p.rqs == map[] then Insert(l, p, e, e.bio)
    else
      var (hash, choice) := Choose(p, e);
      var p1 := p.(hash := hash);
      match choice
      case NoMerge => Insert(l, p1, e, e.bio)
      case Back(i) =>
        if i !in p.rqs then p1
        else
          var m := BackMerge(l, p.rqs[i], e.bio);
          if m.ok then AfterBack(l, p1, e, i, m.rq) else Insert(l, Refuse(p1, i, m.rq), e, m.bio)
      case Front(i) =>
        if i !in p.rqs then p1
        else
          var m := FrontMerge(l, p.rqs[i], e.bio);
          if m.ok then AfterFront(l, p1, e, i, m.rq) else Insert(l, Refuse(p1, i, m.rq), e, m.bio)
  }

  // ----- runs -----

  ghost predicate Enabled(l: Limits, p: Pool, e: Event) {
    match e
    case Submit(b, id, kind, _, front, _, _) =>
      && Submittable(l, b) && Whole(b) && id !in p.rqs && id !in p.out && (kind.Fs? || kind.Discard?)
      && (front.Some? && front.value in p.rqs ==> p.rqs[front.value].sector == b.sector + b.size / 512)
    case Dispatch(id) => id in p.rqs
    case Finish(id, _) => id in p.out
  }

  function Step(l: Limits, p: Pool, e: Event): Pool
    requires Ready(p)
  {
    match e
    case Submit(_, _, _, _, _, _, _) => MakeRequest(l, p, e)
    case Dispatch(id) =>
      if id !in p.rqs then p
      else Pool(p.rqs - {id}, p.out[id := p.rqs[id]], Del(p.hash, id), Forget(p.last, id))
    case Finish(id, n) =>
      if id !in p.out then p
      else
        var r := Update(l, p.out[id], n);
        p.(out := if r.bios == [] then p.out - {id} else p.out[id := r])
  }

  // ----- one request -----

  /** A waiting request: counted as promised, and covering its range. */
  ghost predicate Entry(good: Promise, r: Rq) { r.bios != [] && good(r.bios, r.nr) && Ranged(r) }

  /** A dispatched one, which may be partly done. */
  ghost predicate Open(good: Promise, r: Rq) { r.bios != [] && good(r.bios, r.nr) && WellFormedRq(r) }

  ghost predicate Incoming(ok: Bio -> bool, b: Bio) { ok(b) && Whole(b) }

  lemma EntryNew(l: Limits, good: Promise, ok: Bio -> bool, kind: Kind, b: Bio, nomerge: bool)
    requires Kept(l, good, ok) && Incoming(ok, b)
    ensures Entry(good, NewRequest(l, kind, b, nomerge, false))
  {
    var b1 := Settled(l, b);
    SettledOne(l, good, ok, b);
    SettledRaises(l, b);
    SameWhole(b, b1);
    AloneRanged(b1);
    RangedView(Alone(b1), NewRequest(l, kind, b, nomerge, false));
  }

  /** A grown or refused request may merge only if it could before. */
  ghost predicate NoMoreMergeable(r: Rq, r1: Rq) { r1.kind == r.kind && (Mergeable(r1) ==> Mergeable(r)) }

  lemma EntryBack(l: Limits, good: Promise, ok: Bio -> bool, r: Rq, b: Bio)
    requires Kept(l, good, ok) && Entry(good, r) && Incoming(ok, b) && b.sector == End(r)
    ensures var m := BackMerge(l, r, b);
      && Entry(good, m.rq) && Incoming(ok, m.bio) && NoMoreMergeable(r, m.rq)
      && End(m.rq) == if m.ok then End(r) + b.size / 512 else End(r)
  {
    var tail, b1 := Settled(l, r.bios[|r.bios| - 1]), Settled(l, b);
    BackMergeKeeps(l, good, ok, r, b);
    SettledRaises(l, b);
    SettledRaises(l, r.bios[|r.bios| - 1]);
    SameWhole(b, b1);
    BackMergeRanged(l, r, b, tail, b1);
    BackMergeShape(l, r, b, tail, b1);
  }

  lemma BackMergeShape(l: Limits, r: Rq, b: Bio, tail: Bio, b1: Bio)
    requires r.bios != []
    ensures var m := BackMergeSettled(l, r, b, tail, b1);
      m.rq.bios != [] && NoMoreMergeable(r, m.rq) && (m.bio == b || m.bio == b1)
  {
  }

  lemma EntryFront(l: Limits, good: Promise, ok: Bio -> bool, r: Rq, b: Bio)
    requires Kept(l, good, ok) && Entry(good, r) && Incoming(ok, b) && b.sector + b.size / 512 == r.sector
    ensures var m := FrontMerge(l, r, b);
      Entry(good, m.rq) && Incoming(ok, m.bio) && NoMoreMergeable(r, m.rq) && End(m.rq) == End(r)
  {
    var head, b1 := Settled(l, r.bios[0]), Settled(l, b);
    FrontMergeKeeps(l, good, ok, r, b);
    SettledRaises(l, b);
    SettledRaises(l, r.bios[0]);
    SameWhole(b, b1);
    FrontMergeRanged(l, r, b, head, b1);
    FrontMergeShape(l, r, b, head, b1);
  }

  lemma FrontMergeShape(l: Limits, r: Rq, b: Bio, head: Bio, b1: Bio)
    requires r.bios != []
    ensures var m := FrontMergeSettled(l, r, b, head, b1);
      m.rq.bios != [] && NoMoreMergeable(r, m.rq) && (m.bio == b || m.bio == b1)
  {
  }

  lemma EntryMerge(l: Limits, good: Promise, ok: Bio -> bool, r: Rq, next: Rq)
    requires Kept(l, good, ok) && Entry(good, r) && Entry(good, next) && End(r) == next.sector
    ensures var m := MergeRequests(l, r, next);
      && Entry(good, m.rq) && Entry(good, m.next) && NoMoreMergeable(r, m.rq) && NoMoreMergeable(next, m.next)
      && End(m.next) == End(next) && (!m.ok ==> End(m.rq) == End(r))
  {
    MergeRequestsKeeps(l, good, r, next);
    MergeRequestsRanged(l, r, next);
  }

  lemma OpenUpdate(l: Limits, good: Promise, ok: Bio -> bool, r: Rq, n: nat)
    requires Kept(l, good, ok) && Open(good, r)
    ensures var r1 := Update(l, r, n); r1.bios != [] ==> Open(good, r1)
  {
    UpdateLength(l, r, n);
    DropWellFormed(r.bios, n);
    RecountedRest(l, Drop(r.bios, n));
    var bios := Drop(r.bios, n);
    assert AllData(bios);
  }

  // ----- all requests -----

  ghost predicate Entries(good: Promise, rqs: map<nat, Rq>) { forall id :: id in rqs ==> Entry(good, rqs[id]) }

  ghost predicate Opens(good: Promise, out: map<nat, Rq>) { forall id :: id in out ==> Open(good, out[id]) }

  ghost predicate TableInv(rqs: map<nat, Rq>, hash: Table) { HashOk(rqs, hash) && Complete(rqs, hash) }

  ghost predicate LastIn(p: Pool) { p.last.Some? ==> p.last.value in p.rqs }

  ghost predicate Inv(good: Promise, p: Pool) {
    var holds := TableInv(p.rqs, p.hash) && Entries(good, p.rqs) && Opens(good, p.out) && LastIn(p);
    holds
  }

  /** The merge that elv_merge chose is one of neighbours. */
  ghost predicate ChoiceOk(rqs: map<nat, Rq>, b: Bio, choice: Choice) {
    match choice
    case NoMerge => true
    case Back(i) => i in rqs && Mergeable(rqs[i]) && End(rqs[i]) == b.sector
    case Front(i) => i in rqs && Mergeable(rqs[i]) && rqs[i].sector == b.sector + b.size / 512
  }

  lemma ChooseOk(l: Limits, p: Pool, e: Event)
    requires e.Submit? && TableInv(p.rqs, p.hash) && Enabled(l, p, e)
    ensures var (hash, choice) := Choose(p, e); TableInv(p.rqs, hash) && ChoiceOk(p.rqs, e.bio, choice)
  {
    FindIff(p.rqs, p.hash, e.bio.sector);
    FindKeeps(p.rqs, p.hash, e.bio.sector);
  }

  lemma InsertInv(l: Limits, good: Promise, ok: Bio -> bool, p: Pool, e: Event, b: Bio)
    requires Kept(l, good, ok) && Inv(good, p) && e.Submit? && e.id !in p.rqs && Incoming(ok, b)
    ensures Inv(good, Insert(l, p, e, b))
  {
    var r := NewRequest(l, e.kind, b, e.barrier, false);
    EntryNew(l, good, ok, e.kind, b, e.barrier);
    if Mergeable(r) {
      AddOk(p.rqs, p.hash, e.id, r);
      AddComplete(p.rqs, p.hash, e.id, r);
    } else {
      AddNone(p.rqs, p.hash, e.id, r);
    }
  }

  lemma RefuseInv(good: Promise, p: Pool, i: nat, r: Rq)
    requires Inv(good, p) && i in p.rqs && Entry(good, r) && End(r) == End(p.rqs[i]) && NoMoreMergeable(p.rqs[i], r)
    ensures Inv(good, Refuse(p, i, r))
  {
    SameEnd(p.rqs, p.hash, i, r);
  }

  lemma RehashInv(good: Promise, p: Pool, i: nat, r: Rq)
    requires Inv(good, p) && i in p.rqs && Entry(good, r)
    ensures Inv(good, Rehash(p, i, r))
  {
    Reposition(p.rqs, p.hash, i, r);
  }

  lemma AbsorbInv(good: Promise, p: Pool, i: nat, j: nat, r: Rq)
    requires Inv(good, p) && i in p.rqs && i != j && Entry(good, r)
    ensures Inv(good, Absorb(p, i, j, r))
  {
    Reposition(p.rqs, p.hash, i, r);
    DelOk(p.rqs[i := r], Add(Del(p.hash, i), i, End(r)), j);
    DelComplete(p.rqs[i := r], Add(Del(p.hash, i), i, End(r)), j);
  }

  lemma UpdateInv(good: Promise, p: Pool, i: nat, r: Rq, last: Maybe<nat>)
    requires Inv(good, p) && i in p.rqs && Entry(good, r) && End(r) == End(p.rqs[i]) && NoMoreMergeable(p.rqs[i], r)
    requires last.Some? ==> last.value in p.rqs
    ensures Inv(good, p.(rqs := p.rqs[i := r], last := last))
  {
    SameEnd(p.rqs, p.hash, i, r);
  }

  lemma AfterBackInv(l: Limits, good: Promise, ok: Bio -> bool, p: Pool, e: Event, i: nat, r: Rq)
    requires Kept(l, good, ok) && Inv(good, p) && e.Submit? && i in p.rqs && Entry(good, r)
    ensures Inv(good, AfterBack(l, p, e, i, r))
  {
    var rqs := p.rqs[i := r];
    if e.neighbour.Some? && MayAttempt(rqs, e.allowed, i, e.neighbour.value) {
      var j := e.neighbour.value;
      var m := MergeRequests(l, r, p.rqs[j]);
      EntryMerge(l, good, ok, r, p.rqs[j]);
      if m.ok {
        AbsorbInv(good, p, i, j, m.rq);
      } else {
        RehashInv(good, p, i, m.rq);
        UpdateInv(good, Rehash(p, i, m.rq), j, m.next, Some(i));
      }
    } else {
      RehashInv(good, p, i, r);
    }
  }

  lemma AfterFrontInv(l: Limits, good: Promise, ok: Bio -> bool, p: Pool, e: Event, i: nat, r: Rq)
    requires Kept(l, good, ok) && Inv(good, p) && e.Submit? && i in p.rqs && Entry(good, r)
    requires End(r) == End(p.rqs[i]) && NoMoreMergeable(p.rqs[i], r)
    ensures Inv(good, AfterFront(l, p, e, i, r))
  {
    UpdateInv(good, p, i, r, p.last);
    UpdateInv(good, p, i, r, Some(i));
    var p1 := p.(rqs := p.rqs[i := r]);
    if e.neighbour.Some? && MayAttempt(p1.rqs, e.allowed, e.neighbour.value, i) {
      var j := e.neighbour.value;
      var m := MergeRequests(l, p1.rqs[j], r);
      EntryMerge(l, good, ok, p1.rqs[j], r);
      if m.ok {
        AbsorbInv(good, p1, j, i, m.rq);
      } else {
        UpdateInv(good, p1, j, m.rq, p1.last);
        UpdateInv(good, p1.(rqs := p1.rqs[j := m.rq]), i, m.next, Some(i));
      }
    }
  }

  lemma MergedInv(l: Limits, good: Promise, ok: Bio -> bool, p: Pool, e: Event, choice: Choice)
    requires Kept(l, good, ok) && Inv(good, p) && e.Submit? && e.id !in p.rqs && Incoming(ok, e.bio)
    requires ChoiceOk(p.rqs, e.bio, choice) && choice != NoMerge
    ensures
      var m := if choice.Back? then BackMerge(l, p.rqs[choice.id], e.bio) else FrontMerge(l, p.rqs[choice.id], e.bio);
      if !m.ok then Inv(good, Insert(l, Refuse(p, choice.id, m.rq), e, m.bio))
      else if choice.Back? then Inv(good, AfterBack(l, p, e, choice.id, m.rq))
      else Inv(good, AfterFront(l, p, e, choice.id, m.rq))
  {
    var i := choice.id;
    var r := p.rqs[i];
    var m := if choice.Back? then BackMerge(l, r, e.bio) else FrontMerge(l, r, e.bio);
    if choice.Back? {
      EntryBack(l, good, ok, r, e.bio);
    } else {
      EntryFront(l, good, ok, r, e.bio);
    }
    if !m.ok {
      RefuseInv(good, p, i, m.rq);
      InsertInv(l, good, ok, Refuse(p, i, m.rq), e, m.bio);
    } else if choice.Back? {
      AfterBackInv(l, good, ok, p, e, i, m.rq);
    } else {
      AfterFrontInv(l, good, ok, p, e, i, m.rq);
    }
  }

  lemma MakeInv(l: Limits, good: Promise, ok: Bio -> bool, p: Pool, e: Event)
    requires Kept(l, good, ok) && Inv(good, p) && Ready(p) && e.Submit? && Enabled(l, p, e) && Incoming(ok, e.bio)
    ensures Inv(good, MakeRequest(l, p, e))
  {
    InsertInv(l, good, ok, p, e, e.bio);
    ChooseOk(l, p, e);
    var (hash, choice) := Choose(p, e);
    var p1 := p.(hash := hash);
    InsertInv(l, good, ok, p1, e, e.bio);
    if choice != NoMerge {
      MergedInv(l, good, ok, p1, e, choice);
    }
  }

  lemma StepInv(l: Limits, good: Promise, ok: Bio -> bool, p: Pool, e: Event)
    requires Kept(l, good, ok) && Inv(good, p) && Ready(p) && Enabled(l, p, e) && (e.Submit? ==> Incoming(ok, e.bio))
    ensures Inv(good, Step(l, p, e))
  {
    match e
    case Submit(_, _, _, _, _, _, _) => MakeInv(l, good, ok, p, e);
    case Dispatch(id) =>
      DelOk(p.rqs, p.hash, id);
      DelComplete(p.rqs, p.hash, id);
    case Finish(id, n) => OpenUpdate(l, good, ok, p.out[id], n);
  }

  // ----- whole runs -----

  function Empty(): Pool { Pool(map[], map[], seq(ELV_HASH_ENTRIES, _ => []), None) }

  ghost predicate Leads(l: Limits, p: Pool, es: seq<Event>, q: Pool)
    decreases |es|
  {
    if es == [] then p == q
    else Ready(p) && Enabled(l, p, es[0]) && Leads(l, Step(l, p, es[0]), es[1..], q)
  }

  lemma {:induction false} RunInv(l: Limits, good: Promise, ok: Bio -> bool, p: Pool, es: seq<Event>, q: Pool)
    requires Kept(l, good, ok) && Inv(good, p) && Leads(l, p, es, q) && ok == SubmittableFor(l)
    ensures Inv(good, q) && Ready(q)
    decreases |es|
  {
    if es != [] {
      StepInv(l, good, ok, p, es[0]);
      RunInv(l, good, ok, Step(l, p, es[0]), es[1..], q);
    }
  }

  lemma RunFromEmpty(l: Limits, es: seq<Event>, q: Pool)
    requires Leads(l, Empty(), es, q)
    ensures Inv(SoundFor(l), q) && Ready(q)
  {
    SoundIsKept(l);
    RunInv(l, SoundFor(l), SubmittableFor(l), Empty(), es, q);
  }

  lemma Fits(l: Limits, bios: seq<Bio>, nr: int)
    requires SoundFor(l)(bios, nr)
    ensures MappedCount(l, Vecs(bios)) <= nr
  {
    GreedyMinimal(l, Vecs(bios), nr, bios[0].front, bios[|bios| - 1].back);
  }

  /** After every history, mapping any request takes no more entries than its segment count says. */
  lemma MappingFits(l: Limits, es: seq<Event>, q: Pool)
    requires Leads(l, Empty(), es, q)
    ensures forall id :: id in q.rqs ==> MappedCount(l, Vecs(q.rqs[id].bios)) <= q.rqs[id].nr
    ensures forall id :: id in q.out ==> MappedCount(l, Vecs(q.out[id].bios)) <= q.out[id].nr
  {
    RunFromEmpty(l, es, q);
    forall id | id in q.rqs ensures MappedCount(l, Vecs(q.rqs[id].bios)) <= q.rqs[id].nr {
      Fits(l, q.rqs[id].bios, q.rqs[id].nr);
    }
    forall id | id in q.out ensures MappedCount(l, Vecs(q.out[id].bios)) <= q.out[id].nr {
      Fits(l, q.out[id].bios, q.out[id].nr);
    }
  }

  /**
    After every history, each waiting request is one contiguous range, and looking
    up a sector finds a request that ends there and may merge, just when one waits.
   */
  lemma LookupExact(l: Limits, es: seq<Event>, q: Pool, offset: int)
    requires Leads(l, Empty(), es, q)
    ensures forall id :: id in q.rqs ==> Ranged(q.rqs[id])
    ensures HashOk(q.rqs, q.hash)
    ensures Find(q.rqs, q.hash, offset).1.Some? <==>
      exists id :: id in q.rqs && Mergeable(q.rqs[id]) && End(q.rqs[id]) == offset
  {
    RunFromEmpty(l, es, q);
    FindIff(q.rqs, q.hash, offset);
  }
}
