/** What a submitted bio becomes: its vectors end up in one request, between those of its neighbours. */
module PoolMerges {
  import opened Segments
  import opened RequestChain
  import opened RequestCounts
  import opened RequestCompletion
  import opened Lists
  import opened MergeHash
  import opened RequestRanges
  import opened RequestPool
  import opened MergeLimits

  function Ids(m: Maybe<nat>): set<nat> { if m.Some? then {m.value} else {} }

  function Part(rqs: map<nat, Rq>, m: Maybe<nat>): seq<Vec> {
    if m.Some? && m.value in rqs then Vecs(rqs[m.value].bios) else []
  }

  /** A request that respects the limits of its queue. */
  ghost predicate Within(l: Limits, r: Rq) { SegmentsFit(l, r.nr) && Sectors(r) <= l.maxSectors }

  /** Every other request is as it was. */
  ghost predicate OthersKept(before: map<nat, Rq>, after: map<nat, Rq>, id: nat) {
    forall k :: k in after && k != id ==> k in before && Untouched(before[k], after[k])
  }

  /**
    The vectors of `b` are now in request `id`, behind those of request `left` and in
    front of those of request `right`, where there are such; nothing else was
    gained or lost.  A request that took part in a merge respects the limits.
   */
  ghost predicate Placed(l: Limits, before: map<nat, Rq>, after: map<nat, Rq>, b: Bio, spare: nat,
                         id: nat, left: Maybe<nat>, right: Maybe<nat>)
  {
    var holds :=
      && id in after && (if left.None? && right.None? then id == spare else id in Ids(left) + Ids(right))
      && Ids(left) + Ids(right) <= before.Keys && Ids(left) !! Ids(right)
      && after.Keys == before.Keys - Ids(left) - Ids(right) + {id}
      && Vecs(after[id].bios) == Part(before, left) + b.vecs + Part(before, right)
      && OthersKept(before, after, id)
      && (if left.None? && right.None? then after[id].nr == Settled(l, b).phys && after[id].dataLen == b.size
          else Within(l, after[id]));
    holds
  }

  ghost predicate Landed(l: Limits, before: map<nat, Rq>, after: map<nat, Rq>, b: Bio, spare: nat) {
    exists id, left, right :: Placed(l, before, after, b, spare, id, left, right)
  }

  /** Whole sectors, with data in every bio. */
  ghost predicate Plain(r: Rq) {
    r.bios != [] && AllData(r.bios) && r.dataLen % 512 == 0
  }

  lemma RangedPlain(r: Rq)
    requires Ranged(r)
    ensures Plain(r)
  {
    CoversSize(r.bios, r.sector, End(r));
    forall i | 0 <= i < |r.bios| ensures r.bios[i].vecs != [] { assert WellFormed(r.bios[i]); }
  }

  // ----- on the map of requests -----

  lemma StayedUntouched(r: Rq)
    ensures Untouched(r, r)
  {
  }

  lemma PlacedAlone(l: Limits, before: map<nat, Rq>, mid: map<nat, Rq>, id: nat, r: Rq, b: Bio)
    requires id !in before && mid.Keys == before.Keys
    requires Vecs(r.bios) == b.vecs && r.nr == Settled(l, b).phys && r.dataLen == b.size
    requires forall k :: k in mid ==> Untouched(before[k], mid[k])
    ensures Landed(l, before, mid[id := r], b, id)
  {
    assert Part(before, None) + b.vecs + Part(before, None) == b.vecs;
    assert Placed(l, before, mid[id := r], b, id, id, None, None);
  }

  lemma KeptBut(before: map<nat, Rq>, after: map<nat, Rq>, id: nat, j: nat)
    requires after.Keys <= before.Keys + {id}
    requires forall k :: k in after && k != id && k != j ==> k in before && after[k] == before[k]
    requires j in after && j != id ==> j in before && Untouched(before[j], after[j])
    ensures OthersKept(before, after, id)
  {
    forall k | k in after && k != id ensures k in before && Untouched(before[k], after[k]) {
      if k != j { StayedUntouched(before[k]); }
    }
  }

  /** Request `i` took the bio and became `r`; at most the sizes recorded in request `j` changed besides. */
  lemma PlacedOne(l: Limits, before: map<nat, Rq>, i: nat, r: Rq, j: nat, rj: Rq, b: Bio, spare: nat, back: bool)
    requires i in before && j in before && j != i && Untouched(before[j], rj)
    requires Within(l, r)
    requires Vecs(r.bios) == if back then Vecs(before[i].bios) + b.vecs else b.vecs + Vecs(before[i].bios)
    ensures Landed(l, before, before[i := r][j := rj], b, spare)
  {
    var after := before[i := r][j := rj];
    KeptBut(before, after, i, j);
    var left, right := if back then Some(i) else None, if back then None else Some(i);
    assert Part(before, left) + b.vecs + Part(before, right) == Vecs(r.bios);
    assert after.Keys == before.Keys - Ids(left) - Ids(right) + {i};
    assert Placed(l, before, after, b, spare, i, left, right);
  }

  lemma PlacedOnly(l: Limits, before: map<nat, Rq>, i: nat, r: Rq, b: Bio, spare: nat, back: bool)
    requires i in before && Within(l, r)
    requires Vecs(r.bios) == if back then Vecs(before[i].bios) + b.vecs else b.vecs + Vecs(before[i].bios)
    ensures Landed(l, before, before[i := r], b, spare)
  {
    var after := before[i := r];
    KeptBut(before, after, i, i);
    var left, right := if back then Some(i) else None, if back then None else Some(i);
    assert Part(before, left) + b.vecs + Part(before, right) == Vecs(r.bios);
    assert after.Keys == before.Keys - Ids(left) - Ids(right) + {i};
    assert Placed(l, before, after, b, spare, i, left, right);
  }

  /** Requests `i` and `j` and the bio between them became request `i`. */
  lemma PlacedBetween(l: Limits, before: map<nat, Rq>, after: map<nat, Rq>, i: nat, j: nat, r: Rq, b: Bio,
                      spare: nat)
    requires i in before && j in before && i != j && after == before[i := r] - {j}
    requires Within(l, r)
    requires Vecs(r.bios) == Vecs(before[i].bios) + b.vecs + Vecs(before[j].bios)
    ensures Landed(l, before, after, b, spare)
  {
    KeptBut(before, after, i, i);
    assert after.Keys == before.Keys - {i} - {j} + {i};
    assert Placed(l, before, after, b, spare, i, Some(i), Some(j));
  }

  // ----- the ways of __make_request -----

  /** `b` is the bio as it arrived, `b1` as a refused merge left it. */
  lemma AloneLands(l: Limits, p: Pool, e: Event, b: Bio, b1: Bio, rqs: map<nat, Rq>)
    requires e.Submit? && e.id !in rqs && |p.hash| == ELV_HASH_ENTRIES
    requires p.rqs.Keys == rqs.Keys && forall k :: k in p.rqs ==> Untouched(rqs[k], p.rqs[k])
    requires SameBio(b, b1) && Settled(l, b1).phys == Settled(l, b).phys
    ensures Landed(l, rqs, Insert(l, p, e, b1).rqs, b, e.id)
  {
    var r := NewRequest(l, e.kind, b1, e.barrier, false);
    SettledRaises(l, b1);
    VecsOne(Settled(l, b1));
    PlacedAlone(l, rqs, p.rqs, e.id, r, b);
    assert Insert(l, p, e, b1).rqs == p.rqs[e.id := r];
  }

  /** Request `i` took the bio at its back, or at its front, and became `r`. */
  ghost predicate TookBio(l: Limits, rqs: map<nat, Rq>, i: nat, r: Rq, vs: seq<Vec>, back: bool) {
    && i in rqs && Plain(r) && Within(l, r)
    && Vecs(r.bios) == if back then Vecs(rqs[i].bios) + vs else vs + Vecs(rqs[i].bios)
  }

  /** Lengths in whole sectors add up. */
  lemma SectorsAdd(r: Rq, next: Rq, joint: Rq)
    requires r.dataLen % 512 == 0 && joint.dataLen == r.dataLen + next.dataLen
    ensures Sectors(joint) == Sectors(r) + Sectors(next)
  {
  }

  lemma BackLands(l: Limits, p: Pool, e: Event, i: nat, r: Rq)
    requires e.Submit? && |p.hash| == ELV_HASH_ENTRIES && TookBio(l, p.rqs, i, r, e.bio.vecs, true)
    requires forall k :: k in p.rqs ==> Plain(p.rqs[k])
    ensures Landed(l, p.rqs, AfterBack(l, p, e, i, r).rqs, e.bio, e.id)
  {
    var rqs, vs := p.rqs[i := r], e.bio.vecs;
    if e.neighbour.Some? && MayAttempt(rqs, e.allowed, i, e.neighbour.value) {
      var j := e.neighbour.value;
      var next := p.rqs[j];
      var m := MergeRequests(l, r, next);
      MergeLaw(l, r, next);
      if m.ok {
        SectorsAdd(r, next, m.rq);
        PlacedBetween(l, p.rqs, p.rqs[i := m.rq] - {j}, i, j, m.rq, e.bio, e.id);
      } else {
        PlacedOne(l, p.rqs, i, m.rq, j, m.next, e.bio, e.id, true);
      }
    } else {
      PlacedOnly(l, p.rqs, i, r, e.bio, e.id, true);
    }
  }

  lemma Overwritten(rqs: map<nat, Rq>, i: nat, j: nat, r: Rq, a: Rq, b: Rq)
    requires i != j
    ensures rqs[i := r][j := a] - {i} == rqs[j := a] - {i} && rqs[i := r][j := a][i := b] == rqs[i := b][j := a]
  {
  }

  lemma Regroup(a: seq<Vec>, b: seq<Vec>, c: seq<Vec>)
    ensures a + (b + c) == a + b + c
  {
  }

  lemma FrontLands(l: Limits, p: Pool, e: Event, i: nat, r: Rq)
    requires e.Submit? && |p.hash| == ELV_HASH_ENTRIES && TookBio(l, p.rqs, i, r, e.bio.vecs, false)
    requires forall k :: k in p.rqs ==> Plain(p.rqs[k])
    ensures Landed(l, p.rqs, AfterFront(l, p, e, i, r).rqs, e.bio, e.id)
  {
    var rqs, vs := p.rqs[i := r], e.bio.vecs;
    if e.neighbour.Some? && MayAttempt(rqs, e.allowed, e.neighbour.value, i) {
      var j := e.neighbour.value;
      var prev := p.rqs[j];
      var m := MergeRequests(l, prev, r);
      MergeLaw(l, prev, r);
      if m.ok {
        SectorsAdd(prev, r, m.rq);
        Regroup(Vecs(prev.bios), vs, Vecs(p.rqs[i].bios));
        Overwritten(p.rqs, i, j, r, m.rq, m.next);
        PlacedBetween(l, p.rqs, p.rqs[j := m.rq] - {i}, j, i, m.rq, e.bio, e.id);
      } else {
        PlacedOne(l, p.rqs, i, m.next, j, m.rq, e.bio, e.id, false);
        Overwritten(p.rqs, i, j, r, m.rq, m.next);
      }
    } else {
      PlacedOnly(l, p.rqs, i, r, e.bio, e.id, false);
    }
  }

  // ----- submission -----

  /** Everything waiting is plain, and the table names nothing else. */
  lemma AllPlain(l: Limits, p: Pool)
    requires Inv(SoundFor(l), p)
    ensures forall k :: k in p.rqs ==> Plain(p.rqs[k])
  {
    forall k | k in p.rqs ensures Plain(p.rqs[k]) {
      assert Entry(SoundFor(l), p.rqs[k]);
      RangedPlain(p.rqs[k]);
    }
  }

  lemma BackTakes(l: Limits, r: Rq, b: Bio)
    requires Entry(SoundFor(l), r) && Mergeable(r) && Submittable(l, b) && Whole(b) && b.sector == End(r)
    ensures var m := BackMerge(l, r, b); m.ok ==> Plain(m.rq) && Within(l, m.rq)
  {
    SoundIsKept(l);
    EntryBack(l, SoundFor(l), SubmittableFor(l), r, b);
    BackMergeLaw(l, r, b);
    RangedPlain(r);
    RangedPlain(BackMerge(l, r, b).rq);
  }

  lemma FrontTakes(l: Limits, r: Rq, b: Bio)
    requires Entry(SoundFor(l), r) && Mergeable(r) && Submittable(l, b) && Whole(b)
    requires b.sector + b.size / 512 == r.sector
    ensures var m := FrontMerge(l, r, b); m.ok ==> Plain(m.rq) && Within(l, m.rq)
  {
    SoundIsKept(l);
    EntryFront(l, SoundFor(l), SubmittableFor(l), r, b);
    FrontMergeLaw(l, r, b);
    RangedPlain(r);
    RangedPlain(FrontMerge(l, r, b).rq);
  }

  lemma RefusedLands(l: Limits, p: Pool, e: Event, i: nat, r: Rq, b1: Bio)
    requires e.Submit? && e.id !in p.rqs && |p.hash| == ELV_HASH_ENTRIES && i in p.rqs && Untouched(p.rqs[i], r)
    requires SameBio(e.bio, b1) && Settled(l, b1).phys == Settled(l, e.bio).phys
    ensures Landed(l, p.rqs, Insert(l, Refuse(p, i, r), e, b1).rqs, e.bio, e.id)
  {
    var p1 := Refuse(p, i, r);
    forall k | k in p1.rqs ensures Untouched(p.rqs[k], p1.rqs[k]) {
      if k != i { StayedUntouched(p.rqs[k]); }
    }
    AloneLands(l, p1, e, e.bio, b1, p.rqs);
  }

  lemma NewLands(l: Limits, p: Pool, e: Event)
    requires e.Submit? && e.id !in p.rqs && |p.hash| == ELV_HASH_ENTRIES
    ensures Landed(l, p.rqs, Insert(l, p, e, e.bio).rqs, e.bio, e.id)
  {
    forall k | k in p.rqs ensures Untouched(p.rqs[k], p.rqs[k]) { StayedUntouched(p.rqs[k]); }
    AloneLands(l, p, e, e.bio, e.bio, p.rqs);
  }

  lemma MergeLands(l: Limits, p: Pool, e: Event, choice: Choice)
    requires Inv(SoundFor(l), p) && e.Submit? && Enabled(l, p, e) && ChoiceOk(p.rqs, e.bio, choice) && choice != NoMerge
    ensures
      var m := if choice.Back? then BackMerge(l, p.rqs[choice.id], e.bio) else FrontMerge(l, p.rqs[choice.id], e.bio);
      if !m.ok then Landed(l, p.rqs, Insert(l, Refuse(p, choice.id, m.rq), e, m.bio).rqs, e.bio, e.id)
      else if choice.Back? then Landed(l, p.rqs, AfterBack(l, p, e, choice.id, m.rq).rqs, e.bio, e.id)
      else Landed(l, p.rqs, AfterFront(l, p, e, choice.id, m.rq).rqs, e.bio, e.id)
  {
    var i := choice.id;
    var r := p.rqs[i];
    AllPlain(l, p);
    assert Entry(SoundFor(l), r);
    if choice.Back? {
      BackMergeLaw(l, r, e.bio);
      BackTakes(l, r, e.bio);
      var m := BackMerge(l, r, e.bio);
      if m.ok { BackLands(l, p, e, i, m.rq); } else { RefusedLands(l, p, e, i, m.rq, m.bio); }
    } else {
      FrontMergeLaw(l, r, e.bio);
      FrontTakes(l, r, e.bio);
      var m := FrontMerge(l, r, e.bio);
      if m.ok { FrontLands(l, p, e, i, m.rq); } else { RefusedLands(l, p, e, i, m.rq, m.bio); }
    }
  }

  lemma MakeLands(l: Limits, p: Pool, e: Event)
    requires Inv(SoundFor(l), p) && Ready(p) && e.Submit? && Enabled(l, p, e)
    ensures Landed(l, p.rqs, MakeRequest(l, p, e).rqs, e.bio, e.id)
  {
    ChooseOk(l, p, e);
    var (hash, choice) := Choose(p, e);
    var p1 := p.(hash := hash);
    if e.barrier || p.rqs == map[] {
      NewLands(l, p, e);
    } else if choice == NoMerge {
      NewLands(l, p1, e);
    } else {
      MergeLands(l, p1, e, choice);
    }
  }

  lemma MergedOut(l: Limits, p: Pool, e: Event, i: nat, r: Rq)
    requires e.Submit? && |p.hash| == ELV_HASH_ENTRIES && i in p.rqs
    ensures AfterBack(l, p, e, i, r).out == p.out && AfterBack(l, p, e, i, r).rqs.Keys <= p.rqs.Keys
    ensures AfterFront(l, p, e, i, r).out == p.out && AfterFront(l, p, e, i, r).rqs.Keys <= p.rqs.Keys
  {
  }

  lemma OutKept(l: Limits, p: Pool, e: Event)
    requires e.Submit? && Ready(p)
    ensures MakeRequest(l, p, e).out == p.out
  {
    var (hash, choice) := Choose(p, e);
    var p1 := p.(hash := hash);
    if choice != NoMerge && choice.id in p.rqs && |hash| == ELV_HASH_ENTRIES {
      MergedOut(l, p1, e, choice.id, BackMerge(l, p.rqs[choice.id], e.bio).rq);
      MergedOut(l, p1, e, choice.id, FrontMerge(l, p.rqs[choice.id], e.bio).rq);
    }
  }

  /** After every history, a submitted bio is put in one request, and no other data is gained, lost or moved. */
  lemma SubmissionConserves(l: Limits, es: seq<Event>, q: Pool, e: Event)
    requires Leads(l, Empty(), es, q) && e.Submit? && Enabled(l, q, e)
    ensures HashOk(q.rqs, q.hash) && Ready(q)
    ensures Landed(l, q.rqs, Step(l, q, e).rqs, e.bio, e.id) && Step(l, q, e).out == q.out
  {
    RunFromEmpty(l, es, q);
    MakeLands(l, q, e);
    OutKept(l, q, e);
  }

  // ----- a neighbour that waits is merged with -----

  /** The request can take the bio without breaking a limit. */
  ghost predicate Room(l: Limits, r: Rq, b: Bio) {
    && Sectors(r) + b.size / 512 <= SectorLimit(l, r.kind)
    && SegmentsFit(l, r.nr + Settled(l, b).phys)
  }

  /** Next to the bio and open to merging. */
  ghost predicate Adjoins(rqs: map<nat, Rq>, b: Bio, k: nat) {
    k in rqs && Mergeable(rqs[k]) && (End(rqs[k]) == b.sector || rqs[k].sector == b.sector + b.size / 512)
  }

  ghost predicate Welcome(l: Limits, rqs: map<nat, Rq>, e: Event, k: nat)
    requires e.Submit? && k in rqs
  {
    k in e.allowed && !rqs[k].special && Room(l, rqs[k], e.bio)
  }

  /** elv_merge finds a request that ends where the bio starts, or takes the scheduler's candidate. */
  lemma ChooseFinds(p: Pool, e: Event)
    requires TableInv(p.rqs, p.hash) && e.Submit?
    requires forall k :: Adjoins(p.rqs, e.bio, k) ==> MergeOk(p.rqs, e.allowed, k)
    ensures (exists k :: k in p.rqs && Mergeable(p.rqs[k]) && End(p.rqs[k]) == e.bio.sector) ==>
      Choose(p, e).1 != NoMerge
    ensures e.front.Some? && MergeOk(p.rqs, e.allowed, e.front.value) ==> Choose(p, e).1 != NoMerge
  {
    FindIff(p.rqs, p.hash, e.bio.sector);
    var found := Find(p.rqs, p.hash, e.bio.sector).1;
    assert found.Some? ==> Adjoins(p.rqs, e.bio, found.value);
  }

  /** Merging is offered only to requests that were never refused, are not special and agree with the bio. */
  lemma OnlyOpenRequests(p: Pool, e: Event)
    requires TableInv(p.rqs, p.hash) && e.Submit?
    ensures var choice := Choose(p, e).1;
      choice != NoMerge ==> choice.id in p.rqs && OpenTo(p.rqs[choice.id]) && choice.id in e.allowed
  {
    FindIff(p.rqs, p.hash, e.bio.sector);
  }

  /** Two requests are merged only if both are open and one ends where the other starts. */
  lemma OnlyOpenNeighbours(rqs: map<nat, Rq>, allowed: set<nat>, i: nat, j: nat)
    requires MayAttempt(rqs, allowed, i, j)
    ensures i != j && !rqs[i].nomerge && OpenTo(rqs[j]) && (rqs[i].kind.Fs? || rqs[i].kind.Discard?)
    ensures {i, j} <= allowed && rqs[i].sector + rqs[i].dataLen / 512 == rqs[j].sector
  {
  }

  ghost predicate OpenTo(r: Rq) { !r.nomerge && !r.special && (r.kind.Fs? || r.kind.Discard?) }

  lemma MergeIsMade(l: Limits, p: Pool, e: Event, choice: Choice)
    requires e.Submit? && |p.hash| == ELV_HASH_ENTRIES && choice != NoMerge && choice.id in p.rqs
    requires p.rqs[choice.id].bios != [] && Room(l, p.rqs[choice.id], e.bio)
    ensures choice.Back? ==> BackMerge(l, p.rqs[choice.id], e.bio).ok
    ensures choice.Front? ==> FrontMerge(l, p.rqs[choice.id], e.bio).ok
  {
    BackMergeLaw(l, p.rqs[choice.id], e.bio);
    FrontMergeLaw(l, p.rqs[choice.id], e.bio);
  }

  /**
    After every history: a bio that adjoins only requests that may take it and have
    room, and starts where one of them ends, makes no request of its own.
   */
  lemma NeighbourMerged(l: Limits, es: seq<Event>, q: Pool, e: Event, i: nat)
    requires Leads(l, Empty(), es, q) && e.Submit? && Enabled(l, q, e) && !e.barrier
    requires i in q.rqs && Mergeable(q.rqs[i]) && End(q.rqs[i]) == e.bio.sector
    requires forall k :: Adjoins(q.rqs, e.bio, k) ==> Welcome(l, q.rqs, e, k)
    ensures HashOk(q.rqs, q.hash) && Ready(q)
    ensures Step(l, q, e).rqs.Keys <= q.rqs.Keys && e.id !in Step(l, q, e).rqs
  {
    RunFromEmpty(l, es, q);
    ChooseOk(l, q, e);
    ChooseFinds(q, e);
    var (hash, choice) := Choose(q, e);
    var p1 := q.(hash := hash);
    assert Adjoins(q.rqs, e.bio, choice.id);
    MergeIsMade(l, p1, e, choice);
    MergedOut(l, p1, e, choice.id, BackMerge(l, q.rqs[choice.id], e.bio).rq);
    MergedOut(l, p1, e, choice.id, FrontMerge(l, q.rqs[choice.id], e.bio).rq);
  }
}
