/** Exactly when a merge is made, and what it leaves, in terms of the limits of the queue. */
module MergeLimits {
  import opened Segments
  import opened RequestChain
  import opened RequestCounts

  /** Block PC requests may use all that the hardware takes. */
  function SectorLimit(l: Limits, kind: Kind): nat { if kind.Pc? then l.maxHwSectors else l.maxSectors }

  /** Both segment limits of the queue are kept. */
  predicate SegmentsFit(l: Limits, n: int) { n <= l.maxPhysSegments && n <= l.maxHwSegments }

  /** `r` as it was, up to recorded sizes. */
  ghost predicate Untouched(r: Rq, r1: Rq) {
    var holds :=
      && Vecs(r1.bios) == Vecs(r.bios) && r1.nr == r.nr && r1.dataLen == r.dataLen && r1.sector == r.sector
      && r1.kind == r.kind && r1.special == r.special;
    holds
  }

  /** `r` with the vectors of a bio or request added, and their length and segments. */
  ghost predicate Grown(r: Rq, r1: Rq, vs: seq<Vec>, len: int, nr: int, sector: int) {
    && Vecs(r1.bios) == vs && r1.dataLen == r.dataLen + len && r1.nr == nr && r1.sector == sector
    && r1.kind == r.kind && r1.special == r.special && r1.nomerge == r.nomerge
  }

  lemma SettledVecs(l: Limits, bios: seq<Bio>, i: nat)
    requires i < |bios|
    ensures Vecs(bios[i := Settled(l, bios[i])]) == Vecs(bios)
  {
    SettledRaises(l, bios[i]);
    SameVecs(bios, bios[i := Settled(l, bios[i])]);
  }

  /** A bio is merged at the back just when sectors and segments stay within the limits; a refusal is final. */
  lemma BackMergeLaw(l: Limits, r: Rq, b: Bio)
    requires r.bios != []
    ensures var m, phys := BackMerge(l, r, b), Settled(l, b).phys;
      && (m.ok <==> Sectors(r) + b.size / 512 <= SectorLimit(l, r.kind) && SegmentsFit(l, r.nr + phys))
      && (m.ok ==> Grown(r, m.rq, Vecs(r.bios) + b.vecs, b.size, r.nr + phys, r.sector))
      && (!m.ok ==> Untouched(r, m.rq) && m.rq.nomerge)
      && SameBio(b, m.bio) && Settled(l, m.bio).phys == phys
  {
    var n, b1 := |r.bios| - 1, Settled(l, b);
    var bios := r.bios[n := Settled(l, r.bios[n])];
    SettledRaises(l, b);
    SettledVecs(l, r.bios, n);
    VecsAppend(bios, [b1]);
    VecsOne(b1);
  }

  /** The same at the front, where the request then starts with the bio. */
  lemma FrontMergeLaw(l: Limits, r: Rq, b: Bio)
    requires r.bios != []
    ensures var m, phys := FrontMerge(l, r, b), Settled(l, b).phys;
      && (m.ok <==> Sectors(r) + b.size / 512 <= SectorLimit(l, r.kind) && SegmentsFit(l, r.nr + phys))
      && (m.ok ==> Grown(r, m.rq, b.vecs + Vecs(r.bios), b.size, r.nr + phys, b.sector))
      && (!m.ok ==> Untouched(r, m.rq) && m.rq.nomerge)
      && SameBio(b, m.bio) && Settled(l, m.bio).phys == phys
  {
    var b1 := Settled(l, b);
    var bios := r.bios[0 := Settled(l, r.bios[0])];
    SettledRaises(l, b);
    SettledVecs(l, r.bios, 0);
    VecsAppend([b1], bios);
    VecsOne(b1);
  }

  /** The last run of `r` and the first of `next` are one: their vectors join, and so do their recorded sizes. */
  predicate OneRun(l: Limits, r: Rq, next: Rq)
    requires r.bios != [] && next.bios != []
  {
    var a, b := r.bios[|r.bios| - 1], next.bios[0];
    && a.vecs != [] && b.vecs != [] && l.cluster
    && a.back + b.front <= l.maxSegmentSize && Joins(l, a.vecs[|a.vecs| - 1], b.vecs[0])
  }

  /** Two requests become one just when neither is special and they stay within the limits; joined runs count once. */
  lemma MergeLaw(l: Limits, r: Rq, next: Rq)
    requires r.bios != [] && next.bios != [] && AllData(r.bios) && AllData(next.bios)
    ensures var m, total := MergeRequests(l, r, next), r.nr + next.nr - if OneRun(l, r, next) then 1 else 0;
      && (m.ok <==> !r.special && !next.special && Sectors(r) + Sectors(next) <= l.maxSectors && SegmentsFit(l, total))
      && (m.ok ==> Grown(r, m.rq, Vecs(r.bios) + Vecs(next.bios), next.dataLen, total, r.sector))
      && (!m.ok ==> Untouched(r, m.rq) && m.rq.nomerge == r.nomerge)
      && Untouched(next, m.next) && m.next.nomerge == next.nomerge
  {
    var n := |r.bios| - 1;
    assert r.bios[n].vecs != [] && next.bios[0].vecs != [];
    var size := r.bios[n].back + next.bios[0].front;
    var a, b := FrontRecorded(r.bios, r.nr, size), BackRecorded(next.bios, next.nr, size);
    assert OneRun(l, r, next) <==> PhysContig(l, r.bios[n], next.bios[0]);
    SameVecs(r.bios, a);
    SameVecs(next.bios, b);
    VecsAppend(a, b);
    VecsAppend(r.bios, next.bios);
  }

  /** A bio that was never counted gets the sizes of its outer runs. */
  lemma FreshSizes(l: Limits, b: Bio)
    requires !b.valid && b.front == 0 && b.back == 0
    ensures var b1, c := Settled(l, b), Recalc(l, b.vecs, |b.vecs|);
      b1.front == First(b.vecs, c, |c|) && b1.back == Last(b.vecs, c, |c|) && b1.phys == Count(c, |c|)
  {
    VecsOne(b);
  }

  // ----- where no page is high -----

  ghost predicate Low(l: Limits, vs: seq<Vec>) { forall i :: 0 <= i < |vs| ==> !High(l, vs[i]) }

  /** A high page is joined to neither of its neighbours. */
  lemma {:induction false} HighAlone(l: Limits, vs: seq<Vec>, n: nat, i: nat)
    requires i < n <= |vs| && (High(l, vs[i]) || (i > 0 && High(l, vs[i - 1])))
    ensures Recalc(l, vs, n)[i]
  {
    if i < n - 1 { HighAlone(l, vs, n - 1, i); }
  }

  /** Then a recount joins whatever it may. */
  lemma {:induction false} LowRecalc(l: Limits, vs: seq<Vec>, n: nat)
    requires n <= |vs| && Low(l, vs)
    ensures Recalc(l, vs, n) == Greedy(l, vs, n)
  {
    if n > 0 { LowRecalc(l, vs, n - 1); }
  }

  /** So it counts the least number of segments, which is what mapping takes. */
  lemma LowCount(l: Limits, bios: seq<Bio>)
    requires Low(l, Vecs(bios))
    ensures SegmentCount(l, bios) == MappedCount(l, Vecs(bios))
  {
    LowRecalc(l, Vecs(bios), |Vecs(bios)|);
  }
}
