/** Over every history: requests respect the limits of the queue, and so does what the device is given to map. */
module PoolLimits {
  import opened Segments
  import opened RequestChain
  import opened RequestCounts
  import opened RequestCompletion
  import opened MergeHash
  import opened RequestRanges
  import opened RequestPool
  import opened MergeLimits
  import opened PoolMerges
  import opened BitMask

  // ----- vectors without their first bytes -----

  function CutVec(v: Vec, k: nat): Vec
    requires k <= v.len
  {
    v.(offset := v.offset + k, len := v.len - k)
  }

  /** A vector that loses bytes at its front stays in the boundary window of its successor. */
  ghost predicate Cuttable(l: Limits) {
    forall v, w, k: nat :: Joins(l, v, w) && k < v.len && w.len > 0 ==> l.window(CutVec(v, k), w)
  }

  /** The boundary test of the block layer: first and last byte lie in one window of `size` bytes. */
  predicate OneWindow(size: nat, v: Vec, w: Vec)
    requires size > 0
  {
    Phys(v) / size == (Phys(w) + w.len - 1) / size
  }

  lemma Between(a: nat, b: nat, c: nat, size: nat)
    requires size > 0 && a <= b <= c && a / size == c / size
    ensures b / size == c / size
  {
    var q, qb := a / size, b / size;
    assert a == q * size + a % size && b == qb * size + b % size && c == q * size + c % size;
    assert (qb - q) * size == qb * size - q * size;
    Multiple(qb - q, size);
  }

  /** That test has the property, for every window size. */
  lemma WindowsAreCuttable(l: Limits, size: nat)
    requires size > 0 && forall v, w :: l.window(v, w) <==> OneWindow(size, v, w)
    ensures Cuttable(l)
  {
    forall v, w, k: nat | Joins(l, v, w) && k < v.len && w.len > 0 ensures l.window(CutVec(v, k), w) {
      Between(Phys(v), Phys(v) + k, Phys(w) + w.len - 1, size);
    }
  }

  lemma {:induction false} CutValid(l: Limits, vs: seq<Vec>, k: nat, c: Cuts, n: nat)
    requires vs != [] && k < vs[0].len && Cuttable(l) && Filled(vs) && n <= |vs| && n <= |c| && Valid(l, vs, c, n)
    ensures var ws := [CutVec(vs[0], k)] + vs[1..]; Valid(l, ws, c, n) && Last(ws, c, n) <= Last(vs, c, n)
  {
    if n > 0 { CutValid(l, vs, k, c, n - 1); }
  }

  /** Bytes that are done take no entry away from the rest. */
  lemma CutMaps(l: Limits, vs: seq<Vec>, k: nat)
    requires vs != [] && k < vs[0].len && Cuttable(l) && Filled(vs)
    ensures MappedCount(l, [CutVec(vs[0], k)] + vs[1..]) <= MappedCount(l, vs)
  {
    var g := Greedy(l, vs, |vs|);
    GreedyValid(l, vs, |vs|);
    CutValid(l, vs, k, g, |vs|);
    GreedyAhead(l, [CutVec(vs[0], k)] + vs[1..], g, |vs|);
  }

  lemma {:induction false} TailValid(l: Limits, vs: seq<Vec>, c: Cuts, d: Cuts, n: nat)
    requires |c| == |vs| && |d| == |c| - 1 && 0 < n <= |d| && Valid(l, vs, c, n + 1)
    requires d[0] && forall i :: 0 < i < |d| ==> d[i] == c[i + 1]
    ensures Valid(l, vs[1..], d, n) && Last(vs[1..], d, n) <= Last(vs, c, n + 1) && Count(d, n) <= Count(c, n + 1)
  {
    if n > 1 {
      TailValid(l, vs, c, d, n - 1);
    } else {
      StartsWithRun(l, vs, c, 1);
      assert Count(c, 1) == 1;
    }
  }

  lemma TailMaps(l: Limits, vs: seq<Vec>)
    requires vs != []
    ensures MappedCount(l, vs[1..]) <= MappedCount(l, vs)
  {
    var g, ws := Greedy(l, vs, |vs|), vs[1..];
    if ws != [] {
      var d := [true] + g[2..];
      GreedyValid(l, vs, |vs|);
      TailValid(l, vs, g, d, |d|);
      GreedyAhead(l, ws, d, |ws|);
    }
  }

  lemma {:induction false} DropMaps(l: Limits, vs: seq<Vec>, n: nat)
    requires Cuttable(l) && Filled(vs)
    ensures MappedCount(l, DropVecs(vs, n)) <= MappedCount(l, vs)
  {
    if vs != [] {
      if n >= vs[0].len {
        assert Filled(vs[1..]) by { assert forall i :: 0 <= i < |vs[1..]| ==> vs[1..][i] == vs[i + 1]; }
        TailMaps(l, vs);
        DropMaps(l, vs[1..], n - vs[0].len);
      } else {
        CutMaps(l, vs, n);
      }
    }
  }

  // ----- the same for chains -----

  lemma {:induction false} DropVecsAppend(a: seq<Vec>, b: seq<Vec>, n: nat)
    ensures DropVecs(a + b, n) == if n >= Bytes(a) then DropVecs(b, n - Bytes(a)) else DropVecs(a, n) + b
  {
    if a == [] {
      assert a + b == b;
    } else {
      assert (a + b)[0] == a[0] && (a + b)[1..] == a[1..] + b;
      if n >= a[0].len { DropVecsAppend(a[1..], b, n - a[0].len); }
    }
  }

  lemma {:induction false} VecsDrop(bios: seq<Bio>, n: nat)
    requires AllWellFormed(bios)
    ensures Vecs(Drop(bios, n)) == DropVecs(Vecs(bios), n)
  {
    if bios != [] {
      assert WellFormed(bios[0]);
      VecsFirst(bios);
      DropVecsAppend(bios[0].vecs, Vecs(bios[1..]), n);
      if n >= bios[0].size {
        VecsDrop(bios[1..], n - bios[0].size);
      } else {
        var d := [DropBio(bios[0], n)] + bios[1..];
        VecsFirst(d);
        assert d[1..] == bios[1..];
      }
    }
  }

  lemma {:induction false} ChainFilled(bios: seq<Bio>)
    requires AllWellFormed(bios)
    ensures Filled(Vecs(bios))
  {
    if bios != [] {
      assert WellFormed(bios[0]);
      VecsFirst(bios);
      ChainFilled(bios[1..]);
    }
  }

  /** What a completion leaves takes no more entries to map. */
  lemma UpdateMaps(l: Limits, r: Rq, n: nat)
    requires Cuttable(l) && WellFormedRq(r)
    ensures var r1 := Update(l, r, n);
      && Vecs(r1.bios) == DropVecs(Vecs(r.bios), n)
      && MappedCount(l, Vecs(r1.bios)) <= MappedCount(l, Vecs(r.bios))
      && (r1.bios != [] ==> r1.nr == SegmentCount(l, r1.bios))
  {
    var bios := Drop(r.bios, n);
    ChainFilled(r.bios);
    VecsDrop(r.bios, n);
    DropMaps(l, Vecs(r.bios), n);
    if bios != [] {
      RecountedSame(l, bios);
      SameVecs(bios, Recounted(l, bios));
    }
  }

  // ----- runs -----

  /** The bio itself is within the limits. */
  ghost predicate Limited(l: Limits, e: Event) {
    e.Submit? ==> SegmentsFit(l, Settled(l, e.bio).phys) && e.bio.size / 512 <= l.maxSectors
  }

  ghost predicate AllWithin(l: Limits, rqs: map<nat, Rq>) { forall id :: id in rqs ==> Within(l, rqs[id]) }

  /** What is dispatched, partly done or not, can be mapped within the limits. */
  ghost predicate AllMap(l: Limits, out: map<nat, Rq>) {
    forall id :: id in out ==> SegmentsFit(l, MappedCount(l, Vecs(out[id].bios)))
  }

  lemma LandedWithin(l: Limits, before: map<nat, Rq>, after: map<nat, Rq>, b: Bio, spare: nat)
    requires Landed(l, before, after, b, spare) && AllWithin(l, before)
    requires SegmentsFit(l, Settled(l, b).phys) && b.size / 512 <= l.maxSectors
    ensures AllWithin(l, after)
  {
    var id, left, right :| Placed(l, before, after, b, spare, id, left, right);
    forall k | k in after ensures Within(l, after[k]) {
      assert k != id ==> Untouched(before[k], after[k]);
    }
  }

  lemma StepWithin(l: Limits, p: Pool, e: Event)
    requires Inv(SoundFor(l), p) && Ready(p) && Enabled(l, p, e) && Limited(l, e) && AllWithin(l, p.rqs)
    ensures AllWithin(l, Step(l, p, e).rqs)
  {
    if e.Submit? {
      MakeLands(l, p, e);
      LandedWithin(l, p.rqs, MakeRequest(l, p, e).rqs, e.bio, e.id);
    }
  }

  lemma StepMaps(l: Limits, p: Pool, e: Event)
    requires Inv(SoundFor(l), p) && Ready(p) && Enabled(l, p, e) && AllWithin(l, p.rqs)
    requires Cuttable(l) && AllMap(l, p.out)
    ensures AllMap(l, Step(l, p, e).out)
  {
    match e
    case Submit(_, _, _, _, _, _, _) => OutKept(l, p, e);
    case Dispatch(id) =>
      assert Entry(SoundFor(l), p.rqs[id]);
      Fits(l, p.rqs[id].bios, p.rqs[id].nr);
    case Finish(id, n) =>
      assert Open(SoundFor(l), p.out[id]);
      UpdateMaps(l, p.out[id], n);
  }

  lemma {:induction false} RunWithin(l: Limits, p: Pool, es: seq<Event>, q: Pool)
    requires Inv(SoundFor(l), p) && Leads(l, p, es, q) && AllWithin(l, p.rqs)
    requires forall i :: 0 <= i < |es| ==> Limited(l, es[i])
    ensures AllWithin(l, q.rqs) && (Cuttable(l) && AllMap(l, p.out) ==> AllMap(l, q.out))
    decreases |es|
  {
    if es != [] {
      var p1 := Step(l, p, es[0]);
      SoundIsKept(l);
      StepInv(l, SoundFor(l), SubmittableFor(l), p, es[0]);
      StepWithin(l, p, es[0]);
      if Cuttable(l) && AllMap(l, p.out) { StepMaps(l, p, es[0]); }
      assert forall i :: 0 <= i < |es[1..]| ==> es[1..][i] == es[i + 1];
      RunWithin(l, p1, es[1..], q);
    }
  }

  /** Requests built from bios within the limits stay within them, whatever is merged. */
  lemma LimitsKept(l: Limits, es: seq<Event>, q: Pool, id: nat)
    requires Leads(l, Empty(), es, q) && forall i :: 0 <= i < |es| ==> Limited(l, es[i])
    requires id in q.rqs
    ensures q.rqs[id].nr <= l.maxPhysSegments && q.rqs[id].nr <= l.maxHwSegments
    ensures Sectors(q.rqs[id]) <= l.maxSectors
  {
    SoundIsKept(l);
    RunWithin(l, Empty(), es, q);
  }

  /** The device never gets more scatterlist entries than the limits allow, for any part of a request still to do. */
  lemma DeviceFits(l: Limits, es: seq<Event>, q: Pool, id: nat)
    requires Leads(l, Empty(), es, q) && (forall i :: 0 <= i < |es| ==> Limited(l, es[i])) && Cuttable(l)
    requires id in q.out
    ensures MappedCount(l, Vecs(q.out[id].bios)) <= l.maxPhysSegments
    ensures MappedCount(l, Vecs(q.out[id].bios)) <= l.maxHwSegments
  {
    SoundIsKept(l);
    RunWithin(l, Empty(), es, q);
  }

  // ----- the count of a request that is partly done -----

  /** Where no page is high, the recount keeps the limits too. */
  lemma LowRecount(l: Limits, r: Rq, n: nat)
    requires Cuttable(l) && WellFormedRq(r) && Low(l, Vecs(r.bios)) && Update(l, r, n).bios != []
    requires SegmentsFit(l, MappedCount(l, Vecs(r.bios)))
    ensures SegmentsFit(l, Update(l, r, n).nr) && Low(l, Vecs(Update(l, r, n).bios))
  {
    UpdateMaps(l, r, n);
    DropLow(l, Vecs(r.bios), n);
    LowCount(l, Update(l, r, n).bios);
  }

  lemma {:induction false} DropLow(l: Limits, vs: seq<Vec>, n: nat)
    requires Low(l, vs)
    ensures Low(l, DropVecs(vs, n))
  {
    if vs != [] && n >= vs[0].len {
      assert forall i :: 0 <= i < |vs[1..]| ==> vs[1..][i] == vs[i + 1];
      DropLow(l, vs[1..], n - vs[0].len);
    }
  }

  ghost predicate AllHigh(l: Limits, vs: seq<Vec>) { forall i :: 0 <= i < |vs| ==> High(l, vs[i]) }

  lemma {:induction false} HighRecalc(l: Limits, vs: seq<Vec>, n: nat)
    requires n <= |vs| && AllHigh(l, vs)
    ensures Count(Recalc(l, vs, n), n) == n
  {
    if n > 0 {
      HighRecalc(l, vs, n - 1);
      Snoc(l, vs, Recalc(l, vs, n - 1), true);
    }
  }

  lemma {:induction false} DropHigh(l: Limits, vs: seq<Vec>, n: nat)
    requires AllHigh(l, vs)
    ensures AllHigh(l, DropVecs(vs, n))
  {
    if vs != [] && n >= vs[0].len {
      assert forall i :: 0 <= i < |vs[1..]| ==> vs[1..][i] == vs[i + 1];
      DropHigh(l, vs[1..], n - vs[0].len);
    }
  }

  /** Where every page is high, it counts each vector, so it keeps the limits just when there are few enough of them. */
  lemma HighRecount(l: Limits, r: Rq, n: nat)
    requires Cuttable(l) && WellFormedRq(r) && AllHigh(l, Vecs(r.bios)) && Update(l, r, n).bios != []
    ensures Update(l, r, n).nr == |Vecs(Update(l, r, n).bios)|
  {
    UpdateMaps(l, r, n);
    DropHigh(l, Vecs(r.bios), n);
    var vs := Vecs(Update(l, r, n).bios);
    HighRecalc(l, vs, |vs|);
  }
}
