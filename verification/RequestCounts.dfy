/** The segment counters of a request describe a valid partition of its vectors, whatever was merged. */
module RequestCounts {
  import opened Segments
  import opened RequestChain

  // ----- chains -----

  lemma {:induction false} VecsPrefix(a: seq<Bio>, b: seq<Bio>, n: nat)
    requires n <= |a| && n <= |b| && forall i :: 0 <= i < n ==> a[i].vecs == b[i].vecs
    ensures VecsTo(a, n) == VecsTo(b, n)
  {
    if n > 0 {
      VecsPrefix(a, b, n - 1);
    }
  }

  lemma {:induction false} VecsAppendTo(a: seq<Bio>, b: seq<Bio>, n: nat)
    requires n <= |b|
    ensures VecsTo(a + b, |a| + n) == Vecs(a) + VecsTo(b, n)
  {
    if n == 0 {
      VecsPrefix(a, a + b, |a|);
    } else {
      VecsAppendTo(a, b, n - 1);
    }
  }

  lemma VecsAppend(a: seq<Bio>, b: seq<Bio>)
    ensures Vecs(a + b) == Vecs(a) + Vecs(b)
  {
    VecsAppendTo(a, b, |b|);
  }

  lemma VecsOne(b: Bio)
    ensures Vecs([b]) == b.vecs
  {
    assert VecsTo([b], 1) == VecsTo([b], 0) + b.vecs;
  }

  /** The bios differ only in their counters and flags. */
  ghost predicate SameData(a: seq<Bio>, b: seq<Bio>) {
    |a| == |b| &&
    var holds := forall i :: 0 <= i < |a| ==> SameBio(a[i], b[i]);
    holds
  }

  ghost predicate SameBio(a: Bio, b: Bio) {
    a.sector == b.sector && a.size == b.size && a.vecs == b.vecs
  }

  lemma SameVecs(a: seq<Bio>, b: seq<Bio>)
    requires SameData(a, b)
    ensures Vecs(a) == Vecs(b)
  {
    forall i | 0 <= i < |a| ensures a[i].vecs == b[i].vecs {
      assert SameBio(a[i], b[i]);
    }
    VecsPrefix(a, b, |a|);
  }

  lemma SameAllData(a: seq<Bio>, b: seq<Bio>)
    requires SameData(a, b) && AllData(a)
    ensures AllData(b)
  {
    forall i | 0 <= i < |b| ensures b[i].vecs != [] {
      assert a[i].vecs != [];
    }
  }

  lemma VecsFirst(bios: seq<Bio>)
    requires bios != []
    ensures Vecs(bios) == bios[0].vecs + Vecs(bios[1..])
  {
    assert bios == [bios[0]] + bios[1..];
    VecsAppend([bios[0]], bios[1..]);
    VecsOne(bios[0]);
  }

  lemma VecsEnds(bios: seq<Bio>)
    requires bios != [] && AllData(bios)
    ensures Vecs(bios) != []
    ensures var b := bios[0]; Vecs(bios)[0] == b.vecs[0]
    ensures var b := bios[|bios| - 1]; Vecs(bios)[|Vecs(bios)| - 1] == b.vecs[|b.vecs| - 1]
  {
    var n := |bios| - 1;
    assert bios[n].vecs != [] && bios[0].vecs != [];
    assert Vecs(bios) == VecsTo(bios, n) + bios[n].vecs;
    VecsFirst(bios);
  }

  // ----- recounting -----

  lemma RecountedSame(l: Limits, bios: seq<Bio>)
    requires bios != []
    ensures SameData(bios, Recounted(l, bios))
  {
  }

  lemma RecountIsCounted(l: Limits, bios: seq<Bio>)
    requires bios != []
    ensures Counted(l, Recounted(l, bios), SegmentCount(l, bios))
  {
    var vs, bios1 := Vecs(bios), Recounted(l, bios);
    var c := Recalc(l, vs, |vs|);
    RecountedSame(l, bios);
    SameVecs(bios, bios1);
    RecalcCut(l, vs);
    CutRaise(l, vs, Count(c, |vs|), First(vs, c, |vs|), Last(vs, c, |vs|), bios1[0].front, bios1[|bios| - 1].back);
  }

  /** Larger recorded sizes keep the promise. */
  lemma CountedRaise(l: Limits, a: seq<Bio>, b: seq<Bio>, nr: int)
    requires Counted(l, a, nr) && SameData(a, b)
    requires a[0].front <= b[0].front && a[|a| - 1].back <= b[|b| - 1].back
    ensures Counted(l, b, nr)
  {
    SameVecs(a, b);
    CutRaise(l, Vecs(a), nr, a[0].front, a[|a| - 1].back, b[0].front, b[|b| - 1].back);
  }

  /** The same data, with sizes recorded that are no smaller. */
  ghost predicate Raised(b: Bio, b1: Bio) { SameBio(b, b1) && b.front <= b1.front && b.back <= b1.back }

  lemma SettledRaises(l: Limits, b: Bio)
    ensures Raised(b, Settled(l, b)) && Settled(l, b).valid
  {
  }

  lemma SettledCounted(l: Limits, b: Bio)
    requires Submittable(l, b)
    ensures Counted(l, [Settled(l, b)], Settled(l, b).phys)
  {
    if !b.valid {
      RecountIsCounted(l, [b]);
      CountedRaise(l, Recounted(l, [b]), [Settled(l, b)], SegmentCount(l, [b]));
    }
  }

  // ----- merging -----

  /** Two counted chains, one behind the other, with nothing joined. */
  lemma CountedAppend(l: Limits, a: seq<Bio>, n: int, b: seq<Bio>, m: int)
    requires AllData(a) && AllData(b) && Counted(l, a, n) && Counted(l, b, m)
    ensures Counted(l, a + b, n + m)
  {
    VecsAppend(a, b);
    VecsEnds(a);
    VecsEnds(b);
    CutAppend(l, Vecs(a), n, a[0].front, a[|a| - 1].back, Vecs(b), m, b[0].front, b[|b| - 1].back);
  }

  lemma CountedUpdate(l: Limits, bios: seq<Bio>, i: nat, nr: int, b1: Bio)
    requires i < |bios| && Counted(l, bios, nr) && AllData(bios) && Raised(bios[i], b1)
    ensures Counted(l, bios[i := b1], nr) && AllData(bios[i := b1])
  {
    SameAllData(bios, bios[i := b1]);
    CountedRaise(l, bios, bios[i := b1], nr);
  }

  /** The joint run is no larger than the recorded sizes it is made of. */
  lemma CountedJoin(l: Limits, a: seq<Bio>, n: int, b: seq<Bio>, m: int, a1: seq<Bio>, b1: seq<Bio>)
    requires AllData(a) && AllData(b) && Counted(l, a, n) && Counted(l, b, m)
    requires PhysContig(l, a[|a| - 1], b[0]) && SameData(a, a1) && SameData(b, b1)
    requires a1[0].front == (if n == 1 then a[|a| - 1].back + b[0].front else a[0].front)
    requires b1[|b| - 1].back == (if m == 1 then a[|a| - 1].back + b[0].front else b[|b| - 1].back)
    ensures Counted(l, a1 + b1, n + m - 1)
  {
    VecsEnds(a);
    VecsEnds(b);
    assert a[|a| - 1].vecs != [];
    CutJoin(l, Vecs(a), n, a[0].front, a[|a| - 1].back, Vecs(b), m, b[0].front, b[|b| - 1].back);
    SameVecs(a, a1);
    SameVecs(b, b1);
    VecsAppend(a1, b1);
  }

  /** A refused merge records the joint size all the same; it is still no less than the run it bounds. */
  lemma CountedFront(l: Limits, a: seq<Bio>, n: int, size: nat)
    requires Counted(l, a, n) && (n == 1 ==> a[|a| - 1].back <= size)
    ensures Counted(l, FrontRecorded(a, n, size), n)
  {
    if n == 1 {
      SameVecs(a, FrontRecorded(a, n, size));
      CutOne(l, Vecs(a), a[0].front, a[|a| - 1].back, size);
    }
  }

  lemma CountedBack(l: Limits, a: seq<Bio>, n: int, size: nat)
    requires Counted(l, a, n) && (n == 1 ==> a[0].front <= size)
    ensures Counted(l, BackRecorded(a, n, size), n)
  {
    if n == 1 {
      SameVecs(a, BackRecorded(a, n, size));
      CutOne(l, Vecs(a), a[0].front, a[|a| - 1].back, size);
    }
  }

  // ----- the promise as the merge code needs it -----

  type Promise = (seq<Bio>, int) -> bool

  ghost function SoundFor(l: Limits): Promise { (bios, nr) => SoundChain(l, bios, nr) }

  ghost function SubmittableFor(l: Limits): Bio -> bool { b => Submittable(l, b) }

  lemma SettledSound(l: Limits, b: Bio)
    requires Submittable(l, b)
    ensures SoundFor(l)([Settled(l, b)], Settled(l, b).phys) && SubmittableFor(l)(Settled(l, b))
  {
    SettledRaises(l, b);
    SettledCounted(l, b);
    SameAllData([b], [Settled(l, b)]);
  }

  lemma UpdateSound(l: Limits, bios: seq<Bio>, nr: int, i: nat)
    requires i < |bios| && SoundChain(l, bios, nr)
    ensures SoundFor(l)(bios[i := Settled(l, bios[i])], nr)
  {
    SettledRaises(l, bios[i]);
    CountedUpdate(l, bios, i, nr, Settled(l, bios[i]));
  }

  lemma AppendSound(l: Limits, a: seq<Bio>, n: int, b: seq<Bio>, m: int)
    requires SoundChain(l, a, n) && SoundChain(l, b, m)
    ensures SoundFor(l)(a + b, n + m)
  {
    CountedAppend(l, a, n, b, m);
  }

  lemma FrontSound(l: Limits, a: seq<Bio>, n: int, size: nat)
    requires SoundChain(l, a, n) && a[|a| - 1].back <= size
    ensures SoundFor(l)(FrontRecorded(a, n, size), n)
  {
    SameAllData(a, FrontRecorded(a, n, size));
    CountedFront(l, a, n, size);
  }

  lemma BackSound(l: Limits, b: seq<Bio>, m: int, size: nat)
    requires SoundChain(l, b, m) && b[0].front <= size
    ensures SoundFor(l)(BackRecorded(b, m, size), m)
  {
    SameAllData(b, BackRecorded(b, m, size));
    CountedBack(l, b, m, size);
  }

  lemma RecordedSame(a: seq<Bio>, n: int, size: nat)
    requires a != []
    ensures SameData(a, FrontRecorded(a, n, size)) && SameData(a, BackRecorded(a, n, size))
  {
  }

  lemma JoinSoundAs(l: Limits, a: seq<Bio>, n: int, b: seq<Bio>, m: int, a1: seq<Bio>, b1: seq<Bio>)
    requires SoundChain(l, a, n) && SoundChain(l, b, m)
    requires PhysContig(l, a[|a| - 1], b[0]) && SameData(a, a1) && SameData(b, b1)
    requires a1[0].front == (if n == 1 then a[|a| - 1].back + b[0].front else a[0].front)
    requires b1[|b| - 1].back == (if m == 1 then a[|a| - 1].back + b[0].front else b[|b| - 1].back)
    ensures SoundFor(l)(a1 + b1, n + m - 1)
  {
    SameAllData(a, a1);
    SameAllData(b, b1);
    CountedJoin(l, a, n, b, m, a1, b1);
  }

  lemma JoinSound(l: Limits, a: seq<Bio>, n: int, b: seq<Bio>, m: int)
    requires SoundChain(l, a, n) && SoundChain(l, b, m) && PhysContig(l, a[|a| - 1], b[0])
    ensures SoundFor(l)(Joint(a, n, b, m), n + m - 1)
  {
    var size := a[|a| - 1].back + b[0].front;
    RecordedSame(a, n, size);
    RecordedSame(b, m, size);
    JoinSoundAs(l, a, n, b, m, FrontRecorded(a, n, size), BackRecorded(b, m, size));
  }

  lemma RecountSound(l: Limits, bios: seq<Bio>)
    requires bios != [] && AllData(bios)
    ensures SoundFor(l)(Recounted(l, bios), SegmentCount(l, bios))
  {
    RecountedSame(l, bios);
    SameAllData(bios, Recounted(l, bios));
    RecountIsCounted(l, bios);
  }

  // What the merge code relies on, of any promise `good` about chains and their counts.

  ghost predicate HasData(good: Promise) {
    forall bios: seq<Bio>, n: int :: good(bios, n) ==> bios != [] && AllData(bios)
  }

  ghost predicate KeptBySettling(l: Limits, good: Promise, ok: Bio -> bool) {
    && (forall b: Bio {:trigger Settled(l, b)} ::
          ok(b) ==> good([Settled(l, b)], Settled(l, b).phys) && ok(Settled(l, b)))
    && (forall bios: seq<Bio>, n: int, i: nat {:trigger good(bios, n), bios[i := Settled(l, bios[i])]} ::
          i < |bios| && good(bios, n) ==> good(bios[i := Settled(l, bios[i])], n))
  }

  ghost predicate KeptByAppending(good: Promise) {
    forall a: seq<Bio>, n: int, b: seq<Bio>, m: int {:trigger good(a, n), good(b, m), a + b} ::
      good(a, n) && good(b, m) ==> good(a + b, n + m)
  }

  ghost predicate KeptByRecording(good: Promise) {
    && (forall a: seq<Bio>, n: int, size: nat {:trigger FrontRecorded(a, n, size)} ::
          a != [] && good(a, n) && a[|a| - 1].back <= size ==> good(FrontRecorded(a, n, size), n))
    && (forall b: seq<Bio>, m: int, size: nat {:trigger BackRecorded(b, m, size)} ::
          b != [] && good(b, m) && b[0].front <= size ==> good(BackRecorded(b, m, size), m))
  }

  ghost predicate JoinReady(l: Limits, good: Promise, a: seq<Bio>, n: int, b: seq<Bio>, m: int) {
    a != [] && b != [] && good(a, n) && good(b, m) && PhysContig(l, a[|a| - 1], b[0])
  }

  function Joint(a: seq<Bio>, n: int, b: seq<Bio>, m: int): seq<Bio>
    requires a != [] && b != []
  {
    var size := a[|a| - 1].back + b[0].front;
    FrontRecorded(a, n, size) + BackRecorded(b, m, size)
  }

  ghost predicate KeptByJoining(l: Limits, good: Promise) {
    forall a: seq<Bio>, n: int, b: seq<Bio>, m: int :: JoinReady(l, good, a, n, b, m) ==>
      good(Joint(a, n, b, m), n + m - 1)
  }

  ghost predicate KeptByRecount(l: Limits, good: Promise) {
    forall bios: seq<Bio> {:trigger Recounted(l, bios)} ::
      bios != [] && AllData(bios) ==> good(Recounted(l, bios), SegmentCount(l, bios))
  }

  ghost predicate Kept(l: Limits, good: Promise, ok: Bio -> bool) {
    var holds :=
      && HasData(good) && KeptBySettling(l, good, ok) && KeptByAppending(good)
      && KeptByRecording(good) && KeptByJoining(l, good) && KeptByRecount(l, good);
    holds
  }

  lemma SettlingKeeps(l: Limits)
    ensures KeptBySettling(l, SoundFor(l), SubmittableFor(l))
  {
    var good, ok := SoundFor(l), SubmittableFor(l);
    forall b: Bio | ok(b) ensures good([Settled(l, b)], Settled(l, b).phys) && ok(Settled(l, b)) { SettledSound(l, b); }
    forall bios: seq<Bio>, n: int, i: nat | i < |bios| && good(bios, n)
      ensures good(bios[i := Settled(l, bios[i])], n)
    {
      UpdateSound(l, bios, n, i);
    }
  }

  lemma AppendingKeeps(l: Limits)
    ensures KeptByAppending(SoundFor(l))
  {
    var good := SoundFor(l);
    forall a: seq<Bio>, n: int, b: seq<Bio>, m: int | good(a, n) && good(b, m) ensures good(a + b, n + m) {
      AppendSound(l, a, n, b, m);
    }
  }

  lemma RecordingKeeps(l: Limits)
    ensures KeptByRecording(SoundFor(l))
  {
    var good := SoundFor(l);
    forall a: seq<Bio>, n: int, size: nat | a != [] && good(a, n) && a[|a| - 1].back <= size
      ensures good(FrontRecorded(a, n, size), n)
    {
      FrontSound(l, a, n, size);
    }
    forall b: seq<Bio>, m: int, size: nat | b != [] && good(b, m) && b[0].front <= size
      ensures good(BackRecorded(b, m, size), m)
    {
      BackSound(l, b, m, size);
    }
  }

  lemma JoiningKeeps(l: Limits)
    ensures KeptByJoining(l, SoundFor(l))
  {
    var good := SoundFor(l);
    forall a: seq<Bio>, n: int, b: seq<Bio>, m: int | JoinReady(l, good, a, n, b, m)
      ensures good(Joint(a, n, b, m), n + m - 1)
    {
      JoinSound(l, a, n, b, m);
    }
  }

  lemma RecountKeeps(l: Limits)
    ensures KeptByRecount(l, SoundFor(l)) && HasData(SoundFor(l))
  {
    forall bios: seq<Bio> | bios != [] && AllData(bios) ensures SoundFor(l)(Recounted(l, bios), SegmentCount(l, bios)) {
      RecountSound(l, bios);
    }
  }

  lemma SoundIsKept(l: Limits)
    ensures Kept(l, SoundFor(l), SubmittableFor(l))
  {
    SettlingKeeps(l);
    AppendingKeeps(l);
    RecordingKeeps(l);
    JoiningKeeps(l);
    RecountKeeps(l);
  }

  // ----- merging keeps any such promise -----

  /** What a merge leaves behind is one of three chains. */
  lemma BackMergeCases(l: Limits, r: Rq, b: Bio, tail: Bio, b1: Bio, good: Promise)
    requires r.bios != []
    requires var bios := r.bios[|r.bios| - 1 := tail];
      good(r.bios, r.nr) && good(bios, r.nr) && good(bios + [b1], r.nr + b1.phys)
    ensures var m := BackMergeSettled(l, r, b, tail, b1); good(m.rq.bios, m.rq.nr) && (m.bio == b || m.bio == b1)
  {
  }

  lemma FrontMergeCases(l: Limits, r: Rq, b: Bio, head: Bio, b1: Bio, good: Promise)
    requires r.bios != []
    requires var bios := r.bios[0 := head];
      good(r.bios, r.nr) && good(bios, r.nr) && good([b1] + bios, b1.phys + r.nr)
    ensures var m := FrontMergeSettled(l, r, b, head, b1); good(m.rq.bios, m.rq.nr) && (m.bio == b || m.bio == b1)
  {
  }

  lemma SettledOne(l: Limits, good: Promise, ok: Bio -> bool, b: Bio)
    requires KeptBySettling(l, good, ok) && ok(b)
    ensures good([Settled(l, b)], Settled(l, b).phys) && ok(Settled(l, b))
  {
  }

  lemma SettledAt(l: Limits, good: Promise, ok: Bio -> bool, bios: seq<Bio>, n: int, i: nat)
    requires KeptBySettling(l, good, ok) && i < |bios| && good(bios, n)
    ensures good(bios[i := Settled(l, bios[i])], n)
  {
  }

  lemma Appended(good: Promise, a: seq<Bio>, n: int, b: seq<Bio>, m: int)
    requires KeptByAppending(good) && good(a, n) && good(b, m)
    ensures good(a + b, n + m)
  {
  }

  lemma BackMergeKeeps(l: Limits, good: Promise, ok: Bio -> bool, r: Rq, b: Bio)
    requires KeptBySettling(l, good, ok) && KeptByAppending(good) && r.bios != [] && good(r.bios, r.nr) && ok(b)
    ensures var m := BackMerge(l, r, b); good(m.rq.bios, m.rq.nr) && ok(m.bio)
  {
    var tail, b1 := Settled(l, r.bios[|r.bios| - 1]), Settled(l, b);
    SettledOne(l, good, ok, b);
    SettledAt(l, good, ok, r.bios, r.nr, |r.bios| - 1);
    Appended(good, r.bios[|r.bios| - 1 := tail], r.nr, [b1], b1.phys);
    BackMergeCases(l, r, b, tail, b1, good);
  }

  lemma FrontMergeKeeps(l: Limits, good: Promise, ok: Bio -> bool, r: Rq, b: Bio)
    requires KeptBySettling(l, good, ok) && KeptByAppending(good) && r.bios != [] && good(r.bios, r.nr) && ok(b)
    ensures var m := FrontMerge(l, r, b); good(m.rq.bios, m.rq.nr) && ok(m.bio)
  {
    var head, b1 := Settled(l, r.bios[0]), Settled(l, b);
    SettledOne(l, good, ok, b);
    SettledAt(l, good, ok, r.bios, r.nr, 0);
    Appended(good, [b1], b1.phys, r.bios[0 := head], r.nr);
    FrontMergeCases(l, r, b, head, b1, good);
  }

  lemma MergeRequestsCases(l: Limits, r: Rq, next: Rq, a: seq<Bio>, b: seq<Bio>, good: Promise)
    requires r.bios != [] && next.bios != [] && good(r.bios, r.nr) && good(next.bios, next.nr)
    requires var size := r.bios[|r.bios| - 1].back + next.bios[0].front;
      a == FrontRecorded(r.bios, r.nr, size) && b == BackRecorded(next.bios, next.nr, size)
    requires good(a, r.nr) && good(b, next.nr) && good(r.bios + next.bios, r.nr + next.nr)
    requires PhysContig(l, r.bios[|r.bios| - 1], next.bios[0]) ==> good(a + b, r.nr + next.nr - 1)
    ensures var m := MergeRequests(l, r, next); good(m.rq.bios, m.rq.nr) && good(m.next.bios, m.next.nr)
  {
  }

  lemma Joined(l: Limits, good: Promise, a: seq<Bio>, n: int, b: seq<Bio>, m: int)
    requires KeptByJoining(l, good) && a != [] && b != [] && good(a, n) && good(b, m) && PhysContig(l, a[|a| - 1], b[0])
    ensures good(Joint(a, n, b, m), n + m - 1)
  {
    assert JoinReady(l, good, a, n, b, m);
  }

  lemma Recorded(good: Promise, a: seq<Bio>, n: int, b: seq<Bio>, m: int)
    requires KeptByRecording(good) && a != [] && b != [] && good(a, n) && good(b, m)
    ensures var size := a[|a| - 1].back + b[0].front;
      good(FrontRecorded(a, n, size), n) && good(BackRecorded(b, m, size), m)
  {
  }

  lemma MergeRequestsKeeps(l: Limits, good: Promise, r: Rq, next: Rq)
    requires KeptByAppending(good) && KeptByRecording(good) && KeptByJoining(l, good)
    requires r.bios != [] && next.bios != [] && good(r.bios, r.nr) && good(next.bios, next.nr)
    ensures var m := MergeRequests(l, r, next); good(m.rq.bios, m.rq.nr) && good(m.next.bios, m.next.nr)
  {
    var size := r.bios[|r.bios| - 1].back + next.bios[0].front;
    Appended(good, r.bios, r.nr, next.bios, next.nr);
    Recorded(good, r.bios, r.nr, next.bios, next.nr);
    if PhysContig(l, r.bios[|r.bios| - 1], next.bios[0]) {
      Joined(l, good, r.bios, r.nr, next.bios, next.nr);
    }
    MergeRequestsCases(l, r, next, FrontRecorded(r.bios, r.nr, size), BackRecorded(next.bios, next.nr, size), good);
  }
}
