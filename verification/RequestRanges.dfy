/** Each waiting request covers one ascending range of sectors, whatever merges it went through. */
module RequestRanges {
  import opened Segments
  import opened RequestChain
  import opened RequestCounts
  import opened RequestCompletion
  import opened MergeHash

  /** The bios lie end to end from sector `lo` to sector `hi`. */
  ghost predicate Covers(bios: seq<Bio>, lo: int, hi: int) {
    if bios == [] then lo == hi
    else bios[0].sector == lo && bios[0].size % 512 == 0 && Covers(bios[1..], lo + bios[0].size / 512, hi)
  }

  /** A request with data that covers the range its sector and length say. */
  ghost predicate Ranged(r: Rq) { r.bios != [] && WellFormedRq(r) && Covers(r.bios, r.sector, End(r)) }

  lemma {:induction false} CoversAppend(a: seq<Bio>, b: seq<Bio>, lo: int, mid: int, hi: int)
    requires Covers(a, lo, mid) && Covers(b, mid, hi)
    ensures Covers(a + b, lo, hi) && Sizes(a + b) == Sizes(a) + Sizes(b)
  {
    if a == [] {
      assert a + b == b;
    } else {
      assert (a + b)[1..] == a[1..] + b;
      CoversAppend(a[1..], b, lo + a[0].size / 512, mid, hi);
    }
  }

  lemma {:induction false} CoversSize(bios: seq<Bio>, lo: int, hi: int)
    requires Covers(bios, lo, hi)
    ensures Sizes(bios) == 512 * (hi - lo) && WholeSectors(bios)
  {
    if bios != [] {
      CoversSize(bios[1..], lo + bios[0].size / 512, hi);
      forall i | 0 <= i < |bios| ensures bios[i].size % 512 == 0 {
        assert i > 0 ==> bios[i] == bios[1..][i - 1];
      }
    }
  }

  lemma {:induction false} CoversSame(a: seq<Bio>, b: seq<Bio>, lo: int, hi: int)
    requires Covers(a, lo, hi) && SameRest(a, b, true)
    ensures Covers(b, lo, hi)
  {
    if a != [] {
      assert SameBioRest(a[0], b[0], true);
      CoversSame(a[1..], b[1..], lo + a[0].size / 512, hi);
    }
  }

  lemma RangedSame(r: Rq, r1: Rq)
    requires Ranged(r) && SameRest(r.bios, r1.bios, true) && r1.sector == r.sector && r1.dataLen == r.dataLen
    ensures Ranged(r1)
  {
    SameSizes(r.bios, r1.bios, true);
    SameWellFormed(r.bios, r1.bios, true);
    CoversSame(r.bios, r1.bios, r.sector, End(r));
  }

  /** A request made of two neighbours. */
  lemma RangedAppend(r: Rq, r1: Rq, joint: Rq)
    requires Ranged(r) && Ranged(r1) && End(r) == r1.sector
    requires joint.bios == r.bios + r1.bios && joint.sector == r.sector && joint.dataLen == r.dataLen + r1.dataLen
    ensures Ranged(joint) && End(joint) == End(r1)
  {
    CoversSize(r.bios, r.sector, End(r));
    CoversSize(r1.bios, r1.sector, End(r1));
    CoversAppend(r.bios, r1.bios, r.sector, r1.sector, End(r1));
  }

  /** A bio of whole sectors, alone. */
  function Alone(b: Bio): Rq { Rq(Fs, b.sector, b.size, [b], 0, false, false) }

  ghost predicate Whole(b: Bio) { WellFormed(b) && b.size % 512 == 0 }

  lemma AloneRanged(b: Bio)
    requires Whole(b)
    ensures Ranged(Alone(b))
  {
    var bios := Alone(b).bios;
    assert bios[1..] == [];
    assert Sizes(bios) == b.size + Sizes(bios[1..]);
    assert AllWellFormed(bios);
    assert Covers(bios[1..], b.sector + b.size / 512, End(Alone(b)));
  }

  lemma SameWhole(b: Bio, b1: Bio)
    requires Raised(b, b1) && Whole(b)
    ensures Whole(b1) && Alone(b1).sector == b.sector && End(Alone(b1)) == End(Alone(b))
  {
  }

  lemma BackMergeRanged(l: Limits, r: Rq, b: Bio, tail: Bio, b1: Bio)
    requires Ranged(r) && Whole(b) && b.sector == End(r) && Raised(r.bios[|r.bios| - 1], tail) && Raised(b, b1)
    ensures var m := BackMergeSettled(l, r, b, tail, b1);
      Ranged(m.rq) && End(m.rq) == if m.ok then End(r) + b.size / 512 else End(r)
  {
    var r1 := r.(bios := r.bios[|r.bios| - 1 := tail]);
    var joint := r1.(bios := r1.bios + [b1], dataLen := r.dataLen + b.size);
    SameWhole(b, b1);
    AloneRanged(b1);
    RangedSame(r, r1);
    RangedAppend(r1, Alone(b1), joint);
    RangedView(joint, BackMergeSettled(l, r, b, tail, b1).rq);
    RangedView(r, BackMergeSettled(l, r, b, tail, b1).rq);
    RangedView(r1, BackMergeSettled(l, r, b, tail, b1).rq);
  }

  lemma RangedView(r: Rq, r1: Rq)
    requires Ranged(r)
    ensures r1.bios == r.bios && r1.sector == r.sector && r1.dataLen == r.dataLen ==> Ranged(r1)
  {
  }

  lemma FrontMergeRanged(l: Limits, r: Rq, b: Bio, head: Bio, b1: Bio)
    requires Ranged(r) && Whole(b) && b.sector + b.size / 512 == r.sector && Raised(r.bios[0], head) && Raised(b, b1)
    ensures var m := FrontMergeSettled(l, r, b, head, b1); Ranged(m.rq) && End(m.rq) == End(r)
  {
    var r1 := r.(bios := r.bios[0 := head]);
    var joint := r1.(bios := [b1] + r1.bios, dataLen := b.size + r.dataLen, sector := b.sector);
    SameWhole(b, b1);
    AloneRanged(b1);
    RangedSame(r, r1);
    RangedAppend(Alone(b1), r1, joint);
    RangedView(joint, FrontMergeSettled(l, r, b, head, b1).rq);
    RangedView(r, FrontMergeSettled(l, r, b, head, b1).rq);
    RangedView(r1, FrontMergeSettled(l, r, b, head, b1).rq);
  }

  /** What merging two requests leaves behind, whatever is promised of chains and ranges. */
  lemma MergeRequestsViews(l: Limits, r: Rq, next: Rq, a: seq<Bio>, b: seq<Bio>, good: (seq<Bio>, int, int) -> bool)
    requires r.bios != [] && next.bios != []
    requires var size := r.bios[|r.bios| - 1].back + next.bios[0].front;
      a == FrontRecorded(r.bios, r.nr, size) && b == BackRecorded(next.bios, next.nr, size)
    requires good(r.bios, r.sector, r.dataLen) && good(a, r.sector, r.dataLen)
    requires good(next.bios, next.sector, next.dataLen) && good(b, next.sector, next.dataLen)
    requires good(r.bios + next.bios, r.sector, r.dataLen + next.dataLen) &&
      good(a + b, r.sector, r.dataLen + next.dataLen)
    ensures var m := MergeRequests(l, r, next);
      && good(m.rq.bios, m.rq.sector, m.rq.dataLen) && good(m.next.bios, m.next.sector, m.next.dataLen)
      && m.rq.sector == r.sector && m.next.sector == next.sector && m.next.dataLen == next.dataLen
      && m.rq.dataLen == r.dataLen + if m.ok then next.dataLen else 0
  {
  }

  ghost function RangedFor(): (seq<Bio>, int, int) -> bool {
    (bios, sector, dataLen) => Ranged(Rq(Fs, sector, dataLen, bios, 0, false, false))
  }

  lemma RangedIs(r: Rq)
    ensures RangedFor()(r.bios, r.sector, r.dataLen) <==> Ranged(r)
  {
  }

  lemma MergeParts(r: Rq, next: Rq, size: nat)
    requires Ranged(r) && Ranged(next) && End(r) == next.sector
    ensures var a, b, good := FrontRecorded(r.bios, r.nr, size), BackRecorded(next.bios, next.nr, size), RangedFor();
      && good(a, r.sector, r.dataLen) && good(b, next.sector, next.dataLen)
      && good(r.bios + next.bios, r.sector, r.dataLen + next.dataLen) && good(a + b, r.sector, r.dataLen + next.dataLen)
      && (r.dataLen + next.dataLen) / 512 == Sectors(r) + Sectors(next)
  {
    var r1, r2 := r.(bios := FrontRecorded(r.bios, r.nr, size)), next.(bios := BackRecorded(next.bios, next.nr, size));
    var joint := r.(bios := r.bios + next.bios, dataLen := r.dataLen + next.dataLen);
    var joint1 := joint.(bios := r1.bios + r2.bios);
    RangedSame(r, r1);
    RangedSame(next, r2);
    RangedAppend(r, next, joint);
    RangedAppend(r1, r2, joint1);
    RangedIs(r1);
    RangedIs(r2);
    RangedIs(joint);
    RangedIs(joint1);
  }

  lemma MergeRequestsRanged(l: Limits, r: Rq, next: Rq)
    requires Ranged(r) && Ranged(next) && End(r) == next.sector
    ensures var m := MergeRequests(l, r, next);
      && Ranged(m.rq) && Ranged(m.next) && End(m.next) == End(next)
      && End(m.rq) == if m.ok then End(next) else End(r)
  {
    var m := MergeRequests(l, r, next);
    var size := r.bios[|r.bios| - 1].back + next.bios[0].front;
    RangedIs(r);
    RangedIs(next);
    MergeParts(r, next, size);
    MergeRequestsViews(l, r, next, FrontRecorded(r.bios, r.nr, size), BackRecorded(next.bios, next.nr, size),
      RangedFor());
    RangedIs(m.rq);
    RangedIs(m.next);
  }

  /** Partial completion in whole sectors moves the start of the range and nothing else. */
  lemma UpdateRanged(l: Limits, r: Rq, n: nat)
    requires Ranged(r) && n % 512 == 0 && n < r.dataLen && (r.kind.Fs? || r.kind.Discard?)
    ensures var r1 := Update(l, r, n); Ranged(r1) && r1.sector == r.sector + n / 512 && End(r1) == End(r)
  {
    var r1 := Update(l, r, n);
    UpdateLength(l, r, n);
    CoversSize(r.bios, r.sector, End(r));
    CoversDrop(r.bios, r.sector, End(r), n);
    UpdateRest(l, r, n);
    CoversSame(Drop(r.bios, n), r1.bios, r.sector + n / 512, End(r));
  }

  lemma {:induction false} CoversDrop(bios: seq<Bio>, lo: int, hi: int, n: nat)
    requires AllWellFormed(bios) && Covers(bios, lo, hi) && n % 512 == 0 && n <= Sizes(bios)
    ensures Covers(Drop(bios, n), lo + n / 512, hi)
  {
    if bios != [] {
      var b := bios[0];
      if n >= b.size {
        WholeRest(n, b.size);
        CoversDrop(bios[1..], lo + b.size / 512, hi, n - b.size);
      } else {
        assert ([DropBio(b, n)] + bios[1..])[1..] == bios[1..];
      }
    }
  }
}
