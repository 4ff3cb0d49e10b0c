/**
  Segments of a request: runs of adjacent vectors that the device may take as
  one.  A partition is a sequence of flags, one a vector, set where a run
  starts.  Functions look at the first `n` vectors.
 */
module Segments {

  /** `page` is the page frame number. */
  datatype Vec = Vec(page: nat, offset: nat, len: nat)

  /** The queue limits; `window` is the test of two neighbours against the segment boundary mask, any test at all. */
  datatype Limits = Limits(cluster: bool, maxSegmentSize: nat, maxPhysSegments: nat, maxHwSegments: nat,
                           maxSectors: nat, maxHwSectors: nat, window: (Vec, Vec) -> bool, bouncePfn: nat)

  const PAGE_SIZE := 4096

  function Phys(v: Vec): nat { v.page * PAGE_SIZE + v.offset }

  /** BIOVEC_PHYS_MERGEABLE and BIOVEC_SEG_BOUNDARY: next to each other, and in one boundary window. */
  predicate Joins(l: Limits, v: Vec, w: Vec) { Phys(v) + v.len == Phys(w) && l.window(v, w) }

  predicate High(l: Limits, v: Vec) { v.page > l.bouncePfn }

  type Cuts = seq<bool>

  /** The size of the last run. */
  function Last(vs: seq<Vec>, c: Cuts, n: nat): nat
    requires n <= |vs| && n <= |c|
  {
    if n == 0 then 0 else if c[n - 1] then vs[n - 1].len else Last(vs, c, n - 1) + vs[n - 1].len
  }

  function Count(c: Cuts, n: nat): nat
    requires n <= |c|
  {
    if n == 0 then 0 else Count(c, n - 1) + if c[n - 1] then 1 else 0
  }

  /** The size of the first run. */
  function First(vs: seq<Vec>, c: Cuts, n: nat): nat
    requires n <= |vs| && n <= |c|
  {
    if n == 0 then 0 else if Count(c, n) <= 1 then Last(vs, c, n) else First(vs, c, n - 1)
  }

  /** A run of `size` bytes that ends in `prev` may take in `v`. */
  predicate Extends(l: Limits, size: nat, prev: Vec, v: Vec) {
    l.cluster && size + v.len <= l.maxSegmentSize && Joins(l, prev, v)
  }

  /** Every run is one vector, or joins up within the size limit. */
  ghost predicate Valid(l: Limits, vs: seq<Vec>, c: Cuts, n: nat)
    requires n <= |vs| && n <= |c|
  {
    n > 0 ==> Valid(l, vs, c, n - 1) && (c[n - 1] || (n > 1 && Extends(l, Last(vs, c, n - 1), vs[n - 2], vs[n - 1])))
  }

  /** blk_rq_map_sg's partition: a vector joins the last run whenever it may. */
  function Greedy(l: Limits, vs: seq<Vec>, n: nat): (c: Cuts)
    requires n <= |vs|
    ensures |c| == n
  {
    if n == 0 then []
    else
      var c := Greedy(l, vs, n - 1);
      c + [!(n > 1 && Extends(l, Last(vs, c, n - 1), vs[n - 2], vs[n - 1]))]
  }

  /** __blk_recalc_rq_segments's partition: the same, but a high page is a segment of its own. */
  function Recalc(l: Limits, vs: seq<Vec>, n: nat): (c: Cuts)
    requires n <= |vs|
    ensures |c| == n
  {
    if n == 0 then []
    else
      var c := Recalc(l, vs, n - 1);
      c + [!(n > 1 && !High(l, vs[n - 1]) && !High(l, vs[n - 2]) &&
        Extends(l, Last(vs, c, n - 1), vs[n - 2], vs[n - 1]))]
  }

  /** The number of scatterlist entries that blk_rq_map_sg sets up. */
  function MappedCount(l: Limits, vs: seq<Vec>): nat { Count(Greedy(l, vs, |vs|), |vs|) }

  /**
    Vector `i` may be in one run with the vector before it: the queue clusters, the
    second lies directly behind the first in memory and in its boundary window, and
    the run up to there is no longer than a segment may be.
   */
  ghost predicate InOneRun(l: Limits, vs: seq<Vec>, c: Cuts, i: nat)
    requires i < |vs| && i < |c|
  {
    && i > 0 && l.cluster
    && vs[i - 1].page * 4096 + vs[i - 1].offset + vs[i - 1].len == vs[i].page * 4096 + vs[i].offset
    && l.window(vs[i - 1], vs[i])
    && Last(vs, c, i + 1) <= l.maxSegmentSize
  }

  /** A partition is valid exactly when that holds wherever it does not cut. */
  lemma {:induction false} ValidIff(l: Limits, vs: seq<Vec>, c: Cuts, n: nat)
    requires n <= |vs| && n <= |c|
    ensures Valid(l, vs, c, n) <==> forall i: nat :: i < n && !c[i] ==> InOneRun(l, vs, c, i)
  {
    if n > 0 { ValidIff(l, vs, c, n - 1); }
  }

  /** What comes later does not matter. */
  lemma {:induction false} Prefix(vs: seq<Vec>, c: Cuts, vs1: seq<Vec>, c1: Cuts, n: nat)
    requires n <= |vs| && n <= |c| && n <= |vs1| && n <= |c1|
    requires forall i :: 0 <= i < n ==> vs[i] == vs1[i] && c[i] == c1[i]
    ensures Last(vs, c, n) == Last(vs1, c1, n) && Count(c, n) == Count(c1, n) && First(vs, c, n) == First(vs1, c1, n)
  {
    if n > 0 {
      Prefix(vs, c, vs1, c1, n - 1);
    }
  }

  lemma {:induction false} PrefixValid(l: Limits, vs: seq<Vec>, c: Cuts, vs1: seq<Vec>, c1: Cuts, n: nat)
    requires n <= |vs| && n <= |c| && n <= |vs1| && n <= |c1|
    requires forall i :: 0 <= i < n ==> vs[i] == vs1[i] && c[i] == c1[i]
    ensures Valid(l, vs, c, n) <==> Valid(l, vs1, c1, n)
  {
    if n > 0 {
      PrefixValid(l, vs, c, vs1, c1, n - 1);
      Prefix(vs, c, vs1, c1, n - 1);
    }
  }

  /** One flag more. */
  lemma Snoc(l: Limits, vs: seq<Vec>, c: Cuts, b: bool)
    requires |c| < |vs|
    ensures var n, d := |c|, c + [b];
      && Last(vs, d, n + 1) == (if b then vs[n].len else Last(vs, c, n) + vs[n].len)
      && Count(d, n + 1) == Count(c, n) + (if b then 1 else 0)
      && First(vs, d, n + 1) == (if Count(d, n + 1) <= 1 then Last(vs, d, n + 1) else First(vs, c, n))
      && (Valid(l, vs, d, n + 1) <==>
          Valid(l, vs, c, n) && (b || (n > 0 && Extends(l, Last(vs, c, n), vs[n - 1], vs[n]))))
  {
    Prefix(vs, c, vs, c + [b], |c|);
    PrefixValid(l, vs, c, vs, c + [b], |c|);
  }

  lemma {:induction false} RecalcValid(l: Limits, vs: seq<Vec>, n: nat)
    requires n <= |vs|
    ensures Valid(l, vs, Recalc(l, vs, n), n)
  {
    if n > 0 {
      RecalcValid(l, vs, n - 1);
      var c := Recalc(l, vs, n - 1);
      Snoc(l, vs, c, !(n > 1 && !High(l, vs[n - 1]) && !High(l, vs[n - 2]) &&
        Extends(l, Last(vs, c, n - 1), vs[n - 2], vs[n - 1])));
    }
  }

  lemma {:induction false} GreedyValid(l: Limits, vs: seq<Vec>, n: nat)
    requires n <= |vs|
    ensures Valid(l, vs, Greedy(l, vs, n), n)
  {
    if n > 0 {
      GreedyValid(l, vs, n - 1);
      var c := Greedy(l, vs, n - 1);
      Snoc(l, vs, c, !(n > 1 && Extends(l, Last(vs, c, n - 1), vs[n - 2], vs[n - 1])));
    }
  }

  /** With no more runs than any valid partition; with as many, the last run is no longer. */
  lemma {:induction false} GreedyAhead(l: Limits, vs: seq<Vec>, c: Cuts, n: nat)
    requires n <= |vs| && n <= |c| && Valid(l, vs, c, n)
    ensures var g := Greedy(l, vs, n);
      Count(g, n) < Count(c, n) || (Count(g, n) == Count(c, n) && Last(vs, g, n) <= Last(vs, c, n))
  {
    if n > 0 {
      var g := Greedy(l, vs, n - 1);
      GreedyAhead(l, vs, c, n - 1);
      Snoc(l, vs, g, !(n > 1 && Extends(l, Last(vs, g, n - 1), vs[n - 2], vs[n - 1])));
    }
  }

  // ----- partitions as the counters of a request describe them -----

  /** `c` has `nr` runs, the first at most `front` bytes long and the last at most `back`. */
  ghost predicate Parts(l: Limits, vs: seq<Vec>, nr: int, front: nat, back: nat, c: Cuts) {
    && |c| == |vs| && Valid(l, vs, c, |c|) && Count(c, |c|) == nr
    && First(vs, c, |c|) <= front && Last(vs, c, |c|) <= back
  }

  ghost predicate Cut(l: Limits, vs: seq<Vec>, nr: int, front: nat, back: nat) {
    var holds := exists c :: Parts(l, vs, nr, front, back, c);
    holds
  }

  /** The greedy mapping is minimal among all valid partitions. */
  lemma GreedyMinimal(l: Limits, vs: seq<Vec>, nr: int, front: nat, back: nat)
    requires Cut(l, vs, nr, front, back)
    ensures MappedCount(l, vs) <= nr
  {
    var c :| Parts(l, vs, nr, front, back, c);
    GreedyAhead(l, vs, c, |vs|);
  }

  lemma CutRaise(l: Limits, vs: seq<Vec>, nr: int, front: nat, back: nat, front1: nat, back1: nat)
    requires Cut(l, vs, nr, front, back) && front <= front1 && back <= back1
    ensures Cut(l, vs, nr, front1, back1)
  {
    var c :| Parts(l, vs, nr, front, back, c);
    assert Parts(l, vs, nr, front1, back1, c);
  }

  /** Where there is one run, it is the first and the last. */
  lemma CutOne(l: Limits, vs: seq<Vec>, front: nat, back: nat, size: nat)
    requires Cut(l, vs, 1, front, back)
    ensures back <= size ==> Cut(l, vs, 1, size, back)
    ensures front <= size ==> Cut(l, vs, 1, front, size)
  {
    var c :| Parts(l, vs, 1, front, back, c);
    assert First(vs, c, |c|) == Last(vs, c, |c|);
    assert back <= size ==> Parts(l, vs, 1, size, back, c);
    assert front <= size ==> Parts(l, vs, 1, front, size, c);
  }

  lemma RecalcCut(l: Limits, vs: seq<Vec>)
    ensures var c := Recalc(l, vs, |vs|); Cut(l, vs, Count(c, |vs|), First(vs, c, |vs|), Last(vs, c, |vs|))
  {
    var c := Recalc(l, vs, |vs|);
    RecalcValid(l, vs, |vs|);
    assert Parts(l, vs, Count(c, |vs|), First(vs, c, |vs|), Last(vs, c, |vs|), c);
  }

  // ----- one chain of vectors behind another -----

  lemma {:induction false} StartsWithRun(l: Limits, vs: seq<Vec>, c: Cuts, n: nat)
    requires 0 < n <= |vs| && n <= |c| && Valid(l, vs, c, n)
    ensures c[0] && Count(c, n) >= 1
  {
    if n > 1 { StartsWithRun(l, vs, c, n - 1); }
  }

  /** The vectors us[k..] behind vs, cut as e[k..] after c. */
  lemma {:induction false} AppendAt(l: Limits, vs: seq<Vec>, c: Cuts, ws: seq<Vec>, d: Cuts, k: nat)
    requires |c| == |vs| > 0 && |d| == |ws| && 0 < k <= |d| && Valid(l, vs, c, |c|) && Valid(l, ws, d, |d|) &&
      Valid(l, ws, d, k)
    ensures var us, e, n := vs + ws, c + d, |c| + k;
      && Valid(l, us, e, n) && Count(e, n) == Count(c, |c|) + Count(d, k)
      && Last(us, e, n) == Last(ws, d, k) && First(us, e, n) == First(vs, c, |c|)
  {
    var us, e := vs + ws, c + d;
    StartsWithRun(l, vs, c, |c|);
    StartsWithRun(l, ws, d, k);
    if k == 1 {
      Prefix(vs, c, us, e, |c|);
      PrefixValid(l, vs, c, us, e, |c|);
    } else {
      AppendAt(l, vs, c, ws, d, k - 1);
    }
  }

  lemma CutAppend(l: Limits, vs: seq<Vec>, n: int, f: nat, b: nat, ws: seq<Vec>, m: int, f1: nat, b1: nat)
    requires Cut(l, vs, n, f, b) && Cut(l, ws, m, f1, b1) && vs != [] && ws != []
    ensures Cut(l, vs + ws, n + m, f, b1)
  {
    var c :| Parts(l, vs, n, f, b, c);
    var d :| Parts(l, ws, m, f1, b1, d);
    AppendAt(l, vs, c, ws, d, |d|);
    assert Parts(l, vs + ws, n + m, f, b1, c + d);
  }

  lemma {:induction false} FirstGrows(l: Limits, ws: seq<Vec>, d: Cuts, k: nat, n: nat)
    requires 0 < k <= n <= |ws| && n <= |d| && Valid(l, ws, d, k)
    ensures First(ws, d, k) <= First(ws, d, n)
  {
    StartsWithRun(l, ws, d, k);
    if k < n {
      FirstGrows(l, ws, d, k, n - 1);
      Counts(d, k, n - 1);
    }
  }

  lemma {:induction false} Counts(d: Cuts, k: nat, n: nat)
    requires k <= n <= |d|
    ensures Count(d, k) <= Count(d, n)
  {
    if k < n { Counts(d, k, n - 1); }
  }

  /** The facing runs become one; `room` is what its second part may measure. */
  lemma {:induction false} JoinAt(l: Limits, vs: seq<Vec>, c: Cuts, ws: seq<Vec>, d: Cuts, k: nat)
    requires |c| == |vs| > 0 && |d| == |ws| && 0 < k <= |d| && Valid(l, vs, c, |c|) && Valid(l, ws, d, k)
    requires l.cluster && Last(vs, c, |c|) + First(ws, d, k) <= l.maxSegmentSize && Joins(l, vs[|vs| - 1], ws[0])
    ensures var us, e, n := vs + ws, c + d[0 := false], |c| + k;
      && Valid(l, us, e, n) && Count(e, n) == Count(c, |c|) + Count(d, k) - 1
      && Last(us, e, n) == (if Count(d, k) == 1 then Last(vs, c, |c|) else 0) + Last(ws, d, k)
      && First(us, e, n) == if Count(c, |c|) == 1 then Last(vs, c, |c|) + First(ws, d, k) else First(vs, c, |c|)
  {
    var us, e := vs + ws, c + d[0 := false];
    StartsWithRun(l, vs, c, |c|);
    StartsWithRun(l, ws, d, k);
    if k == 1 {
      Prefix(vs, c, us, e, |c|);
      PrefixValid(l, vs, c, us, e, |c|);
    } else {
      FirstGrows(l, ws, d, k - 1, k);
      StartsWithRun(l, ws, d, k - 1);
      JoinAt(l, vs, c, ws, d, k - 1);
    }
  }

  lemma CutJoin(l: Limits, vs: seq<Vec>, n: int, f: nat, b: nat, ws: seq<Vec>, m: int, f1: nat, b1: nat)
    requires Cut(l, vs, n, f, b) && Cut(l, ws, m, f1, b1) && vs != [] && ws != []
    requires l.cluster && b + f1 <= l.maxSegmentSize && Joins(l, vs[|vs| - 1], ws[0])
    ensures Cut(l, vs + ws, n + m - 1, if n == 1 then b + f1 else f, if m == 1 then b + f1 else b1)
  {
    var c :| Parts(l, vs, n, f, b, c);
    var d :| Parts(l, ws, m, f1, b1, d);
    JoinAt(l, vs, c, ws, d, |d|);
    assert m == 1 ==> First(ws, d, |d|) == Last(ws, d, |d|);
    assert Parts(l, vs + ws, n + m - 1, if n == 1 then b + f1 else f, if m == 1 then b + f1 else b1, c + d[0 := false]);
  }
}
