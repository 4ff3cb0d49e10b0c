/**
  Requests as chains of bios, and what merging and recounting do to them.
  Sizes and counts are unbounded integers; `sector` counts units of 512 bytes.
 */
module RequestChain {
  import opened Segments

  /**
    `vecs` are the vectors from bi_idx on, those still to be transferred.
    `valid` is BIO_SEG_VALID, `phys` bi_phys_segments.
   */
  datatype Bio = Bio(sector: int, size: nat, vecs: seq<Vec>, front: nat, back: nat, phys: nat, valid: bool)

  datatype Kind = Fs | Pc | Discard | Other

  /** `nomerge`: any of RQ_NOMERGE_FLAGS.  `nr`: nr_phys_segments. */
  datatype Rq = Rq(kind: Kind, sector: int, dataLen: int, bios: seq<Bio>, nr: int, nomerge: bool, special: bool)

  function VecsTo(bios: seq<Bio>, n: nat): seq<Vec>
    requires n <= |bios|
  {
    if n == 0 then [] else VecsTo(bios, n - 1) + bios[n - 1].vecs
  }

  /** All vectors of a chain, in order. */
  function Vecs(bios: seq<Bio>): seq<Vec> { VecsTo(bios, |bios|) }

  function Max(a: nat, b: nat): nat { if a < b then b else a }

  /** Every bio carries data. */
  ghost predicate AllData(bios: seq<Bio>) {
    var holds := forall i :: 0 <= i < |bios| ==> bios[i].vecs != [];
    holds
  }

  // ----- __blk_recalc_rq_segments -----

  function RaiseFront(bios: seq<Bio>, size: nat): seq<Bio>
    requires bios != []
  {
    bios[0 := bios[0].(front := Max(bios[0].front, size))]
  }

  function RaiseBack(bios: seq<Bio>, size: nat): seq<Bio>
    requires bios != []
  {
    var n := |bios| - 1;
    bios[n := bios[n].(back := Max(bios[n].back, size))]
  }

  /** The bios after a recount; the count itself is the number of runs of `Recalc`. */
  function Recounted(l: Limits, bios: seq<Bio>): seq<Bio> {
    if bios == [] then []
    else
      var vs := Vecs(bios);
      var c := Recalc(l, vs, |vs|);
      RaiseBack(RaiseFront(bios, First(vs, c, |vs|)), Last(vs, c, |vs|))
  }

  function SegmentCount(l: Limits, bios: seq<Bio>): nat {
    var vs := Vecs(bios);
    Count(Recalc(l, vs, |vs|), |vs|)
  }

  /** blk_recount_segments */
  function RecountBio(l: Limits, b: Bio): Bio {
    Recounted(l, [b])[0].(phys := SegmentCount(l, [b]), valid := true)
  }

  /** bio_phys_segments: `phys` of the result is the answer. */
  function Settled(l: Limits, b: Bio): Bio { if b.valid then b else RecountBio(l, b) }

  // ----- what the counters promise -----

  /** Some partition has as many runs as counted, and its outer runs are no larger than recorded. */
  ghost predicate Counted(l: Limits, bios: seq<Bio>, nr: int) {
    bios != [] && Cut(l, Vecs(bios), nr, bios[0].front, bios[|bios| - 1].back)
  }

  /** A bio as submitters hand it over: not counted yet, or counted for this queue. */
  ghost predicate Submittable(l: Limits, b: Bio) {
    b.vecs != [] && (b.valid ==> Counted(l, [b], b.phys))
  }

  ghost predicate SoundChain(l: Limits, bios: seq<Bio>, nr: int) {
    var holds := bios != [] && AllData(bios) && Counted(l, bios, nr);
    holds
  }

  // ----- requests -----

  /** blk_rq_bio_prep on a bio with data */
  function NewRequest(l: Limits, kind: Kind, b: Bio, nomerge: bool, special: bool): Rq {
    var b1 := Settled(l, b);
    Rq(kind, b.sector, b.size, [b1], b1.phys, nomerge, special)
  }

  function Sectors(r: Rq): int { r.dataLen / 512 }

  predicate TooManySectors(l: Limits, r: Rq, b: Bio) {
    Sectors(r) + b.size / 512 > if r.kind.Pc? then l.maxHwSectors else l.maxSectors
  }

  predicate TooManySegments(l: Limits, n: int) { n > l.maxHwSegments || n > l.maxPhysSegments }

  datatype BioMerge = BioMerge(ok: bool, rq: Rq, bio: Bio)

  /** ll_back_merge_fn, and on success the back merge case of __make_request */
  function BackMerge(l: Limits, r: Rq, b: Bio): BioMerge
    requires r.bios != []
  {
    BackMergeSettled(l, r, b, Settled(l, r.bios[|r.bios| - 1]), Settled(l, b))
  }

  function BackMergeSettled(l: Limits, r: Rq, b: Bio, tail: Bio, b1: Bio): BioMerge
    requires r.bios != []
  {
    var bios := r.bios[|r.bios| - 1 := tail];
    if TooManySectors(l, r, b) then BioMerge(false, r.(nomerge := true), b)
    else if TooManySegments(l, r.nr + b1.phys) then BioMerge(false, r.(bios := bios, nomerge := true), b1)
    else BioMerge(true, r.(bios := bios + [b1], nr := r.nr + b1.phys, dataLen := r.dataLen + b.size), b1)
  }

  /** ll_front_merge_fn, and on success the front merge case of __make_request */
  function FrontMerge(l: Limits, r: Rq, b: Bio): BioMerge
    requires r.bios != []
  {
    FrontMergeSettled(l, r, b, Settled(l, r.bios[0]), Settled(l, b))
  }

  function FrontMergeSettled(l: Limits, r: Rq, b: Bio, head: Bio, b1: Bio): BioMerge
    requires r.bios != []
  {
    var bios := r.bios[0 := head];
    if TooManySectors(l, r, b) then BioMerge(false, r.(nomerge := true), b)
    else if TooManySegments(l, r.nr + b1.phys) then BioMerge(false, r.(bios := bios, nomerge := true), b1)
    else
      var r1 := r.(bios := [b1] + bios, nr := r.nr + b1.phys, dataLen := r.dataLen + b.size, sector := b.sector);
      BioMerge(true, r1, b1)
  }

  /** blk_phys_contig_segment */
  predicate PhysContig(l: Limits, b: Bio, next: Bio) {
    && l.cluster
    && b.back + next.front <= l.maxSegmentSize
    && (|b.vecs| == 0 || (next.vecs != [] && Joins(l, b.vecs[|b.vecs| - 1], next.vecs[0])))
  }

  /** The joint size is recorded where a chain is one run. */
  function FrontRecorded(a: seq<Bio>, n: int, size: nat): seq<Bio>
    requires a != []
  {
    if n == 1 then a[0 := a[0].(front := size)] else a
  }

  function BackRecorded(b: seq<Bio>, m: int, size: nat): seq<Bio>
    requires b != []
  {
    if m == 1 then b[|b| - 1 := b[|b| - 1].(back := size)] else b
  }

  datatype RqMerge = RqMerge(ok: bool, rq: Rq, next: Rq)

  /** ll_merge_requests_fn, and on success the splice of attempt_merge; `next` is then going away. */
  function MergeRequests(l: Limits, r: Rq, next: Rq): RqMerge
    requires r.bios != [] && next.bios != []
  {
    var n := |r.bios| - 1;
    if r.special || next.special || Sectors(r) + Sectors(next) > l.maxSectors then RqMerge(false, r, next)
    else
      var contig := PhysContig(l, r.bios[n], next.bios[0]);
      var size := r.bios[n].back + next.bios[0].front;
      var bios := if contig then FrontRecorded(r.bios, r.nr, size) else r.bios;
      var tail := if contig then BackRecorded(next.bios, next.nr, size) else next.bios;
      var total := r.nr + next.nr - if contig then 1 else 0;
      if TooManySegments(l, total) then RqMerge(false, r.(bios := bios), next.(bios := tail))
      else RqMerge(true, r.(bios := bios + tail, nr := total, dataLen := r.dataLen + next.dataLen), next.(bios := tail))
  }
}
