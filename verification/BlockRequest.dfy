/** struct request, with the operations of the block layer that walk and change its bio chain. */
module BlockRequests {
  import opened Segments
  import opened RequestChain
  import opened RequestCompletion

  // ----- one more vector -----

  /** The loop variables of __blk_recalc_rq_segments; `front` is the first bio's bi_seg_front_size. */
  datatype Tally = Tally(nr: nat, size: nat, front: nat, highPrev: bool, prev: Vec)

  /** Where the loop is after the first `n` of the vectors `vs`; `front` started as `front0`. */
  ghost predicate Counting(l: Limits, vs: seq<Vec>, n: nat, front0: nat, t: Tally) {
    var holds := n <= |vs| && Tallies(l, vs, n, Recalc(l, vs, n), front0, t);
    holds
  }

  ghost predicate Tallies(l: Limits, vs: seq<Vec>, n: nat, c: Cuts, front0: nat, t: Tally)
    requires n <= |vs| && n == |c|
  {
    && t.nr == Count(c, n) && t.size == Last(vs, c, n) && (t.nr == 0 <==> n == 0)
    && t.front == (if t.nr >= 2 then Max(front0, First(vs, c, n)) else front0)
    && if n == 0 then t.highPrev else t.prev == vs[n - 1] && t.highPrev == High(l, t.prev)
  }

  /** The loop body */
  function Tallied(l: Limits, t: Tally, v: Vec): Tally {
    if High(l, v) || t.highPrev || !Extends(l, t.size, t.prev, v)
    then Tally(t.nr + 1, v.len, if t.nr == 1 then Max(t.front, t.size) else t.front, High(l, v), v)
    else t.(size := t.size + v.len, prev := v)
  }

  lemma CountingStep(l: Limits, vs: seq<Vec>, n: nat, front0: nat, t: Tally)
    requires Counting(l, vs, n, front0, t) && n < |vs|
    ensures Counting(l, vs, n + 1, front0, Tallied(l, t, vs[n]))
  {
    var c := Recalc(l, vs, n);
    Snoc(l, vs, c, High(l, vs[n]) || t.highPrev || !Extends(l, t.size, t.prev, vs[n]));
  }

  /** Where blk_rq_map_sg is after the first `n` of the vectors `vs`, with the scatterlist `sg` so far. */
  ghost predicate Mapping(l: Limits, vs: seq<Vec>, n: nat, sg: seq<Vec>, prev: Vec) {
    var holds := n <= |vs| && MappedTo(vs, n, Greedy(l, vs, n), sg, prev) && EntriesFit(l, vs, sg);
    holds
  }

  /** An entry of more than one vector is no longer than a segment may be. */
  ghost predicate EntriesFit(l: Limits, vs: seq<Vec>, sg: seq<Vec>) {
    var holds := forall i :: 0 <= i < |sg| ==> sg[i].len <= l.maxSegmentSize || sg[i] in vs;
    holds
  }

  /** The scatterlist has an entry a run of `c`, the last as long as the run, and covers the first `n` vectors. */
  ghost predicate MappedTo(vs: seq<Vec>, n: nat, c: Cuts, sg: seq<Vec>, prev: Vec)
    requires n <= |vs| && n == |c|
  {
    && |sg| == Count(c, n) && (sg == [] <==> n == 0) && AddressesTo(sg, |sg|) == AddressesTo(vs, n)
    && (sg != [] ==> prev == vs[n - 1] && sg[|sg| - 1].len == Last(vs, c, n)
                     && Phys(sg[|sg| - 1]) + sg[|sg| - 1].len == Phys(prev) + prev.len)
  }

  /** The loop body: `v` joins the last entry, or starts one. */
  function Mapped(l: Limits, sg: seq<Vec>, prev: Vec, v: Vec): seq<Vec> {
    if sg != [] && Extends(l, sg[|sg| - 1].len, prev, v)
    then sg[|sg| - 1 := sg[|sg| - 1].(len := sg[|sg| - 1].len + v.len)]
    else sg + [v]
  }

  /** The addresses of the bytes of the first `n` vectors. */
  function AddressesTo(vs: seq<Vec>, n: nat): seq<int>
    requires n <= |vs|
  {
    if n == 0 then [] else AddressesTo(vs, n - 1) + VecAddresses(vs[n - 1])
  }

  lemma {:induction false} AddressesPrefix(vs: seq<Vec>, ws: seq<Vec>, n: nat)
    requires n <= |vs| && n <= |ws| && forall i :: 0 <= i < n ==> vs[i] == ws[i]
    ensures AddressesTo(vs, n) == AddressesTo(ws, n)
  {
    if n > 0 {
      AddressesPrefix(vs, ws, n - 1);
    }
  }

  lemma {:induction false} AddressesTail(vs: seq<Vec>, n: nat)
    requires 0 < n <= |vs|
    ensures AddressesTo(vs, n) == VecAddresses(vs[0]) + AddressesTo(vs[1..], n - 1)
  {
    if n > 1 {
      AddressesTail(vs, n - 1);
    }
  }

  lemma {:induction false} AddressesAll(vs: seq<Vec>)
    ensures AddressesTo(vs, |vs|) == Addresses(vs)
  {
    if vs != [] {
      AddressesTail(vs, |vs|);
      AddressesAll(vs[1..]);
    }
  }

  lemma VecGrows(e: Vec, v: Vec)
    requires Phys(e) + e.len == Phys(v)
    ensures VecAddresses(e.(len := e.len + v.len)) == VecAddresses(e) + VecAddresses(v)
  {
  }

  /** An entry that grows by the vector behind it covers both; otherwise the vector has an entry of its own. */
  lemma MappedAddresses(l: Limits, sg: seq<Vec>, prev: Vec, v: Vec)
    requires sg != [] ==> Phys(sg[|sg| - 1]) + sg[|sg| - 1].len == Phys(prev) + prev.len
    ensures var sg1 := Mapped(l, sg, prev, v); AddressesTo(sg1, |sg1|) == AddressesTo(sg, |sg|) + VecAddresses(v)
  {
    var sg1 := Mapped(l, sg, prev, v);
    if sg != [] && Extends(l, sg[|sg| - 1].len, prev, v) {
      AddressesPrefix(sg, sg1, |sg| - 1);
      VecGrows(sg[|sg| - 1], v);
    } else {
      AddressesPrefix(sg, sg1, |sg|);
    }
  }

  lemma EntriesStep(l: Limits, vs: seq<Vec>, sg: seq<Vec>, prev: Vec, v: Vec)
    requires EntriesFit(l, vs, sg) && v in vs
    ensures EntriesFit(l, vs, Mapped(l, sg, prev, v))
  {
  }

  lemma MappingStep(l: Limits, vs: seq<Vec>, n: nat, sg: seq<Vec>, prev: Vec)
    requires Mapping(l, vs, n, sg, prev) && n < |vs|
    ensures Mapping(l, vs, n + 1, Mapped(l, sg, prev, vs[n]), vs[n])
  {
    var c := Greedy(l, vs, n);
    Snoc(l, vs, c, !(n > 0 && Extends(l, Last(vs, c, n), vs[n - 1], vs[n])));
    MappedAddresses(l, sg, prev, vs[n]);
    EntriesStep(l, vs, sg, prev, vs[n]);
  }

  // ----- the loops -----

  method CountVec(l: Limits, v: Vec, t: Tally) returns (t1: Tally)
    ensures t1 == Tallied(l, t, v)
  {
    var high := High(l, v);
    if high || t.highPrev || !Extends(l, t.size, t.prev, v) {
      var front := t.front;
      if t.nr == 1 && t.size > front {
        front := t.size;
      }
      t1 := Tally(t.nr + 1, v.len, front, high, v);
    } else {
      t1 := t.(size := t.size + v.len, prev := v);
    }
  }

  /** The vectors of one bio, from vector `n` of the chain on. */
  method CountVecs(l: Limits, b: seq<Vec>, t0: Tally, ghost vs: seq<Vec>, ghost n: nat, ghost front0: nat)
    returns (t: Tally)
    requires Counting(l, vs, n, front0, t0) && LiesAt(b, vs, n)
    ensures Counting(l, vs, n + |b|, front0, t)
  {
    t := t0;
    for i := 0 to |b|
      invariant Counting(l, vs, n + i, front0, t)
    {
      CountingStep(l, vs, n + i, front0, t);
      t := CountVec(l, b[i], t);
    }
  }

  /** The vectors `b` lie at vector `n` of the chain. */
  ghost predicate LiesAt(b: seq<Vec>, vs: seq<Vec>, n: nat) {
    n + |b| <= |vs| && forall i :: 0 <= i < |b| ==> b[i] == vs[n + i]
  }

  lemma VecsNext(bios: seq<Bio>, k: nat)
    requires k < |bios|
    ensures LiesAt(bios[k].vecs, Vecs(bios), |VecsTo(bios, k)|)
    ensures |VecsTo(bios, k + 1)| == |VecsTo(bios, k)| + |bios[k].vecs|
  {
    VecsLonger(bios, k + 1, |bios|);
  }

  lemma {:induction false} VecsLonger(bios: seq<Bio>, k: nat, n: nat)
    requires k <= n <= |bios|
    ensures VecsTo(bios, k) <= VecsTo(bios, n)
  {
    if k < n {
      VecsLonger(bios, k, n - 1);
    }
  }

  /** __blk_recalc_rq_segments: the count, and the bios with the sizes recorded. */
  method CountSegments(l: Limits, bios: seq<Bio>) returns (nr: nat, bios1: seq<Bio>)
    ensures nr == SegmentCount(l, bios) && bios1 == Recounted(l, bios)
  {
    if bios == [] {
      return 0, [];
    }
    var t := Tally(0, 0, bios[0].front, true, Vec(0, 0, 0));
    ghost var vs, at := Vecs(bios), 0;
    CountingStart(l, vs, bios[0].front, Vec(0, 0, 0));
    for k := 0 to |bios|
      invariant at == |VecsTo(bios, k)| && Counting(l, vs, at, bios[0].front, t)
    {
      VecsNext(bios, k);
      t := CountVecs(l, bios[k].vecs, t, vs, at, bios[0].front);
      at := at + |bios[k].vecs|;
    }
    FinalFront(l, bios, t);
    bios1 := RecordSizes(bios, t);
    nr := t.nr;
  }

  /** The end of __blk_recalc_rq_segments: sizes are only ever raised. */
  method RecordSizes(bios: seq<Bio>, t: Tally) returns (bios1: seq<Bio>)
    requires bios != [] && t.front >= bios[0].front
    ensures bios1 == RaiseBack(RaiseFront(bios, if t.nr == 1 && t.size > t.front then t.size else t.front), t.size)
  {
    var front := t.front;
    if t.nr == 1 && t.size > front {
      front := t.size;
    }
    bios1 := bios[0 := bios[0].(front := front)];
    var k := |bios| - 1;
    if t.size > bios1[k].back {
      bios1 := bios1[k := bios1[k].(back := t.size)];
    }
  }

  lemma FinalFront(l: Limits, bios: seq<Bio>, t: Tally)
    requires bios != [] && Counting(l, Vecs(bios), |Vecs(bios)|, bios[0].front, t)
    ensures t.nr == SegmentCount(l, bios) && t.front >= bios[0].front
    ensures Recounted(l, bios) ==
      RaiseBack(RaiseFront(bios, if t.nr == 1 && t.size > t.front then t.size else t.front), t.size)
  {
  }

  method MapVecs(l: Limits, b: seq<Vec>, sg0: seq<Vec>, prev0: Vec, ghost vs: seq<Vec>, ghost n: nat)
    returns (sg: seq<Vec>, prev: Vec)
    requires Mapping(l, vs, n, sg0, prev0) && LiesAt(b, vs, n)
    ensures Mapping(l, vs, n + |b|, sg, prev)
  {
    sg, prev := sg0, prev0;
    for i := 0 to |b|
      invariant Mapping(l, vs, n + i, sg, prev)
    {
      MappingStep(l, vs, n + i, sg, prev);
      sg := MapVec(l, sg, prev, b[i]);
      prev := b[i];
    }
  }

  method MapVec(l: Limits, sg: seq<Vec>, prev: Vec, v: Vec) returns (sg1: seq<Vec>)
    ensures sg1 == Mapped(l, sg, prev, v)
  {
    var n := |sg| - 1;
    if sg != [] && Extends(l, sg[n].len, prev, v) {
      sg1 := sg[n := sg[n].(len := sg[n].len + v.len)];
    } else {
      sg1 := sg + [v];
    }
  }

  /** blk_rq_map_sg without padding and drain */
  method MapSg(l: Limits, bios: seq<Bio>) returns (sg: seq<Vec>)
    ensures |sg| == MappedCount(l, Vecs(bios)) && Addresses(sg) == Addresses(Vecs(bios))
    ensures EntriesFit(l, Vecs(bios), sg)
  {
    sg := [];
    var prev := Vec(0, 0, 0);
    ghost var vs, at := Vecs(bios), 0;
    MappingStart(l, vs, prev);
    for k := 0 to |bios|
      invariant at == |VecsTo(bios, k)| && Mapping(l, vs, at, sg, prev)
    {
      VecsNext(bios, k);
      sg, prev := MapVecs(l, bios[k].vecs, sg, prev, vs, at);
      at := at + |bios[k].vecs|;
    }
    MappingDone(l, vs, sg, prev);
  }

  lemma MappingStart(l: Limits, vs: seq<Vec>, prev: Vec)
    ensures Mapping(l, vs, 0, [], prev)
  {
  }

  lemma CountingStart(l: Limits, vs: seq<Vec>, front0: nat, prev: Vec)
    ensures Counting(l, vs, 0, front0, Tally(0, 0, front0, true, prev))
  {
  }

  lemma MappingDone(l: Limits, vs: seq<Vec>, sg: seq<Vec>, prev: Vec)
    requires Mapping(l, vs, |vs|, sg, prev)
    ensures |sg| == MappedCount(l, vs) && Addresses(sg) == Addresses(vs)
    ensures EntriesFit(l, vs, sg)
  {
    AddressesAll(sg);
    AddressesAll(vs);
  }

  // ----- struct request -----

  lemma {:induction false} DropVecsAt(vs: seq<Vec>, i: nat, left: nat)
    requires i < |vs| && Filled(vs) && left < vs[i].len
    ensures DropVecs(vs, Bytes(vs[..i]) + left) ==
      [vs[i].(offset := vs[i].offset + left, len := vs[i].len - left)] + vs[i + 1..]
  {
    if i > 0 {
      assert vs[..i][1..] == vs[1..][..i - 1] && vs[..i][0] == vs[0];
      DropVecsAt(vs[1..], i - 1, left);
    }
  }

  lemma {:induction false} BytesNext(vs: seq<Vec>, i: nat)
    requires i < |vs|
    ensures Bytes(vs[..i + 1]) == Bytes(vs[..i]) + vs[i].len && Bytes(vs[..i + 1]) <= Bytes(vs)
  {
    if i > 0 {
      assert vs[..i][1..] == vs[1..][..i - 1] && vs[..i + 1][1..] == vs[1..][..i];
      BytesNext(vs[1..], i - 1);
    } else {
      assert vs[..1][1..] == [];
    }
  }

  lemma {:induction false} BytesPositive(vs: seq<Vec>, i: nat)
    requires i < |vs| && Filled(vs)
    ensures Bytes(vs[..i]) == 0 ==> i == 0
  {
  }

  /** `done` bytes of a bio are done, `left` of them in its vector `next`. */
  ghost predicate Stopped(b: Bio, done: nat, next: nat, left: nat) {
    next < |b.vecs| && left < b.vecs[next].len && done < b.size && done == Bytes(b.vecs[..next]) + left
  }

  /** Where the completion loop is, with the chain `rest` left of `all`. */
  ghost predicate Progress(rest: seq<Bio>, all: seq<Bio>, n: nat, total: nat, done: nat, next: nat, left: nat) {
    var holds :=
      && AllWellFormed(rest) && Drop(all, n) == Drop(rest, done + left) && total + left == n
      && (rest != [] ==> next <= |rest[0].vecs| && done == Bytes(rest[0].vecs[..next]))
      && (next > 0 ==> rest != [] && done + left < rest[0].size) && (next == 0 ==> done == 0);
    holds
  }

  /** Where it ends: the chain `rest` is left, and all of `all` but its first `n` bytes is in it. */
  ghost predicate Advanced(rest: seq<Bio>, all: seq<Bio>, n: nat, total: nat, done: nat, next: nat, left: nat) {
    var holds :=
      && AllWellFormed(rest) && Drop(all, n) == (if rest == [] then [] else Drop(rest, done))
      && (rest != [] ==> total == n && Stopped(rest[0], done, next, left));
    holds
  }

  lemma AllDone(all: seq<Bio>, n: nat, total: nat, done: nat, next: nat, left: nat)
    requires Progress([], all, n, total, done, next, left)
    ensures Advanced([], all, n, total, done, next, left)
  {
  }

  lemma BioDone(rest: seq<Bio>, all: seq<Bio>, n: nat, total: nat, done: nat, next: nat, left: nat)
    requires Progress(rest, all, n, total, done, next, left) && rest != [] && left >= rest[0].size
    ensures Progress(rest[1..], all, n, total + rest[0].size, 0, 0, left - rest[0].size)
  {
    assert WellFormed(rest[0]);
  }

  lemma VecNext(rest: seq<Bio>, all: seq<Bio>, n: nat, total: nat, done: nat, next: nat, left: nat)
    requires Progress(rest, all, n, total, done, next, left) && rest != [] && left < rest[0].size
    ensures next < |rest[0].vecs|
    ensures var bytes := rest[0].vecs[next].len;
      if bytes > left then Advanced(rest, all, n, total + left, done + left, next, left)
      else Progress(rest, all, n, total + bytes, done + bytes, next + 1, left - bytes)
  {
    var vs := rest[0].vecs;
    assert WellFormed(rest[0]) && vs[..|vs|] == vs;
    BytesNext(vs, next);
  }

  lemma AtBoundary(rest: seq<Bio>, all: seq<Bio>, n: nat, total: nat, done: nat, next: nat)
    requires Progress(rest, all, n, total, done, next, 0) && rest != []
    ensures Advanced(rest, all, n, total, done, next, 0)
  {
    var vs := rest[0].vecs;
    assert WellFormed(rest[0]) && vs[..|vs|] == vs;
    assert vs[0].len > 0;
    BytesNext(vs, 0);
  }

  class Request {
    var kind: Kind
    var sector: int
    var dataLen: int
    var bios: seq<Bio>
    var nr: int
    var nomerge: bool
    var special: bool

    ghost function View(): Rq
      reads this
    {
      Rq(kind, sector, dataLen, bios, nr, nomerge, special)
    }

    /**
      The loop of blk_update_request: bios that are done leave the chain.  The
      first one left is done up to byte `done`, which lies `left` bytes into its
      vector `next`.
     */
    method AdvanceBios(n: nat) returns (total: nat, done: nat, next: nat, left: nat)
      requires AllWellFormed(bios)
      modifies this`bios
      ensures Advanced(bios, old(bios), n, total, done, next, left)
    {
      assert Progress(bios, bios, n, 0, 0, 0, n);
      left, total, done, next := n, 0, 0, 0;
      while bios != []
        invariant Progress(bios, old(bios), n, total, done, next, left)
        decreases |bios|, if bios != [] then |bios[0].vecs| - next else 0
      {
        var bio := bios[0];
        if left >= bio.size {
          BioDone(bios, old(bios), n, total, done, next, left);
          bios := bios[1..];
          total, left, next, done := total + bio.size, left - bio.size, 0, 0;
        } else {
          VecNext(bios, old(bios), n, total, done, next, left);
          var bytes := bio.vecs[next].len;
          if bytes > left {
            done := done + left;
            total := total + left;
            return;
          }
          next := next + 1;
          done := done + bytes;
          total, left := total + bytes, left - bytes;
        }
        if bios != [] && left <= 0 {
          AtBoundary(bios, old(bios), n, total, done, next);
          return;
        }
      }
      AllDone(old(bios), n, total, done, next, left);
    }

    /** req_bio_endio on the bio in progress, and the step of its index and first vector */
    method CutFirst(done: nat, next: nat, left: nat)
      requires AllWellFormed(bios) && bios != [] && Stopped(bios[0], done, next, left)
      modifies this`bios
      ensures bios == Drop(old(bios), done)
    {
      var bio := bios[0];
      assert WellFormed(bio);
      DropVecsAt(bio.vecs, next, left);
      if done > 0 {
        var v := bio.vecs[next];
        var vecs := [v.(offset := v.offset + left, len := v.len - left)] + bio.vecs[next + 1..];
        bios := [bio.(size := bio.size - done, sector := bio.sector + done / 512, vecs := vecs)] + bios[1..];
      } else {
        BytesPositive(bio.vecs, next);
        assert bio.vecs == [bio.vecs[0]] + bio.vecs[1..] && bios == [bio] + bios[1..];
      }
    }

    /** blk_recalc_rq_segments */
    method RecalcSegments(l: Limits)
      modifies this`bios, this`nr
      ensures bios == Recounted(l, old(bios)) && nr == SegmentCount(l, old(bios))
    {
      nr, bios := CountSegments(l, bios);
    }

    /** blk_update_request */
    method UpdateRequest(l: Limits, n: nat) returns (more: bool)
      requires WellFormedRq(View())
      modifies this
      ensures View() == Update(l, old(View()), n) && more == (bios != [])
    {
      if bios == [] {
        return false;
      }
      DropWellFormed(bios, n);
      var total, done, next, left := AdvanceBios(n);
      if bios == [] {
        dataLen := 0;
        return false;
      }
      CutFirst(done, next, left);
      dataLen := dataLen - total;
      if kind.Fs? || kind.Discard? {
        sector := sector + total / 512;
      }
      assert WellFormed(bios[0]);
      var current := bios[0].vecs[0].len;
      dataLen := if dataLen < current then current else dataLen;
      RecountedRest(l, bios);
      RecalcSegments(l);
      return true;
    }

    /** ll_new_hw_segment */
    method NewHwSegment(l: Limits, segments: nat) returns (ok: bool)
      modifies this`nr, this`nomerge
      ensures ok <==> old(nr) + segments <= l.maxPhysSegments && old(nr) + segments <= l.maxHwSegments
      ensures nr == (if ok then old(nr) + segments else old(nr)) && nomerge == (old(nomerge) || !ok)
    {
      if TooManySegments(l, nr + segments) {
        nomerge := true;
        return false;
      }
      nr := nr + segments;
      return true;
    }

    /** ll_back_merge_fn and the back merge of __make_request */
    method BackMergeBio(l: Limits, bio: Bio) returns (ok: bool, bio1: Bio)
      requires bios != []
      modifies this
      ensures var m := BackMerge(l, old(View()), bio); ok == m.ok && View() == m.rq && bio1 == m.bio
    {
      if TooManySectors(l, Rq(kind, sector, dataLen, bios, nr, nomerge, special), bio) {
        nomerge := true;
        return false, bio;
      }
      var tail := Settle(l, bios[|bios| - 1]);
      bios := bios[|bios| - 1 := tail];
      bio1 := Settle(l, bio);
      ok := NewHwSegment(l, bio1.phys);
      if ok {
        bios := bios + [bio1];
        dataLen := dataLen + bio.size;
      }
    }

    /** ll_front_merge_fn and the front merge of __make_request */
    method FrontMergeBio(l: Limits, bio: Bio) returns (ok: bool, bio1: Bio)
      requires bios != []
      modifies this
      ensures var m := FrontMerge(l, old(View()), bio); ok == m.ok && View() == m.rq && bio1 == m.bio
    {
      if TooManySectors(l, Rq(kind, sector, dataLen, bios, nr, nomerge, special), bio) {
        nomerge := true;
        return false, bio;
      }
      bio1 := Settle(l, bio);
      var head := Settle(l, bios[0]);
      bios := bios[0 := head];
      ok := NewHwSegment(l, bio1.phys);
      if ok {
        bios := [bio1] + bios;
        sector := bio.sector;
        dataLen := dataLen + bio.size;
      }
    }

    /** ll_merge_requests_fn and the splice of attempt_merge */
    method MergeNext(l: Limits, next: Request) returns (ok: bool)
      requires this != next && bios != [] && next.bios != []
      modifies this, next
      ensures var m := MergeRequests(l, old(View()), old(next.View()));
        ok == m.ok && View() == m.rq && next.View() == m.next
    {
      var size := bios[|bios| - 1].back + next.bios[0].front;
      if special || next.special || dataLen / 512 + next.dataLen / 512 > l.maxSectors {
        return false;
      }
      var total := nr + next.nr;
      if PhysContig(l, bios[|bios| - 1], next.bios[0]) {
        if nr == 1 {
          bios := bios[0 := bios[0].(front := size)];
        }
        if next.nr == 1 {
          next.bios := next.bios[|next.bios| - 1 := next.bios[|next.bios| - 1].(back := size)];
        }
        total := total - 1;
      }
      if TooManySegments(l, total) {
        return false;
      }
      nr := total;
      bios := bios + next.bios;
      dataLen := dataLen + next.dataLen;
      return true;
    }
  }

  /** bio_phys_segments and blk_recount_segments */
  method Settle(l: Limits, b: Bio) returns (b1: Bio)
    ensures b1 == Settled(l, b)
  {
    b1 := b;
    if !b.valid {
      var nr, bios := CountSegments(l, [b]);
      b1 := bios[0].(phys := nr, valid := true);
    }
  }
}
