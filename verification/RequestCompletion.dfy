/** Completing the first bytes of a request: what remains is exactly the rest of its data. */
module RequestCompletion {
  import opened Segments
  import opened RequestChain

  function Bytes(vs: seq<Vec>): nat {
    if vs == [] then 0 else vs[0].len + Bytes(vs[1..])
  }

  function Sizes(bios: seq<Bio>): nat {
    if bios == [] then 0 else bios[0].size + Sizes(bios[1..])
  }

  ghost predicate Filled(vs: seq<Vec>) { forall i :: 0 <= i < |vs| ==> vs[i].len > 0 }

  /** A bio with data whose vectors add up to its size. */
  ghost predicate WellFormed(b: Bio) { b.vecs != [] && b.size == Bytes(b.vecs) && Filled(b.vecs) }

  ghost predicate AllWellFormed(bios: seq<Bio>) { forall i :: 0 <= i < |bios| ==> WellFormed(bios[i]) }

  /** The vectors without their first `n` bytes: whole vectors go, and the next one is cut at the front. */
  function DropVecs(vs: seq<Vec>, n: nat): seq<Vec> {
    if vs == [] then []
    else if n >= vs[0].len then DropVecs(vs[1..], n - vs[0].len)
    else [vs[0].(offset := vs[0].offset + n, len := vs[0].len - n)] + vs[1..]
  }

  function DropBio(b: Bio, n: nat): Bio
    requires n <= b.size
  {
    b.(vecs := DropVecs(b.vecs, n), size := b.size - n, sector := b.sector + n / 512)
  }

  /** The chain without its first `n` bytes. */
  function Drop(bios: seq<Bio>, n: nat): seq<Bio> {
    if bios == [] then []
    else if n >= bios[0].size then Drop(bios[1..], n - bios[0].size)
    else [DropBio(bios[0], n)] + bios[1..]
  }

  /** blk_update_request */
  function Update(l: Limits, r: Rq, n: nat): Rq {
    if r.bios == [] then r
    else
      var bios := Drop(r.bios, n);
      if bios == [] then r.(bios := [], dataLen := 0)
      else r.(bios := Recounted(l, bios), nr := SegmentCount(l, bios), dataLen := r.dataLen - n,
              sector := r.sector + if r.kind.Fs? || r.kind.Discard? then n / 512 else 0)
  }

  // ----- where the data lies -----

  /** The address of every byte, in order. */
  function Addresses(vs: seq<Vec>): (a: seq<int>)
    ensures |a| == Bytes(vs)
  {
    if vs == [] then [] else VecAddresses(vs[0]) + Addresses(vs[1..])
  }

  function VecAddresses(v: Vec): seq<int> { seq(v.len, i => Phys(v) + i) }

  function ChainAddresses(bios: seq<Bio>): seq<int> {
    if bios == [] then [] else Addresses(bios[0].vecs) + ChainAddresses(bios[1..])
  }

  lemma {:induction false} DropVecsExact(vs: seq<Vec>, n: nat)
    requires n <= Bytes(vs)
    ensures Addresses(DropVecs(vs, n)) == Addresses(vs)[n..]
  {
    if vs != [] {
      if n >= vs[0].len {
        DropVecsExact(vs[1..], n - vs[0].len);
      } else {
        var v := vs[0].(offset := vs[0].offset + n, len := vs[0].len - n);
        assert VecAddresses(v) == VecAddresses(vs[0])[n..];
        assert ([v] + vs[1..])[1..] == vs[1..];
      }
    }
  }

  lemma {:induction false} DropVecsFilled(vs: seq<Vec>, n: nat)
    requires Filled(vs) && n <= Bytes(vs)
    ensures Filled(DropVecs(vs, n)) && Bytes(DropVecs(vs, n)) == Bytes(vs) - n
  {
    if vs != [] {
      if n >= vs[0].len {
        DropVecsFilled(vs[1..], n - vs[0].len);
      } else {
        var v := vs[0].(offset := vs[0].offset + n, len := vs[0].len - n);
        assert ([v] + vs[1..])[1..] == vs[1..];
      }
    }
  }

  lemma DropBioWellFormed(b: Bio, n: nat)
    requires WellFormed(b) && n < b.size
    ensures WellFormed(DropBio(b, n))
  {
    DropVecsFilled(b.vecs, n);
  }

  lemma {:induction false} DropWellFormed(bios: seq<Bio>, n: nat)
    requires AllWellFormed(bios)
    ensures AllWellFormed(Drop(bios, n))
    ensures Sizes(Drop(bios, n)) == if n <= Sizes(bios) then Sizes(bios) - n else 0
    ensures Drop(bios, n) == [] <==> n >= Sizes(bios)
  {
    if bios != [] {
      if n >= bios[0].size {
        DropWellFormed(bios[1..], n - bios[0].size);
      } else {
        DropBioWellFormed(bios[0], n);
        assert ([DropBio(bios[0], n)] + bios[1..])[1..] == bios[1..];
      }
    }
  }

  lemma {:induction false} ChainLength(bios: seq<Bio>)
    requires AllWellFormed(bios)
    ensures |ChainAddresses(bios)| == Sizes(bios)
  {
    if bios != [] {
      assert WellFormed(bios[0]);
      ChainLength(bios[1..]);
    }
  }

  /** What remains is exactly the data behind the first `n` bytes. */
  lemma {:induction false} DropExact(bios: seq<Bio>, n: nat)
    requires AllWellFormed(bios)
    ensures |ChainAddresses(bios)| == Sizes(bios)
    ensures ChainAddresses(Drop(bios, n)) == ChainAddresses(bios)[if n <= Sizes(bios) then n else Sizes(bios)..]
  {
    ChainLength(bios);
    if bios != [] {
      assert WellFormed(bios[0]);
      if n >= bios[0].size {
        DropExact(bios[1..], n - bios[0].size);
      } else {
        DropVecsExact(bios[0].vecs, n);
        assert ([DropBio(bios[0], n)] + bios[1..])[1..] == bios[1..];
      }
    }
  }

  // ----- two completions are one -----

  lemma {:induction false} DropVecsTwice(vs: seq<Vec>, a: nat, b: nat)
    requires a <= Bytes(vs)
    ensures DropVecs(DropVecs(vs, a), b) == DropVecs(vs, a + b)
  {
    if vs != [] {
      if a >= vs[0].len {
        DropVecsTwice(vs[1..], a - vs[0].len, b);
      } else {
        var v := vs[0].(offset := vs[0].offset + a, len := vs[0].len - a);
        assert ([v] + vs[1..])[1..] == vs[1..];
      }
    }
  }

  /** Bios of whole sectors, as the block layer is given them. */
  ghost predicate WholeSectors(bios: seq<Bio>) { forall i :: 0 <= i < |bios| ==> bios[i].size % 512 == 0 }

  ghost predicate SameBioRest(x: Bio, y: Bio, whole: bool) {
    x.size == y.size && x.vecs == y.vecs && (whole ==> x.sector == y.sector)
  }

  /** The same data; and the same sectors, if `whole`. */
  ghost predicate SameRest(x: seq<Bio>, y: seq<Bio>, whole: bool) {
    |x| == |y| && forall i :: 0 <= i < |x| ==> SameBioRest(x[i], y[i], whole)
  }

  lemma DropBioTwice(x: Bio, a: nat, b: nat)
    requires WellFormed(x) && a + b < x.size
    ensures SameBioRest(DropBio(DropBio(x, a), b), DropBio(x, a + b), a % 512 == 0)
  {
    DropVecsTwice(x.vecs, a, b);
    assert a % 512 == 0 ==> (a + b) / 512 == a / 512 + b / 512;
  }

  lemma DropInFirst(x: Bio, bios: seq<Bio>, a: nat, b: nat)
    requires WellFormed(x) && a < x.size
    ensures SameRest(Drop([DropBio(x, a)] + bios, b), Drop([x] + bios, a + b), a % 512 == 0)
  {
    var x1 := DropBio(x, a);
    assert ([x] + bios)[1..] == bios && ([x1] + bios)[1..] == bios;
    if a + b < x.size {
      DropBioTwice(x, a, b);
    }
  }

  lemma WholeRest(a: nat, size: nat)
    requires size % 512 == 0 && a % 512 == 0 && a >= size
    ensures (a - size) % 512 == 0
  {
  }

  lemma {:induction false} DropTwice(bios: seq<Bio>, a: nat, b: nat)
    requires AllWellFormed(bios)
    ensures SameRest(Drop(Drop(bios, a), b), Drop(bios, a + b), a % 512 == 0 && WholeSectors(bios))
  {
    if bios != [] {
      assert WellFormed(bios[0]);
      var whole := a % 512 == 0 && WholeSectors(bios);
      if a >= bios[0].size {
        DropTwice(bios[1..], a - bios[0].size, b);
        if whole {
          WholeRest(a, bios[0].size);
        }
        assert a - bios[0].size + b == a + b - bios[0].size;
      } else {
        assert bios == [bios[0]] + bios[1..];
        DropInFirst(bios[0], bios[1..], a, b);
      }
    }
  }

  // ----- requests -----

  /** A chain of well-formed bios, with its length recorded. */
  ghost predicate WellFormedRq(r: Rq) { AllWellFormed(r.bios) && r.dataLen == Sizes(r.bios) }

  lemma {:induction false} SameSizes(x: seq<Bio>, y: seq<Bio>, whole: bool)
    requires SameRest(x, y, whole)
    ensures Sizes(x) == Sizes(y) && ChainAddresses(x) == ChainAddresses(y)
  {
    if x != [] {
      assert SameBioRest(x[0], y[0], whole);
      SameSizes(x[1..], y[1..], whole);
    }
  }

  lemma SameWellFormed(x: seq<Bio>, y: seq<Bio>, whole: bool)
    requires SameRest(x, y, whole) && AllWellFormed(x)
    ensures AllWellFormed(y)
  {
    forall i | 0 <= i < |y| ensures WellFormed(y[i]) {
      assert SameBioRest(x[i], y[i], whole) && WellFormed(x[i]);
    }
  }

  lemma {:induction false} DropSame(x: seq<Bio>, y: seq<Bio>, n: nat, whole: bool)
    requires SameRest(x, y, whole)
    ensures SameRest(Drop(x, n), Drop(y, n), whole)
  {
    if x != [] {
      assert SameBioRest(x[0], y[0], whole);
      if n >= x[0].size {
        DropSame(x[1..], y[1..], n - x[0].size, whole);
      }
    }
  }

  lemma RecountedRest(l: Limits, bios: seq<Bio>)
    ensures SameRest(bios, Recounted(l, bios), true) && |Recounted(l, bios)| == |bios|
  {
  }

  /** The chain a completion leaves, up to recorded sizes and counts. */
  lemma UpdateRest(l: Limits, r: Rq, n: nat)
    ensures SameRest(Drop(r.bios, n), Update(l, r, n).bios, true)
  {
    RecountedRest(l, Drop(r.bios, n));
  }

  /**
    A completion of `n` bytes conserves data: exactly the first n bytes are gone,
    the recorded length is the length of what remains, and nothing remains just
    when n reached the end.
   */
  lemma UpdateConserves(l: Limits, r: Rq, n: nat)
    requires WellFormedRq(r)
    ensures var r1 := Update(l, r, n);
      && WellFormedRq(r1)
      && |ChainAddresses(r.bios)| == r.dataLen
      && ChainAddresses(r1.bios) == ChainAddresses(r.bios)[if n <= r.dataLen then n else r.dataLen..]
      && (r1.bios == [] <==> n >= r.dataLen)
  {
    UpdateRest(l, r, n);
    DropExact(r.bios, n);
    DropWellFormed(r.bios, n);
    var r1 := Update(l, r, n);
    SameSizes(Drop(r.bios, n), r1.bios, true);
    SameWellFormed(Drop(r.bios, n), r1.bios, true);
  }

  /** Completing `a` and then `b` bytes leaves what completing a + b bytes leaves. */
  lemma UpdateTwice(l: Limits, r: Rq, a: nat, b: nat)
    requires WellFormedRq(r)
    ensures
      var r2, r1 := Update(l, Update(l, r, a), b), Update(l, r, a + b);
      var whole := a % 512 == 0 && WholeSectors(r.bios);
      && SameRest(r2.bios, r1.bios, whole) && r2.dataLen == r1.dataLen
      && (whole && r1.bios != [] ==> r2.sector == r1.sector)
  {
    UpdateTwiceChain(l, r, a, b);
    UpdateTwiceCounts(l, r, a, b);
  }

  lemma UpdateLength(l: Limits, r: Rq, n: nat)
    requires WellFormedRq(r)
    ensures var r1 := Update(l, r, n);
      && WellFormedRq(r1) && r1.kind == r.kind
      && r1.dataLen == (if n <= r.dataLen then r.dataLen - n else 0)
      && (r1.bios == [] <==> n >= r.dataLen)
      && (n < r.dataLen ==> r1.sector == r.sector + if r.kind.Fs? || r.kind.Discard? then n / 512 else 0)
  {
    UpdateConserves(l, r, n);
    RecountedRest(l, Drop(r.bios, n));
    DropWellFormed(r.bios, n);
  }

  lemma UpdateTwiceCounts(l: Limits, r: Rq, a: nat, b: nat)
    requires WellFormedRq(r)
    ensures var r2, r1 := Update(l, Update(l, r, a), b), Update(l, r, a + b);
      r2.dataLen == r1.dataLen && (a % 512 == 0 && r1.bios != [] ==> r2.sector == r1.sector)
  {
    UpdateLength(l, r, a);
    UpdateLength(l, Update(l, r, a), b);
    UpdateLength(l, r, a + b);
    assert a % 512 == 0 ==> (a + b) / 512 == a / 512 + b / 512;
  }

  lemma UpdateTwiceChain(l: Limits, r: Rq, a: nat, b: nat)
    requires AllWellFormed(r.bios)
    ensures SameRest(Update(l, Update(l, r, a), b).bios, Update(l, r, a + b).bios, a % 512 == 0 && WholeSectors(r.bios))
  {
    var whole := a % 512 == 0 && WholeSectors(r.bios);
    var ra := Update(l, r, a);
    var x, x1, y, z := Drop(Drop(r.bios, a), b), Drop(ra.bios, b), Drop(r.bios, a + b), Update(l, r, a + b).bios;
    UpdateRest(l, r, a);
    DropSame(Drop(r.bios, a), ra.bios, b, true);
    UpdateRest(l, ra, b);
    UpdateRest(l, r, a + b);
    DropTwice(r.bios, a, b);
    SameThrough(Update(l, ra, b).bios, x1, x, y, z, whole);
  }

  lemma SameThrough(u: seq<Bio>, x1: seq<Bio>, x: seq<Bio>, y: seq<Bio>, z: seq<Bio>, whole: bool)
    requires SameRest(x1, u, true) && SameRest(x, x1, true) && SameRest(x, y, whole) && SameRest(y, z, true)
    ensures SameRest(u, z, whole)
  {
    forall i | 0 <= i < |u| ensures SameBioRest(u[i], z[i], whole) {
      assert SameBioRest(x1[i], u[i], true) && SameBioRest(x[i], x1[i], true) && SameBioRest(x[i], y[i], whole)
          && SameBioRest(y[i], z[i], true);
    }
  }
}
