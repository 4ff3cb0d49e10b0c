/** Sorted insertion into the dispatch queue: elv_dispatch_sort. */
module DispatchSort {

  /** `fenced`: started, or a soft or hard barrier. */
  datatype Rq = Rq(pos: int, write: bool, discard: bool, fenced: bool)

  predicate SameKind(a: Rq, b: Rq) { a.write == b.write && a.discard == b.discard }

  /** One-way scan from `boundary`: upwards to the end of the disk, then from its start. */
  predicate Before(boundary: int, a: Rq, b: Rq) {
    if a.pos >= boundary then b.pos < boundary || a.pos <= b.pos else b.pos < boundary && a.pos <= b.pos
  }

  /** A request that `rq` may not pass on its way forward. */
  predicate Stops(boundary: int, rq: Rq, pos: Rq) {
    !SameKind(rq, pos) || pos.fenced || Before(boundary, pos, rq)
  }

  /** Neighbours of one kind, the first not fenced, are in scan order. */
  ghost predicate InScanOrder(queue: seq<Rq>, boundary: int) {
    forall i :: 0 <= i < |queue| - 1 ==> ScanPair(boundary, queue[i], queue[i + 1])
  }

  ghost predicate ScanPair(boundary: int, a: Rq, b: Rq) {
    SameKind(a, b) && !a.fenced ==> Before(boundary, a, b)
  }

  /** Where a request goes: behind the last one that stops it. */
  ghost predicate Slot(queue: seq<Rq>, boundary: int, rq: Rq, k: int) {
    && 0 <= k <= |queue|
    && (forall j :: k <= j < |queue| ==> !Stops(boundary, rq, queue[j]))
    && (k > 0 ==> Stops(boundary, rq, queue[k - 1]))
  }

  function Inserted(queue: seq<Rq>, k: nat, rq: Rq): seq<Rq>
    requires k <= |queue|
  {
    queue[..k] + [rq] + queue[k..]
  }

  lemma ScanTotal(boundary: int, a: Rq, b: Rq)
    ensures Before(boundary, a, b) || Before(boundary, b, a)
  {
  }

  /** Insertion keeps the queue in scan order. */
  lemma InsertedInOrder(queue: seq<Rq>, boundary: int, rq: Rq, k: nat)
    requires InScanOrder(queue, boundary) && Slot(queue, boundary, rq, k)
    ensures InScanOrder(Inserted(queue, k, rq), boundary)
  {
    var q := Inserted(queue, k, rq);
    forall i | 0 <= i < |q| - 1 ensures ScanPair(boundary, q[i], q[i + 1]) {
      if i + 1 < k {
        assert ScanPair(boundary, queue[i], queue[i + 1]);
      } else if i == k {
        ScanTotal(boundary, rq, queue[k]);
      } else if i > k {
        assert ScanPair(boundary, queue[i - 1], queue[i]);
      }
    }
  }

  /** A trailing run: from `from` on one kind of request, none fenced. */
  ghost predicate Run(queue: seq<Rq>, from: nat) {
    && from <= |queue|
    && forall i, j :: from <= i < |queue| && from <= j < |queue| ==>
         SameKind(queue[i], queue[j]) && !queue[i].fenced
  }

  /** Every trailing run is in scan order.  What lies in front of it may have been sorted from another boundary. */
  ghost predicate TailOrdered(queue: seq<Rq>, boundary: int) {
    forall from: nat :: Run(queue, from) ==> InScanOrder(queue[from..], boundary)
  }

  /** A run is in scan order as a whole, not only its neighbours. */
  lemma {:induction false} RunInOrder(queue: seq<Rq>, boundary: int, from: nat, i: nat, j: nat)
    requires TailOrdered(queue, boundary) && Run(queue, from) && from <= i < j < |queue|
    ensures Before(boundary, queue[i], queue[j])
    decreases j
  {
    var run := queue[from..];
    assert ScanPair(boundary, run[j - 1 - from], run[j - from]);
    if i < j - 1 {
      RunInOrder(queue, boundary, from, i, j - 1);
    }
  }

  /** Insertion keeps the trailing runs in scan order, whatever is inserted and whatever lies in front. */
  lemma TailInserted(queue: seq<Rq>, boundary: int, rq: Rq, k: nat)
    requires TailOrdered(queue, boundary) && Slot(queue, boundary, rq, k)
    ensures TailOrdered(Inserted(queue, k, rq), boundary)
  {
    var q := Inserted(queue, k, rq);
    forall from: nat | Run(q, from) ensures InScanOrder(q[from..], boundary) {
      if from > k {
        RunBehind(queue, k, rq, from);
        assert q[from..] == queue[from - 1..];
      } else {
        RunAround(queue, k, rq, from);
        var run := queue[from..];
        assert k > from ==> run[k - from - 1] == queue[k - 1];
        InsertedInOrder(run, boundary, rq, k - from);
        assert q[from..] == Inserted(run, k - from, rq);
      }
    }
  }

  lemma RunBehind(queue: seq<Rq>, k: nat, rq: Rq, from: nat)
    requires k <= |queue| && k < from && Run(Inserted(queue, k, rq), from)
    ensures Run(queue, from - 1)
  {
    var q := Inserted(queue, k, rq);
    assert forall i :: from - 1 <= i < |queue| ==> queue[i] == q[i + 1];
  }

  lemma RunAround(queue: seq<Rq>, k: nat, rq: Rq, from: nat)
    requires from <= k <= |queue| && Run(Inserted(queue, k, rq), from)
    ensures Run(queue, from)
  {
    var q := Inserted(queue, k, rq);
    assert forall i :: from <= i < |queue| ==> queue[i] == q[if i < k then i else i + 1];
  }

  /** Behind a fence the order starts afresh, so the boundary may move when a barrier is queued. */
  lemma FenceRestarts(queue: seq<Rq>, boundary: int)
    requires queue != [] && queue[|queue| - 1].fenced
    ensures TailOrdered(queue, boundary)
  {
    forall from: nat | Run(queue, from) ensures InScanOrder(queue[from..], boundary) {
      assert from == |queue|;
    }
  }

  /** A request of the run's kind stays behind everything in front of the run. */
  lemma RunGrows(queue: seq<Rq>, boundary: int, from: nat, rq: Rq, k: nat)
    requires Run(queue, from) && Slot(queue, boundary, rq, k) && !rq.fenced
    requires from < |queue| ==> SameKind(rq, queue[from])
    requires from > 0 ==> !SameKind(rq, queue[from - 1]) || queue[from - 1].fenced
    ensures from <= k && Run(Inserted(queue, k, rq), from)
  {
    var q := Inserted(queue, k, rq);
    assert from > 0 ==> Stops(boundary, rq, queue[from - 1]);
    forall i | from <= i < |q| ensures SameKind(q[i], rq) && !q[i].fenced {
      if i < k {
        assert q[i] == queue[i] && SameKind(queue[from], queue[i]);
      } else if i > k {
        assert q[i] == queue[i - 1] && SameKind(queue[from], queue[i - 1]);
      }
    }
  }

  class DispatchQueue {
    var queue: seq<Rq>
    var endSector: int

    /** elv_dispatch_sort, without the bookkeeping of merge hash and counters */
    method DispatchSort(rq: Rq) returns (ghost k: nat)
      modifies this`queue
      ensures Slot(old(queue), endSector, rq, k) && queue == Inserted(old(queue), k, rq)
      ensures forall j :: k <= j < |old(queue)| ==> !old(queue)[j].fenced
      ensures old(InScanOrder(queue, endSector)) ==> InScanOrder(queue, endSector)
      ensures old(TailOrdered(queue, endSector)) ==> TailOrdered(queue, endSector)
    {
      var entry := |queue|;
      while entry > 0
        invariant 0 <= entry <= |queue|
        invariant forall j :: entry <= j < |queue| ==> !Stops(endSector, rq, queue[j])
      {
        var pos := queue[entry - 1];
        if rq.discard != pos.discard {
          break;
        }
        if rq.write != pos.write {
          break;
        }
        if pos.fenced {
          break;
        }
        if rq.pos >= endSector && pos.pos < endSector {
          entry := entry - 1;
          continue;
        }
        if rq.pos < endSector && pos.pos >= endSector {
          break;
        }
        if rq.pos >= pos.pos {
          break;
        }
        entry := entry - 1;
      }
      k := entry;
      if InScanOrder(queue, endSector) {
        InsertedInOrder(queue, endSector, rq, k);
      }
      if TailOrdered(queue, endSector) {
        TailInserted(queue, endSector, rq, k);
      }
      queue := queue[..entry] + [rq] + queue[entry..];
    }
  }

  /** Any number of insertions with the boundary fixed. */
  ghost predicate Sorts(q: seq<Rq>, boundary: int, rqs: seq<Rq>, q1: seq<Rq>)
    decreases |rqs|
  {
    if rqs == [] then q == q1
    else exists k: nat :: Slot(q, boundary, rqs[0], k) && Sorts(Inserted(q, k, rqs[0]), boundary, rqs[1..], q1)
  }

  /** Over any number of insertions the trailing run stays in scan order. */
  lemma {:induction false} SortsInOrder(q: seq<Rq>, boundary: int, rqs: seq<Rq>, q1: seq<Rq>)
    requires TailOrdered(q, boundary) && Sorts(q, boundary, rqs, q1)
    ensures TailOrdered(q1, boundary)
    decreases |rqs|
  {
    if rqs != [] {
      var k: nat :| Slot(q, boundary, rqs[0], k) && Sorts(Inserted(q, k, rqs[0]), boundary, rqs[1..], q1);
      TailInserted(q, boundary, rqs[0], k);
      SortsInOrder(Inserted(q, k, rqs[0]), boundary, rqs[1..], q1);
    }
  }
}
