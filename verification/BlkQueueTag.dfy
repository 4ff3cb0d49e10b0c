/** struct blk_queue_tag and the busy list of its queue, updated in place. */
module BlkQueueTags {
  import opened Lists
  import opened BlkTags

  lemma {:induction false} FirstClearIs(bits: seq<bool>, n: nat, t: nat)
    requires t <= n <= |bits| && (t < n ==> !bits[t]) && forall i :: 0 <= i < t ==> bits[i]
    ensures FirstClear(bits, n) == t
  {
    var u := FirstClear(bits, n);
  }

  /** find_first_zero_bit */
  method FindFirstZeroBit(bits: array<bool>, n: nat) returns (t: nat)
    requires n <= bits.Length
    ensures t == FirstClear(bits[..], n)
  {
    t := 0;
    while t < n && bits[t]
      invariant t <= n && forall i :: 0 <= i < t ==> bits[i]
    {
      t := t + 1;
    }
    FirstClearIs(bits[..], n, t);
  }

  /** A longer array with the old contents in front and `x` behind: kzalloc and memcpy. */
  method Grown<T>(a: array<T>, n: nat, x: T) returns (b: array<T>)
    requires n >= a.Length
    ensures fresh(b) && b[..] == a[..] + Cleared(n - a.Length, x)
  {
    b := new T[n](_ => x);
    var i := 0;
    while i < a.Length
      invariant i <= a.Length && forall t :: 0 <= t < n ==> b[t] == if t < i then a[t] else x
    {
      b[i] := a[i];
      i := i + 1;
    }
  }

  class BlkQueueTag {
    var tagMap: array<bool>
    var tagIndex: array<Maybe<nat>>
    var maxDepth: nat
    var rqs: map<nat, Rq>
    var busy: seq<nat>
    var queue: seq<nat>
    var clock: nat

    ghost function View(): Tags
      reads this, tagMap, tagIndex
    {
      Tags(tagMap[..], tagIndex[..], maxDepth, rqs, busy, queue, clock)
    }

    /** blk_queue_start_tag; true when there is no tag for the request */
    method StartTag(id: nat, full: bool) returns (refused: bool)
      requires id in rqs && !rqs[id].queued && maxDepth <= tagMap.Length == tagIndex.Length
      modifies this, tagMap, tagIndex
      ensures View() == Start(old(View()), id, full) && tagMap == old(tagMap) && tagIndex == old(tagIndex)
      ensures refused == !rqs[id].queued
    {
      var depth := maxDepth;
      if !rqs[id].sync && depth > 1 {
        depth := depth - 2;
        if depth == 0 {
          depth := 1;
        }
        if full {
          return true;
        }
      }
      var tag := FindFirstZeroBit(tagMap, depth);
      if tag >= depth {
        return true;
      }
      tagMap[tag] := true;
      tagIndex[tag] := Some(id);
      rqs := rqs[id := Rq(rqs[id].sync, true, tag, clock)];
      queue := Without(queue, id);
      busy := [id] + busy;
      clock := clock + 1;
      return false;
    }

    /** blk_queue_end_tag */
    method EndTag(id: nat)
      requires id in rqs && 0 <= rqs[id].tag < tagMap.Length == tagIndex.Length
      modifies this, tagMap, tagIndex
      ensures View() == End(old(View()), id) && tagMap == old(tagMap) && tagIndex == old(tagIndex)
    {
      var tag := rqs[id].tag;
      busy := Without(busy, id);
      rqs := rqs[id := rqs[id].(queued := false, tag := -1)];
      tagIndex[tag] := None;
      tagMap[tag] := false;
    }

    /** blk_queue_resize_tags; false for a map that had to grow and could not */
    method ResizeTags(depth: nat, nrRequests: nat, mayGrow: bool) returns (ok: bool)
      requires tagMap.Length == tagIndex.Length && (depth > tagMap.Length ==> 2 * nrRequests >= tagMap.Length)
      modifies this
      ensures View() == Resize(old(View()), depth, nrRequests, mayGrow)
      ensures ok == (depth <= old(tagMap).Length || mayGrow)
    {
      if depth <= tagMap.Length {
        maxDepth := depth;
        return true;
      }
      if !mayGrow {
        return false;
      }
      var n := if depth > 2 * nrRequests then 2 * nrRequests else depth;
      var newIndex := Grown(tagIndex, n, None);
      var newMap := Grown(tagMap, n, false);
      tagMap, tagIndex, maxDepth := newMap, newIndex, n;
      return true;
    }

    /** blk_queue_invalidate_tags, outside an ordered sequence */
    method InvalidateTags()
      requires Inv(View())
      modifies this, tagMap, tagIndex
      ensures View() == Invalidate(old(View())) && busy == [] && queue == Reversed(old(busy)) + old(queue)
      ensures tagMap == old(tagMap) && tagIndex == old(tagIndex)
    {
      InvalidateIs(View());
      while busy != []
        invariant Inv(View()) && Invalidate(View()) == Invalidate(old(View()))
        invariant tagMap == old(tagMap) && tagIndex == old(tagIndex)
        decreases |busy|
      {
        RequeueHead(View());
        var id := busy[0];
        EndTag(id);
        queue := [id] + queue;
      }
    }
  }
}
