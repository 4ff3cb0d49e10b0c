/** The hash from end sectors to waiting requests, with which back merge candidates are found. */
module MergeHash {
  import opened RequestChain
  import opened Lists

  const ELV_HASH_ENTRIES := 64

  /** ELV_HASH_FN on a 32-bit machine */
  function Bucket(sector: int): (k: nat)
    ensures k < ELV_HASH_ENTRIES
  {
    (sector / 8 * 0x9e37_0001) % 0x1_0000_0000 / 0x400_0000
  }

  /** rq_hash_key: the sector behind the request */
  function End(r: Rq): int { r.sector + Sectors(r) }

  /** rq_mergeable */
  predicate Mergeable(r: Rq) { !r.nomerge && (r.kind.Fs? || r.kind.Discard?) }

  type Table = seq<seq<nat>>

  // ----- hlist operations -----

  /** elv_rqhash_del */
  function Del(hash: Table, id: nat): Table {
    seq(|hash|, k requires 0 <= k < |hash| => Without(hash[k], id))
  }

  /** elv_rqhash_add */
  function Add(hash: Table, id: nat, end: int): Table
    requires |hash| == ELV_HASH_ENTRIES
  {
    hash[Bucket(end) := [id] + hash[Bucket(end)]]
  }

  datatype Lookup = Lookup(kept: seq<nat>, found: Maybe<nat>)

  /** elv_rqhash_find in one bucket: entries that cannot merge any more are dropped on the way. */
  function Scan(rqs: map<nat, Rq>, b: seq<nat>, offset: int): Lookup
    requires forall id :: id in b ==> id in rqs
  {
    if b == [] then Lookup([], None)
    else if !Mergeable(rqs[b[0]]) then Scan(rqs, b[1..], offset)
    else if End(rqs[b[0]]) == offset then Lookup(b, Some(b[0]))
    else
      var rest := Scan(rqs, b[1..], offset);
      Lookup([b[0]] + rest.kept, rest.found)
  }

  // ----- what the table promises -----

  ghost predicate BucketOk(rqs: map<nat, Rq>, b: seq<nat>, k: int) {
    NoDup(b) && forall id :: id in b ==> id in rqs && Bucket(End(rqs[id])) == k
  }

  /** Every entry sits, once, in the bucket of its end sector. */
  ghost predicate HashOk(rqs: map<nat, Rq>, hash: Table) {
    |hash| == ELV_HASH_ENTRIES && forall k :: 0 <= k < |hash| ==> BucketOk(rqs, hash[k], k)
  }

  /** Every request that may still merge is in the table. */
  ghost predicate Complete(rqs: map<nat, Rq>, hash: Table) {
    |hash| == ELV_HASH_ENTRIES && forall id :: id in rqs && Mergeable(rqs[id]) ==> id in hash[Bucket(End(rqs[id]))]
  }

  lemma DelOk(rqs: map<nat, Rq>, hash: Table, id: nat)
    requires HashOk(rqs, hash)
    ensures HashOk(rqs - {id}, Del(hash, id))
  {
    forall k | 0 <= k < |hash| ensures BucketOk(rqs - {id}, Del(hash, id)[k], k) {
      WithoutIn(hash[k], id);
      assert BucketOk(rqs, hash[k], k);
    }
  }

  lemma DelComplete(rqs: map<nat, Rq>, hash: Table, id: nat)
    requires Complete(rqs, hash)
    ensures Complete(rqs - {id}, Del(hash, id))
  {
    forall x | x in rqs - {id} && Mergeable(rqs[x]) ensures x in Del(hash, id)[Bucket(End(rqs[x]))] {
      WithoutIn(hash[Bucket(End(rqs[x]))], id);
    }
  }

  lemma AddOk(rqs: map<nat, Rq>, hash: Table, id: nat, r: Rq)
    requires HashOk(rqs, hash) && id !in rqs
    ensures HashOk(rqs[id := r], Add(hash, id, End(r)))
  {
    forall k | 0 <= k < |hash| ensures BucketOk(rqs[id := r], Add(hash, id, End(r))[k], k) {
      assert BucketOk(rqs, hash[k], k);
      ElemsIs(hash[k]);
      assert ([id] + hash[k])[1..] == hash[k];
    }
  }

  lemma AddComplete(rqs: map<nat, Rq>, hash: Table, id: nat, r: Rq)
    requires Complete(rqs, hash) && id !in rqs
    ensures Complete(rqs[id := r], Add(hash, id, End(r)))
  {
  }

  /** A request that cannot merge need not be entered. */
  lemma AddNone(rqs: map<nat, Rq>, hash: Table, id: nat, r: Rq)
    requires HashOk(rqs, hash) && Complete(rqs, hash) && id !in rqs && !Mergeable(r)
    ensures HashOk(rqs[id := r], hash) && Complete(rqs[id := r], hash)
  {
    forall k | 0 <= k < |hash| ensures BucketOk(rqs[id := r], hash[k], k) {
      assert BucketOk(rqs, hash[k], k);
    }
  }

  /** elv_rqhash_reposition, after the request grew at its end */
  lemma Reposition(rqs: map<nat, Rq>, hash: Table, id: nat, r: Rq)
    requires HashOk(rqs, hash) && Complete(rqs, hash)
    ensures HashOk(rqs[id := r], Add(Del(hash, id), id, End(r)))
    ensures Complete(rqs[id := r], Add(Del(hash, id), id, End(r)))
  {
    DelOk(rqs, hash, id);
    DelComplete(rqs, hash, id);
    AddOk(rqs - {id}, Del(hash, id), id, r);
    AddComplete(rqs - {id}, Del(hash, id), id, r);
    assert (rqs - {id})[id := r] == rqs[id := r];
  }

  /** A request that keeps its end sector stays where it is: why a front merge need not rehash. */
  lemma SameEnd(rqs: map<nat, Rq>, hash: Table, id: nat, r: Rq)
    requires HashOk(rqs, hash) && Complete(rqs, hash) && id in rqs
    requires End(r) == End(rqs[id]) && (Mergeable(r) ==> Mergeable(rqs[id]))
    ensures HashOk(rqs[id := r], hash) && Complete(rqs[id := r], hash)
  {
    forall k | 0 <= k < |hash| ensures BucketOk(rqs[id := r], hash[k], k) {
      assert BucketOk(rqs, hash[k], k);
    }
  }

  // ----- lookup -----

  lemma {:induction false} ScanIs(rqs: map<nat, Rq>, b: seq<nat>, offset: int)
    requires forall id :: id in b ==> id in rqs
    ensures var s := Scan(rqs, b, offset);
      && (forall id :: id in s.kept ==> id in b) && (NoDup(b) ==> NoDup(s.kept))
      && (forall id :: id in b && Mergeable(rqs[id]) ==> id in s.kept)
      && (s.found.Some? ==>
        s.found.value in s.kept && Mergeable(rqs[s.found.value]) && End(rqs[s.found.value]) == offset)
      && (s.found.None? ==> forall id :: id in b && Mergeable(rqs[id]) ==> End(rqs[id]) != offset)
  {
    if b != [] {
      var rest := Scan(rqs, b[1..], offset).kept;
      ScanIs(rqs, b[1..], offset);
      assert b == [b[0]] + b[1..] && ([b[0]] + rest)[1..] == rest;
      ElemsIs(b[1..]);
      ElemsIs(rest);
    }
  }

  /** elv_rqhash_find: the table afterwards, and the request found. */
  function Find(rqs: map<nat, Rq>, hash: Table, offset: int): (Table, Maybe<nat>)
    requires HashOk(rqs, hash)
  {
    assert BucketOk(rqs, hash[Bucket(offset)], Bucket(offset));
    var s := Scan(rqs, hash[Bucket(offset)], offset);
    (hash[Bucket(offset) := s.kept], s.found)
  }

  /** The lookup finds a waiting request that may merge and ends at the sector, just when there is one. */
  lemma FindIff(rqs: map<nat, Rq>, hash: Table, offset: int)
    requires HashOk(rqs, hash) && Complete(rqs, hash)
    ensures var found := Find(rqs, hash, offset).1;
      && (found.Some? <==> exists id :: id in rqs && Mergeable(rqs[id]) && End(rqs[id]) == offset)
      && (found.Some? ==> found.value in rqs && Mergeable(rqs[found.value]) && End(rqs[found.value]) == offset)
  {
    assert BucketOk(rqs, hash[Bucket(offset)], Bucket(offset));
    ScanIs(rqs, hash[Bucket(offset)], offset);
  }

  /** The lookup drops only entries that cannot merge. */
  lemma FindKeeps(rqs: map<nat, Rq>, hash: Table, offset: int)
    requires HashOk(rqs, hash) && Complete(rqs, hash)
    ensures var hash1 := Find(rqs, hash, offset).0; HashOk(rqs, hash1) && Complete(rqs, hash1)
  {
    var n := Bucket(offset);
    assert BucketOk(rqs, hash[n], n);
    ScanIs(rqs, hash[n], offset);
    var hash1 := Find(rqs, hash, offset).0;
    forall k | 0 <= k < |hash1| ensures BucketOk(rqs, hash1[k], k) {
      assert BucketOk(rqs, hash[k], k);
    }
  }

  // ----- the table of an elevator -----

  class RqHash {
    var rqs: map<nat, Rq>
    var hash: Table

    /** elv_rqhash_find */
    method RqhashFind(offset: int) returns (found: Maybe<nat>)
      requires HashOk(rqs, hash)
      modifies this`hash
      ensures (hash, found) == Find(rqs, old(hash), offset)
    {
      var k := Bucket(offset);
      assert BucketOk(rqs, hash[k], k);
      ghost var all := Scan(rqs, hash[k], offset);
      var kept, todo: seq<nat> := [], hash[k];
      assert kept + todo == todo && hash[k := todo] == hash;
      while todo != []
        invariant forall id :: id in todo ==> id in rqs
        invariant |hash| == |old(hash)| && hash == old(hash)[k := kept + todo]
        invariant var s := Scan(rqs, todo, offset); all == Lookup(kept + s.kept, s.found)
        decreases |todo|
      {
        var id, rest := todo[0], todo[1..];
        assert todo == [id] + rest;
        if !Mergeable(rqs[id]) {
          hash := hash[k := kept + rest];
        } else if End(rqs[id]) == offset {
          return Some(id);
        } else {
          assert kept + todo == kept + [id] + rest;
          kept := kept + [id];
        }
        todo := rest;
      }
      assert kept + todo == kept;
      return None;
    }

    /** elv_rqhash_reposition, for a request that is now `r` */
    method RqhashReposition(id: nat, r: Rq)
      requires id in rqs && HashOk(rqs, hash) && Complete(rqs, hash)
      modifies this
      ensures rqs == old(rqs)[id := r] && HashOk(rqs, hash) && Complete(rqs, hash)
      ensures hash == Add(Del(old(hash), id), id, End(r))
    {
      Reposition(rqs, hash, id, r);
      hash := Add(Del(hash, id), id, End(r));
      rqs := rqs[id := r];
    }
  }
}
