/** CFQ's choice of the next request of a queue: two neighbours stand for all requests. */
module CfqChoice {
  import opened Lists

  datatype Rq = Rq(pos: int, sync: bool, meta: bool)

  /** cfq_back_max is in KiB. */
  datatype Tunables = Tunables(backMax: nat, backPenalty: nat)

  predicate Wraps(t: Tunables, s: int, last: int) { s < last && s + t.backMax * 2 < last }

  function Distance(t: Tunables, s: int, last: int): int {
    if s >= last then s - last else if Wraps(t, s, last) then 0 else (last - s) * t.backPenalty
  }

  /** cfq_choose_req on two different requests: true for the first. */
  predicate FirstIsBest(t: Tunables, a: Rq, b: Rq, last: int) {
    if a.sync != b.sync then a.sync
    else if a.meta != b.meta then a.meta
    else
      var wrapA, wrapB := Wraps(t, a.pos, last), Wraps(t, b.pos, last);
      var da, db := Distance(t, a.pos, last), Distance(t, b.pos, last);
      if !wrapA && !wrapB then if da != db then da < db else a.pos >= b.pos
      else if wrapA && wrapB then a.pos <= b.pos
      else wrapB
  }

  /** cfq_choose_req */
  function Choose(t: Tunables, a: Maybe<Rq>, b: Maybe<Rq>, last: int): Maybe<Rq> {
    if a.None? || a == b then b
    else if b.None? then a
    else if FirstIsBest(t, a.value, b.value, last) then a
    else b
  }

  /** cfq_find_next_rq: the tree in sector order, and the request at index `i` in it. */
  function FindNext(t: Tunables, tree: seq<Rq>, i: nat): Maybe<Rq>
    requires i < |tree|
  {
    var prev := if i > 0 then Some(tree[i - 1]) else None;
    var next := if i + 1 < |tree| then Some(tree[i + 1]) else if i > 0 then Some(tree[0]) else None;
    Choose(t, next, prev, tree[i].pos)
  }

  ghost predicate Sorted(tree: seq<Rq>) { forall i, j :: 0 <= i < j < |tree| ==> tree[i].pos < tree[j].pos }

  ghost predicate OneClass(tree: seq<Rq>) {
    forall i, j :: 0 <= i < |tree| && 0 <= j < |tree| ==> tree[i].sync == tree[j].sync && tree[i].meta == tree[j].meta
  }

  // ----- a strict order on positions -----

  /** Behind the head by more than back_max, which is in KiB: two sectors each. */
  predicate FarBehind(t: Tunables, s: int, last: int) { s + 2 * t.backMax < last }

  /**
    Which of two sectors is served first, as seen from the head.  Far behind the
    head the lowest comes first, and after everything else.  Otherwise the nearer
    one, where a sector behind counts as back_penalty times as far; if they are as
    far, the higher.
   */
  predicate Closer(t: Tunables, a: int, b: int, last: int) {
    if FarBehind(t, a, last) then FarBehind(t, b, last) && a <= b
    else if FarBehind(t, b, last) then true
    else if a >= last && b >= last then a <= b
    else if a >= last then a - last <= (last - b) * t.backPenalty
    else if b >= last then (last - a) * t.backPenalty < b - last
    else a >= b
  }

  /** The choice between two requests of one class. */
  lemma ChoiceIsCloser(t: Tunables, a: Rq, b: Rq, last: int)
    requires a.sync == b.sync && a.meta == b.meta
    ensures FirstIsBest(t, a, b, last) <==> Closer(t, a.pos, b.pos, last)
  {
    if a.pos < last && b.pos < last {
      if a.pos < b.pos {
        Scaled(last - b.pos, last - a.pos, t.backPenalty);
      } else {
        Scaled(last - a.pos, last - b.pos, t.backPenalty);
      }
    }
  }

  /** Ahead of the head: the lower is closer.  Behind it: the higher, unless both wrap. */
  lemma CloserOrder(t: Tunables, a: int, b: int, last: int)
    requires a < b && a != last && b != last
    ensures last < a ==> Closer(t, a, b, last)
    ensures b < last && !Wraps(t, b, last) ==> Closer(t, b, a, last)
    ensures b < last && Wraps(t, b, last) ==> Closer(t, a, b, last)
  {
  }

  /** Across the head: a sector behind within back_max is as far as back_penalty times its distance. */
  lemma AcrossTheHead(t: Tunables, a: Rq, b: Rq, last: int)
    requires a.sync == b.sync && a.meta == b.meta && b.pos < last < a.pos
    ensures last <= b.pos + 2 * t.backMax ==>
      (FirstIsBest(t, a, b, last) <==> a.pos - last <= (last - b.pos) * t.backPenalty)
    ensures b.pos + 2 * t.backMax < last ==> FirstIsBest(t, a, b, last) && !FirstIsBest(t, b, a, last)
  {
    ChoiceIsCloser(t, a, b, last);
  }

  lemma Scaled(x: int, y: int, p: nat)
    requires x <= y
    ensures x * p <= y * p
  {
    assert (y - x) * p >= 0;
    assert y * p == x * p + (y - x) * p;
  }

  /** The choice is transitive and decides every pair of requests, of any class. */
  lemma ChoiceIsOrder(t: Tunables, a: Rq, b: Rq, c: Rq, last: int)
    ensures FirstIsBest(t, a, b, last) && FirstIsBest(t, b, c, last) ==> FirstIsBest(t, a, c, last)
    ensures FirstIsBest(t, a, b, last) || FirstIsBest(t, b, a, last)
  {
  }

  /** Whatever lies ahead is no closer than the successor; what lies behind, than predecessor or first. */
  lemma NeighbourBeats(t: Tunables, tree: seq<Rq>, i: nat, j: nat)
    requires Sorted(tree) && i < |tree| && j < |tree| && j != i
    ensures i < j && j != i + 1 ==> Closer(t, tree[i + 1].pos, tree[j].pos, tree[i].pos)
    ensures j < i && j != i - 1 && !Wraps(t, tree[i - 1].pos, tree[i].pos) ==>
      Closer(t, tree[i - 1].pos, tree[j].pos, tree[i].pos)
    ensures 0 < j < i && Wraps(t, tree[i - 1].pos, tree[i].pos) ==> Closer(t, tree[0].pos, tree[j].pos, tree[i].pos)
  {
    var last := tree[i].pos;
    if i + 1 < j {
      CloserOrder(t, tree[i + 1].pos, tree[j].pos, last);
    } else if j < i - 1 && !Wraps(t, tree[i - 1].pos, last) {
      CloserOrder(t, tree[j].pos, tree[i - 1].pos, last);
    }
    if 0 < j < i && Wraps(t, tree[i - 1].pos, last) {
      CloserOrder(t, tree[0].pos, tree[j].pos, last);
    }
  }

  // ----- neighbours stand for all: exactly when -----

  /** Synchronous before asynchronous, then metadata before other data. */
  function Class(r: Rq): int { (if r.sync then 2 else 0) + if r.meta then 1 else 0 }

  /** Preferred by class, or within the class by position. */
  predicate Outranks(t: Tunables, a: Rq, b: Rq, last: int) {
    Class(a) > Class(b) || (Class(a) == Class(b) && Closer(t, a.pos, b.pos, last))
  }

  lemma ClassFirst(t: Tunables, a: Rq, b: Rq, last: int)
    ensures FirstIsBest(t, a, b, last) <==> Outranks(t, a, b, last)
  {
    if Class(a) == Class(b) { ChoiceIsCloser(t, a, b, last); }
  }

  /** Whether the neighbour that is chosen is preferred to request `j`. */
  predicate ChosenBeats(t: Tunables, tree: seq<Rq>, i: nat, j: nat)
    requires i < |tree| && j < |tree|
  {
    var best := FindNext(t, tree, i);
    best.Some? && Choose(t, best, Some(tree[j]), tree[i].pos) == best
  }

  /** The successor of request `i`, or the first request behind the last one. */
  function Following(tree: seq<Rq>, i: nat): Rq
    requires i < |tree|
  {
    if i + 1 < |tree| then tree[i + 1] else tree[0]
  }

  /**
    When the choice beats a request ahead: its class is not above that of the
    neighbour ahead, or the predecessor outranks it.
   */
  predicate CoveredAhead(t: Tunables, tree: seq<Rq>, i: nat, j: nat)
    requires i < j < |tree|
  {
    Class(tree[j]) <= Class(tree[i + 1]) || (i > 0 && Outranks(t, tree[i - 1], tree[j], tree[i].pos))
  }

  /**
    When it beats a request behind: while the predecessor does not wrap, it covers
    its own class and those below, or the other neighbour outranks the request.
    Once the predecessor wraps, it covers only the classes below its own, and the
    other neighbour covers its own as well.
   */
  predicate CoveredBehind(t: Tunables, tree: seq<Rq>, i: nat, j: nat)
    requires j < i < |tree|
  {
    var prev, next := tree[i - 1], Following(tree, i);
    || j == i - 1
    || (if Wraps(t, prev.pos, tree[i].pos)
        then Class(tree[j]) <= Class(next) || Class(tree[j]) < Class(prev)
        else Class(tree[j]) <= Class(prev) || Outranks(t, next, tree[j], tree[i].pos))
  }

  /** The choice is the better of the two neighbours, so it beats what either of them beats. */
  lemma EitherBeats(t: Tunables, tree: seq<Rq>, i: nat, j: nat)
    requires Sorted(tree) && i < |tree| && j < |tree| && j != i
    ensures ChosenBeats(t, tree, i, j) <==>
      || tree[j] == Following(tree, i) || FirstIsBest(t, Following(tree, i), tree[j], tree[i].pos)
      || (i > 0 && (j == i - 1 || FirstIsBest(t, tree[i - 1], tree[j], tree[i].pos)))
  {
    var next, last := Following(tree, i), tree[i].pos;
    if i > 0 {
      ChoiceIsOrder(t, next, tree[i - 1], tree[j], last);
      ChoiceIsOrder(t, tree[i - 1], next, tree[j], last);
    }
  }

  /** Exactly when the neighbour that is chosen beats request `j`, for requests of any classes. */
  lemma ChosenBeatsIff(t: Tunables, tree: seq<Rq>, i: nat, j: nat)
    requires Sorted(tree) && i < |tree| && j < |tree| && j != i
    ensures ChosenBeats(t, tree, i, j) <==> if i < j then CoveredAhead(t, tree, i, j) else CoveredBehind(t, tree, i, j)
  {
    var next, last := Following(tree, i), tree[i].pos;
    EitherBeats(t, tree, i, j);
    NeighbourBeats(t, tree, i, j);
    ClassFirst(t, next, tree[j], last);
    if i > 0 {
      ClassFirst(t, tree[i - 1], tree[j], last);
    }
  }

  /**
    Among requests of one class the neighbour that is chosen is served no later
    than every other request of the queue.
   */
  lemma NeighbourIsBest(t: Tunables, tree: seq<Rq>, i: nat, j: nat)
    requires Sorted(tree) && OneClass(tree) && i < |tree| && j < |tree| && j != i
    ensures ChosenBeats(t, tree, i, j)
    ensures var best := FindNext(t, tree, i).value;
      best in tree && best != tree[i] && (best == tree[j] || Closer(t, best.pos, tree[j].pos, tree[i].pos))
  {
    ChosenBeatsIff(t, tree, i, j);
    var best := FindNext(t, tree, i).value;
    assert best in tree;
    ChoiceIsCloser(t, best, tree[j], tree[i].pos);
  }

  /** A request whose class is above that of both neighbours is always missed. */
  lemma HigherClassMissed(t: Tunables, tree: seq<Rq>, i: nat, j: nat)
    requires Sorted(tree) && i < |tree| && j < |tree| && j != i
    requires Class(tree[j]) > Class(Following(tree, i)) && (i > 0 ==> Class(tree[j]) > Class(tree[i - 1]))
    ensures !ChosenBeats(t, tree, i, j)
  {
    ChosenBeatsIff(t, tree, i, j);
  }

  /** For example a metadata request two places behind. */
  lemma ClassMatters()
    ensures
      var tree := [Rq(0, true, true), Rq(10, true, false), Rq(20, true, false), Rq(30, true, false)];
      Sorted(tree) && !ChosenBeats(Tunables(16 * 1024, 2), tree, 2, 0)
  {
    var tree := [Rq(0, true, true), Rq(10, true, false), Rq(20, true, false), Rq(30, true, false)];
    HigherClassMissed(Tunables(16 * 1024, 2), tree, 2, 0);
  }
}
