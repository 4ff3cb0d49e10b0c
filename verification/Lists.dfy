/** Lists of names, as the block layer's queues use them. */
module Lists {

  datatype Maybe<T> = None | Some(value: T)

  function Elems(s: seq<nat>): set<nat> { if s == [] then {} else {s[0]} + Elems(s[1..]) }

  ghost predicate NoDup(s: seq<nat>) { s != [] ==> s[0] !in Elems(s[1..]) && NoDup(s[1..]) }

  function Without(s: seq<nat>, id: nat): seq<nat> {
    if s == [] then [] else (if s[0] == id then [] else [s[0]]) + Without(s[1..], id)
  }

  /** What follows `id`. */
  function Latter(s: seq<nat>, id: nat): Maybe<nat> {
    if s == [] then None
    else if s[0] == id then if |s| > 1 then Some(s[1]) else None
    else Latter(s[1..], id)
  }

  lemma {:induction false} ElemsIs(s: seq<nat>)
    ensures forall x :: x in Elems(s) <==> x in s
  {
    if s != [] {
      ElemsIs(s[1..]);
      assert s == [s[0]] + s[1..];
    }
  }

  lemma {:induction false} ElemsAppend(s: seq<nat>, t: seq<nat>)
    ensures Elems(s + t) == Elems(s) + Elems(t)
    ensures NoDup(s) && NoDup(t) && Elems(s) !! Elems(t) ==> NoDup(s + t)
  {
    if s == [] {
      assert s + t == t;
    } else {
      assert (s + t)[1..] == s[1..] + t;
      ElemsAppend(s[1..], t);
    }
  }

  lemma {:induction false} WithoutIs(s: seq<nat>, id: nat)
    ensures Elems(Without(s, id)) == Elems(s) - {id}
    ensures NoDup(s) ==> NoDup(Without(s, id)) && |Without(s, id)| == |s| - if id in Elems(s) then 1 else 0
  {
    if s != [] {
      WithoutIs(s[1..], id);
      var w := Without(s[1..], id);
      assert ([s[0]] + w)[1..] == w && [] + w == w;
    }
  }

  lemma WithoutIn(s: seq<nat>, id: nat)
    ensures forall x :: x in Without(s, id) <==> x in s && x != id
    ensures NoDup(s) ==> NoDup(Without(s, id))
  {
    WithoutIs(s, id);
    ElemsIs(s);
    ElemsIs(Without(s, id));
  }

  lemma {:induction false} WithoutAll(s: seq<nat>, id: nat)
    requires id !in Elems(s)
    ensures Without(s, id) == s
  {
    if s != [] {
      WithoutAll(s[1..], id);
      assert s == [s[0]] + s[1..];
    }
  }

  lemma {:induction false} LatterIn(s: seq<nat>, id: nat)
    requires NoDup(s)
    ensures Latter(s, id).Some? ==> Latter(s, id).value in Elems(s) && Latter(s, id).value != id
  {
    if s != [] {
      LatterIn(s[1..], id);
    }
  }
}
