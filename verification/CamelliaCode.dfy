/** The key schedule tail and the two ciphers as they update their arrays; entry i of an array holds (xL[i], xR[i]). */
module CamelliaCode {
  import opened CamelliaWords
  import opened CamelliaBlocks
  import opened CamelliaCipher
  import opened CamelliaSchedule
  import opened CamelliaStandard

  lemma InBlock(i: nat, j: nat)
    ensures 8 * j <= i < 8 * j + 8 ==> i / 8 == j && i % 8 == i - 8 * j
  {
  }

  // ----- camellia_setup_tail: absorb kw2 -----

  /** Three entries of block `j`, from offset `c` on, each with `w` added. */
  function AddThree(s: seq<Half>, j: nat, c: nat, w: Half): seq<Half>
    requires 8 * j + c + 4 < |s|
  {
    var i := 8 * j + c;
    s[i := Xor(s[i], w)][i + 2 := Xor(s[i + 2], w)][i + 4 := Xor(s[i + 4], w)]
  }

  method AddThreeInPlace(sub: array<Half>, j: nat, c: nat, w: Half)
    requires 8 * j + c + 4 < sub.Length
    modifies sub
    ensures sub[..] == AddThree(old(sub[..]), j, c, w)
  {
    var i := 8 * j + c;
    sub[i] := Xor(sub[i], w);
    sub[i + 2] := Xor(sub[i + 2], w);
    sub[i + 4] := Xor(sub[i + 4], w);
  }

  /** Entry `i` while blocks below `j` have absorbed kw2; entry 1 is scratch. */
  ghost predicate Kw2At(x: Half, raw: seq<Half>, n: nat, j: nat, i: nat) {
    x == if i < 8 * j then AbsorbKw2(raw, n, i / 8, i % 8) else At(raw, i)
  }

  ghost predicate Kw2Below(sub: seq<Half>, raw: seq<Half>, n: nat, j: nat) {
    |sub| == |raw| == 8 * n + 2 &&
    var holds := forall i: nat :: i < |sub| && i != 1 ==> Kw2At(sub[i], raw, n, j, i);
    holds
  }

  lemma Kw2StepAt(x: Half, raw: seq<Half>, n: nat, j: nat, i: nat)
    requires j < n && Kw2At(x, raw, n, j, i)
    ensures var c := i - 8 * j;
      Kw2At(if c == 3 || c == 5 || c == 7 then Xor(x, Kw2(raw, j)) else x, raw, n, j + 1, i)
  {
    InBlock(i, j);
  }

  lemma Kw2Step(sub: seq<Half>, raw: seq<Half>, n: nat, j: nat)
    requires j < n && Kw2Below(sub, raw, n, j)
    ensures Kw2Below(AddThree(sub, j, 3, Kw2(raw, j)), raw, n, j + 1)
  {
    var s1 := AddThree(sub, j, 3, Kw2(raw, j));
    forall i: nat | i < |sub| && i != 1 ensures Kw2At(s1[i], raw, n, j + 1, i) {
      Kw2StepAt(sub[i], raw, n, j, i);
    }
  }

  /** The tail's work on block `j`: kw2, kept in entry 1, is added and then passes the next layer. */
  function Kw2Pass(s: seq<Half>, j: nat, last: bool): seq<Half>
    requires 8 * j + 9 < |s|
  {
    var s1 := AddThree(s, j, 3, s[1]);
    if last then s1 else s1[1 := Shift(s[1], s[8 * j + 9])]
  }

  lemma Kw2Scratch(sub: seq<Half>, raw: seq<Half>, n: nat, j: nat, w: Half)
    requires Kw2Below(sub, raw, n, j)
    ensures Kw2Below(sub[1 := w], raw, n, j)
  {
  }

  lemma Kw2Unread(sub: seq<Half>, raw: seq<Half>, n: nat, j: nat)
    requires j < n && Kw2Below(sub, raw, n, j)
    ensures sub[8 * j + 9] == At(raw, 8 * j + 9)
  {
    assert Kw2At(sub[8 * j + 9], raw, n, j, 8 * j + 9);
  }

  lemma Kw2PassStep(sub: seq<Half>, raw: seq<Half>, n: nat, j: nat)
    requires j < n && Kw2Below(sub, raw, n, j) && sub[1] == Kw2(raw, j)
    ensures var s1 := Kw2Pass(sub, j, j + 1 == n);
      Kw2Below(s1, raw, n, j + 1) && s1[1] == Kw2(raw, if j + 1 == n then j else j + 1)
  {
    var s1 := AddThree(sub, j, 3, sub[1]);
    Kw2Step(sub, raw, n, j);
    Kw2Unread(sub, raw, n, j);
    Kw2Scratch(s1, raw, n, j + 1, Shift(sub[1], sub[8 * j + 9]));
  }

  /** One block; `last` when no layer follows. */
  method Kw2Block(sub: array<Half>, j: nat, last: bool, ghost raw: seq<Half>, ghost n: nat)
    requires j < n && last == (j + 1 == n) && Kw2Below(sub[..], raw, n, j) && sub[1] == Kw2(raw, j)
    modifies sub
    ensures Kw2Below(sub[..], raw, n, j + 1) && sub[1] == Kw2(raw, if last then j else j + 1)
  {
    Kw2PassStep(sub[..], raw, n, j);
    ghost var was := sub[..];
    AddThreeInPlace(sub, j, 3, sub[1]);
    if !last {
      sub[1] := Shift(sub[1], sub[8 * j + 9]);
    }
    assert sub[..] == Kw2Pass(was, j, last);
  }

  /** All blocks and kw3 have absorbed kw2. */
  lemma Kw2End(sub: seq<Half>, raw: seq<Half>, n: nat)
    requires n > 0 && Kw2Below(sub, raw, n, n)
    ensures AgreeOffOne(sub[8 * n := Xor(sub[8 * n], Kw2(raw, n - 1))], WithoutKw2(raw, n))
  {
    forall i: nat | i < 8 * n + 2 && i != 1
      ensures sub[8 * n := Xor(sub[8 * n], Kw2(raw, n - 1))][i] == WithoutKw2(raw, n)[i]
    {
      InBlock(i, n);
      Kw2AbsorbedAt(raw, n, 8 * n + 2, i);
      assert Kw2At(sub[i], raw, n, n, i);
    }
  }

  ghost predicate AgreeOffOne(s: seq<Half>, s1: seq<Half>) {
    |s| == |s1| &&
    var holds := forall i: nat :: i < |s| && i != 1 ==> s[i] == s1[i];
    holds
  }

  /** camellia_setup_tail: absorb kw2 to other subkeys */
  method AbsorbKw2InPlace(sub: array<Half>, n: nat)
    requires (n == 3 || n == 4) && sub.Length == 8 * n + 2
    modifies sub
    ensures AgreeOffOne(sub[..], WithoutKw2(old(sub[..]), n))
  {
    ghost var raw := sub[..];
    Kw2Block(sub, 0, false, raw, n);
    Kw2Block(sub, 1, false, raw, n);
    Kw2Block(sub, 2, n == 3, raw, n);
    if n == 4 {
      Kw2Block(sub, 3, true, raw, n);
    }
    Kw2End(sub[..], raw, n);
    sub[8 * n] := Xor(sub[8 * n], sub[1]);
  }

  // ----- camellia_setup_tail: absorb kw4 -----

  /** Entry `i` while blocks from `j` on have absorbed kw4. */
  ghost predicate Kw4At(x: Half, s: seq<Half>, n: nat, j: nat, i: nat) {
    x == if i >= 8 * j && i != 0 then AbsorbKw4(s, n, i / 8, i % 8) else At(s, i)
  }

  ghost predicate Kw4From(sub: seq<Half>, s: seq<Half>, n: nat, j: nat) {
    |sub| == |s| == 8 * n + 2 &&
    var holds := forall i: nat :: i < |sub| && i != 1 ==> Kw4At(sub[i], s, n, j, i);
    holds
  }

  lemma Kw4StepAt(x: Half, s: seq<Half>, n: nat, j: nat, i: nat)
    requires j < n && Kw4At(x, s, n, j + 1, i)
    ensures var c := i - 8 * j;
      Kw4At(if c == 2 || c == 4 || c == 6 then Xor(x, Kw4(s, j, n)) else x, s, n, j, i)
  {
    InBlock(i, j);
  }

  lemma Kw4Step(sub: seq<Half>, s: seq<Half>, n: nat, j: nat)
    requires j < n && Kw4From(sub, s, n, j + 1)
    ensures Kw4From(AddThree(sub, j, 2, Kw4(s, j, n)), s, n, j)
  {
    var s1 := AddThree(sub, j, 2, Kw4(s, j, n));
    forall i: nat | i < |sub| && i != 1 ensures Kw4At(s1[i], s, n, j, i) {
      Kw4StepAt(sub[i], s, n, j, i);
    }
  }

  lemma Kw4Start(sub: seq<Half>, s: seq<Half>, n: nat)
    requires n > 0 && |s| == 8 * n + 2 && AgreeOffOne(sub, s)
    ensures Kw4From(sub, s, n, n) && sub[8 * n + 1] == Kw4(s, n - 1, n)
  {
    forall i: nat | i < |s| && i != 1 ensures Kw4At(sub[i], s, n, n, i) { InBlock(i, n); }
  }

  /** kw4 in front of block `j` comes from kw4 behind it and the layer's key. */
  lemma Kw4Passes(sub: seq<Half>, s: seq<Half>, n: nat, j: nat)
    requires 0 < j < n && Kw4From(sub, s, n, j)
    ensures Shift(Kw4(s, j, n), sub[8 * j]) == Kw4(s, j - 1, n)
  {
    assert Kw4At(sub[8 * j], s, n, j, 8 * j);
    InBlock(8 * j, j);
  }

  lemma Kw4End(sub: seq<Half>, s: seq<Half>, n: nat)
    requires n > 0 && Kw4From(sub, s, n, 0)
    ensures AgreeOffOne(sub[0 := Xor(sub[0], Kw4(s, 0, n))], WithoutKw4(s, n))
  {
    forall i: nat | i < 8 * n + 2 && i != 1
      ensures sub[0 := Xor(sub[0], Kw4(s, 0, n))][i] == WithoutKw4(s, n)[i]
    {
      Kw4AbsorbedAt(s, n, 8 * n + 2, i);
      assert Kw4At(sub[i], s, n, 0, i);
    }
  }

  /** The tail's work on a block with a layer in front: kw4 is added and then passes that layer. */
  method Kw4Block(sub: array<Half>, j: nat, kw4: Half, n: nat, ghost s: seq<Half>) returns (next: Half)
    requires 0 < j < n && Kw4From(sub[..], s, n, j + 1) && kw4 == Kw4(s, j, n)
    modifies sub
    ensures Kw4From(sub[..], s, n, j) && next == Kw4(s, j - 1, n)
  {
    Kw4Step(sub[..], s, n, j);
    AddThreeInPlace(sub, j, 2, kw4);
    Kw4Passes(sub[..], s, n, j);
    next := Shift(kw4, sub[8 * j]);
  }

  /** The first block, and kw1. */
  method Kw4First(sub: array<Half>, kw4: Half, n: nat, ghost s: seq<Half>)
    requires n > 0 && Kw4From(sub[..], s, n, 1) && kw4 == Kw4(s, 0, n)
    modifies sub
    ensures AgreeOffOne(sub[..], WithoutKw4(s, n))
  {
    Kw4Step(sub[..], s, n, 0);
    AddThreeInPlace(sub, 0, 2, kw4);
    Kw4End(sub[..], s, n);
    sub[0] := Xor(sub[0], kw4);
  }

  /** camellia_setup_tail: absorb kw4 to other subkeys.  `s` is the schedule in `sub`, whose entry 1 is scratch. */
  method AbsorbKw4InPlace(sub: array<Half>, n: nat, ghost s: seq<Half>)
    requires (n == 3 || n == 4) && |s| == 8 * n + 2 && AgreeOffOne(sub[..], s)
    modifies sub
    ensures AgreeOffOne(sub[..], WithoutKw4(s, n))
  {
    Kw4Start(sub[..], s, n);
    if n == 3 {
      Kw4Three(sub, sub[25], 3, s);
    } else {
      var kw4 := Kw4Block(sub, 3, sub[33], 4, s);
      Kw4Three(sub, kw4, 4, s);
    }
  }

  /** The first three blocks, which every key length has. */
  method Kw4Three(sub: array<Half>, kw4: Half, n: nat, ghost s: seq<Half>)
    requires n >= 3 && Kw4From(sub[..], s, n, 3) && kw4 == Kw4(s, 2, n)
    modifies sub
    ensures AgreeOffOne(sub[..], WithoutKw4(s, n))
  {
    var k := Kw4Block(sub, 2, kw4, n, s);
    k := Kw4Block(sub, 1, k, n, s);
    Kw4First(sub, k, n, s);
  }

  // ----- camellia_setup_tail: key XOR is end of F-function -----

  ghost predicate FoldAt(x: Half, s: seq<Half>, n: nat, i: nat) { x == Fold(s, n, i / 8, i % 8) }

  /** Entries below `i` of the table are filled in; entry 1 never is. */
  ghost predicate FilledBelow(k: seq<Half>, s: seq<Half>, n: nat, i: nat) {
    |k| == 8 * n + 1 &&
    var holds := forall e: nat :: e < |k| && e < i && e != 1 ==> FoldAt(k[e], s, n, e);
    holds
  }

  method Put(subkey: array<Half>, j: nat, c: nat, x: Half, ghost s: seq<Half>, ghost n: nat)
    requires c < 8 && 8 * j + c < subkey.Length && FilledBelow(subkey[..], s, n, 8 * j + c) && x == Fold(s, n, j, c)
    modifies subkey
    ensures FilledBelow(subkey[..], s, n, 8 * j + c + 1)
  {
    InBlock(8 * j + c, j);
    assert FoldAt(x, s, n, 8 * j + c);
    subkey[8 * j + c] := x;
  }

  lemma FoldValues(sub: seq<Half>, s: seq<Half>, n: nat, j: nat)
    requires j < n && |s| == 8 * n + 2 && AgreeOffOne(sub, s)
    ensures var i := 8 * j;
      && Fold(s, n, j, 2) == (if j == 0 then sub[3] else Xor(Shift(sub[i - 1], sub[i + 1]), sub[i + 3]))
      && Fold(s, n, j, 3) == Xor(sub[i + 2], sub[i + 4]) && Fold(s, n, j, 4) == Xor(sub[i + 3], sub[i + 5])
      && Fold(s, n, j, 5) == Xor(sub[i + 4], sub[i + 6]) && Fold(s, n, j, 6) == Xor(sub[i + 5], sub[i + 7])
      && Fold(s, n, j, 7) == if j + 1 == n then sub[i + 6] else Xor(sub[i + 6], Shift(sub[i + 10], sub[i + 8]))
  {
  }

  /** The six rounds of block `j`: the first and the last reach across the layers around it. */
  method FoldBlock(subkey: array<Half>, sub: array<Half>, j: nat, n: nat, ghost s: seq<Half>)
    requires j < n && sub.Length == |s| == 8 * n + 2 && sub != subkey && AgreeOffOne(sub[..], s)
    requires FilledBelow(subkey[..], s, n, 8 * j + 2)
    modifies subkey
    ensures FilledBelow(subkey[..], s, n, 8 * j + 8)
  {
    var i := 8 * j;
    FoldValues(sub[..], s, n, j);
    var first := if j == 0 then sub[3] else Xor(Shift(sub[i - 1], sub[i + 1]), sub[i + 3]);
    var last := if j + 1 == n then sub[i + 6] else Xor(sub[i + 6], Shift(sub[i + 10], sub[i + 8]));
    PutThree(subkey, j, 2, first, Xor(sub[i + 2], sub[i + 4]), Xor(sub[i + 3], sub[i + 5]), s, n);
    PutThree(subkey, j, 5, Xor(sub[i + 4], sub[i + 6]), Xor(sub[i + 5], sub[i + 7]), last, s, n);
  }

  method PutThree(subkey: array<Half>, j: nat, c: nat, x: Half, y: Half, z: Half, ghost s: seq<Half>, ghost n: nat)
    requires c < 6 && 8 * j + c + 2 < subkey.Length && FilledBelow(subkey[..], s, n, 8 * j + c)
    requires x == Fold(s, n, j, c) && y == Fold(s, n, j, c + 1) && z == Fold(s, n, j, c + 2)
    modifies subkey
    ensures FilledBelow(subkey[..], s, n, 8 * j + c + 3)
  {
    Put(subkey, j, c, x, s, n);
    Put(subkey, j, c + 1, y, s, n);
    Put(subkey, j, c + 2, z, s, n);
  }

  /** A block and the two keys of the layer behind it. */
  method FoldBlockAndLayer(subkey: array<Half>, sub: array<Half>, j: nat, n: nat, ghost s: seq<Half>)
    requires j + 1 < n && sub.Length == |s| == 8 * n + 2 && sub != subkey && AgreeOffOne(sub[..], s)
    requires FilledBelow(subkey[..], s, n, 8 * j + 2)
    modifies subkey
    ensures FilledBelow(subkey[..], s, n, 8 * j + 10)
  {
    FoldBlock(subkey, sub, j, n, s);
    Put(subkey, j + 1, 0, sub[8 * j + 8], s, n);
    Put(subkey, j + 1, 1, sub[8 * j + 9], s, n);
  }

  method FoldKeys(subkey: array<Half>, sub: array<Half>, n: nat, ghost s: seq<Half>)
    requires (n == 3 || n == 4) && sub.Length == |s| == 8 * n + 2 && AgreeOffOne(sub[..], s)
    requires sub != subkey && subkey.Length == 8 * n + 1
    modifies subkey
    ensures FilledBelow(subkey[..], s, n, 8 * n + 1)
  {
    Put(subkey, 0, 0, Xor(sub[0], sub[2]), s, n);
    assert FilledBelow(subkey[..], s, n, 2);
    FoldBlockAndLayer(subkey, sub, 0, n, s);
    FoldBlockAndLayer(subkey, sub, 1, n, s);
    if n == 4 {
      FoldBlockAndLayer(subkey, sub, 2, n, s);
    }
    FoldBlock(subkey, sub, n - 1, n, s);
    Put(subkey, n, 0, Xor(sub[8 * n], sub[8 * n - 1]), s, n);
  }

  // ----- camellia_setup_tail: apply the inverse of the last half of P-function -----

  ghost predicate FinalAt(x: Half, s: seq<Half>, n: nat, i: nat, e: nat) {
    x == if e < i then TableKey(s, n, e / 8, e % 8) else Fold(s, n, e / 8, e % 8)
  }

  /** Entries below `i` are final; the others still have their key in front of the inverse. */
  ghost predicate FinalBelow(k: seq<Half>, s: seq<Half>, n: nat, i: nat) {
    |k| == 8 * n + 1 &&
    var holds := forall e: nat :: e < |k| && e != 1 ==> FinalAt(k[e], s, n, i, e);
    holds
  }

  lemma InvertAt(x: Half, s: seq<Half>, n: nat, i: nat, e: nat)
    requires FinalAt(x, s, n, i, e) && (e == i ==> e / 8 < n && e % 8 >= 2)
    ensures FinalAt(if e == i then InverseP(x) else x, s, n, i + 1, e)
  {
  }

  method InvertOne(subkey: array<Half>, j: nat, c: nat, ghost s: seq<Half>, ghost n: nat)
    requires j < n && 2 <= c < 8 && FinalBelow(subkey[..], s, n, 8 * j + c)
    modifies subkey
    ensures FinalBelow(subkey[..], s, n, 8 * j + c + 1)
  {
    InBlock(8 * j + c, j);
    ghost var was := subkey[..];
    subkey[8 * j + c] := InverseP(subkey[8 * j + c]);
    forall e: nat | e < |was| && e != 1 ensures FinalAt(subkey[..][e], s, n, 8 * j + c + 1, e) {
      InvertAt(was[e], s, n, 8 * j + c, e);
    }
  }

  lemma LayerAt(x: Half, s: seq<Half>, n: nat, j: nat, e: nat)
    requires FinalAt(x, s, n, 8 * j + 8, e)
    ensures FinalAt(x, s, n, 8 * j + 10, e)
  {
    InBlock(e, j + 1);
  }

  lemma LayerIsFinal(k: seq<Half>, s: seq<Half>, n: nat, j: nat)
    requires j < n && FinalBelow(k, s, n, 8 * j + 8)
    ensures FinalBelow(k, s, n, 8 * j + 10)
  {
    forall e: nat | e < |k| && e != 1 ensures FinalAt(k[e], s, n, 8 * j + 10, e) {
      LayerAt(k[e], s, n, j, e);
    }
  }

  lemma InvertStart(k: seq<Half>, s: seq<Half>, n: nat)
    requires FilledBelow(k, s, n, 8 * n + 1)
    ensures FinalBelow(k, s, n, 2)
  {
    forall e: nat | e < |k| && e != 1 ensures FinalAt(k[e], s, n, 2, e) {
      assert FoldAt(k[e], s, n, e);
    }
  }

  lemma InvertEnd(k: seq<Half>, s: seq<Half>, n: nat)
    requires FinalBelow(k, s, n, 8 * n + 2)
    ensures TableOf(k, s, n)
  {
    forall i: nat | i <= 8 * n && i != 1 ensures k[i] == TableKey(s, n, i / 8, i % 8) {
      assert FinalAt(k[i], s, n, 8 * n + 2, i);
    }
  }

  method InvertKeys(subkey: array<Half>, n: nat, ghost s: seq<Half>)
    requires n > 0 && FilledBelow(subkey[..], s, n, 8 * n + 1)
    modifies subkey
    ensures TableOf(subkey[..], s, n)
  {
    InvertStart(subkey[..], s, n);
    var j := 0;
    while j < n
      invariant j <= n && FinalBelow(subkey[..], s, n, 8 * j + 2)
    {
      InvertOne(subkey, j, 2, s, n);
      InvertOne(subkey, j, 3, s, n);
      InvertOne(subkey, j, 4, s, n);
      InvertOne(subkey, j, 5, s, n);
      InvertOne(subkey, j, 6, s, n);
      InvertOne(subkey, j, 7, s, n);
      LayerIsFinal(subkey[..], s, n, j);
      j := j + 1;
    }
    InvertEnd(subkey[..], s, n);
  }

  /** camellia_setup_tail; `n` is max / 8. */
  method SetupTail(subkey: array<Half>, sub: array<Half>, n: nat)
    requires (n == 3 || n == 4) && sub.Length == 8 * n + 2 && subkey.Length == 8 * n + 1 && sub != subkey
    modifies subkey, sub
    ensures TableOf(subkey[..], Absorbed(old(sub[..]), n), n)
  {
    ghost var raw := sub[..];
    AbsorbKw2InPlace(sub, n);
    AbsorbKw4InPlace(sub, n, WithoutKw2(raw, n));
    FoldKeys(subkey, sub, n, Absorbed(raw, n));
    InvertKeys(subkey, n, Absorbed(raw, n));
  }

  // ----- camellia_do_encrypt and camellia_do_decrypt -----

  /** The four words of `io` as two halves. */
  function StateOf(io: seq<Word>): State
    requires |io| == 4
  {
    State(Half(io[0], io[1]), Half(io[2], io[3]))
  }

  /** CAMELLIA_ROUNDSM: the half at `x` and a key change the half at `y`. */
  method RoundInPlace(t: Tables, io: array<Word>, x: nat, k: Half, y: nat)
    requires io.Length == 4 && ((x == 0 && y == 2) || (x == 2 && y == 0))
    modifies io
    ensures var st, st1 := StateOf(old(io[..])), StateOf(io[..]);
      st1 == if x == 0 then State(st.a, RoundOf(t)(st.a, k, st.b)) else State(RoundOf(t)(st.b, k, st.a), st.b)
  {
    var il := XorW(SpLeft(t, io[x]), k.l);
    var ir := XorW(SpRight(t, io[x + 1]), XorW(il, k.r));
    io[y] := XorW(io[y], ir);
    io[y + 1] := XorW(io[y + 1], XorW(Ror8(il), ir));
  }

  /** CAMELLIA_FLS */
  method FlsInPlace(io: array<Word>, kl: Half, kr: Half)
    requires io.Length == 4
    modifies io
    ensures StateOf(io[..]) == Fls(StateOf(old(io[..])), kl, kr)
  {
    io[2] := XorW(io[2], OrW(io[3], kr.r));
    io[1] := XorW(io[1], Rol1(AndW(io[0], kl.l)));
    io[0] := XorW(io[0], OrW(io[1], kl.r));
    io[3] := XorW(io[3], Rol1(AndW(io[2], kr.l)));
  }

  method RoundsInPlace(t: Tables, io: array<Word>, subkey: array<Half>, j: nat, ghost six: Layer)
    requires io.Length == 4 && 8 * j + 7 < subkey.Length && six == FastRounds(RoundOf(t), subkey[..])
    modifies io
    ensures StateOf(io[..]) == six(j, StateOf(old(io[..])))
  {
    ghost var k, st := subkey[..], StateOf(io[..]);
    SixInPlace(t, io, subkey, 8 * j);
    assert subkey[..] == k;
    FastRoundsAre(RoundOf(t), k, j, st);
  }

  lemma FastRoundsAre(rd: Round, k: seq<Half>, j: nat, st: State)
    ensures FastRounds(rd, k)(j, st) == FastSix(rd, k, 8 * j + 2, st)
  {
  }

  method SixInPlace(t: Tables, io: array<Word>, subkey: array<Half>, i: nat)
    requires io.Length == 4 && i + 7 < subkey.Length
    modifies io
    ensures StateOf(io[..]) == FastSix(RoundOf(t), subkey[..], i + 2, StateOf(old(io[..])))
  {
    RoundInPlace(t, io, 0, subkey[i + 2], 2);
    RoundInPlace(t, io, 2, subkey[i + 3], 0);
    RoundInPlace(t, io, 0, subkey[i + 4], 2);
    RoundInPlace(t, io, 2, subkey[i + 5], 0);
    RoundInPlace(t, io, 0, subkey[i + 6], 2);
    RoundInPlace(t, io, 2, subkey[i + 7], 0);
  }

  method BackRoundsInPlace(t: Tables, io: array<Word>, subkey: array<Half>, j: nat, ghost six: Layer)
    requires io.Length == 4 && 8 * j + 7 < subkey.Length && six == BackRounds(RoundOf(t), subkey[..])
    modifies io
    ensures StateOf(io[..]) == six(j, StateOf(old(io[..])))
  {
    ghost var k, st := subkey[..], StateOf(io[..]);
    BackSixInPlace(t, io, subkey, 8 * j);
    assert subkey[..] == k;
    BackRoundsAre(RoundOf(t), k, j, st);
  }

  lemma BackRoundsAre(rd: Round, k: seq<Half>, j: nat, st: State)
    ensures BackRounds(rd, k)(j, st) == BackSix(rd, k, 8 * j + 2, st)
  {
  }

  method BackSixInPlace(t: Tables, io: array<Word>, subkey: array<Half>, i: nat)
    requires io.Length == 4 && i + 7 < subkey.Length
    modifies io
    ensures StateOf(io[..]) == BackSix(RoundOf(t), subkey[..], i + 2, StateOf(old(io[..])))
  {
    RoundInPlace(t, io, 0, subkey[i + 7], 2);
    RoundInPlace(t, io, 2, subkey[i + 6], 0);
    RoundInPlace(t, io, 0, subkey[i + 5], 2);
    RoundInPlace(t, io, 2, subkey[i + 4], 0);
    RoundInPlace(t, io, 0, subkey[i + 3], 2);
    RoundInPlace(t, io, 2, subkey[i + 2], 0);
  }

  method LayerInPlace(io: array<Word>, subkey: array<Half>, j: nat, ghost mid: Layer)
    requires io.Length == 4 && 8 * j + 9 < subkey.Length && mid == FlsLayer(subkey[..])
    modifies io
    ensures StateOf(io[..]) == mid(j, StateOf(old(io[..])))
  {
    FlsInPlace(io, subkey[8 * j + 8], subkey[8 * j + 9]);
  }

  method BackLayerInPlace(io: array<Word>, subkey: array<Half>, j: nat, ghost mid: Layer)
    requires io.Length == 4 && 8 * j + 9 < subkey.Length && mid == BackFls(subkey[..])
    modifies io
    ensures StateOf(io[..]) == mid(j, StateOf(old(io[..])))
  {
    FlsInPlace(io, subkey[8 * j + 9], subkey[8 * j + 8]);
  }

  /** One half of `io` whitened. */
  method WhitenInPlace(io: array<Word>, x: nat, k: Half)
    requires io.Length == 4 && (x == 0 || x == 2)
    modifies io
    ensures var st, st1 := StateOf(old(io[..])), StateOf(io[..]);
      st1 == if x == 0 then State(Xor(st.a, k), st.b) else State(st.a, Xor(st.b, k))
  {
    io[x] := XorW(io[x], k.l);
    io[x + 1] := XorW(io[x + 1], k.r);
  }

  lemma Unroll(six: Layer, mid: Layer, n: nat, st: State)
    requires n == 3 || n == 4
    ensures var st1 := six(2, mid(1, six(1, mid(0, six(0, st)))));
      Blocks(six, mid, 0, n, st) == if n == 3 then st1 else six(3, mid(2, st1))
  {
    assert Blocks(six, mid, 0, n, st) == Blocks(six, mid, 1, n, mid(0, six(0, st)));
    assert Blocks(six, mid, 1, n, mid(0, six(0, st))) == Blocks(six, mid, 2, n, mid(1, six(1, mid(0, six(0, st)))));
  }

  lemma UnrollBack(six: Layer, mid: Layer, st: State)
    ensures BackBlocks(six, mid, 2, st) == six(0, mid(0, six(1, mid(1, six(2, st)))))
  {
    assert BackBlocks(six, mid, 2, st) == BackBlocks(six, mid, 1, mid(1, six(2, st)));
  }

  /** camellia_do_encrypt; `n` is max / 8. */
  method DoEncrypt(t: Tables, subkey: array<Half>, io: array<Word>, n: nat)
    requires (n == 3 || n == 4) && subkey.Length == 8 * n + 1 && io.Length == 4
    modifies io
    ensures StateOf(io[..]) == FastEncrypt(t, subkey[..], n, StateOf(old(io[..])))
  {
    ghost var six, mid := FastRounds(RoundOf(t), subkey[..]), FlsLayer(subkey[..]);
    WhitenInPlace(io, 0, subkey[0]);
    Unroll(six, mid, n, StateOf(io[..]));
    RoundsInPlace(t, io, subkey, 0, six);
    LayerInPlace(io, subkey, 0, mid);
    RoundsInPlace(t, io, subkey, 1, six);
    LayerInPlace(io, subkey, 1, mid);
    RoundsInPlace(t, io, subkey, 2, six);
    if n == 4 {
      LayerInPlace(io, subkey, 2, mid);
      RoundsInPlace(t, io, subkey, 3, six);
    }
    WhitenInPlace(io, 2, subkey[8 * n]);
  }

  /** The last three blocks of camellia_do_decrypt, which every key length has. */
  method DecryptThree(t: Tables, subkey: array<Half>, io: array<Word>, ghost six: Layer, ghost mid: Layer)
    requires subkey.Length >= 25 && io.Length == 4
    requires six == BackRounds(RoundOf(t), subkey[..]) && mid == BackFls(subkey[..])
    modifies io
    ensures StateOf(io[..]) == BackBlocks(six, mid, 2, StateOf(old(io[..])))
  {
    UnrollBack(six, mid, StateOf(io[..]));
    BackRoundsInPlace(t, io, subkey, 2, six);
    BackLayerInPlace(io, subkey, 1, mid);
    BackRoundsInPlace(t, io, subkey, 1, six);
    BackLayerInPlace(io, subkey, 0, mid);
    BackRoundsInPlace(t, io, subkey, 0, six);
  }

  lemma FirstBack(six: Layer, mid: Layer, j: nat, st: State)
    ensures BackBlocks(six, mid, j + 1, st) == BackBlocks(six, mid, j, mid(j, six(j + 1, st)))
  {
  }

  /** camellia_do_decrypt */
  method DoDecrypt(t: Tables, subkey: array<Half>, io: array<Word>, n: nat)
    requires (n == 3 || n == 4) && subkey.Length == 8 * n + 1 && io.Length == 4
    modifies io
    ensures StateOf(io[..]) == FastDecrypt(t, subkey[..], n, StateOf(old(io[..])))
  {
    ghost var six, mid := BackRounds(RoundOf(t), subkey[..]), BackFls(subkey[..]);
    WhitenInPlace(io, 0, subkey[8 * n]);
    ghost var st := StateOf(io[..]);
    if n == 4 {
      FirstBack(six, mid, 2, st);
      BackRoundsInPlace(t, io, subkey, 3, six);
      BackLayerInPlace(io, subkey, 2, mid);
    }
    DecryptThree(t, subkey, io, six, mid);
    assert StateOf(io[..]) == BackBlocks(six, mid, n - 1, st);
    WhitenInPlace(io, 2, subkey[0]);
  }

  /** camellia_encrypt */
  method Encrypt(t: Tables, subkey: array<Half>, src: seq<Word>, n: nat) returns (dst: seq<Word>)
    requires (n == 3 || n == 4) && |src| == 4 && subkey.Length == 8 * n + 1
    ensures |dst| == 4 && StateOf(dst) == Swap(FastEncrypt(t, subkey[..], n, StateOf(src)))
  {
    var tmp := new Word[][src[0], src[1], src[2], src[3]];
    assert tmp[..] == src;
    DoEncrypt(t, subkey, tmp, n);
    dst := [tmp[2], tmp[3], tmp[0], tmp[1]];
  }

  /** camellia_decrypt */
  method Decrypt(t: Tables, subkey: array<Half>, src: seq<Word>, n: nat) returns (dst: seq<Word>)
    requires (n == 3 || n == 4) && |src| == 4 && subkey.Length == 8 * n + 1
    ensures |dst| == 4 && StateOf(dst) == Swap(FastDecrypt(t, subkey[..], n, StateOf(src)))
  {
    var tmp := new Word[][src[0], src[1], src[2], src[3]];
    assert tmp[..] == src;
    DoDecrypt(t, subkey, tmp, n);
    dst := [tmp[2], tmp[3], tmp[0], tmp[1]];
  }

  // ----- keys and blocks together -----

  /** The table for raw subkeys */
  method BuildTable(raw: seq<Half>, n: nat) returns (subkey: array<Half>)
    requires (n == 3 || n == 4) && |raw| == 8 * n + 2
    ensures fresh(subkey) && subkey.Length == 8 * n + 1 && TableOf(subkey[..], Absorbed(raw, n), n)
  {
    var sub := new Half[|raw|](i requires 0 <= i < |raw| => raw[i]);
    subkey := new Half[8 * n + 1](_ => Zero());
    assert sub[..] == raw;
    SetupTail(subkey, sub, n);
  }

  /** camellia_setup_tail and camellia_encrypt together are the cipher of RFC 3713 under the raw subkeys. */
  method EncryptUnder(b: Boxes, raw: seq<Half>, src: seq<Word>, n: nat) returns (dst: seq<Word>)
    requires (n == 3 || n == 4) && |raw| == 8 * n + 2 && |src| == 4
    ensures |dst| == 4 && StateOf(dst) == StandardEncrypt(b, raw, n, StateOf(src))
  {
    var subkey := BuildTable(raw, n);
    dst := Encrypt(TablesOf(b), subkey, src, n);
    TableComputesStandard(b, raw, subkey[..], n, StateOf(src));
  }

  /** With camellia_decrypt they find the one block that the cipher takes to `src`. */
  method DecryptUnder(b: Boxes, raw: seq<Half>, src: seq<Word>, n: nat) returns (dst: seq<Word>)
    requires (n == 3 || n == 4) && |raw| == 8 * n + 2 && |src| == 4
    ensures |dst| == 4 && StandardEncrypt(b, raw, n, StateOf(dst)) == StateOf(src)
    ensures forall m :: StandardEncrypt(b, raw, n, m) == StateOf(src) ==> m == StateOf(dst)
  {
    var subkey := BuildTable(raw, n);
    dst := Decrypt(TablesOf(b), subkey, src, n);
    EncryptUndoesDecrypt(TablesOf(b), subkey[..], n, StateOf(src));
    TableComputesStandard(b, raw, subkey[..], n, StateOf(dst));
    forall m | StandardEncrypt(b, raw, n, m) == StateOf(src) ensures m == StateOf(dst) {
      DecryptsStandard(b, raw, subkey[..], n, m);
    }
  }
}
