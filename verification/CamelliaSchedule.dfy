/**
  The rewriting of subkeys in camellia_setup_tail, and its meaning: the table it
  builds makes the source's cipher compute the cipher of RFC 3713 with the raw
  subkeys.  `n` is 3 for 128-bit keys and 4 for longer ones; nothing here
  depends on that.
 */
module CamelliaSchedule {
  import opened CamelliaWords
  import opened CamelliaBlocks
  import opened CamelliaCipher

  // ----- what the tail does, entry by entry -----

  /** kw2 as it stands while block `j` is rewritten. */
  function Kw2(s: seq<Half>, j: nat): Half {
    if j == 0 then At(s, 1) else Shift(Kw2(s, j - 1), At(s, 8 * (j - 1) + 9))
  }

  /** kw4 as it stands while block `j` is rewritten. */
  function Kw4(s: seq<Half>, j: nat, n: nat): Half
    decreases n - j
  {
    if j + 1 >= n then At(s, 8 * n + 1) else Shift(Kw4(s, j + 1, n), At(s, 8 * j + 8))
  }

  /** Rounds 2, 4 and 6 of a block, and kw3, absorb kw2.  Subkey 8j+c is written (j, c). */
  function AbsorbKw2(s: seq<Half>, n: nat, j: nat, c: nat): Half {
    if j < n then
      if c == 3 || c == 5 || c == 7 then Xor(At(s, 8 * j + c), Kw2(s, j)) else At(s, 8 * j + c)
    else if c == 0 && n > 0 then Xor(At(s, 8 * j), Kw2(s, n - 1))
    else At(s, 8 * j + c)
  }

  /** Rounds 1, 3 and 5 of a block, and kw1, absorb kw4. */
  function AbsorbKw4(s: seq<Half>, n: nat, j: nat, c: nat): Half {
    if j < n && (c == 2 || c == 4 || c == 6 || (j == 0 && c == 0)) then Xor(At(s, 8 * j + c), Kw4(s, j, n))
    else At(s, 8 * j + c)
  }

  /** The key XOR moves to the end of the F-function. */
  function Fold(s: seq<Half>, n: nat, j: nat, c: nat): Half {
    var i := 8 * j + c;
    if j >= n then Xor(At(s, i), At(s, i - 1))
    else if c == 2 then if j == 0 then At(s, 3) else Xor(Shift(At(s, i - 3), At(s, i - 1)), At(s, i + 1))
    else if c == 7 then if j + 1 == n then At(s, i - 1) else Xor(At(s, i - 1), Shift(At(s, i + 3), At(s, i + 1)))
    else if c >= 3 then Xor(At(s, i - 1), At(s, i + 1))
    else if i == 0 then Xor(At(s, 0), At(s, 2))
    else At(s, i)
  }

  /** The inverse of the last half of the P-function. */
  function InverseP(k: Half): Half {
    var dw := Rol8(XorW(k.l, k.r));
    Half(dw, XorW(k.l, dw))
  }

  /** Entry 8j+c of the finished table. */
  function TableKey(s: seq<Half>, n: nat, j: nat, c: nat): Half {
    if j < n && c >= 2 then InverseP(Fold(s, n, j, c)) else Fold(s, n, j, c)
  }

  function Kw2Absorbed(s: seq<Half>, n: nat, m: nat): (r: seq<Half>)
    ensures |r| == m
  {
    if m == 0 then [] else Kw2Absorbed(s, n, m - 1) + [AbsorbKw2(s, n, (m - 1) / 8, (m - 1) % 8)]
  }

  function Kw4Absorbed(s: seq<Half>, n: nat, m: nat): (r: seq<Half>)
    ensures |r| == m
  {
    if m == 0 then [] else Kw4Absorbed(s, n, m - 1) + [AbsorbKw4(s, n, (m - 1) / 8, (m - 1) % 8)]
  }

  function WithoutKw2(s: seq<Half>, n: nat): seq<Half> { Kw2Absorbed(s, n, 8 * n + 2) }

  function WithoutKw4(s: seq<Half>, n: nat): seq<Half> { Kw4Absorbed(s, n, 8 * n + 2) }

  lemma {:induction false} Kw2AbsorbedAt(s: seq<Half>, n: nat, m: nat, i: nat)
    requires i < m
    ensures Kw2Absorbed(s, n, m)[i] == AbsorbKw2(s, n, i / 8, i % 8)
  {
    if i < m - 1 { Kw2AbsorbedAt(s, n, m - 1, i); }
  }

  lemma {:induction false} Kw4AbsorbedAt(s: seq<Half>, n: nat, m: nat, i: nat)
    requires i < m
    ensures Kw4Absorbed(s, n, m)[i] == AbsorbKw4(s, n, i / 8, i % 8)
  {
    if i < m - 1 { Kw4AbsorbedAt(s, n, m - 1, i); }
  }

  function Absorbed(s: seq<Half>, n: nat): seq<Half> { WithoutKw4(WithoutKw2(s, n), n) }

  /** `k` is the table for absorbed subkeys `s`; the source never writes or reads entry 1. */
  ghost predicate TableOf(k: seq<Half>, s: seq<Half>, n: nat) {
    |k| == 8 * n + 1 && forall i: nat :: i <= 8 * n && i != 1 ==> k[i] == TableKey(s, n, i / 8, i % 8)
  }

  lemma Places(j: nat)
    ensures (8 * j + 2) % 8 == 2 && (8 * j + 3) % 8 == 3 && (8 * j + 4) % 8 == 4
    ensures (8 * j + 5) % 8 == 5 && (8 * j + 6) % 8 == 6 && (8 * j + 7) % 8 == 7
    ensures (8 * j + 8) % 8 == 0 && (8 * j + 9) % 8 == 1
    ensures (8 * j + 2) / 8 == (8 * j + 3) / 8 == (8 * j + 4) / 8 == (8 * j + 5) / 8 == (8 * j + 6) / 8 ==
      (8 * j + 7) / 8 == j
    ensures (8 * j + 8) / 8 == (8 * j + 9) / 8 == j + 1
  {
  }

  // ----- one round -----

  /** With a key treated by `InverseP`, a round adds the key after the F-function. */
  lemma RoundAddsKey(t: Tables, x: Half, k: Half, y: Half)
    ensures RoundSm(t, x, InverseP(k), y) == Xor(y, Xor(G(t, x), k))
  {
    var a, b := SpLeft(t, x.l), SpRight(t, x.r);
    RoundWords(a, b, k.l, k.r, Rol8(XorW(k.l, k.r)));
    RotateXor(a, Rol8(XorW(k.l, k.r)));
    RotateXor(XorW(k.l, k.r), XorW(k.l, k.r));
  }

  lemma RoundWords(a: Word, b: Word, kl: Word, kr: Word, dw: Word)
    ensures XorW(b, XorW(XorW(a, dw), XorW(kl, dw))) == XorW(XorW(b, a), kl)
    ensures XorW(XorW(Ror8(a), XorW(kl, kr)), XorW(XorW(b, a), kl)) == XorW(XorW(Ror8(a), XorW(b, a)), kr)
  {
  }

  ghost predicate AddsKeyAfter(rd: Round, g: Mix) {
    forall x, k, y :: rd(x, InverseP(k), y) == Xor(y, Xor(g(x), k))
  }

  // ----- phase 1: absorb kw2 -----

  lemma TwoKw2(g: Mix, s: seq<Half>, s1: seq<Half>, i: nat, w: Half, st: State)
    requires At(s1, i) == At(s, i) && At(s1, i + 1) == Xor(At(s, i + 1), w)
    ensures var st1 := PlainTwo(g, s1, i, st);
      PlainTwo(g, s, i, State(st.a, Xor(st.b, w))) == State(st1.a, Xor(st1.b, w))
  {
    var f := g(Xor(st.a, At(s, i)));
    var b := Xor(st.b, f);
    XorSwap(st.b, w, f);
    XorLaws(b, w, At(s, i + 1));
    XorLaws(w, At(s, i + 1), w);
  }

  lemma SixKw2(g: Mix, s: seq<Half>, s1: seq<Half>, i: nat, w: Half, st: State)
    requires At(s1, i) == At(s, i) && At(s1, i + 1) == Xor(At(s, i + 1), w)
    requires At(s1, i + 2) == At(s, i + 2) && At(s1, i + 3) == Xor(At(s, i + 3), w)
    requires At(s1, i + 4) == At(s, i + 4) && At(s1, i + 5) == Xor(At(s, i + 5), w)
    ensures var st1 := PlainSix(g, s1, i, st);
      PlainSix(g, s, i, State(st.a, Xor(st.b, w))) == State(st1.a, Xor(st1.b, w))
  {
    var st1 := PlainTwo(g, s1, i, st);
    var st2 := PlainTwo(g, s1, i + 2, st1);
    TwoKw2(g, s, s1, i, w, st);
    TwoKw2(g, s, s1, i + 2, w, st1);
    TwoKw2(g, s, s1, i + 4, w, st2);
  }

  function AddRight(s: seq<Half>): Layer { (j: nat, st: State) => State(st.a, Xor(st.b, Kw2(s, j))) }

  /** Block `j` and the layer behind it, with kw2 absorbed. */
  ghost predicate BlockKw2(s: seq<Half>, s1: seq<Half>, j: nat) {
    var i, w := 8 * j + 2, Kw2(s, j);
    && At(s1, i) == At(s, i) && At(s1, i + 1) == Xor(At(s, i + 1), w)
    && At(s1, i + 2) == At(s, i + 2) && At(s1, i + 3) == Xor(At(s, i + 3), w)
    && At(s1, i + 4) == At(s, i + 4) && At(s1, i + 5) == Xor(At(s, i + 5), w)
  }

  ghost predicate SameLayer(s: seq<Half>, s1: seq<Half>, j: nat) {
    At(s1, 8 * j + 8) == At(s, 8 * j + 8) && At(s1, 8 * j + 9) == At(s, 8 * j + 9)
  }

  lemma Kw2Entry(s: seq<Half>, n: nat, j: nat, c: nat)
    requires c < 8 && 8 * j + c < 8 * n + 2
    ensures At(WithoutKw2(s, n), 8 * j + c) == AbsorbKw2(s, n, j, c)
  {
    Kw2AbsorbedAt(s, n, 8 * n + 2, 8 * j + c);
    assert (8 * j + c) / 8 == j && (8 * j + c) % 8 == c;
  }

  lemma BlockFromKw2(s: seq<Half>, s1: seq<Half>, n: nat, j: nat)
    requires j < n && At(s1, 8 * j + 2) == AbsorbKw2(s, n, j, 2) && At(s1, 8 * j + 3) == AbsorbKw2(s, n, j, 3)
    requires At(s1, 8 * j + 4) == AbsorbKw2(s, n, j, 4) && At(s1, 8 * j + 5) == AbsorbKw2(s, n, j, 5)
    requires At(s1, 8 * j + 6) == AbsorbKw2(s, n, j, 6) && At(s1, 8 * j + 7) == AbsorbKw2(s, n, j, 7)
    ensures BlockKw2(s, s1, j)
  {
  }

  lemma BlocksHaveKw2(s: seq<Half>, n: nat, j: nat)
    requires j < n
    ensures BlockKw2(s, WithoutKw2(s, n), j)
  {
    Kw2Entry(s, n, j, 2);
    Kw2Entry(s, n, j, 3);
    Kw2Entry(s, n, j, 4);
    Kw2Entry(s, n, j, 5);
    Kw2Entry(s, n, j, 6);
    Kw2Entry(s, n, j, 7);
    BlockFromKw2(s, WithoutKw2(s, n), n, j);
  }

  lemma LayersHaveKw2(s: seq<Half>, n: nat, j: nat)
    requires j < n - 1
    ensures SameLayer(s, WithoutKw2(s, n), j)
  {
    Kw2Entry(s, n, j + 1, 0);
    Kw2Entry(s, n, j + 1, 1);
  }

  lemma RoundsKw2(g: Mix, s: seq<Half>, s1: seq<Half>, j: nat, st: State)
    requires BlockKw2(s, s1, j)
    ensures PlainRounds(g, s)(j, AddRight(s)(j, st)) == AddRight(s)(j, PlainRounds(g, s1)(j, st))
  {
    var i, w := 8 * j + 2, Kw2(s, j);
    SixKw2(g, s, s1, i, w, st);
  }

  lemma FlsKw2(s: seq<Half>, s1: seq<Half>, j: nat, st: State)
    requires SameLayer(s, s1, j)
    ensures FlsLayer(s)(j, AddRight(s)(j, st)) == AddRight(s)(j + 1, FlsLayer(s1)(j, st))
  {
    assert Kw2(s, j + 1) == Shift(Kw2(s, j), At(s, 8 * j + 9));
    FLInvShift(st.b, Kw2(s, j), At(s, 8 * j + 9));
  }

  lemma BlocksKw2(g: Mix, s: seq<Half>, s1: seq<Half>, n: nat, st: State)
    requires n > 0 && forall j: nat :: j < n ==> BlockKw2(s, s1, j) && (j < n - 1 ==> SameLayer(s, s1, j))
    ensures Blocks(PlainRounds(g, s), FlsLayer(s), 0, n, AddRight(s)(0, st)) ==
            AddRight(s)(n - 1, Blocks(PlainRounds(g, s1), FlsLayer(s1), 0, n, st))
  {
    var six, mid, six', mid', p := PlainRounds(g, s1), FlsLayer(s1), PlainRounds(g, s), FlsLayer(s), AddRight(s);
    forall i: nat, x | i < n ensures six'(i, p(i, x)) == p(i, six(i, x)) { RoundsKw2(g, s, s1, i, x); }
    forall i: nat, x | i < n - 1 ensures mid'(i, p(i, x)) == p(i + 1, mid(i, x)) { FlsKw2(s, s1, i, x); }
    Simulate(six, mid, six', mid', p, p, 0, n, st);
  }

  // ----- phase 2: absorb kw4 -----

  lemma TwoKw4(g: Mix, s: seq<Half>, s1: seq<Half>, i: nat, z: Half, st: State)
    requires At(s1, i) == Xor(At(s, i), z) && At(s1, i + 1) == At(s, i + 1)
    ensures var st1 := PlainTwo(g, s, i, st);
      PlainTwo(g, s1, i, State(Xor(st.a, z), st.b)) == State(Xor(st1.a, z), st1.b)
  {
    var f := g(Xor(Xor(st.b, g(Xor(st.a, At(s, i)))), At(s, i + 1)));
    XorSwap(st.a, z, f);
    XorLaws(At(s, i), z, z);
    XorLaws(Xor(st.a, z), z, At(s, i));
    XorCancel(st.a, z);
  }

  lemma SixKw4(g: Mix, s: seq<Half>, s1: seq<Half>, i: nat, z: Half, st: State)
    requires At(s1, i) == Xor(At(s, i), z) && At(s1, i + 1) == At(s, i + 1)
    requires At(s1, i + 2) == Xor(At(s, i + 2), z) && At(s1, i + 3) == At(s, i + 3)
    requires At(s1, i + 4) == Xor(At(s, i + 4), z) && At(s1, i + 5) == At(s, i + 5)
    ensures var st1 := PlainSix(g, s, i, st);
      PlainSix(g, s1, i, State(Xor(st.a, z), st.b)) == State(Xor(st1.a, z), st1.b)
  {
    var st1 := PlainTwo(g, s, i, st);
    var st2 := PlainTwo(g, s, i + 2, st1);
    TwoKw4(g, s, s1, i, z, st);
    TwoKw4(g, s, s1, i + 2, z, st1);
    TwoKw4(g, s, s1, i + 4, z, st2);
  }

  function AddLeft(s: seq<Half>, n: nat): Layer { (j: nat, st: State) => State(Xor(st.a, Kw4(s, j, n)), st.b) }

  /** Block `j` with kw4 absorbed. */
  ghost predicate BlockKw4(s: seq<Half>, s1: seq<Half>, j: nat, n: nat) {
    var i, z := 8 * j + 2, Kw4(s, j, n);
    && At(s1, i) == Xor(At(s, i), z) && At(s1, i + 1) == At(s, i + 1)
    && At(s1, i + 2) == Xor(At(s, i + 2), z) && At(s1, i + 3) == At(s, i + 3)
    && At(s1, i + 4) == Xor(At(s, i + 4), z) && At(s1, i + 5) == At(s, i + 5)
  }

  lemma Kw4Entry(s: seq<Half>, n: nat, j: nat, c: nat)
    requires c < 8 && 8 * j + c < 8 * n + 2
    ensures At(WithoutKw4(s, n), 8 * j + c) == AbsorbKw4(s, n, j, c)
  {
    Kw4AbsorbedAt(s, n, 8 * n + 2, 8 * j + c);
    assert (8 * j + c) / 8 == j && (8 * j + c) % 8 == c;
  }

  lemma BlockFromKw4(s: seq<Half>, s1: seq<Half>, n: nat, j: nat)
    requires j < n && At(s1, 8 * j + 2) == AbsorbKw4(s, n, j, 2) && At(s1, 8 * j + 3) == AbsorbKw4(s, n, j, 3)
    requires At(s1, 8 * j + 4) == AbsorbKw4(s, n, j, 4) && At(s1, 8 * j + 5) == AbsorbKw4(s, n, j, 5)
    requires At(s1, 8 * j + 6) == AbsorbKw4(s, n, j, 6) && At(s1, 8 * j + 7) == AbsorbKw4(s, n, j, 7)
    ensures BlockKw4(s, s1, j, n)
  {
  }

  lemma BlocksHaveKw4(s: seq<Half>, n: nat, j: nat)
    requires j < n
    ensures BlockKw4(s, WithoutKw4(s, n), j, n)
  {
    Kw4Entry(s, n, j, 2);
    Kw4Entry(s, n, j, 3);
    Kw4Entry(s, n, j, 4);
    Kw4Entry(s, n, j, 5);
    Kw4Entry(s, n, j, 6);
    Kw4Entry(s, n, j, 7);
    BlockFromKw4(s, WithoutKw4(s, n), n, j);
  }

  lemma LayersHaveKw4(s: seq<Half>, n: nat, j: nat)
    requires j < n - 1
    ensures SameLayer(s, WithoutKw4(s, n), j)
  {
    Kw4Entry(s, n, j + 1, 0);
    Kw4Entry(s, n, j + 1, 1);
  }

  lemma RoundsKw4(g: Mix, s: seq<Half>, s1: seq<Half>, n: nat, j: nat, st: State)
    requires BlockKw4(s, s1, j, n)
    ensures PlainRounds(g, s1)(j, AddLeft(s, n)(j, st)) == AddLeft(s, n)(j, PlainRounds(g, s)(j, st))
  {
    var i, z := 8 * j + 2, Kw4(s, j, n);
    SixKw4(g, s, s1, i, z, st);
  }

  lemma FlsKw4(s: seq<Half>, s1: seq<Half>, n: nat, j: nat, st: State)
    requires SameLayer(s, s1, j) && j < n - 1
    ensures FlsLayer(s1)(j, AddLeft(s, n)(j, st)) == AddLeft(s, n)(j + 1, FlsLayer(s)(j, st))
  {
    assert Kw4(s, j, n) == Shift(Kw4(s, j + 1, n), At(s, 8 * j + 8));
    FLShift(st.a, Kw4(s, j + 1, n), At(s, 8 * j + 8));
  }

  lemma BlocksKw4(g: Mix, s: seq<Half>, s1: seq<Half>, n: nat, st: State)
    requires n > 0 && forall j: nat :: j < n ==> BlockKw4(s, s1, j, n) && (j < n - 1 ==> SameLayer(s, s1, j))
    ensures Blocks(PlainRounds(g, s1), FlsLayer(s1), 0, n, AddLeft(s, n)(0, st)) ==
            AddLeft(s, n)(n - 1, Blocks(PlainRounds(g, s), FlsLayer(s), 0, n, st))
  {
    var six, mid, six', mid', p := PlainRounds(g, s), FlsLayer(s), PlainRounds(g, s1), FlsLayer(s1), AddLeft(s, n);
    forall i: nat, x | i < n ensures six'(i, p(i, x)) == p(i, six(i, x)) { RoundsKw4(g, s, s1, n, i, x); }
    forall i: nat, x | i < n - 1 ensures mid'(i, p(i, x)) == p(i + 1, mid(i, x)) { FlsKw4(s, s1, n, i, x); }
    Simulate(six, mid, six', mid', p, p, 0, n, st);
  }

  // ----- phase 3: fold the keys, then apply the inverse of P -----

  /** Two rounds with folded keys, from differences p, q to differences p2, q2. */
  lemma TwoFold(g: Mix, rd: Round, s: seq<Half>, k: seq<Half>, i: nat, q: Half, p2: Half, st: State)
    requires AddsKeyAfter(rd, g)
    requires At(k, i) == InverseP(Xor(q, At(s, i + 1))) && At(k, i + 1) == InverseP(Xor(At(s, i), p2))
    ensures var st1 := PlainTwo(g, s, i, st);
      FastTwo(rd, k, i, State(Xor(st.a, At(s, i)), Xor(st.b, q))) == State(Xor(st1.a, p2), Xor(st1.b, At(s, i + 1)))
  {
    var p, q2 := At(s, i), At(s, i + 1);
    var f := g(Xor(st.a, p));
    XorFold(st.b, f, q, q2);
    var b := Xor(st.b, f);
    XorFold(st.a, g(Xor(b, q2)), p, p2);
  }

  lemma SixFold(g: Mix, rd: Round, s: seq<Half>, k: seq<Half>, i: nat, q: Half, p2: Half, st: State)
    requires AddsKeyAfter(rd, g)
    requires At(k, i) == InverseP(Xor(q, At(s, i + 1))) && At(k, i + 1) == InverseP(Xor(At(s, i), At(s, i + 2)))
    requires At(k, i + 2) == InverseP(Xor(At(s, i + 1), At(s, i + 3)))
    requires At(k, i + 3) == InverseP(Xor(At(s, i + 2), At(s, i + 4)))
    requires At(k, i + 4) == InverseP(Xor(At(s, i + 3), At(s, i + 5))) &&
      At(k, i + 5) == InverseP(Xor(At(s, i + 4), p2))
    ensures var st1 := PlainSix(g, s, i, st);
      FastSix(rd, k, i, State(Xor(st.a, At(s, i)), Xor(st.b, q))) == State(Xor(st1.a, p2), Xor(st1.b, At(s, i + 5)))
  {
    var st1 := PlainTwo(g, s, i, st);
    var st2 := PlainTwo(g, s, i + 2, st1);
    TwoFold(g, rd, s, k, i, q, At(s, i + 2), st);
    TwoFold(g, rd, s, k, i + 2, At(s, i + 1), At(s, i + 4), st1);
    TwoFold(g, rd, s, k, i + 4, At(s, i + 3), p2, st2);
  }

  /** The difference the right half carries into block `j`, and the left half out of it. */
  function Carried(s: seq<Half>, j: nat): Half {
    if j == 0 then Zero() else Shift(At(s, 8 * j - 1), At(s, 8 * j + 1))
  }

  function Leaving(s: seq<Half>, j: nat, n: nat): Half {
    if j + 1 >= n then Zero() else Shift(At(s, 8 * j + 10), At(s, 8 * j + 8))
  }

  function Entry(s: seq<Half>): Layer {
    (j: nat, st: State) => State(Xor(st.a, At(s, 8 * j + 2)), Xor(st.b, Carried(s, j)))
  }

  function Exit(s: seq<Half>, n: nat): Layer {
    (j: nat, st: State) => State(Xor(st.a, Leaving(s, j, n)), Xor(st.b, At(s, 8 * j + 7)))
  }

  /** Block `j` with folded and treated keys. */
  ghost predicate BlockFolded(s: seq<Half>, k: seq<Half>, j: nat, n: nat) {
    var i := 8 * j + 2;
    && At(k, i) == InverseP(Xor(Carried(s, j), At(s, i + 1)))
    && At(k, i + 1) == InverseP(Xor(At(s, i), At(s, i + 2)))
    && At(k, i + 2) == InverseP(Xor(At(s, i + 1), At(s, i + 3)))
    && At(k, i + 3) == InverseP(Xor(At(s, i + 2), At(s, i + 4)))
    && At(k, i + 4) == InverseP(Xor(At(s, i + 3), At(s, i + 5)))
    && At(k, i + 5) == InverseP(Xor(At(s, i + 4), Leaving(s, j, n)))
  }

  lemma FoldedEntry(s: seq<Half>, k: seq<Half>, n: nat, j: nat, c: nat)
    requires TableOf(k, s, n) && j < n && 2 <= c < 8
    ensures At(k, 8 * j + c) == InverseP(Fold(s, n, j, c))
  {
    assert (8 * j + c) % 8 == c && (8 * j + c) / 8 == j;
    assert k[8 * j + c] == TableKey(s, n, (8 * j + c) / 8, (8 * j + c) % 8);
  }

  lemma BlocksAreFolded(s: seq<Half>, k: seq<Half>, n: nat, j: nat)
    requires TableOf(k, s, n) && j < n
    ensures BlockFolded(s, k, j, n)
  {
    var i := 8 * j + 2;
    FoldedEntry(s, k, n, j, 2);
    FoldedEntry(s, k, n, j, 3);
    FoldedEntry(s, k, n, j, 4);
    FoldedEntry(s, k, n, j, 5);
    FoldedEntry(s, k, n, j, 6);
    FoldedEntry(s, k, n, j, 7);
    FoldEnds(s, n, j);
  }

  lemma FoldEnds(s: seq<Half>, n: nat, j: nat)
    requires j < n
    ensures Fold(s, n, j, 2) == Xor(Carried(s, j), At(s, 8 * j + 3))
    ensures Fold(s, n, j, 7) == Xor(At(s, 8 * j + 6), Leaving(s, j, n))
  {
    XorLaws(At(s, 3), Zero(), Zero());
    XorLaws(At(s, 8 * j + 6), Zero(), Zero());
  }

  lemma LayersAreFolded(s: seq<Half>, k: seq<Half>, n: nat, j: nat)
    requires TableOf(k, s, n) && j < n - 1
    ensures SameLayer(s, k, j)
  {
    Places(j);
  }

  lemma RoundsFold(g: Mix, rd: Round, s: seq<Half>, k: seq<Half>, n: nat, j: nat, st: State)
    requires BlockFolded(s, k, j, n) && AddsKeyAfter(rd, g)
    ensures FastRounds(rd, k)(j, Entry(s)(j, st)) == Exit(s, n)(j, PlainRounds(g, s)(j, st))
  {
    var i := 8 * j + 2;
    SixFold(g, rd, s, k, i, Carried(s, j), Leaving(s, j, n), st);
  }

  lemma FlsFold(s: seq<Half>, k: seq<Half>, n: nat, j: nat, st: State)
    requires SameLayer(s, k, j) && j < n - 1
    ensures FlsLayer(k)(j, Exit(s, n)(j, st)) == Entry(s)(j + 1, FlsLayer(s)(j, st))
  {
    FLShift(st.a, At(s, 8 * j + 10), At(s, 8 * j + 8));
    FLInvShift(st.b, At(s, 8 * j + 7), At(s, 8 * j + 9));
  }

  lemma BlocksFold(g: Mix, rd: Round, s: seq<Half>, k: seq<Half>, n: nat, st: State)
    requires n > 0 && AddsKeyAfter(rd, g)
    requires forall j: nat :: j < n ==> BlockFolded(s, k, j, n) && (j < n - 1 ==> SameLayer(s, k, j))
    ensures Blocks(FastRounds(rd, k), FlsLayer(k), 0, n, Entry(s)(0, st)) ==
            Exit(s, n)(n - 1, Blocks(PlainRounds(g, s), FlsLayer(s), 0, n, st))
  {
    var six, mid, six', mid' := PlainRounds(g, s), FlsLayer(s), FastRounds(rd, k), FlsLayer(k);
    var pre, post := Entry(s), Exit(s, n);
    forall i: nat, x {:trigger six'(i, pre(i, x))} | i < n
      ensures six'(i, pre(i, x)) == post(i, six(i, x))
    {
      RoundsFold(g, rd, s, k, n, i, x);
    }
    forall i: nat, x {:trigger mid'(i, post(i, x))} | i < n - 1
      ensures mid'(i, post(i, x)) == pre(i + 1, mid(i, x))
    {
      FlsFold(s, k, n, i, x);
    }
    Simulate(six, mid, six', mid', pre, post, 0, n, st);
  }

  // ----- the whole cipher -----

  lemma EndKeys(s: seq<Half>, n: nat)
    requires n > 0
    ensures At(WithoutKw2(s, n), 0) == At(s, 0) && At(WithoutKw2(s, n), 8 * n + 1) == At(s, 8 * n + 1)
    ensures At(WithoutKw2(s, n), 8 * n) == Xor(At(s, 8 * n), Kw2(s, n - 1))
    ensures At(WithoutKw4(s, n), 0) == Xor(At(s, 0), Kw4(s, 0, n))
    ensures At(WithoutKw4(s, n), 8 * n) == At(s, 8 * n)
  {
    Kw2Entry(s, n, 0, 0);
    Kw2Entry(s, n, n, 0);
    Kw2Entry(s, n, n, 1);
    Kw4Entry(s, n, 0, 0);
    Kw4Entry(s, n, n, 0);
  }

  lemma TableEnds(s: seq<Half>, k: seq<Half>, n: nat)
    requires n > 0 && TableOf(k, s, n)
    ensures At(k, 0) == Xor(At(s, 0), At(s, 2)) && At(k, 8 * n) == Xor(At(s, 8 * n), At(s, 8 * n - 1))
  {
    Places(n - 1);
  }

  /** The two absorbing phases together. */
  lemma AbsorbedBlocks(g: Mix, s: seq<Half>, n: nat, st: State)
    requires n > 0
    ensures var s1, s2 := WithoutKw2(s, n), Absorbed(s, n);
      var x, y := Blocks(PlainRounds(g, s), FlsLayer(s), 0, n, State(st.a, Xor(st.b, At(s, 1)))),
                  Blocks(PlainRounds(g, s2), FlsLayer(s2), 0, n, State(Xor(st.a, Kw4(s1, 0, n)), st.b));
      x == State(Xor(y.a, Kw4(s1, n - 1, n)), Xor(y.b, Kw2(s, n - 1)))
  {
    var s1 := WithoutKw2(s, n);
    forall j: nat | j < n ensures BlockKw2(s, s1, j) && (j < n - 1 ==> SameLayer(s, s1, j)) {
      BlocksHaveKw2(s, n, j);
      if j < n - 1 { LayersHaveKw2(s, n, j); }
    }
    BlocksKw2(g, s, s1, n, st);
    AbsorbedKw4(g, s1, n, st);
  }

  lemma AbsorbedKw4(g: Mix, s: seq<Half>, n: nat, st: State)
    requires n > 0
    ensures var s1 := WithoutKw4(s, n);
      var x, y := Blocks(PlainRounds(g, s), FlsLayer(s), 0, n, st),
                  Blocks(PlainRounds(g, s1), FlsLayer(s1), 0, n, State(Xor(st.a, Kw4(s, 0, n)), st.b));
      x == State(Xor(y.a, Kw4(s, n - 1, n)), y.b)
  {
    var s1 := WithoutKw4(s, n);
    forall j: nat | j < n ensures BlockKw4(s, s1, j, n) && (j < n - 1 ==> SameLayer(s, s1, j)) {
      BlocksHaveKw4(s, n, j);
      if j < n - 1 { LayersHaveKw4(s, n, j); }
    }
    BlocksKw4(g, s, s1, n, st);
    XorCancel(Blocks(PlainRounds(g, s), FlsLayer(s), 0, n, st).a, Kw4(s, n - 1, n));
  }

  lemma FoldedBlocks(t: Tables, s: seq<Half>, k: seq<Half>, n: nat, st: State)
    requires n > 0 && TableOf(k, s, n)
    ensures var y := Blocks(PlainRounds(MixOf(t), s), FlsLayer(s), 0, n, st);
      Blocks(FastRounds(RoundOf(t), k), FlsLayer(k), 0, n, State(Xor(st.a, At(s, 2)), st.b)) ==
      State(y.a, Xor(y.b, At(s, 8 * n - 1)))
  {
    var g, rd := MixOf(t), RoundOf(t);
    forall x, key, y ensures rd(x, InverseP(key), y) == Xor(y, Xor(g(x), key)) { RoundAddsKey(t, x, key, y); }
    forall j: nat | j < n ensures BlockFolded(s, k, j, n) && (j < n - 1 ==> SameLayer(s, k, j)) {
      BlocksAreFolded(s, k, n, j);
      if j < n - 1 { LayersAreFolded(s, k, n, j); }
    }
    BlocksFold(g, rd, s, k, n, st);
    var y := Blocks(PlainRounds(g, s), FlsLayer(s), 0, n, st);
    XorLaws(st.b, Zero(), Zero());
    XorLaws(y.a, Zero(), Zero());
  }

  /** The halves of the two ciphers around the blocks. */
  lemma Ends(ma: Half, s0: Half, z0: Half, s2: Half, b: Half, s7: Half, w: Half, kw3: Half)
    ensures Xor(Xor(Xor(ma, s0), z0), s2) == Xor(ma, Xor(Xor(s0, z0), s2))
    ensures Xor(Xor(b, s7), Xor(Xor(kw3, w), s7)) == Xor(Xor(b, w), kw3)
  {
    XorLaws(Xor(ma, s0), z0, s2);
    XorLaws(ma, s0, Xor(z0, s2));
    XorLaws(s0, z0, s2);
    XorLaws(Xor(kw3, w), s7, s7);
    XorLaws(s7, Xor(kw3, w), s7);
    XorLaws(b, s7, Xor(s7, Xor(kw3, w)));
    XorLaws(Xor(b, s7), s7, Xor(kw3, w));
    XorCancel(b, s7);
    XorLaws(kw3, w, w);
    XorLaws(b, w, kw3);
    XorLaws(w, kw3, w);
  }

  lemma FastSide(t: Tables, s: seq<Half>, k: seq<Half>, n: nat, m: State, y0: State)
    requires n > 0 && TableOf(k, s, n)
    requires y0.b == m.b && Xor(y0.a, At(s, 2)) == Xor(m.a, Xor(At(s, 0), At(s, 2)))
    ensures var y := Blocks(PlainRounds(MixOf(t), s), FlsLayer(s), 0, n, y0);
      FastEncrypt(t, k, n, m) ==
      State(y.a, Xor(Xor(y.b, At(s, 8 * n - 1)), Xor(At(s, 8 * n), At(s, 8 * n - 1))))
  {
    FoldedBlocks(t, s, k, n, y0);
    TableEnds(s, k, n);
  }

  lemma PlainSide(t: Tables, s: seq<Half>, n: nat, m: State)
    requires n > 0
    ensures var s1, s2 := WithoutKw2(s, n), Absorbed(s, n);
      var y := Blocks(PlainRounds(MixOf(t), s2), FlsLayer(s2), 0, n,
        State(Xor(Xor(m.a, At(s, 0)), Kw4(s1, 0, n)), m.b));
      PlainEncrypt(t, s, n, m) == State(Xor(Xor(y.b, Kw2(s, n - 1)), At(s, 8 * n)), y.a)
  {
    var s1, s2 := WithoutKw2(s, n), Absorbed(s, n);
    var st0 := State(Xor(m.a, At(s, 0)), m.b);
    AbsorbedBlocks(MixOf(t), s, n, st0);
    EndKeys(s, n);
    var y := Blocks(PlainRounds(MixOf(t), s2), FlsLayer(s2), 0, n, State(Xor(st0.a, Kw4(s1, 0, n)), st0.b));
    XorCancel(y.a, At(s, 8 * n + 1));
  }

  /**
    With the table that camellia_setup_tail builds, camellia_do_encrypt followed
    by the caller's swap is the cipher of section 2.3 of RFC 3713 under the raw
    subkeys.
   */
  lemma TableComputesCamellia(t: Tables, s: seq<Half>, k: seq<Half>, n: nat, m: State)
    requires n > 0 && TableOf(k, Absorbed(s, n), n)
    ensures Swap(FastEncrypt(t, k, n, m)) == PlainEncrypt(t, s, n, m)
  {
    var s1, s2 := WithoutKw2(s, n), Absorbed(s, n);
    var y0 := State(Xor(Xor(m.a, At(s, 0)), Kw4(s1, 0, n)), m.b);
    var y := Blocks(PlainRounds(MixOf(t), s2), FlsLayer(s2), 0, n, y0);
    EndKeys(s, n);
    EndKeys(s1, n);
    Ends(m.a, At(s, 0), Kw4(s1, 0, n), At(s2, 2), y.b, At(s2, 8 * n - 1), Kw2(s, n - 1), At(s, 8 * n));
    FastSide(t, s2, k, n, m, y0);
    PlainSide(t, s, n, m);
  }
}
