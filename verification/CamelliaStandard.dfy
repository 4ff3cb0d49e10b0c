/**
  The F-function of section 2.4.1 of RFC 3713, byte by byte, for any four S-boxes,
  and the cipher of section 2.3 with it.  The source combines S-boxes and
  permutation in four tables of words; with tables laid out as their names say,
  the two agree.
 */
module CamelliaStandard {
  import opened CamelliaWords
  import opened CamelliaBlocks
  import opened CamelliaCipher
  import opened CamelliaSchedule
  import opened BitMask

  // ----- bytes -----

  function XorB(a: Byte, b: Byte): Byte { seq(8, i requires 0 <= i < 8 => a[i] != b[i]) }

  function Null(): Byte { seq(8, i requires 0 <= i < 8 => false) }

  function Join(a: Byte, b: Byte, c: Byte, d: Byte): Word { a + b + c + d }

  function Xor3(a: Byte, b: Byte, c: Byte): Byte { XorB(XorB(a, b), c) }

  function Xor5(a: Byte, b: Byte, c: Byte, d: Byte, e: Byte): Byte { XorB(Xor3(a, b, c), XorB(d, e)) }

  function Xor6(a: Byte, b: Byte, c: Byte, d: Byte, e: Byte, f: Byte): Byte { XorB(Xor3(a, b, c), Xor3(d, e, f)) }

  // ----- the standard -----

  datatype Boxes = Boxes(s1: Byte -> Byte, s2: Byte -> Byte, s3: Byte -> Byte, s4: Byte -> Byte)

  /** The permutation of the eight bytes */
  function P(t1: Byte, t2: Byte, t3: Byte, t4: Byte, t5: Byte, t6: Byte, t7: Byte, t8: Byte): Half {
    Half(Join(Xor6(t1, t3, t4, t6, t7, t8), Xor6(t1, t2, t4, t5, t7, t8),
              Xor6(t1, t2, t3, t5, t6, t8), Xor6(t2, t3, t4, t5, t6, t7)),
         Join(Xor5(t1, t2, t6, t7, t8), Xor5(t2, t3, t5, t7, t8),
              Xor5(t3, t4, t5, t6, t8), Xor5(t1, t4, t5, t6, t7)))
  }

  /** The F-function, once the key has been added to its input */
  function StandardF(b: Boxes, x: Half): Half {
    P(b.s1(x.l[..8]), b.s2(x.l[8..16]), b.s3(x.l[16..24]), b.s4(x.l[24..]),
      b.s2(x.r[..8]), b.s3(x.r[8..16]), b.s4(x.r[16..24]), b.s1(x.r[24..]))
  }

  function StandardMix(b: Boxes): Mix { x => StandardF(b, x) }

  function StandardEncrypt(b: Boxes, s: seq<Half>, n: nat, m: State): State
    requires n > 0
  {
    EncryptWith(StandardMix(b), s, n, m)
  }

  // ----- the tables -----

  /** camellia_sp1110 has S-box 1 in its first three bytes and nothing in the last, and so on. */
  function TablesOf(b: Boxes): Tables {
    Tables(x => Join(b.s1(x), b.s1(x), b.s1(x), Null()), x => Join(Null(), b.s2(x), b.s2(x), b.s2(x)),
           x => Join(b.s3(x), Null(), b.s3(x), b.s3(x)), x => Join(b.s4(x), b.s4(x), Null(), b.s4(x)))
  }

  /** Four table entries added up */
  lemma RowBytes(t1: Byte, t2: Byte, t3: Byte, t4: Byte)
    ensures XorW(XorW(XorW(Join(t1, t1, t1, Null()), Join(Null(), t2, t2, t2)), Join(t3, Null(), t3, t3)),
                 Join(t4, t4, Null(), t4)) ==
      Join(Xor3(t1, t3, t4), Xor3(t1, t2, t4), Xor3(t1, t2, t3), Xor3(t2, t3, t4))
  {
  }

  lemma JoinXor(a: Byte, b: Byte, c: Byte, d: Byte, a': Byte, b': Byte, c': Byte, d': Byte)
    ensures XorW(Join(a, b, c, d), Join(a', b', c', d')) == Join(XorB(a, a'), XorB(b, b'), XorB(c, c'), XorB(d, d'))
  {
  }

  lemma JoinRotate(a: Byte, b: Byte, c: Byte, d: Byte)
    ensures Ror8(Join(a, b, c, d)) == Join(d, a, b, c)
  {
  }

  lemma LeftBytes(t1: Byte, t2: Byte, t3: Byte, t4: Byte, t5: Byte, t6: Byte, t7: Byte, t8: Byte)
    ensures XorB(Xor3(t8, t6, t7), Xor3(t1, t3, t4)) == Xor6(t1, t3, t4, t6, t7, t8)
    ensures XorB(Xor3(t8, t5, t7), Xor3(t1, t2, t4)) == Xor6(t1, t2, t4, t5, t7, t8)
    ensures XorB(Xor3(t8, t5, t6), Xor3(t1, t2, t3)) == Xor6(t1, t2, t3, t5, t6, t8)
    ensures XorB(Xor3(t5, t6, t7), Xor3(t2, t3, t4)) == Xor6(t2, t3, t4, t5, t6, t7)
  {
  }

  lemma RightBytes(t1: Byte, t2: Byte, t3: Byte, t4: Byte, t5: Byte, t6: Byte, t7: Byte, t8: Byte)
    ensures XorB(Xor3(t2, t3, t4), Xor6(t1, t3, t4, t6, t7, t8)) == Xor5(t1, t2, t6, t7, t8)
    ensures XorB(Xor3(t1, t3, t4), Xor6(t1, t2, t4, t5, t7, t8)) == Xor5(t2, t3, t5, t7, t8)
    ensures XorB(Xor3(t1, t2, t4), Xor6(t1, t2, t3, t5, t6, t8)) == Xor5(t3, t4, t5, t6, t8)
    ensures XorB(Xor3(t1, t2, t3), Xor6(t2, t3, t4, t5, t6, t7)) == Xor5(t1, t4, t5, t6, t7)
  {
  }

  /** What the source computes for one side and the other is the permutation. */
  lemma MixIsP(t1: Byte, t2: Byte, t3: Byte, t4: Byte, t5: Byte, t6: Byte, t7: Byte, t8: Byte)
    ensures var u := Join(Xor3(t1, t3, t4), Xor3(t1, t2, t4), Xor3(t1, t2, t3), Xor3(t2, t3, t4));
      var v := Join(Xor3(t8, t6, t7), Xor3(t8, t5, t7), Xor3(t8, t5, t6), Xor3(t5, t6, t7));
      Half(XorW(v, u), XorW(Ror8(u), XorW(v, u))) == P(t1, t2, t3, t4, t5, t6, t7, t8)
  {
    var u1, u2, u3, u4 := Xor3(t1, t3, t4), Xor3(t1, t2, t4), Xor3(t1, t2, t3), Xor3(t2, t3, t4);
    var v1, v2, v3, v4 := Xor3(t8, t6, t7), Xor3(t8, t5, t7), Xor3(t8, t5, t6), Xor3(t5, t6, t7);
    LeftBytes(t1, t2, t3, t4, t5, t6, t7, t8);
    RightBytes(t1, t2, t3, t4, t5, t6, t7, t8);
    JoinXor(v1, v2, v3, v4, u1, u2, u3, u4);
    JoinRotate(u1, u2, u3, u4);
    JoinXor(u4, u1, u2, u3, XorB(v1, u1), XorB(v2, u2), XorB(v3, u3), XorB(v4, u4));
  }

  /** The F-function that the source computes from its tables is the standard's. */
  lemma TablesGiveF(b: Boxes, x: Half)
    ensures G(TablesOf(b), x) == StandardF(b, x)
  {
    var t1, t2, t3, t4 := b.s1(x.l[..8]), b.s2(x.l[8..16]), b.s3(x.l[16..24]), b.s4(x.l[24..]);
    var t5, t6, t7, t8 := b.s2(x.r[..8]), b.s3(x.r[8..16]), b.s4(x.r[16..24]), b.s1(x.r[24..]);
    RowBytes(t1, t2, t3, t4);
    RowBytes(t8, t5, t6, t7);
    MixIsP(t1, t2, t3, t4, t5, t6, t7, t8);
  }

  /** Two F-functions with the same values give the same cipher. */
  lemma SameCipher(g: Mix, g': Mix, s: seq<Half>, n: nat, m: State)
    requires n > 0 && forall x :: g(x) == g'(x)
    ensures EncryptWith(g, s, n, m) == EncryptWith(g', s, n, m)
  {
    var six, six', mid := PlainRounds(g, s), PlainRounds(g', s), FlsLayer(s);
    SameBlocks(six, six', mid, 0, n, State(Xor(m.a, At(s, 0)), Xor(m.b, At(s, 1))));
  }

  lemma {:induction false} SameBlocks(six: Layer, six': Layer, mid: Layer, j: nat, n: nat, st: State)
    requires j < n && forall i: nat, x :: six(i, x) == six'(i, x)
    ensures Blocks(six, mid, j, n, st) == Blocks(six', mid, j, n, st)
    decreases n - j
  {
    if j < n - 1 { SameBlocks(six, six', mid, j + 1, n, mid(j, six(j, st))); }
  }

  lemma PlainIsStandard(b: Boxes, s: seq<Half>, n: nat, m: State)
    requires n > 0
    ensures PlainEncrypt(TablesOf(b), s, n, m) == StandardEncrypt(b, s, n, m)
  {
    var g, g' := MixOf(TablesOf(b)), StandardMix(b);
    forall x ensures g(x) == g'(x) { TablesGiveF(b, x); }
    SameCipher(g, g', s, n, m);
  }

  /** A round of the source with a treated key is the standard's F-function with the key added behind it. */
  lemma RoundIsStandard(b: Boxes, x: Half, k: Half, y: Half)
    ensures RoundSm(TablesOf(b), x, InverseP(k), y) == Xor(y, Xor(StandardF(b, x), k))
  {
    RoundAddsKey(TablesOf(b), x, k, y);
    TablesGiveF(b, x);
  }

  /** Table setup and encryption together are the cipher of section 2.3 of RFC 3713. */
  lemma TableComputesStandard(b: Boxes, s: seq<Half>, k: seq<Half>, n: nat, m: State)
    requires n > 0 && TableOf(k, Absorbed(s, n), n)
    ensures Swap(FastEncrypt(TablesOf(b), k, n, m)) == StandardEncrypt(b, s, n, m)
  {
    TableComputesCamellia(TablesOf(b), s, k, n, m);
    PlainIsStandard(b, s, n, m);
  }

  /** Decryption with the finished table inverts it. */
  lemma DecryptsStandard(b: Boxes, s: seq<Half>, k: seq<Half>, n: nat, m: State)
    requires n > 0 && TableOf(k, Absorbed(s, n), n)
    ensures Swap(FastDecrypt(TablesOf(b), k, n, StandardEncrypt(b, s, n, m))) == m
  {
    TableComputesStandard(b, s, k, n, m);
    DecryptUndoesEncrypt(TablesOf(b), k, n, m);
  }

  // ----- rotation, as the standard means it -----

  /** The number that bits stand for, the most significant first */
  function Value(s: seq<bool>): nat {
    if s == [] then 0 else 2 * Value(s[..|s| - 1]) + if s[|s| - 1] then 1 else 0
  }

  lemma {:induction false} TopBit(b: bool, s: seq<bool>)
    ensures Value([b] + s) == (if b then Pow2(|s|) else 0) + Value(s) && Value(s) < Pow2(|s|)
    decreases |s|
  {
    var all := [b] + s;
    if s == [] {
      assert all[..0] == [];
    } else {
      assert all[..|s|] == [b] + s[..|s| - 1];
      TopBit(b, s[..|s| - 1]);
    }
  }

  /** A rotation by one doubles the number, and its top bit comes back at the bottom. */
  lemma RotateValue(a: Word)
    ensures var low := Value(a[1..]);
      && low < Pow2(31) && Value(a) == (if a[0] then Pow2(31) else 0) + low
      && Value(Rol1(a)) == 2 * low + if a[0] then 1 else 0
  {
    assert a == [a[0]] + a[1..];
    TopBit(a[0], a[1..]);
    var r := Rol1(a);
    assert r[..|r| - 1] == a[1..];
  }
}
