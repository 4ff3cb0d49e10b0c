/** Camellia as section 2.3 of RFC 3713 defines it, and as the source computes it. */
module CamelliaCipher {
  import opened CamelliaWords
  import opened CamelliaBlocks

  /** The four tables that combine S-boxes and permutation; their contents do not matter here. */
  datatype Tables = Tables(sp1110: Byte -> Word, sp0222: Byte -> Word, sp3033: Byte -> Word, sp4404: Byte -> Word)

  function SpLeft(t: Tables, x: Word): Word {
    XorW(XorW(XorW(t.sp1110(x[..8]), t.sp0222(x[8..16])), t.sp3033(x[16..24])), t.sp4404(x[24..]))
  }

  function SpRight(t: Tables, x: Word): Word {
    XorW(XorW(XorW(t.sp1110(x[24..]), t.sp0222(x[..8])), t.sp3033(x[8..16])), t.sp4404(x[16..24]))
  }

  /** CAMELLIA_F, once the key has been added to its input. */
  function G(t: Tables, x: Half): Half {
    var yr := SpLeft(t, x.l);
    var yl := XorW(SpRight(t, x.r), yr);
    Half(yl, XorW(Ror8(yr), yl))
  }

  /** Subkey `i`; tables are only read inside their bounds. */
  function At(s: seq<Half>, i: int): Half { if 0 <= i < |s| then s[i] else Zero() }

  /** The F-function without its key, and a round as the source writes it. */
  type Mix = Half -> Half
  type Round = (Half, Half, Half) -> Half

  function MixOf(t: Tables): Mix { x => G(t, x) }

  // ----- the cipher of the standard: n blocks use subkeys 0 .. 8n+1 -----

  function PlainTwo(g: Mix, s: seq<Half>, i: nat, st: State): State {
    var b := Xor(st.b, g(Xor(st.a, At(s, i))));
    State(Xor(st.a, g(Xor(b, At(s, i + 1)))), b)
  }

  function PlainSix(g: Mix, s: seq<Half>, i: nat, st: State): State {
    PlainTwo(g, s, i + 4, PlainTwo(g, s, i + 2, PlainTwo(g, s, i, st)))
  }

  function Fls(st: State, kl: Half, kr: Half): State { State(FL(st.a, kl), FLInv(st.b, kr)) }

  function PlainRounds(g: Mix, s: seq<Half>): Layer { (j: nat, st) => PlainSix(g, s, 8 * j + 2, st) }

  /** FL on the left half and its inverse on the right one. */
  function FlsLayer(s: seq<Half>): Layer { (j: nat, st) => Fls(st, At(s, 8 * j + 8), At(s, 8 * j + 9)) }

  /** With any F-function in place of the standard's */
  function EncryptWith(g: Mix, s: seq<Half>, n: nat, m: State): State
    requires n > 0
  {
    var st := Blocks(PlainRounds(g, s), FlsLayer(s), 0, n, State(Xor(m.a, At(s, 0)), Xor(m.b, At(s, 1))));
    State(Xor(st.b, At(s, 8 * n)), Xor(st.a, At(s, 8 * n + 1)))
  }

  function PlainEncrypt(t: Tables, s: seq<Half>, n: nat, m: State): State
    requires n > 0
  {
    EncryptWith(MixOf(t), s, n, m)
  }

  // ----- the cipher of the source: n blocks use table entries 0 .. 8n -----

  /** CAMELLIA_ROUNDSM: the new value of y. */
  function RoundSm(t: Tables, x: Half, k: Half, y: Half): Half {
    var il := XorW(SpLeft(t, x.l), k.l);
    var ir := XorW(SpRight(t, x.r), XorW(il, k.r));
    Half(XorW(y.l, ir), XorW(y.r, XorW(Ror8(il), ir)))
  }

  function RoundOf(t: Tables): Round { (x, k, y) => RoundSm(t, x, k, y) }

  function FastTwo(rd: Round, k: seq<Half>, i: nat, st: State): State {
    var b := rd(st.a, At(k, i), st.b);
    State(rd(b, At(k, i + 1), st.a), b)
  }

  function FastSix(rd: Round, k: seq<Half>, i: nat, st: State): State {
    FastTwo(rd, k, i + 4, FastTwo(rd, k, i + 2, FastTwo(rd, k, i, st)))
  }

  function FastRounds(rd: Round, k: seq<Half>): Layer { (j: nat, st) => FastSix(rd, k, 8 * j + 2, st) }

  /** camellia_do_encrypt, before the caller swaps the halves. */
  function FastEncrypt(t: Tables, k: seq<Half>, n: nat, m: State): State
    requires n > 0
  {
    var st := Blocks(FastRounds(RoundOf(t), k), FlsLayer(k), 0, n, State(Xor(m.a, At(k, 0)), m.b));
    State(st.a, Xor(st.b, At(k, 8 * n)))
  }

  function BackTwo(rd: Round, k: seq<Half>, i: nat, st: State): State {
    var b := rd(st.a, At(k, i + 1), st.b);
    State(rd(b, At(k, i), st.a), b)
  }

  function BackSix(rd: Round, k: seq<Half>, i: nat, st: State): State {
    BackTwo(rd, k, i, BackTwo(rd, k, i + 2, BackTwo(rd, k, i + 4, st)))
  }

  function BackRounds(rd: Round, k: seq<Half>): Layer { (j: nat, st) => BackSix(rd, k, 8 * j + 2, st) }

  function BackFls(k: seq<Half>): Layer { (j: nat, st) => Fls(st, At(k, 8 * j + 9), At(k, 8 * j + 8)) }

  /** camellia_do_decrypt, before the caller swaps the halves. */
  function FastDecrypt(t: Tables, k: seq<Half>, n: nat, m: State): State
    requires n > 0
  {
    var st := BackBlocks(BackRounds(RoundOf(t), k), BackFls(k), n - 1, State(Xor(m.a, At(k, 8 * n)), m.b));
    State(st.a, Xor(st.b, At(k, 0)))
  }

  // ----- decryption undoes encryption -----

  lemma RoundUndo(t: Tables, x: Half, k: Half, y: Half)
    ensures RoundSm(t, x, k, RoundSm(t, x, k, y)) == y
  {
    var il := XorW(SpLeft(t, x.l), k.l);
    var ir := XorW(SpRight(t, x.r), XorW(il, k.r));
    XorWTwice(y.l, ir);
    XorWTwice(y.r, XorW(Ror8(il), ir));
  }

  ghost predicate Involutive(rd: Round) { forall x, k, y :: rd(x, k, rd(x, k, y)) == y }

  lemma TwoUndo(rd: Round, k: seq<Half>, i: nat, st: State)
    requires Involutive(rd)
    ensures BackTwo(rd, k, i, Swap(FastTwo(rd, k, i, st))) == Swap(st)
  {
  }

  lemma SixUndo(rd: Round, k: seq<Half>, i: nat, st: State)
    requires Involutive(rd)
    ensures BackSix(rd, k, i, Swap(FastSix(rd, k, i, st))) == Swap(st)
  {
    var st1 := FastTwo(rd, k, i, st);
    var st2 := FastTwo(rd, k, i + 2, st1);
    TwoUndo(rd, k, i + 4, st2);
    TwoUndo(rd, k, i + 2, st1);
    TwoUndo(rd, k, i, st);
  }

  lemma FlsUndo(st: State, kl: Half, kr: Half)
    ensures Fls(Swap(Fls(st, kl, kr)), kr, kl) == Swap(st)
  {
    FLRoundTrip(st.a, kl);
    FLRoundTrip(st.b, kr);
  }

  lemma BlocksUndo(rd: Round, k: seq<Half>, n: nat, st: State)
    requires n > 0 && Involutive(rd)
    ensures var out := Blocks(FastRounds(rd, k), FlsLayer(k), 0, n, st);
      BackBlocks(BackRounds(rd, k), BackFls(k), n - 1, Swap(out)) == Swap(st)
  {
    var six, mid, back, backMid := FastRounds(rd, k), FlsLayer(k), BackRounds(rd, k), BackFls(k);
    forall i: nat, x ensures back(i, Swap(six(i, x))) == Swap(x) { SixUndo(rd, k, 8 * i + 2, x); }
    forall i: nat, x ensures backMid(i, Swap(mid(i, x))) == Swap(x) {
      FlsUndo(x, At(k, 8 * i + 8), At(k, 8 * i + 9));
    }
    Undo(six, mid, back, backMid, n - 1, st);
  }

  /** For every key table: decrypting what was encrypted, each with the caller's swap, gives the block back. */
  lemma DecryptUndoesEncrypt(t: Tables, k: seq<Half>, n: nat, m: State)
    requires n > 0
    ensures Swap(FastDecrypt(t, k, n, Swap(FastEncrypt(t, k, n, m)))) == m
  {
    var rd := RoundOf(t);
    var st0 := State(Xor(m.a, At(k, 0)), m.b);
    forall x, y, z ensures rd(x, y, rd(x, y, z)) == z { RoundUndo(t, x, y, z); }
    BlocksUndo(rd, k, n, st0);
    XorCancel(Blocks(FastRounds(rd, k), FlsLayer(k), 0, n, st0).b, At(k, 8 * n));
    XorCancel(m.a, At(k, 0));
  }

  // ----- and encryption undoes decryption -----

  lemma TwoRedo(rd: Round, k: seq<Half>, i: nat, st: State)
    requires Involutive(rd)
    ensures FastTwo(rd, k, i, Swap(BackTwo(rd, k, i, st))) == Swap(st)
  {
  }

  lemma SixRedo(rd: Round, k: seq<Half>, i: nat, st: State)
    requires Involutive(rd)
    ensures FastSix(rd, k, i, Swap(BackSix(rd, k, i, st))) == Swap(st)
  {
    var st1 := BackTwo(rd, k, i + 4, st);
    var st2 := BackTwo(rd, k, i + 2, st1);
    TwoRedo(rd, k, i, st2);
    TwoRedo(rd, k, i + 2, st1);
    TwoRedo(rd, k, i + 4, st);
  }

  lemma BlocksRedo(rd: Round, k: seq<Half>, n: nat, st: State)
    requires n > 0 && Involutive(rd)
    ensures var out := BackBlocks(BackRounds(rd, k), BackFls(k), n - 1, st);
      Blocks(FastRounds(rd, k), FlsLayer(k), 0, n, Swap(out)) == Swap(st)
  {
    var six, mid, back, backMid := FastRounds(rd, k), FlsLayer(k), BackRounds(rd, k), BackFls(k);
    forall i: nat, x ensures six(i, Swap(back(i, x))) == Swap(x) { SixRedo(rd, k, 8 * i + 2, x); }
    forall i: nat, x ensures mid(i, Swap(backMid(i, x))) == Swap(x) {
      FlsUndo(x, At(k, 8 * i + 9), At(k, 8 * i + 8));
    }
    Redo(six, mid, back, backMid, n - 1, st);
  }

  /** For every key table: encrypting what was decrypted gives the block back. */
  lemma EncryptUndoesDecrypt(t: Tables, k: seq<Half>, n: nat, c: State)
    requires n > 0
    ensures Swap(FastEncrypt(t, k, n, Swap(FastDecrypt(t, k, n, c)))) == c
  {
    var rd := RoundOf(t);
    var st0 := State(Xor(c.a, At(k, 8 * n)), c.b);
    forall x, y, z ensures rd(x, y, rd(x, y, z)) == z { RoundUndo(t, x, y, z); }
    BlocksRedo(rd, k, n, st0);
    XorCancel(BackBlocks(BackRounds(rd, k), BackFls(k), n - 1, st0).b, At(k, 0));
    XorCancel(c.a, At(k, 8 * n));
  }
}
