/**
  Runs of six-round blocks with layers between them, for arbitrary blocks: the
  shape that encryption and decryption share, and the two facts about it that
  the cipher needs.
 */
module CamelliaBlocks {
  import opened CamelliaWords

  /** The two halves of a block in progress: D1 and D2, or io[0..1] and io[2..3]. */
  datatype State = State(a: Half, b: Half)

  function Swap(st: State): State { State(st.b, st.a) }

  type Layer = (nat, State) -> State

  /** Blocks j .. n-1, with layer i between block i and block i+1. */
  function Blocks(six: Layer, mid: Layer, j: nat, n: nat, st: State): State
    requires j < n
    decreases n - j
  {
    if j == n - 1 then six(j, st) else Blocks(six, mid, j + 1, n, mid(j, six(j, st)))
  }

  /** Blocks j down to 0, with layer i between block i+1 and block i. */
  function BackBlocks(six: Layer, mid: Layer, j: nat, st: State): State {
    if j == 0 then six(0, st) else BackBlocks(six, mid, j - 1, mid(j - 1, six(j, st)))
  }

  /** If every block and layer simulates its counterpart, so does the whole run. */
  lemma {:induction false} Simulate(six: Layer, mid: Layer, six': Layer, mid': Layer, pre: Layer, post: Layer,
                                    j: nat, n: nat, st: State)
    requires j < n
    requires forall i: nat, x {:trigger six'(i, pre(i, x))} :: i < n ==> six'(i, pre(i, x)) == post(i, six(i, x))
    requires forall i: nat, x {:trigger mid'(i, post(i, x))} ::
               i < n - 1 ==> mid'(i, post(i, x)) == pre(i + 1, mid(i, x))
    ensures Blocks(six', mid', j, n, pre(j, st)) == post(n - 1, Blocks(six, mid, j, n, st))
    decreases n - j
  {
    if j < n - 1 {
      var x := six(j, st);
      assert mid'(j, post(j, x)) == pre(j + 1, mid(j, x));
      Simulate(six, mid, six', mid', pre, post, j + 1, n, mid(j, x));
    }
  }

  /** The last block and layer can be split off the end of a run. */
  lemma {:induction false} BlocksLast(six: Layer, mid: Layer, j: nat, n: nat, st: State)
    requires j < n
    ensures Blocks(six, mid, j, n + 1, st) == six(n, mid(n - 1, Blocks(six, mid, j, n, st)))
    decreases n - j
  {
    if j < n - 1 { BlocksLast(six, mid, j + 1, n, mid(j, six(j, st))); }
  }

  /** Blocks undone one by one from the last undo the run. */
  lemma {:induction false} Undo(six: Layer, mid: Layer, back: Layer, backMid: Layer, n: nat, st: State)
    requires forall i: nat, x {:trigger back(i, Swap(six(i, x)))} :: back(i, Swap(six(i, x))) == Swap(x)
    requires forall i: nat, x {:trigger backMid(i, Swap(mid(i, x)))} :: backMid(i, Swap(mid(i, x))) == Swap(x)
    ensures BackBlocks(back, backMid, n, Swap(Blocks(six, mid, 0, n + 1, st))) == Swap(st)
  {
    if n > 0 {
      BlocksLast(six, mid, 0, n, st);
      var x := Blocks(six, mid, 0, n, st);
      assert back(n, Swap(six(n, mid(n - 1, x)))) == Swap(mid(n - 1, x));
      assert backMid(n - 1, Swap(mid(n - 1, x))) == Swap(x);
      Undo(six, mid, back, backMid, n - 1, st);
    }
  }

  /** The other way round: the run redoes what was undone. */
  lemma {:induction false} Redo(six: Layer, mid: Layer, back: Layer, backMid: Layer, n: nat, st: State)
    requires forall i: nat, x {:trigger six(i, Swap(back(i, x)))} :: six(i, Swap(back(i, x))) == Swap(x)
    requires forall i: nat, x {:trigger mid(i, Swap(backMid(i, x)))} :: mid(i, Swap(backMid(i, x))) == Swap(x)
    ensures Blocks(six, mid, 0, n + 1, Swap(BackBlocks(back, backMid, n, st))) == Swap(st)
  {
    if n == 0 {
      assert six(0, Swap(back(0, st))) == Swap(st);
    } else {
      var x := backMid(n - 1, back(n, st));
      BlocksLast(six, mid, 0, n, Swap(BackBlocks(back, backMid, n, st)));
      Redo(six, mid, back, backMid, n - 1, x);
      assert mid(n - 1, Swap(x)) == Swap(back(n, st));
      assert six(n, Swap(back(n, st))) == Swap(st);
    }
  }
}
