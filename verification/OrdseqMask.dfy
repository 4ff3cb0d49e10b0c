/** q->ordseq as the mask of bits that the source keeps: what `|=` and 1 << ffz compute on it. */
module OrdseqMask {
  import opened Ordered

  const STARTED_BIT: bv8 := 0x01
  const DRAIN_BIT: bv8 := 0x02
  const PREFLUSH_BIT: bv8 := 0x04
  const BAR_BIT: bv8 := 0x08
  const POSTFLUSH_BIT: bv8 := 0x10
  const DONE_BIT: bv8 := 0x20
  const ABOVE: bv8 := 0xE0

  /** The bits below DONE. */
  type Mask = b: bv8 | b & ABOVE == 0

  function Decode(b: Mask): Ordseq {
    Ordseq(b & STARTED_BIT != 0, b & DRAIN_BIT != 0, b & PREFLUSH_BIT != 0, b & BAR_BIT != 0, b & POSTFLUSH_BIT != 0)
  }

  /** The number a single sequence bit stands for. */
  function SeqValue(b: bv8): int {
    if b == 0 then 0 else if b == STARTED_BIT then 1 else if b == DRAIN_BIT then DRAIN
    else if b == PREFLUSH_BIT then PREFLUSH else if b == BAR_BIT then BAR
    else if b == POSTFLUSH_BIT then POSTFLUSH else DONE
  }

  predicate SequenceBit(b: bv8) {
    || b == 0 || b == STARTED_BIT || b == DRAIN_BIT || b == PREFLUSH_BIT
    || b == BAR_BIT || b == POSTFLUSH_BIT || b == DONE_BIT
  }

  /** The lowest clear bit, as 1 << ffz(b) gives it. */
  method FirstZeroBit(b: Mask) returns (s: bv8)
    ensures SequenceBit(s) && s != 0
    ensures b & s == 0 && b & (s - 1) == s - 1
  {
    s := 1;
    var i := 0;
    while b & s != 0
      invariant 0 <= i <= 5
      invariant s == (if i == 0 then 1 else if i == 1 then 2 else if i == 2 then 4 else if i == 3 then 8
                      else if i == 4 then 16 else 32)
      invariant b & (s - 1) == s - 1
      decreases 5 - i
    {
      s := s << 1;
      i := i + 1;
    }
  }

  lemma LowestClearIsCurrent(b: Mask, s: bv8)
    requires b != 0 && SequenceBit(s) && s != 0
    requires b & s == 0 && b & (s - 1) == s - 1
    ensures SeqValue(s) == CurSeq(Decode(b))
  {
  }

  /** blk_ordered_cur_seq */
  method CurrentBit(b: Mask) returns (s: bv8)
    ensures SequenceBit(s) && SeqValue(s) == CurSeq(Decode(b))
  {
    if b == 0 {
      return 0;
    }
    s := FirstZeroBit(b);
    LowestClearIsCurrent(b, s);
  }

  lemma OrBits(a: Mask, b: Mask)
    ensures (a | b) & ABOVE == 0
    ensures Decode(a | b) == Or(Decode(a), Decode(b))
    ensures (a & b != 0) == Overlap(Decode(a), Decode(b))
  {
  }

  lemma IdleBits(b: Mask)
    ensures b == 0 <==> Decode(b) == Idle
  {
  }

  lemma CompareBits(a: bv8, b: bv8)
    requires SequenceBit(a) && SequenceBit(b)
    ensures a < b <==> SeqValue(a) < SeqValue(b)
  {
  }

  /** `|=` on the mask, and the test for the last stage */
  method SetBits(a: Mask, b: Mask) returns (r: Mask, done: bool)
    ensures Decode(r) == Or(Decode(a), Decode(b)) && done == (CurSeq(Decode(r)) == DONE)
  {
    OrBits(a, b);
    r := a | b;
    var cur := CurrentBit(r);
    done := cur == DONE_BIT;
  }
}
