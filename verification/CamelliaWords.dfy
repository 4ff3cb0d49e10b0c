/**
  The 32-bit words of Camellia and what the cipher does with them.  A word is its
  32 bits, the most significant first, so that `x[..8]` is the byte `x >> 24`.
 */
module CamelliaWords {

  type Word = s: seq<bool> | |s| == 32 witness seq(32, _ => false)
  type Byte = s: seq<bool> | |s| == 8 witness seq(8, _ => false)

  function Clear(): Word { seq(32, i requires 0 <= i < 32 => false) }

  function XorW(a: Word, b: Word): Word { seq(32, i requires 0 <= i < 32 => a[i] != b[i]) }
  function AndW(a: Word, b: Word): Word { seq(32, i requires 0 <= i < 32 => a[i] && b[i]) }
  function OrW(a: Word, b: Word): Word { seq(32, i requires 0 <= i < 32 => a[i] || b[i]) }
  function NotW(a: Word): Word { seq(32, i requires 0 <= i < 32 => !a[i]) }

  function Rol1(a: Word): Word { a[1..] + a[..1] }
  function Rol8(a: Word): Word { a[8..] + a[..8] }
  function Ror8(a: Word): Word { a[24..] + a[..24] }

  lemma XorWLaws(a: Word, b: Word, c: Word)
    ensures XorW(XorW(a, b), c) == XorW(a, XorW(b, c))
    ensures XorW(a, b) == XorW(b, a)
    ensures XorW(a, a) == Clear() && XorW(a, Clear()) == a && XorW(Clear(), a) == a
  {
  }

  lemma XorWTwice(a: Word, b: Word)
    ensures XorW(XorW(a, b), b) == a
  {
  }

  lemma RotateXor(x: Word, y: Word)
    ensures Rol1(XorW(x, y)) == XorW(Rol1(x), Rol1(y))
    ensures Ror8(XorW(x, y)) == XorW(Ror8(x), Ror8(y))
    ensures Ror8(Rol8(x)) == x
  {
  }

  lemma AndXor(x: Word, m: Word, k: Word)
    ensures AndW(XorW(x, m), k) == XorW(AndW(x, k), AndW(m, k))
  {
  }

  lemma OrXor(y: Word, m: Word, x: Word, d: Word, k: Word)
    ensures XorW(XorW(y, m), OrW(XorW(x, d), k)) == XorW(XorW(y, OrW(x, k)), XorW(m, AndW(d, NotW(k))))
  {
  }

  lemma MixXor(a: Word, b: Word, c: Word, d: Word)
    ensures XorW(XorW(a, b), XorW(c, d)) == XorW(XorW(a, c), XorW(b, d))
  {
  }

  // ----- halves of a block -----

  /** 64 bits: the pair (xxxL, xxxR) of the source. */
  datatype Half = Half(l: Word, r: Word)

  function Zero(): Half { Half(Clear(), Clear()) }

  function Xor(a: Half, b: Half): Half { Half(XorW(a.l, b.l), XorW(a.r, b.r)) }

  lemma XorLaws(a: Half, b: Half, c: Half)
    ensures Xor(Xor(a, b), c) == Xor(a, Xor(b, c))
    ensures Xor(a, b) == Xor(b, a)
    ensures Xor(a, a) == Zero() && Xor(a, Zero()) == a && Xor(Zero(), a) == a
  {
    XorWLaws(a.l, b.l, c.l);
    XorWLaws(a.r, b.r, c.r);
  }

  lemma XorSwap(a: Half, b: Half, c: Half)
    ensures Xor(Xor(a, b), c) == Xor(Xor(a, c), b)
  {
    XorLaws(a, b, c);
    XorLaws(a, c, b);
    XorLaws(b, c, a);
  }

  lemma XorCancel(a: Half, b: Half)
    ensures Xor(Xor(a, b), b) == a
  {
    XorLaws(a, b, b);
    XorLaws(b, b, b);
    XorLaws(a, a, a);
  }

  /** Two keys folded into one: (x ^ a) ^ (f ^ (a ^ b)) is (x ^ f) ^ b. */
  lemma XorFold(x: Half, f: Half, a: Half, b: Half)
    ensures Xor(Xor(x, a), Xor(f, Xor(a, b))) == Xor(Xor(x, f), b)
  {
    XorLaws(Xor(x, a), f, Xor(a, b));
    XorSwap(x, a, f);
    XorLaws(Xor(Xor(x, f), a), a, b);
    XorCancel(Xor(x, f), a);
  }

  // ----- FL and its inverse, section 2.4.2 of RFC 3713 -----

  function FL(x: Half, k: Half): Half {
    var r := XorW(x.r, Rol1(AndW(x.l, k.l)));
    Half(XorW(x.l, OrW(r, k.r)), r)
  }

  function FLInv(y: Half, k: Half): Half {
    var l := XorW(y.l, OrW(y.r, k.r));
    Half(l, XorW(y.r, Rol1(AndW(l, k.l))))
  }

  lemma FLRoundTrip(x: Half, k: Half)
    ensures FLInv(FL(x, k), k) == x && FL(FLInv(x, k), k) == x
  {
    var r, l := XorW(x.r, Rol1(AndW(x.l, k.l))), XorW(x.l, OrW(x.r, k.r));
    XorWTwice(x.l, OrW(r, k.r));
    XorWTwice(x.r, Rol1(AndW(x.l, k.l)));
    XorWTwice(x.l, OrW(x.r, k.r));
    XorWTwice(x.r, Rol1(AndW(l, k.l)));
  }

  /** The linear part of FLInv: what it does to a difference. */
  function Shift(m: Half, k: Half): Half {
    var l := XorW(m.l, AndW(m.r, NotW(k.r)));
    Half(l, XorW(m.r, Rol1(AndW(l, k.l))))
  }

  lemma FLInvShift(y: Half, m: Half, k: Half)
    ensures FLInv(Xor(y, m), k) == Xor(FLInv(y, k), Shift(m, k))
  {
    var l, d := XorW(y.l, OrW(y.r, k.r)), XorW(m.l, AndW(m.r, NotW(k.r)));
    OrXor(y.l, m.l, y.r, m.r, k.r);
    AndXor(l, d, k.l);
    RotateXor(AndW(l, k.l), AndW(d, k.l));
    MixXor(y.r, m.r, Rol1(AndW(l, k.l)), Rol1(AndW(d, k.l)));
  }

  /** FL turns the shifted difference back. */
  lemma FLShift(x: Half, m: Half, k: Half)
    ensures FL(Xor(x, Shift(m, k)), k) == Xor(FL(x, k), m)
  {
    var y := FL(x, k);
    FLRoundTrip(x, k);
    FLInvShift(y, m, k);
    FLRoundTrip(Xor(y, m), k);
  }
}
