/** Cipher block chaining over any invertible block function. */
module Cbc {
  import opened BitMask

  /** A block cipher under its key, and the exclusive or of blocks. */
  datatype Cipher<!B> = Cipher(enc: B -> B, dec: B -> B, xor: (B, B) -> B)

  /** Decryption inverts encryption, and a block added twice cancels. */
  ghost predicate Inverts<B(!new)>(m: Cipher<B>) {
    && (forall x {:trigger m.enc(x)} :: m.dec(m.enc(x)) == x)
    && forall a, b {:trigger m.xor(m.xor(a, b), b)} :: m.xor(m.xor(a, b), b) == a
  }

  // ----- section 6.2 of NIST SP 800-38A -----

  function Encrypt<B>(m: Cipher<B>, iv: B, ps: seq<B>): (cs: seq<B>)
    ensures |cs| == |ps|
  {
    if ps == [] then [] else var c := m.enc(m.xor(ps[0], iv)); [c] + Encrypt(m, c, ps[1..])
  }

  function Decrypt<B>(m: Cipher<B>, iv: B, cs: seq<B>): (ps: seq<B>)
    ensures |ps| == |cs|
  {
    if cs == [] then [] else [m.xor(m.dec(cs[0]), iv)] + Decrypt(m, cs[0], cs[1..])
  }

  /** The chaining value behind a ciphertext. */
  function Chain<B>(iv: B, cs: seq<B>): B { if cs == [] then iv else cs[|cs| - 1] }

  lemma {:induction false} DecryptEncrypt<B(!new)>(m: Cipher<B>, iv: B, ps: seq<B>)
    requires Inverts(m)
    ensures Decrypt(m, iv, Encrypt(m, iv, ps)) == ps
  {
    if ps != [] {
      var c := m.enc(m.xor(ps[0], iv));
      DecryptEncrypt(m, c, ps[1..]);
      assert ([c] + Encrypt(m, c, ps[1..]))[1..] == Encrypt(m, c, ps[1..]);
      assert m.dec(c) == m.xor(ps[0], iv);
    }
  }

  /** Text may be split anywhere, if the chaining value is carried over. */
  lemma {:induction false} EncryptSplit<B>(m: Cipher<B>, iv: B, a: seq<B>, b: seq<B>)
    ensures Encrypt(m, iv, a + b) == Encrypt(m, iv, a) + Encrypt(m, Chain(iv, Encrypt(m, iv, a)), b)
  {
    if a == [] {
      assert a + b == b;
    } else {
      var c := m.enc(m.xor(a[0], iv));
      assert (a + b)[1..] == a[1..] + b;
      EncryptSplit(m, c, a[1..], b);
      assert Chain(iv, Encrypt(m, iv, a)) == Chain(c, Encrypt(m, c, a[1..]));
    }
  }

  lemma {:induction false} DecryptSplit<B>(m: Cipher<B>, iv: B, a: seq<B>, b: seq<B>)
    ensures Decrypt(m, iv, a + b) == Decrypt(m, iv, a) + Decrypt(m, Chain(iv, a), b)
  {
    if a == [] {
      assert a + b == b;
    } else {
      assert (a + b)[1..] == a[1..] + b;
      DecryptSplit(m, a[0], a[1..], b);
      assert Chain(iv, a) == Chain(a[0], a[1..]);
    }
  }

  lemma {:induction false} DecryptAt<B>(m: Cipher<B>, iv: B, cs: seq<B>, i: nat)
    requires i < |cs|
    ensures Decrypt(m, iv, cs)[i] == m.xor(m.dec(cs[i]), if i == 0 then iv else cs[i - 1])
  {
    if i > 0 {
      DecryptAt(m, cs[0], cs[1..], i - 1);
    }
  }

  lemma {:induction false} EncryptAt<B>(m: Cipher<B>, iv: B, ps: seq<B>, i: nat)
    requires i < |ps|
    ensures var cs := Encrypt(m, iv, ps); cs[i] == m.enc(m.xor(ps[i], if i == 0 then iv else cs[i - 1]))
  {
    if i > 0 {
      EncryptAt(m, m.enc(m.xor(ps[0], iv)), ps[1..], i - 1);
    }
  }

  // ----- the four loops on one stretch of a buffer: blocks lo .. hi -----

  /** `nbytes` bytes are `blocks` blocks, and `rest` bytes that make no block. */
  ghost predicate Bytes(nbytes: int, blocks: int, rest: nat, bsize: nat) {
    var holds := rest < bsize && nbytes == blocks * bsize + rest;
    holds
  }

  lemma BytesNext(nbytes: int, blocks: int, rest: nat, bsize: nat)
    requires Bytes(nbytes, blocks, rest, bsize) && blocks >= 1
    ensures nbytes >= bsize && Bytes(nbytes - bsize, blocks - 1, rest, bsize)
    ensures nbytes - bsize >= bsize <==> blocks >= 2
    ensures blocks == 1 ==> nbytes - bsize == rest
  {
    assert (blocks - 1) * bsize == blocks * bsize - bsize;
    if blocks >= 2 {
      assert (blocks - 1) * bsize >= bsize;
    }
  }

  /** Where crypto_cbc_decrypt_inplace takes the last block to start, in bytes */
  function LastStart(nbytes: nat, bsize: nat): int
    requires bsize > 0
  {
    nbytes - And(nbytes, bsize - 1) - bsize
  }

  ghost predicate StartsLast(nbytes: nat, blocks: nat, rest: nat, bsize: nat) {
    bsize > 0 && blocks >= 1 && Bytes(nbytes, blocks, rest, bsize) ==> LastStart(nbytes, bsize) == (blocks - 1) * bsize
  }

  /** That is where it starts, for every number of bytes, exactly when the block size is a power of two. */
  lemma StartIsLastBlock(bsize: nat)
    requires bsize > 0
    ensures PowerOfTwo(bsize) <==> forall nbytes: nat, blocks: nat, rest: nat :: StartsLast(nbytes, blocks, rest, bsize)
  {
    MaskIsRemainder(bsize);
    if PowerOfTwo(bsize) {
      forall nbytes: nat, blocks: nat, rest: nat ensures StartsLast(nbytes, blocks, rest, bsize) {
        if blocks >= 1 && Bytes(nbytes, blocks, rest, bsize) {
          Remainder(nbytes, bsize, blocks, rest);
          assert (blocks - 1) * bsize == blocks * bsize - bsize;
        }
      }
    }
    if forall nbytes: nat, blocks: nat, rest: nat :: StartsLast(nbytes, blocks, rest, bsize) {
      assert StartsLast(bsize, 1, 0, bsize);
    }
  }

  lemma BlockIndex(nbytes: nat, blocks: nat, rest: nat, bsize: nat)
    requires PowerOfTwo(bsize) && blocks >= 1 && Bytes(nbytes, blocks, rest, bsize)
    ensures LastStart(nbytes, bsize) >= 0 && LastStart(nbytes, bsize) / bsize == blocks - 1
  {
    StartIsLastBlock(bsize);
    assert StartsLast(nbytes, blocks, rest, bsize);
    Quotient(LastStart(nbytes, bsize), bsize, blocks - 1);
  }

  /** The part of a buffer that a loop leaves alone. */
  twostate predicate Elsewhere<B>(a: array<B>, lo: nat, hi: nat)
    reads a
  {
    forall k :: 0 <= k < a.Length && !(lo <= k < hi) ==> a[k] == old(a[k])
  }

  /** Blocks lo .. hi of a buffer are `out`. */
  ghost predicate Holds<B>(a: array<B>, lo: nat, hi: nat, out: seq<B>)
    reads a
  {
    hi <= a.Length && forall k :: lo <= k < hi ==> k - lo < |out| && a[k] == out[k - lo]
  }

  /** crypto_xor and the cipher on one block */
  method EncryptBlock<B>(m: Cipher<B>, p: B, iv: B) returns (c: B)
    ensures c == m.enc(m.xor(p, iv))
  {
    c := m.xor(p, iv);
    c := m.enc(c);
  }

  /** crypto_cbc_encrypt_segment */
  method EncryptSegment<B(!new)>(m: Cipher<B>, src: array<B>, dst: array<B>, lo: nat, nbytes: nat, bsize: nat, iv0: B,
                                 ghost hi: nat, ghost rest: nat)
    returns (left: nat, iv: B)
    requires src != dst && lo < hi <= src.Length == dst.Length && Bytes(nbytes, hi - lo, rest, bsize)
    modifies dst
    ensures var out := Encrypt(m, iv0, src[lo..hi]); Holds(dst, lo, hi, out) && iv == Chain(iv0, out)
    ensures Elsewhere(dst, lo, hi) && left == rest
  {
    ghost var ps := src[lo..hi];
    ghost var out := Encrypt(m, iv0, ps);
    var i := lo;
    left, iv := nbytes, iv0;
    BytesNext(left, hi - i, rest, bsize);
    while left >= bsize
      invariant lo <= i <= hi && Bytes(left, hi - i, rest, bsize)
      invariant (left >= bsize <==> i < hi) && (i == hi ==> left == rest)
      invariant Holds(dst, lo, i, out) && Elsewhere(dst, lo, i) && iv == if i == lo then iv0 else out[i - 1 - lo]
    {
      BytesNext(left, hi - i, rest, bsize);
      EncryptAt(m, iv0, ps, i - lo);
      iv := EncryptBlock(m, src[i], iv);
      assert iv == out[i - lo];
      dst[i] := iv;
      i := i + 1;
      left := left - bsize;
    }
  }

  /** crypto_cbc_encrypt_inplace */
  method EncryptInPlace<B(!new)>(m: Cipher<B>, buf: array<B>, lo: nat, nbytes: nat, bsize: nat, iv0: B,
                                 ghost hi: nat, ghost rest: nat)
    returns (left: nat, iv: B)
    requires lo < hi <= buf.Length && Bytes(nbytes, hi - lo, rest, bsize)
    modifies buf
    ensures var out := Encrypt(m, iv0, old(buf[lo..hi])); Holds(buf, lo, hi, out) && iv == Chain(iv0, out)
    ensures Elsewhere(buf, lo, hi) && left == rest
  {
    ghost var ps := buf[lo..hi];
    ghost var out := Encrypt(m, iv0, ps);
    var i := lo;
    left, iv := nbytes, iv0;
    BytesNext(left, hi - i, rest, bsize);
    while left >= bsize
      invariant lo <= i <= hi && Bytes(left, hi - i, rest, bsize)
      invariant (left >= bsize <==> i < hi) && (i == hi ==> left == rest)
      invariant Holds(buf, lo, i, out) && Elsewhere(buf, lo, i) && iv == if i == lo then iv0 else out[i - 1 - lo]
    {
      BytesNext(left, hi - i, rest, bsize);
      EncryptAt(m, iv0, ps, i - lo);
      iv := EncryptBlock(m, buf[i], iv);
      assert iv == out[i - lo];
      buf[i] := iv;
      i := i + 1;
      left := left - bsize;
    }
  }

  /** crypto_cbc_decrypt_segment */
  method DecryptSegment<B(!new)>(m: Cipher<B>, src: array<B>, dst: array<B>, lo: nat, nbytes: nat, bsize: nat, iv0: B,
                                 ghost hi: nat, ghost rest: nat)
    returns (left: nat, iv: B)
    requires src != dst && lo < hi <= src.Length == dst.Length && Bytes(nbytes, hi - lo, rest, bsize)
    modifies dst
    ensures Holds(dst, lo, hi, Decrypt(m, iv0, src[lo..hi])) && iv == Chain(iv0, src[lo..hi])
    ensures Elsewhere(dst, lo, hi) && left == rest
  {
    ghost var cs := src[lo..hi];
    ghost var out := Decrypt(m, iv0, cs);
    var i := lo;
    left, iv := nbytes, iv0;
    BytesNext(left, hi - i, rest, bsize);
    while left >= bsize
      invariant lo <= i <= hi && Bytes(left, hi - i, rest, bsize)
      invariant (left >= bsize <==> i < hi) && (i == hi ==> left == rest)
      invariant Holds(dst, lo, i, out) && Elsewhere(dst, lo, i) && iv == if i == lo then iv0 else src[i - 1]
    {
      BytesNext(left, hi - i, rest, bsize);
      DecryptAt(m, iv0, cs, i - lo);
      dst[i] := m.xor(m.dec(src[i]), iv);
      iv := src[i];
      i := i + 1;
      left := left - bsize;
    }
  }

  /** crypto_cbc_decrypt_inplace: from the last block to the first, so that every block is still there to chain to */
  method DecryptInPlace<B(!new)>(m: Cipher<B>, buf: array<B>, lo: nat, nbytes: nat, bsize: nat, iv0: B,
                                 ghost hi: nat, ghost rest: nat)
    returns (left: nat, iv: B)
    requires PowerOfTwo(bsize) && lo < hi <= buf.Length && Bytes(nbytes, hi - lo, rest, bsize)
    modifies buf
    ensures Holds(buf, lo, hi, Decrypt(m, iv0, old(buf[lo..hi]))) && iv == Chain(iv0, old(buf[lo..hi]))
    ensures Elsewhere(buf, lo, hi) && left == rest
  {
    ghost var cs := buf[lo..hi];
    ghost var out := Decrypt(m, iv0, cs);
    left := nbytes;
    BlockIndex(nbytes, hi - lo, rest, bsize);
    var i := lo + LastStart(nbytes, bsize) / bsize;
    iv := buf[i];
    var p: B;
    while true
      invariant lo <= i < hi && Bytes(left, i + 1 - lo, rest, bsize)
      invariant forall k :: lo <= k < hi ==> buf[k] == if k <= i then cs[k - lo] else out[k - lo]
      invariant Elsewhere(buf, lo, hi)
      decreases i
    {
      BytesNext(left, i + 1 - lo, rest, bsize);
      DecryptAt(m, iv0, cs, i - lo);
      p := m.dec(buf[i]);
      left := left - bsize;
      if left < bsize {
        break;
      }
      buf[i] := m.xor(p, buf[i - 1]);
      i := i - 1;
    }
    buf[i] := m.xor(p, iv0);
  }

  // ----- the walk over a message in chunks -----

  lemma EncryptSlice<B>(m: Cipher<B>, iv: B, ps: seq<B>, a: nat, b: nat)
    requires a <= b <= |ps|
    ensures var cs := Encrypt(m, iv, ps);
      Encrypt(m, Chain(iv, cs[..a]), ps[a..b]) == cs[a..b] && Chain(Chain(iv, cs[..a]), cs[a..b]) == Chain(iv, cs[..b])
  {
    var front, rest := ps[..a], ps[a..b];
    assert ps == ps[..b] + ps[b..] && ps[..b] == front + rest;
    EncryptSplit(m, iv, ps[..b], ps[b..]);
    EncryptSplit(m, iv, front, rest);
  }

  lemma DecryptSlice<B>(m: Cipher<B>, iv: B, cs: seq<B>, a: nat, b: nat)
    requires a <= b <= |cs|
    ensures Decrypt(m, Chain(iv, cs[..a]), cs[a..b]) == Decrypt(m, iv, cs)[a..b]
    ensures Chain(Chain(iv, cs[..a]), cs[a..b]) == Chain(iv, cs[..b])
  {
    var front, rest := cs[..a], cs[a..b];
    assert cs == cs[..b] + cs[b..] && cs[..b] == front + rest;
    DecryptSplit(m, iv, cs[..b], cs[b..]);
    DecryptSplit(m, iv, front, rest);
  }

  lemma WholeBlocks(n: nat, bsize: nat)
    requires bsize > 0
    ensures Bytes(n * bsize, n, 0, bsize)
  {
  }

  function Total(sizes: seq<nat>): nat { if sizes == [] then 0 else sizes[0] + Total(sizes[1..]) }

  ghost predicate AllSome(sizes: seq<nat>) { forall i :: 0 <= i < |sizes| ==> sizes[i] > 0 }

  /** A chunk of the message is `out` where it was processed. */
  lemma HoldsMore<B>(a: array<B>, lo: nat, hi: nat, out: seq<B>, part: seq<B>)
    requires lo <= hi <= |out| && Holds(a, 0, lo, out) && Holds(a, lo, hi, part) && part == out[lo..hi]
    ensures Holds(a, 0, hi, out)
  {
    forall k | 0 <= k < hi ensures a[k] == out[k] {
      assert k >= lo ==> a[k] == part[k - lo];
    }
  }

  method EncryptChunk<B(!new)>(m: Cipher<B>, src: array<B>, dst: array<B>, lo: nat, hi: nat, bsize: nat, iv0: B)
    returns (iv: B)
    requires bsize > 0 && lo < hi <= src.Length == dst.Length
    modifies dst
    ensures var out := Encrypt(m, iv0, old(src[lo..hi])); Holds(dst, lo, hi, out) && iv == Chain(iv0, out)
    ensures Elsewhere(dst, lo, hi)
  {
    WholeBlocks(hi - lo, bsize);
    var left;
    if src == dst {
      left, iv := EncryptInPlace(m, dst, lo, (hi - lo) * bsize, bsize, iv0, hi, 0);
    } else {
      left, iv := EncryptSegment(m, src, dst, lo, (hi - lo) * bsize, bsize, iv0, hi, 0);
    }
  }

  method DecryptChunk<B(!new)>(m: Cipher<B>, src: array<B>, dst: array<B>, lo: nat, hi: nat, bsize: nat, iv0: B)
    returns (iv: B)
    requires PowerOfTwo(bsize) && lo < hi <= src.Length == dst.Length
    modifies dst
    ensures Holds(dst, lo, hi, Decrypt(m, iv0, old(src[lo..hi]))) && iv == Chain(iv0, old(src[lo..hi]))
    ensures Elsewhere(dst, lo, hi)
  {
    WholeBlocks(hi - lo, bsize);
    var left;
    if src == dst {
      left, iv := DecryptInPlace(m, dst, lo, (hi - lo) * bsize, bsize, iv0, hi, 0);
    } else {
      left, iv := DecryptSegment(m, src, dst, lo, (hi - lo) * bsize, bsize, iv0, hi, 0);
    }
  }

  /** The source from block `at` on is still the message. */
  ghost predicate Unread<B>(a: array<B>, at: nat, text: seq<B>)
    reads a
  {
    a.Length == |text| && forall k :: at <= k < a.Length ==> a[k] == text[k]
  }

  method EncryptStep<B(!new)>(m: Cipher<B>, src: array<B>, dst: array<B>, at: nat, n: nat, bsize: nat, iv: B,
                              ghost ps: seq<B>, ghost iv0: B)
    returns (iv1: B)
    requires bsize > 0 && n > 0 && at + n <= src.Length == dst.Length && Unread(src, at, ps)
    requires Holds(dst, 0, at, Encrypt(m, iv0, ps)) && iv == Chain(iv0, Encrypt(m, iv0, ps)[..at])
    modifies dst
    ensures Holds(dst, 0, at + n, Encrypt(m, iv0, ps)) && Unread(src, at + n, ps)
    ensures iv1 == Chain(iv0, Encrypt(m, iv0, ps)[..at + n])
  {
    EncryptSlice(m, iv0, ps, at, at + n);
    assert src[at..at + n] == ps[at..at + n];
    ghost var part := Encrypt(m, iv, src[at..at + n]);
    iv1 := EncryptChunk(m, src, dst, at, at + n, bsize, iv);
    assert iv1 == Chain(iv, part);
    HoldsMore(dst, at, at + n, Encrypt(m, iv0, ps), part);
  }

  method DecryptStep<B(!new)>(m: Cipher<B>, src: array<B>, dst: array<B>, at: nat, n: nat, bsize: nat, iv: B,
                              ghost cs: seq<B>, ghost iv0: B)
    returns (iv1: B)
    requires PowerOfTwo(bsize) && n > 0 && at + n <= src.Length == dst.Length && Unread(src, at, cs)
    requires Holds(dst, 0, at, Decrypt(m, iv0, cs)) && iv == Chain(iv0, cs[..at])
    modifies dst
    ensures Holds(dst, 0, at + n, Decrypt(m, iv0, cs)) && Unread(src, at + n, cs) && iv1 == Chain(iv0, cs[..at + n])
  {
    DecryptSlice(m, iv0, cs, at, at + n);
    assert src[at..at + n] == cs[at..at + n];
    ghost var part := Decrypt(m, iv, src[at..at + n]);
    iv1 := DecryptChunk(m, src, dst, at, at + n, bsize, iv);
    assert iv1 == Chain(iv, cs[at..at + n]);
    HoldsMore(dst, at, at + n, Decrypt(m, iv0, cs), part);
  }

  /** crypto_cbc_encrypt: the message comes in chunks of `sizes` blocks; source and destination may be one buffer */
  method CbcEncrypt<B(!new)>(m: Cipher<B>, src: array<B>, dst: array<B>, sizes: seq<nat>, bsize: nat, iv0: B)
    returns (iv: B)
    requires bsize > 0 && src.Length == dst.Length == Total(sizes) && AllSome(sizes)
    modifies dst
    ensures dst[..] == Encrypt(m, iv0, old(src[..])) && iv == Chain(iv0, dst[..])
  {
    ghost var ps := src[..];
    var at: nat, todo := 0, sizes;
    iv := iv0;
    while todo != []
      invariant AllSome(todo) && at + Total(todo) == dst.Length && Unread(src, at, ps)
      invariant Holds(dst, 0, at, Encrypt(m, iv0, ps)) && iv == Chain(iv0, Encrypt(m, iv0, ps)[..at])
      decreases |todo|
    {
      iv := EncryptStep(m, src, dst, at, todo[0], bsize, iv, ps, iv0);
      at := at + todo[0];
      todo := todo[1..];
    }
    assert dst[..] == Encrypt(m, iv0, ps);
  }

  /** crypto_cbc_decrypt */
  method CbcDecrypt<B(!new)>(m: Cipher<B>, src: array<B>, dst: array<B>, sizes: seq<nat>, bsize: nat, iv0: B)
    returns (iv: B)
    requires PowerOfTwo(bsize) && src.Length == dst.Length == Total(sizes) && AllSome(sizes)
    modifies dst
    ensures dst[..] == Decrypt(m, iv0, old(src[..])) && iv == Chain(iv0, old(src[..]))
  {
    ghost var cs := src[..];
    var at: nat, todo := 0, sizes;
    iv := iv0;
    while todo != []
      invariant AllSome(todo) && at + Total(todo) == dst.Length && Unread(src, at, cs)
      invariant Holds(dst, 0, at, Decrypt(m, iv0, cs)) && iv == Chain(iv0, cs[..at])
      decreases |todo|
    {
      iv := DecryptStep(m, src, dst, at, todo[0], bsize, iv, cs, iv0);
      at := at + todo[0];
      todo := todo[1..];
    }
    assert cs[..at] == cs && dst[..] == Decrypt(m, iv0, cs);
  }
}
