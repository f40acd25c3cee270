/** Bytes, 64-bit words and their bits.

    A word is the list of its 64 bits, most significant first, so exclusive or, shifts and the
    counts of leading and trailing zeros are the operations of Go's uint64 bit for bit. */
module Bits {
  type Byte = x: int | 0 <= x < 256

  type Word = w: seq<bool> | |w| == 64 witness seq(64, i => false)

  const TWO_63: int := 0x8000_0000_0000_0000
  const TWO_64: int := 0x1_0000_0000_0000_0000

  function Zeros(n: nat): (z: seq<bool>)
    ensures |z| == n && forall i :: 0 <= i < n ==> !z[i]
  {
    seq(n, i => false)
  }

  /** 2 to the k, Go's 1 << k. */
  function Pow2(k: nat): (p: nat)
    ensures p >= 1
  {
    if k == 0 then 1 else 2 * Pow2(k - 1)
  }

  /** n >> k. */
  function Halve(n: nat, k: nat): nat {
    if k == 0 then n else Halve(n / 2, k - 1)
  }

  /** Bit k of n, counted from the least significant. */
  predicate Bit(n: nat, k: nat) {
    Halve(n, k) % 2 == 1
  }

  /** The number written in binary as bits, most significant first. */
  function NatOf(bits: seq<bool>): nat {
    if bits == [] then 0
    else 2 * NatOf(bits[..|bits| - 1]) + if bits[|bits| - 1] then 1 else 0
  }

  /** The low w bits of n, most significant first. */
  function BitsOf(n: nat, w: nat): (bits: seq<bool>)
    ensures |bits| == w
  {
    seq(w, i requires 0 <= i < w => Bit(n, w - 1 - i))
  }

  lemma {:induction false} NatOfBound(bits: seq<bool>)
    ensures NatOf(bits) < Pow2(|bits|)
  {
    if bits != [] {
      NatOfBound(bits[..|bits| - 1]);
    }
  }

  lemma {:induction false} BitNatOf(bits: seq<bool>, k: nat)
    requires k < |bits|
    ensures Bit(NatOf(bits), |bits| - 1 - k) == bits[k]
  {
    var init, n := bits[..|bits| - 1], NatOf(bits);
    if k < |init| {
      BitNatOf(init, k);
      assert n / 2 == NatOf(init);
      assert Halve(n, |init| - k) == Halve(n / 2, |init| - k - 1);
    }
  }

  /** Writing a number in binary and reading it back is the identity in both directions. */
  lemma BitsOfNatOf(bits: seq<bool>)
    ensures BitsOf(NatOf(bits), |bits|) == bits
  {
    forall k | 0 <= k < |bits| ensures BitsOf(NatOf(bits), |bits|)[k] == bits[k] {
      BitNatOf(bits, k);
    }
  }

  lemma {:induction false} NatOfBitsOf(n: nat, w: nat)
    requires n < Pow2(w)
    ensures NatOf(BitsOf(n, w)) == n
  {
    if w > 0 {
      forall i | 0 <= i < w - 1 ensures BitsOf(n, w)[i] == BitsOf(n / 2, w - 1)[i] {
        assert BitsOf(n, w)[i] == Bit(n, w - 1 - i);
        assert BitsOf(n / 2, w - 1)[i] == Bit(n / 2, w - 2 - i);
        assert Halve(n, w - 1 - i) == Halve(n / 2, w - 2 - i);
      }
      assert BitsOf(n, w)[..w - 1] == BitsOf(n / 2, w - 1);
      NatOfBitsOf(n / 2, w - 1);
      assert BitsOf(n, w)[w - 1] == Bit(n, 0);
    }
  }

  /** Setting the bit that is followed by k zeros adds 2 to the k. */
  lemma {:induction false} NatOfSetBit(s: seq<bool>, b: bool, k: nat)
    ensures NatOf(s + [b] + Zeros(k)) == NatOf(s + [false] + Zeros(k)) + if b then Pow2(k) else 0
  {
    if k == 0 {
      assert s + [b] + Zeros(0) == s + [b] && s + [false] + Zeros(0) == s + [false];
      assert (s + [b])[..|s|] == s && (s + [false])[..|s|] == s;
    } else {
      NatOfSetBit(s, b, k - 1);
      forall c: bool ensures (s + [c] + Zeros(k))[..|s| + k] == s + [c] + Zeros(k - 1) {}
    }
  }

  lemma Pow2Eight()
    ensures Pow2(8) == 256
  {
    assert Pow2(4) == 16;
  }

  lemma {:induction false} Pow2Add(a: nat, b: nat)
    ensures Pow2(a + b) == Pow2(a) * Pow2(b)
  {
    if b > 0 {
      Pow2Add(a, b - 1);
    }
  }

  lemma Pow2SixtyFour()
    ensures Pow2(64) == TWO_64
  {
    Pow2Eight();
    hide Pow2;
    Pow2Add(8, 8);
    Pow2Add(16, 16);
    Pow2Add(32, 32);
  }

  function ByteOf(bits: seq<bool>): (b: Byte)
    requires |bits| == 8
  {
    NatOfBound(bits);
    Pow2Eight();
    NatOf(bits)
  }

  function WordOf(u: nat): Word {
    BitsOf(u, 64)
  }

  lemma WordOfNatOf(w: Word)
    ensures NatOf(w) < TWO_64 && WordOf(NatOf(w)) == w
  {
    NatOfBound(w);
    Pow2SixtyFour();
    BitsOfNatOf(w);
  }

  lemma NatOfWordOf(u: nat)
    requires u < TWO_64
    ensures NatOf(WordOf(u)) == u
  {
    Pow2SixtyFour();
    NatOfBitsOf(u, 64);
  }

  // ---------- uint64 operations ----------

  function Xor(a: Word, b: Word): Word {
    seq(64, i requires 0 <= i < 64 => a[i] != b[i])
  }

  function ShiftRight(w: Word, k: nat): Word
    requires k <= 64
  {
    Zeros(k) + w[..64 - k]
  }

  function ShiftLeft(w: Word, k: nat): Word
    requires k <= 64
  {
    w[k..] + Zeros(k)
  }

  /** Number of false entries before the first true one: bits.LeadingZeros64 on a word. */
  function LeadingZeros(bits: seq<bool>): (n: nat)
    ensures n <= |bits| && (forall i :: 0 <= i < n ==> !bits[i]) && (n < |bits| ==> bits[n])
  {
    if bits == [] || bits[0] then 0 else 1 + LeadingZeros(bits[1..])
  }

  /** Number of false entries after the last true one: bits.TrailingZeros64 on a word. */
  function TrailingZeros(bits: seq<bool>): (n: nat)
    ensures n <= |bits| && (forall i :: |bits| - n <= i < |bits| ==> !bits[i])
    ensures n < |bits| ==> bits[|bits| - 1 - n]
  {
    if bits == [] || bits[|bits| - 1] then 0 else 1 + TrailingZeros(bits[..|bits| - 1])
  }

  // ---------- fixed64, little endian ----------

  /** binary.LittleEndian.PutUint64. */
  function PutFixed64(w: Word): (out: seq<Byte>)
    ensures |out| == 8
  {
    seq(8, j requires 0 <= j < 8 => ByteOf(w[56 - 8 * j..64 - 8 * j]))
  }

  /** binary.LittleEndian.Uint64. */
  function Fixed64(b: seq<Byte>): Word
    requires |b| >= 8
  {
    seq(64, i requires 0 <= i < 64 => Bit(b[7 - i / 8], 7 - i % 8))
  }

  lemma Fixed64RoundTrip(w: Word, rest: seq<Byte>)
    ensures Fixed64(PutFixed64(w) + rest) == w
  {
    hide PutFixed64, Bit;
    var b := PutFixed64(w) + rest;
    forall i | 0 <= i < 64 ensures Fixed64(b)[i] == w[i] {
      Fixed64Bit(w, rest, i / 8, i % 8);
    }
  }

  lemma Fixed64Bit(w: Word, rest: seq<Byte>, group: nat, k: nat)
    requires group < 8 && k < 8
    ensures Bit((PutFixed64(w) + rest)[7 - group], 7 - k) == w[8 * group + k]
  {
    var bits := w[8 * group..8 * group + 8];
    assert (PutFixed64(w) + rest)[7 - group] == ByteOf(bits);
    BitNatOf(bits, k);
  }

  lemma {:induction false} NatOfJoin(a: seq<bool>, b: seq<bool>)
    ensures NatOf(a + b) == NatOf(a) * Pow2(|b|) + NatOf(b)
  {
    if b == [] {
      assert a + b == a;
    } else {
      var init := b[..|b| - 1];
      assert (a + b)[..|a + b| - 1] == a + init;
      NatOfJoin(a, init);
      Twice(NatOf(a), Pow2(|init|));
    }
  }

  lemma Twice(n: nat, p: nat)
    ensures n * (2 * p) == 2 * (n * p)
  {
  }

  /** The number whose base 256 digits are b, the lowest first. */
  function Base256(b: seq<Byte>): nat {
    if b == [] then 0 else b[0] + 256 * Base256(b[1..])
  }

  lemma {:induction false} Fixed64From(w: Word, j: nat)
    requires j <= 8
    ensures Base256(PutFixed64(w)[j..]) == NatOf(w[..64 - 8 * j])
    decreases 8 - j
  {
    if j < 8 {
      Fixed64From(w, j + 1);
      var high, low := w[..56 - 8 * j], w[56 - 8 * j..64 - 8 * j];
      assert w[..64 - 8 * j] == high + low;
      Pow2Eight();
      NatOfJoin(high, low);
      assert PutFixed64(w)[j..][1..] == PutFixed64(w)[j + 1..];
      hide NatOf, Pow2;
    }
  }

  /** The eight bytes are the base 256 digits of the word, the lowest first. */
  lemma Fixed64IsLittleEndian(w: Word)
    ensures Base256(PutFixed64(w)) == NatOf(w)
  {
    Fixed64From(w, 0);
    assert PutFixed64(w)[0..] == PutFixed64(w) && w[..64] == w;
  }

  /** A number below 256 written with its binary digits, the highest first. */
  function Octet(bits: seq<bool>): nat
    requires |bits| == 8
  {
    (if bits[0] then 128 else 0) + (if bits[1] then 64 else 0) + (if bits[2] then 32 else 0) + (if bits[3] then 16 else 0) +
    (if bits[4] then 8 else 0) + (if bits[5] then 4 else 0) + (if bits[6] then 2 else 0) + (if bits[7] then 1 else 0)
  }

  lemma NatOfStep(bits: seq<bool>, k: nat)
    requires k < |bits|
    ensures NatOf(bits[..k + 1]) == 2 * NatOf(bits[..k]) + if bits[k] then 1 else 0
  {
    assert bits[..k + 1][..k] == bits[..k];
  }

  lemma ByteIsOctet(bits: seq<bool>)
    requires |bits| == 8
    ensures ByteOf(bits) == Octet(bits)
  {
    var high, low := bits[..4], bits[4..];
    assert NatOf(bits) == NatOf(high) * 16 + NatOf(low) by {
      assert high + low == bits;
      assert Pow2(|low|) == 16;
      NatOfJoin(high, low);
      hide NatOf, Pow2;
    }
    assert ByteOf(bits) == NatOf(bits);
    hide NatOf, ByteOf, Pow2;
    HalfOctet(bits);
    HalfOctet(low);
    assert low[..4] == low;
  }

  lemma HalfOctet(bits: seq<bool>)
    requires |bits| >= 4
    ensures NatOf(bits[..4]) ==
            (if bits[0] then 8 else 0) + (if bits[1] then 4 else 0) + (if bits[2] then 2 else 0) + (if bits[3] then 1 else 0)
  {
    hide NatOf;
    NatOfNothing();
    assert bits[..0] == [];
    NatOfStep(bits, 0);
    NatOfStep(bits, 1);
    NatOfStep(bits, 2);
    NatOfStep(bits, 3);
  }

  lemma NatOfNothing()
    ensures NatOf([]) == 0
  {
  }
}
