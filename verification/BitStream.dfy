/** The MSB-first bit writer and reader of storage/encode.go. */
module BitStream {
  import opened Bits
  import opened Results

  /** Bits 8j to 8j + 7, missing bits being zero. */
  function Eight(bits: seq<bool>, j: nat): (e: seq<bool>)
    ensures |e| == 8
  {
    seq(8, k requires 0 <= k < 8 => 8 * j + k < |bits| && bits[8 * j + k])
  }

  /** Byte j of the bits packed eight to a byte. */
  function PackedByte(bits: seq<bool>, j: nat): Byte {
    ByteOf(Eight(bits, j))
  }

  function Pack(bits: seq<bool>): (out: seq<Byte>)
    ensures |out| == (|bits| + 7) / 8
  {
    seq((|bits| + 7) / 8, j requires 0 <= j => PackedByte(bits, j))
  }

  function Unpack(b: seq<Byte>): (bits: seq<bool>)
    ensures |bits| == 8 * |b|
  {
    seq(8 * |b|, i requires 0 <= i < 8 * |b| => Bit(b[i / 8], 7 - i % 8))
  }

  /** Bits go into a byte from the highest place down, and the last byte is filled up with zeros. */
  lemma PackIsHighFirst(bits: seq<bool>, j: nat)
    requires j < |Pack(bits)|
    ensures Pack(bits)[j] == Octet(seq(8, k requires 0 <= k < 8 => 8 * j + k < |bits| && bits[8 * j + k]))
  {
    ByteIsOctet(Eight(bits, j));
  }

  /** Unpacking gives the bits back, followed by fewer than eight zeros of padding. */
  lemma UnpackPack(bits: seq<bool>)
    ensures |Unpack(Pack(bits))| - |bits| < 8
    ensures Unpack(Pack(bits)) == bits + Zeros(|Unpack(Pack(bits))| - |bits|)
  {
    forall i | 0 <= i < |Unpack(Pack(bits))|
      ensures Unpack(Pack(bits))[i] == (i < |bits| && bits[i])
    {
      assert Pack(bits)[i / 8] == PackedByte(bits, i / 8);
      BitNatOf(Eight(bits, i / 8), i % 8);
    }
  }

  /** One more bit leaves the full bytes alone and sets one bit of the last one. */
  lemma PackedByteBefore(bits: seq<bool>, b: bool, j: nat)
    requires 8 * (j + 1) <= |bits|
    ensures PackedByte(bits + [b], j) == PackedByte(bits, j)
  {
    assert Eight(bits + [b], j) == Eight(bits, j);
  }

  lemma PackedByteSet(bits: seq<bool>, b: bool, j: nat, n: nat)
    requires |bits| == 8 * j + n && n < 8
    ensures PackedByte(bits + [b], j) == PackedByte(bits, j) + if b then Pow2(7 - n) else 0
  {
    var s := bits[8 * j..];
    assert Eight(bits + [b], j) == s + [b] + Zeros(7 - n);
    assert Eight(bits, j) == s + [false] + Zeros(7 - n);
    NatOfSetBit(s, b, 7 - n);
  }

  lemma PackedByteAfter(bits: seq<bool>, j: nat)
    requires |bits| <= 8 * j
    ensures PackedByte(bits, j) == 0
  {
    assert Eight(bits, j) == Zeros(8);
    NatOfZeros(8);
  }

  lemma {:induction false} NatOfZeros(n: nat)
    ensures NatOf(Zeros(n)) == 0
  {
    if n > 0 {
      assert Zeros(n)[..n - 1] == Zeros(n - 1);
      NatOfZeros(n - 1);
    }
  }

  /** The low n bits of v, as writeBits sends them. */
  function LowBits(v: Word, n: nat): seq<bool>
    requires n <= 64
  {
    v[64 - n..]
  }

  lemma LowBitsShifted(v: Word, k: nat, n: nat)
    requires k + n <= 64
    ensures LowBits(ShiftRight(v, k), n) == v[64 - k - n..64 - k]
  {
  }

  lemma LowBitsOf(u: nat, n: nat)
    requires n <= 64
    ensures LowBits(WordOf(u), n) == BitsOf(u, n)
  {
  }

  class BitWriter {
    var buf: seq<Byte>
    var cur: Byte
    var n: nat
    ghost var written: seq<bool>

    ghost predicate Valid()
      reads this
    {
      && n < 8
      && |written| == 8 * |buf| + n
      && (forall j :: 0 <= j < |buf| ==> buf[j] == PackedByte(written, j))
      && cur == PackedByte(written, |buf|)
    }

    constructor ()
      ensures Valid() && written == []
    {
      buf, cur, n, written := [], 0, 0, [];
      new;
      PackedByteAfter([], 0);
    }

    method WriteBit(b: bool)
      requires Valid()
      modifies this
      ensures Valid() && written == old(written) + [b]
    {
      PackedByteSet(written, b, |buf|, n);
      forall j | 0 <= j < |buf| {
        PackedByteBefore(written, b, j);
      }
      cur := cur + if b then Pow2(7 - n) else 0;
      n := n + 1;
      written := written + [b];
      if n == 8 {
        PackedByteAfter(written, |buf| + 1);
        buf := buf + [cur];
        cur, n := 0, 0;
      }
    }

    method WriteBits(v: Word, n: nat)
      requires Valid() && n <= 64
      modifies this
      ensures Valid() && written == old(written) + LowBits(v, n)
    {
      var i := n;
      while i > 0
        invariant Valid() && 0 <= i <= n
        invariant written == old(written) + v[64 - n..64 - i]
      {
        i := i - 1;
        WriteBit(v[63 - i]);
      }
    }

    method Bytes() returns (out: seq<Byte>)
      requires Valid()
      ensures out == Pack(written)
    {
      out := if n > 0 then buf + [cur] else buf;
      assert |out| == |Pack(written)|;
    }
  }

  /** (v << 1) | bit. */
  function ShiftInBit(v: Word, bit: bool): Word {
    v[1..] + [bit]
  }

  lemma ShiftInNext(bits: seq<bool>, i: nat)
    requires i < 64 && i < |bits|
    ensures ShiftInBit(Zeros(64 - i) + bits[..i], bits[i]) == Zeros(63 - i) + bits[..i + 1]
  {
    assert (Zeros(64 - i) + bits[..i])[1..] == Zeros(63 - i) + bits[..i];
  }

  class BitReader {
    const b: seq<Byte>
    var pos: nat

    constructor (b: seq<Byte>)
      ensures this.b == b && pos == 0
    {
      this.b, pos := b, 0;
    }

    /** The bits not yet read. */
    ghost function Rest(): seq<bool>
      reads this
    {
      if pos <= 8 * |b| then Unpack(b)[pos..] else []
    }

    ghost predicate Valid()
      reads this
    {
      pos <= 8 * |b|
    }

    method ReadBit() returns (r: Result<bool>)
      requires Valid()
      modifies this`pos
      ensures Valid()
      ensures old(Rest()) == [] ==> r == Err(UnexpectedEOF) && pos == old(pos)
      ensures old(Rest()) != [] ==> r == Ok(old(Rest())[0]) && Rest() == old(Rest())[1..]
    {
      if pos / 8 >= |b| {
        return Err(UnexpectedEOF);
      }
      var bit := Halve(b[pos / 8], 7 - pos % 8) % 2 == 1;
      assert bit == Unpack(b)[pos];
      pos := pos + 1;
      return Ok(bit);
    }

    /** Reads n bits into the low end of a word, or fails if fewer are left. */
    method ReadBits(n: nat) returns (r: Result<Word>)
      requires Valid() && n <= 64
      modifies this`pos
      ensures Valid()
      ensures |old(Rest())| < n ==> r == Err(UnexpectedEOF)
      ensures |old(Rest())| >= n ==> r == Ok(Zeros(64 - n) + old(Rest())[..n]) && Rest() == old(Rest())[n..]
    {
      hide Unpack, ShiftInBit;
      var v: Word := Zeros(64);
      ghost var before := Rest();
      var i := 0;
      while i < n
        invariant Valid() && 0 <= i <= n && i <= |before|
        invariant Rest() == before[i..]
        invariant v == Zeros(64 - i) + before[..i]
      {
        var bit := ReadBit();
        if bit.Err? {
          return Err(bit.error);
        }
        ShiftInNext(before, i);
        v := ShiftInBit(v, bit.value);
        i := i + 1;
      }
      return Ok(v);
    }
  }
}
