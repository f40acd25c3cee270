/** Base 128 varints, ZigZag, and the byte cursor that reads them back. */
module Varint {
  import opened Bits
  import opened Results

  type Int64 = x: int | -TWO_63 <= x < TWO_63

  const MAX_INT64: Int64 := TWO_63 - 1
  const MIN_INT64: Int64 := -TWO_63

  type UInt64 = x: int | 0 <= x < TWO_64

  /** The int64 equal to x modulo 2 to the 64, for the sums and differences of two int64 and for
      the conversion of a uint64. */
  function Wrap(x: int): Int64
    requires -TWO_64 <= x < TWO_64
  {
    if x >= TWO_63 then x - TWO_64 else if x < -TWO_63 then x + TWO_64 else x
  }

  /** a + b and a - b on int64. */
  function Add64(a: Int64, b: Int64): Int64 {
    Wrap(a as int + b as int)
  }

  function Sub64(a: Int64, b: Int64): Int64 {
    Wrap(a as int - b as int)
  }

  /** a * b on int64: modulo 2 to the 64. */
  function Mul64(a: Int64, b: Int64): Int64 {
    (a * b + TWO_63) % TWO_64 - TWO_63
  }

  lemma AddSub64(a: Int64, b: Int64)
    ensures Add64(b, Sub64(a, b)) == a && Sub64(Add64(a, b), a) == b
    ensures Add64(0, a) == a && Sub64(a, 0) == a && Sub64(a, a) == 0
  {
  }

  /** uint64(x). */
  function Unsigned(x: Int64): UInt64 {
    if x < 0 then x + TWO_64 else x
  }

  // ---------- Protocol Buffers encoding, "Base 128 Varints" and "ZigZag" ----------

  function PutUvarint(x: nat): (out: seq<Byte>)
    ensures out != []
  {
    if x < 128 then [x] else [x % 128 + 128] + PutUvarint(x / 128)
  }

  /** encoding/binary.Uvarint on b, of whose varint i bytes are already read; gives the value and
      the bytes after it. */
  function UvarintFrom(b: seq<Byte>, i: nat): (r: Result<(nat, seq<Byte>)>)
    requires i <= 10
    ensures r.Ok? ==> |r.value.1| < |b| && r.value.1 == b[|b| - |r.value.1|..]
  {
    if b == [] then Err(UnexpectedEOF)
    else if i == 10 then Err(VarintOverflow)
    else if b[0] < 128 then
      if i == 9 && b[0] > 1 then Err(VarintOverflow) else Ok((b[0], b[1..]))
    else
      var (high, rest) :- UvarintFrom(b[1..], i + 1);
      Ok((b[0] - 128 + 128 * high, rest))
  }

  lemma Pow2Seven(k: nat)
    ensures Pow2(k + 7) == 128 * Pow2(k)
  {
    Pow2Add(k, 7);
    assert Pow2(7) == 2 * Pow2(6) && Pow2(6) == 64;
  }

  /** The overflow test in the tenth byte keeps the value below 2 to the 64. */
  lemma {:induction false} UvarintFromBound(b: seq<Byte>, i: nat)
    requires i <= 10
    ensures UvarintFrom(b, i).Ok? ==> i <= 9 && UvarintFrom(b, i).value.0 < Pow2(64 - 7 * i)
  {
    if b != [] && i < 10 {
      if b[0] >= 128 {
        UvarintFromBound(b[1..], i + 1);
      }
      if i < 9 {
        Pow2Seven(64 - 7 * (i + 1));
      } else {
        assert Pow2(1) == 2;
      }
    }
  }

  function GetUvarint(b: seq<Byte>): (r: Result<(UInt64, seq<Byte>)>)
    ensures r.Ok? ==> |r.value.1| < |b|
  {
    UvarintFromBound(b, 0);
    Pow2SixtyFour();
    var (u, rest) :- UvarintFrom(b, 0);
    Ok((u, rest))
  }

  function ZigZag(x: Int64): UInt64 {
    if x >= 0 then 2 * x else -2 * x - 1
  }

  function UnZigZag(u: UInt64): Int64 {
    if u % 2 == 0 then u / 2 else -(u / 2) - 1
  }

  function PutVarint(x: Int64): seq<Byte> {
    PutUvarint(ZigZag(x))
  }

  function GetVarint(b: seq<Byte>): Result<(Int64, seq<Byte>)> {
    var (u, rest) :- GetUvarint(b);
    Ok((UnZigZag(u), rest))
  }

  /** A varint that starts i bytes in reads back, and the bytes after it are left alone. */
  lemma {:induction false} UvarintFromPut(x: nat, i: nat, rest: seq<Byte>)
    requires i <= 9 && x < Pow2(64 - 7 * i)
    ensures UvarintFrom(PutUvarint(x) + rest, i) == Ok((x, rest))
  {
    var b := PutUvarint(x) + rest;
    if x < 128 {
      assert Pow2(1) == 2;
      assert b[1..] == rest;
    } else if i < 9 {
      Pow2Seven(64 - 7 * (i + 1));
      assert b[1..] == PutUvarint(x / 128) + rest;
      UvarintFromPut(x / 128, i + 1, rest);
    }
  }

  /** Every proper prefix of a varint is cut short, never an overflow. */
  lemma {:induction false} UvarintFromCut(x: nat, i: nat, k: nat)
    requires i <= 9 && x < Pow2(64 - 7 * i) && k < |PutUvarint(x)|
    ensures UvarintFrom(PutUvarint(x)[..k], i) == Err(UnexpectedEOF)
  {
    if x >= 128 && k > 0 && i < 9 {
      Pow2Seven(64 - 7 * (i + 1));
      assert PutUvarint(x)[..k][1..] == PutUvarint(x / 128)[..k - 1];
      UvarintFromCut(x / 128, i + 1, k - 1);
    }
  }

  lemma UvarintRoundTrip(x: nat, rest: seq<Byte>)
    requires x < TWO_64
    ensures GetUvarint(PutUvarint(x) + rest) == Ok((x, rest))
  {
    Pow2SixtyFour();
    UvarintFromPut(x, 0, rest);
  }

  lemma UvarintCut(x: nat, k: nat)
    requires x < TWO_64 && k < |PutUvarint(x)|
    ensures GetUvarint(PutUvarint(x)[..k]) == Err(UnexpectedEOF)
  {
    Pow2SixtyFour();
    UvarintFromCut(x, 0, k);
  }

  lemma VarintRoundTrip(x: Int64, rest: seq<Byte>)
    ensures GetVarint(PutVarint(x) + rest) == Ok((x, rest))
  {
    UvarintRoundTrip(ZigZag(x), rest);
  }

  // ---------- the bytes themselves ----------

  /** The number whose base 128 digits are the low seven bits of b, the lowest first. */
  function Base128(b: seq<Byte>): nat {
    if b == [] then 0 else b[0] % 128 + 128 * Base128(b[1..])
  }

  /** All bytes but the last have their high bit set. */
  predicate IsVarint(b: seq<Byte>) {
    b != [] && b[|b| - 1] < 128 && forall i :: 0 <= i < |b| - 1 ==> b[i] >= 128
  }

  /** The shortest varint with that value. */
  lemma {:induction false} UvarintIsBase128(x: nat)
    ensures var b := PutUvarint(x);
            IsVarint(b) && Base128(b) == x && (|b| > 1 ==> b[|b| - 1] != 0)
  {
    if x >= 128 {
      UvarintIsBase128(x / 128);
      var b := PutUvarint(x);
      assert b[1..] == PutUvarint(x / 128);
      forall i | 0 <= i < |b| - 1 ensures b[i] >= 128 {
        assert i > 0 ==> b[i] == b[1..][i - 1];
      }
    } else {
      assert PutUvarint(x)[1..] == [];
    }
  }

  lemma {:induction false} UvarintFromReads(b: seq<Byte>, i: nat, rest: seq<Byte>)
    requires IsVarint(b) && i <= 10
    ensures UvarintFrom(b + rest, i) ==
            if |b| + i < 10 || (|b| + i == 10 && b[|b| - 1] <= 1) then Ok((Base128(b), rest)) else Err(VarintOverflow)
    decreases |b|
  {
    if i < 10 {
      if |b| == 1 {
        assert b == [b[0]] && (b + rest)[1..] == rest && b[1..] == [];
      } else {
        assert (b + rest)[1..] == b[1..] + rest;
        assert b[1..][|b| - 2] == b[|b| - 1];
        UvarintFromReads(b[1..], i + 1, rest);
      }
    }
  }

  /** Any varint is read, shortest or not, unless it does not fit in 64 bits. */
  lemma UvarintReads(b: seq<Byte>, rest: seq<Byte>)
    requires IsVarint(b)
    ensures if |b| < 10 || (|b| == 10 && b[9] <= 1)
            then GetUvarint(b + rest).Ok? && GetUvarint(b + rest).value.0 == Base128(b) && GetUvarint(b + rest).value.1 == rest
            else GetUvarint(b + rest) == Err(VarintOverflow)
  {
    UvarintFromReads(b, 0, rest);
  }

  /** A signed varint is the varint of 2x, or of -2x - 1 for a negative x. */
  lemma VarintBytes(x: Int64)
    ensures PutVarint(x) == if x >= 0 then PutUvarint(2 * x) else PutUvarint(-2 * x - 1)
  {
  }

  /** And what reads as u is half of it, or for an odd u the negative number it stands for. */
  lemma VarintReads(b: seq<Byte>)
    ensures GetVarint(b).Ok? <==> GetUvarint(b).Ok?
    ensures GetVarint(b).Ok? ==>
              var x, u := GetVarint(b).value.0, GetUvarint(b).value.0;
              GetVarint(b).value.1 == GetUvarint(b).value.1 && u == if x >= 0 then 2 * x else -2 * x - 1
  {
    hide GetUvarint;
  }

  /** The numbers from -64 to 63 take one byte, and no others. */
  lemma VarintOneByte(x: Int64)
    ensures |PutVarint(x)| == 1 <==> -64 <= x < 64
  {
    VarintBytes(x);
  }

  // ---------- storage/indexdb.go byteReader ----------

  class ByteReader {
    var b: seq<Byte>

    constructor (b: seq<Byte>)
      ensures this.b == b
    {
      this.b := b;
    }

    method Uvarint() returns (r: Result<UInt64>)
      modifies this
      ensures GetUvarint(old(b)).Err? ==> r == Err(GetUvarint(old(b)).error) && b == old(b)
      ensures GetUvarint(old(b)).Ok? ==> (r, b) == (Ok(GetUvarint(old(b)).value.0), GetUvarint(old(b)).value.1)
    {
      var got := GetUvarint(b);
      if got.Err? {
        return Err(got.error);
      }
      b := got.value.1;
      return Ok(got.value.0);
    }

    method Varint() returns (r: Result<Int64>)
      modifies this
      ensures GetVarint(old(b)).Err? ==> r == Err(GetVarint(old(b)).error) && b == old(b)
      ensures GetVarint(old(b)).Ok? ==> (r, b) == (Ok(GetVarint(old(b)).value.0), GetVarint(old(b)).value.1)
    {
      var got := GetVarint(b);
      if got.Err? {
        return Err(got.error);
      }
      b := got.value.1;
      return Ok(got.value.0);
    }

    method Str() returns (r: Result<seq<Byte>>)
      modifies this
      ensures GetStr(old(b)).Err? ==> r == Err(GetStr(old(b)).error)
      ensures GetStr(old(b)).Ok? ==> (r, b) == (Ok(GetStr(old(b)).value.0), GetStr(old(b)).value.1)
    {
      var l := Uvarint();
      if l.Err? {
        return Err(l.error);
      }
      if |b| < l.value {
        return Err(UnexpectedEOF);
      }
      var s := b[..l.value];
      b := b[l.value..];
      return Ok(s);
    }
  }

  // ---------- length-prefixed strings ----------

  function PutStr(s: seq<Byte>): seq<Byte> {
    PutUvarint(|s|) + s
  }

  function GetStr(b: seq<Byte>): (r: Result<(seq<Byte>, seq<Byte>)>)
    ensures r.Ok? ==> |r.value.1| < |b|
  {
    var (l, rest) :- GetUvarint(b);
    if |rest| < l then Err(UnexpectedEOF) else Ok((rest[..l], rest[l..]))
  }

  lemma StrRoundTrip(s: seq<Byte>, rest: seq<Byte>)
    requires |s| < TWO_64
    ensures GetStr(PutStr(s) + rest) == Ok((s, rest))
  {
    assert PutStr(s) + rest == PutUvarint(|s|) + (s + rest);
    UvarintRoundTrip(|s|, s + rest);
  }

  lemma StrCut(s: seq<Byte>, k: nat)
    requires |s| < TWO_64 && k < |PutStr(s)|
    ensures GetStr(PutStr(s)[..k]) == Err(UnexpectedEOF)
  {
    var n := |PutUvarint(|s|)|;
    if k < n {
      assert PutStr(s)[..k] == PutUvarint(|s|)[..k];
      UvarintCut(|s|, k);
    } else {
      assert PutStr(s)[..k] == PutUvarint(|s|) + s[..k - n];
      UvarintRoundTrip(|s|, s[..k - n]);
    }
  }
}
