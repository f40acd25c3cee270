/** Delta-of-delta timestamps: encodeTimestamps and decodeTimestamps of storage/encode.go. */
module TimestampCodec {
  import opened Bits
  import opened Results
  import opened Varint

  // ---------- the block format ----------

  function PutTime(t: Int64): (out: seq<Byte>)
    ensures |out| == 8
  {
    PutFixed64(WordOf(Unsigned(t)))
  }

  function GetTime(b: seq<Byte>): Int64
    requires |b| >= 8
  {
    WordOfNatOf(Fixed64(b));
    Wrap(NatOf(Fixed64(b)))
  }

  /** The bytes for the timestamps ts that follow prev, when the last delta was d. */
  function DodBytes(prev: Int64, d: Int64, ts: seq<Int64>): seq<Byte>
    decreases |ts|
  {
    if ts == [] then []
    else
      var d' := Sub64(ts[0], prev);
      PutVarint(Sub64(d', d)) + DodBytes(ts[0], d', ts[1..])
  }

  function TimestampBlock(ts: seq<Int64>): seq<Byte> {
    if ts == [] then PutUvarint(0)
    else
      PutUvarint(|ts|) + PutTime(ts[0]) + DodBytes(ts[0], 0, ts[1..])
  }

  /** Reads count more timestamps. */
  function ReadDods(b: seq<Byte>, count: nat, prev: Int64, d: Int64): Result<seq<Int64>>
    decreases count
  {
    if count == 0 then Ok([])
    else
      var got := GetVarint(b);
      if got.Err? then Err(got.error)
      else
        var d' := Add64(d, got.value.0);
        var t := Add64(prev, d');
        After([t], ReadDods(got.value.1, count - 1, t, d'))
  }

  function ReadTimestampBlock(data: seq<Byte>): Result<seq<Int64>> {
    var (count, rest) :- GetUvarint(data);
    if count == 0 then Ok([])
    else if |rest| < 8 then Err(UnexpectedEOF)
    else
      var t0 := GetTime(rest);
      After([t0], ReadDods(rest[8..], count - 1, t0, 0))
  }

  lemma AfterAfter(a: seq<Int64>, b: seq<Int64>, r: Result<seq<Int64>>)
    ensures After(a, After(b, r)) == After(a + b, r)
  {
    if r.Ok? {
      assert a + (b + r.value) == a + b + r.value;
    }
  }

  lemma ReadDodsStep(out: seq<Int64>, b: seq<Byte>, count: nat, prev: Int64, d: Int64,
                     dod: Int64, rest: seq<Byte>)
    requires count > 0 && GetVarint(b) == Ok((dod, rest))
    ensures var d' := Add64(d, dod);
            var t := Add64(prev, d');
            After(out, ReadDods(b, count, prev, d)) == After(out + [t], ReadDods(rest, count - 1, t, d'))
  {
    var d' := Add64(d, dod);
    var t := Add64(prev, d');
    AfterAfter(out, [t], ReadDods(rest, count - 1, t, d'));
  }

  // ---------- round trip ----------

  lemma {:induction false} DodsRoundTrip(out: seq<Int64>, prev: Int64, d: Int64, ts: seq<Int64>)
    ensures After(out, ReadDods(DodBytes(prev, d, ts), |ts|, prev, d)) == Ok(out + ts)
    decreases |ts|
  {
    hide PutVarint, GetVarint, Sub64, Add64;
    if ts != [] {
      var b := DodBytes(prev, d, ts);
      var d' := Sub64(ts[0], prev);
      VarintRoundTrip(Sub64(d', d), DodBytes(ts[0], d', ts[1..]));
      AddSub64(d', d);
      AddSub64(ts[0], prev);
      ReadDodsStep(out, b, |ts|, prev, d, Sub64(d', d), DodBytes(ts[0], d', ts[1..]));
      DodsRoundTrip(out + [ts[0]], ts[0], d', ts[1..]);
      assert out + ts == out + [ts[0]] + ts[1..];
    }
  }

  lemma FirstRoundTrip(t: Int64, rest: seq<Byte>)
    ensures GetTime(PutTime(t) + rest) == t
  {
    Fixed64RoundTrip(WordOf(Unsigned(t)), rest);
    NatOfWordOf(Unsigned(t));
  }

  /** Any sequence of int64 timestamps survives, sorted or not, whatever its deltas. */
  lemma TimestampRoundTrip(ts: seq<Int64>)
    requires |ts| < TWO_63
    ensures ReadTimestampBlock(TimestampBlock(ts)) == Ok(ts)
  {
    hide GetUvarint, GetTime, PutTime;
    if ts == [] {
      assert PutUvarint(0) + [] == PutUvarint(0);
      UvarintRoundTrip(0, []);
    } else {
      var dods := DodBytes(ts[0], 0, ts[1..]);
      var body := PutTime(ts[0]) + dods;
      assert TimestampBlock(ts) == PutUvarint(|ts|) + body;
      UvarintRoundTrip(|ts|, body);
      FirstRoundTrip(ts[0], dods);
      assert body[8..] == dods;
      DodsRoundTrip([ts[0]], ts[0], 0, ts[1..]);
      assert ts == [ts[0]] + ts[1..];
    }
  }

  /** Each timestamp is step after the one before it. */
  predicate Regular(prev: Int64, step: Int64, ts: seq<Int64>)
    decreases |ts|
  {
    ts != [] ==> ts[0] == Add64(prev, step) && Regular(ts[0], step, ts[1..])
  }

  /** A regular scrape interval costs one byte per point after the first two. */
  lemma {:induction false} RegularIntervalIsOneByte(prev: Int64, step: Int64, ts: seq<Int64>)
    requires Regular(prev, step, ts)
    ensures DodBytes(prev, step, ts) == seq(|ts|, i => 0)
    decreases |ts|
  {
    if ts != [] {
      AddSub64(prev, step);
      AddSub64(step, step);
      RegularIntervalIsOneByte(ts[0], step, ts[1..]);
      assert PutVarint(0) == [0];
      assert DodBytes(prev, step, ts) == [0] + DodBytes(ts[0], step, ts[1..]);
    }
  }

  /** No second difference leaves -64 to 63. */
  predicate Jitters(prev: Int64, d: Int64, ts: seq<Int64>)
    decreases |ts|
  {
    ts != [] ==>
      var d' := Sub64(ts[0], prev);
      -64 <= Sub64(d', d) < 64 && Jitters(ts[0], d', ts[1..])
  }

  /** Nor does an interval that jitters by less than 64 milliseconds cost more, and no other costs as little. */
  lemma {:induction false} JitterIsOneByte(prev: Int64, d: Int64, ts: seq<Int64>)
    ensures |DodBytes(prev, d, ts)| >= |ts|
    ensures |DodBytes(prev, d, ts)| == |ts| <==> Jitters(prev, d, ts)
    decreases |ts|
  {
    if ts != [] {
      var d' := Sub64(ts[0], prev);
      VarintOneByte(Sub64(d', d));
      JitterIsOneByte(ts[0], d', ts[1..]);
    }
  }

  // ---------- the bytes ----------

  /** The int64 equal to x modulo 2 to the 64. */
  function Mod64(x: int): Int64 {
    (x + TWO_63) % TWO_64 - TWO_63
  }

  /** The last bytes of a block, by the number of timestamps: the first in full, then the first difference,
      then second differences. */
  function LastBytes(ts: seq<Int64>): seq<Byte>
    requires ts != []
  {
    var n := |ts|;
    if n == 1 then PutTime(ts[0])
    else if n == 2 then PutVarint(Mod64(ts[1] as int - ts[0]))
    else PutVarint(Mod64(ts[n - 1] as int - 2 * ts[n - 2] as int + ts[n - 3] as int))
  }

  /** The first timestamp is its two's complement in eight bytes, the lowest first. */
  lemma TimeBytes(t: Int64)
    ensures Base256(PutTime(t)) == if t < 0 then t + TWO_64 else t
  {
    Fixed64IsLittleEndian(WordOf(Unsigned(t)));
    NatOfWordOf(Unsigned(t));
  }

  lemma {:induction false} DodsGrow(prev: Int64, d: Int64, ts: seq<Int64>, t: Int64)
    ensures var before := if |ts| > 1 then ts[|ts| - 2] else prev;
            DodBytes(prev, d, ts + [t]) ==
            if ts == [] then PutVarint(Sub64(Sub64(t, prev), d))
            else DodBytes(prev, d, ts) + PutVarint(Sub64(Sub64(t, ts[|ts| - 1]), Sub64(ts[|ts| - 1], before)))
    decreases |ts|
  {
    hide PutVarint, Sub64;
    if ts == [] {
      assert (ts + [t])[1..] == [];
      assert DodBytes(t, Sub64(t, prev), []) == [];
    } else {
      assert (ts + [t])[1..] == ts[1..] + [t];
      DodsGrow(ts[0], Sub64(ts[0], prev), ts[1..], t);
      if |ts| == 1 {
        assert DodBytes(ts[0], Sub64(ts[0], prev), []) == [];
      }
    }
  }

  lemma Difference(a: Int64, b: Int64)
    ensures Sub64(a, b) == Mod64(a as int - b)
  {
  }

  lemma SecondDifference(a: Int64, b: Int64, c: Int64)
    ensures Sub64(Sub64(a, b), Sub64(b, c)) == Mod64(a as int - 2 * b as int + c as int)
  {
  }

  /** The block after its count. */
  function BlockBody(ts: seq<Int64>): seq<Byte> {
    TimestampBlock(ts)[|PutUvarint(|ts|)|..]
  }

  lemma RegroupBytes(a: seq<Byte>, b: seq<Byte>, c: seq<Byte>)
    ensures a + b + c == a + (b + c) && (a + (b + c))[|a|..] == b + c
    ensures (a + b)[|a|..] == b
  {
  }

  lemma BodyIs(ts: seq<Int64>)
    ensures BlockBody(ts) == if ts == [] then [] else PutTime(ts[0]) + DodBytes(ts[0], 0, ts[1..])
    ensures TimestampBlock(ts) == PutUvarint(|ts|) + BlockBody(ts)
  {
    hide PutUvarint, PutTime, DodBytes;
    if ts == [] {
      RegroupBytes(PutUvarint(0), [], []);
    } else {
      RegroupBytes(PutUvarint(|ts|), PutTime(ts[0]), DodBytes(ts[0], 0, ts[1..]));
    }
  }

  /** Byte for byte: a block is its count and, timestamp by timestamp, its last bytes. */
  lemma BlockGrows(ts: seq<Int64>, t: Int64)
    ensures TimestampBlock(ts) == PutUvarint(|ts|) + BlockBody(ts)
    ensures ts == [] ==> BlockBody(ts) == []
    ensures BlockBody(ts + [t]) == BlockBody(ts) + LastBytes(ts + [t])
  {
    hide *;
    BodyIs(ts);
    BodyGrows(ts, t);
  }

  lemma BodyGrows(ts: seq<Int64>, t: Int64)
    ensures BlockBody(ts + [t]) == BlockBody(ts) + LastBytes(ts + [t])
  {
    hide *;
    var all := ts + [t];
    BodyIs(ts);
    BodyIs(all);
    LastDods(ts, t);
    if ts == [] {
      assert all[0] == t;
      EmptyFirst(LastBytes(all));
    } else {
      assert all[0] == ts[0] && all[1..] == ts[1..] + [t];
      JoinLast(PutTime(ts[0]), DodBytes(ts[0], 0, ts[1..]), LastBytes(all), DodBytes(ts[0], 0, all[1..]));
    }
  }

  lemma EmptyFirst(a: seq<Byte>)
    ensures [] + a == a
  {
  }

  lemma JoinLast(a: seq<Byte>, b: seq<Byte>, c: seq<Byte>, bc: seq<Byte>)
    requires bc == b + c
    ensures a + bc == a + b + c
  {
  }

  lemma LastDods(ts: seq<Int64>, t: Int64)
    ensures var all := ts + [t];
            if ts == [] then PutTime(t) + DodBytes(t, 0, all[1..]) == LastBytes(all)
            else DodBytes(ts[0], 0, ts[1..] + [t]) == DodBytes(ts[0], 0, ts[1..]) + LastBytes(all)
  {
    hide PutUvarint, PutTime, PutVarint, Sub64, Mod64, DodBytes;
    var all, n := ts + [t], |ts|;
    if n == 0 {
      assert all[1..] == [];
      NoDods(t);
    } else {
      DodsGrow(ts[0], 0, ts[1..], t);
      if n == 1 {
        Difference(t, ts[0]);
        LessNothing(Sub64(t, ts[0]));
        NoDods(ts[0]);
        assert ts[1..] == [];
      } else {
        assert ts[1..][n - 2] == ts[n - 1] && (n > 2 ==> ts[1..][n - 3] == ts[n - 2]);
        SecondDifference(t, ts[n - 1], ts[n - 2]);
        assert all[n] == t && all[n - 1] == ts[n - 1] && all[n - 2] == ts[n - 2];
      }
    }
  }

  lemma NoDods(t: Int64)
    ensures DodBytes(t, 0, []) == []
  {
  }

  lemma LessNothing(a: Int64)
    ensures Sub64(a, 0) == a
  {
  }

  /** The block of 0, 1000 and 1999 milliseconds. */
  lemma KnownBlock()
    ensures TimestampBlock([0, 1000, 1999]) == [3, 0, 0, 0, 0, 0, 0, 0, 0, 0xD0, 0x0F, 0x01]
  {
    var ts: seq<Int64> := [0, 1000, 1999];
    assert ts[1..] == [1000, 1999] && ts[1..][1..] == [1999] && ts[1..][1..][1..] == [];
    assert PutTime(0) == [0, 0, 0, 0, 0, 0, 0, 0] by {
      TimeBytes(0);
      ZeroDigits(PutTime(0));
    }
    assert PutVarint(1000) == [0xD0, 0x0F] by {
      assert PutUvarint(2000) == [0xD0] + PutUvarint(15);
    }
    assert PutVarint(-1) == [1];
    hide PutTime, PutVarint, PutUvarint;
    assert DodBytes(1000, 1000, [1999]) == PutVarint(-1) + DodBytes(1999, 999, []);
    assert DodBytes(0, 0, [1000, 1999]) == PutVarint(1000) + DodBytes(1000, 1000, [1999]);
    assert PutUvarint(3) == [3] by {
      SmallUvarint(3);
    }
  }

  lemma SmallUvarint(x: nat)
    requires x < 128
    ensures PutUvarint(x) == [x]
  {
  }

  lemma {:induction false} ZeroDigits(b: seq<Byte>)
    requires Base256(b) == 0
    ensures b == seq(|b|, i => 0)
  {
    if b != [] {
      ZeroDigits(b[1..]);
      assert b == [b[0]] + b[1..];
    }
  }

  // ---------- cut short ----------

  lemma {:induction false} DodsCut(prev: Int64, d: Int64, ts: seq<Int64>, k: nat)
    requires k < |DodBytes(prev, d, ts)|
    ensures ReadDods(DodBytes(prev, d, ts)[..k], |ts|, prev, d) == Err(UnexpectedEOF)
    decreases |ts|
  {
    hide PutVarint, GetVarint;
    var d' := Sub64(ts[0], prev);
    var first, more := PutVarint(Sub64(d', d)), DodBytes(ts[0], d', ts[1..]);
    if k < |first| {
      assert DodBytes(prev, d, ts)[..k] == first[..k];
      VarintCut(Sub64(d', d), k);
    } else {
      assert DodBytes(prev, d, ts)[..k] == first + more[..k - |first|];
      VarintRoundTrip(Sub64(d', d), more[..k - |first|]);
      AddSub64(d', d);
      AddSub64(ts[0], prev);
      DodsCut(ts[0], d', ts[1..], k - |first|);
    }
  }

  lemma VarintCut(x: Int64, k: nat)
    requires k < |PutVarint(x)|
    ensures GetVarint(PutVarint(x)[..k]) == Err(UnexpectedEOF)
  {
    UvarintCut(ZigZag(x), k);
  }

  /** No proper prefix of a block is taken for a block. */
  lemma TimestampCut(ts: seq<Int64>, k: nat)
    requires |ts| < TWO_63 && k < |TimestampBlock(ts)|
    ensures ReadTimestampBlock(TimestampBlock(ts)[..k]) == Err(UnexpectedEOF)
  {
    hide GetUvarint, PutUvarint, GetTime, PutTime;
    var head, block := PutUvarint(|ts|), TimestampBlock(ts);
    if k < |head| {
      assert block[..k] == head[..k];
      UvarintCut(|ts|, k);
    } else {
      var dods := DodBytes(ts[0], 0, ts[1..]);
      var body := PutTime(ts[0]) + dods;
      assert block == head + body && block[..k] == head + body[..k - |head|];
      UvarintRoundTrip(|ts|, body[..k - |head|]);
      if k - |head| >= 8 {
        assert body[..k - |head|] == PutTime(ts[0]) + dods[..k - |head| - 8];
        FirstRoundTrip(ts[0], dods[..k - |head| - 8]);
        assert body[..k - |head|][8..] == dods[..k - |head| - 8];
        DodsCut(ts[0], 0, ts[1..], k - |head| - 8);
      }
    }
  }

  // ---------- the code ----------

  method EncodeTimestamps(ts: seq<Int64>) returns (out: seq<Byte>)
    ensures out == TimestampBlock(ts)
  {
    out := PutUvarint(|ts|);
    if |ts| == 0 {
      return;
    }
    out := out + PutTime(ts[0]);
    if |ts| == 1 {
      assert DodBytes(ts[0], 0, ts[1..]) == [];
      return;
    }
    var prevDelta := Sub64(ts[1], ts[0]);
    AddSub64(prevDelta, 0);
    out := out + PutVarint(prevDelta);
    assert out + DodBytes(ts[1], prevDelta, ts[1..][1..]) == TimestampBlock(ts);
    var i := 2;
    assert ts[1..][1..] == ts[2..];
    while i < |ts|
      invariant 2 <= i <= |ts|
      invariant out + DodBytes(ts[i - 1], prevDelta, ts[i..]) == TimestampBlock(ts)
    {
      var d := Sub64(ts[i], ts[i - 1]);
      assert ts[i..][1..] == ts[i + 1..];
      out := out + PutVarint(Sub64(d, prevDelta));
      prevDelta := d;
      i := i + 1;
    }
  }

  method DecodeTimestamps(data: seq<Byte>) returns (r: Result<seq<Int64>>)
    ensures r == ReadTimestampBlock(data)
  {
    hide GetVarint, GetUvarint, GetTime;
    var reader := new ByteReader(data);
    var count := reader.Uvarint();
    if count.Err? {
      return Err(count.error);
    }
    if count.value == 0 {
      return Ok([]);
    }
    if |reader.b| < 8 {
      return Err(UnexpectedEOF);
    }
    var t0 := GetTime(reader.b);
    reader.b := reader.b[8..];
    var out := [t0];
    if count.value == 1 {
      assert out + [] == out;
      return Ok(out);
    }
    ghost var whole := ReadTimestampBlock(data);
    ghost var b := reader.b;
    var first := reader.Varint();
    if first.Err? {
      return Err(first.error);
    }
    var d := first.value;
    ReadDodsStep(out, b, count.value - 1, t0, 0, d, reader.b);
    AddSub64(d, 0);
    out := out + [Add64(t0, d)];
    var i := 2;
    while i < count.value
      invariant 2 <= i <= count.value && |out| == i
      invariant whole == After(out, ReadDods(reader.b, count.value - i, out[i - 1], d))
    {
      b := reader.b;
      var dod := reader.Varint();
      if dod.Err? {
        return Err(dod.error);
      }
      ReadDodsStep(out, b, count.value - i, out[i - 1], d, dod.value, reader.b);
      d := Add64(d, dod.value);
      out := out + [Add64(out[i - 1], d)];
      i := i + 1;
    }
    assert out + [] == out;
    return Ok(out);
  }
}
