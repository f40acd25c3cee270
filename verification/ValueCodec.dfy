/** The Gorilla XOR value codec: encodeValues and decodeValues of storage/encode.go. */
module ValueCodec {
  import opened Bits
  import opened BitStream
  import opened Results
  import opened Varint

  /** The leading and trailing zero counts of the last window written; lz == 0 is "no window". */
  datatype Window = Window(lz: nat, tz: nat)

  const NO_WINDOW := Window(0, 0)

  ghost predicate ValidWindow(w: Window) {
    w.lz <= 31 && w.lz + w.tz <= 63
  }

  // ---------- the bit stream ----------

  function Clamped(lz: nat): nat {
    if lz > 31 then 31 else lz
  }

  predicate FitsWindow(xor: Word, w: Window) {
    w.lz != 0 && Clamped(LeadingZeros(xor)) >= w.lz && TrailingZeros(xor) >= w.tz
  }

  /** The bits that w leaves between its leading and trailing zeros. */
  function Significant(xor: Word, w: Window): seq<bool>
    requires ValidWindow(w)
  {
    xor[w.lz..64 - w.tz]
  }

  lemma AllZero(bits: seq<bool>)
    ensures LeadingZeros(bits) == |bits| ==> bits == Zeros(|bits|)
  {
  }

  lemma NonZero(xor: Word)
    requires xor != Zeros(64)
    ensures LeadingZeros(xor) + TrailingZeros(xor) <= 63
  {
    AllZero(xor);
    assert xor[LeadingZeros(xor)];
  }

  function WindowOf(xor: Word): (w: Window)
    requires xor != Zeros(64)
    ensures ValidWindow(w)
  {
    NonZero(xor);
    Window(Clamped(LeadingZeros(xor)), TrailingZeros(xor))
  }

  /** 6 bits hold lengths 1 to 63; 64 is written as 0. */
  function Header(w: Window): (bits: seq<bool>)
    requires ValidWindow(w)
    ensures |bits| == 11
  {
    BitsOf(w.lz, 5) + BitsOf(if w.lz + w.tz == 0 then 0 else 64 - w.lz - w.tz, 6)
  }

  function NextWindow(xor: Word, w: Window): (next: Window)
    requires ValidWindow(w)
    ensures ValidWindow(next)
  {
    if xor == Zeros(64) || FitsWindow(xor, w) then w else WindowOf(xor)
  }

  /** The bits of one value, given its exclusive or with the value before it. */
  function PointBits(xor: Word, w: Window): seq<bool>
    requires ValidWindow(w)
  {
    if xor == Zeros(64) then [false]
    else if FitsWindow(xor, w) then [true, false] + Significant(xor, w)
    else [true, true] + Header(WindowOf(xor)) + Significant(xor, WindowOf(xor))
  }

  function StreamBits(prev: Word, w: Window, vs: seq<Word>): seq<bool>
    requires ValidWindow(w)
    decreases |vs|
  {
    if vs == [] then []
    else
      var xor := Xor(vs[0], prev);
      PointBits(xor, w) + StreamBits(vs[0], NextWindow(xor, w), vs[1..])
  }

  function ValueBlock(vs: seq<Word>): seq<Byte> {
    if vs == [] then PutUvarint(0)
    else PutUvarint(|vs|) + PutFixed64(vs[0]) + Pack(StreamBits(vs[0], NO_WINDOW, vs[1..]))
  }

  // ---------- reading it back ----------

  /** readBits(n), with the bits it leaves. */
  function TakeBits(bits: seq<bool>, n: nat): Result<(Word, seq<bool>)>
    requires n <= 64
  {
    if |bits| < n then Err(UnexpectedEOF) else Ok((Zeros(64 - n) + bits[..n], bits[n..]))
  }

  lemma {:induction false} NatOfPadded(k: nat, bits: seq<bool>)
    ensures NatOf(Zeros(k) + bits) == NatOf(bits)
  {
    if bits == [] {
      assert Zeros(k) + bits == Zeros(k);
      NatOfZeros(k);
    } else {
      assert (Zeros(k) + bits)[..k + |bits| - 1] == Zeros(k) + bits[..|bits| - 1];
      NatOfPadded(k, bits[..|bits| - 1]);
    }
  }

  /** readBits(n) taken as a number. */
  function TakeNat(bits: seq<bool>, n: nat): (r: Result<(nat, seq<bool>)>)
    requires n <= 64
    ensures r.Ok? ==> r.value.0 < Pow2(n)
  {
    var (v, rest) :- TakeBits(bits, n);
    NatOfPadded(64 - n, bits[..n]);
    NatOfBound(bits[..n]);
    Ok((NatOf(v), rest))
  }

  /** The leading zero count and the number of significant bits of a new window. */
  function ReadHeader(bits: seq<bool>): (r: Result<(nat, nat, seq<bool>)>)
    ensures r.Ok? ==> r.value.0 <= 31 && 1 <= r.value.1 <= 64
  {
    assert Pow2(5) == 32 && Pow2(6) == 64;
    var (lz, rest) :- TakeNat(bits, 5);
    var (sigLen, rest') :- TakeNat(rest, 6);
    Ok((lz, if sigLen == 0 then 64 else sigLen, rest'))
  }

  /** Reads the significant bits of a window and shifts them into place. A header found only in a
      corrupt block leaves a negative trailing count, at which Go's shift panics. */
  function ReadSignificant(bits: seq<bool>, lz: nat, sigLen: nat): (r: Result<(Word, Window, seq<bool>)>)
    requires lz <= 31 && 1 <= sigLen <= 64
    ensures r.Ok? ==> ValidWindow(r.value.1)
  {
    var (sig, rest) :- TakeBits(bits, sigLen);
    if lz + sigLen > 64 then Err(Panic)
    else
      var tz := 64 - lz - sigLen;
      Ok((ShiftLeft(sig, tz), Window(lz, tz), rest))
  }

  /** One value: its exclusive or with the one before, the window after it and the bits left. */
  function ReadPoint(bits: seq<bool>, w: Window): (r: Result<(Word, Window, seq<bool>)>)
    requires ValidWindow(w)
    ensures r.Ok? ==> ValidWindow(r.value.1)
  {
    if bits == [] then Err(UnexpectedEOF)
    else if !bits[0] then Ok((Zeros(64), w, bits[1..]))
    else if bits[1..] == [] then Err(UnexpectedEOF)
    else if !bits[1] then ReadSignificant(bits[2..], w.lz, 64 - w.lz - w.tz)
    else
      var (lz, sigLen, rest) :- ReadHeader(bits[2..]);
      ReadSignificant(rest, lz, sigLen)
  }

  function ReadStream(bits: seq<bool>, count: nat, prev: Word, w: Window): Result<seq<Word>>
    requires ValidWindow(w)
    decreases count
  {
    if count == 0 then Ok([])
    else
      var got := ReadPoint(bits, w);
      if got.Err? then Err(got.error)
      else
        var v := Xor(prev, got.value.0);
        After([v], ReadStream(got.value.2, count - 1, v, got.value.1))
  }

  function ReadValueBlock(data: seq<Byte>): Result<seq<Word>> {
    var (count, rest) :- GetUvarint(data);
    if count == 0 then Ok([])
    else if |rest| < 8 then Err(UnexpectedEOF)
    else
      var first := Fixed64(rest);
      After([first], ReadStream(Unpack(rest[8..]), count - 1, first, NO_WINDOW))
  }

  // ---------- round trip ----------

  /** The bits outside the window are zero, so shifting the kept ones back loses nothing. */
  lemma SignificantRoundTrip(xor: Word, w: Window, rest: seq<bool>)
    requires ValidWindow(w) && w.lz <= LeadingZeros(xor) && w.tz <= TrailingZeros(xor)
    ensures TakeBits(Significant(xor, w) + rest, 64 - w.lz - w.tz)
            == Ok((Zeros(w.lz + w.tz) + Significant(xor, w), rest))
    ensures ShiftLeft(Zeros(w.lz + w.tz) + Significant(xor, w), w.tz) == xor
  {
    SignificantBack(xor, w);
    hide ShiftLeft, LeadingZeros, TrailingZeros;
    var sig := Significant(xor, w);
    assert (sig + rest)[..|sig|] == sig && (sig + rest)[|sig|..] == rest;
  }

  lemma SignificantBack(xor: Word, w: Window)
    requires ValidWindow(w) && w.lz <= LeadingZeros(xor) && w.tz <= TrailingZeros(xor)
    ensures ShiftLeft(Zeros(w.lz + w.tz) + Significant(xor, w), w.tz) == xor
  {
    var sig := Significant(xor, w);
    assert (Zeros(w.lz + w.tz) + sig)[w.tz..] == Zeros(w.lz) + sig;
    assert xor[..w.lz] == Zeros(w.lz) && xor[64 - w.tz..] == Zeros(w.tz);
    assert xor == xor[..w.lz] + sig + xor[64 - w.tz..];
  }

  lemma TakeNatRoundTrip(n: nat, width: nat, rest: seq<bool>)
    requires width <= 64 && n < Pow2(width)
    ensures TakeNat(BitsOf(n, width) + rest, width) == Ok((n, rest))
  {
    var bits := BitsOf(n, width);
    assert (bits + rest)[..width] == bits && (bits + rest)[width..] == rest;
    NatOfPadded(64 - width, bits);
    NatOfBitsOf(n, width);
  }

  lemma HeaderRoundTrip(w: Window, rest: seq<bool>)
    requires ValidWindow(w)
    ensures ReadHeader(Header(w) + rest) == Ok((w.lz, 64 - w.lz - w.tz, rest))
  {
    hide TakeNat;
    assert Pow2(5) == 32 && Pow2(6) == 64;
    var sigLen := if w.lz + w.tz == 0 then 0 else 64 - w.lz - w.tz;
    assert Header(w) + rest == BitsOf(w.lz, 5) + (BitsOf(sigLen, 6) + rest);
    TakeNatRoundTrip(w.lz, 5, BitsOf(sigLen, 6) + rest);
    TakeNatRoundTrip(sigLen, 6, rest);
  }

  /** One step of the simulation: the decoder recovers the exclusive or, reaches the window the
      encoder reached, and leaves exactly the bits that follow. */
  lemma PointRoundTrip(xor: Word, w: Window, rest: seq<bool>)
    requires ValidWindow(w)
    ensures ReadPoint(PointBits(xor, w) + rest, w) == Ok((xor, NextWindow(xor, w), rest))
  {
    hide TakeBits, ReadHeader, Significant, Header, ShiftLeft;
    var bits := PointBits(xor, w) + rest;
    if xor == Zeros(64) {
      assert bits[1..] == rest;
    } else if FitsWindow(xor, w) {
      assert bits[2..] == Significant(xor, w) + rest;
      SignificantRoundTrip(xor, w, rest);
    } else {
      var next := WindowOf(xor);
      assert bits[2..] == Header(next) + (Significant(xor, next) + rest);
      HeaderRoundTrip(next, Significant(xor, next) + rest);
      SignificantRoundTrip(xor, next, rest);
    }
  }

  lemma XorUndo(a: Word, b: Word)
    ensures Xor(b, Xor(a, b)) == a && Xor(a, Zeros(64)) == a
  {
  }

  /** Whatever follows the stream, padding included, is ignored. */
  lemma {:induction false} StreamRoundTrip(prev: Word, w: Window, vs: seq<Word>, rest: seq<bool>)
    requires ValidWindow(w)
    ensures ReadStream(StreamBits(prev, w, vs) + rest, |vs|, prev, w) == Ok(vs)
    decreases |vs|
  {
    hide ReadPoint, PointBits, NextWindow, Xor;
    if vs != [] {
      var xor := Xor(vs[0], prev);
      var tail := StreamBits(vs[0], NextWindow(xor, w), vs[1..]);
      assert StreamBits(prev, w, vs) + rest == PointBits(xor, w) + (tail + rest);
      PointRoundTrip(xor, w, tail + rest);
      XorUndo(vs[0], prev);
      StreamRoundTrip(vs[0], NextWindow(xor, w), vs[1..], rest);
      assert vs == [vs[0]] + vs[1..];
    }
  }

  /** Every sequence of 64-bit words comes back bit for bit. */
  lemma ValueRoundTrip(vs: seq<Word>)
    requires |vs| < TWO_63
    ensures ReadValueBlock(ValueBlock(vs)) == Ok(vs)
  {
    hide GetUvarint, Fixed64, PutFixed64, Pack, Unpack, StreamBits, ReadStream;
    if vs == [] {
      assert PutUvarint(0) + [] == PutUvarint(0);
      UvarintRoundTrip(0, []);
    } else {
      var bits := StreamBits(vs[0], NO_WINDOW, vs[1..]);
      var body := PutFixed64(vs[0]) + Pack(bits);
      assert ValueBlock(vs) == PutUvarint(|vs|) + body;
      UvarintRoundTrip(|vs|, body);
      Fixed64RoundTrip(vs[0], Pack(bits));
      assert body[8..] == Pack(bits);
      UnpackPack(bits);
      StreamRoundTrip(vs[0], NO_WINDOW, vs[1..], Zeros(|Unpack(Pack(bits))| - |bits|));
      assert vs == [vs[0]] + vs[1..];
    }
  }

  // ---------- cut short ----------

  lemma TakeCut(bits: seq<bool>, k: nat, n: nat)
    requires k < n <= 64
    ensures |bits| == k ==> TakeBits(bits, n) == Err(UnexpectedEOF)
  {
  }

  lemma PointCut(xor: Word, w: Window, k: nat)
    requires ValidWindow(w) && k < |PointBits(xor, w)|
    ensures ReadPoint(PointBits(xor, w)[..k], w) == Err(UnexpectedEOF)
  {
    hide Header, NatOf;
    var bits := PointBits(xor, w)[..k];
    PointControl(bits, w);
    if k >= 2 {
      if FitsWindow(xor, w) {
        assert bits[2..] == Significant(xor, w)[..k - 2];
      } else if k < 13 {
        PointHeader(bits, w);
      } else {
        HeaderKept(xor, w, k);
      }
    }
  }

  lemma HeaderKept(xor: Word, w: Window, k: nat)
    requires ValidWindow(w) && xor != Zeros(64) && !FitsWindow(xor, w) && 13 <= k < |PointBits(xor, w)|
    ensures ReadPoint(PointBits(xor, w)[..k], w) == Err(UnexpectedEOF)
  {
    hide ReadHeader, Header, FitsWindow, LeadingZeros, TrailingZeros;
    var next := WindowOf(xor);
    var sig := Significant(xor, next);
    assert PointBits(xor, w) == [true, true] + Header(next) + sig;
    assert PointBits(xor, w)[..k][2..] == Header(next) + sig[..k - 13];
    HeaderRoundTrip(next, sig[..k - 13]);
  }

  lemma {:induction false} StreamCut(prev: Word, w: Window, vs: seq<Word>, k: nat)
    requires ValidWindow(w) && k < |StreamBits(prev, w, vs)|
    ensures ReadStream(StreamBits(prev, w, vs)[..k], |vs|, prev, w) == Err(UnexpectedEOF)
    decreases |vs|
  {
    hide ReadPoint, PointBits, NextWindow, Xor;
    var xor := Xor(vs[0], prev);
    var first, more := PointBits(xor, w), StreamBits(vs[0], NextWindow(xor, w), vs[1..]);
    if k < |first| {
      assert StreamBits(prev, w, vs)[..k] == first[..k];
      PointCut(xor, w, k);
    } else {
      assert StreamBits(prev, w, vs)[..k] == first + more[..k - |first|];
      PointRoundTrip(xor, w, more[..k - |first|]);
      XorUndo(vs[0], prev);
      StreamCut(vs[0], NextWindow(xor, w), vs[1..], k - |first|);
    }
  }

  lemma UnpackCut(bits: seq<bool>, m: nat)
    requires m < |Pack(bits)|
    ensures 8 * m < |bits| && Unpack(Pack(bits)[..m]) == bits[..8 * m]
  {
    UnpackPack(bits);
    hide Pack;
    assert Unpack(Pack(bits)[..m]) == Unpack(Pack(bits))[..8 * m];
  }

  /** No proper prefix of a block is taken for a block. */
  lemma ValueCut(vs: seq<Word>, k: nat)
    requires |vs| < TWO_63 && k < |ValueBlock(vs)|
    ensures ReadValueBlock(ValueBlock(vs)[..k]) == Err(UnexpectedEOF)
  {
    hide GetUvarint, PutUvarint, Fixed64, PutFixed64, Pack, Unpack, StreamBits, ReadStream;
    var head, block := PutUvarint(|vs|), ValueBlock(vs);
    if k < |head| {
      assert block[..k] == head[..k];
      UvarintCut(|vs|, k);
    } else {
      var bits := StreamBits(vs[0], NO_WINDOW, vs[1..]);
      var body := PutFixed64(vs[0]) + Pack(bits);
      assert block == head + body && block[..k] == head + body[..k - |head|];
      UvarintRoundTrip(|vs|, body[..k - |head|]);
      if k - |head| >= 8 {
        var m := k - |head| - 8;
        assert body[..k - |head|] == PutFixed64(vs[0]) + Pack(bits)[..m];
        Fixed64RoundTrip(vs[0], Pack(bits)[..m]);
        assert body[..k - |head|][8..] == Pack(bits)[..m];
        UnpackCut(bits, m);
        StreamCut(vs[0], NO_WINDOW, vs[1..], 8 * m);
      }
    }
  }

  /** A constant gauge costs one bit per point after the first. */
  lemma {:induction false} ConstantIsOneBit(v: Word, w: Window, vs: seq<Word>)
    requires ValidWindow(w) && forall i :: 0 <= i < |vs| ==> vs[i] == v
    ensures StreamBits(v, w, vs) == Zeros(|vs|)
    decreases |vs|
  {
    if vs != [] {
      assert Xor(v, v) == Zeros(64);
      ConstantIsOneBit(v, w, vs[1..]);
    }
  }

  // ---------- the bits themselves ----------

  /** The first from bits of xor are zero, and so are the last to. */
  predicate ZeroEnds(xor: Word, from: nat, to: nat) {
    from <= 64 && to <= 64 && (forall i :: 0 <= i < from ==> !xor[i]) && forall i :: 64 - to <= i < 64 ==> !xor[i]
  }

  lemma EndsZero(xor: Word, from: nat, to: nat)
    requires from <= 64 && to <= 64
    ensures ZeroEnds(xor, from, to) <==> from <= LeadingZeros(xor) && to <= TrailingZeros(xor)
  {
    var lz, tz := LeadingZeros(xor), TrailingZeros(xor);
    if ZeroEnds(xor, from, to) {
      assert lz < 64 ==> xor[lz];
      assert tz < 64 ==> xor[64 - 1 - tz];
    }
  }

  /** A window is open, and all bits outside it are zero. */
  predicate Reusable(xor: Word, w: Window) {
    w.lz != 0 && ZeroEnds(xor, w.lz, w.tz)
  }

  lemma ReusableFits(xor: Word, w: Window)
    requires ValidWindow(w)
    ensures Reusable(xor, w) <==> FitsWindow(xor, w)
  {
    EndsZero(xor, w.lz, w.tz);
    hide LeadingZeros, TrailingZeros, ZeroEnds;
  }

  /** An equal value is a zero bit. A value whose exclusive or fits the window is 10 and the bits of the
      window, which stays as it is. */
  lemma PointInWindow(xor: Word, w: Window)
    requires ValidWindow(w)
    ensures xor == Zeros(64) ==> PointBits(xor, w) == [false] && NextWindow(xor, w) == w
    ensures xor != Zeros(64) && Reusable(xor, w) ==>
              && PointBits(xor, w) == [true, false] + xor[w.lz..64 - w.tz] && NextWindow(xor, w) == w
              && |PointBits(xor, w)| == 2 + (64 - w.lz - w.tz)
  {
    ReusableFits(xor, w);
    hide Reusable, FitsWindow, Header;
  }

  /** Any other value is 11, five bits for its leading zeros, of which 31 count at most, six bits for the
      number of bits that follow, modulo 64, and these bits: all between the leading zeros and the trailing
      ones. They are the window from then on. */
  lemma PointOpensWindow(xor: Word, w: Window, lz: nat, tz: nat)
    requires ValidWindow(w) && xor != Zeros(64) && !Reusable(xor, w)
    requires lz <= 31 && ZeroEnds(xor, lz, tz) && (lz == 31 || xor[lz]) && tz < 64 && xor[63 - tz]
    ensures lz + tz < 64 && NextWindow(xor, w) == Window(lz, tz)
    ensures PointBits(xor, w) == [true, true] + BitsOf(lz, 5) + BitsOf((64 - lz - tz) % 64, 6) + xor[lz..64 - tz]
  {
    ReusableFits(xor, w);
    CountsAre(xor, lz, tz);
    NonZero(xor);
    hide Reusable, FitsWindow, LeadingZeros, TrailingZeros, BitsOf, ZeroEnds, PointBits, Header;
    WindowBits(xor, w, Window(lz, tz));
  }

  lemma WindowBits(xor: Word, w: Window, next: Window)
    requires ValidWindow(w) && xor != Zeros(64) && !FitsWindow(xor, w) && WindowOf(xor) == next
    ensures PointBits(xor, w) ==
            [true, true] + BitsOf(next.lz, 5) + BitsOf((64 - next.lz - next.tz) % 64, 6) + xor[next.lz..64 - next.tz]
  {
    hide FitsWindow, WindowOf, BitsOf;
    var lz, rest := BitsOf(next.lz, 5), BitsOf((64 - next.lz - next.tz) % 64, 6);
    assert Header(next) == lz + rest;
    hide Header;
    assert PointBits(xor, w) == [true, true] + (lz + rest) + xor[next.lz..64 - next.tz];
    assert [true, true] + (lz + rest) == [true, true] + lz + rest;
  }

  lemma CountsAre(xor: Word, lz: nat, tz: nat)
    requires lz <= 31 && ZeroEnds(xor, lz, tz) && (lz == 31 || xor[lz]) && tz < 64 && xor[63 - tz]
    ensures Clamped(LeadingZeros(xor)) == lz && TrailingZeros(xor) == tz
  {
    EndsZero(xor, lz, tz);
    hide LeadingZeros, TrailingZeros, ZeroEnds;
    if LeadingZeros(xor) > lz {
      assert !xor[lz];
    }
    assert forall i :: 64 - TrailingZeros(xor) <= i < 64 ==> !xor[i];
    assert 63 - tz < 64 - TrailingZeros(xor);
  }

  /** A gauge that never changes: count, value, and one zero bit for each further point. */
  lemma ConstantBlock(v: Word, n: nat)
    requires n > 0
    ensures ValueBlock(seq(n, i => v)) == PutUvarint(n) + PutFixed64(v) + seq((n + 6) / 8, i => 0)
  {
    var vs := seq(n, i => v);
    ConstantIsOneBit(v, NO_WINDOW, vs[1..]);
    hide StreamBits, PutFixed64, PutUvarint;
    assert Pack(Zeros(n - 1)) == seq((n + 6) / 8, i => 0) by {
      var packed := Pack(Zeros(n - 1));
      forall j | 0 <= j < |packed| ensures packed[j] == 0 {
        PackIsHighFirst(Zeros(n - 1), j);
      }
    }
  }

  // ---------- the code ----------

  lemma ReadStreamStep(out: seq<Word>, bits: seq<bool>, count: nat, prev: Word, w: Window,
                       got: (Word, Window, seq<bool>))
    requires count > 0 && ValidWindow(w) && ValidWindow(got.1) && ReadPoint(bits, w) == Ok(got)
    ensures After(out, ReadStream(bits, count, prev, w))
            == After(out + [Xor(prev, got.0)], ReadStream(got.2, count - 1, Xor(prev, got.0), got.1))
  {
    hide ReadPoint, Xor;
    var r := ReadStream(got.2, count - 1, Xor(prev, got.0), got.1);
    if r.Ok? {
      assert out + ([Xor(prev, got.0)] + r.value) == out + [Xor(prev, got.0)] + r.value;
    }
  }

  lemma StreamBitsStep(before: seq<bool>, prev: Word, w: Window, vs: seq<Word>, i: nat)
    requires ValidWindow(w) && i <= |vs|
    ensures i == |vs| ==> before + StreamBits(prev, w, vs[i..]) == before
    ensures i < |vs| ==>
              before + StreamBits(prev, w, vs[i..])
              == before + PointBits(Xor(vs[i], prev), w)
                 + StreamBits(vs[i], NextWindow(Xor(vs[i], prev), w), vs[i + 1..])
  {
    hide Xor, PointBits, NextWindow;
    if i < |vs| {
      assert vs[i..][1..] == vs[i + 1..];
    }
  }

  lemma SamePointBits(before: seq<bool>, w: Window)
    requires ValidWindow(w)
    ensures before + [false] == before + PointBits(Zeros(64), w)
  {
  }

  lemma SignificantIsLow(xor: Word, w: Window)
    requires ValidWindow(w)
    ensures LowBits(ShiftRight(xor, w.tz), 64 - w.lz - w.tz) == Significant(xor, w)
  {
    LowBitsShifted(xor, w.tz, 64 - w.lz - w.tz);
  }

  lemma OldWindowBits(before: seq<bool>, xor: Word, w: Window)
    requires ValidWindow(w) && xor != Zeros(64) && FitsWindow(xor, w)
    ensures before + [true] + [false] + LowBits(ShiftRight(xor, w.tz), 64 - w.lz - w.tz)
            == before + PointBits(xor, w)
  {
    hide LowBits, ShiftRight, Significant, LeadingZeros, TrailingZeros;
    SignificantIsLow(xor, w);
  }

  lemma NewWindowBits(before: seq<bool>, xor: Word, w: Window, sigLen: nat)
    requires ValidWindow(w) && xor != Zeros(64) && !FitsWindow(xor, w)
    requires sigLen == 64 - WindowOf(xor).lz - WindowOf(xor).tz
    ensures before + [true] + [true] + LowBits(WordOf(WindowOf(xor).lz), 5)
            + LowBits(WordOf(if sigLen == 64 then 0 else sigLen), 6)
            + LowBits(ShiftRight(xor, WindowOf(xor).tz), sigLen)
            == before + PointBits(xor, w)
  {
    hide LowBits, BitsOf, ShiftRight, LeadingZeros, TrailingZeros, WordOf, Significant;
    var next := WindowOf(xor);
    assert PointBits(xor, w) == [true, true] + Header(next) + Significant(xor, next);
    SignificantIsLow(xor, next);
    LowBitsOf(next.lz, 5);
    LowBitsOf(if sigLen == 64 then 0 else sigLen, 6);
  }

  lemma ReadStreamDone(out: seq<Word>, bits: seq<bool>, prev: Word, w: Window)
    requires ValidWindow(w)
    ensures After(out, ReadStream(bits, 0, prev, w)) == Ok(out)
  {
    assert out + [] == out;
  }

  lemma ReadStreamFails(out: seq<Word>, bits: seq<bool>, count: nat, prev: Word, w: Window)
    requires count > 0 && ValidWindow(w) && ReadPoint(bits, w).Err?
    ensures After(out, ReadStream(bits, count, prev, w)) == Err(ReadPoint(bits, w).error)
  {
    hide ReadPoint;
  }

  method EncodeValues(vs: seq<Word>) returns (out: seq<Byte>)
    ensures out == ValueBlock(vs)
  {
    hide PutUvarint, PutFixed64, Pack, Xor, ShiftRight, LowBits, WordOf, LeadingZeros, TrailingZeros;
    hide PointBits, StreamBits, BitWriter.Valid;
    out := PutUvarint(|vs|);
    if |vs| == 0 {
      return;
    }
    out := out + PutFixed64(vs[0]);
    var w := new BitWriter();
    var prev := vs[0];
    var prevLz, prevTz := 0, 0;
    var i := 1;
    while i < |vs|
      invariant 1 <= i <= |vs| && prev == vs[i - 1]
      invariant w.Valid() && fresh(w) && ValidWindow(Window(prevLz, prevTz))
      invariant w.written + StreamBits(prev, Window(prevLz, prevTz), vs[i..])
                == StreamBits(vs[0], NO_WINDOW, vs[1..])
    {
      var cur := vs[i];
      var xor := Xor(cur, prev);
      ghost var win := Window(prevLz, prevTz);
      ghost var before := w.written;
      if xor == Zeros(64) {
        w.WriteBit(false);
        SamePointBits(before, win);
        assert w.written == before + PointBits(xor, win) && Window(prevLz, prevTz) == NextWindow(xor, win);
      } else {
        NonZero(xor);
        var lz := LeadingZeros(xor);
        var tz := TrailingZeros(xor);
        if lz > 31 {
          lz := 31;
        }
        var sigLen := 64 - lz - tz;
        if prevLz != 0 && lz >= prevLz && tz >= prevTz {
          w.WriteBit(true);
          w.WriteBit(false);
          w.WriteBits(ShiftRight(xor, prevTz), 64 - prevLz - prevTz);
          OldWindowBits(before, xor, win);
          assert w.written == before + PointBits(xor, win) && Window(prevLz, prevTz) == NextWindow(xor, win);
        } else {
          w.WriteBit(true);
          w.WriteBit(true);
          w.WriteBits(WordOf(lz), 5);
          w.WriteBits(WordOf(if sigLen == 64 then 0 else sigLen), 6);
          w.WriteBits(ShiftRight(xor, tz), sigLen);
          NewWindowBits(before, xor, win, sigLen);
          prevLz, prevTz := lz, tz;
          assert w.written == before + PointBits(xor, win) && Window(prevLz, prevTz) == NextWindow(xor, win);
        }
      }
      StreamBitsStep(before, prev, win, vs, i);
      prev := cur;
      i := i + 1;
    }
    StreamBitsStep(w.written, prev, Window(prevLz, prevTz), vs, i);
    var bytes := w.Bytes();
    return out + bytes;
  }

  /** What the reading of a point comes to once its control bits are read, and its header. */
  lemma PointControl(bits: seq<bool>, w: Window)
    requires ValidWindow(w)
    ensures bits == [] ==> ReadPoint(bits, w) == Err(UnexpectedEOF)
    ensures bits != [] && !bits[0] ==> ReadPoint(bits, w) == Ok((Zeros(64), w, bits[1..]))
    ensures |bits| == 1 && bits[0] ==> ReadPoint(bits, w) == Err(UnexpectedEOF)
    ensures |bits| >= 2 && bits[0] && !bits[1] ==> ReadPoint(bits, w) == ReadSignificant(bits[2..], w.lz, 64 - w.lz - w.tz)
  {
    hide ReadSignificant, ReadHeader;
  }

  lemma PointHeader(bits: seq<bool>, w: Window)
    requires ValidWindow(w) && |bits| >= 2 && bits[0] && bits[1]
    ensures |bits| < 13 ==> ReadPoint(bits, w) == Err(UnexpectedEOF)
    ensures |bits| >= 13 ==>
              var lz, sigLen := NatOf(Zeros(59) + bits[2..][..5]), NatOf(Zeros(58) + bits[2..][5..][..6]);
              && lz <= 31 && sigLen <= 64
              && ReadPoint(bits, w) == ReadSignificant(bits[2..][5..][6..], lz, if sigLen == 0 then 64 else sigLen)
  {
    if |bits| >= 13 {
      NatOfPadded(59, bits[2..][..5]);
      NatOfBound(bits[2..][..5]);
      NatOfPadded(58, bits[2..][5..][..6]);
      NatOfBound(bits[2..][5..][..6]);
      assert Pow2(5) == 32 && Pow2(6) == 64;
    }
    hide ReadSignificant, NatOf, Zeros;
  }

  /** The exclusive or of the next value with the one before it, and the window after it. */
  method DecodePoint(br: BitReader, w: Window) returns (r: Result<(Word, Window)>)
    requires br.Valid() && ValidWindow(w)
    modifies br
    ensures br.Valid()
    ensures ReadPoint(old(br.Rest()), w).Err? ==> r == Err(ReadPoint(old(br.Rest()), w).error)
    ensures ReadPoint(old(br.Rest()), w).Ok? ==>
              r.Ok? && ReadPoint(old(br.Rest()), w) == Ok((r.value.0, r.value.1, br.Rest()))
  {
    hide BitReader.Rest, ShiftLeft, NatOf, ReadPoint, Zeros;
    ghost var bits := br.Rest();
    PointControl(bits, w);
    var bit := br.ReadBit();
    if bit.Err? {
      return Err(bit.error);
    }
    if !bit.value {
      return Ok((Zeros(64), w));
    }
    bit := br.ReadBit();
    if bit.Err? {
      return Err(bit.error);
    }
    assert br.Rest() == bits[2..];
    var lz, tz := w.lz, w.tz as int;
    if bit.value {
      PointHeader(bits, w);
      var l := br.ReadBits(5);
      if l.Err? {
        return Err(l.error);
      }
      var s := br.ReadBits(6);
      if s.Err? {
        return Err(s.error);
      }
      lz := NatOf(l.value);
      var sigLen := NatOf(s.value);
      if sigLen == 0 {
        sigLen := 64;
      }
      tz := 64 - lz - sigLen;
    }
    assert ReadPoint(bits, w) == ReadSignificant(br.Rest(), lz, 64 - lz - tz);
    var sig := br.ReadBits(64 - lz - tz);
    if sig.Err? {
      return Err(sig.error);
    }
    if tz < 0 {
      return Err(Panic);
    }
    return Ok((ShiftLeft(sig.value, tz), Window(lz, tz)));
  }

  method DecodeValues(data: seq<Byte>) returns (r: Result<seq<Word>>)
    ensures r == ReadValueBlock(data)
  {
    hide GetUvarint, Fixed64, Unpack, Xor, ReadStream, ReadPoint;
    var reader := new ByteReader(data);
    var count := reader.Uvarint();
    if count.Err? {
      return Err(count.error);
    }
    if count.value == 0 {
      return Ok([]);
    }
    if |reader.b| < 8 {
      return Err(UnexpectedEOF);
    }
    var prev := Fixed64(reader.b);
    var out := [prev];
    var br := new BitReader(reader.b[8..]);
    var w := NO_WINDOW;
    var i := 1;
    ghost var whole := ReadValueBlock(data);
    assert br.Rest() == Unpack(reader.b[8..]);
    hide BitReader.Rest;
    while i < count.value
      invariant 1 <= i <= count.value
      invariant br.Valid() && fresh(br) && ValidWindow(w)
      invariant whole == After(out, ReadStream(br.Rest(), count.value - i, prev, w))
    {
      ghost var bits, w0 := br.Rest(), w;
      var point := DecodePoint(br, w);
      if point.Err? {
        ReadStreamFails(out, bits, count.value - i, prev, w0);
        return Err(point.error);
      }
      ReadStreamStep(out, bits, count.value - i, prev, w0, (point.value.0, point.value.1, br.Rest()));
      prev, w := Xor(prev, point.value.0), point.value.1;
      out := out + [prev];
      i := i + 1;
    }
    ReadStreamDone(out, br.Rest(), prev, w);
    return Ok(out);
  }
}
