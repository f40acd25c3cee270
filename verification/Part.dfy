/** Parts: storage/part.go. All series of a part share two byte files; an index entry addresses the
    block pair of each series. */
module Part {
  import opened Bits
  import opened Results
  import opened SortedIds
  import opened TimestampCodec
  import opened ValueCodec
  import opened Varint

  datatype Sample = Sample(t: Int64, v: Word)

  datatype Tier = Small | Big

  datatype Encoding = Raw | Gorilla

  datatype PartMeta = PartMeta(
    minTime: Int64, maxTime: Int64, seriesCount: nat, samplesCount: nat, tier: Tier, encoding: Encoding)

  /** Raw blocks use offset and count, in samples; Gorilla blocks use a byte range per file. */
  datatype IndexEntry = IndexEntry(
    offset: nat, count: nat, tsOffset: nat, tsLength: nat, valOffset: nat, valLength: nat)

  type Series = map<SeriesId, seq<Sample>>

  datatype Files = Files(meta: PartMeta, index: map<SeriesId, IndexEntry>, ts: seq<Byte>, val: seq<Byte>)

  // ---------- sorting by timestamp ----------

  predicate SortedByTime(s: seq<Sample>) {
    forall i, j :: 0 <= i < j < |s| ==> s[i].t <= s[j].t
  }

  /** What sort.Slice by timestamp promises; it is not stable. */
  predicate IsSortOf(sorted: seq<Sample>, s: seq<Sample>) {
    SortedByTime(sorted) && multiset(sorted) == multiset(s)
  }

  function InsertSample(x: Sample, s: seq<Sample>): (r: seq<Sample>) {
    if s == [] || x.t <= s[0].t then [x] + s else [s[0]] + InsertSample(x, s[1..])
  }

  lemma {:induction false} InsertSampleSorts(x: Sample, s: seq<Sample>)
    requires SortedByTime(s)
    ensures SortedByTime(InsertSample(x, s)) && multiset(InsertSample(x, s)) == multiset(s) + multiset{x}
    ensures InsertSample(x, s) != [] && InsertSample(x, s)[0].t <= x.t && (s != [] ==> InsertSample(x, s)[0].t <= s[0].t)
    ensures InsertSample(x, s)[0] == x || (s != [] && InsertSample(x, s)[0] == s[0])
  {
    if s != [] && x.t > s[0].t {
      TailSorted(s);
      InsertSampleSorts(x, s[1..]);
      PrependSorted(s[0], InsertSample(x, s[1..]));
    } else {
      PrependSorted(x, s);
    }
    hide SortedByTime;
  }

  lemma TailSorted(s: seq<Sample>)
    requires SortedByTime(s) && s != []
    ensures SortedByTime(s[1..]) && (|s| > 1 ==> s[0].t <= s[1].t) && s == [s[0]] + s[1..]
  {
  }

  lemma PrependSorted(x: Sample, s: seq<Sample>)
    requires SortedByTime(s) && (s != [] ==> x.t <= s[0].t)
    ensures SortedByTime([x] + s)
  {
  }

  method SortByTime(s: seq<Sample>) returns (sorted: seq<Sample>)
    ensures IsSortOf(sorted, s)
  {
    sorted := [];
    var i := 0;
    while i < |s|
      invariant 0 <= i <= |s| && IsSortOf(sorted, s[..i])
    {
      assert s[..i + 1] == s[..i] + [s[i]];
      InsertSampleSorts(s[i], sorted);
      sorted := InsertSample(s[i], sorted);
      i := i + 1;
    }
    assert s[..i] == s;
  }

  lemma SortLength(sorted: seq<Sample>, s: seq<Sample>)
    requires IsSortOf(sorted, s)
    ensures |sorted| == |s|
  {
    assert |multiset(sorted)| == |sorted| && |multiset(s)| == |s|;
  }

  // ---------- the layout of a part ----------

  function Times(s: seq<Sample>): (ts: seq<Int64>)
    ensures |ts| == |s|
  {
    seq(|s|, i requires 0 <= i < |s| => s[i].t)
  }

  function Values(s: seq<Sample>): (vs: seq<Word>)
    ensures |vs| == |s|
  {
    seq(|s|, i requires 0 <= i < |s| => s[i].v)
  }

  function RawTimes(s: seq<Sample>): (b: seq<Byte>)
    ensures |b| == 8 * |s|
  {
    if s == [] then [] else RawTimes(s[..|s| - 1]) + PutTime(s[|s| - 1].t)
  }

  function RawValues(s: seq<Sample>): (b: seq<Byte>)
    ensures |b| == 8 * |s|
  {
    if s == [] then [] else RawValues(s[..|s| - 1]) + PutFixed64(s[|s| - 1].v)
  }

  function TimesBlock(s: seq<Sample>, e: Encoding): seq<Byte> {
    if e == Gorilla then TimestampBlock(Times(s)) else RawTimes(s)
  }

  function ValuesBlock(s: seq<Sample>, e: Encoding): seq<Byte> {
    if e == Gorilla then ValueBlock(Values(s)) else RawValues(s)
  }

  function AddTimes(meta: PartMeta, s: seq<Sample>): PartMeta {
    if s == [] then meta
    else
      var m := AddTimes(meta, s[..|s| - 1]);
      var t := s[|s| - 1].t;
      m.(minTime := if t < m.minTime then t else m.minTime,
         maxTime := if t > m.maxTime then t else m.maxTime)
  }

  function EmptyPart(tier: Tier, e: Encoding): Files {
    Files(PartMeta(MAX_INT64, MIN_INT64, 0, 0, tier, e), map[], [], [])
  }

  function EntryAt(p: Files, s: seq<Sample>): IndexEntry {
    var e := p.meta.encoding;
    if e == Gorilla then
      IndexEntry(0, |s|, |p.ts|, |TimesBlock(s, e)|, |p.val|, |ValuesBlock(s, e)|)
    else
      IndexEntry(p.meta.samplesCount, |s|, 0, 0, 0, 0)
  }

  function AddSeries(p: Files, id: SeriesId, s: seq<Sample>): Files {
    var e := p.meta.encoding;
    var m := AddTimes(p.meta, s);
    Files(m.(seriesCount := p.meta.seriesCount + 1, samplesCount := p.meta.samplesCount + |s|),
          p.index[id := EntryAt(p, s)],
          p.ts + TimesBlock(s, e),
          p.val + ValuesBlock(s, e))
  }

  predicate Listed(ids: seq<SeriesId>, data: Series) {
    forall i :: 0 <= i < |ids| ==> ids[i] in data
  }

  /** The part that holds data[id] for each id of ids, in that order. */
  function LayoutOf(ids: seq<SeriesId>, data: Series, tier: Tier, e: Encoding): (p: Files)
    requires Listed(ids, data)
  {
    if ids == [] then EmptyPart(tier, e)
    else
      var id := ids[|ids| - 1];
      AddSeries(LayoutOf(ids[..|ids| - 1], data, tier, e), id, data[id])
  }

  /** The IDs of data in ascending order. */
  function Keys(data: Series): (ids: seq<SeriesId>)
    ensures Listed(ids, data)
  {
    var ids := Ascending(data.Keys);
    assert forall i :: 0 <= i < |ids| ==> ids[i] in data;
    ids
  }

  lemma KeysAre(data: Series)
    ensures var ids := Keys(data);
            && (forall i, j :: 0 <= i < j < |ids| ==> ids[i] < ids[j])
            && (forall id :: id in ids <==> id in data)
  {
  }

  function Layout(data: Series, tier: Tier, e: Encoding): Files {
    LayoutOf(Keys(data), data, tier, e)
  }

  // ---------- reading a block ----------

  /** os.File.ReadAt into a buffer of n bytes. */
  function ReadAt(file: seq<Byte>, offset: nat, n: nat): (r: Result<seq<Byte>>)
    ensures r.Ok? ==> |r.value| == n
  {
    if n == 0 then Ok([])
    else if offset + n <= |file| then Ok(file[offset..offset + n])
    else Err(UnexpectedEOF)
  }

  function Zip(ts: seq<Int64>, vs: seq<Word>): (s: seq<Sample>)
    requires |ts| == |vs|
    ensures |s| == |ts|
  {
    seq(|ts|, i requires 0 <= i < |ts| => Sample(ts[i], vs[i]))
  }

  function RawSamples(ts: seq<Byte>, val: seq<Byte>, count: nat): (s: seq<Sample>)
    requires |ts| == |val| == 8 * count
    ensures |s| == count
  {
    seq(count, i requires 0 <= i < count => Sample(GetTime(ts[8 * i..]), Fixed64(val[8 * i..])))
  }

  function ReadBlock(p: Files, entry: IndexEntry): Result<seq<Sample>> {
    if p.meta.encoding == Gorilla then
      var tsBuf :- ReadAt(p.ts, entry.tsOffset, entry.tsLength);
      var valBuf :- ReadAt(p.val, entry.valOffset, entry.valLength);
      var ts :- ReadTimestampBlock(tsBuf);
      var vs :- ReadValueBlock(valBuf);
      if |ts| != entry.count || |vs| != entry.count then Err(CountMismatch) else Ok(Zip(ts, vs))
    else
      var tsBuf :- ReadAt(p.ts, 8 * entry.offset, 8 * entry.count);
      var valBuf :- ReadAt(p.val, 8 * entry.offset, 8 * entry.count);
      Ok(RawSamples(tsBuf, valBuf, entry.count))
  }

  /** The part holds exactly the series of data, and every block reads back. */
  ghost predicate Holds(p: Files, data: Series) {
    && p.index.Keys == data.Keys
    && forall id :: id in data ==> ReadBlock(p, p.index[id]) == Ok(data[id])
  }

  /** The block of an entry lies within both files. */
  ghost predicate Within(p: Files, e: IndexEntry) {
    if p.meta.encoding == Gorilla then
      e.tsOffset + e.tsLength <= |p.ts| && e.valOffset + e.valLength <= |p.val|
    else
      8 * (e.offset + e.count) <= |p.ts| && 8 * (e.offset + e.count) <= |p.val|
  }

  // ---------- every block reads back ----------

  predicate Countable(data: Series) {
    forall id :: id in data ==> |data[id]| < TWO_63
  }

  lemma {:induction false} RawRoundTrip(s: seq<Sample>)
    ensures RawSamples(RawTimes(s), RawValues(s), |s|) == s
  {
    hide PutTime, GetTime, PutFixed64, Fixed64;
    if s != [] {
      var n := |s| - 1;
      RawRoundTrip(s[..n]);
      var ts, val := RawTimes(s), RawValues(s);
      forall i | 0 <= i < |s| ensures RawSamples(ts, val, |s|)[i] == s[i] {
        if i == n {
          assert ts[8 * n..] == PutTime(s[n].t) + [] && val[8 * n..] == PutFixed64(s[n].v) + [];
          FirstRoundTrip(s[n].t, []);
          Fixed64RoundTrip(s[n].v, []);
        } else {
          RawCellKept(s, i);
          assert RawSamples(RawTimes(s[..n]), RawValues(s[..n]), n)[i] == s[i];
        }
      }
    }
  }

  lemma RawCellKept(s: seq<Sample>, i: nat)
    requires i < |s| - 1
    ensures GetTime(RawTimes(s)[8 * i..]) == GetTime(RawTimes(s[..|s| - 1])[8 * i..])
    ensures Fixed64(RawValues(s)[8 * i..]) == Fixed64(RawValues(s[..|s| - 1])[8 * i..])
  {
    hide PutTime, PutFixed64, RawTimes, RawValues;
    var init := s[..|s| - 1];
    RawLast(s);
    Fixed64Prefix(RawTimes(s)[8 * i..], RawTimes(init)[8 * i..]);
    Fixed64Prefix(RawValues(s)[8 * i..], RawValues(init)[8 * i..]);
  }

  lemma RawLast(s: seq<Sample>)
    requires s != []
    ensures RawTimes(s) == RawTimes(s[..|s| - 1]) + PutTime(s[|s| - 1].t)
    ensures RawValues(s) == RawValues(s[..|s| - 1]) + PutFixed64(s[|s| - 1].v)
  {
  }

  lemma Fixed64Prefix(a: seq<Byte>, b: seq<Byte>)
    requires |a| >= 8 && |b| >= 8 && a[..8] == b[..8]
    ensures Fixed64(a) == Fixed64(b)
  {
    forall i | 0 <= i < 8 ensures a[i] == b[i] {
      assert a[..8][i] == b[..8][i];
    }
  }

  lemma ZipUnzip(s: seq<Sample>)
    ensures Zip(Times(s), Values(s)) == s
  {
  }

  /** The block of the series just added reads back. */
  lemma NewBlock(p: Files, id: SeriesId, s: seq<Sample>)
    requires |s| < TWO_63
    requires p.meta.encoding == Raw ==> |p.ts| == |p.val| == 8 * p.meta.samplesCount
    ensures var p' := AddSeries(p, id, s);
            Within(p', p'.index[id]) && ReadBlock(p', p'.index[id]) == Ok(s)
  {
    hide TimestampBlock, ValueBlock, ReadTimestampBlock, ReadValueBlock, RawSamples, RawTimes, RawValues, AddTimes;
    var p' := AddSeries(p, id, s);
    AddTimesKeeps(p.meta, s);
    var e := p.meta.encoding;
    var tb, vb := TimesBlock(s, e), ValuesBlock(s, e);
    assert p'.ts[|p.ts|..|p.ts| + |tb|] == tb && p'.val[|p.val|..|p.val| + |vb|] == vb;
    assert |tb| == 0 ==> tb == [];
    assert |vb| == 0 ==> vb == [];
    if e == Gorilla {
      TimestampRoundTrip(Times(s));
      ValueRoundTrip(Values(s));
      ZipUnzip(s);
    } else {
      RawRoundTrip(s);
    }
  }

  lemma {:induction false} AddTimesKeeps(meta: PartMeta, s: seq<Sample>)
    ensures AddTimes(meta, s) == meta.(minTime := AddTimes(meta, s).minTime, maxTime := AddTimes(meta, s).maxTime)
  {
    if s != [] {
      AddTimesKeeps(meta, s[..|s| - 1]);
    }
  }

  /** Appending to the files moves no block. */
  lemma OldBlock(p: Files, id: SeriesId, s: seq<Sample>, e: IndexEntry)
    requires Within(p, e)
    ensures Within(AddSeries(p, id, s), e) && ReadBlock(AddSeries(p, id, s), e) == ReadBlock(p, e)
  {
    hide TimesBlock, ValuesBlock, ReadTimestampBlock, ReadValueBlock, RawSamples, AddTimes, EntryAt;
    AddTimesKeeps(p.meta, s);
    var p' := AddSeries(p, id, s);
    ReadAtKept(p.ts, p'.ts, e.tsOffset, e.tsLength);
    ReadAtKept(p.val, p'.val, e.valOffset, e.valLength);
    ReadAtKept(p.ts, p'.ts, 8 * e.offset, 8 * e.count);
    ReadAtKept(p.val, p'.val, 8 * e.offset, 8 * e.count);
  }

  lemma ReadAtKept(file: seq<Byte>, file': seq<Byte>, offset: nat, n: nat)
    requires file <= file'
    ensures offset + n <= |file| ==> ReadAt(file', offset, n) == ReadAt(file, offset, n)
  {
    if offset + n <= |file| {
      assert file'[offset..offset + n] == file[offset..offset + n];
    }
  }

  // ---------- whole parts ----------

  lemma {:induction false} LayoutHolds(ids: seq<SeriesId>, data: Series, tier: Tier, e: Encoding)
    requires Listed(ids, data) && Countable(data)
    requires forall i, j :: 0 <= i < j < |ids| ==> ids[i] < ids[j]
    ensures var p := LayoutOf(ids, data, tier, e);
            && p.meta.encoding == e && p.meta.tier == tier
            && (e == Raw ==> |p.ts| == |p.val| == 8 * p.meta.samplesCount)
            && (forall id :: id in p.index <==> id in ids)
            && (forall id :: id in ids ==> Within(p, p.index[id]) && ReadBlock(p, p.index[id]) == Ok(data[id]))
  {
    if ids != [] {
      hide ReadBlock, Within, AddSeries;
      var id, init := ids[|ids| - 1], ids[..|ids| - 1];
      LayoutHolds(init, data, tier, e);
      var p0 := LayoutOf(init, data, tier, e);
      var s := data[id];
      var p := AddSeries(p0, id, s);
      AddSeriesShape(p0, id, s);
      NewBlock(p0, id, s);
      forall x | x in ids ensures x in p.index && Within(p, p.index[x]) && ReadBlock(p, p.index[x]) == Ok(data[x]) {
        if x != id {
          assert x in init;
          OldBlock(p0, id, s, p0.index[x]);
        }
      }
    }
  }

  lemma AddSeriesShape(p: Files, id: SeriesId, s: seq<Sample>)
    ensures var p' := AddSeries(p, id, s);
            && p'.meta.encoding == p.meta.encoding && p'.meta.tier == p.meta.tier
            && p'.meta.samplesCount == p.meta.samplesCount + |s|
            && p'.index == p.index[id := p'.index[id]]
            && (p.meta.encoding == Raw ==> |p'.ts| == |p.ts| + 8 * |s| && |p'.val| == |p.val| + 8 * |s|)
  {
    hide TimestampBlock, ValueBlock;
    AddTimesKeeps(p.meta, s);
  }

  /** Raw and Gorilla parts of the same data read back as the same content: exactly that data. */
  lemma PartRoundTrip(data: Series, tier: Tier, e: Encoding)
    requires Countable(data)
    ensures Holds(Layout(data, tier, e), data)
    ensures Layout(data, tier, e).meta.tier == tier
  {
    hide LayoutOf, ReadBlock;
    KeysAre(data);
    LayoutHolds(Keys(data), data, tier, e);
  }

  /** Where the block after entry begins, in each file: in bytes, or in samples for raw parts. */
  function NextTs(e: IndexEntry, enc: Encoding): nat {
    if enc == Gorilla then e.tsOffset + e.tsLength else e.offset + e.count
  }

  function NextVal(e: IndexEntry, enc: Encoding): nat {
    if enc == Gorilla then e.valOffset + e.valLength else e.offset + e.count
  }

  function StartTs(e: IndexEntry, enc: Encoding): nat {
    if enc == Gorilla then e.tsOffset else e.offset
  }

  function StartVal(e: IndexEntry, enc: Encoding): nat {
    if enc == Gorilla then e.valOffset else e.offset
  }

  /** Where block i of ids begins, being the end of block i - 1. */
  function TsEnd(p: Files, ids: seq<SeriesId>, i: nat): nat
    requires i <= |ids|
  {
    if i > 0 && ids[i - 1] in p.index then NextTs(p.index[ids[i - 1]], p.meta.encoding) else 0
  }

  function ValEnd(p: Files, ids: seq<SeriesId>, i: nat): nat
    requires i <= |ids|
  {
    if i > 0 && ids[i - 1] in p.index then NextVal(p.index[ids[i - 1]], p.meta.encoding) else 0
  }

  /** The blocks of ids follow one another from the start of both files to their end. */
  ghost predicate Tiles(p: Files, ids: seq<SeriesId>) {
    var cell := if p.meta.encoding == Gorilla then 1 else 8;
    && (forall i :: 0 <= i < |ids| ==> ids[i] in p.index)
    && (forall i :: 0 <= i < |ids| ==> StartTs(p.index[ids[i]], p.meta.encoding) == TsEnd(p, ids, i))
    && (forall i :: 0 <= i < |ids| ==> StartVal(p.index[ids[i]], p.meta.encoding) == ValEnd(p, ids, i))
    && |p.ts| == cell * TsEnd(p, ids, |ids|)
    && |p.val| == cell * ValEnd(p, ids, |ids|)
  }

  lemma TilesStep(p: Files, ids: seq<SeriesId>, id: SeriesId, s: seq<Sample>)
    requires Tiles(p, ids) && id !in ids
    requires p.meta.encoding == Raw ==> |p.ts| == |p.val| == 8 * p.meta.samplesCount
    ensures Tiles(AddSeries(p, id, s), ids + [id])
  {
    hide TimesBlock, ValuesBlock, AddTimes;
    var p', ids' := AddSeries(p, id, s), ids + [id];
    AddSeriesShape(p, id, s);
    assert p'.index[id] == EntryAt(p, s);
    forall i | 0 <= i <= |ids| ensures TsEnd(p', ids', i) == TsEnd(p, ids, i) && ValEnd(p', ids', i) == ValEnd(p, ids, i) {
      if i > 0 {
        assert ids'[i - 1] == ids[i - 1];
        assert p'.index[ids[i - 1]] == p.index[ids[i - 1]];
      }
    }
    forall i | 0 <= i < |ids'| ensures ids'[i] in p'.index {
      if i < |ids| {
        assert ids'[i] == ids[i];
      }
    }
    forall i | 0 <= i < |ids'|
      ensures StartTs(p'.index[ids'[i]], p.meta.encoding) == TsEnd(p', ids', i)
      ensures StartVal(p'.index[ids'[i]], p.meta.encoding) == ValEnd(p', ids', i)
    {
      if i < |ids| {
        assert ids'[i] == ids[i] && ids[i] in p.index && ids[i] != id;
        assert p'.index[ids[i]] == p.index[ids[i]];
      }
    }
  }

  lemma LayoutRaw(ids: seq<SeriesId>, data: Series, tier: Tier, e: Encoding)
    requires Listed(ids, data) && Countable(data)
    requires forall i, j :: 0 <= i < j < |ids| ==> ids[i] < ids[j]
    ensures var p := LayoutOf(ids, data, tier, e);
            p.meta.encoding == e && (e == Raw ==> |p.ts| == |p.val| == 8 * p.meta.samplesCount)
  {
    hide LayoutOf, ReadBlock, Within;
    LayoutHolds(ids, data, tier, e);
  }

  lemma {:induction false} LayoutTiles(ids: seq<SeriesId>, data: Series, tier: Tier, e: Encoding)
    requires Listed(ids, data) && Countable(data)
    requires forall i, j :: 0 <= i < j < |ids| ==> ids[i] < ids[j]
    ensures Tiles(LayoutOf(ids, data, tier, e), ids)
  {
    if ids != [] {
      LastSeries(ids, data, tier, e);
      hide Tiles, AddSeries, LayoutOf;
      var id, init := ids[|ids| - 1], ids[..|ids| - 1];
      LayoutTiles(init, data, tier, e);
      LayoutRaw(init, data, tier, e);
      TilesStep(LayoutOf(init, data, tier, e), init, id, data[id]);
      assert ids == init + [id];
    } else {
      assert Tiles(EmptyPart(tier, e), []);
    }
  }

  /** The blocks of a part are disjoint and tile both files in ID order. */
  lemma BlocksTile(data: Series, tier: Tier, e: Encoding)
    requires Countable(data)
    ensures Tiles(Layout(data, tier, e), Keys(data))
  {
    hide Tiles, LayoutOf;
    KeysAre(data);
    LayoutTiles(Keys(data), data, tier, e);
  }

  // ---------- the bytes of a block ----------

  /** What the two files hold for series id: the timestamp block and the value block of its samples, or
      for a raw part eight bytes a sample in each. */
  ghost predicate HasBlocks(p: Files, id: SeriesId, s: seq<Sample>) {
    && id in p.index && Within(p, p.index[id]) && p.index[id].count == |s|
    && var entry := p.index[id];
       if p.meta.encoding == Gorilla then
         && p.ts[entry.tsOffset..entry.tsOffset + entry.tsLength] == TimestampBlock(Times(s))
         && p.val[entry.valOffset..entry.valOffset + entry.valLength] == ValueBlock(Values(s))
       else
         forall i :: 0 <= i < |s| ==>
           && p.ts[8 * (entry.offset + i)..8 * (entry.offset + i) + 8] == PutTime(s[i].t)
           && p.val[8 * (entry.offset + i)..8 * (entry.offset + i) + 8] == PutFixed64(s[i].v)
  }

  lemma {:induction false} RawCells(s: seq<Sample>, i: nat)
    requires i < |s|
    ensures RawTimes(s)[8 * i..8 * i + 8] == PutTime(s[i].t) && RawValues(s)[8 * i..8 * i + 8] == PutFixed64(s[i].v)
  {
    hide PutTime, PutFixed64;
    RawLast(s);
    var n := |s| - 1;
    if i < n {
      RawCells(s[..n], i);
      hide RawTimes, RawValues;
      assert RawTimes(s)[8 * i..8 * i + 8] == RawTimes(s[..n])[8 * i..8 * i + 8];
      assert RawValues(s)[8 * i..8 * i + 8] == RawValues(s[..n])[8 * i..8 * i + 8];
    }
  }

  lemma SliceKept(file: seq<Byte>, more: seq<Byte>, from: nat, to: nat)
    requires from <= to <= |file|
    ensures (file + more)[from..to] == file[from..to]
  {
  }

  lemma SliceNew(file: seq<Byte>, more: seq<Byte>, from: nat, to: nat)
    requires from <= to <= |more|
    ensures (file + more)[|file| + from..|file| + to] == more[from..to]
  {
  }

  lemma NewBlocks(p: Files, id: SeriesId, s: seq<Sample>)
    requires p.meta.encoding == Raw ==> |p.ts| == |p.val| == 8 * p.meta.samplesCount
    ensures HasBlocks(AddSeries(p, id, s), id, s)
  {
    AddSeriesShape(p, id, s);
    hide TimestampBlock, ValueBlock, RawTimes, RawValues, AddTimes, PutTime, PutFixed64;
    var tb, vb := TimesBlock(s, p.meta.encoding), ValuesBlock(s, p.meta.encoding);
    if p.meta.encoding == Gorilla {
      SliceNew(p.ts, tb, 0, |tb|);
      SliceNew(p.val, vb, 0, |vb|);
      assert tb[0..|tb|] == tb && vb[0..|vb|] == vb;
    } else {
      var p', n := AddSeries(p, id, s), p.meta.samplesCount;
      assert p'.index[id] == IndexEntry(n, |s|, 0, 0, 0, 0) && p'.ts == p.ts + tb && p'.val == p.val + vb;
      assert Within(p', p'.index[id]);
      forall i | 0 <= i < |s|
        ensures p'.ts[8 * (n + i)..8 * (n + i) + 8] == PutTime(s[i].t)
        ensures p'.val[8 * (n + i)..8 * (n + i) + 8] == PutFixed64(s[i].v)
      {
        NewCell(p, p', n, s, i);
      }
    }
  }

  lemma NewCell(p: Files, p': Files, n: nat, s: seq<Sample>, i: nat)
    requires i < |s| && |p.ts| == |p.val| == 8 * n && p'.ts == p.ts + RawTimes(s) && p'.val == p.val + RawValues(s)
    ensures p'.ts[8 * (n + i)..8 * (n + i) + 8] == PutTime(s[i].t)
    ensures p'.val[8 * (n + i)..8 * (n + i) + 8] == PutFixed64(s[i].v)
  {
    RawCells(s, i);
    var ts, val := RawTimes(s), RawValues(s);
    hide *;
    CellAt(p.ts, ts, n, i);
    CellAt(p.val, val, n, i);
  }

  lemma CellAt(file: seq<Byte>, more: seq<Byte>, n: nat, i: nat)
    requires |file| == 8 * n && 8 * i + 8 <= |more|
    ensures |file + more| >= 8 * (n + i) + 8 && (file + more)[8 * (n + i)..8 * (n + i) + 8] == more[8 * i..8 * i + 8]
  {
    SliceNew(file, more, 8 * i, 8 * i + 8);
    var at := 8 * (n + i);
    assert at == |file| + 8 * i;
  }

  lemma OldBlocks(p: Files, id: SeriesId, s: seq<Sample>, x: SeriesId, t: seq<Sample>)
    requires HasBlocks(p, x, t) && x != id
    ensures HasBlocks(AddSeries(p, id, s), x, t)
  {
    AddSeriesShape(p, id, s);
    hide TimestampBlock, ValueBlock, RawTimes, RawValues, AddTimes, PutTime, PutFixed64;
    var p', e := AddSeries(p, id, s), p.index[x];
    assert p'.index[x] == e;
    var tb, vb := TimesBlock(s, p.meta.encoding), ValuesBlock(s, p.meta.encoding);
    hide TimesBlock, ValuesBlock;
    if p.meta.encoding == Gorilla {
      SliceKept(p.ts, tb, e.tsOffset, e.tsOffset + e.tsLength);
      SliceKept(p.val, vb, e.valOffset, e.valOffset + e.valLength);
    } else {
      forall i | 0 <= i < |t|
        ensures p'.ts[8 * (e.offset + i)..8 * (e.offset + i) + 8] == PutTime(t[i].t)
        ensures p'.val[8 * (e.offset + i)..8 * (e.offset + i) + 8] == PutFixed64(t[i].v)
      {
        SliceKept(p.ts, tb, 8 * (e.offset + i), 8 * (e.offset + i) + 8);
        SliceKept(p.val, vb, 8 * (e.offset + i), 8 * (e.offset + i) + 8);
      }
    }
  }

  lemma {:induction false} LayoutSizes(ids: seq<SeriesId>, data: Series, tier: Tier, e: Encoding)
    requires Listed(ids, data)
    ensures var p := LayoutOf(ids, data, tier, e);
            p.meta.encoding == e && (e == Raw ==> |p.ts| == |p.val| == 8 * p.meta.samplesCount)
  {
    if ids != [] {
      LastSeries(ids, data, tier, e);
      hide LayoutOf, AddSeries;
      var id, init := ids[|ids| - 1], ids[..|ids| - 1];
      LayoutSizes(init, data, tier, e);
      AddSeriesShape(LayoutOf(init, data, tier, e), id, data[id]);
    }
  }

  lemma {:induction false} LayoutBlocks(ids: seq<SeriesId>, data: Series, tier: Tier, e: Encoding, k: nat)
    requires Listed(ids, data) && k < |ids| && forall i, j :: 0 <= i < j < |ids| ==> ids[i] != ids[j]
    ensures HasBlocks(LayoutOf(ids, data, tier, e), ids[k], data[ids[k]])
  {
    LastSeries(ids, data, tier, e);
    hide LayoutOf, AddSeries, HasBlocks, FlattenOf, Tagged;
    var n := |ids| - 1;
    var id, init := ids[n], ids[..n];
    var p := LayoutOf(init, data, tier, e);
    LayoutSizes(init, data, tier, e);
    if k < n {
      LayoutBlocks(init, data, tier, e, k);
      OldBlocks(p, id, data[id], ids[k], data[ids[k]]);
    } else {
      NewBlocks(p, id, data[id]);
    }
  }

  /** Every series has its block pair in the files, in the encoding of the part. */
  lemma BlocksAreEncoded(data: Series, tier: Tier, e: Encoding, id: SeriesId)
    requires id in data
    ensures HasBlocks(Layout(data, tier, e), id, data[id])
  {
    hide LayoutOf, HasBlocks;
    var ids := Keys(data);
    KeysAre(data);
    var k :| 0 <= k < |ids| && ids[k] == id;
    LayoutBlocks(ids, data, tier, e, k);
  }

  /** An entry whose count is not that of its Gorilla blocks is an error. */
  lemma CountIsChecked(p: Files, entry: IndexEntry, s: seq<Sample>, count: nat)
    requires p.meta.encoding == Gorilla && ReadBlock(p, entry) == Ok(s) && count != |s|
    ensures ReadBlock(p, entry.(count := count)) == Err(CountMismatch)
  {
    hide ReadAt, ReadTimestampBlock, ReadValueBlock;
  }

  /** So is one that reaches past the end of a file. */
  lemma ReachIsChecked(p: Files, entry: IndexEntry)
    ensures p.meta.encoding == Gorilla && entry.tsLength > 0 && entry.tsOffset + entry.tsLength > |p.ts| ==>
              ReadBlock(p, entry) == Err(UnexpectedEOF)
    ensures p.meta.encoding == Raw && entry.count > 0 && 8 * (entry.offset + entry.count) > |p.ts| ==>
              ReadBlock(p, entry) == Err(UnexpectedEOF)
  {
    hide ReadTimestampBlock, ReadValueBlock, RawSamples;
  }

  // ---------- content as a multiset ----------

  function Tagged(id: SeriesId, s: seq<Sample>): multiset<(SeriesId, Sample)> {
    if s == [] then multiset{} else Tagged(id, s[..|s| - 1]) + multiset{(id, s[|s| - 1])}
  }

  function FlattenOf(ids: seq<SeriesId>, data: Series): multiset<(SeriesId, Sample)>
    requires Listed(ids, data)
  {
    if ids == [] then multiset{}
    else
      var id := ids[|ids| - 1];
      FlattenOf(ids[..|ids| - 1], data) + Tagged(id, data[id])
  }

  /** Every sample of data with the ID of its series, duplicates counted. */
  function Flatten(data: Series): multiset<(SeriesId, Sample)> {
    FlattenOf(Keys(data), data)
  }

  lemma {:induction false} TaggedCount(id: SeriesId, s: seq<Sample>, k: SeriesId, x: Sample)
    ensures Tagged(id, s)[(k, x)] == if k == id then multiset(s)[x] else 0
    ensures |Tagged(id, s)| == |s|
  {
    if s != [] {
      TaggedCount(id, s[..|s| - 1], k, x);
      assert s == s[..|s| - 1] + [s[|s| - 1]];
    }
  }

  lemma {:induction false} FlattenOfCount(ids: seq<SeriesId>, data: Series, k: SeriesId, x: Sample)
    requires Listed(ids, data)
    requires forall i, j :: 0 <= i < j < |ids| ==> ids[i] < ids[j]
    ensures FlattenOf(ids, data)[(k, x)] == if k in ids then multiset(data[k])[x] else 0
  {
    if ids != [] {
      var id, init := ids[|ids| - 1], ids[..|ids| - 1];
      FlattenOfCount(init, data, k, x);
      TaggedCount(id, data[id], k, x);
      assert k in ids <==> k in init || k == id;
    }
  }

  function CountIn(data: Series, k: SeriesId, x: Sample): nat {
    if k in data then multiset(data[k])[x] else 0
  }

  lemma FlattenCount(data: Series, k: SeriesId, x: Sample)
    ensures Flatten(data)[(k, x)] == CountIn(data, k, x)
  {
    KeysAre(data);
    FlattenOfCount(Keys(data), data, k, x);
  }

  // ---------- meta ----------

  lemma {:induction false} AddTimesBounds(meta: PartMeta, s: seq<Sample>)
    ensures AddTimes(meta, s).minTime <= meta.minTime && meta.maxTime <= AddTimes(meta, s).maxTime
    ensures forall i :: 0 <= i < |s| ==> AddTimes(meta, s).minTime <= s[i].t <= AddTimes(meta, s).maxTime
  {
    if s != [] {
      AddTimesBounds(meta, s[..|s| - 1]);
      forall i | 0 <= i < |s| ensures AddTimes(meta, s).minTime <= s[i].t <= AddTimes(meta, s).maxTime {
        assert i < |s| - 1 ==> s[..|s| - 1][i] == s[i];
      }
    }
  }

  ghost predicate Encloses(m: PartMeta, s: seq<Sample>) {
    forall i :: 0 <= i < |s| ==> m.minTime <= s[i].t <= m.maxTime
  }

  lemma AddSeriesMeta(p: Files, id: SeriesId, s: seq<Sample>)
    ensures var m := AddSeries(p, id, s).meta;
            && m.seriesCount == p.meta.seriesCount + 1
            && m.samplesCount == p.meta.samplesCount + |Tagged(id, s)|
            && Encloses(m, s)
  {
    hide TimesBlock, ValuesBlock, AddTimes;
    AddTimesBounds(p.meta, s);
    AddTimesKeeps(p.meta, s);
    TaggedCount(id, s, 0, Sample(0, Zeros(64)));
  }

  lemma LastSeries(ids: seq<SeriesId>, data: Series, tier: Tier, e: Encoding)
    requires ids != [] && Listed(ids, data)
    ensures var id, init := ids[|ids| - 1], ids[..|ids| - 1];
            && Listed(init, data) && id in data
            && LayoutOf(ids, data, tier, e) == AddSeries(LayoutOf(init, data, tier, e), id, data[id])
            && FlattenOf(ids, data) == FlattenOf(init, data) + Tagged(id, data[id])
  {
    hide AddSeries, Tagged;
  }

  lemma {:induction false} LayoutCounts(ids: seq<SeriesId>, data: Series, tier: Tier, e: Encoding)
    requires Listed(ids, data)
    ensures var m := LayoutOf(ids, data, tier, e).meta;
            m.seriesCount == |ids| && m.samplesCount == |FlattenOf(ids, data)|
  {
    if ids != [] {
      LastSeries(ids, data, tier, e);
      hide AddSeries, Encloses, Tagged, LayoutOf, FlattenOf;
      var id, init := ids[|ids| - 1], ids[..|ids| - 1];
      LayoutCounts(init, data, tier, e);
      AddSeriesMeta(LayoutOf(init, data, tier, e), id, data[id]);
      assert |FlattenOf(init, data) + Tagged(id, data[id])| == |FlattenOf(init, data)| + |Tagged(id, data[id])|;
    }
  }

  lemma EnclosesMore(p: Files, id: SeriesId, s: seq<Sample>, x: seq<Sample>)
    requires Encloses(p.meta, x)
    ensures Encloses(AddSeries(p, id, s).meta, x)
  {
    hide TimesBlock, ValuesBlock, AddTimes;
    AddTimesBounds(p.meta, s);
  }

  lemma InData(ids: seq<SeriesId>, data: Series, k: nat)
    requires Listed(ids, data) && k < |ids|
    ensures ids[k] in data
  {
  }

  lemma {:induction false} LayoutEncloses(ids: seq<SeriesId>, data: Series, tier: Tier, e: Encoding, k: nat)
    requires Listed(ids, data) && k < |ids|
    ensures Encloses(LayoutOf(ids, data, tier, e).meta, data[ids[k]])
  {
    hide *;
    LastSeries(ids, data, tier, e);
    var id, init := ids[|ids| - 1], ids[..|ids| - 1];
    var p := LayoutOf(init, data, tier, e);
    InData(ids, data, k);
    if k < |init| {
      LayoutEncloses(init, data, tier, e, k);
      EnclosesMore(p, id, data[id], data[ids[k]]);
    } else {
      AddSeriesMeta(p, id, data[id]);
    }
  }

  /** The time bounds are those of samples, or before any the widest that meet none. */
  ghost predicate Attains(m: PartMeta, s: seq<Sample>) {
    (exists i :: 0 <= i < |s| && s[i].t == m.minTime) && exists i :: 0 <= i < |s| && s[i].t == m.maxTime
  }

  ghost predicate Untouched(m: PartMeta) {
    m.minTime == 0x7FFF_FFFF_FFFF_FFFF && m.maxTime == -0x8000_0000_0000_0000
  }

  /** Both bounds are the times of samples of some series among ids. */
  ghost predicate Attained(m: PartMeta, ids: seq<SeriesId>, data: Series)
    requires Listed(ids, data)
  {
    && (exists k, i :: 0 <= k < |ids| && 0 <= i < |data[ids[k]]| && data[ids[k]][i].t == m.minTime)
    && exists k, i :: 0 <= k < |ids| && 0 <= i < |data[ids[k]]| && data[ids[k]][i].t == m.maxTime
  }

  lemma {:induction false} AddTimesAttain(meta: PartMeta, s: seq<Sample>)
    ensures var m := AddTimes(meta, s);
            && (m.minTime == meta.minTime || exists i :: 0 <= i < |s| && s[i].t == m.minTime)
            && (m.maxTime == meta.maxTime || exists i :: 0 <= i < |s| && s[i].t == m.maxTime)
  {
    if s != [] {
      var init := s[..|s| - 1];
      AddTimesAttain(meta, init);
      assert forall i :: 0 <= i < |init| ==> s[i] == init[i];
    }
  }

  lemma MetaWidens(meta: PartMeta, s: seq<Sample>)
    ensures Untouched(meta) && s != [] ==> Attains(AddTimes(meta, s), s)
    ensures s == [] ==> AddTimes(meta, s) == meta
  {
    AddTimesAttain(meta, s);
    AddTimesBounds(meta, s);
    if Untouched(meta) && s != [] {
      var m := AddTimes(meta, s);
      assert m.minTime <= s[0].t <= m.maxTime;
      hide AddTimes;
      assert m.minTime == meta.minTime ==> s[0].t == m.minTime;
      assert m.maxTime == meta.maxTime ==> s[0].t == m.maxTime;
    }
  }

  lemma SeriesMeta(p: Files, id: SeriesId, s: seq<Sample>)
    ensures var m := AddSeries(p, id, s).meta;
            && m.minTime == AddTimes(p.meta, s).minTime && m.maxTime == AddTimes(p.meta, s).maxTime
            && m.tier == p.meta.tier && m.encoding == p.meta.encoding
  {
    AddTimesKeeps(p.meta, s);
    hide AddTimes, TimesBlock, ValuesBlock;
  }

  lemma AttainedMore(m: PartMeta, m': PartMeta, ids: seq<SeriesId>, data: Series)
    requires ids != [] && Listed(ids, data) && Listed(ids[..|ids| - 1], data)
    requires var s := data[ids[|ids| - 1]];
             && (m'.minTime == m.minTime || exists i :: 0 <= i < |s| && s[i].t == m'.minTime)
             && (m'.maxTime == m.maxTime || exists i :: 0 <= i < |s| && s[i].t == m'.maxTime)
             && (Attained(m, ids[..|ids| - 1], data) || Attains(m', s))
    ensures Attained(m', ids, data)
  {
    var n, init := |ids| - 1, ids[..|ids| - 1];
    if Attained(m, init, data) {
      var k, i :| 0 <= k < |init| && 0 <= i < |data[init[k]]| && data[init[k]][i].t == m.minTime;
      var k', i' :| 0 <= k' < |init| && 0 <= i' < |data[init[k']]| && data[init[k']][i'].t == m.maxTime;
      assert ids[k] == init[k] && ids[k'] == init[k'];
    } else {
      assert ids[n] == ids[|ids| - 1];
    }
  }

  lemma {:induction false} LayoutAttains(ids: seq<SeriesId>, data: Series, tier: Tier, e: Encoding)
    requires Listed(ids, data)
    ensures var m := LayoutOf(ids, data, tier, e).meta;
            && m.tier == tier && m.encoding == e
            && if forall k :: 0 <= k < |ids| ==> data[ids[k]] == [] then Untouched(m) else Attained(m, ids, data)
  {
    if ids != [] {
      LastSeries(ids, data, tier, e);
      hide AddSeries, LayoutOf, AddTimes, Attained, Attains, Untouched, FlattenOf;
      var id, init := ids[|ids| - 1], ids[..|ids| - 1];
      LayoutAttains(init, data, tier, e);
      var p := LayoutOf(init, data, tier, e);
      SeriesMeta(p, id, data[id]);
      MetaWidens(p.meta, data[id]);
      AddTimesAttain(p.meta, data[id]);
      LayoutWidens(p.meta, AddSeries(p, id, data[id]).meta, ids, data);
    }
  }

  lemma LayoutWidens(m: PartMeta, m': PartMeta, ids: seq<SeriesId>, data: Series)
    requires ids != [] && Listed(ids, data) && Listed(ids[..|ids| - 1], data)
    requires var w := AddTimes(m, data[ids[|ids| - 1]]); m'.minTime == w.minTime && m'.maxTime == w.maxTime
    requires var init := ids[..|ids| - 1];
             if forall k :: 0 <= k < |init| ==> data[init[k]] == [] then Untouched(m) else Attained(m, init, data)
    ensures if forall k :: 0 <= k < |ids| ==> data[ids[k]] == [] then Untouched(m') else Attained(m', ids, data)
  {
    var init, s := ids[..|ids| - 1], data[ids[|ids| - 1]];
    MetaWidens(m, s);
    AddTimesAttain(m, s);
    hide AddTimes, Attained;
    var none := forall k :: 0 <= k < |init| ==> data[init[k]] == [];
    assert forall k :: 0 <= k < |init| ==> ids[k] == init[k];
    if !none {
      AttainedMore(m, m', ids, data);
    } else if s != [] {
      AttainedMore(m, m', ids, data);
      assert data[ids[|ids| - 1]] != [];
    }
  }

  /** SamplesCount counts every sample, SeriesCount the series, and the time bounds are those of the
      earliest and the latest sample; with no sample at all they are those of no window. */
  lemma MetaOfLayout(data: Series, tier: Tier, e: Encoding)
    ensures var m := Layout(data, tier, e).meta;
            && m.samplesCount == |Flatten(data)| && m.seriesCount == |data| && m.tier == tier && m.encoding == e
            && (forall id :: id in data ==> Encloses(m, data[id]))
            && if forall id :: id in data ==> data[id] == [] then Untouched(m) else Attained(m, Keys(data), data)
  {
    hide LayoutOf, FlattenOf, Encloses, Attained, Untouched;
    var ids, m := Keys(data), Layout(data, tier, e).meta;
    KeysAre(data);
    KeysSize(data);
    LayoutCounts(ids, data, tier, e);
    LayoutAttains(ids, data, tier, e);
    BoundsEnclose(data, tier, e);
    if k: nat :| k < |ids| && data[ids[k]] != [] {
      assert ids[k] in data;
    } else {
      forall id | id in data ensures data[id] == [] {
        var k :| 0 <= k < |ids| && ids[k] == id;
      }
    }
  }

  lemma BoundsEnclose(data: Series, tier: Tier, e: Encoding)
    ensures forall id :: id in data ==> Encloses(Layout(data, tier, e).meta, data[id])
  {
    hide LayoutOf, Encloses;
    var ids := Keys(data);
    KeysAre(data);
    forall id | id in data ensures Encloses(Layout(data, tier, e).meta, data[id]) {
      var k :| 0 <= k < |ids| && ids[k] == id;
      LayoutEncloses(ids, data, tier, e, k);
    }
  }

  lemma KeysSize(data: Series)
    ensures |Keys(data)| == |data|
  {
    AscendingSize(data.Keys);
    assert |data.Keys| == |data|;
  }

  // ---------- reading a range ----------

  predicate InWindow(x: Sample, start: Int64, end: Int64) {
    start <= x.t <= end
  }

  function Clip(s: seq<Sample>, start: Int64, end: Int64): (r: seq<Sample>)
    ensures forall i :: 0 <= i < |r| ==> InWindow(r[i], start, end)
  {
    if s == [] then []
    else
      var init := Clip(s[..|s| - 1], start, end);
      if InWindow(s[|s| - 1], start, end) then init + [s[|s| - 1]] else init
  }

  lemma {:induction false} ClipCount(s: seq<Sample>, start: Int64, end: Int64, x: Sample)
    ensures multiset(Clip(s, start, end))[x] == if InWindow(x, start, end) then multiset(s)[x] else 0
  {
    if s != [] {
      ClipCount(s[..|s| - 1], start, end, x);
      assert s == s[..|s| - 1] + [s[|s| - 1]];
    }
  }

  /** A sample is in the window if it is neither before its start nor after its end; clipping keeps those, as
      often as they are there and in their order. */
  lemma ClipIsWindow(a: seq<Sample>, x: Sample, b: seq<Sample>, start: Int64, end: Int64)
    ensures Clip(a + [x] + b, start, end) == Clip(a, start, end) + (if start <= x.t <= end then [x] else []) + Clip(b, start, end)
    ensures Clip([], start, end) == []
  {
    ClipJoin(a + [x], b, start, end);
    ClipJoin(a, [x], start, end);
    assert [x][..0] == [];
    assert Clip([x], start, end) == if start <= x.t <= end then [x] else [];
  }

  lemma {:induction false} ClipJoin(a: seq<Sample>, b: seq<Sample>, start: Int64, end: Int64)
    ensures Clip(a + b, start, end) == Clip(a, start, end) + Clip(b, start, end)
  {
    if b == [] {
      assert a + b == a;
    } else {
      assert (a + b)[..|a + b| - 1] == a + b[..|b| - 1];
      ClipJoin(a, b[..|b| - 1], start, end);
    }
  }

  /** The wanted samples in the window, series without any left out. */
  function RangeOf(data: Series, want: set<SeriesId>, start: Int64, end: Int64): Series {
    map id | id in data && id in want && Clip(data[id], start, end) != [] :: Clip(data[id], start, end)
  }

  predicate Pruned(p: Files, start: Int64, end: Int64) {
    p.meta.maxTime < start || p.meta.minTime > end
  }

  /** The series that decode, which is all of them in a part that writePart wrote. */
  function Decoded(p: Files): Series {
    map id | id in p.index && ReadBlock(p, p.index[id]).Ok? :: ReadBlock(p, p.index[id]).value
  }

  lemma DecodedKeys(p: Files)
    ensures Decoded(p).Keys <= p.index.Keys
  {
  }

  lemma DecodedAt(p: Files, id: SeriesId)
    requires id in p.index
    ensures id in Decoded(p) <==> ReadBlock(p, p.index[id]).Ok?
    ensures id in Decoded(p) ==> Decoded(p)[id] == ReadBlock(p, p.index[id]).value
  {
    hide ReadBlock;
  }

  /** Reading a part for a window gives exactly the samples of its content in that window:
      skipping a part by its meta hides none. */
  lemma PruningHidesNothing(data: Series, tier: Tier, e: Encoding, want: set<SeriesId>, start: Int64, end: Int64)
    requires Countable(data)
    ensures var p := Layout(data, tier, e);
            && Decoded(p) == data
            && (Pruned(p, start, end) ==> RangeOf(data, want, start, end) == map[])
  {
    hide ReadBlock, Layout;
    var p := Layout(data, tier, e);
    PartRoundTrip(data, tier, e);
    BoundsEnclose(data, tier, e);
    assert Decoded(p).Keys == data.Keys;
    if Pruned(p, start, end) {
      forall id | id in data ensures Clip(data[id], start, end) == [] {
        ClipEmpty(data[id], start, end);
      }
    }
  }

  lemma {:induction false} ClipEmpty(s: seq<Sample>, start: Int64, end: Int64)
    requires forall i :: 0 <= i < |s| ==> !InWindow(s[i], start, end)
    ensures Clip(s, start, end) == []
  {
    if s != [] {
      ClipEmpty(s[..|s| - 1], start, end);
    }
  }

  // ---------- the code ----------

  lemma {:induction false} LayoutFrame(ids: seq<SeriesId>, a: Series, b: Series, tier: Tier, e: Encoding)
    requires Listed(ids, a) && Listed(ids, b)
    requires forall i :: 0 <= i < |ids| ==> a[ids[i]] == b[ids[i]]
    ensures LayoutOf(ids, a, tier, e) == LayoutOf(ids, b, tier, e)
  {
    if ids != [] {
      hide AddSeries;
      LayoutFrame(ids[..|ids| - 1], a, b, tier, e);
    }
  }

  lemma NoSamples(meta: PartMeta)
    ensures RawTimes([]) == [] && RawValues([]) == [] && AddTimes(meta, []) == meta
  {
  }

  lemma SampleStep(meta: PartMeta, s: seq<Sample>, i: nat)
    requires i < |s|
    ensures RawTimes(s[..i + 1]) == RawTimes(s[..i]) + PutTime(s[i].t)
    ensures RawValues(s[..i + 1]) == RawValues(s[..i]) + PutFixed64(s[i].v)
    ensures AddTimes(meta, s[..i + 1]) ==
            var m := AddTimes(meta, s[..i]);
            m.(minTime := if s[i].t < m.minTime then s[i].t else m.minTime,
               maxTime := if s[i].t > m.maxTime then s[i].t else m.maxTime)
  {
    assert s[..i + 1][..i] == s[..i];
  }

  /** The blocks of one series, as writePartEncoded computes them. */
  method EncodeBlocks(s: seq<Sample>, e: Encoding) returns (tsBlock: seq<Byte>, valBlock: seq<Byte>)
    ensures tsBlock == TimesBlock(s, e) && valBlock == ValuesBlock(s, e)
  {
    hide PutTime, PutFixed64, RawTimes, RawValues, TimestampBlock, ValueBlock;
    if e == Gorilla {
      tsBlock := EncodeTimestamps(Times(s));
      valBlock := EncodeValues(Values(s));
    } else {
      tsBlock, valBlock := [], [];
      var i := 0;
      ghost var meta := EmptyPart(Small, Raw).meta;
      NoSamples(meta);
      assert s[..0] == [];
      while i < |s|
        invariant 0 <= i <= |s|
        invariant tsBlock == RawTimes(s[..i]) && valBlock == RawValues(s[..i])
      {
        SampleStep(meta, s, i);
        tsBlock := tsBlock + PutTime(s[i].t);
        valBlock := valBlock + PutFixed64(s[i].v);
        i := i + 1;
      }
      assert s[..i] == s;
    }
  }

  /** Widens the time bounds of meta to take in s. */
  method WidenMeta(meta0: PartMeta, s: seq<Sample>) returns (meta: PartMeta)
    ensures meta == AddTimes(meta0, s)
  {
    meta := meta0;
    var i := 0;
    NoSamples(meta);
    assert s[..0] == [];
    while i < |s|
      invariant 0 <= i <= |s| && meta == AddTimes(meta0, s[..i])
    {
      SampleStep(meta0, s, i);
      if s[i].t < meta.minTime {
        meta := meta.(minTime := s[i].t);
      }
      if s[i].t > meta.maxTime {
        meta := meta.(maxTime := s[i].t);
      }
      i := i + 1;
    }
    assert s[..i] == s;
  }

  ghost predicate Sorts(sorted: Series, data: Series) {
    sorted.Keys == data.Keys && forall id :: id in data ==> IsSortOf(sorted[id], data[id])
  }

  /** The same samples in each series, in any order. */
  ghost predicate Permutes(a: Series, b: Series) {
    a.Keys == b.Keys && forall id :: id in b ==> multiset(a[id]) == multiset(b[id])
  }

  /** The series of the first i IDs are sorted, the others not yet there. */
  ghost predicate SortedUpTo(sorted: Series, data: Series, ids: seq<SeriesId>, i: nat)
    requires i <= |ids|
  {
    && (forall id :: id in sorted <==> id in ids[..i])
    && (forall id :: id in sorted ==> id in data && IsSortOf(sorted[id], data[id]))
  }

  lemma SortedStep(sorted: Series, data: Series, ids: seq<SeriesId>, i: nat, s: seq<Sample>)
    requires ids == Keys(data) && i < |ids| && SortedUpTo(sorted, data, ids, i)
    requires ids[i] in data && IsSortOf(s, data[ids[i]])
    ensures Listed(ids[..i], sorted) && ids[i] !in ids[..i]
    ensures SortedUpTo(sorted[ids[i] := s], data, ids, i + 1)
  {
    hide IsSortOf, Keys;
    KeyOnce(data, i);
    assert ids[..i + 1] == ids[..i] + [ids[i]];
  }

  lemma KeyOnce(data: Series, i: nat)
    requires i < |Keys(data)|
    ensures Keys(data)[i] !in Keys(data)[..i]
  {
    KeysAre(data);
  }

  /** Whatever order the sort leaves equal timestamps in, the part is the layout of the sorted data. */
  ghost predicate Writes(p: Files, data: Series, tier: Tier, e: Encoding) {
    exists sorted: Series :: Sorts(sorted, data) && p == Layout(sorted, tier, e)
  }

  method WritePart(data: Series, tier: Tier, e: Encoding) returns (p: Files)
    ensures Writes(p, data, tier, e)
  {
    hide *;
    var ids := Keys(data);
    var index: map<SeriesId, IndexEntry> := map[];
    var tsBuf: seq<Byte>, valBuf: seq<Byte> := [], [];
    var meta := PartMeta(MAX_INT64, MIN_INT64, 0, 0, tier, e);
    var offset := 0;
    ghost var sorted: Series := map[];
    var i := 0;
    WriteStart(data, tier, e);
    while i < |ids|
      invariant 0 <= i <= |ids| && SortedUpTo(sorted, data, ids, i)
      invariant Listed(ids[..i], sorted)
      invariant Files(meta.(seriesCount := i), index, tsBuf, valBuf) == LayoutOf(ids[..i], sorted, tier, e)
      invariant offset == meta.samplesCount && meta.encoding == e
    {
      var id := ids[i];
      InData(ids, data, i);
      var samples := SortByTime(data[id]);
      SortedStep(sorted, data, ids, i, samples);
      LayoutStep(ids, i, sorted, sorted[id := samples], tier, e);
      AddSeriesIs(LayoutOf(ids[..i], sorted, tier, e), meta, i, id, samples);
      sorted := sorted[id := samples];
      var tsBlock, valBlock := EncodeBlocks(samples, e);
      var entry := if e == Gorilla then
        IndexEntry(0, |samples|, |tsBuf|, |tsBlock|, |valBuf|, |valBlock|)
      else
        IndexEntry(offset, |samples|, 0, 0, 0, 0);
      tsBuf, valBuf := tsBuf + tsBlock, valBuf + valBlock;
      offset := offset + |samples|;
      meta := WidenMeta(meta, samples);
      index := index[id := entry];
      meta := meta.(samplesCount := meta.samplesCount + |samples|);
      i := i + 1;
    }
    meta := meta.(seriesCount := |ids|);
    p := Files(meta, index, tsBuf, valBuf);
    assert ids[..i] == ids;
    WriteDone(p, sorted, data, tier, e);
  }

  lemma WriteDone(p: Files, sorted: Series, data: Series, tier: Tier, e: Encoding)
    requires SortedUpTo(sorted, data, Keys(data), |Keys(data)|)
    requires Listed(Keys(data), sorted) && p == LayoutOf(Keys(data), sorted, tier, e)
    ensures Writes(p, data, tier, e)
  {
    hide LayoutOf, Sorts;
    SortedDone(sorted, data, Keys(data));
    assert p == Layout(sorted, tier, e);
  }

  lemma SortedDone(sorted: Series, data: Series, ids: seq<SeriesId>)
    requires ids == Keys(data) && SortedUpTo(sorted, data, ids, |ids|)
    ensures Sorts(sorted, data) && Keys(sorted) == ids
  {
    hide IsSortOf;
    KeysAre(data);
    assert ids[..|ids|] == ids;
    assert sorted.Keys == data.Keys;
  }

  lemma {:induction false} AddTimesCount(meta: PartMeta, n: nat, s: seq<Sample>)
    ensures AddTimes(meta.(seriesCount := n), s) == AddTimes(meta, s).(seriesCount := n)
  {
    if s != [] {
      AddTimesCount(meta, n, s[..|s| - 1]);
    }
  }

  lemma AddSeriesIs(p: Files, meta: PartMeta, n: nat, id: SeriesId, s: seq<Sample>)
    requires p.meta == meta.(seriesCount := n)
    ensures var e := meta.encoding;
            var m := AddTimes(meta, s);
            var entry := if e == Gorilla then
                IndexEntry(0, |s|, |p.ts|, |TimesBlock(s, e)|, |p.val|, |ValuesBlock(s, e)|)
              else
                IndexEntry(meta.samplesCount, |s|, 0, 0, 0, 0);
            && m.samplesCount == meta.samplesCount && m.encoding == e
            && AddSeries(p, id, s) == Files(
                 m.(samplesCount := meta.samplesCount + |s|, seriesCount := n + 1),
                 p.index[id := entry], p.ts + TimesBlock(s, e), p.val + ValuesBlock(s, e))
  {
    hide TimesBlock, ValuesBlock, AddTimes;
    AddTimesKeeps(meta, s);
    AddTimesCount(meta, n, s);
  }

  lemma WriteStart(data: Series, tier: Tier, e: Encoding)
    ensures var ids := Keys(data);
            && SortedUpTo(map[], data, ids, 0) && Listed(ids[..0], map[])
            && LayoutOf(ids[..0], map[], tier, e) == Files(PartMeta(MAX_INT64, MIN_INT64, 0, 0, tier, e), map[], [], [])
  {
  }

  lemma LayoutStep(ids: seq<SeriesId>, i: nat, a: Series, b: Series, tier: Tier, e: Encoding)
    requires i < |ids| && Listed(ids[..i], a) && ids[i] in b && ids[i] !in ids[..i]
    requires b == a[ids[i] := b[ids[i]]]
    ensures Listed(ids[..i + 1], b)
    ensures LayoutOf(ids[..i + 1], b, tier, e) == AddSeries(LayoutOf(ids[..i], a, tier, e), ids[i], b[ids[i]])
  {
    hide AddSeries;
    assert ids[..i + 1][..i] == ids[..i];
    LayoutFrame(ids[..i], a, b, tier, e);
  }

  method ReadSeriesBlock(p: Files, entry: IndexEntry) returns (r: Result<seq<Sample>>)
    ensures r == ReadBlock(p, entry)
  {
    hide ReadTimestampBlock, ReadValueBlock, GetTime, Fixed64;
    if p.meta.encoding == Gorilla {
      var tsBuf :- ReadAt(p.ts, entry.tsOffset, entry.tsLength);
      var valBuf :- ReadAt(p.val, entry.valOffset, entry.valLength);
      var ts :- DecodeTimestamps(tsBuf);
      var vs :- DecodeValues(valBuf);
      if |ts| != entry.count || |vs| != entry.count {
        return Err(CountMismatch);
      }
      var samples: seq<Sample> := [];
      var i := 0;
      while i < |ts|
        invariant 0 <= i <= |ts| && samples == Zip(ts[..i], vs[..i])
      {
        samples := samples + [Sample(ts[i], vs[i])];
        i := i + 1;
      }
      assert ts[..i] == ts && vs[..i] == vs;
      return Ok(samples);
    }
    var tsBuf :- ReadAt(p.ts, 8 * entry.offset, 8 * entry.count);
    var valBuf :- ReadAt(p.val, 8 * entry.offset, 8 * entry.count);
    var samples: seq<Sample> := [];
    var i := 0;
    while i < entry.count
      invariant 0 <= i <= entry.count && |samples| == i
      invariant forall k :: 0 <= k < i ==> samples[k] == Sample(GetTime(tsBuf[8 * k..]), Fixed64(valBuf[8 * k..]))
    {
      samples := samples + [Sample(GetTime(tsBuf[8 * i..]), Fixed64(valBuf[8 * i..]))];
      i := i + 1;
    }
    assert samples == RawSamples(tsBuf, valBuf, entry.count);
    return Ok(samples);
  }

  predicate Selected(data: Series, want: set<SeriesId>, start: Int64, end: Int64, id: SeriesId) {
    id in data && id in want && Clip(data[id], start, end) != []
  }

  lemma RangeOfKeys(data: Series, want: set<SeriesId>, start: Int64, end: Int64, out: Series)
    requires forall id :: id in out <==> Selected(data, want, start, end, id)
    requires forall id :: id in out ==> id in data && out[id] == Clip(data[id], start, end)
    ensures out == RangeOf(data, want, start, end)
  {
    hide Clip;
    assert out.Keys == RangeOf(data, want, start, end).Keys;
  }

  function IndexIds(p: Files): (ids: seq<SeriesId>)
    ensures forall k :: 0 <= k < |ids| ==> ids[k] in p.index
    ensures forall j, k :: 0 <= j < k < |ids| ==> ids[j] < ids[k]
    ensures forall id :: id in p.index ==> id in ids
  {
    var ids := Ascending(p.index.Keys);
    assert forall k :: 0 <= k < |ids| ==> ids[k] in p.index;
    ids
  }

  /** out holds what the first i IDs of the index give for the window. */
  ghost predicate RangeUpTo(out: Series, p: Files, ids: seq<SeriesId>, i: nat, want: set<SeriesId>, start: Int64, end: Int64)
    requires i <= |ids|
  {
    && (forall k :: 0 <= k < i && ids[k] in want ==> ids[k] in Decoded(p))
    && (forall id :: id in out <==> id in ids[..i] && Selected(Decoded(p), want, start, end, id))
    && (forall id :: id in out ==> id in Decoded(p) && out[id] == Clip(Decoded(p)[id], start, end))
  }

  lemma RangeStep(out: Series, p: Files, ids: seq<SeriesId>, i: nat, want: set<SeriesId>, start: Int64, end: Int64, out': Series)
    requires i < |ids| && ids[i] in p.index && RangeUpTo(out, p, ids, i, want, start, end)
    requires ids[i] in want ==> ids[i] in Decoded(p)
    requires out' == if Selected(Decoded(p), want, start, end, ids[i])
                     then out[ids[i] := Clip(Decoded(p)[ids[i]], start, end)] else out
    ensures RangeUpTo(out', p, ids, i + 1, want, start, end)
  {
    hide Decoded, Selected, Clip;
    SelectedAt(Decoded(p), want, start, end, ids[i]);
    assert ids[..i + 1] == ids[..i] + [ids[i]];
  }

  lemma RangeDone(out: Series, p: Files, want: set<SeriesId>, start: Int64, end: Int64)
    requires RangeUpTo(out, p, IndexIds(p), |IndexIds(p)|, want, start, end)
    ensures out == RangeOf(Decoded(p), want, start, end)
    ensures want * p.index.Keys <= Decoded(p).Keys
  {
    hide Clip, Decoded, IndexIds;
    var ids := IndexIds(p);
    assert ids[..|ids|] == ids;
    DecodedKeys(p);
    assert forall id :: Selected(Decoded(p), want, start, end, id) ==> id in ids;
    hide Selected;
    RangeOfKeys(Decoded(p), want, start, end, out);
  }

  /** Go visits the index in no particular order; ascending order stands for it here. */
  method ReadPart(p: Files, want: set<SeriesId>, start: Int64, end: Int64) returns (r: Result<Series>)
    ensures r.Ok? <==> Pruned(p, start, end) || want * p.index.Keys <= Decoded(p).Keys
    ensures r.Ok? ==> r.value == if Pruned(p, start, end) then map[] else RangeOf(Decoded(p), want, start, end)
  {
    if p.meta.maxTime < start || p.meta.minTime > end {
      return Ok(map[]);
    }
    var ids := IndexIds(p);
    var out: Series := map[];
    var i := 0;
    assert RangeUpTo(out, p, ids, 0, want, start, end);
    hide *;
    while i < |ids|
      invariant 0 <= i <= |ids| && RangeUpTo(out, p, ids, i, want, start, end)
    {
      var id := ids[i];
      DecodedAt(p, id);
      SelectedAt(Decoded(p), want, start, end, id);
      ghost var before := out;
      if id in want {
        var samples := ReadSeriesBlock(p, p.index[id]);
        if samples.Err? {
          assert id in want * p.index.Keys && id !in Decoded(p);
          return Err(samples.error);
        }
        var clipped := ClipLoop(samples.value, start, end);
        if clipped != [] {
          out := out[id := clipped];
        }
      }
      RangeStep(before, p, ids, i, want, start, end, out);
      i := i + 1;
    }
    RangeDone(out, p, want, start, end);
    return Ok(out);
  }

  lemma SelectedAt(data: Series, want: set<SeriesId>, start: Int64, end: Int64, id: SeriesId)
    ensures Selected(data, want, start, end, id)
            <==> id in data && id in want && Clip(data[id], start, end) != []
  {
  }

  method ClipLoop(s: seq<Sample>, start: Int64, end: Int64) returns (out: seq<Sample>)
    ensures out == Clip(s, start, end)
  {
    out := [];
    var i := 0;
    assert s[..0] == [];
    while i < |s|
      invariant 0 <= i <= |s| && out == Clip(s[..i], start, end)
    {
      assert s[..i + 1][..i] == s[..i];
      if !(s[i].t < start || s[i].t > end) {
        out := out + [s[i]];
      }
      i := i + 1;
    }
    assert s[..i] == s;
  }

  method ReadPartAll(p: Files) returns (r: Result<Series>)
    ensures r.Ok? <==> p.index.Keys <= Decoded(p).Keys
    ensures r.Ok? ==> r.value == Decoded(p)
  {
    var ids := IndexIds(p);
    var out: Series := map[];
    var i := 0;
    assert ReadUpTo(out, p, ids, 0);
    hide *;
    while i < |ids|
      invariant 0 <= i <= |ids| && ReadUpTo(out, p, ids, i)
    {
      DecodedAt(p, ids[i]);
      var samples := ReadSeriesBlock(p, p.index[ids[i]]);
      if samples.Err? {
        assert ids[i] in p.index.Keys && ids[i] !in Decoded(p);
        return Err(samples.error);
      }
      ReadStep(out, p, ids, i);
      out := out[ids[i] := samples.value];
      i := i + 1;
    }
    ReadDone(out, p);
    return Ok(out);
  }

  ghost predicate ReadUpTo(out: Series, p: Files, ids: seq<SeriesId>, i: nat)
    requires i <= |ids|
  {
    && (forall id :: id in out <==> id in ids[..i])
    && (forall id :: id in out ==> id in Decoded(p) && out[id] == Decoded(p)[id])
  }

  lemma ReadStep(out: Series, p: Files, ids: seq<SeriesId>, i: nat)
    requires i < |ids| && ReadUpTo(out, p, ids, i) && ids[i] in Decoded(p)
    ensures ReadUpTo(out[ids[i] := Decoded(p)[ids[i]]], p, ids, i + 1)
  {
    hide Decoded;
    assert ids[..i + 1] == ids[..i] + [ids[i]];
  }

  lemma ReadDone(out: Series, p: Files)
    requires ReadUpTo(out, p, IndexIds(p), |IndexIds(p)|)
    ensures out == Decoded(p) && p.index.Keys == Decoded(p).Keys
  {
    hide Decoded, IndexIds;
    var ids := IndexIds(p);
    assert ids[..|ids|] == ids;
    DecodedKeys(p);
    assert out.Keys == Decoded(p).Keys;
  }
}
