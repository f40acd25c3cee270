/** Index segments: storage/indexdb.go. A segment is a magic number and a list of records, each an
    ID relative to the one before it and a label list. Replay stops at a torn tail. */
module IndexSegment {
  import opened Bits
  import opened Labels
  import opened Results
  import opened SortedIds
  import opened Varint

  datatype Record = Record(id: UInt64, labels: seq<Label>)

  /** "MMIDX001". */
  const MAGIC: seq<Byte> := [77, 77, 73, 68, 88, 48, 48, 49]

  // ---------- the format ----------

  /** id - prev and prev + delta on uint64. */
  function Delta(id: UInt64, prev: UInt64): UInt64 {
    if id >= prev then id - prev else id - prev + TWO_64
  }

  function Plus(prev: UInt64, delta: UInt64): UInt64 {
    if prev + delta < TWO_64 then prev + delta else prev + delta - TWO_64
  }

  function LabelBytes(labels: seq<Label>): seq<Byte> {
    if labels == [] then []
    else PutStr(labels[0].name) + PutStr(labels[0].value) + LabelBytes(labels[1..])
  }

  function RecordBytes(rec: Record, prev: UInt64): seq<Byte> {
    PutUvarint(Delta(rec.id, prev)) + PutUvarint(|rec.labels|) + LabelBytes(rec.labels)
  }

  function RecordsBytes(recs: seq<Record>, prev: UInt64): seq<Byte>
    decreases |recs|
  {
    if recs == [] then []
    else RecordBytes(recs[0], prev) + RecordsBytes(recs[1..], recs[0].id)
  }

  function Segment(recs: seq<Record>): seq<Byte> {
    MAGIC + RecordsBytes(recs, 0)
  }

  /** Lengths fit in a uint64, as every Go length does. */
  predicate Encodable(labels: seq<Label>) {
    |labels| < TWO_64 && forall l :: l in labels ==> |l.name| < TWO_64 && |l.value| < TWO_64
  }

  // ---------- replay ----------

  function GetLabels(b: seq<Byte>, n: nat): (r: Result<(seq<Label>, seq<Byte>)>)
    ensures r.Ok? ==> |r.value.1| <= |b|
    decreases n
  {
    if n == 0 then Ok(([], b))
    else
      var (name, b1) :- GetStr(b);
      var (value, b2) :- GetStr(b1);
      var (labels, rest) :- GetLabels(b2, n - 1);
      Ok(([Label(name, value)] + labels, rest))
  }

  function GetRecord(b: seq<Byte>, prev: UInt64): (r: Result<(Record, seq<Byte>)>)
    ensures r.Ok? ==> |r.value.1| < |b|
  {
    var (delta, b1) :- GetUvarint(b);
    var (n, b2) :- GetUvarint(b1);
    var (labels, rest) :- GetLabels(b2, n);
    Ok((Record(Plus(prev, delta), labels), rest))
  }

  function Replay(b: seq<Byte>, prev: UInt64): Result<seq<Record>>
    decreases |b|
  {
    if b == [] then Ok([])
    else
      var got := GetRecord(b, prev);
      if got.Ok? then After([got.value.0], Replay(got.value.1, got.value.0.id))
      else if got.error == UnexpectedEOF then Ok([])
      else Err(got.error)
  }

  function ReadSegment(data: seq<Byte>): Result<seq<Record>> {
    if |data| < 8 || data[..8] != MAGIC then Err(BadMagic) else Replay(data[8..], 0)
  }

  // ---------- a record and its proper prefixes ----------

  lemma {:induction false} LabelsRoundTrip(labels: seq<Label>, rest: seq<Byte>)
    requires Encodable(labels)
    ensures GetLabels(LabelBytes(labels) + rest, |labels|) == Ok((labels, rest))
  {
    hide GetStr, PutStr;
    if labels == [] {
      assert LabelBytes(labels) + rest == rest;
    } else {
      var l, more := labels[0], LabelBytes(labels[1..]) + rest;
      assert LabelBytes(labels) + rest == PutStr(l.name) + (PutStr(l.value) + more);
      StrRoundTrip(l.name, PutStr(l.value) + more);
      StrRoundTrip(l.value, more);
      LabelsRoundTrip(labels[1..], rest);
      assert labels == [l] + labels[1..];
    }
  }

  lemma {:induction false} LabelsCut(labels: seq<Label>, k: nat)
    requires Encodable(labels) && k < |LabelBytes(labels)|
    ensures GetLabels(LabelBytes(labels)[..k], |labels|) == Err(UnexpectedEOF)
  {
    hide GetStr, PutStr;
    var l, b := labels[0], LabelBytes(labels)[..k];
    var name, value, more := PutStr(l.name), PutStr(l.value), LabelBytes(labels[1..]);
    if k < |name| {
      assert b == name[..k];
      StrCut(l.name, k);
    } else {
      var k1 := k - |name|;
      assert b == name + (value + more)[..k1];
      StrRoundTrip(l.name, (value + more)[..k1]);
      if k1 < |value| {
        assert (value + more)[..k1] == value[..k1];
        StrCut(l.value, k1);
      } else {
        assert (value + more)[..k1] == value + more[..k1 - |value|];
        StrRoundTrip(l.value, more[..k1 - |value|]);
        LabelsCut(labels[1..], k1 - |value|);
      }
    }
  }

  lemma RecordRoundTrip(rec: Record, prev: UInt64, rest: seq<Byte>)
    requires Encodable(rec.labels)
    ensures GetRecord(RecordBytes(rec, prev) + rest, prev) == Ok((rec, rest))
  {
    hide GetUvarint, GetLabels, LabelBytes;
    var delta, n := Delta(rec.id, prev), |rec.labels|;
    var body := LabelBytes(rec.labels) + rest;
    assert RecordBytes(rec, prev) + rest == PutUvarint(delta) + (PutUvarint(n) + body);
    UvarintRoundTrip(delta, PutUvarint(n) + body);
    UvarintRoundTrip(n, body);
    LabelsRoundTrip(rec.labels, rest);
  }

  lemma RecordCut(rec: Record, prev: UInt64, k: nat)
    requires Encodable(rec.labels) && k < |RecordBytes(rec, prev)|
    ensures GetRecord(RecordBytes(rec, prev)[..k], prev) == Err(UnexpectedEOF)
  {
    hide GetUvarint, GetLabels, LabelBytes, PutUvarint;
    var delta, n := Delta(rec.id, prev), |rec.labels|;
    var d, c, body := PutUvarint(delta), PutUvarint(n), LabelBytes(rec.labels);
    var b := RecordBytes(rec, prev)[..k];
    if k < |d| {
      assert b == d[..k];
      UvarintCut(delta, k);
    } else {
      var k1 := k - |d|;
      assert b == d + (c + body)[..k1];
      UvarintRoundTrip(delta, (c + body)[..k1]);
      if k1 < |c| {
        assert (c + body)[..k1] == c[..k1];
        UvarintCut(n, k1);
      } else {
        assert (c + body)[..k1] == c + body[..k1 - |c|];
        UvarintRoundTrip(n, body[..k1 - |c|]);
        LabelsCut(rec.labels, k1 - |c|);
      }
    }
  }

  // ---------- torn tails ----------

  predicate AllEncodable(recs: seq<Record>) {
    forall i :: 0 <= i < |recs| ==> Encodable(recs[i].labels)
  }

  /** How many records lie wholly within the first k bytes. */
  function WholeRecords(recs: seq<Record>, prev: UInt64, k: nat): (m: nat)
    ensures m <= |recs|
    decreases |recs|
  {
    if recs == [] || k < |RecordBytes(recs[0], prev)| then 0
    else 1 + WholeRecords(recs[1..], recs[0].id, k - |RecordBytes(recs[0], prev)|)
  }

  lemma {:induction false} WholeRecordsExact(recs: seq<Record>, prev: UInt64, k: nat)
    ensures var m := WholeRecords(recs, prev, k);
            && |RecordsBytes(recs[..m], prev)| <= k
            && (m < |recs| ==> k < |RecordsBytes(recs[..m + 1], prev)|)
    decreases |recs|
  {
    hide RecordBytes;
    var m := WholeRecords(recs, prev, k);
    if m > 0 {
      WholeRecordsExact(recs[1..], recs[0].id, k - |RecordBytes(recs[0], prev)|);
      assert recs[..m][1..] == recs[1..][..m - 1];
      if m < |recs| {
        assert recs[..m + 1][1..] == recs[1..][..m];
      }
    } else if recs != [] {
      assert recs[..1][1..] == [];
    }
  }

  lemma {:induction false} ReplayCut(recs: seq<Record>, prev: UInt64, k: nat)
    requires AllEncodable(recs) && k <= |RecordsBytes(recs, prev)|
    ensures Replay(RecordsBytes(recs, prev)[..k], prev) == Ok(recs[..WholeRecords(recs, prev, k)])
    decreases |recs|
  {
    hide RecordBytes, GetRecord;
    if k > 0 {
      var first, more := RecordBytes(recs[0], prev), RecordsBytes(recs[1..], recs[0].id);
      var b := RecordsBytes(recs, prev)[..k];
      if k < |first| {
        assert b == first[..k];
        RecordCut(recs[0], prev, k);
      } else {
        var rest := more[..k - |first|];
        assert b == first + rest;
        RecordRoundTrip(recs[0], prev, rest);
        ReplayCut(recs[1..], recs[0].id, k - |first|);
        assert recs[..WholeRecords(recs, prev, k)]
            == [recs[0]] + recs[1..][..WholeRecords(recs, prev, k) - 1];
      }
    } else if recs != [] {
      RecordNonEmpty(recs[0], prev);
    }
  }

  lemma RecordNonEmpty(rec: Record, prev: UInt64)
    ensures RecordBytes(rec, prev) != []
  {
  }

  // ---------- entries ----------

  function SortedKeys(entries: map<UInt64, seq<Label>>): (ids: seq<UInt64>)
    ensures forall i, j :: 0 <= i < j < |ids| ==> ids[i] < ids[j]
    ensures forall id :: id in ids <==> id in entries
  {
    var ids := Ascending(entries.Keys);
    assert forall i :: 0 <= i < |ids| ==> ids[i] in entries;
    ids
  }

  function RecordsOf(ids: seq<UInt64>, entries: map<UInt64, seq<Label>>): (recs: seq<Record>)
    requires forall i :: 0 <= i < |ids| ==> ids[i] in entries
    ensures |recs| == |ids| && forall i :: 0 <= i < |ids| ==> recs[i] == Record(ids[i], entries[ids[i]])
  {
    seq(|ids|, i requires 0 <= i < |ids| => Record(ids[i], entries[ids[i]]))
  }

  /** The records of an entry map, IDs ascending. */
  function SortedRecords(entries: map<UInt64, seq<Label>>): (recs: seq<Record>)
    ensures forall i, j :: 0 <= i < j < |recs| ==> recs[i].id < recs[j].id
    ensures forall i :: 0 <= i < |recs| ==> recs[i].id in entries && recs[i].labels == entries[recs[i].id]
    ensures forall id :: id in entries ==> exists i :: 0 <= i < |recs| && recs[i].id == id
  {
    var ids := SortedKeys(entries);
    var recs := RecordsOf(ids, entries);
    forall id | id in entries ensures exists i :: 0 <= i < |recs| && recs[i].id == id {
      var i :| 0 <= i < |ids| && ids[i] == id;
      assert recs[i].id == id;
    }
    recs
  }

  lemma SegmentLength(recs: seq<Record>)
    ensures |Segment(recs)| == 8 + |RecordsBytes(recs, 0)|
  {
  }

  lemma SegmentCut(recs: seq<Record>, k: nat)
    requires AllEncodable(recs) && 8 <= k <= |Segment(recs)|
    ensures ReadSegment(Segment(recs)[..k]) == Ok(recs[..WholeRecords(recs, 0, k - 8)])
  {
    hide RecordsBytes, Replay, WholeRecords;
    var body := RecordsBytes(recs, 0);
    assert Segment(recs)[..k] == MAGIC + body[..k - 8];
    ReplayCut(recs, 0, k - 8);
  }

  /** Reading the first k bytes of the segment of any entry map, cut anywhere after the magic
      number, gives no error and exactly the records lying wholly within them, IDs ascending. */
  lemma TornTail(entries: map<UInt64, seq<Label>>, k: nat)
    requires forall id :: id in entries ==> Encodable(entries[id])
    requires 8 <= k <= |Segment(SortedRecords(entries))|
    ensures var recs := SortedRecords(entries);
            var m := WholeRecords(recs, 0, k - 8);
            && ReadSegment(Segment(recs)[..k]) == Ok(recs[..m])
            && |Segment(recs[..m])| <= k
            && (m < |recs| ==> k < |Segment(recs[..m + 1])|)
            && (forall i, j :: 0 <= i < j < m ==> recs[i].id < recs[j].id)
  {
    hide SortedRecords, RecordsBytes, Segment, Replay, ReadSegment, WholeRecords;
    var recs := SortedRecords(entries);
    var m := WholeRecords(recs, 0, k - 8);
    SegmentLength(recs);
    SegmentCut(recs, k);
    WholeRecordsExact(recs, 0, k - 8);
    SegmentLength(recs[..m]);
    if m < |recs| {
      SegmentLength(recs[..m + 1]);
    }
  }

  /** The whole segment gives back every entry, and no other. */
  lemma SegmentRoundTrip(entries: map<UInt64, seq<Label>>)
    requires forall id :: id in entries ==> Encodable(entries[id])
    ensures ReadSegment(Segment(SortedRecords(entries))) == Ok(SortedRecords(entries))
  {
    hide SortedRecords, RecordsBytes;
    var recs := SortedRecords(entries);
    var whole := Segment(recs);
    assert whole[..|whole|] == whole;
    TornTail(entries, |whole|);
    var m := WholeRecords(recs, 0, |whole| - 8);
    if m < |recs| {
      RecordsPrefix(recs, 0, m + 1);
    }
    assert recs[..m] == recs;
  }

  lemma {:induction false} RecordsPrefix(recs: seq<Record>, prev: UInt64, m: nat)
    requires m <= |recs|
    ensures |RecordsBytes(recs[..m], prev)| <= |RecordsBytes(recs, prev)|
    decreases |recs|
  {
    if m > 0 {
      assert recs[..m][1..] == recs[1..][..m - 1];
      RecordsPrefix(recs[1..], recs[0].id, m - 1);
    }
  }

  // ---------- the code ----------

  lemma NoLabelBytes()
    ensures LabelBytes([]) == [] && forall prev :: RecordsBytes([], prev) == []
  {
  }

  lemma LabelBytesStep(out: seq<Byte>, labels: seq<Label>, j: nat)
    requires j < |labels|
    ensures out + LabelBytes(labels[j..])
            == out + (PutStr(labels[j].name) + PutStr(labels[j].value)) + LabelBytes(labels[j + 1..])
  {
    assert labels[j..][1..] == labels[j + 1..];
  }

  lemma RecordBytesStep(out: seq<Byte>, recs: seq<Record>, i: nat, prev: UInt64)
    requires i < |recs|
    ensures out + RecordsBytes(recs[i..], prev)
            == out + PutUvarint(Delta(recs[i].id, prev)) + PutUvarint(|recs[i].labels|)
               + LabelBytes(recs[i].labels) + RecordsBytes(recs[i + 1..], recs[i].id)
  {
    assert recs[i..][1..] == recs[i + 1..];
  }

  method EncodeLabels(labels: seq<Label>) returns (out: seq<Byte>)
    ensures out == LabelBytes(labels)
  {
    hide PutStr;
    out := [];
    var j := 0;
    while j < |labels|
      invariant 0 <= j <= |labels|
      invariant out + LabelBytes(labels[j..]) == LabelBytes(labels)
    {
      LabelBytesStep(out, labels, j);
      out := out + (PutStr(labels[j].name) + PutStr(labels[j].value));
      j := j + 1;
    }
  }

  /** The bytes appendIndexSegment writes. */
  method EncodeSegment(entries: map<UInt64, seq<Label>>) returns (out: seq<Byte>)
    ensures out == Segment(SortedRecords(entries))
  {
    hide PutUvarint, PutStr, Delta, RecordBytes, LabelBytes, RecordsBytes;
    var ids := SortedKeys(entries);
    ghost var recs := SortedRecords(entries);
    out := MAGIC;
    var prev: UInt64 := 0;
    var i := 0;
    assert recs[0..] == recs;
    while i < |ids|
      invariant 0 <= i <= |ids|
      invariant out + RecordsBytes(recs[i..], prev) == Segment(recs)
    {
      var id := ids[i];
      ghost var before := out;
      out := out + PutUvarint(Delta(id, prev));
      var labels := entries[id];
      out := out + PutUvarint(|labels|);
      var body := EncodeLabels(labels);
      out := out + body;
      RecordBytesStep(before, recs, i, prev);
      prev := id;
      i := i + 1;
    }
    assert recs[i..] == [];
    NoLabelBytes();
  }

  method ReadIndexRecord(r: ByteReader, prev: UInt64) returns (res: Result<Record>)
    modifies r
    ensures GetRecord(old(r.b), prev).Err? ==> res == Err(GetRecord(old(r.b), prev).error)
    ensures GetRecord(old(r.b), prev).Ok? ==>
              (res, r.b) == (Ok(GetRecord(old(r.b), prev).value.0), GetRecord(old(r.b), prev).value.1)
  {
    hide GetUvarint, GetStr;
    var delta := r.Uvarint();
    if delta.Err? {
      return Err(delta.error);
    }
    var n := r.Uvarint();
    if n.Err? {
      return Err(n.error);
    }
    ghost var b2 := r.b;
    AfterNoLabels(GetLabels(b2, n.value));
    var labels: seq<Label> := [];
    var i := 0;
    while i < n.value
      invariant 0 <= i <= n.value && |labels| == i
      invariant GetLabels(b2, n.value) == AfterLabels(labels, GetLabels(r.b, n.value - i))
    {
      ghost var b := r.b;
      var name := r.Str();
      if name.Err? {
        return Err(name.error);
      }
      var value := r.Str();
      if value.Err? {
        return Err(value.error);
      }
      GetLabelsStep(labels, b, n.value - i);
      labels := labels + [Label(name.value, value.value)];
      i := i + 1;
    }
    assert labels + [] == labels;
    return Ok(Record(Plus(prev, delta.value), labels));
  }

  function AfterLabels(out: seq<Label>, r: Result<(seq<Label>, seq<Byte>)>): Result<(seq<Label>, seq<Byte>)> {
    if r.Ok? then Ok((out + r.value.0, r.value.1)) else r
  }

  lemma AfterNoLabels(r: Result<(seq<Label>, seq<Byte>)>)
    ensures AfterLabels([], r) == r
  {
    if r.Ok? {
      assert [] + r.value.0 == r.value.0;
    }
  }

  lemma GetLabelsStep(out: seq<Label>, b: seq<Byte>, n: nat)
    requires n > 0 && GetStr(b).Ok? && GetStr(GetStr(b).value.1).Ok?
    ensures var (name, b1) := GetStr(b).value;
            var (value, b2) := GetStr(b1).value;
            AfterLabels(out, GetLabels(b, n)) == AfterLabels(out + [Label(name, value)], GetLabels(b2, n - 1))
  {
    hide GetStr;
    var (name, b1) := GetStr(b).value;
    var (value, b2) := GetStr(b1).value;
    var r := GetLabels(b2, n - 1);
    if r.Ok? {
      assert out + ([Label(name, value)] + r.value.0) == out + [Label(name, value)] + r.value.0;
    }
  }

  /** readIndexSegment, gathering the records it passes to its callback. */
  method ReadIndexSegment(data: seq<Byte>) returns (res: Result<seq<Record>>)
    ensures res == ReadSegment(data)
  {
    hide GetRecord;
    if |data| < |MAGIC| || data[..|MAGIC|] != MAGIC {
      return Err(BadMagic);
    }
    var r := new ByteReader(data[|MAGIC|..]);
    var out: seq<Record> := [];
    var prev: UInt64 := 0;
    ghost var whole := ReadSegment(data);
    AfterNone(whole);
    while |r.b| > 0
      invariant whole == After(out, Replay(r.b, prev))
      decreases |r.b|
    {
      ghost var b := r.b;
      var rec := ReadIndexRecord(r, prev);
      if rec.Err? {
        if rec.error == UnexpectedEOF {
          assert out + [] == out;
          return Ok(out);
        }
        return Err(rec.error);
      }
      ReplayStep(out, b, prev);
      prev := rec.value.id;
      out := out + [rec.value];
    }
    assert out + [] == out;
    return Ok(out);
  }

  lemma AfterNone(r: Result<seq<Record>>)
    ensures After([], r) == r
  {
    if r.Ok? {
      assert [] + r.value == r.value;
    }
  }

  lemma ReplayStep(out: seq<Record>, b: seq<Byte>, prev: UInt64)
    requires b != [] && GetRecord(b, prev).Ok?
    ensures var (rec, rest) := GetRecord(b, prev).value;
            After(out, Replay(b, prev)) == After(out + [rec], Replay(rest, rec.id))
  {
    hide GetRecord;
    var (rec, rest) := GetRecord(b, prev).value;
    var r := Replay(rest, rec.id);
    if r.Ok? {
      assert out + ([rec] + r.value) == out + [rec] + r.value;
    }
  }

  // ---------- damage ----------

  lemma {:induction false} ReplayDamaged(recs: seq<Record>, prev: UInt64, b: seq<Byte>)
    requires AllEncodable(recs) && GetUvarint(b) == Err(VarintOverflow)
    ensures Replay(RecordsBytes(recs, prev) + b, prev) == Err(VarintOverflow)
    decreases |recs|
  {
    hide RecordBytes, GetUvarint;
    if recs == [] {
      assert RecordsBytes(recs, prev) + b == b;
      NothingIsShort();
    } else {
      var first, more := RecordBytes(recs[0], prev), RecordsBytes(recs[1..], recs[0].id);
      assert RecordsBytes(recs, prev) + b == first + (more + b);
      RecordRoundTrip(recs[0], prev, more + b);
      ReplayDamaged(recs[1..], recs[0].id, b);
      RecordNonEmpty(recs[0], prev);
      hide GetRecord;
    }
  }

  lemma NothingIsShort()
    ensures GetUvarint([]) == Err(UnexpectedEOF)
  {
  }

  /** A number that overflows is an error wherever it stands, not a torn tail; so is any other start. */
  lemma DamageIsAnError(recs: seq<Record>, b: seq<Byte>)
    ensures AllEncodable(recs) && GetUvarint(b) == Err(VarintOverflow) ==> ReadSegment(Segment(recs) + b) == Err(VarintOverflow)
    ensures |b| < 8 || b[..8] != Ascii("MMIDX001") ==> ReadSegment(b) == Err(BadMagic)
  {
    assert MAGIC == Ascii("MMIDX001");
    hide Ascii;
    hide RecordsBytes, Replay, GetUvarint;
    if AllEncodable(recs) && GetUvarint(b) == Err(VarintOverflow) {
      ReplayDamaged(recs, 0, b);
      assert Segment(recs) + b == MAGIC + (RecordsBytes(recs, 0) + b);
    }
  }

  // ---------- the bytes themselves ----------

  lemma KnownStr(s: Str)
    requires |s| < 128
    ensures PutStr(s) == [|s|] + s
  {
  }

  lemma KnownLabels(a: Label, b: Label)
    ensures LabelBytes([a, b]) == PutStr(a.name) + PutStr(a.value) + PutStr(b.name) + PutStr(b.value)
  {
    hide PutStr;
    assert [a, b][1..] == [b] && [b][1..] == [];
    assert LabelBytes([b]) == PutStr(b.name) + PutStr(b.value);
  }

  lemma KnownRecords(a: Record, b: Record)
    ensures Segment([a, b]) == MAGIC + RecordBytes(a, 0) + RecordBytes(b, a.id)
  {
    hide RecordBytes;
    assert [a, b][1..] == [b] && [b][1..] == [];
    assert RecordsBytes([b], a.id) == RecordBytes(b, a.id);
  }

  lemma KnownLabelText(a: Label, b: Label)
    requires a == Label([97], [98]) && b == Label([99], [100])
    ensures LabelBytes([a, b]) == [1, 97, 1, 98, 1, 99, 1, 100]
  {
    KnownStr(a.name);
    KnownStr(a.value);
    KnownStr(b.name);
    KnownStr(b.value);
    hide PutStr;
    KnownLabels(a, b);
  }

  /** A segment with series 5, labelled a="b" and c="d", and series 7 without labels. */
  lemma KnownSegment(a: Record, b: Record)
    requires a == Record(5, [Label([97], [98]), Label([99], [100])]) && b == Record(7, [])
    ensures Segment([a, b]) == Ascii("MMIDX001") + [5, 2, 1, 97, 1, 98, 1, 99, 1, 100] + [2, 0]
  {
    assert MAGIC == Ascii("MMIDX001");
    KnownLabelText(Label([97], [98]), Label([99], [100]));
    assert RecordBytes(a, 0) == [5, 2] + LabelBytes(a.labels);
    assert RecordBytes(b, 5) == [2, 0];
    hide RecordBytes, LabelBytes, Segment, Ascii;
    KnownRecords(a, b);
  }
}
