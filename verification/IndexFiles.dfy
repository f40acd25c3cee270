/** A directory of index segments replayed in order: loadRegistry and loadInverted of storage/storage.go
    on the bytes appendIndexSegment writes. The state machine keeps the union of the entries instead. */
module IndexFiles {
  import opened Bits
  import opened IndexSegment
  import opened Labels
  import opened Results
  import opened Varint

  type SegmentEntries = map<UInt64, seq<Label>>

  /** m after the records recs, in order. */
  function Folded(m: SegmentEntries, recs: seq<Record>): SegmentEntries {
    if recs == [] then m
    else
      var last := recs[|recs| - 1];
      Folded(m, recs[..|recs| - 1])[last.id := last.labels]
  }

  /** All segments of a directory, replayed in order of their names. */
  function ReplayedFiles(files: seq<seq<Byte>>): Result<SegmentEntries> {
    if files == [] then Ok(map[])
    else
      var before :- ReplayedFiles(files[..|files| - 1]);
      var recs :- ReadSegment(files[|files| - 1]);
      Ok(Folded(before, recs))
  }

  function Union(parts: seq<SegmentEntries>): SegmentEntries {
    if parts == [] then map[] else Union(parts[..|parts| - 1]) + parts[|parts| - 1]
  }

  predicate AllStorable(entries: SegmentEntries) {
    forall id :: id in entries ==> Encodable(entries[id])
  }

  /** The segments that flushes of parts leave. */
  function FilesOf(parts: seq<SegmentEntries>): (files: seq<seq<Byte>>)
    ensures |files| == |parts|
  {
    seq(|parts|, i requires 0 <= i < |parts| => Segment(SortedRecords(parts[i])))
  }

  function Ids(recs: seq<Record>): set<UInt64> {
    if recs == [] then {} else Ids(recs[..|recs| - 1]) + {recs[|recs| - 1].id}
  }

  /** The entries of recs. */
  function Restricted(entries: SegmentEntries, recs: seq<Record>): SegmentEntries {
    map id | id in entries && id in Ids(recs) :: entries[id]
  }

  ghost predicate Repeats(recs: seq<Record>, entries: SegmentEntries) {
    forall r :: r in recs ==> r.id in entries && r.labels == entries[r.id]
  }

  lemma {:induction false} FoldedRestricted(m: SegmentEntries, entries: SegmentEntries, recs: seq<Record>)
    requires Repeats(recs, entries)
    ensures Folded(m, recs) == m + Restricted(entries, recs)
  {
    if recs == [] {
      assert Restricted(entries, recs) == map[];
      assert m + map[] == m;
    } else {
      var init, last := recs[..|recs| - 1], recs[|recs| - 1];
      assert last in recs;
      FoldedRestricted(m, entries, init);
      OneMore(entries, init, last);
      assert recs == init + [last];
    }
  }

  lemma OneMore(entries: SegmentEntries, init: seq<Record>, last: Record)
    requires last.id in entries && last.labels == entries[last.id]
    ensures Restricted(entries, init + [last]) == Restricted(entries, init)[last.id := last.labels]
  {
    assert (init + [last])[..|init|] == init;
    assert Ids(init + [last]) == Ids(init) + {last.id};
    hide Ids;
    var a, b := Restricted(entries, init + [last]), Restricted(entries, init)[last.id := last.labels];
    assert a.Keys == b.Keys;
  }

  lemma {:induction false} IdsIn(recs: seq<Record>, i: nat)
    requires i < |recs|
    ensures recs[i].id in Ids(recs)
  {
    if i < |recs| - 1 {
      IdsIn(recs[..|recs| - 1], i);
    }
  }

  lemma SortedRepeats(entries: SegmentEntries, n: nat)
    requires n <= |SortedRecords(entries)|
    ensures Repeats(SortedRecords(entries)[..n], entries)
  {
  }

  lemma AllOfThem(entries: SegmentEntries)
    ensures Restricted(entries, SortedRecords(entries)) == entries
  {
    var recs := SortedRecords(entries);
    forall id | id in entries ensures id in Ids(recs) {
      var i :| 0 <= i < |recs| && recs[i].id == id;
      IdsIn(recs, i);
    }
    hide SortedRecords;
  }

  /** Replaying every segment gives the union of all that was ever written. */
  lemma {:induction false} FilesReplay(parts: seq<SegmentEntries>)
    requires forall i :: 0 <= i < |parts| ==> AllStorable(parts[i])
    ensures ReplayedFiles(FilesOf(parts)) == Ok(Union(parts))
  {
    hide AllStorable, Segment, ReadSegment, Folded;
    if parts != [] {
      var n := |parts| - 1;
      var files := FilesOf(parts);
      FilesReplay(parts[..n]);
      assert files[..n] == FilesOf(parts[..n]);
      WholeFile(parts[n], Union(parts[..n]));
    }
  }

  lemma WholeFile(entries: SegmentEntries, m: SegmentEntries)
    requires AllStorable(entries)
    ensures ReadSegment(Segment(SortedRecords(entries))) == Ok(SortedRecords(entries))
    ensures Folded(m, SortedRecords(entries)) == m + entries
  {
    SegmentRoundTrip(entries);
    hide *;
    var recs := SortedRecords(entries);
    assert recs[..|recs|] == recs;
    SortedRepeats(entries, |recs|);
    FoldedRestricted(m, entries, recs);
    AllOfThem(entries);
  }

  /** If the last segment is cut anywhere after its magic number, replay still succeeds: everything older
      is there, and of the last one exactly the records wholly within the cut. */
  lemma TornLastFile(parts: seq<SegmentEntries>, last: SegmentEntries, k: nat)
    requires (forall i :: 0 <= i < |parts| ==> AllStorable(parts[i])) && AllStorable(last)
    requires 8 <= k <= |Segment(SortedRecords(last))|
    ensures var recs := SortedRecords(last);
            ReplayedFiles(FilesOf(parts) + [Segment(recs)[..k]]) ==
            Ok(Union(parts) + Restricted(last, recs[..WholeRecords(recs, 0, k - 8)]))
  {
    FilesReplay(parts);
    hide Segment, ReadSegment, Folded, Restricted, SortedRecords, WholeRecords, FilesOf, Union, Repeats;
    var recs := SortedRecords(last);
    var m := WholeRecords(recs, 0, k - 8);
    var files := FilesOf(parts) + [Segment(recs)[..k]];
    assert files[..|parts|] == FilesOf(parts);
    TornTail(last, k);
    SortedRepeats(last, m);
    FoldedRestricted(Union(parts), last, recs[..m]);
  }
}
