/** One day of data, on the bytes of its parts: storage/partition.go, and smallParts and mergeParts of
    storage/compaction.go. File operations that may fail are left to chance. */
module Partitions {
  import opened Bits
  import opened Contents
  import E = Engine
  import opened Part
  import opened SortedIds
  import opened Varint

  // ---------- the parts on disk ----------

  /** Files that writePart wrote. */
  ghost predicate Written(p: Files) {
    exists data: Series, tier, e :: Countable(data) && p == Layout(data, tier, e)
  }

  ghost predicate AllWritten(dirs: map<PartId, Files>) {
    forall n :: n in dirs ==> Written(dirs[n])
  }

  /** What the bytes of a part mean. */
  function PartOf(p: Files): PartDir {
    PartDir(Decoded(p), p.meta.tier)
  }

  function PartsOf(dirs: map<PartId, Files>): map<PartId, PartDir> {
    map n | n in dirs :: PartOf(dirs[n])
  }

  function Names(parts: seq<PartId>): set<PartId> {
    set n | n in parts
  }

  ghost predicate Distinct(parts: seq<PartId>) {
    forall i, j :: 0 <= i < j < |parts| ==> parts[i] != parts[j]
  }

  lemma WrittenReads(p: Files)
    requires Written(p)
    ensures p.index.Keys <= Decoded(p).Keys
  {
    hide Layout, Decoded;
    var data: Series, tier, e :| Countable(data) && p == Layout(data, tier, e);
    PruningHidesNothing(data, tier, e, {}, 0, 0);
    PartRoundTrip(data, tier, e);
  }

  lemma WrittenRange(p: Files, want: set<SeriesId>, start: Int64, end: Int64)
    requires Written(p)
    ensures Pruned(p, start, end) ==> RangeOf(Decoded(p), want, start, end) == map[]
  {
    hide Layout, Decoded, RangeOf, Pruned;
    var data: Series, tier, e :| Countable(data) && p == Layout(data, tier, e);
    PruningHidesNothing(data, tier, e, want, start, end);
  }

  lemma SortsCountable(sorted: Series, data: Series)
    requires Sorts(sorted, data) && Countable(data)
    ensures Countable(sorted)
  {
    hide IsSortOf;
    forall id | id in sorted ensures |sorted[id]| < TWO_63 {
      SortLength(sorted[id], data[id]);
    }
  }

  /** What writePart writes reads back as the sorted data. */
  lemma WritesParts(p: Files, data: Series, tier: Tier, e: Encoding)
    requires Writes(p, data, tier, e) && Countable(data)
    ensures Written(p) && Sorts(PartOf(p).data, data) && PartOf(p).tier == tier && p.meta.encoding == e
  {
    hide Sorts, Layout, Decoded;
    var sorted: Series :| Sorts(sorted, data) && p == Layout(sorted, tier, e);
    SortsCountable(sorted, data);
    PruningHidesNothing(sorted, tier, e, {}, 0, 0);
    PartRoundTrip(sorted, tier, e);
    MetaOfLayout(sorted, tier, e);
  }

  lemma RangeCount(data: Series, want: set<SeriesId>, start: Int64, end: Int64, id: SeriesId, x: Sample)
    ensures CountIn(RangeOf(data, want, start, end), id, x) ==
            if id in want && InWindow(x, start, end) then CountIn(data, id, x) else 0
  {
    if id in data {
      ClipCount(data[id], start, end, x);
    }
  }

  function SortedSeq(s: seq<Sample>): seq<Sample> {
    if s == [] then [] else InsertSample(s[0], SortedSeq(s[1..]))
  }

  lemma {:induction false} SortedSeqSorts(s: seq<Sample>)
    ensures IsSortOf(SortedSeq(s), s)
  {
    if s != [] {
      SortedSeqSorts(s[1..]);
      InsertSampleSorts(s[0], SortedSeq(s[1..]));
      assert s == [s[0]] + s[1..];
    }
  }

  lemma SortExists(data: Series) returns (sorted: Series)
    ensures Sorts(sorted, data)
  {
    hide SortedSeq, IsSortOf;
    sorted := map id | id in data :: SortedSeq(data[id]);
    forall id | id in data {
      SortedSeqSorts(data[id]);
    }
  }

  // ---------- appending series by series ----------

  ghost predicate AppendedUpTo(out: Series, into: Series, data: Series, ids: seq<SeriesId>, i: nat)
    requires i <= |ids|
  {
    && (forall id :: id in out <==> id in into || id in ids[..i])
    && (forall id :: id in out ==> out[id] == SamplesOf(into, id) + if id in ids[..i] then SamplesOf(data, id) else [])
  }

  lemma AppendedStart(into: Series, data: Series, ids: seq<SeriesId>)
    ensures AppendedUpTo(into, into, data, ids, 0)
  {
  }

  lemma AppendedStep(out: Series, into: Series, data: Series, ids: seq<SeriesId>, i: nat)
    requires i < |ids| && ids[i] in data && ids[i] !in ids[..i] && AppendedUpTo(out, into, data, ids, i)
    ensures AppendedUpTo(out[ids[i] := SamplesOf(out, ids[i]) + data[ids[i]]], into, data, ids, i + 1)
  {
    assert ids[..i + 1] == ids[..i] + [ids[i]];
  }

  lemma AppendedDone(out: Series, into: Series, data: Series, ids: seq<SeriesId>)
    requires AppendedUpTo(out, into, data, ids, |ids|) && forall id :: id in ids <==> id in data
    ensures out == Joined(into, data)
  {
    assert ids[..|ids|] == ids;
    assert out.Keys == Joined(into, data).Keys;
  }

  lemma NotBefore(ids: seq<SeriesId>, i: nat)
    requires i < |ids| && forall j, k :: 0 <= j < k < |ids| ==> ids[j] < ids[k]
    ensures ids[i] !in ids[..i]
  {
  }

  /** The loop of restoreMem, mergeParts and QueryRange. */
  method AppendAll(into: Series, data: Series) returns (out: Series)
    ensures out == Joined(into, data)
  {
    hide *;
    var ids := Keys(data);
    KeysAre(data);
    out := into;
    var i := 0;
    AppendedStart(into, data, ids);
    while i < |ids|
      invariant 0 <= i <= |ids| && AppendedUpTo(out, into, data, ids, i)
    {
      var id := ids[i];
      assert id in ids;
      NotBefore(ids, i);
      AppendedStep(out, into, data, ids, i);
      SamplesAt(out, id);
      out := out[id := (if id in out then out[id] else []) + data[id]];
      i := i + 1;
    }
    AppendedDone(out, into, data, ids);
  }

  lemma SamplesAt(c: Series, id: SeriesId)
    ensures SamplesOf(c, id) == if id in c then c[id] else []
  {
  }

  // ---------- scanning ----------

  /** found is found0 with what the first i parts hold of the wanted series in the window. */
  ghost predicate ScannedUpTo(found: Series, found0: Series, dirs: map<PartId, Files>, parts: seq<PartId>, i: nat,
                              want: set<SeriesId>, start: Int64, end: Int64)
    requires i <= |parts|
  {
    forall id: SeriesId, x: Sample ::
      CountIn(found, id, x) == CountIn(found0, id, x) +
      if id in want && InWindow(x, start, end) then SumOver(Names(parts[..i]), PartsOf(dirs), id, x) else 0
  }

  lemma ScannedStart(found: Series, dirs: map<PartId, Files>, parts: seq<PartId>, want: set<SeriesId>, start: Int64, end: Int64)
    ensures ScannedUpTo(found, found, dirs, parts, 0, want, start, end)
  {
    assert Names(parts[..0]) == {};
  }

  lemma NamesStep(parts: seq<PartId>, i: nat)
    requires i < |parts| && Distinct(parts)
    ensures Names(parts[..i + 1]) == Names(parts[..i]) + {parts[i]} && parts[i] !in Names(parts[..i])
  {
    assert parts[..i + 1] == parts[..i] + [parts[i]];
  }

  lemma ScannedStep(found: Series, found0: Series, dirs: map<PartId, Files>, parts: seq<PartId>, i: nat,
                    want: set<SeriesId>, start: Int64, end: Int64)
    requires i < |parts| && Distinct(parts) && parts[i] in dirs
    requires ScannedUpTo(found, found0, dirs, parts, i, want, start, end)
    ensures ScannedUpTo(Joined(found, RangeOf(Decoded(dirs[parts[i]]), want, start, end)), found0, dirs, parts, i + 1,
                        want, start, end)
  {
    hide Joined, RangeOf, Decoded, CountIn, Names, Distinct, InWindow;
    NamesStep(parts, i);
    var range := RangeOf(Decoded(dirs[parts[i]]), want, start, end);
    forall id: SeriesId, x: Sample
      ensures CountIn(Joined(found, range), id, x) == CountIn(found0, id, x) +
        if id in want && InWindow(x, start, end) then SumOver(Names(parts[..i + 1]), PartsOf(dirs), id, x) else 0
    {
      JoinedCount(found, range, id, x);
      RangeCount(Decoded(dirs[parts[i]]), want, start, end, id, x);
      SumWith(Names(parts[..i]), PartsOf(dirs), id, x, parts[i]);
    }
  }

  // ---------- merging ----------

  /** merged holds what the first i of the named parts hold. */
  ghost predicate MergedUpTo(merged: Series, dirs: map<PartId, Files>, names: seq<PartId>, i: nat)
    requires i <= |names|
  {
    E.MergesInto(Names(names[..i]), PartsOf(dirs), merged)
  }

  lemma MergedStart(dirs: map<PartId, Files>, names: seq<PartId>)
    ensures MergedUpTo(map[], dirs, names, 0)
  {
    assert Names(names[..0]) == {};
  }

  lemma MergedStep(merged: Series, dirs: map<PartId, Files>, names: seq<PartId>, i: nat)
    requires i < |names| && Distinct(names) && names[i] in dirs && MergedUpTo(merged, dirs, names, i)
    ensures MergedUpTo(Joined(merged, Decoded(dirs[names[i]])), dirs, names, i + 1)
  {
    hide Decoded, CountIn, Names, Distinct;
    NamesStep(names, i);
    var data := Decoded(dirs[names[i]]);
    var before, after := Names(names[..i]), Names(names[..i + 1]);
    forall id: SeriesId, x: Sample ensures CountIn(Joined(merged, data), id, x) == SumOver(after, PartsOf(dirs), id, x) {
      JoinedCount(merged, data, id, x);
      SumWith(before, PartsOf(dirs), id, x, names[i]);
    }
    forall id ensures id in Joined(merged, data) <==> exists n :: n in after && n in PartsOf(dirs) && id in PartsOf(dirs)[n].data {
      if id in data {
        assert names[i] in after && id in PartsOf(dirs)[names[i]].data;
      }
    }
  }

  /** dirs' is dirs with the new part id, which holds the sorted data, in Gorilla blocks. */
  ghost predicate Adds(dirs: map<PartId, Files>, id: PartId, dirs': map<PartId, Files>, data: Series, tier: Tier) {
    && id !in dirs && id in dirs' && dirs' == dirs[id := dirs'[id]]
    && Written(dirs'[id]) && Sorts(PartOf(dirs'[id]).data, data) && PartOf(dirs'[id]).tier == tier
    && dirs'[id].meta.encoding == Gorilla && Writes(dirs'[id], data, tier, Gorilla)
  }

  method MaxPart(dirs: map<PartId, Files>) returns (maxID: PartId)
    ensures forall n :: n in dirs ==> n <= maxID
    ensures maxID == 0 || maxID in dirs
  {
    var ids := Ascending(dirs.Keys);
    maxID := 0;
    var i := 0;
    while i < |ids|
      invariant 0 <= i <= |ids| && (maxID == 0 || maxID in dirs)
      invariant forall j :: 0 <= j < i ==> ids[j] <= maxID
    {
      assert ids[i] in dirs;
      if ids[i] > maxID {
        maxID := ids[i];
      }
      i := i + 1;
    }
    assert forall n :: n in dirs ==> n in ids;
  }

  /** How publishing a part ended. Unread: a part to be merged has no directory. Unsaved: the part is in
      place but the manifest was not saved. */
  datatype Outcome = Done | Refused | Unread | Unstaged | Unsaved

  // ---------- the partition object ----------

  class Partition {
    const day: Day
    var parts: seq<PartId>
    var nextID: PartId
    var dropped: bool
    // the directory: part directories, staging directories, manifest.json
    var dirs: map<PartId, Files>
    var staging: map<PartId, Files>
    var manifest: seq<PartId>

    ghost function Dir(): E.DayDir
      reads this
    {
      E.DayDir(PartsOf(dirs), PartsOf(staging), Names(manifest))
    }

    ghost function Live(): E.Partition
      reads this
    {
      E.Partition(Names(parts), nextID)
    }

    ghost predicate Valid()
      reads this
    {
      && Distinct(parts) && (!dropped ==> Names(parts) <= dirs.Keys) && dirs.Keys !! staging.Keys
      && AllWritten(dirs) && AllWritten(staging)
      && forall n :: n in dirs || n in staging ==> n < nextID
    }

    /** openPartition, on the directory a stopped process left. */
    constructor (day: Day, dirs: map<PartId, Files>, staging: map<PartId, Files>, manifest: seq<PartId>)
      requires AllWritten(dirs) && Distinct(manifest) && Names(manifest) <= dirs.Keys
      ensures Valid() && !dropped && this.day == day
      ensures Dir() == E.DayDir(PartsOf(dirs), map[], Names(manifest))
      ensures E.OpensAs(Dir(), Live())
    {
      hide Written, PartOf, Names, Distinct;
      var maxID := MaxPart(dirs);
      this.day, this.dirs, this.staging, this.manifest := day, dirs, map[], manifest;
      parts, nextID, dropped := manifest, maxID + 1, false;
      new;
      assert PartsOf(this.staging) == map[];
    }

    /** What addPart and mergeParts share: the next ID is taken, the part is staged and renamed. */
    method PublishPart(data: Series, tier: Tier) returns (ok: bool)
      requires Valid()
      modifies this`nextID, this`dirs, this`staging
      ensures Valid() && nextID == old(nextID) + 1 && staging == old(staging)
      ensures if ok then Adds(old(dirs), old(nextID), dirs, data, tier) else dirs == old(dirs)
    {
      hide Written, PartOf, Sorts, Writes, Countable, Names, Distinct;
      var id := nextID;
      nextID := nextID + 1;
      var files := WritePart(data, tier, Gorilla);
      staging := staging[id := files];
      var wrote: bool := *;
      if !wrote || !Countable(data) {
        staging := staging - {id};
        return false;
      }
      WritesParts(files, data, tier, Gorilla);
      var renamed: bool := *;
      if !renamed {
        staging := staging - {id};
        return false;
      }
      staging, dirs := staging - {id}, dirs[id := files];
      return true;
    }

    /** addPart. Whatever happens, no part that was listed changes. */
    method AddPart(data: Series) returns (r: Outcome)
      requires Valid()
      modifies this
      ensures Valid() && dropped == old(dropped) && staging == old(staging)
      ensures r != Unread && (r == Refused <==> old(dropped))
      ensures nextID == if r == Refused then old(nextID) else old(nextID) + 1
      ensures r == Refused || r == Unstaged ==> dirs == old(dirs) && manifest == old(manifest) && parts == old(parts)
      ensures r == Done || r == Unsaved ==>
                && Adds(old(dirs), old(nextID), dirs, data, Small) && dirs[old(nextID)].meta.encoding == Gorilla
                && parts == old(parts) + [old(nextID)]
                && manifest == if r == Done then parts else old(manifest)
    {
      hide Written, PartOf, Sorts, Writes, Names, Distinct;
      if dropped {
        return Refused;
      }
      var id := nextID;
      var ok := PublishPart(data, Small);
      if !ok {
        return Unstaged;
      }
      ListPart(id);
      var saved: bool := *;
      if !saved {
        return Unsaved;
      }
      manifest := parts;
      return Done;
    }

    method ListPart(id: PartId)
      requires Valid() && !dropped && id in dirs && id !in Names(parts)
      modifies this`parts
      ensures Valid() && parts == old(parts) + [id]
    {
      hide Written;
      NamesAdd(parts, id);
      DistinctAdd(parts, id);
      parts := parts + [id];
    }

    /** The listed parts of tier small, in order; an error if a listed part has no directory, as those of a
        dropped partition have none. */
    method SmallParts() returns (ok: bool, small: seq<PartId>)
      requires Valid()
      ensures ok <==> Names(parts) <= dirs.Keys
      ensures ok ==> Distinct(small) && Names(small) == E.SmallParts(Dir(), Live())
    {
      small := [];
      var i := 0;
      while i < |parts|
        invariant 0 <= i <= |parts|
        invariant Distinct(small) && Names(parts[..i]) <= dirs.Keys
        invariant forall n :: n in small <==> n in parts[..i] && n in dirs && dirs[n].meta.tier == Small
      {
        assert parts[..i + 1] == parts[..i] + [parts[i]];
        assert parts[i] in Names(parts) && parts[i] !in parts[..i];
        if parts[i] !in dirs {
          return false, [];
        }
        if dirs[parts[i]].meta.tier == Small {
          small := small + [parts[i]];
        }
        i := i + 1;
      }
      assert parts[..i] == parts;
      SmallIs(small);
      return true, small;
    }

    lemma SmallIs(small: seq<PartId>)
      requires forall n :: n in small <==> n in parts && n in dirs && dirs[n].meta.tier == Small
      ensures Names(small) == E.SmallParts(Dir(), Live())
    {
      hide Decoded;
    }

    /** The first half of mergeParts: everything the named parts hold, or an error if one has no directory. */
    method ReadNamed(names: seq<PartId>) returns (ok: bool, merged: Series)
      requires Valid() && Distinct(names)
      ensures ok <==> Names(names) <= dirs.Keys
      ensures ok ==> E.MergesInto(Names(names), Dir().dirs, merged)
    {
      hide Written, MergedUpTo, Decoded, Joined, Distinct;
      merged := map[];
      var i := 0;
      MergedStart(dirs, names);
      while i < |names|
        invariant 0 <= i <= |names| && MergedUpTo(merged, dirs, names, i)
        invariant Names(names[..i]) <= dirs.Keys
      {
        assert names[..i + 1] == names[..i] + [names[i]];
        assert names[i] in Names(names);
        if names[i] !in dirs {
          return false, merged;
        }
        WrittenReads(dirs[names[i]]);
        var data := ReadPartAll(dirs[names[i]]);
        MergedStep(merged, dirs, names, i);
        merged := AppendAll(merged, data.value);
        i := i + 1;
      }
      assert names[..i] == names;
      MergedDone(merged, dirs, names);
      return true, merged;
    }

    /** mergeParts: one big part takes the place of the named ones. Neither whether the partition has been
        dropped nor whether the named parts are still listed is looked at. */
    method MergeParts(names: seq<PartId>) returns (r: Outcome, ghost merged: Series)
      requires Valid() && Distinct(names)
      modifies this
      ensures Valid() && dropped == old(dropped) && r != Refused && staging == old(staging)
      ensures r == Unread <==> !(Names(names) <= old(dirs).Keys)
      ensures nextID == if r == Unread then old(nextID) else old(nextID) + 1
      ensures r != Unread ==> E.MergesInto(Names(names), old(Dir()).dirs, merged)
      ensures r == Unread || r == Unstaged ==> dirs == old(dirs) && manifest == old(manifest) && parts == old(parts)
      ensures r == Unsaved ==>
                Adds(old(dirs), old(nextID), dirs, merged, Big) && manifest == old(manifest) && parts == old(parts)
      ensures r == Done ==>
                && (exists published :: Adds(old(dirs), old(nextID), published, merged, Big) && dirs == published - Names(names))
                && manifest == parts && Names(parts) == Names(old(parts)) - Names(names) + {old(nextID)}
    {
      hide Written, PartOf, Sorts, Writes, E.MergesInto, Distinct, Names;
      var read, data := ReadNamed(names);
      merged := data;
      if !read {
        return Unread, merged;
      }
      var id := nextID;
      var ok := PublishPart(data, Big);
      if !ok {
        return Unstaged, merged;
      }
      ghost var published := dirs;
      var kept := Kept(names, id);
      var saved: bool := *;
      if !saved {
        return Unsaved, merged;
      }
      manifest := kept;
      parts := kept;
      RemoveNamed(names);
      return Done, merged;
    }

    /** The part list without names and with id, sorted. */
    method Kept(names: seq<PartId>, id: PartId) returns (kept: seq<PartId>)
      ensures Distinct(kept) && Names(kept) == Names(parts) - Names(names) + {id}
    {
      var removed := Names(names);
      var left: set<PartId> := {};
      var i := 0;
      while i < |parts|
        invariant 0 <= i <= |parts|
        invariant left == Names(parts[..i]) - removed
      {
        assert parts[..i + 1] == parts[..i] + [parts[i]];
        if parts[i] !in removed {
          left := left + {parts[i]};
        }
        i := i + 1;
      }
      assert parts[..i] == parts;
      var sorted := Ascending(left + {id});
      kept := [];
      i := 0;
      while i < |sorted|
        invariant 0 <= i <= |sorted| && |kept| == i
        invariant forall j :: 0 <= j < i ==> kept[j] == sorted[j]
      {
        assert sorted[i] in left + {id};
        kept := kept + [sorted[i]];
        i := i + 1;
      }
      forall n ensures n in Names(kept) <==> n in left + {id} {
        assert n in left + {id} ==> n in sorted;
      }
    }

    method RemoveNamed(names: seq<PartId>)
      modifies this`dirs
      ensures dirs == old(dirs) - Names(names)
    {
      var i := 0;
      assert dirs == old(dirs) - Names(names[..0]);
      while i < |names|
        invariant 0 <= i <= |names| && dirs == old(dirs) - Names(names[..i])
      {
        assert names[..i + 1] == names[..i] + [names[i]];
        dirs := dirs - {names[i]};
        i := i + 1;
      }
      assert names[..i] == names;
    }

    /** One locked scan of QueryRange: what the live parts hold of the wanted series in the window is
        added to found, each copy once; nothing if the partition has been dropped. */
    method Scan(found0: Series, want: set<SeriesId>, start: Int64, end: Int64) returns (found: Series)
      requires Valid()
      ensures forall id: SeriesId, x: Sample ::
                CountIn(found, id, x) == CountIn(found0, id, x) +
                if !dropped && id in want && InWindow(x, start, end) then SumOver(Live().parts, Dir().dirs, id, x) else 0
    {
      hide Written, ScannedUpTo, Decoded, Joined, RangeOf, Pruned, Distinct;
      found := found0;
      if dropped {
        return;
      }
      var i := 0;
      ScannedStart(found, dirs, parts, want, start, end);
      while i < |parts|
        invariant 0 <= i <= |parts| && ScannedUpTo(found, found0, dirs, parts, i, want, start, end)
      {
        assert parts[i] in Names(parts);
        var p := dirs[parts[i]];
        WrittenReads(p);
        WrittenRange(p, want, start, end);
        var blocks := ReadPart(p, want, start, end);
        assert blocks.Ok? && blocks.value == RangeOf(Decoded(p), want, start, end);
        ScannedStep(found, found0, dirs, parts, i, want, start, end);
        found := AppendAll(found, blocks.value);
        i := i + 1;
      }
      ScannedDone(found, found0, dirs, parts, want, start, end);
    }

    /** Retention: the flag first, then the directory. */
    method Drop()
      requires Valid()
      modifies this
      ensures Valid() && dropped && dirs == map[] && staging == map[] && manifest == []
      ensures parts == old(parts) && nextID == old(nextID)
    {
      dropped := true;
      dirs, staging, manifest := map[], map[], [];
    }
  }

  lemma MergedDone(merged: Series, dirs: map<PartId, Files>, names: seq<PartId>)
    requires MergedUpTo(merged, dirs, names, |names|)
    ensures E.MergesInto(Names(names), PartsOf(dirs), merged)
  {
    assert names[..|names|] == names;
  }

  lemma ScannedDone(found: Series, found0: Series, dirs: map<PartId, Files>, parts: seq<PartId>,
                    want: set<SeriesId>, start: Int64, end: Int64)
    requires ScannedUpTo(found, found0, dirs, parts, |parts|, want, start, end)
    ensures forall id: SeriesId, x: Sample ::
              CountIn(found, id, x) == CountIn(found0, id, x) +
              if id in want && InWindow(x, start, end) then SumOver(Names(parts), PartsOf(dirs), id, x) else 0
  {
    assert parts[..|parts|] == parts;
  }

  lemma NamesAdd(parts: seq<PartId>, id: PartId)
    ensures Names(parts + [id]) == Names(parts) + {id}
  {
  }

  lemma {:induction false} DistinctSize(parts: seq<PartId>)
    requires Distinct(parts)
    ensures |Names(parts)| == |parts|
  {
    if parts != [] {
      var init, last := parts[..|parts| - 1], parts[|parts| - 1];
      DistinctSize(init);
      assert parts == init + [last];
      NamesAdd(init, last);
      assert last !in Names(init);
    } else {
      assert Names(parts) == {};
    }
  }

  lemma DistinctAdd(parts: seq<PartId>, id: PartId)
    requires Distinct(parts) && id !in Names(parts)
    ensures Distinct(parts + [id])
  {
  }
}
