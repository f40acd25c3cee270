/** The storage object: storage/storage.go, compaction.go, retention.go and query.go. Each method is one
    call that nothing interrupts, and is shown to take steps of the state machine; what happens when
    calls overlap is the machine's subject. File operations that may fail are left to chance. */
module Storages {
  import opened Contents
  import opened Cutoffs
  import opened DayNames
  import opened DayTurns
  import E = Engine
  import opened EngineInvariant
  import opened EngineLedger
  import opened EnginePaths
  import opened EngineQuery
  import opened Grouping
  import opened Labels
  import opened Part
  import P = Partitions
  import opened Program
  import opened ProgramLedger
  import opened SortedIds
  import S = Series
  import T = EngineTheorems
  import opened Varint

  /** A day directory as bytes. */
  datatype DayFiles = DayFiles(dirs: map<PartId, Files>, staging: map<PartId, Files>, manifest: seq<PartId>)

  ghost predicate WellFormed(days: map<Day, DayFiles>) {
    forall d :: d in days ==> P.AllWritten(days[d].dirs) && P.Distinct(days[d].manifest)
  }

  ghost function DayDirOf(f: DayFiles): E.DayDir {
    E.DayDir(P.PartsOf(f.dirs), P.PartsOf(f.staging), P.Names(f.manifest))
  }

  ghost function DiskOf(forward: E.Entries, inverted: map<Day, E.Entries>, days: map<Day, DayFiles>): E.Disk {
    E.Disk(forward, inverted, map d | d in days :: DayDirOf(days[d]))
  }

  datatype FlushResult = Flushed | RegistryUnsaved | DayUnsaved(day: Day) | ManifestUnsaved(day: Day)

  datatype SeriesResult = SeriesResult(id: SeriesId, labels: seq<Label>, samples: seq<Sample>)

  /** The occurrences of x in the results for series id. */
  function ResultCount(results: seq<SeriesResult>, id: SeriesId, x: Sample): nat {
    if results == [] then 0
    else
      var r := results[|results| - 1];
      ResultCount(results[..|results| - 1], id, x) + if r.id == id then multiset(r.samples)[x] else 0
  }

  predicate InOrder(results: seq<SeriesResult>) {
    forall i, j :: 0 <= i < j < |results| ==> results[i].id < results[j].id
  }

  predicate WellFormedResult(r: S.State, result: SeriesResult) {
    result.samples != [] && SortedByTime(result.samples) && result.labels == S.LabelsOf(r, result.id)
  }

  /** The answer to a query: the matching series in ascending order of ID, each with its labels and, sorted
      by time, exactly the samples of the window that the engine holds. */
  ghost predicate IsAnswer(s: E.Sys, matchers: seq<S.Matcher>, start: Int64, end: Int64, results: seq<SeriesResult>) {
    && InOrder(results) && (forall i :: 0 <= i < |results| ==> WellFormedResult(s.reg, results[i]))
    && forall id: SeriesId, x: Sample ::
         ResultCount(results, id, x) ==
         if matchers != [] && id in S.Matching(s.reg.inverted, matchers) && InWindow(x, start, end)
         then Total(Held(s, id, x)) else 0
  }

  ghost predicate OpenedAs(p: P.Partition, d: Day, f: DayFiles)
    reads p
  {
    && p.day == d && p.Valid() && !p.dropped
    && p.Dir() == E.Cleaned(DayDirOf(f)) && E.OpensAs(p.Dir(), p.Live())
  }

  lemma ListedDirs(f: DayFiles)
    requires DayDirOf(f).manifest <= DayDirOf(f).dirs.Keys
    ensures P.Names(f.manifest) <= f.dirs.Keys
  {
    hide P.PartOf;
    assert DayDirOf(f).dirs.Keys == f.dirs.Keys;
  }

  method OpenPartition(d: Day, f: DayFiles) returns (p: P.Partition)
    requires P.AllWritten(f.dirs) && P.Distinct(f.manifest) && DayDirOf(f).manifest <= DayDirOf(f).dirs.Keys
    ensures fresh(p) && OpenedAs(p, d, f)
  {
    hide P.Partition.Valid, P.AllWritten, P.Distinct, E.OpensAs, P.PartsOf;
    ListedDirs(f);
    p := new P.Partition(d, f.dirs, f.staging, f.manifest);
  }

  lemma SoundLoads(forward: E.Entries, inverted: map<Day, E.Entries>, days: map<Day, DayFiles>)
    requires Sound(DiskOf(forward, inverted, days))
    ensures S.Loadable(forward)
  {
    hide S.Loadable, DurableOk, PartsOk, DayDirOf;
  }

  lemma SoundDirs(forward: E.Entries, inverted: map<Day, E.Entries>, days: map<Day, DayFiles>)
    requires Sound(DiskOf(forward, inverted, days))
    ensures forall d :: d in days ==> DayDirOf(days[d]).manifest <= DayDirOf(days[d]).dirs.Keys
  {
    hide S.Loadable, DurableOk, PartsOk, DayDirOf;
    forall d | d in days ensures DayDirOf(days[d]).manifest <= DayDirOf(days[d]).dirs.Keys {
      assert DiskOf(forward, inverted, days).days[d] == DayDirOf(days[d]);
    }
  }

  ghost predicate AllOpen(ps: map<Day, P.Partition>)
    reads ps.Values
  {
    forall d :: d in ps ==> ps[d].day == d && ps[d].Valid() && !ps[d].dropped
  }

  ghost function DirsOf(ps: map<Day, P.Partition>): map<Day, E.DayDir>
    reads ps.Values
  {
    map d | d in ps :: ps[d].Dir()
  }

  ghost function LivesOf(ps: map<Day, P.Partition>): map<Day, E.Partition>
    reads ps.Values
  {
    map d | d in ps :: ps[d].Live()
  }

  /** The partitions of the first i days are open. */
  ghost predicate OpenedUpTo(ps: map<Day, P.Partition>, days: map<Day, DayFiles>, list: seq<Day>, i: nat)
    requires i <= |list|
    reads ps.Values
  {
    && (forall d :: d in ps <==> d in list[..i])
    && forall d :: d in ps ==> d in days && OpenedAs(ps[d], d, days[d])
  }

  ghost predicate OpensDays(ps: map<Day, P.Partition>, days: map<Day, DayFiles>)
    reads ps.Values
  {
    ps.Keys == days.Keys && forall d :: d in ps ==> OpenedAs(ps[d], d, days[d])
  }

  lemma AllOpened(ps: map<Day, P.Partition>, days: map<Day, DayFiles>)
    requires OpensDays(ps, days)
    ensures AllOpen(ps) && DirsOf(ps).Keys == LivesOf(ps).Keys == days.Keys
    ensures forall d :: d in days ==>
              DirsOf(ps)[d] == E.Cleaned(DayDirOf(days[d])) && E.OpensAs(DirsOf(ps)[d], LivesOf(ps)[d])
  {
    hide P.Partition.Valid, P.Partition.Dir, P.Partition.Live, E.Cleaned, E.OpensAs, DayDirOf;
  }

  /** loadPartitions. */
  method OpenPartitions(days: map<Day, DayFiles>) returns (ps: map<Day, P.Partition>)
    requires WellFormed(days) && forall d :: d in days ==> DayDirOf(days[d]).manifest <= DayDirOf(days[d]).dirs.Keys
    ensures OpensDays(ps, days) && forall d :: d in ps ==> fresh(ps[d])
  {
    hide OpenedAs, DayDirOf, P.AllWritten, P.Distinct, Ascending;
    var todo := Ascending(days.Keys);
    ps := map[];
    var i := 0;
    while i < |todo|
      invariant 0 <= i <= |todo| && OpenedUpTo(ps, days, todo, i)
      invariant forall d :: d in ps ==> fresh(ps[d])
    {
      var d := todo[i];
      AscendingAt(days.Keys, i);
      var p := OpenPartition(d, days[d]);
      OpenedStep(ps, days, todo, i, p);
      ps := ps[d := p];
      i := i + 1;
    }
    hide OpenedUpTo, OpensDays;
    OpenedAll(ps, days);
  }

  lemma OpenedStep(ps: map<Day, P.Partition>, days: map<Day, DayFiles>, list: seq<Day>, i: nat, p: P.Partition)
    requires i < |list| && list[..i + 1] == list[..i] + [list[i]] && list[i] in days
    requires OpenedUpTo(ps, days, list, i) && OpenedAs(p, list[i], days[list[i]])
    ensures OpenedUpTo(ps[list[i] := p], days, list, i + 1)
  {
    hide OpenedAs;
  }

  lemma OpenedAll(ps: map<Day, P.Partition>, days: map<Day, DayFiles>)
    requires OpenedUpTo(ps, days, Ascending(days.Keys), |Ascending(days.Keys)|)
    ensures OpensDays(ps, days)
  {
    hide OpenedAs, Ascending;
    var list := Ascending(days.Keys);
    AscendingAll(days.Keys);
    forall d: Day ensures d in ps.Keys <==> d in days.Keys {
      assert d in list[..|list|] <==> d in days.Keys;
    }
  }

  lemma OpenedDisk(forward: E.Entries, inverted: map<Day, E.Entries>, days: map<Day, DayFiles>, s: E.Sys)
    requires s.disk.days.Keys == days.Keys == s.partitions.Keys
    requires forall d :: d in days ==> s.disk.days[d] == E.Cleaned(DayDirOf(days[d])) && E.OpensAs(s.disk.days[d], s.partitions[d])
    requires s.disk.forward == forward && s.disk.inverted == inverted && S.Replays(s.reg, forward, inverted)
    requires s.mem == map[] && s.appends == map[]
    requires s.flush == E.FIdle && s.merge == E.MIdle && s.retention == E.RIdle && s.query == E.QIdle
    ensures E.Reopened(DiskOf(forward, inverted, days), s)
  {
    hide S.Replays, DayDirOf, E.OpensAs, E.Cleaned;
    var disk := DiskOf(forward, inverted, days);
    forall d | d in days ensures E.Cleaned(disk.days[d]) == s.disk.days[d] {
      assert disk.days[d] == DayDirOf(days[d]);
    }
    assert s.disk.days.Keys == disk.days.Keys == E.CleanDisk(disk).days.Keys;
  }

  // ---------- the storage object ----------

  class Storage {
    const registry: S.Registry
    var mem: Series
    var partitions: map<Day, P.Partition>
    var smallPartsMergeThreshold: nat
    // series/indexdb and series/inverted
    var forward: E.Entries
    var inverted: map<Day, E.Entries>
    ghost var cutoff: Day

    ghost function Days(): map<Day, E.DayDir>
      reads this`partitions, partitions.Values
    {
      DirsOf(partitions)
    }

    ghost function Lives(): map<Day, E.Partition>
      reads this`partitions, partitions.Values
    {
      LivesOf(partitions)
    }

    /** The machine's state while no call is under way. */
    ghost function Get(): E.Sys
      reads this, registry, partitions.Values
    {
      E.Sys(E.Disk(forward, inverted, Days()), registry.Get(), mem, Lives(), map[],
            E.FIdle, E.MIdle, E.RIdle, E.QIdle, cutoff)
    }

    ghost predicate Shape()
      reads this`partitions, partitions.Values
    {
      AllOpen(partitions)
    }

    ghost predicate Valid()
      reads this, registry, partitions.Values
    {
      Shape() && Inv(Get())
    }

    /** Open, on what a stopped process left on disk. */
    constructor Open(forward: E.Entries, inverted: map<Day, E.Entries>, days: map<Day, DayFiles>, ghost cutoff: Day)
      requires Sound(DiskOf(forward, inverted, days)) && WellFormed(days)
      ensures Valid() && E.Reopened(DiskOf(forward, inverted, days), Get())
      ensures smallPartsMergeThreshold == 3 && this.cutoff == cutoff
    {
      hide AllOpen, DirsOf, LivesOf, OpensDays;
      hide Inv, S.Replays, P.Written, Sound, E.Cleaned, E.OpensAs, E.Reopened, DiskOf, DayDirOf, WellFormed;
      SoundLoads(forward, inverted, days);
      SoundDirs(forward, inverted, days);
      var r := new S.Registry();
      r.Load(forward, inverted);
      var ps := OpenPartitions(days);
      registry, mem, partitions, smallPartsMergeThreshold := r, map[], ps, 3;
      this.forward, this.inverted, this.cutoff := forward, inverted, cutoff;
      new;
      AllOpened(ps, days);
      OpenedDisk(forward, inverted, days, Get());
      ReopenedInv(DiskOf(forward, inverted, days), Get());
    }

    // ---------- Append ----------

    method IndexDays(days: set<Day>, id: SeriesId)
      modifies registry
      ensures registry.Get() == IndexedAll(old(registry.Get()), Ascending(days), id)
    {
      hide S.IndexedForDay, Ascending;
      var list := Ascending(days);
      assert list[..0] == [];
      var i := 0;
      while i < |list|
        invariant 0 <= i <= |list| && registry.Get() == IndexedAll(old(registry.Get()), list[..i], id)
      {
        assert list[..i + 1][..i] == list[..i];
        registry.IndexForDay(list[i], id);
        i := i + 1;
      }
      assert list[..i] == list;
    }

    /** Append. */
    method Append(labels: seq<Label>, samples: seq<Sample>) returns (id: SeriesId)
      requires Valid()
      modifies this`mem, registry
      ensures Valid() && Reaches(old(Get()), Get())
      ensures samples == [] ==> id == 0 && Get() == old(Get())
      ensures samples != [] ==>
                id == S.ResolvedId(old(registry.Get()), labels) && Get() == AfterAppend(old(Get()), labels, samples)
    {
      hide Inv, Reaches, Joined, S.Resolved, S.ResolvedId, E.SamplesDays, E.Singleton, AllOpen, Days, Lives, IndexedAll;
      ReachesSelf(Get());
      if |samples| == 0 {
        return 0;
      }
      ghost var s0 := Get();
      id := BufferSamples(labels, samples);
      AppendPath(s0, labels, samples);
      ReachesInv(s0, Get());
    }

    method BufferSamples(labels: seq<Label>, samples: seq<Sample>) returns (id: SeriesId)
      modifies this`mem, registry
      ensures id == S.ResolvedId(old(registry.Get()), labels) && Get() == AfterAppend(old(Get()), labels, samples)
      ensures Days() == old(Days()) && Lives() == old(Lives())
    {
      hide Joined, S.Resolved, S.ResolvedId, E.SamplesDays, E.Singleton, Days, Lives, IndexedAll, CanonicalKey;
      id := registry.Resolve(labels);
      IndexDays(E.SamplesDays(samples), id);
      JoinedSingle(mem, id, samples);
      mem := mem[id := (if id in mem then mem[id] else []) + samples];
    }

    // ---------- Flush ----------

    /** persistDayIndex. */
    method PersistDayIndex(day: Day, data: Series) returns (ok: bool)
      requires data.Keys <= registry.names.Keys
      modifies this`inverted, registry
      ensures Get() == if ok then IndexedDay(old(Get()), day, data.Keys) else old(Get())
    {
      hide Days, Lives, S.Unindexed, E.EntriesFor;
      var newIDs := registry.UnindexedIDs(day, data.Keys);
      UnindexedFew(registry.Get(), day, data.Keys);
      if newIDs == {} {
        NothingMarked(registry.Get(), day);
        return true;
      }
      var entries := EntriesOf(newIDs);
      var saved: bool := *;
      if !saved {
        return false;
      }
      inverted := inverted[day := (if day in inverted then inverted[day] else map[]) + entries];
      registry.MarkIndexed(day, newIDs);
      return true;
    }

    method EntriesOf(ids: set<SeriesId>) returns (entries: E.Entries)
      requires ids <= registry.names.Keys
      ensures entries == E.EntriesFor(registry.Get(), ids)
    {
      hide Ascending;
      var list := Ascending(ids);
      entries := map[];
      var i := 0;
      while i < |list|
        invariant 0 <= i <= |list|
        invariant forall id :: id in entries <==> id in list[..i]
        invariant forall id :: id in entries ==> id in registry.names && entries[id] == registry.names[id]
      {
        AscendingAt(ids, i);
        entries := entries[list[i] := registry.names[list[i]]];
        i := i + 1;
      }
      AscendingAll(ids);
      assert entries.Keys == E.EntriesFor(registry.Get(), ids).Keys;
    }

    /** getPartition. */
    method GetPartition(day: Day) returns (ok: bool)
      requires Shape()
      modifies this`partitions
      ensures Shape()
      ensures !ok || day in old(partitions) ==> partitions == old(partitions)
      ensures ok ==> day in partitions
      ensures ok && day !in old(partitions) ==>
                && partitions == old(partitions)[day := partitions[day]] && fresh(partitions[day])
                && Get() == DayOpened(old(Get()), day, Lives()[day]) && E.OpensAs(E.NEW_DIR, Lives()[day])
      ensures !ok || day in old(partitions) ==> Get() == old(Get())
    {
      hide AllOpen, DirsOf, LivesOf, P.Partition.Valid, E.IsNext, P.PartsOf;
      if day in partitions {
        return true;
      }
      var made: bool := *;
      if !made {
        return false;
      }
      NothingOnDisk();
      var p := new P.Partition(day, map[], map[], []);
      PartitionAdded(partitions, day, p);
      partitions := partitions[day := p];
      return true;
    }

    /** addPart on the partition of day, when no day is dropped. */
    method AddTo(day: Day, data: Series) returns (r: P.Outcome, ghost sorted: Series)
      requires Shape() && day in partitions
      modifies partitions[day]
      ensures Shape() && r != P.Refused && r != P.Unread && Sorts(sorted, data)
      ensures Get() == if r == P.Unstaged then IdTaken(old(Get()), day)
                       else if r == P.Done then PartAdded(old(Get()), day, PartDir(sorted, Small))
                       else PartUnsaved(old(Get()), day, PartDir(sorted, Small))
    {
      hide AllOpen, DirsOf, LivesOf, Sorts, P.Written, P.PartOf, P.Partition.Valid, P.Distinct, P.Adds;
      var p := partitions[day];
      OneOpen(partitions, day);
      ghost var rest := partitions - {day};
      PartitionAdded(rest, day, p);
      ghost var s, dirs, lives, dd, live := Get(), DirsOf(rest), LivesOf(rest), p.Dir(), p.Live();
      r := p.AddPart(data);
      PartitionAdded(rest, day, p);
      DayChanged(s, Get(), dirs, lives, day, dd, live, p.Dir(), p.Live());
      if r == P.Unstaged {
        sorted := P.SortExists(data);
      } else {
        AddsParts(old(p.dirs), live.nextID, p.dirs, data, Small);
        P.NamesAdd(old(p.parts), live.nextID);
        sorted := P.PartOf(p.dirs[live.nextID]).data;
      }
    }

    /** The same as a turn of that day. */
    method AddTurn(day: Day, data: Series) returns (r: P.Outcome, ghost sorted: Series)
      requires Shape() && day in partitions
      modifies partitions[day]
      ensures Shape() && r != P.Refused && r != P.Unread && Sorts(sorted, data)
      ensures Get() == if r == P.Unstaged then IdTaken(old(Get()), day)
                       else if r == P.Done then PartAdded(old(Get()), day, PartDir(sorted, Small))
                       else PartUnsaved(old(Get()), day, PartDir(sorted, Small))
      ensures OthersKept(old(Get()), Get(), day) && AddsTo(DayOn(old(Get()), day), data, r, DayOn(Get(), day))
    {
      hide Shape, Days, Lives, Sorts, DayOn, OthersKept, AddsTo, PartAdded, IdTaken, PartUnsaved;
      ghost var s := Get();
      LivesKeys();
      r, sorted := AddTo(day, data);
      AddedTurn(s, day, data, sorted, r, Get());
    }

    /** The first two calls of a day of Flush: its index is persisted, its partition opened. */
    method PrepareDay(day: Day, data: Series, ghost batch: Series, ghost todo: set<Day>) returns (ok: bool, ghost f: E.Flush)
      requires Shape() && Inv(Visiting(Get(), batch, todo)) && day in todo && data == DayPart(batch, day)
      modifies this`inverted, this`partitions, registry
      ensures Shape() && Leads(Visiting(old(Get()), batch, todo), Get().(flush := f), Silent)
      ensures forall d :: d in old(partitions) ==> d in partitions && partitions[d] == old(partitions[d])
      ensures forall d :: d in partitions && d !in old(partitions) ==> fresh(partitions[d])
      ensures if ok then day in partitions && f == E.FDay(batch, todo, day, E.Opened)
              else f == E.FVisiting(batch, todo) || f == E.FDay(batch, todo, day, E.Indexed)
      ensures OthersKept(old(Get()), Get(), day) && DayOn(Get(), day) == DayOn(old(Get()), day)
    {
      hide Inv, Reaches, HeldChanges, DayPart, Shape, Days, Lives, IndexedDay, E.IsNext, DayOn, OthersKept;
      ghost var s := Visiting(Get(), batch, todo);
      f := E.FVisiting(batch, todo);
      BatchNamed(s, day);
      SilentSelf(s);
      ok := PersistDayIndex(day, data);
      IndexedTurn(old(Get()), day, data.Keys, Get());
      ghost var g := Get();
      if !ok {
        return;
      }
      IndexPath(s, day);
      IndexFrame(old(Get()), day, data.Keys, f);
      f := E.FDay(batch, todo, day, E.Indexed);
      ghost var s1 := Get().(flush := f);
      LivesKeys();
      ok := GetPartition(day);
      OpensTurn(old(Get()), g, day, Get());
      if !ok {
        return;
      }
      ghost var p := if day in old(partitions) then E.Partition({}, 1) else Lives()[day];
      FirstPartition();
      OpenDayPath(s, s1, p);
      f := E.FDay(batch, todo, day, E.Opened);
    }

    /** The third: its part is added. */
    method FlushPart(day: Day, data: Series, ghost s: E.Sys, ghost f: E.Flush) returns (r: P.Outcome)
      requires Shape() && day in partitions && f.FDay? && f.day == day && f.stage == E.Opened && data == DayPart(f.batch, day)
      requires Leads(s, Get().(flush := f), Silent)
      modifies this`mem, partitions[day]
      ensures Shape() && r != P.Refused && r != P.Unread
      ensures r == P.Done ==>
                mem == old(mem) && Leads(s, Get().(flush := E.FVisiting(f.batch, f.todo - {day})), Persisted(day))
      ensures r == P.Unstaged ==> mem == Joined(old(mem), data) && Leads(s, Get(), Event.DayFailed(day))
      ensures r == P.Unsaved ==> mem == Joined(old(mem), data) && Leads(s, Get(), Unsaved(day))
      ensures OthersKept(old(Get()), Get(), day) && AddsTo(DayOn(old(Get()), day), data, r, DayOn(Get(), day))
    {
      hide Inv, Reaches, HeldChanges, DayPart, Shape, Days, Lives, Sorts, Permutes, Joined, DayOn, OthersKept, AddsTo;
      hide PartAdded, IdTaken, PartUnsaved, PartOrphaned;
      ghost var g := Get();
      LivesKeys();
      ghost var sorted;
      r, sorted := AddTurn(day, data);
      ghost var added := Get();
      FlushFrame(g, day, PartDir(sorted, Small), f);
      if r == P.Unstaged {
        PermutesSelf(data);
        FlushDayFailsPath(s, g.(flush := f), sorted, data);
        mem := P.AppendAll(mem, data);
      } else if r == P.Done {
        FlushDayPath(s, g.(flush := f), sorted);
      } else {
        PermutesSelf(data);
        FlushUnsavedPath(s, g.(flush := f), sorted, data);
        mem := P.AppendAll(mem, data);
      }
      SameTurn(g, added, day, Get());
    }

    /** One day of a flush. */
    method FlushDay(day: Day, data: Series, ghost batch: Series, ghost todo: set<Day>) returns (r: P.Outcome)
      requires Shape() && Inv(Visiting(Get(), batch, todo)) && day in todo && data == DayPart(batch, day)
      modifies this`mem, this`inverted, this`partitions, registry, partitions.Values
      ensures Shape() && r != P.Refused && r != P.Unread
      ensures forall d :: d in old(partitions) ==> d in partitions && partitions[d] == old(partitions[d])
      ensures forall d :: d in partitions && d !in old(partitions) ==> fresh(partitions[d])
      ensures r == P.Done ==>
                day in partitions && mem == old(mem) &&
                Leads(Visiting(old(Get()), batch, todo), Visiting(Get(), batch, todo - {day}), Persisted(day))
      ensures r == P.Unstaged ==>
                mem == Joined(old(mem), data) && Leads(Visiting(old(Get()), batch, todo), Get(), Event.DayFailed(day))
      ensures r == P.Unsaved ==>
                mem == Joined(old(mem), data) && Leads(Visiting(old(Get()), batch, todo), Get(), Unsaved(day))
      ensures OthersKept(old(Get()), Get(), day) && AddsTo(DayOn(old(Get()), day), data, r, DayOn(Get(), day))
    {
      hide Inv, Leads, DayPart, Shape, Days, Lives, Joined, Permutes, DayOn, OthersKept, AddsTo;
      ghost var s := Visiting(Get(), batch, todo);
      var ok;
      ghost var f;
      ok, f := PrepareDay(day, data, batch, todo);
      ghost var ready := Get();
      if !ok {
        FailsEarly(s, Get().(flush := f), day, data);
        mem := P.AppendAll(mem, data);
        SameTurn(old(Get()), ready, day, Get());
        NothingAdded(DayOn(ready, day), data);
        return P.Unstaged;
      }
      r := FlushPart(day, data, s, f);
      TurnsJoin(old(Get()), ready, Get(), day);
    }

    lemma LivesKeys()
      ensures Lives().Keys == partitions.Keys == Days().Keys
    {
    }

    /** compactPartition: with fewer small parts than min nothing happens, else they are all merged. f is
        the flush under way, if any. */
    method Compact(day: Day, min: nat, ghost f: E.Flush) returns (r: P.Outcome)
      requires Shape() && day in partitions && Inv(Get().(flush := f))
      modifies partitions[day]
      ensures Shape()
      ensures Reaches(old(Get()).(flush := f), Get().(flush := f)) && HeldKept(old(Get()).(flush := f), Get().(flush := f))
      ensures r != P.Refused && r != P.Unread
      ensures if |SmallOf(old(Get()), day)| < min then r == P.Done && Get() == old(Get())
              else MergedTo(old(Get()), day, r, Get())
      ensures OthersKept(old(Get()), Get(), day) && Compacts(DayOn(old(Get()), day), min, r, DayOn(Get(), day))
    {
      hide Inv, Reaches, AllOpen, DirsOf, LivesOf, P.Partition.Valid, P.Distinct, HeldKept, E.SmallParts, MergedTo;
      hide DayOn, OthersKept, MergesTo;
      LivesKeys();
      SmallOn(Get(), day);
      SameTurn(Get(), Get(), day, Get());
      ReachesSelf(Get().(flush := f));
      HeldSelf(Get().(flush := f));
      OneOpen(partitions, day);
      PartitionAdded(partitions - {day}, day, partitions[day]);
      OpenReads(partitions[day]);
      var read, small := partitions[day].SmallParts();
      P.DistinctSize(small);
      if |small| < min {
        return P.Done;
      }
      r := MergeDay(day, small, f);
      MergedToTurn(old(Get()), day, r, Get());
    }

    method MergeDay(day: Day, small: seq<PartId>, ghost f: E.Flush) returns (r: P.Outcome)
      requires Shape() && day in partitions && Inv(Get().(flush := f)) && P.Distinct(small)
      requires P.Names(small) == E.SmallParts(partitions[day].Dir(), partitions[day].Live())
      modifies partitions[day]
      ensures Shape() && r != P.Refused && r != P.Unread && MergedTo(old(Get()), day, r, Get())
      ensures Reaches(old(Get()).(flush := f), Get().(flush := f)) && HeldKept(old(Get()).(flush := f), Get().(flush := f))
    {
      hide Inv, Reaches, AllOpen, DirsOf, LivesOf, Sorts, P.Written, P.PartOf, P.Partition.Valid, P.Distinct, E.MergesInto;
      hide PartMerged, PartOrphaned, IdTaken, E.SmallParts, HeldKept, P.Adds, MergedTo;
      ghost var g, s := Get(), Get().(flush := f);
      var p := partitions[day];
      OneOpen(partitions, day);
      ghost var rest := partitions - {day};
      PartitionAdded(rest, day, p);
      ghost var dirs, lives, dd, live := DirsOf(rest), LivesOf(rest), p.Dir(), p.Live();
      OpenReads(p);
      SmallListed(dd, live);
      ghost var merged;
      r, merged := p.MergeParts(small);
      PartitionAdded(rest, day, p);
      DayChanged(s, Get().(flush := f), dirs, lives, day, dd, live, p.Dir(), p.Live());
      ghost var n, names, sorted := live.nextID, P.Names(small), map[];
      if r == P.Unstaged {
        sorted := P.SortExists(merged);
        MergeFailsPath(s, day, merged, sorted);
        TakenIs(s, day);
      } else if r == P.Unsaved {
        AddsParts(old(p.dirs), n, p.dirs, merged, Big);
        sorted := P.PartOf(p.dirs[n]).data;
        MergeUnsavedPath(s, day, merged, sorted);
        OrphanIs(s, day, PartDir(sorted, Big));
      } else {
        ghost var published :| P.Adds(old(p.dirs), n, published, merged, Big) && p.dirs == published - names;
        AddsParts(old(p.dirs), n, published, merged, Big);
        PartsMinus(published, names);
        sorted := P.PartOf(published[n]).data;
        MergePath(s, day, merged, sorted);
        MergedIs(s, day, names, PartDir(sorted, Big));
      }
      MergedToIs(g, day, r, merged, sorted, f, Get());
    }

    /** The swap of the buffer and the registry segment. */
    method BeginFlush() returns (ok: bool, batch: Series)
      modifies this`mem, this`forward, registry
      ensures batch == old(mem) && Days() == old(Days()) && Lives() == old(Lives())
      ensures if ok then Get() == FlushStarted(old(Get())).(flush := E.FIdle) && mem == map[]
              else Get() == old(Get()).(mem := Joined(map[], old(mem)),
                                        reg := old(registry.Get()).(pending := map[] + old(registry.pending)))
    {
      hide Joined, Days, Lives, DaysOf;
      batch := mem;
      mem := map[];
      var pending := registry.DrainPending();
      var saved: bool := *;
      // a segment without entries is not written
      if pending != map[] && !saved {
        registry.TrackPending(pending);
        mem := P.AppendAll(mem, batch);
        return false, batch;
      }
      forward := forward + pending;
      return true, batch;
    }

    /** Flush. published is the days whose parts are on disk; on a failure the days it has not reached
        are in neither memory nor disk. */
    method Flush() returns (r: FlushResult, ghost published: set<Day>)
      requires Valid()
      modifies this`mem, this`forward, this`inverted, this`partitions, registry, partitions.Values
      ensures Valid() && Reaches(old(Get()), Get())
      ensures r.Flushed? ==> FlushAccount(old(Get()), Get(), published) && mem == map[] && DaysOf(old(mem)) <= published
      ensures r.RegistryUnsaved? ==>
                HeldKept(old(Get()), Get()) && forward == old(forward) && registry.pending == old(registry.pending)
      ensures !r.RegistryUnsaved? ==> forward == old(forward) + old(registry.pending)
      ensures r.DayUnsaved? ==>
                r.day in DaysOf(old(mem)) - published && FailureAccount(old(Get()), Get(), published, r.day)
      ensures r.ManifestUnsaved? ==>
                r.day in DaysOf(old(mem)) - published && UnsavedAccount(old(Get()), Get(), published, r.day)
      ensures r.Flushed? ==> published == DaysOf(old(mem))
      ensures FlushedAs(old(Get()), Get(), old(mem), published, smallPartsMergeThreshold, r)
    {
      hide Inv, Reaches, HeldChanges, HeldKept, Joined, AllOpen, Days, Lives, DaysOf, FlushAccount, FailureAccount, UnsavedAccount,
           Grouped, Progress, FlushedAs;
      ghost var s0 := Get();
      published := {};
      var ok, batch := BeginFlush();
      ghost var begun := Get();
      NoneFlushedAs(s0, begun, batch, smallPartsMergeThreshold);
      if !ok {
        FlushRefusedPath(s0);
        return RegistryUnsaved, published;
      }
      FlushStartPath(s0);
      StartAccount(s0);
      if batch == map[] {
        NoDays();
        return Flushed, published;
      }
      var byDay := GroupByDay(batch);
      r, published := FlushAll(byDay, batch, s0);
      FlushedFrom(s0, begun, Get(), batch, published, smallPartsMergeThreshold, r);
    }

    /** One turn of the second loop of Flush: a day, and perhaps a merge. */
    method FlushOne(day: Day, data: Series, ghost s0: E.Sys, ghost batch: Series, ghost todo: set<Day>, ghost published: set<Day>)
      returns (r: P.Outcome)
      requires Shape() && mem == map[] && Progress(s0, Visiting(Get(), batch, todo), published)
      requires day in todo && day !in published && data == DayPart(batch, day)
      modifies this`mem, this`inverted, this`partitions, registry, partitions.Values
      ensures Shape()
      ensures forall d :: d in old(partitions) ==> d in partitions && partitions[d] == old(partitions[d])
      ensures forall d :: d in partitions && d !in old(partitions) ==> fresh(partitions[d])
      ensures r == P.Unsaved ==> Reaches(s0, Get()) && Inv(Get()) && UnsavedAccount(s0, Get(), published, day)
      ensures r == P.Unstaged ==> Reaches(s0, Get()) && Inv(Get()) && FailureAccount(s0, Get(), published, day)
      ensures r != P.Unsaved && r != P.Unstaged ==>
                mem == map[] && Progress(s0, Visiting(Get(), batch, todo - {day}), published + {day})
      ensures OthersKept(old(Get()), Get(), day)
      ensures if r == P.Unsaved || r == P.Unstaged then AddsTo(DayOn(old(Get()), day), data, r, DayOn(Get(), day))
              else day in partitions && FlushesTo(DayOn(old(Get()), day), data, smallPartsMergeThreshold, DayOn(Get(), day))
    {
      hide Inv, Reaches, Leads, HeldKept, Joined, AllOpen, Days, Lives, DayPart, FailureAccount, UnsavedAccount, Progress;
      hide DayOn, OthersKept, AddsTo, FlushesTo, Compacts, SmallOf, MergedTo;
      ghost var before := Visiting(Get(), batch, todo);
      ProgressIs(s0, before, published);
      r := FlushDay(day, data, batch, todo);
      ghost var added := Get();
      if r == P.Unsaved {
        UnsavedFailureIs(s0, before, published, day, Get());
        return;
      }
      if r == P.Unstaged {
        FailureIs(s0, before, published, day, Get());
        return;
      }
      ghost var after := Visiting(Get(), batch, todo - {day});
      ProgressStep(s0, before, published, day, after);
      ProgressIs(s0, after, published + {day});
      // a failed merge is only logged
      var compacted := Compact(day, smallPartsMergeThreshold, after.flush);
      ProgressKept(s0, after, published + {day}, Visiting(Get(), batch, todo - {day}));
      TurnsJoin(old(Get()), added, Get(), day);
      FlushesOf(DayOn(old(Get()), day), data, smallPartsMergeThreshold, DayOn(added, day), compacted, DayOn(Get(), day));
    }

    /** The second loop of Flush. */
    method FlushAll(byDay: map<Day, Series>, batch: Series, ghost s0: E.Sys) returns (r: FlushResult, ghost published: set<Day>)
      requires Shape() && Grouped(byDay, batch) && s0.mem == batch && mem == map[]
      requires Progress(s0, Visiting(Get(), batch, DaysOf(batch)), {})
      modifies this`mem, this`inverted, this`partitions, registry, partitions.Values
      ensures Valid() && Reaches(s0, Get())
      ensures !r.RegistryUnsaved?
      ensures r.Flushed? ==> FlushAccount(s0, Get(), published) && mem == map[] && DaysOf(batch) <= published
      ensures r.DayUnsaved? ==> r.day in DaysOf(batch) - published && FailureAccount(s0, Get(), published, r.day)
      ensures r.ManifestUnsaved? ==> r.day in DaysOf(batch) - published && UnsavedAccount(s0, Get(), published, r.day)
      ensures r.Flushed? ==> published == DaysOf(batch)
      ensures FlushedAs(old(Get()), Get(), batch, published, smallPartsMergeThreshold, r)
    {
      hide Inv, Reaches, AllOpen, Days, Lives, DaysOf, DayPart, FlushAccount, FailureAccount, UnsavedAccount, Progress;
      hide DayOn, OthersKept, AddsTo, FlushesTo, FlushedDays;
      published := {};
      var todo := byDay.Keys;
      NoneFlushed(Get(), batch, smallPartsMergeThreshold);
      while todo != {}
        invariant Shape() && mem == map[]
        invariant forall d :: d in old(partitions) ==> d in partitions && partitions[d] == old(partitions[d])
        invariant forall d :: d in partitions && d !in old(partitions) ==> fresh(partitions[d])
        invariant todo <= byDay.Keys && published + todo == DaysOf(batch) && published !! todo
        invariant Progress(s0, Visiting(Get(), batch, todo), published)
        invariant FlushedDays(old(Get()), Get(), batch, published, smallPartsMergeThreshold, {})
        decreases todo
      {
        var day := AnyKey(todo);
        ghost var before := Get();
        forall p | p in partitions.Values ensures p in old(partitions.Values) || fresh(p) {
          var d := KeyOf(partitions, p);
        }
        var outcome := FlushOne(day, byDay[day], s0, batch, todo, published);
        if outcome == P.Unsaved || outcome == P.Unstaged {
          OneFailed(old(Get()), before, batch, published, smallPartsMergeThreshold, day, Get());
        }
        if outcome == P.Unsaved {
          return ManifestUnsaved(day), published;
        }
        if outcome == P.Unstaged {
          return DayUnsaved(day), published;
        }
        LivesKeys();
        OneMoreFlushed(old(Get()), before, batch, published, smallPartsMergeThreshold, day, Get());
        published, todo := published + {day}, todo - {day};
      }
      FlushDone(s0, Visiting(Get(), batch, todo), published);
      r := Flushed;
    }

    /** ForceMerge: every day with two small parts or more. */
    method ForceMerge() returns (ok: bool)
      requires Valid()
      modifies partitions.Values
      ensures Valid() && Reaches(old(Get()), Get()) && HeldKept(old(Get()), Get())
      ensures ok ==> forall d :: d in Get().partitions ==> |SmallOf(Get(), d)| < 2
      ensures ok ==> MergedDays(old(Get()), Get(), partitions.Keys, {})
      ensures !ok ==> StoppedAt(old(Get()), Get())
    {
      hide Inv, Reaches, HeldKept, AllOpen, Days, Lives, Ascending, FewUpTo, MergedTo, E.SmallParts, MergedDays, StoppedAt, DaySet;
      ghost var s0 := Get();
      ReachesSelf(s0);
      HeldSelf(s0);
      NoneMerged(s0);
      var list := Ascending(partitions.Keys);
      var i := 0;
      LivesKeys();
      NoneFew(s0, list);
      NoDaySet(list);
      while i < |list|
        invariant 0 <= i <= |list| && Valid() && Reaches(s0, Get()) && HeldKept(s0, Get())
        invariant Get().partitions.Keys == partitions.Keys && FewUpTo(Get(), list, i)
        invariant MergedDays(s0, Get(), DaySet(list[..i]), {})
      {
        AscendingAt(partitions.Keys, i);
        DaySetGrows(list, i);
        var merged := MergeOne(list, i, s0, DaySet(list[..i]));
        if !merged {
          return false;
        }
        i := i + 1;
      }
      AscendingAll(partitions.Keys);
      AllFew(Get(), list);
      DaySetAll(list, partitions.Keys);
      return true;
    }

    /** One turn of its loop. */
    method MergeOne(list: seq<Day>, i: nat, ghost s0: E.Sys, ghost done: set<Day>) returns (ok: bool)
      requires Valid() && Reaches(s0, Get()) && HeldKept(s0, Get())
      requires i < |list| && list[i] in partitions && list[..i + 1] == list[..i] + [list[i]] && list[i] !in list[..i]
      requires FewUpTo(Get(), list, i)
      requires MergedDays(s0, Get(), done, {}) && list[i] !in done
      modifies partitions[list[i]]
      ensures Valid() && Reaches(s0, Get()) && HeldKept(s0, Get()) && Get().partitions.Keys == partitions.Keys
      ensures ok ==> FewUpTo(Get(), list, i + 1) && MergedDays(s0, Get(), done + {list[i]}, {})
      ensures !ok ==> StoppedAt(s0, Get())
    {
      hide Inv, Reaches, HeldKept, AllOpen, Days, Lives, FewUpTo, MergedTo, E.SmallParts, DayOn, OthersKept, Compacts, MergedDays,
           StoppedAt;
      ghost var s := Get();
      LivesKeys();
      var r := Compact(list[i], 2, E.FIdle);
      KeptTrans(s0, s, Get());
      LivesKeys();
      if r != P.Done {
        StopsAt(s0, s, done, list[i], r, Get());
        return false;
      }
      FewStep(s, list, i, Get());
      OneMoreMerged(s0, s, done, list[i], Get());
      return true;
    }

    // ---------- retention ----------

    /** One expired day: its directory, its inverted index, its place in the registry. */
    method DropDay(day: Day)
      requires Shape() && day in partitions
      modifies this`partitions, this`inverted, registry, partitions[day]
      ensures Shape() && partitions == old(partitions) - {day}
      ensures Get() == Expiry(old(Get()), {day})
    {
      hide AllOpen, DirsOf, LivesOf, P.Written, P.Partition.Valid, P.Distinct, P.PartsOf;
      var p := partitions[day];
      OneOpen(partitions, day);
      ghost var rest := partitions - {day};
      PartitionAdded(rest, day, p);
      RestKeys(rest);
      MapMinus(DirsOf(rest), day, p.Dir());
      MapMinus(LivesOf(rest), day, p.Live());
      p.Drop();
      partitions := partitions - {day};
      inverted := inverted - {day};
      registry.DropDay(day);
    }

    /** The first loop of ApplyRetention: the partitions whose names sort before that of the cutoff. */
    method ExpiredDays(cutoffDay: Day) returns (expired: seq<Day>)
      ensures DaySet(expired) == ToDrop(partitions.Keys, cutoffDay)
      ensures forall i, j :: 0 <= i < j < |expired| ==> expired[i] != expired[j]
    {
      hide Ascending, DayName, StrLess;
      var cutoffName := DayName(cutoffDay);
      var list := Ascending(partitions.Keys);
      expired := [];
      var i := 0;
      while i < |list|
        invariant 0 <= i <= |list|
        invariant forall d :: d in expired <==> d in list[..i] && Expires(d, cutoffDay)
        invariant forall i, j :: 0 <= i < j < |expired| ==> expired[i] != expired[j]
      {
        AscendingAt(partitions.Keys, i);
        if StrLess(DayName(list[i]), cutoffName) {
          assert forall j :: 0 <= j < |expired| ==> expired[j] in expired;
          expired := expired + [list[i]];
        }
        i := i + 1;
      }
      AscendingAll(partitions.Keys);
      assert list[..i] == list;
      forall d: Day ensures d in DaySet(expired) <==> d in ToDrop(partitions.Keys, cutoffDay) {
        assert d in list[..i] <==> d in partitions.Keys;
      }
    }

    /** ApplyRetention drops exactly the days whose names sort before that of the cutoff, data and index
        together. While the clock shows a year up to 9999 and the cutoff does not wrap, or wraps to the
        beginning of time, those are the right ones. */
    method ApplyRetention(retentionDays: Int64, now: Int64)
      requires Valid()
      modifies this`partitions, this`inverted, this`cutoff, registry, partitions.Values
      ensures Valid() && Reaches(old(Get()), Get())
      ensures retentionDays <= 0 ==> Get() == old(Get())
      ensures retentionDays > 0 ==>
                var gone := ToDrop(old(partitions.Keys), CutoffDay(retentionDays, now));
                Get() == Expiry(old(Get()), gone).(cutoff := cutoff) && IsBound(old(cutoff), gone, cutoff)
      ensures retentionDays > 0 && Nameable(DayOf(now)) &&
              (InRange(retentionDays, now) || CutoffDay(retentionDays, now) <= FIRST_DAY) ==>
                forall t: Int64 :: Nameable(DayOf(t)) && DayOf(t) in old(partitions) ==>
                  && (t >= Horizon(retentionDays, now) ==> DayOf(t) in partitions)
                  && (t <= Horizon(retentionDays, now) - DAY_MS ==> DayOf(t) !in partitions)
    {
      hide Inv, Reaches, AllOpen, Days, Lives, Expiry, CutoffDay, Nameable, Expires, InRange, Horizon;
      ReachesSelf(Get());
      if retentionDays <= 0 {
        return;
      }
      if Nameable(DayOf(now)) {
        DropsRightlyIff(retentionDays, now);
      }
      DropBefore(CutoffDay(retentionDays, now));
    }

    method DropBefore(cutoffDay: Day)
      requires Valid()
      modifies this`partitions, this`inverted, this`cutoff, registry, partitions.Values
      ensures Valid() && Reaches(old(Get()), Get())
      ensures partitions == old(partitions) - ToDrop(old(partitions.Keys), cutoffDay)
      ensures var gone := ToDrop(old(partitions.Keys), cutoffDay);
              Get() == Expiry(old(Get()), gone).(cutoff := cutoff) && IsBound(old(cutoff), gone, cutoff)
    {
      hide Inv, Reaches, AllOpen, Days, Lives, Expiry, Expires;
      ghost var s0, gone := Get(), ToDrop(partitions.Keys, cutoffDay);
      LivesKeys();
      ghost var c := BoundOver(cutoff, gone);
      RetentionPath(s0, c, gone);
      var expired := ExpiredDays(cutoffDay);
      DropDays(expired);
      ExpiryCutoff(s0, gone, c);
      cutoff := c;
      ReachesInv(s0, Get());
    }

    /** The second loop of ApplyRetention. */
    method DropDays(expired: seq<Day>)
      requires Shape() && forall d :: d in expired ==> d in partitions
      requires forall i, j :: 0 <= i < j < |expired| ==> expired[i] != expired[j]
      modifies this`partitions, this`inverted, registry, partitions.Values
      ensures Shape() && Get() == Expiry(old(Get()), DaySet(expired)) && partitions == old(partitions) - DaySet(expired)
    {
      hide AllOpen, Days, Lives, Expiry;
      ghost var s0 := Get();
      ExpiryNone(s0);
      assert DaySet(expired[..0]) == {};
      var i := 0;
      while i < |expired|
        invariant 0 <= i <= |expired| && Shape() && Get() == Expiry(s0, DaySet(expired[..i]))
        invariant partitions == old(partitions) - DaySet(expired[..i])
      {
        var d := expired[i];
        DaySetStep(expired, i);
        assert d in old(partitions) && d in partitions && partitions[d] == old(partitions)[d];
        DropDay(d);
        ExpirySplit(s0, DaySet(expired[..i]), d);
        i := i + 1;
      }
      assert expired[..i] == expired;
    }

    // ---------- queries ----------

    /** The disk tier: the locked scans of QueryRange. */
    method ScanDays(want: set<SeriesId>, start: Int64, end: Int64) returns (merged: Series)
      requires Valid()
      ensures forall id: SeriesId, x: Sample ::
                CountIn(merged, id, x) == if id in want && InWindow(x, start, end) then InParts(Get(), id, x) else 0
    {
      hide Inv, AllOpen, DirsOf, LivesOf, InParts, ScannedDays, Ascending, P.Partition.Valid;
      merged := map[];
      var list := Ascending(partitions.Keys);
      var i := 0;
      ScannedNone(Get(), list, want, start, end);
      while i < |list|
        invariant 0 <= i <= |list| && ScannedDays(merged, Get(), list, i, want, start, end)
      {
        var d := list[i];
        AscendingAt(partitions.Keys, i);
        ghost var before := merged;
        if DayOf(start) <= d <= DayOf(end) {
          OneOpen(partitions, d);
          PartitionAdded(partitions - {d}, d, partitions[d]);
          merged := partitions[d].Scan(merged, want, start, end);
          ScannedOne(before, merged, Get(), list, i, want, start, end);
        } else {
          ScannedOutside(merged, Get(), list, i, want, start, end);
        }
        i := i + 1;
      }
      AscendingAll(partitions.Keys);
      LivesKeys();
      ScannedAll(merged, Get(), list, want, start, end);
    }

    /** QueryRange. */
    method QueryRange(matchers: seq<S.Matcher>, start: Int64, end: Int64) returns (results: seq<SeriesResult>)
      requires Valid()
      ensures IsAnswer(Get(), matchers, start, end, results)
    {
      hide Inv, AllOpen, Days, Lives, InParts, CountIn, S.Matching, SortedByTime, ResultCount, InWindow, IsAnswer;
      var ids := registry.Match(matchers);
      if |ids| == 0 {
        results := [];
        NoResults();
        AnswerNone(Get(), matchers, start, end);
        return;
      }
      var want := IdSet(ids);
      var merged := ScanDays(want, start, end);
      merged := AddBuffer(merged, ids, mem, start, end);
      results := Collect(merged, ids);
      AnswerIs(Get(), matchers, start, end, merged, ids, results);
    }

    method Collect(merged: Series, ids: seq<SeriesId>) returns (results: seq<SeriesResult>)
      requires forall i, j :: 0 <= i < j < |ids| ==> ids[i] < ids[j]
      ensures InOrder(results) && forall i :: 0 <= i < |results| ==> WellFormedResult(registry.Get(), results[i])
      ensures forall id: SeriesId, x: Sample :: ResultCount(results, id, x) == if id in ids then CountIn(merged, id, x) else 0
    {
      hide SortedByTime, CountIn, ResultCount;
      results := [];
      var i := 0;
      NoResults();
      while i < |ids|
        invariant 0 <= i <= |ids|
        invariant forall j, k :: 0 <= j < k < |results| ==> results[j].id < results[k].id
        invariant forall j :: 0 <= j < |results| ==>
                    results[j].id in ids[..i] && results[j].samples != [] && SortedByTime(results[j].samples) &&
                    results[j].labels == S.LabelsOf(registry.Get(), results[j].id)
        invariant CollectedUpTo(results, merged, ids, i)
      {
        var id := ids[i];
        assert ids[..i + 1] == ids[..i] + [id];
        var samples := if id in merged then merged[id] else [];
        if |samples| == 0 {
          CollectedNone(results, merged, ids, i);
        } else {
          var sorted := SortByTime(samples);
          SortLength(sorted, samples);
          var labels := if id in registry.names then registry.names[id] else [];
          CollectedOne(results, merged, ids, i, labels, sorted);
          results := results + [SeriesResult(id, labels, sorted)];
        }
        i := i + 1;
      }
      assert ids[..i] == ids;
    }
  }

  // ---------- the turns of a flush ----------

  /** The published days have each gone through: a small part, and a merge if it makes the threshold. The day
      that fails gets no part, or one listed in memory only. All other days are as they were. */
  ghost predicate FlushedAs(s0: E.Sys, s: E.Sys, batch: Series, published: set<Day>, min: nat, r: FlushResult) {
    match r
    case Flushed => FlushedDays(s0, s, batch, published, min, {})
    case RegistryUnsaved => FlushedDays(s0, s, batch, {}, min, {})
    case DayUnsaved(day) =>
      FlushedDays(s0, s, batch, published, min, {day}) && AddsTo(DayOn(s0, day), DayPart(batch, day), P.Unstaged, DayOn(s, day))
    case ManifestUnsaved(day) =>
      FlushedDays(s0, s, batch, published, min, {day}) && AddsTo(DayOn(s0, day), DayPart(batch, day), P.Unsaved, DayOn(s, day))
  }

  lemma NoneFlushedAs(s0: E.Sys, s: E.Sys, batch: Series, min: nat)
    requires s.partitions == s0.partitions && s.disk.days == s0.disk.days
    ensures FlushedAs(s0, s, batch, {}, min, Flushed) && FlushedAs(s0, s, batch, {}, min, RegistryUnsaved)
  {
    hide FlushesTo, DayOn;
    NoneFlushed(s, batch, min);
    SameFlushed(s0, s, s, batch, {}, min, {});
  }

  lemma FlushedFrom(s0: E.Sys, t0: E.Sys, s: E.Sys, batch: Series, published: set<Day>, min: nat, r: FlushResult)
    requires FlushedAs(t0, s, batch, published, min, r) && t0.partitions == s0.partitions && t0.disk.days == s0.disk.days
    ensures FlushedAs(s0, s, batch, published, min, r)
  {
    hide FlushedDays, AddsTo, DayOn, DayPart;
    match r {
      case Flushed => SameFlushed(s0, t0, s, batch, published, min, {});
      case RegistryUnsaved => SameFlushed(s0, t0, s, batch, {}, min, {});
      case DayUnsaved(day) => SameFlushed(s0, t0, s, batch, published, min, {day});
      case ManifestUnsaved(day) => SameFlushed(s0, t0, s, batch, published, min, {day});
    }
  }

  lemma IndexedTurn(s: E.Sys, day: Day, keys: set<SeriesId>, s': E.Sys)
    requires s' == s || s' == IndexedDay(s, day, keys)
    ensures OthersKept(s, s', day) && DayOn(s', day) == DayOn(s, day)
  {
    SameSys(s, s');
  }

  lemma OpensTurn(s: E.Sys, t: E.Sys, day: Day, u: E.Sys)
    requires OthersKept(s, t, day) && DayOn(t, day) == DayOn(s, day)
    requires u == t || (day !in t.partitions && day in u.partitions && E.OpensAs(E.NEW_DIR, u.partitions[day]) &&
                        u == DayOpened(t, day, u.partitions[day]))
    ensures OthersKept(s, u, day) && DayOn(u, day) == DayOn(s, day)
  {
    hide DayOn, OthersKept, E.IsNext;
    if u != t {
      OpenedTurn(t, day, u.partitions[day], u);
      TurnsJoin(s, t, u, day);
    }
  }

  lemma SameTurn(s: E.Sys, t: E.Sys, day: Day, u: E.Sys)
    requires s == t || OthersKept(s, t, day)
    requires u.partitions == t.partitions && u.disk.days == t.disk.days
    ensures OthersKept(s, u, day) && DayOn(u, day) == DayOn(t, day)
  {
    SameSys(t, u);
    SameSys(s, s);
    hide DayOn;
    assert DayKept(t, u, day);
    TurnsJoin(s, t, u, day);
  }

  lemma NothingAdded(a: DayState, data: Series)
    ensures AddsTo(a, data, P.Unstaged, a)
  {
  }

  lemma FlushesOf(a: DayState, data: Series, min: nat, mid: DayState, r: P.Outcome, b: DayState)
    requires AddsTo(a, data, P.Done, mid) && r != P.Refused && r != P.Unread && Compacts(mid, min, r, b)
    ensures FlushesTo(a, data, min, b)
  {
    hide AddsTo, Compacts;
  }

  lemma SmallOn(s: E.Sys, d: Day)
    requires d in s.partitions
    ensures SmallIn(DayOn(s, d)) == SmallOf(s, d)
  {
  }

  lemma MergedToTurn(s: E.Sys, d: Day, r: P.Outcome, s': E.Sys)
    requires d in s.partitions && d in s.disk.days && MergedTo(s, d, r, s')
    ensures d in s'.partitions && OthersKept(s, s', d) && MergesTo(DayOn(s, d), r, DayOn(s', d))
  {
    hide E.MergesInto, Sorts, E.SmallParts, IdTaken, PartOrphaned, PartMerged, DayOn, MergesTo, OthersKept;
    var merged: Series, sorted: Series :|
      && E.MergesInto(SmallOf(s, d), E.DirOf(s.disk, d).dirs, merged) && Sorts(sorted, merged)
      && s' == if r == P.Unstaged then IdTaken(s, d)
               else if r == P.Unsaved then PartOrphaned(s, d, PartDir(sorted, Big))
               else PartMerged(s, d, SmallOf(s, d), PartDir(sorted, Big));
    MergedTurn(s, d, r, merged, sorted, s');
  }

  // ---------- the account of a flush ----------

  function Visiting(s: E.Sys, batch: Series, todo: set<Day>): E.Sys {
    s.(flush := E.FVisiting(batch, todo))
  }

  /** The parts of a published day hold, all of them saved, what they held before and what was buffered of
      that day; the parts of any other day hold what they held, as much of it saved as before or more. */
  predicate PartsGain(l0: Ledger, l: Ledger, published: bool) {
    if published then l.listed == 0 && l.disk == l0.disk + l0.listed + l0.mem
    else l.listed + l.disk == l0.listed + l0.disk && l.disk >= l0.disk
  }

  /** The flush has gone through: the buffer is empty, and every day it published has its samples on disk. */
  ghost predicate FlushAccount(s0: E.Sys, s: E.Sys, published: set<Day>) {
    forall id: SeriesId, x: Sample ::
      CountIn(s.mem, id, x) == 0 && PartsGain(Held(s0, id, x), Held(s, id, x), DayOf(x.t) in published)
  }

  /** Published days are on disk, the failed day is back in the buffer, the others are gone. */
  ghost predicate FailureAccount(s0: E.Sys, s: E.Sys, published: set<Day>, failed: Day) {
    forall id: SeriesId, x: Sample ::
      && CountIn(s.mem, id, x) == (if DayOf(x.t) == failed then CountIn(s0.mem, id, x) else 0)
      && PartsGain(Held(s0, id, x), Held(s, id, x), DayOf(x.t) in published)
  }

  /** The same when the manifest of the failed day could not be saved: its samples are back in the buffer
      and in a listed part as well. */
  ghost predicate UnsavedAccount(s0: E.Sys, s: E.Sys, published: set<Day>, failed: Day) {
    forall id: SeriesId, x: Sample ::
      var l0, l := Held(s0, id, x), Held(s, id, x);
      if DayOf(x.t) == failed
      then l.mem == l0.mem && l.listed + l.disk == l0.listed + l0.disk + l0.mem && l.listed >= l0.mem && l.disk >= l0.disk
      else l.mem == 0 && PartsGain(l0, l, DayOf(x.t) in published)
  }

  /** A flush under way that has published some days and has the rest of its buffer in hand. */
  ghost predicate Progress(s0: E.Sys, s: E.Sys, published: set<Day>) {
    && Reaches(s0, s) && Inv(s) && FlushAccount(s0, s, published)
    && forall id: SeriesId, x: Sample ::
         InFlight(s.flush, id, x) == if DayOf(x.t) in published then 0 else CountIn(s0.mem, id, x)
  }

  lemma ProgressIs(s0: E.Sys, s: E.Sys, published: set<Day>)
    requires Progress(s0, s, published)
    ensures Reaches(s0, s) && Inv(s)
  {
    hide Reaches, Inv, FlushAccount, InFlight, CountIn;
  }

  lemma StartAccount(s0: E.Sys)
    requires s0.flush == E.FIdle && HeldChanges(s0, FlushStarted(s0), Swapped) && Reaches(s0, FlushStarted(s0)) && Inv(FlushStarted(s0))
    ensures s0.mem != map[] ==> Progress(s0, FlushStarted(s0), {})
    ensures s0.mem == map[] ==> FlushAccount(s0, FlushStarted(s0), {})
  {
    hide Reaches, Inv, OnDisk, OnlyListed, CountIn;
    var s := FlushStarted(s0);
    forall id: SeriesId, x: Sample
      ensures CountIn(s.mem, id, x) == 0 && PartsGain(Held(s0, id, x), Held(s, id, x), false)
      ensures InFlight(s.flush, id, x) == CountIn(s0.mem, id, x)
    {
      assert Held(s, id, x) == Record(Held(s0, id, x), Swapped, [], x);
    }
  }

  lemma NoDays()
    ensures DaysOf(map[]) == {}
  {
  }

  lemma PublishedGain(l0: Ledger, l: Ledger, l': Ledger, day: Day, published: set<Day>, x: Sample)
    requires day !in published && l' == Record(l, Persisted(day), [], x)
    requires l.mem == 0 && PartsGain(l0, l, DayOf(x.t) in published) && l.flight == if DayOf(x.t) in published then 0 else l0.mem
    ensures l'.mem == 0 && PartsGain(l0, l', DayOf(x.t) in published + {day})
    ensures l'.flight == if DayOf(x.t) in published + {day} then 0 else l0.mem
  {
  }

  lemma ProgressStep(s0: E.Sys, s: E.Sys, published: set<Day>, day: Day, s': E.Sys)
    requires Progress(s0, s, published) && day !in published && Leads(s, s', Persisted(day))
    ensures Progress(s0, s', published + {day})
  {
    hide Reaches, Inv, OnDisk, OnlyListed, CountIn, InFlight, Record, PartsGain;
    ReachesTrans(s0, s, s');
    forall id: SeriesId, x: Sample
      ensures CountIn(s'.mem, id, x) == 0 && PartsGain(Held(s0, id, x), Held(s', id, x), DayOf(x.t) in published + {day})
      ensures InFlight(s'.flush, id, x) == if DayOf(x.t) in published + {day} then 0 else CountIn(s0.mem, id, x)
    {
      assert Held(s', id, x) == Record(Held(s, id, x), Persisted(day), [], x);
      PublishedGain(Held(s0, id, x), Held(s, id, x), Held(s', id, x), day, published, x);
    }
  }

  lemma ProgressKept(s0: E.Sys, s: E.Sys, published: set<Day>, s': E.Sys)
    requires Progress(s0, s, published) && Reaches(s, s') && HeldKept(s, s')
    ensures Progress(s0, s', published)
  {
    hide Reaches, Inv, OnDisk, OnlyListed, CountIn, InFlight;
    ReachesTrans(s0, s, s');
    ReachesInv(s, s');
    forall id: SeriesId, x: Sample
      ensures CountIn(s'.mem, id, x) == CountIn(s.mem, id, x) && InFlight(s'.flush, id, x) == InFlight(s.flush, id, x)
      ensures PartsGain(Held(s0, id, x), Held(s', id, x), DayOf(x.t) in published)
    {
      assert SameHeld(Held(s, id, x), Held(s', id, x));
    }
  }

  lemma FailedGain(l0: Ledger, l: Ledger, l': Ledger, e: Event, day: Day, published: set<Day>, x: Sample)
    requires day !in published && (e == Event.DayFailed(day) || e == Unsaved(day)) && l' == Record(l, e, [], x)
    requires l.mem == 0 && PartsGain(l0, l, DayOf(x.t) in published) && l.flight == if DayOf(x.t) in published then 0 else l0.mem
    ensures l'.mem == if DayOf(x.t) == day then l0.mem else 0
    ensures DayOf(x.t) != day || e.DayFailed? ==> PartsGain(l0, l', DayOf(x.t) in published)
    ensures DayOf(x.t) == day && e.Unsaved? ==>
              l'.listed + l'.disk == l0.listed + l0.disk + l0.mem && l'.listed >= l0.mem && l'.disk >= l0.disk
  {
  }

  lemma FailureIs(s0: E.Sys, s: E.Sys, published: set<Day>, day: Day, s': E.Sys)
    requires Progress(s0, s, published) && day !in published && Leads(s, s', Event.DayFailed(day))
    ensures Reaches(s0, s') && Inv(s') && FailureAccount(s0, s', published, day)
  {
    hide Reaches, Inv, OnDisk, OnlyListed, CountIn, InFlight, Record, PartsGain;
    ReachesTrans(s0, s, s');
    forall id: SeriesId, x: Sample
      ensures CountIn(s'.mem, id, x) == if DayOf(x.t) == day then CountIn(s0.mem, id, x) else 0
      ensures PartsGain(Held(s0, id, x), Held(s', id, x), DayOf(x.t) in published)
    {
      assert Held(s', id, x) == Record(Held(s, id, x), DayFailed(day), [], x);
      FailedGain(Held(s0, id, x), Held(s, id, x), Held(s', id, x), DayFailed(day), day, published, x);
    }
  }

  lemma UnsavedFailureIs(s0: E.Sys, s: E.Sys, published: set<Day>, day: Day, s': E.Sys)
    requires Progress(s0, s, published) && day !in published && Leads(s, s', Unsaved(day))
    ensures Reaches(s0, s') && Inv(s') && UnsavedAccount(s0, s', published, day)
  {
    hide Reaches, Inv, OnDisk, OnlyListed, CountIn, InFlight, Record, PartsGain;
    ReachesTrans(s0, s, s');
    forall id: SeriesId, x: Sample
      ensures var l0, l := Held(s0, id, x), Held(s', id, x);
              if DayOf(x.t) == day
              then l.mem == l0.mem && l.listed + l.disk == l0.listed + l0.disk + l0.mem && l.listed >= l0.mem && l.disk >= l0.disk
              else l.mem == 0 && PartsGain(l0, l, DayOf(x.t) in published)
    {
      assert Held(s', id, x) == Record(Held(s, id, x), Unsaved(day), [], x);
      FailedGain(Held(s0, id, x), Held(s, id, x), Held(s', id, x), Unsaved(day), day, published, x);
    }
  }

  lemma FlushDone(s0: E.Sys, s: E.Sys, published: set<Day>)
    requires Progress(s0, s, published) && s.flush.FVisiting? && s.flush.todo == {}
    ensures var s' := s.(flush := E.FIdle);
            Reaches(s0, s') && Inv(s') && FlushAccount(s0, s', published)
  {
    hide Reaches, Inv, OnDisk, OnlyListed, CountIn, InFlight, HeldChanges;
    FlushEndPath(s);
    ReachesTrans(s0, s, s.(flush := E.FIdle));
  }

  /** Some key: Go visits the keys of a map in any order. */
  method AnyKey<T(==)>(keys: set<T>) returns (k: T)
    requires keys != {}
    ensures k in keys
  {
    k :| k in keys;
  }

  lemma FirstPartition()
    ensures E.OpensAs(E.NEW_DIR, E.Partition({}, 1))
  {
  }

  lemma FailsEarly(s0: E.Sys, s: E.Sys, day: Day, data: Series)
    requires Leads(s0, s, Silent)
    requires (s.flush.FVisiting? && day in s.flush.todo) || (s.flush.FDay? && s.flush.day == day && s.flush.stage == E.Indexed)
    requires data == DayPart(s.flush.batch, day)
    ensures Leads(s0, s.(mem := Joined(s.mem, data), flush := E.FIdle), Event.DayFailed(day))
  {
    hide Inv, Reaches, HeldChanges, Joined, Permutes, DayPart;
    PermutesSelf(data);
    FlushFailsEarlyPath(s0, s, day, data);
  }

  lemma IndexFrame(s: E.Sys, day: Day, keys: set<SeriesId>, f: E.Flush)
    ensures IndexedDay(s.(flush := f), day, keys) == IndexedDay(s, day, keys).(flush := f)
  {
  }

  lemma TakenIs(s: E.Sys, d: Day)
    requires d in s.partitions && d in s.disk.days
    ensures IdTaken(s, d) == s.(disk := E.SetDir(s.disk, d, E.DirOf(s.disk, d)),
                                partitions := s.partitions[d := E.Partition(s.partitions[d].parts, s.partitions[d].nextID + 1)])
  {
    assert s.disk.days[d := s.disk.days[d]] == s.disk.days;
  }

  lemma OrphanIs(s: E.Sys, d: Day, part: PartDir)
    requires d in s.partitions
    ensures var dd, p := E.DirOf(s.disk, d), s.partitions[d];
            PartOrphaned(s, d, part) ==
            s.(disk := E.SetDir(s.disk, d, E.DayDir(dd.dirs[p.nextID := part], dd.staging, dd.manifest)),
               partitions := s.partitions[d := E.Partition(p.parts, p.nextID + 1)])
  {
  }

  lemma MergedIs(s: E.Sys, d: Day, names: set<PartId>, part: PartDir)
    requires d in s.partitions
    ensures var dd, p := E.DirOf(s.disk, d), s.partitions[d];
            var parts := p.parts - names + {p.nextID};
            PartMerged(s, d, names, part) ==
            s.(disk := E.SetDir(s.disk, d, E.DayDir(dd.dirs[p.nextID := part] - names, dd.staging, parts)),
               partitions := s.partitions[d := E.Partition(parts, p.nextID + 1)])
  {
  }

  lemma PartsMinus(dirs: map<PartId, Files>, names: set<PartId>)
    ensures P.PartsOf(dirs - names) == P.PartsOf(dirs) - names
  {
    hide P.PartOf;
  }

  lemma SmallListed(dd: E.DayDir, live: E.Partition)
    ensures E.SmallParts(dd, live) <= live.parts
  {
  }

  // ---------- forced merges ----------

  /** The merge of one day has failed; some days before it are merged, and the rest are as they were. */
  ghost predicate StoppedAt(s0: E.Sys, s: E.Sys) {
    exists done: set<Day>, day: Day, r: P.Outcome ::
      && MergedDays(s0, s, done, {day}) && day !in done && (r == P.Unstaged || r == P.Unsaved)
      && Compacts(DayOn(s0, day), 2, r, DayOn(s, day))
  }

  lemma NoDaySet(list: seq<Day>)
    ensures DaySet(list[..0]) == {}
  {
  }

  lemma DaySetGrows(list: seq<Day>, i: nat)
    requires i < |list| && list[i] !in list[..i] && list[..i + 1] == list[..i] + [list[i]]
    ensures DaySet(list[..i + 1]) == DaySet(list[..i]) + {list[i]} && list[i] !in DaySet(list[..i])
  {
  }

  lemma DaySetAll(list: seq<Day>, days: set<Day>)
    requires forall d: Day :: d in list[..|list|] <==> d in days
    ensures DaySet(list[..|list|]) == days
  {
    forall d: Day ensures d in DaySet(list[..|list|]) <==> d in days {
      assert d in list[..|list|] <==> d in days;
    }
  }

  lemma StopsAt(s0: E.Sys, s: E.Sys, done: set<Day>, day: Day, r: P.Outcome, s': E.Sys)
    requires MergedDays(s0, s, done, {}) && day !in done && OthersKept(s, s', day)
    requires (r == P.Unstaged || r == P.Unsaved) && Compacts(DayOn(s, day), 2, r, DayOn(s', day))
    ensures StoppedAt(s0, s')
  {
    hide Compacts, DayOn, OthersKept, MergedDays;
    OneUnmerged(s0, s, done, day, s');
  }

  /** The first i days have no two small parts. */
  ghost predicate FewUpTo(s: E.Sys, list: seq<Day>, i: nat)
    requires i <= |list|
  {
    forall d :: d in list[..i] ==> d in s.partitions && |SmallOf(s, d)| < 2
  }

  lemma NoneFew(s: E.Sys, list: seq<Day>)
    ensures FewUpTo(s, list, 0)
  {
  }

  lemma AllFew(s: E.Sys, list: seq<Day>)
    requires FewUpTo(s, list, |list|) && forall d :: d in list[..|list|] <==> d in s.partitions.Keys
    ensures forall d :: d in s.partitions ==> |SmallOf(s, d)| < 2
  {
    hide E.SmallParts;
    forall d | d in s.partitions ensures |SmallOf(s, d)| < 2 {
      assert d in list[..|list|];
    }
  }

  lemma FewStep(s: E.Sys, list: seq<Day>, i: nat, s': E.Sys)
    requires i < |list| && FewUpTo(s, list, i) && list[i] in s.partitions
    requires list[..i + 1] == list[..i] + [list[i]] && list[i] !in list[..i]
    requires if |SmallOf(s, list[i])| < 2 then s' == s else MergedTo(s, list[i], P.Done, s')
    ensures FewUpTo(s', list, i + 1)
  {
    var day := list[i];
    if |SmallOf(s, day)| < 2 {
      assert FewUpTo(s', list, i + 1);
    } else {
      NoSmallLeft(s, day, s');
      OthersSame(s, day, s');
      hide MergedTo, SmallOf;
    }
  }

  lemma OthersSame(s: E.Sys, day: Day, s': E.Sys)
    requires day in s.partitions && MergedTo(s, day, P.Done, s')
    ensures forall d :: d in s.partitions && d != day ==> d in s'.partitions && SmallOf(s', d) == SmallOf(s, d)
  {
    hide E.MergesInto, Sorts;
  }

  lemma KeptTrans(s: E.Sys, t: E.Sys, u: E.Sys)
    requires Reaches(s, t) && HeldKept(s, t) && Inv(t) && Reaches(t, u) && HeldKept(t, u)
    ensures Reaches(s, u) && HeldKept(s, u) && Inv(u)
  {
    hide Reaches, Inv, Held;
    ReachesTrans(s, t, u);
    ReachesInv(t, u);
  }

  lemma MapMinus<V>(m: map<Day, V>, d: Day, v: V)
    requires d !in m
    ensures m[d := v] - {d} == m
  {
  }

  /** The listed parts of an open partition can be read. */
  lemma OpenReads(p: P.Partition)
    requires p.Valid() && !p.dropped
    ensures P.Names(p.parts) <= p.dirs.Keys
  {
  }

  lemma RestKeys(ps: map<Day, P.Partition>)
    ensures DirsOf(ps).Keys == ps.Keys && LivesOf(ps).Keys == ps.Keys
  {
  }

  /** The least day past c and all of days. */
  ghost predicate IsBound(c: Day, days: set<Day>, bound: Day) {
    c <= bound && (forall d :: d in days ==> d < bound) && (bound == c || bound - 1 in days)
  }

  lemma {:induction false} BoundOver(c: Day, days: set<Day>) returns (bound: Day)
    ensures IsBound(c, days, bound)
    decreases days
  {
    bound := c;
    if days != {} {
      var d := Member(days);
      bound := BoundOver(c, days - {d});
      assert days == (days - {d}) + {d};
      if d >= bound {
        bound := d + 1;
      }
    }
  }

  lemma ExpiryCutoff(s: E.Sys, gone: set<Day>, c: Day)
    ensures Expiry(s, gone) == Expiry(s, gone).(cutoff := s.cutoff)
  {
  }

  lemma ExpiryNone(s: E.Sys)
    ensures Expiry(s, {}) == s
  {
    assert s.disk.days - {} == s.disk.days && s.disk.inverted - {} == s.disk.inverted;
    assert s.partitions - {} == s.partitions;
    assert s.reg.inverted - {} == s.reg.inverted && s.reg.persisted - {} == s.reg.persisted;
  }

  lemma DaySetStep(days: seq<Day>, i: nat)
    requires i < |days| && forall i, j :: 0 <= i < j < |days| ==> days[i] != days[j]
    ensures DaySet(days[..i + 1]) == DaySet(days[..i]) + {days[i]} && days[i] !in DaySet(days[..i])
  {
    assert days[..i + 1] == days[..i] + [days[i]];
  }

  // ---------- queries ----------

  /** merged holds what the listed parts hold, for the window, on the first i days. */
  ghost predicate ScannedDays(merged: Series, s: E.Sys, list: seq<Day>, i: nat, want: set<SeriesId>, start: Int64, end: Int64)
    requires i <= |list|
  {
    forall id: SeriesId, x: Sample ::
      CountIn(merged, id, x) ==
      if id in want && InWindow(x, start, end) && DayOf(x.t) in list[..i] then InParts(s, id, x) else 0
  }

  lemma ScannedNone(s: E.Sys, list: seq<Day>, want: set<SeriesId>, start: Int64, end: Int64)
    ensures ScannedDays(map[], s, list, 0, want, start, end)
  {
    hide InParts, InWindow;
  }

  lemma ScannedOne(before: Series, merged: Series, s: E.Sys, list: seq<Day>, i: nat, want: set<SeriesId>, start: Int64, end: Int64)
    requires Inv(s) && s.flush == E.FIdle && s.merge == E.MIdle && s.retention == E.RIdle
    requires i < |list| && list[i] in s.partitions && list[i] !in list[..i] && list[..i + 1] == list[..i] + [list[i]]
    requires ScannedDays(before, s, list, i, want, start, end)
    requires forall id: SeriesId, x: Sample ::
               CountIn(merged, id, x) == CountIn(before, id, x) +
               if id in want && InWindow(x, start, end)
               then SumOver(s.partitions[list[i]].parts, E.DirOf(s.disk, list[i]).dirs, id, x) else 0
    ensures ScannedDays(merged, s, list, i + 1, want, start, end)
  {
    AtRestGood(s);
    hide Inv, Good, InParts, InWindow, CountIn, SumOver;
    forall id: SeriesId, x: Sample
      ensures CountIn(merged, id, x) ==
              if id in want && InWindow(x, start, end) && DayOf(x.t) in list[..i + 1] then InParts(s, id, x) else 0
    {
      ScanCount(State(s, [], SIdle, {}), list[i], id, x);
    }
  }

  lemma ScannedOutside(merged: Series, s: E.Sys, list: seq<Day>, i: nat, want: set<SeriesId>, start: Int64, end: Int64)
    requires i < |list| && list[..i + 1] == list[..i] + [list[i]] && !(DayOf(start) <= list[i] <= DayOf(end))
    requires ScannedDays(merged, s, list, i, want, start, end)
    ensures ScannedDays(merged, s, list, i + 1, want, start, end)
  {
    hide InParts, CountIn;
    forall x: Sample | InWindow(x, start, end) ensures DayOf(x.t) != list[i] {
      WindowDays(x, start, end);
    }
  }

  lemma ScannedAll(merged: Series, s: E.Sys, list: seq<Day>, want: set<SeriesId>, start: Int64, end: Int64)
    requires s.partitions.Keys == s.disk.days.Keys && ScannedDays(merged, s, list, |list|, want, start, end)
    requires forall d: Day :: d in list[..|list|] <==> d in s.partitions.Keys
    ensures forall id: SeriesId, x: Sample ::
              CountIn(merged, id, x) == if id in want && InWindow(x, start, end) then InParts(s, id, x) else 0
  {
    hide InWindow, CountIn;
    forall id: SeriesId, x: Sample | DayOf(x.t) !in list[..|list|] ensures InParts(s, id, x) == 0 {
      assert DayOf(x.t) !in s.partitions.Keys;
    }
    hide InParts;
  }

  function IdSet(ids: seq<SeriesId>): set<SeriesId> {
    set id | id in ids
  }

  /** The memory tier: the buffered samples of the window, after those already found. */
  method AddBuffer(found: Series, ids: seq<SeriesId>, mem: Series, start: Int64, end: Int64) returns (merged: Series)
    requires forall i, j :: 0 <= i < j < |ids| ==> ids[i] < ids[j]
    ensures forall id: SeriesId, x: Sample ::
              CountIn(merged, id, x) == CountIn(found, id, x) +
              if id in IdSet(ids) && InWindow(x, start, end) then CountIn(mem, id, x) else 0
  {
    hide CountIn, InWindow, Buffered;
    merged := found;
    var i := 0;
    BufferedNone(found, ids, mem, start, end);
    while i < |ids|
      invariant 0 <= i <= |ids| && Buffered(merged, found, ids, i, mem, start, end)
    {
      var id := ids[i];
      var clipped := ClipLoop(if id in mem then mem[id] else [], start, end);
      P.NotBefore(ids, i);
      BufferedStep(merged, found, ids, i, mem, start, end, clipped);
      merged := merged[id := (if id in merged then merged[id] else []) + clipped];
      i := i + 1;
    }
    BufferedAll(merged, found, ids, mem, start, end);
  }

  ghost predicate Buffered(merged: Series, found: Series, ids: seq<SeriesId>, i: nat, mem: Series, start: Int64, end: Int64)
    requires i <= |ids|
  {
    forall id: SeriesId, x: Sample ::
      CountIn(merged, id, x) == CountIn(found, id, x) +
      if id in ids[..i] && InWindow(x, start, end) then CountIn(mem, id, x) else 0
  }

  lemma BufferedNone(found: Series, ids: seq<SeriesId>, mem: Series, start: Int64, end: Int64)
    ensures Buffered(found, found, ids, 0, mem, start, end)
  {
    hide CountIn, InWindow;
  }

  lemma BufferedStep(merged: Series, found: Series, ids: seq<SeriesId>, i: nat, mem: Series, start: Int64, end: Int64,
                     clipped: seq<Sample>)
    requires i < |ids| && ids[i] !in ids[..i] && Buffered(merged, found, ids, i, mem, start, end)
    requires clipped == Clip(if ids[i] in mem then mem[ids[i]] else [], start, end)
    ensures Buffered(merged[ids[i] := (if ids[i] in merged then merged[ids[i]] else []) + clipped], found, ids, i + 1, mem, start, end)
  {
    hide InWindow, Clip;
    assert ids[..i + 1] == ids[..i] + [ids[i]];
    forall x: Sample {
      ClipCount(if ids[i] in mem then mem[ids[i]] else [], start, end, x);
    }
  }

  lemma BufferedAll(merged: Series, found: Series, ids: seq<SeriesId>, mem: Series, start: Int64, end: Int64)
    requires Buffered(merged, found, ids, |ids|, mem, start, end)
    ensures forall id: SeriesId, x: Sample ::
              CountIn(merged, id, x) == CountIn(found, id, x) +
              if id in IdSet(ids) && InWindow(x, start, end) then CountIn(mem, id, x) else 0
  {
    hide CountIn, InWindow;
    assert ids[..|ids|] == ids;
  }

  lemma NoResults()
    ensures forall id: SeriesId, x: Sample :: ResultCount([], id, x) == 0
  {
  }

  lemma AnswerNone(s: E.Sys, matchers: seq<S.Matcher>, start: Int64, end: Int64)
    requires forall id: SeriesId, x: Sample :: ResultCount([], id, x) == 0
    requires matchers != [] ==> forall id :: id !in S.Matching(s.reg.inverted, matchers)
    ensures IsAnswer(s, matchers, start, end, [])
  {
    hide Held, S.Matching, InWindow, ResultCount;
  }

  lemma AnswerIs(s: E.Sys, matchers: seq<S.Matcher>, start: Int64, end: Int64, merged: Series, ids: seq<SeriesId>,
                 results: seq<SeriesResult>)
    requires s.flush == E.FIdle && matchers != [] && forall id :: id in ids <==> id in S.Matching(s.reg.inverted, matchers)
    requires forall id: SeriesId, x: Sample ::
               CountIn(merged, id, x) == if id in IdSet(ids) && InWindow(x, start, end) then InParts(s, id, x) + CountIn(s.mem, id, x) else 0
    requires InOrder(results) && forall i :: 0 <= i < |results| ==> WellFormedResult(s.reg, results[i])
    requires forall id: SeriesId, x: Sample :: ResultCount(results, id, x) == if id in ids then CountIn(merged, id, x) else 0
    ensures IsAnswer(s, matchers, start, end, results)
  {
    hide Held, S.Matching, InWindow, ResultCount, InParts, CountIn, InOrder, WellFormedResult;
    forall id: SeriesId, x: Sample
      ensures ResultCount(results, id, x) ==
              if id in S.Matching(s.reg.inverted, matchers) && InWindow(x, start, end) then Total(Held(s, id, x)) else 0
    {
      HeldAtRest(s, id, x);
    }
  }

  // ---------- queries and the log ----------

  /** In an answer, a series has one result, and the count of its samples is that result's. */
  lemma {:induction false} OneResult(results: seq<SeriesResult>, i: nat, x: Sample)
    requires InOrder(results) && i < |results|
    ensures ResultCount(results, results[i].id, x) == multiset(results[i].samples)[x]
  {
    var last := |results| - 1;
    if i < last {
      OneResult(results[..last], i, x);
    } else {
      NoEarlier(results[..last], results[i].id, x);
    }
  }

  lemma {:induction false} NoEarlier(results: seq<SeriesResult>, id: SeriesId, x: Sample)
    requires forall i :: 0 <= i < |results| ==> results[i].id != id
    ensures ResultCount(results, id, x) == 0
  {
    if results != [] {
      NoEarlier(results[..|results| - 1], id, x);
    }
  }

  /** A run that ends in s with no separator in a registered label, and a window above every cutoff. */
  ghost predicate AnswersAfter(states: seq<State>, moves: seq<Move>, s: E.Sys, matchers: seq<S.Matcher>, start: Int64) {
    && IsRun(states, moves) && states[|moves|].sys == s && S.CleanNames(s.reg)
    && S.CleanMatchers(matchers) && matchers != [] && DayOf(start) >= s.cutoff
  }

  lemma AnswerCount(states: seq<State>, moves: seq<Move>, s: E.Sys, matchers: seq<S.Matcher>, start: Int64, end: Int64,
                    results: seq<SeriesResult>, k: Str, x: Sample)
    requires AnswersAfter(states, moves, s, matchers, start) && IsAnswer(s, matchers, start, end, results)
    requires InWindow(x, start, end)
    ensures var log := Total(Recorded(states, moves, |moves|, k, x));
            if k !in s.reg.byKey then log == 0
            else
              var id := s.reg.byKey[k];
              && id in s.reg.names && CanonicalKey(s.reg.names[id]) == k
              && ResultCount(results, id, x) == if S.Satisfies(s.reg.names[id], matchers) then log else 0
  {
    hide Moves, Begins, Good, Held, Recorded, S.Satisfies, CanonicalKey, S.CleanNames, S.CleanMatchers, ResultCount, S.Matching,
         InOrder, WellFormedResult, InWindow;
    var p := states[|moves|];
    WindowDays(x, start, end);
    RunGood(states, moves, |moves|);
    RefinesLog(states, moves, |moves|, k, x);
    UnusedRecent(p, x);
    if k in s.reg.byKey {
      var id := s.reg.byKey[k];
      T.RegisteredKey(p, k);
      if id in S.Matching(s.reg.inverted, matchers) {
        MatchedSatisfies(p, matchers, id);
      } else if Total(Held(s, id, x)) > 0 {
        StoredIsMatched(p, matchers, id, x);
      }
    }
  }

  /** One result for each series whose labels have every matcher and of which the log holds a sample in the
      window, in ascending order of ID, and in it exactly those samples, sorted by time and each as often as
      the log holds it. */
  ghost predicate IsTheLog(states: seq<State>, moves: seq<Move>, r: S.State, matchers: seq<S.Matcher>, start: Int64, end: Int64,
                           results: seq<SeriesResult>)
    requires |states| == |moves| + 1
  {
    && InOrder(results)
    && (forall i :: 0 <= i < |results| ==> ResultOfLog(states, moves, matchers, start, end, results[i]))
    && forall k: Str, x: Sample ::
         InWindow(x, start, end) && Total(Recorded(states, moves, |moves|, k, x)) > 0 ==> HasResult(r, results, matchers, k)
  }

  ghost predicate ResultOfLog(states: seq<State>, moves: seq<Move>, matchers: seq<S.Matcher>, start: Int64, end: Int64,
                              result: SeriesResult)
    requires |states| == |moves| + 1
  {
    && S.Satisfies(result.labels, matchers) && SortedByTime(result.samples)
    && forall x: Sample ::
         multiset(result.samples)[x] ==
         if InWindow(x, start, end) then Total(Recorded(states, moves, |moves|, CanonicalKey(result.labels), x)) else 0
  }

  /** A query after any run returns the log. */
  lemma AnswerIsTheLog(states: seq<State>, moves: seq<Move>, s: E.Sys, matchers: seq<S.Matcher>, start: Int64, end: Int64,
                       results: seq<SeriesResult>)
    requires AnswersAfter(states, moves, s, matchers, start) && IsAnswer(s, matchers, start, end, results)
    ensures IsTheLog(states, moves, s.reg, matchers, start, end, results)
  {
    hide Moves, Begins, IsAnswer, Recorded, CanonicalKey, S.Satisfies, ResultCount, InWindow, ResultOfLog, HasResult, S.CleanNames,
         S.CleanMatchers, InOrder, WellFormedResult;
    AnswerShape(s, matchers, start, end, results);
    forall i | 0 <= i < |results| ensures ResultOfLog(states, moves, matchers, start, end, results[i]) {
      ResultIsTheLog(states, moves, s, matchers, start, end, results, i);
    }
    forall k: Str, x: Sample | InWindow(x, start, end) && Total(Recorded(states, moves, |moves|, k, x)) > 0
      ensures HasResult(s.reg, results, matchers, k)
    {
      AnswerCount(states, moves, s, matchers, start, end, results, k, x);
      Answered(s.reg, results, matchers, k, x);
    }
  }

  /** So does QueryRange after any calls that follow a run: their steps make a longer run, of which the
      answer is the log. */
  lemma CallsAnswerTheLog(states: seq<State>, moves: seq<Move>, s: E.Sys, matchers: seq<S.Matcher>, start: Int64, end: Int64,
                          results: seq<SeriesResult>)
    returns (states': seq<State>, moves': seq<Move>)
    requires IsRun(states, moves) && Unspoilt(states[|moves|]) && Reaches(states[|moves|].sys, s)
    requires IsAnswer(s, matchers, start, end, results) && matchers != []
    requires S.CleanNames(s.reg) && S.CleanMatchers(matchers) && DayOf(start) >= s.cutoff
    ensures IsRun(states', moves') && moves <= moves' && states <= states' && states'[|moves'|].sys == s
    ensures IsTheLog(states', moves', s.reg, matchers, start, end, results)
  {
    hide Moves, Begins, IsAnswer, IsTheLog, S.CleanNames, S.CleanMatchers, Unspoilt, Reaches;
    states', moves' := ReachesRuns(states, moves, s);
    AnswerIsTheLog(states', moves', s, matchers, start, end, results);
  }

  /** The series with key k, if its labels have every matcher, has a result. */
  ghost predicate HasResult(r: S.State, results: seq<SeriesResult>, matchers: seq<S.Matcher>, k: Str) {
    && k in r.byKey && r.byKey[k] in r.names
    && (S.Satisfies(r.names[r.byKey[k]], matchers) ==> exists i :: 0 <= i < |results| && results[i].id == r.byKey[k])
  }

  lemma Answered(r: S.State, results: seq<SeriesResult>, matchers: seq<S.Matcher>, k: Str, x: Sample)
    requires k in r.byKey && r.byKey[k] in r.names
    requires S.Satisfies(r.names[r.byKey[k]], matchers) ==> ResultCount(results, r.byKey[k], x) > 0
    ensures HasResult(r, results, matchers, k)
  {
    hide S.Satisfies;
    if forall i :: 0 <= i < |results| ==> results[i].id != r.byKey[k] {
      NoEarlier(results, r.byKey[k], x);
    }
  }

  lemma AnswerShape(s: E.Sys, matchers: seq<S.Matcher>, start: Int64, end: Int64, results: seq<SeriesResult>)
    requires IsAnswer(s, matchers, start, end, results)
    ensures InOrder(results) && forall i :: 0 <= i < |results| ==> WellFormedResult(s.reg, results[i])
    ensures forall id: SeriesId, x: Sample :: ResultCount(results, id, x) > 0 ==>
              matchers != [] && id in S.Matching(s.reg.inverted, matchers) && InWindow(x, start, end)
  {
    hide InOrder, WellFormedResult, ResultCount, S.Matching, InWindow, Held;
  }

  lemma ResultIsTheLog(states: seq<State>, moves: seq<Move>, s: E.Sys, matchers: seq<S.Matcher>, start: Int64, end: Int64,
                       results: seq<SeriesResult>, i: nat)
    requires AnswersAfter(states, moves, s, matchers, start) && IsAnswer(s, matchers, start, end, results)
    requires i < |results|
    ensures ResultOfLog(states, moves, matchers, start, end, results[i])
  {
    hide IsAnswer, Recorded, CanonicalKey, S.Satisfies, ResultCount, InWindow, SortedByTime, Moves, Begins, Good, S.Matching,
         S.CleanNames, S.CleanMatchers;
    var r, p := results[i], states[|moves|];
    AnswerShape(s, matchers, start, end, results);
    var y := r.samples[0];
    assert y in multiset(r.samples);
    OneResult(results, i, y);
    RunGood(states, moves, |moves|);
    MatchedSatisfies(p, matchers, r.id);
    var k := KeyOfId(p, r.id);
    forall x: Sample
      ensures multiset(r.samples)[x] ==
              if InWindow(x, start, end) then Total(Recorded(states, moves, |moves|, CanonicalKey(r.labels), x)) else 0
    {
      OneResult(results, i, x);
      if InWindow(x, start, end) {
        AnswerCount(states, moves, s, matchers, start, end, results, k, x);
      }
    }
  }

  lemma KeyOfId(p: State, id: SeriesId) returns (k: Str)
    requires Good(p) && id in p.sys.reg.names
    ensures k in p.sys.reg.byKey && p.sys.reg.byKey[k] == id && S.LabelsOf(p.sys.reg, id) == p.sys.reg.names[id]
    ensures CanonicalKey(p.sys.reg.names[id]) == k
  {
    hide Good, CanonicalKey;
    k := NamedKey(p, id);
    T.RegisteredKey(p, k);
  }

  /** The results account for the first i series. */
  ghost predicate CollectedUpTo(results: seq<SeriesResult>, merged: Series, ids: seq<SeriesId>, i: nat)
    requires i <= |ids|
  {
    forall id: SeriesId, x: Sample :: ResultCount(results, id, x) == if id in ids[..i] then CountIn(merged, id, x) else 0
  }

  lemma CollectedNone(results: seq<SeriesResult>, merged: Series, ids: seq<SeriesId>, i: nat)
    requires i < |ids| && CollectedUpTo(results, merged, ids, i)
    requires ids[i] in merged ==> merged[ids[i]] == []
    ensures CollectedUpTo(results, merged, ids, i + 1)
  {
    hide ResultCount;
    assert ids[..i + 1] == ids[..i] + [ids[i]];
  }

  lemma CollectedOne(results: seq<SeriesResult>, merged: Series, ids: seq<SeriesId>, i: nat, labels: seq<Label>, sorted: seq<Sample>)
    requires i < |ids| && ids[i] !in ids[..i] && CollectedUpTo(results, merged, ids, i)
    requires ids[i] in merged && multiset(sorted) == multiset(merged[ids[i]])
    ensures CollectedUpTo(results + [SeriesResult(ids[i], labels, sorted)], merged, ids, i + 1)
  {
    var results' := results + [SeriesResult(ids[i], labels, sorted)];
    assert results'[..|results|] == results;
    assert ids[..i + 1] == ids[..i] + [ids[i]];
    forall id: SeriesId, x: Sample
      ensures ResultCount(results', id, x) == ResultCount(results, id, x) + if id == ids[i] then multiset(sorted)[x] else 0
    {
    }
    hide ResultCount;
  }

  // ---------- what a merge of one day does ----------

  function SmallOf(s: E.Sys, d: Day): set<PartId>
    requires d in s.partitions
  {
    E.SmallParts(E.DirOf(s.disk, d), s.partitions[d])
  }

  /** The small parts of the day have become one big part that holds all they held; or the write has
      failed; or the manifest was not saved and the big part is an orphan. */
  ghost predicate MergedTo(s: E.Sys, d: Day, r: P.Outcome, s': E.Sys)
    requires d in s.partitions
  {
    exists merged: Series, sorted: Series ::
      && E.MergesInto(SmallOf(s, d), E.DirOf(s.disk, d).dirs, merged) && Sorts(sorted, merged)
      && s' == if r == P.Unstaged then IdTaken(s, d)
               else if r == P.Unsaved then PartOrphaned(s, d, PartDir(sorted, Big))
               else PartMerged(s, d, SmallOf(s, d), PartDir(sorted, Big))
  }

  lemma MergedToIs(s: E.Sys, d: Day, r: P.Outcome, merged: Series, sorted: Series, f: E.Flush, s': E.Sys)
    requires d in s.partitions && s.flush == s'.flush
    requires E.MergesInto(SmallOf(s, d), E.DirOf(s.disk, d).dirs, merged) && Sorts(sorted, merged)
    requires s'.(flush := f) == if r == P.Unstaged then IdTaken(s.(flush := f), d)
                                else if r == P.Unsaved then PartOrphaned(s.(flush := f), d, PartDir(sorted, Big))
                                else PartMerged(s.(flush := f), d, SmallOf(s, d), PartDir(sorted, Big))
    ensures MergedTo(s, d, r, s')
  {
    hide E.MergesInto, Sorts, E.SmallParts;
    FlushFrame(s, d, PartDir(sorted, Big), f);
    MergeFrameOf(s, d, SmallOf(s, d), PartDir(sorted, Big), f);
    hide IdTaken, PartOrphaned, PartMerged;
    SameButFlush(s', f, if r == P.Unstaged then IdTaken(s, d)
                        else if r == P.Unsaved then PartOrphaned(s, d, PartDir(sorted, Big))
                        else PartMerged(s, d, SmallOf(s, d), PartDir(sorted, Big)));
    PathFlush(s, d, SmallOf(s, d), PartDir(sorted, Big));
  }

  lemma SameButFlush(a: E.Sys, f: E.Flush, b: E.Sys)
    requires a.(flush := f) == b.(flush := f)
    ensures a.flush == b.flush ==> a == b
  {
  }

  lemma PathFlush(s: E.Sys, d: Day, names: set<PartId>, part: PartDir)
    requires d in s.partitions
    ensures IdTaken(s, d).flush == PartOrphaned(s, d, part).flush == PartMerged(s, d, names, part).flush == s.flush
  {
  }

  /** After a merge no small part is left. */
  lemma NoSmallLeft(s: E.Sys, d: Day, s': E.Sys)
    requires d in s.partitions && MergedTo(s, d, P.Done, s')
    ensures d in s'.partitions && SmallOf(s', d) == {}
  {
    hide E.MergesInto, Sorts;
  }

  // ---------- changing one partition ----------

  /** The partition of day, and the others. */
  lemma OneOpen(ps: map<Day, P.Partition>, day: Day)
    requires AllOpen(ps) && day in ps
    ensures ps[day].Valid() && !ps[day].dropped && ps[day].day == day
    ensures AllOpen(ps - {day}) && ps[day] !in (ps - {day}).Values && (ps - {day})[day := ps[day]] == ps
  {
    hide P.Partition.Valid;
    var rest := ps - {day};
    forall p | p in rest.Values ensures p.day != day {
      var d := KeyOf(rest, p);
      assert d in rest;
    }
    assert rest[day := ps[day]].Keys == ps.Keys;
  }

  /** One day's directory and part list have changed, nothing else. */
  lemma DayChanged(s: E.Sys, s': E.Sys, dirs: map<Day, E.DayDir>, lives: map<Day, E.Partition>, day: Day,
                   dd: E.DayDir, live: E.Partition, dd': E.DayDir, live': E.Partition)
    requires s.disk.days == dirs[day := dd] && s.partitions == lives[day := live]
    requires s'.disk.days == dirs[day := dd'] && s'.partitions == lives[day := live']
    requires s' == s.(disk := s.disk.(days := s'.disk.days), partitions := s'.partitions)
    ensures s' == s.(disk := E.SetDir(s.disk, day, dd'), partitions := s.partitions[day := live'])
    ensures E.DirOf(s.disk, day) == dd && s.partitions[day] == live
    ensures dd' == dd ==> s'.disk == s.disk
  {
    assert s.disk.days[day := dd'] == s'.disk.days;
    assert s.partitions[day := live'] == s'.partitions;
  }

  lemma PartitionAdded(ps: map<Day, P.Partition>, day: Day, p: P.Partition)
    requires AllOpen(ps) && p.Valid() && !p.dropped && p.day == day
    ensures AllOpen(ps[day := p])
    ensures DirsOf(ps[day := p]) == DirsOf(ps)[day := p.Dir()]
    ensures LivesOf(ps[day := p]) == LivesOf(ps)[day := p.Live()]
  {
    hide P.Partition.Valid, P.Partition.Dir, P.Partition.Live;
  }

  lemma AddsParts(dirs: map<PartId, Files>, id: PartId, dirs': map<PartId, Files>, data: Series, tier: Tier)
    requires P.Adds(dirs, id, dirs', data, tier)
    ensures id in dirs'
    ensures var part := P.PartOf(dirs'[id]);
            P.PartsOf(dirs') == P.PartsOf(dirs)[id := part] && part == PartDir(part.data, tier) && Sorts(part.data, data)
  {
    hide P.PartOf, Sorts, P.Written;
    assert P.PartsOf(dirs').Keys == P.PartsOf(dirs)[id := P.PartOf(dirs'[id])].Keys;
  }

  lemma NothingOnDisk()
    ensures P.AllWritten(map[]) && P.Distinct([]) && P.Names([]) == {} && P.PartsOf(map[]) == map[]
  {
  }

  lemma UnindexedFew(r: S.State, day: Day, keys: set<SeriesId>)
    ensures S.Unindexed(r, day, keys) <= keys
  {
  }

  lemma NothingMarked(r: S.State, day: Day)
    ensures S.Marked(r, day, {}) == r
  {
  }

  lemma JoinedSingle(mem: Series, id: SeriesId, samples: seq<Sample>)
    ensures Joined(mem, E.Singleton(id, samples)) == mem[id := (if id in mem then mem[id] else []) + samples]
  {
    var a, b := Joined(mem, E.Singleton(id, samples)), mem[id := (if id in mem then mem[id] else []) + samples];
    assert a.Keys == b.Keys;
    forall k | k in a ensures a[k] == b[k] {
      if k != id {
        assert mem[k] + [] == mem[k];
      }
    }
  }
}
