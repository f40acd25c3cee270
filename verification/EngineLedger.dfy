/** The engine against the simple thing it must agree with: a log of samples per series, of which the
    engine keeps each copy in the buffer, in the hands of a flush, in a part that is listed but missing from
    the saved manifest, or on disk for good. */
module EngineLedger {
  import opened Contents
  import opened Engine
  import opened EngineInvariant
  import opened Labels
  import opened Part
  import opened SortedIds
  import S = Series

  // ---------- the log ----------

  /** Where the copies of one sample of one series are. */
  datatype Ledger = Ledger(mem: nat, flight: nat, listed: nat, disk: nat)

  const NOTHING := Ledger(0, 0, 0, 0)

  datatype Event =
    | Silent
    | Appended(key: Str, samples: seq<Sample>)
    | Swapped
    | Persisted(day: Day)
    | Unsaved(day: Day)
    | Saved(day: Day)
    | Restored
    | DayFailed(day: Day)
    | Expired(day: Day)
    | Crashed

  /** What an event does to sample x of the series with canonical key k. A failed day comes back to
      the buffer; the days the flush had not reached are lost with it. A day whose manifest is not saved
      comes back too, although its part is listed; the next manifest saved for the day makes that part last. */
  function Record(l: Ledger, e: Event, k: Str, x: Sample): Ledger {
    match e
    case Silent => l
    case Appended(key, samples) => if key == k then l.(mem := l.mem + multiset(samples)[x]) else l
    case Swapped => l.(mem := 0, flight := l.flight + l.mem)
    case Persisted(d) => if DayOf(x.t) == d then Ledger(l.mem, 0, 0, l.disk + l.listed + l.flight) else l
    case Unsaved(d) =>
      if DayOf(x.t) == d then Ledger(l.mem + l.flight, 0, l.listed + l.flight, l.disk) else l.(flight := 0)
    case Saved(d) => if DayOf(x.t) == d then l.(listed := 0, disk := l.disk + l.listed) else l
    case Restored => l.(mem := l.mem + l.flight, flight := 0)
    case DayFailed(d) => l.(mem := l.mem + (if DayOf(x.t) == d then l.flight else 0), flight := 0)
    case Expired(d) => if DayOf(x.t) == d then l.(listed := 0, disk := 0) else l
    case Crashed => Ledger(0, 0, 0, l.disk)
  }

  function EventOf(s: Sys, step: Step): Event {
    if step.AppendBuffer? then
      if step.tid in s.appends then Appended(s.appends[step.tid].key, s.appends[step.tid].samples) else Silent
    else if step.FlushSwap? then Swapped
    else if step.FlushPublish? then if s.flush.FDay? then Persisted(s.flush.day) else Silent
    else if step.FlushManifestFails? then if s.flush.FDay? then Unsaved(s.flush.day) else Silent
    else if step.MergeSwap? then if s.merge.MRenamed? then Saved(s.merge.day) else Silent
    else if step.FlushRegistryFails? then Restored
    else if step.FlushDayFails? then DayFailed(step.day)
    else if step.RetentionDropDir? then Expired(step.day)
    else if step.Crash? then Crashed
    else Silent
  }

  // ---------- what the engine holds ----------

  function InFlight(f: Flush, id: SeriesId, x: Sample): nat {
    if f.FIdle? then 0
    else if (f.FVisiting? || f.FDay?) && DayOf(x.t) !in f.todo then 0
    else CountIn(f.batch, id, x)
  }

  ghost function OnDisk(days: map<Day, DayDir>, id: SeriesId, x: Sample): nat {
    var d := DayOf(x.t);
    if d in days then SumOver(days[d].manifest, days[d].dirs, id, x) else 0
  }

  /** In parts that are listed but not in the manifest. */
  ghost function OnlyListed(partitions: map<Day, Partition>, days: map<Day, DayDir>, id: SeriesId, x: Sample): nat {
    var d := DayOf(x.t);
    if d in partitions && d in days then SumOver(partitions[d].parts - days[d].manifest, days[d].dirs, id, x) else 0
  }

  ghost function Held(s: Sys, id: SeriesId, x: Sample): Ledger {
    Ledger(CountIn(s.mem, id, x), InFlight(s.flush, id, x), OnlyListed(s.partitions, s.disk.days, id, x), OnDisk(s.disk.days, id, x))
  }

  /** The copies of sample x of the series with canonical key k. */
  ghost function Tally(s: Sys, k: Str, x: Sample): Ledger {
    if k in s.reg.byKey then Held(s, s.reg.byKey[k], x) else NOTHING
  }

  // ---------- each step does to the engine what its event does to the log ----------

  /** Whatever is in a part belongs to a series with a forward record. */
  lemma OnDiskDurable(s: Sys, id: SeriesId, x: Sample)
    requires Inv(s) && OnDisk(s.disk.days, id, x) + OnlyListed(s.partitions, s.disk.days, id, x) > 0
    ensures var d := DayOf(x.t); id in s.disk.forward && d in s.disk.inverted && id in s.disk.inverted[d]
  {
    hide TodoOk, RegistryOk, IdsOk, PersistedOk, FindableOk, FlushOk, MergeOk, RetentionOk;
    var d := DayOf(x.t);
    var dd := s.disk.days[d];
    var n: PartId;
    if OnDisk(s.disk.days, id, x) > 0 {
      n := SumPositive(dd.manifest, dd.dirs, id, x);
    } else {
      n := SumPositive(s.partitions[d].parts - dd.manifest, dd.dirs, id, x);
    }
    assert d in s.partitions;
    assert PartOk(d, dd.dirs[n].data, s.disk.forward, s.disk.inverted);
  }

  lemma UnregisteredEmpty(s: Sys, id: SeriesId, x: Sample)
    requires Inv(s)
    ensures id !in s.disk.forward ==> OnDisk(s.disk.days, id, x) == 0
    ensures id !in s.reg.names ==> Held(s, id, x) == NOTHING
  {
    hide TodoOk, PersistedOk, FindableOk, FlushOk, MergeOk, RetentionOk, DaysOk, OnDisk, OnlyListed;
    if OnDisk(s.disk.days, id, x) + OnlyListed(s.partitions, s.disk.days, id, x) > 0 {
      OnDiskDurable(s, id, x);
    }
  }

  lemma SameKeySameId(r: S.State, a: Str, b: Str)
    requires S.Consistent(r) && a in r.byKey && b in r.byKey && r.byKey[a] == r.byKey[b]
    ensures a == b
  {
    hide SortedLabels;
  }

  lemma AppendTally(s: Sys, step: Step, s': Sys, k: Str, x: Sample)
    requires Inv(s) && (step.AppendResolve? || step.AppendIndex? || step.AppendBuffer?) && NextAppend(s, step, s')
    ensures Tally(s', k, x) == Record(Tally(s, k, x), EventOf(s, step), k, x)
  {
    hide *;
    if step.AppendResolve? {
      ResolveTally(s, step, s', k, x);
    } else if step.AppendIndex? {
      IndexTally(s, step, s', k, x);
    } else {
      BufferTally(s, step, s', k, x);
    }
  }

  lemma ResolveTally(s: Sys, step: Step, s': Sys, k: Str, x: Sample)
    requires Inv(s) && step.AppendResolve? && NextAppend(s, step, s')
    ensures Tally(s', k, x) == Record(Tally(s, k, x), EventOf(s, step), k, x)
  {
    hide *;
    ResolvedKeys(s, step, s', k);
    NextIdIsNew(s);
    UnregisteredEmpty(s, s.reg.nextID, x);
    ResolvedTally(s, step, s', k, x);
  }

  lemma ResolvedKeys(s: Sys, step: Step, s': Sys, k: Str)
    requires step.AppendResolve? && NextAppend(s, step, s')
    ensures s'.mem == s.mem && s'.flush == s.flush && s'.partitions == s.partitions && s'.disk == s.disk
    ensures k in s.reg.byKey ==> k in s'.reg.byKey && s'.reg.byKey[k] == s.reg.byKey[k]
    ensures k in s'.reg.byKey && k !in s.reg.byKey ==> s'.reg.byKey[k] == s.reg.nextID
  {
    hide CanonicalKey, SortedLabels;
  }

  lemma ResolvedTally(s: Sys, step: Step, s': Sys, k: Str, x: Sample)
    requires s'.mem == s.mem && s'.flush == s.flush && s'.partitions == s.partitions && s'.disk == s.disk
    requires k in s.reg.byKey ==> k in s'.reg.byKey && s'.reg.byKey[k] == s.reg.byKey[k]
    requires k in s'.reg.byKey && k !in s.reg.byKey ==> s'.reg.byKey[k] == s.reg.nextID
    requires step.AppendResolve? && Held(s, s.reg.nextID, x) == NOTHING
    ensures Tally(s', k, x) == Record(Tally(s, k, x), EventOf(s, step), k, x)
  {
    hide InFlight, OnDisk, OnlyListed, CountIn;
  }

  lemma NextIdIsNew(s: Sys)
    requires Inv(s)
    ensures s.reg.nextID !in s.reg.names
  {
    hide TodoOk, PersistedOk, FindableOk, FlushOk, MergeOk, RetentionOk, DaysOk, SortedLabels, CanonicalKey, S.WellIndexed;
  }

  lemma IndexTally(s: Sys, step: Step, s': Sys, k: Str, x: Sample)
    requires step.AppendIndex? && NextAppend(s, step, s')
    ensures Tally(s', k, x) == Record(Tally(s, k, x), EventOf(s, step), k, x)
  {
    hide OnDisk, OnlyListed, InFlight, CountIn, S.IndexedForDay;
    IndexIdentity(s.reg, step.day, s.appends[step.tid].id);
  }

  lemma AppendKey(s: Sys, tid: nat, k: Str)
    requires Inv(s) && tid in s.appends
    ensures var a := s.appends[tid];
            a.key in s.reg.byKey && s.reg.byKey[a.key] == a.id && (k in s.reg.byKey && s.reg.byKey[k] == a.id ==> k == a.key)
  {
    hide TodoOk, PersistedOk, FindableOk, FlushOk, MergeOk, RetentionOk, DaysOk, SortedLabels, CanonicalKey, S.WellIndexed;
    var a := s.appends[tid];
    assert a.key in s.reg.byKey && s.reg.byKey[a.key] == a.id;
    if k in s.reg.byKey && s.reg.byKey[k] == a.id {
      SameKeySameId(s.reg, k, a.key);
    }
  }

  lemma BufferTally(s: Sys, step: Step, s': Sys, k: Str, x: Sample)
    requires Inv(s) && step.AppendBuffer? && NextAppend(s, step, s')
    ensures Tally(s', k, x) == Record(Tally(s, k, x), EventOf(s, step), k, x)
  {
    hide Inv, OnDisk, OnlyListed, InFlight, CountIn, Joined;
    var a := s.appends[step.tid];
    AppendKey(s, step.tid, k);
    BufferCount(s.mem, a, if k in s.reg.byKey then s.reg.byKey[k] else 0, x);
  }

  lemma IndexIdentity(r: S.State, day: Day, id: SeriesId)
    ensures S.IndexedForDay(r, day, id).byKey == r.byKey
  {
  }

  lemma BufferCount(mem: Series, a: Append, id: SeriesId, x: Sample)
    ensures CountIn(Joined(mem, Singleton(a.id, a.samples)), id, x)
            == CountIn(mem, id, x) + if id == a.id then multiset(a.samples)[x] else 0
  {
    JoinedCount(mem, Singleton(a.id, a.samples), id, x);
  }

  lemma SameDay(days: map<Day, DayDir>, d: Day, dd: DayDir, id: SeriesId, x: Sample)
    requires d in days && dd.manifest == days[d].manifest && dd.manifest <= days[d].dirs.Keys
    requires forall n :: n in dd.manifest ==> n in dd.dirs && dd.dirs[n] == days[d].dirs[n]
    ensures OnDisk(days[d := dd], id, x) == OnDisk(days, id, x)
  {
    if DayOf(x.t) == d {
      SumFrame(dd.manifest, days[d].dirs, dd.dirs, id, x);
    }
  }

  lemma SameListed(partitions: map<Day, Partition>, days: map<Day, DayDir>, d: Day, p: Partition, dd: DayDir,
                   id: SeriesId, x: Sample)
    requires d in partitions && d in days && p.parts == partitions[d].parts && dd.manifest == days[d].manifest
    requires p.parts <= days[d].dirs.Keys && forall n :: n in p.parts ==> n in dd.dirs && dd.dirs[n] == days[d].dirs[n]
    ensures OnlyListed(partitions[d := p], days[d := dd], id, x) == OnlyListed(partitions, days, id, x)
    ensures OnlyListed(partitions, days[d := dd], id, x) == OnlyListed(partitions, days, id, x)
  {
    if DayOf(x.t) == d {
      SumFrame(p.parts - dd.manifest, days[d].dirs, dd.dirs, id, x);
    }
  }

  /** No copy of x has moved between parts. */
  ghost predicate SameStored(s: Sys, partitions: map<Day, Partition>, days: map<Day, DayDir>, id: SeriesId, x: Sample) {
    && OnDisk(days, id, x) == OnDisk(s.disk.days, id, x)
    && OnlyListed(partitions, days, id, x) == OnlyListed(s.partitions, s.disk.days, id, x)
  }

  lemma SameParts(s: Sys, d: Day, p: Partition, dd: DayDir, id: SeriesId, x: Sample)
    requires DaysOk(s.disk.days, s.disk.forward, s.disk.inverted, s.partitions) && d in s.partitions
    requires p.parts == s.partitions[d].parts && dd.manifest == DirOf(s.disk, d).manifest
    requires forall n :: n in p.parts ==> n in dd.dirs && n in DirOf(s.disk, d).dirs && dd.dirs[n] == DirOf(s.disk, d).dirs[n]
    ensures SameStored(s, s.partitions[d := p], s.disk.days[d := dd], id, x)
    ensures SameStored(s, s.partitions, s.disk.days[d := dd], id, x)
  {
    DaysAt(s.disk.days, s.disk.forward, s.disk.inverted, s.partitions, d);
    hide DaysOk, PartsOk, OnDisk, OnlyListed;
    SameDay(s.disk.days, d, dd, id, x);
    SameListed(s.partitions, s.disk.days, d, p, dd, id, x);
  }

  /** Renaming, staging and unstaging move no listed part. */
  lemma StageOnDisk(s: Sys, d: Day, part: PartDir, n: PartId, id: SeriesId, x: Sample)
    requires DaysOk(s.disk.days, s.disk.forward, s.disk.inverted, s.partitions) && d in s.partitions
    ensures SameStored(s, StagePart(s, d, part).partitions, StagePart(s, d, part).disk.days, id, x)
    ensures SameStored(s, s.partitions, UnstagePart(s.disk, d, n).days, id, x)
    ensures Renames(DirOf(s.disk, d), n) ==> SameStored(s, s.partitions, RenamePart(s.disk, d, n).days, id, x)
  {
    DaysAt(s.disk.days, s.disk.forward, s.disk.inverted, s.partitions, d);
    hide DaysOk, PartsOk, SameStored;
    var dd, p := s.disk.days[d], s.partitions[d];
    SameParts(s, d, p.(nextID := p.nextID + 1), dd.(staging := dd.staging[p.nextID := part]), id, x);
    SameParts(s, d, p, dd.(staging := dd.staging - {n}), id, x);
    if Renames(dd, n) {
      SameParts(s, d, p, dd.(staging := dd.staging - {n}, dirs := dd.dirs[n := dd.staging[n]]), id, x);
    }
  }

  /** What the listed parts of a day hold, saved or not. */
  lemma ListedSum(s: Sys, id: SeriesId, x: Sample)
    requires DaysOk(s.disk.days, s.disk.forward, s.disk.inverted, s.partitions) && DayOf(x.t) in s.partitions
    ensures var d := DayOf(x.t);
            d in s.disk.days &&
            SumOver(s.partitions[d].parts, s.disk.days[d].dirs, id, x) ==
            OnDisk(s.disk.days, id, x) + OnlyListed(s.partitions, s.disk.days, id, x)
  {
    var d := DayOf(x.t);
    DaysAt(s.disk.days, s.disk.forward, s.disk.inverted, s.partitions, d);
    hide DaysOk, PartsOk;
    SumMinus(s.partitions[d].parts, s.disk.days[d].manifest, s.disk.days[d].dirs, id, x);
  }

  lemma NewPart(s: Sys, id: SeriesId, x: Sample)
    requires Inv(s) && s.flush.FDay? && s.flush.stage.Renamed? && DayOf(x.t) == s.flush.day
    ensures var f, d := s.flush, s.flush.day;
            && d in s.partitions && d in s.disk.days && f.stage.part !in s.partitions[d].parts
            && SumOver(s.partitions[d].parts + {f.stage.part}, s.disk.days[d].dirs, id, x) ==
               OnDisk(s.disk.days, id, x) + OnlyListed(s.partitions, s.disk.days, id, x) + CountIn(f.batch, id, x)
            && PartCount(s.disk.days[d].dirs, f.stage.part, id, x) == CountIn(f.batch, id, x)
  {
    var f, d := s.flush, s.flush.day;
    hide TodoOk, RegistryOk, IdsOk, DurableOk, PersistedOk, FindableOk, MergeOk, RetentionOk, Sorts, Permutes, DayPart, DaysOk;
    var dirs := s.disk.days[d].dirs;
    ListedSum(s, id, x);
    SumWith(s.partitions[d].parts, dirs, id, x, f.stage.part);
    SortsCount(dirs[f.stage.part].data, DayPart(f.batch, d), id, x);
    DayPartCount(f.batch, d, id, x);
  }

  lemma PublishOnDisk(s: Sys, s': Sys, id: SeriesId, x: Sample)
    requires Inv(s) && NextFlush(s, FlushPublish, s')
    ensures s.flush.FDay? && s.flush.day in s.flush.todo
    ensures if DayOf(x.t) == s.flush.day
            then OnDisk(s'.disk.days, id, x) ==
                 OnDisk(s.disk.days, id, x) + OnlyListed(s.partitions, s.disk.days, id, x) + CountIn(s.flush.batch, id, x)
                 && OnlyListed(s'.partitions, s'.disk.days, id, x) == 0
            else SameStored(s, s'.partitions, s'.disk.days, id, x)
  {
    hide TodoOk, RegistryOk, IdsOk, DurableOk, PersistedOk, FindableOk, MergeOk, RetentionOk, Sorts, Permutes, DayPart, DaysOk;
    if DayOf(x.t) == s.flush.day {
      NewPart(s, id, x);
      NoParts(s.partitions[s.flush.day].parts + {s.flush.stage.part}, s.disk.days[s.flush.day].dirs, id, x);
    }
  }

  lemma NoParts(names: set<PartId>, dirs: map<PartId, PartDir>, id: SeriesId, x: Sample)
    ensures SumOver(names - names, dirs, id, x) == 0
  {
  }

  /** addPart has listed its part, but the manifest is as it was: the copies are back in the buffer, and in
      the listed part too. */
  lemma UnsavedHeld(s: Sys, step: Step, s': Sys, k: Str, id: SeriesId, x: Sample)
    requires Inv(s) && step.FlushManifestFails? && NextFlush(s, step, s')
    ensures Held(s', id, x) == Record(Held(s, id, x), EventOf(s, step), k, x)
  {
    hide TodoOk, RegistryOk, IdsOk, DurableOk, PersistedOk, FindableOk, MergeOk, RetentionOk, Sorts, Permutes, DayPart, DaysOk, Joined;
    var f, d := s.flush, s.flush.day;
    JoinedCount(s.mem, step.data, id, x);
    PermutesCount(step.data, DayPart(f.batch, d), id, x);
    DayPartCount(f.batch, d, id, x);
    if DayOf(x.t) == d {
      NewPart(s, id, x);
      var parts, dd := s.partitions[d].parts, s.disk.days[d];
      assert f.stage.part !in dd.manifest by {
        DaysAt(s.disk.days, s.disk.forward, s.disk.inverted, s.partitions, d);
      }
      assert parts + {f.stage.part} - dd.manifest == (parts - dd.manifest) + {f.stage.part};
      SumWith(parts - dd.manifest, dd.dirs, id, x, f.stage.part);
    }
  }

  lemma FailedCount(s: Sys, step: Step, id: SeriesId, x: Sample)
    requires step.FlushDayFails? && !s.flush.FIdle? && Permutes(step.data, DayPart(s.flush.batch, step.day))
    ensures CountIn(Joined(s.mem, step.data), id, x) == CountIn(s.mem, id, x) +
              if DayOf(x.t) == step.day then CountIn(s.flush.batch, id, x) else 0
  {
    JoinedCount(s.mem, step.data, id, x);
    PermutesCount(step.data, DayPart(s.flush.batch, step.day), id, x);
    DayPartCount(s.flush.batch, step.day, id, x);
  }

  lemma FlushFacts(s: Sys)
    requires Inv(s)
    ensures DaysOk(s.disk.days, s.disk.forward, s.disk.inverted, s.partitions)
    ensures s.flush.FDay? ==> s.flush.day in s.flush.todo && (s.flush.stage != Indexed ==> s.flush.day in s.partitions)
  {
    hide TodoOk, RegistryOk, IdsOk, DurableOk, PersistedOk, FindableOk, DaysOk, MergeOk, RetentionOk, Sorts, Permutes, DayPart;
  }

  /** A failed day: its samples go back to the buffer and its staging directory goes away. */
  lemma FailedDay(s: Sys, step: Step, s': Sys)
    requires step.FlushDayFails? && NextFlush(s, step, s')
    ensures var f := s.flush;
            && !f.FIdle? && Permutes(step.data, DayPart(f.batch, step.day))
            && ((f.FVisiting? && step.day in f.todo) || (f.FDay? && f.day == step.day && !f.stage.Renamed?))
            && s'.mem == Joined(s.mem, step.data) && s'.flush == FIdle && s'.reg == s.reg && s'.partitions == s.partitions
            && s'.disk == if f.FDay? && f.stage.Staged? then UnstagePart(s.disk, step.day, f.stage.part) else s.disk
  {
    hide Sorts, Permutes, DayPart, Joined, UnstagePart;
  }

  lemma FailOnDisk(s: Sys, step: Step, s': Sys, id: SeriesId, x: Sample)
    requires Inv(s) && step.FlushDayFails? && NextFlush(s, step, s')
    ensures SameStored(s, s'.partitions, s'.disk.days, id, x)
  {
    FlushFacts(s);
    FailedDay(s, step, s');
    SelfStored(s, id, x);
    hide Inv, DaysOk, SameStored, DayPart, Joined, Sorts, Permutes, NextFlush, UnstagePart;
    if s.flush.FDay? && s.flush.stage.Staged? {
      StageOnDisk(s, s.flush.day, PartDir(map[], Small), s.flush.stage.part, id, x);
    }
  }

  lemma SelfStored(s: Sys, id: SeriesId, x: Sample)
    ensures SameStored(s, s.partitions, s.disk.days, id, x)
  {
  }

  lemma FailHeld(s: Sys, step: Step, s': Sys, k: Str, id: SeriesId, x: Sample)
    requires Inv(s) && step.FlushDayFails? && NextFlush(s, step, s')
    ensures Held(s', id, x) == Record(Held(s, id, x), EventOf(s, step), k, x)
  {
    hide *;
    FailOnDisk(s, step, s', id, x);
    FlushFacts(s);
    FailedDay(s, step, s');
    FailedCount(s, step, id, x);
    FailFlight(s.flush, step.day, id, x);
    FailRecord(s, step, s', k, id, x);
  }

  lemma FailRecord(s: Sys, step: Step, s': Sys, k: Str, id: SeriesId, x: Sample)
    requires step.FlushDayFails? && s'.flush == FIdle && SameStored(s, s'.partitions, s'.disk.days, id, x)
    requires CountIn(s'.mem, id, x) == CountIn(s.mem, id, x) + if DayOf(x.t) == step.day then InFlight(s.flush, id, x) else 0
    ensures Held(s', id, x) == Record(Held(s, id, x), EventOf(s, step), k, x)
  {
    hide OnDisk, OnlyListed, CountIn;
  }

  lemma FailFlight(f: Flush, day: Day, id: SeriesId, x: Sample)
    requires (f.FVisiting? || f.FDay?) && day in f.todo
    ensures DayOf(x.t) == day ==> InFlight(f, id, x) == CountIn(f.batch, id, x)
  {
    hide CountIn;
  }

  lemma StageHeld(s: Sys, step: Step, s': Sys, id: SeriesId, x: Sample)
    requires Inv(s) && (step.FlushStage? || step.FlushRename?) && NextFlush(s, step, s')
    ensures Held(s', id, x) == Held(s, id, x)
  {
    hide *;
    FlushFacts(s);
    if step.FlushStage? {
      StageStored(s, step, s', id, x);
    } else {
      RenameStored(s, s', id, x);
    }
    StoredHeld(s, s', id, x);
  }

  lemma StoredHeld(s: Sys, s': Sys, id: SeriesId, x: Sample)
    requires SameStored(s, s'.partitions, s'.disk.days, id, x) && s'.mem == s.mem
    requires s.flush.FDay? && s'.flush.FDay? && s'.flush == s.flush.(stage := s'.flush.stage)
    ensures Held(s', id, x) == Held(s, id, x)
  {
    hide OnDisk, OnlyListed, CountIn;
  }

  lemma StageStored(s: Sys, step: Step, s': Sys, id: SeriesId, x: Sample)
    requires DaysOk(s.disk.days, s.disk.forward, s.disk.inverted, s.partitions) && step.FlushStage? && NextFlush(s, step, s')
    ensures SameStored(s, s'.partitions, s'.disk.days, id, x) && s'.mem == s.mem
    ensures s.flush.FDay? && s'.flush.FDay? && s'.flush == s.flush.(stage := s'.flush.stage)
  {
    hide DaysOk, SameStored, DayPart, Sorts, StagePart;
    StageOnDisk(s, s.flush.day, PartDir(step.data, Small), 0, id, x);
    StagePartFrame(s, s.flush.day, PartDir(step.data, Small));
  }

  lemma RenameStored(s: Sys, s': Sys, id: SeriesId, x: Sample)
    requires DaysOk(s.disk.days, s.disk.forward, s.disk.inverted, s.partitions) && NextFlush(s, FlushRename, s')
    requires s.flush.FDay? && s.flush.stage.Staged? ==> s.flush.day in s.partitions
    ensures SameStored(s, s'.partitions, s'.disk.days, id, x) && s'.mem == s.mem
    ensures s.flush.FDay? && s'.flush.FDay? && s'.flush == s.flush.(stage := s'.flush.stage)
  {
    hide DaysOk, SameStored, RenamePart, Renames;
    StageOnDisk(s, s.flush.day, PartDir(map[], Small), s.flush.stage.part, id, x);
  }

  lemma StagePartFrame(s: Sys, d: Day, part: PartDir)
    requires d in s.partitions
    ensures StagePart(s, d, part).mem == s.mem && StagePart(s, d, part).reg == s.reg
  {
  }

  lemma NewDirEmpty(partitions: map<Day, Partition>, days: map<Day, DayDir>, d: Day, p: Partition, id: SeriesId, x: Sample)
    requires d !in days && d !in partitions && p.parts == {}
    ensures OnDisk(days[d := NEW_DIR], id, x) == OnDisk(days, id, x)
    ensures OnlyListed(partitions[d := p], days[d := NEW_DIR], id, x) == OnlyListed(partitions, days, id, x)
  {
  }

  lemma OpensDay(s: Sys, s': Sys)
    requires NextFlush(s, FlushOpenDay, s')
    ensures s.flush.FDay? && s'.flush == s.flush.(stage := Opened) && s'.mem == s.mem
    ensures s.flush.day in s.partitions ==> s'.disk.days == s.disk.days && s'.partitions == s.partitions
    ensures s.flush.day !in s.partitions ==>
              var dd := Cleaned(DirOf(s.disk, s.flush.day));
              && s'.disk.days == s.disk.days[s.flush.day := dd] && s.flush.day in s'.partitions
              && s'.partitions == s.partitions[s.flush.day := s'.partitions[s.flush.day]]
              && s'.partitions[s.flush.day].parts == dd.manifest
  {
    hide IsNext, Cleaned, DirOf;
  }

  lemma SameFlight(f: Flush, f': Flush, id: SeriesId, x: Sample)
    requires f.FDay? && f' == f.(stage := Opened)
    ensures InFlight(f', id, x) == InFlight(f, id, x)
  {
    hide CountIn;
  }

  lemma OpenHeld(s: Sys, s': Sys, id: SeriesId, x: Sample)
    requires Inv(s) && NextFlush(s, FlushOpenDay, s')
    ensures Held(s', id, x) == Held(s, id, x)
  {
    FlushFacts(s);
    OpensDay(s, s');
    SameFlight(s.flush, s'.flush, id, x);
    hide Inv, NextFlush, InFlight, CountIn, OnDisk, OnlyListed;
    var d := s.flush.day;
    if d !in s.partitions {
      assert d !in s.disk.days;
      NewDirEmpty(s.partitions, s.disk.days, d, s'.partitions[d], id, x);
    }
  }

  lemma PublishHeld(s: Sys, s': Sys, k: Str, id: SeriesId, x: Sample)
    requires Inv(s) && NextFlush(s, FlushPublish, s')
    ensures Held(s', id, x) == Record(Held(s, id, x), EventOf(s, FlushPublish), k, x)
  {
    hide *;
    PublishOnDisk(s, s', id, x);
    PublishFrame(s, s');
    PublishRecord(s, s', k, id, x);
  }

  lemma PublishFrame(s: Sys, s': Sys)
    requires NextFlush(s, FlushPublish, s')
    ensures s.flush.FDay? && s'.flush == FVisiting(s.flush.batch, s.flush.todo - {s.flush.day}) && s'.mem == s.mem
  {
  }

  lemma PublishRecord(s: Sys, s': Sys, k: Str, id: SeriesId, x: Sample)
    requires s.flush.FDay? && s'.flush == FVisiting(s.flush.batch, s.flush.todo - {s.flush.day}) && s'.mem == s.mem
    requires s.flush.day in s.flush.todo
    requires if DayOf(x.t) == s.flush.day
             then OnDisk(s'.disk.days, id, x) ==
                  OnDisk(s.disk.days, id, x) + OnlyListed(s.partitions, s.disk.days, id, x) + CountIn(s.flush.batch, id, x)
                  && OnlyListed(s'.partitions, s'.disk.days, id, x) == 0
             else SameStored(s, s'.partitions, s'.disk.days, id, x)
    ensures Held(s', id, x) == Record(Held(s, id, x), EventOf(s, FlushPublish), k, x)
  {
    hide OnDisk, OnlyListed, CountIn;
  }

  lemma FlushHeld(s: Sys, step: Step, s': Sys, k: Str, id: SeriesId, x: Sample)
    requires Inv(s) && IsFlushStep(step) && NextFlush(s, step, s')
    ensures Held(s', id, x) == Record(Held(s, id, x), EventOf(s, step), k, x)
  {
    hide *;
    if step.FlushPublish? {
      PublishHeld(s, s', k, id, x);
    } else if step.FlushManifestFails? {
      UnsavedHeld(s, step, s', k, id, x);
    } else if step.FlushDayFails? {
      FailHeld(s, step, s', k, id, x);
    } else if step.FlushStage? || step.FlushRename? || step.FlushOpenDay? {
      if step.FlushOpenDay? {
        OpenHeld(s, s', id, x);
      } else {
        StageHeld(s, step, s', id, x);
      }
      SilentHeld(s, step, s', k, id, x);
    } else {
      BatchHeld(s, step, s', k, id, x);
    }
  }

  lemma SilentHeld(s: Sys, step: Step, s': Sys, k: Str, id: SeriesId, x: Sample)
    requires step.FlushIndexDay? || step.FlushStage? || step.FlushRename? || step.FlushOpenDay? || IsQueryStep(step)
    requires Held(s', id, x) == Held(s, id, x)
    ensures Held(s', id, x) == Record(Held(s, id, x), EventOf(s, step), k, x)
  {
    hide Held;
  }

  lemma BatchHeld(s: Sys, step: Step, s': Sys, k: Str, id: SeriesId, x: Sample)
    requires IsFlushStep(step) && !step.FlushPublish? && !step.FlushManifestFails? && !step.FlushDayFails?
    requires !step.FlushStage? && !step.FlushRename? && !step.FlushOpenDay? && NextFlush(s, step, s')
    ensures Held(s', id, x) == Record(Held(s, id, x), EventOf(s, step), k, x)
  {
    hide *;
    if step.FlushIndexDay? {
      IndexDayFrame(s, step, s');
      IndexDayHeld(s, step, s', id, x);
      SilentHeld(s, step, s', k, id, x);
    } else {
      SwapHeld(s, step, s', k, id, x);
    }
  }

  lemma IndexDayHeld(s: Sys, step: Step, s': Sys, id: SeriesId, x: Sample)
    requires step.FlushIndexDay? && s'.mem == s.mem && s'.partitions == s.partitions && s'.disk.days == s.disk.days
    requires s.flush.FVisiting? && s'.flush == FDay(s.flush.batch, s.flush.todo, step.day, Indexed)
    ensures Held(s', id, x) == Held(s, id, x)
  {
    hide OnDisk, OnlyListed, CountIn;
  }

  lemma SwapHeld(s: Sys, step: Step, s': Sys, k: Str, id: SeriesId, x: Sample)
    requires IsFlushStep(step) && !step.FlushStage? && !step.FlushPublish? && !step.FlushOpenDay? && !step.FlushIndexDay?
    requires !step.FlushRename? && !step.FlushManifestFails? && !step.FlushDayFails?
    requires NextFlush(s, step, s')
    ensures Held(s', id, x) == Record(Held(s, id, x), EventOf(s, step), k, x)
  {
    hide *;
    if step.FlushSaveRegistry? {
      SaveHeld(s, s', k, id, x);
    } else if step.FlushRegistryFails? {
      RestoreHeld(s, s', k, id, x);
    } else {
      TakeHeld(s, step, s', k, id, x);
    }
  }

  lemma SaveHeld(s: Sys, s': Sys, k: Str, id: SeriesId, x: Sample)
    requires NextFlush(s, FlushSaveRegistry, s')
    ensures Held(s', id, x) == Record(Held(s, id, x), EventOf(s, FlushSaveRegistry), k, x)
  {
    hide OnDisk, OnlyListed;
    CountIsIn(s.flush.batch, id, x);
    hide CountIn, DaysOf;
  }

  lemma RestoreHeld(s: Sys, s': Sys, k: Str, id: SeriesId, x: Sample)
    requires NextFlush(s, FlushRegistryFails, s')
    ensures Held(s', id, x) == Record(Held(s, id, x), EventOf(s, FlushRegistryFails), k, x)
  {
    hide OnDisk, OnlyListed, Joined, CountIn;
    JoinedCount(s.mem, s.flush.batch, id, x);
  }

  lemma TakeHeld(s: Sys, step: Step, s': Sys, k: Str, id: SeriesId, x: Sample)
    requires IsFlushStep(step) && !step.FlushStage? && !step.FlushPublish? && !step.FlushOpenDay? && !step.FlushIndexDay?
    requires !step.FlushRename? && !step.FlushManifestFails? && !step.FlushDayFails? && !step.FlushSaveRegistry? && !step.FlushRegistryFails?
    requires NextFlush(s, step, s')
    ensures Held(s', id, x) == Record(Held(s, id, x), EventOf(s, step), k, x)
  {
    hide OnDisk, OnlyListed;
  }

  lemma FlushKeys(s: Sys, step: Step, s': Sys)
    requires IsFlushStep(step) && NextFlush(s, step, s')
    ensures s'.reg.byKey == s.reg.byKey && s'.reg.names == s.reg.names
  {
    hide *;
    if step.FlushStage? || step.FlushPublish? {
      PartKeys(s, step, s');
    } else if step.FlushOpenDay? {
      OpenKeys(s, s');
    } else {
      OtherKeys(s, step, s');
    }
  }

  lemma PartKeys(s: Sys, step: Step, s': Sys)
    requires (step.FlushStage? || step.FlushPublish?) && NextFlush(s, step, s')
    ensures s'.reg == s.reg
  {
    hide Sorts, DayPart, DirOf, SetDir;
  }

  lemma OpenKeys(s: Sys, s': Sys)
    requires NextFlush(s, FlushOpenDay, s')
    ensures s'.reg == s.reg
  {
    hide OpensAs, DirOf, SetDir, Cleaned;
  }

  lemma OtherKeys(s: Sys, step: Step, s': Sys)
    requires IsFlushStep(step) && !step.FlushStage? && !step.FlushPublish? && !step.FlushOpenDay? && NextFlush(s, step, s')
    ensures s'.reg.byKey == s.reg.byKey && s'.reg.names == s.reg.names
  {
    hide *;
    if step.FlushRename? || step.FlushManifestFails? || step.FlushDayFails? {
      DirKeys(s, step, s');
    } else {
      BatchKeys(s, step, s');
    }
  }

  lemma DirKeys(s: Sys, step: Step, s': Sys)
    requires (step.FlushRename? || step.FlushManifestFails? || step.FlushDayFails?) && NextFlush(s, step, s')
    ensures s'.reg == s.reg
  {
    hide Permutes, DayPart, Joined, RenamePart, UnstagePart, DirOf, Renames;
  }

  lemma BatchKeys(s: Sys, step: Step, s': Sys)
    requires IsFlushStep(step) && !step.FlushStage? && !step.FlushPublish? && !step.FlushOpenDay?
    requires !step.FlushRename? && !step.FlushManifestFails? && !step.FlushDayFails? && NextFlush(s, step, s')
    ensures s'.reg.byKey == s.reg.byKey && s'.reg.names == s.reg.names
  {
    hide *;
    if step.FlushIndexDay? {
      IndexDayFrame(s, step, s');
    } else {
      SwapKeys(s, step, s');
    }
  }

  lemma IndexDayFrame(s: Sys, step: Step, s': Sys)
    requires step.FlushIndexDay? && NextFlush(s, step, s')
    ensures s'.reg.byKey == s.reg.byKey && s'.reg.names == s.reg.names && s'.disk == s.disk.(inverted := s'.disk.inverted)
    ensures s'.mem == s.mem && s'.partitions == s.partitions
    ensures s.flush.FVisiting? && s'.flush == FDay(s.flush.batch, s.flush.todo, step.day, Indexed)
  {
    hide DayPart, EntriesFor, S.Unindexed, InvertedOf;
  }

  lemma SwapKeys(s: Sys, step: Step, s': Sys)
    requires IsFlushStep(step) && !step.FlushStage? && !step.FlushPublish? && !step.FlushOpenDay? && !step.FlushIndexDay?
    requires !step.FlushRename? && !step.FlushManifestFails? && !step.FlushDayFails?
    requires NextFlush(s, step, s')
    ensures s'.reg.byKey == s.reg.byKey && s'.reg.names == s.reg.names
  {
    hide Joined, DaysOf;
  }

  /** The manifest a merge saves takes in every listed part, so none is left out of it. */
  lemma SwapOnDisk(s: Sys, s': Sys, id: SeriesId, x: Sample)
    requires Inv(s) && NextMerge(s, MergeSwap, s')
    ensures if DayOf(x.t) == s.merge.day
            then OnDisk(s'.disk.days, id, x) == OnDisk(s.disk.days, id, x) + OnlyListed(s.partitions, s.disk.days, id, x)
                 && OnlyListed(s'.partitions, s'.disk.days, id, x) == 0
            else SameStored(s, s'.partitions, s'.disk.days, id, x)
  {
    hide TodoOk, RegistryOk, IdsOk, DurableOk, PersistedOk, FindableOk, FlushOk, RetentionOk, DaysOk;
    var m := s.merge;
    if DayOf(x.t) == m.day {
      var parts, dirs := s.partitions[m.day].parts, s.disk.days[m.day].dirs;
      ListedSum(s, id, x);
      SumMinus(parts, m.names, dirs, id, x);
      SumWith(parts - m.names, dirs, id, x, m.part);
      NoParts(parts - m.names + {m.part}, dirs, id, x);
    }
  }

  lemma MergeFacts(s: Sys)
    requires Inv(s)
    ensures DaysOk(s.disk.days, s.disk.forward, s.disk.inverted, s.partitions)
    ensures s.merge != MIdle ==> s.merge.day in s.partitions
    ensures s.merge.MDeleting? ==> s.merge.names !! s.partitions[s.merge.day].parts
  {
    hide TodoOk, RegistryOk, IdsOk, DurableOk, PersistedOk, FindableOk, DaysOk, FlushOk, RetentionOk, MergesInto, SameCounts;
  }

  lemma MergeFrame(s: Sys, step: Step, s': Sys)
    requires IsMergeStep(step) && NextMerge(s, step, s')
    ensures s'.mem == s.mem && s'.flush == s.flush && s'.reg == s.reg
  {
    hide MergesInto, Sorts, Permutes, RenamePart, UnstagePart;
  }

  lemma DeleteOnDisk(s: Sys, d: Day, n: PartId, id: SeriesId, x: Sample)
    requires DaysOk(s.disk.days, s.disk.forward, s.disk.inverted, s.partitions) && d in s.partitions
    requires n !in s.partitions[d].parts
    ensures var dd := DirOf(s.disk, d);
            SameStored(s, s.partitions, s.disk.days[d := dd.(dirs := dd.dirs - {n})], id, x)
  {
    DaysAt(s.disk.days, s.disk.forward, s.disk.inverted, s.partitions, d);
    hide DaysOk, PartsOk, SameStored;
    var dd := s.disk.days[d];
    SameParts(s, d, s.partitions[d], dd.(dirs := dd.dirs - {n}), id, x);
  }

  lemma MergeStored(s: Sys, step: Step, s': Sys, id: SeriesId, x: Sample)
    requires Inv(s) && IsMergeStep(step) && !step.MergeSwap? && NextMerge(s, step, s')
    ensures SameStored(s, s'.partitions, s'.disk.days, id, x)
  {
    hide *;
    MergeFacts(s);
    if step.MergeStage? || step.MergeStageFails? || step.MergeRename? || step.MergeDelete? {
      MergeDirStored(s, step, s', id, x);
    } else {
      MergeSame(s, step, s');
      SelfStored(s, id, x);
    }
  }

  lemma MergeSame(s: Sys, step: Step, s': Sys)
    requires IsMergeStep(step) && !step.MergeSwap? && !step.MergeStage? && !step.MergeStageFails? && !step.MergeRename? && !step.MergeDelete?
    requires NextMerge(s, step, s')
    ensures s'.partitions == s.partitions && s'.disk.days == s.disk.days
  {
    hide MergesInto, SmallParts, Readable;
  }

  lemma MergeDirStored(s: Sys, step: Step, s': Sys, id: SeriesId, x: Sample)
    requires step.MergeStage? || step.MergeStageFails? || step.MergeRename? || step.MergeDelete?
    requires DaysOk(s.disk.days, s.disk.forward, s.disk.inverted, s.partitions) && (s.merge != MIdle ==> s.merge.day in s.partitions)
    requires s.merge.MDeleting? ==> s.merge.names !! s.partitions[s.merge.day].parts
    requires NextMerge(s, step, s')
    ensures SameStored(s, s'.partitions, s'.disk.days, id, x)
  {
    hide DaysOk, SameStored, Sorts, RenamePart, UnstagePart, StagePart, Renames;
    var m := s.merge;
    if step.MergeStage? {
      StageOnDisk(s, m.day, PartDir(step.data, Big), 0, id, x);
    } else if step.MergeDelete? {
      DeleteOnDisk(s, m.day, step.part, id, x);
    } else {
      StageOnDisk(s, m.day, PartDir(map[], Big), m.part, id, x);
    }
  }

  lemma MergeHeld(s: Sys, step: Step, s': Sys, k: Str, id: SeriesId, x: Sample)
    requires Inv(s) && IsMergeStep(step) && NextMerge(s, step, s')
    ensures Held(s', id, x) == Record(Held(s, id, x), EventOf(s, step), k, x) && s'.reg == s.reg
  {
    hide Inv, OnDisk, OnlyListed, InFlight, CountIn, NextMerge;
    MergeFrame(s, step, s');
    if step.MergeSwap? {
      SwapOnDisk(s, s', id, x);
      SavedEvent(s, s');
    } else {
      MergeStored(s, step, s', id, x);
    }
  }

  lemma SavedEvent(s: Sys, s': Sys)
    requires NextMerge(s, MergeSwap, s')
    ensures EventOf(s, MergeSwap) == Saved(s.merge.day)
  {
  }

  lemma RetentionHeld(s: Sys, step: Step, s': Sys, k: Str, id: SeriesId, x: Sample)
    requires IsRetentionStep(step) && NextRetention(s, step, s')
    ensures Held(s', id, x) == Record(Held(s, id, x), EventOf(s, step), k, x)
    ensures s'.reg.byKey == s.reg.byKey
  {
    hide InFlight, CountIn;
  }

  /** After reopening, the keys known are those of the forward records, under the same IDs. */
  lemma KeysAfterCrash(s: Sys, s': Sys, k: Str)
    requires Inv(s) && NextCrash(s, s')
    ensures k in s'.reg.byKey <==> k in s.reg.byKey && s.reg.byKey[k] in s.disk.forward
    ensures k in s'.reg.byKey ==> s'.reg.byKey[k] == s.reg.byKey[k]
  {
    hide PersistedOk, FindableOk, FlushOk, MergeOk, RetentionOk, DaysOk, IdsOk, DurableOk, SortedLabels, CanonicalKey, S.WellIndexed;
    if k in s'.reg.byKey {
      var id := s'.reg.byKey[k];
      assert id in s.disk.forward && s.reg.names[id] == s'.reg.names[id];
    }
    if k in s.reg.byKey && s.reg.byKey[k] in s.disk.forward {
      var id := s.reg.byKey[k];
      assert s'.reg.names[id] == s.reg.names[id];
    }
  }

  lemma CrashTally(s: Sys, s': Sys, k: Str, x: Sample)
    requires Inv(s) && NextCrash(s, s')
    ensures Tally(s', k, x) == Record(Tally(s, k, x), Crashed, k, x)
  {
    KeysAfterCrash(s, s', k);
    CleanOnDisk(s.disk, x);
    if k in s.reg.byKey {
      UnregisteredEmpty(s, s.reg.byKey[k], x);
    }
    NoneListed(s, s', x);
    hide Inv, OnDisk, OnlyListed, S.Replays, OpensAs;
  }

  lemma NoneListed(s: Sys, s': Sys, x: Sample)
    requires NextCrash(s, s')
    ensures forall id :: OnlyListed(s'.partitions, s'.disk.days, id, x) == 0
  {
    hide S.Replays, IsNext;
    var d := DayOf(x.t);
    if d in s'.partitions {
      assert OpensAs(Cleaned(s.disk.days[d]), s'.partitions[d]);
      assert s'.partitions[d].parts - s'.disk.days[d].manifest == {};
    }
  }

  lemma CleanOnDisk(disk: Disk, x: Sample)
    ensures forall id :: OnDisk(CleanDisk(disk).days, id, x) == OnDisk(disk.days, id, x)
  {
  }

  /** The keys known stay, and so does what is held under every other key. */
  lemma TallyOf(s: Sys, s': Sys, e: Event, k: Str, x: Sample)
    requires s'.reg.byKey == s.reg.byKey && !e.Appended?
    requires k in s.reg.byKey ==> Held(s', s.reg.byKey[k], x) == Record(Held(s, s.reg.byKey[k], x), e, k, x)
    ensures Tally(s', k, x) == Record(Tally(s, k, x), e, k, x)
  {
    hide Held;
  }

  lemma EventPlain(s: Sys, step: Step)
    ensures IsFlushStep(step) || IsMergeStep(step) || IsRetentionStep(step) || IsQueryStep(step) ==> !EventOf(s, step).Appended?
    ensures step.Crash? ==> EventOf(s, step) == Crashed
  {
  }

  /** Refinement: the engine's copies change exactly as the event says, for every key and sample. */
  lemma StepTally(s: Sys, step: Step, s': Sys, k: Str, x: Sample)
    requires Inv(s) && Next(s, step, s')
    ensures Tally(s', k, x) == Record(Tally(s, k, x), EventOf(s, step), k, x)
  {
    hide *;
    NextIs(s, step, s');
    EventPlain(s, step);
    var id := if k in s.reg.byKey then s.reg.byKey[k] else 0;
    if step.Crash? {
      CrashTally(s, s', k, x);
    } else if IsFlushStep(step) {
      FlushHeld(s, step, s', k, id, x);
      FlushKeys(s, step, s');
      TallyOf(s, s', EventOf(s, step), k, x);
    } else if IsMergeStep(step) {
      MergeHeld(s, step, s', k, id, x);
      TallyOf(s, s', EventOf(s, step), k, x);
    } else if IsRetentionStep(step) {
      RetentionHeld(s, step, s', k, id, x);
      TallyOf(s, s', EventOf(s, step), k, x);
    } else if IsQueryStep(step) {
      QueryKeeps(s, step, s');
      QueryHeld(s, s', id, x);
      SilentHeld(s, step, s', k, id, x);
      TallyOf(s, s', EventOf(s, step), k, x);
    } else {
      AppendTally(s, step, s', k, x);
    }
  }

  lemma QueryHeld(s: Sys, s': Sys, id: SeriesId, x: Sample)
    requires s' == s.(query := s'.query)
    ensures Held(s', id, x) == Held(s, id, x)
  {
  }
}
