/** The storage engine as a state machine: storage/storage.go, partition.go, compaction.go,
    retention.go and query.go. Every file operation and every section under a lock is one step, a
    crash is possible between any two, and the steps of appends, one flush, one merge, one retention
    pass and one query interleave freely. */
module Engine {
  import opened Contents
  import opened Labels
  import opened Part
  import opened SortedIds
  import S = Series
  import opened Varint

  type Entries = map<SeriesId, seq<Label>>

  // ---------- the disk ----------

  /** partitions/YYYYMMDD: part directories, staging directories and the manifest. */
  datatype DayDir = DayDir(dirs: map<PartId, PartDir>, staging: map<PartId, PartDir>, manifest: set<PartId>)

  /** The forward segments, the inverted segments by day, and the day directories. */
  datatype Disk = Disk(forward: Entries, inverted: map<Day, Entries>, days: map<Day, DayDir>)

  const NEW_DIR := DayDir(map[], map[], {})

  // ---------- the process ----------

  /** partition: the live part names and the next part ID. */
  datatype Partition = Partition(parts: set<PartId>, nextID: PartId)

  datatype Append = Append(id: SeriesId, key: Str, samples: seq<Sample>, todo: set<Day>)

  /** How far Flush has come with one day. */
  datatype DayStage = Indexed | Opened | Staged(part: PartId) | Renamed(part: PartId)

  datatype Flush =
    | FIdle
    | FSwapped(batch: Series)
    | FDrained(batch: Series, pending: Entries)
    | FVisiting(batch: Series, todo: set<Day>)
    | FDay(batch: Series, todo: set<Day>, day: Day, stage: DayStage)

  datatype Merge =
    | MIdle
    | MNames(day: Day, names: set<PartId>)
    | MRead(day: Day, names: set<PartId>, merged: Series)
    | MStaged(day: Day, names: set<PartId>, part: PartId)
    | MRenamed(day: Day, names: set<PartId>, part: PartId)
    | MDeleting(day: Day, names: set<PartId>)

  datatype Retention =
    | RIdle
    | RRun(todo: set<Day>)
    | RDirGone(todo: set<Day>, day: Day)
    | RIndexGone(todo: set<Day>, day: Day)

  /** A query: its window, the IDs matched, the days still to scan and what is found so far. start0 is
      the disk as it was when the query began; it takes no part in what the query does. */
  datatype Query =
    | QIdle
    | QMatched(start: Int64, end: Int64, start0: Disk, ids: set<SeriesId>)
    | QScanning(start: Int64, end: Int64, start0: Disk, ids: set<SeriesId>, todo: set<Day>, found: Series)
    | QDone(start: Int64, end: Int64, start0: Disk, ids: set<SeriesId>, found: Series)

  /** cutoff lies past every day retention has ever set out to drop; beside that it is free, and no step but
      the skipping of a day by a query looks at it. */
  datatype Sys = Sys(
    disk: Disk,
    reg: S.State,
    mem: Series,
    partitions: map<Day, Partition>,
    appends: map<nat, Append>,
    flush: Flush,
    merge: Merge,
    retention: Retention,
    query: Query,
    cutoff: Day)

  // ---------- opening ----------

  /** nextID: one past every part directory. */
  ghost predicate IsNext(dirs: map<PartId, PartDir>, next: PartId) {
    (forall n :: n in dirs ==> n < next) && (next == 1 || next - 1 in dirs)
  }

  /** openPartition: staging directories are removed, the manifest is the part list. */
  function Cleaned(dd: DayDir): DayDir {
    dd.(staging := map[])
  }

  function CleanDisk(disk: Disk): Disk {
    disk.(days := map d | d in disk.days :: Cleaned(disk.days[d]))
  }

  ghost predicate OpensAs(dd: DayDir, p: Partition) {
    p.parts == dd.manifest && IsNext(dd.dirs, p.nextID)
  }

  /** Open on what a killed process leaves behind. */
  ghost predicate Reopened(disk: Disk, s: Sys) {
    && s.disk == CleanDisk(disk)
    && S.Replays(s.reg, disk.forward, disk.inverted)
    && s.partitions.Keys == disk.days.Keys
    && (forall d :: d in disk.days ==> OpensAs(Cleaned(disk.days[d]), s.partitions[d]))
    && s.mem == map[] && s.appends == map[]
    && s.flush == FIdle && s.merge == MIdle && s.retention == RIdle && s.query == QIdle
  }

  ghost predicate Init(s: Sys) {
    Reopened(Disk(map[], map[], map[]), s)
  }

  // ---------- steps ----------

  datatype Step =
    | AppendResolve(tid: nat, labels: seq<Label>, samples: seq<Sample>)
    | AppendIndex(tid: nat, day: Day)
    | AppendBuffer(tid: nat)
    | FlushSwap
    | FlushDrain
    | FlushSaveRegistry
    | FlushRegistryFails
    | FlushIndexDay(day: Day)
    | FlushOpenDay
    | FlushStage(data: Series)
    | FlushRename
    | FlushPublish
    | FlushManifestFails(data: Series)
    | FlushDayFails(day: Day, data: Series)
    | FlushEnd
    | MergeSnapshot(day: Day)
    | MergeRead(merged: Series)
    | MergeStage(data: Series)
    | MergeStageFails
    | MergeRename
    | MergeSwap
    | MergeSwapFails
    | MergeDelete(part: PartId)
    | MergeEnd
    | RetentionStart(cutoff: Day, expired: set<Day>)
    | RetentionDropDir(day: Day)
    | RetentionDropIndex
    | RetentionForget
    | RetentionEnd
    | QueryMatch(matchers: seq<S.Matcher>, start: Int64, end: Int64)
    | QuerySnapshot
    | QueryScan(day: Day)
    | QueryScanFails(day: Day)
    | QuerySkip(day: Day)
    | QueryBuffer
    | QueryReturn
    | Crash

  function SamplesDays(s: seq<Sample>): set<Day> {
    set x | x in s :: DayOf(x.t)
  }

  function Singleton(id: SeriesId, s: seq<Sample>): Series {
    map[id := s]
  }

  function DirOf(disk: Disk, d: Day): DayDir {
    if d in disk.days then disk.days[d] else NEW_DIR
  }

  function SetDir(disk: Disk, d: Day, dd: DayDir): Disk {
    disk.(days := disk.days[d := dd])
  }

  function InvertedOf(inverted: map<Day, Entries>, d: Day): Entries {
    if d in inverted then inverted[d] else map[]
  }

  /** The records persistDayIndex writes for ids. */
  function EntriesFor(r: S.State, ids: set<SeriesId>): Entries {
    map id | id in ids && id in r.names :: r.names[id]
  }

  function SmallParts(dd: DayDir, p: Partition): set<PartId> {
    set n | n in p.parts && n in dd.dirs && dd.dirs[n].tier == Small
  }

  /** The content mergeParts gathers from the named parts, in whatever order. */
  ghost predicate MergesInto(names: set<PartId>, dirs: map<PartId, PartDir>, merged: Series) {
    && (forall id :: id in merged <==> exists n :: n in names && n in dirs && id in dirs[n].data)
    && (forall id, x :: CountIn(merged, id, x) == SumOver(names, dirs, id, x))
  }

  /** What one locked scan of a day adds to found. */
  ghost predicate ScansTo(parts: set<PartId>, dirs: map<PartId, PartDir>, q: Query, found: Series)
    requires q.QScanning?
  {
    forall id, x :: CountIn(found, id, x) == CountIn(q.found, id, x) +
      if id in q.ids && InWindow(x, q.start, q.end) then SumOver(parts, dirs, id, x) else 0
  }

  function BufferRange(q: Query, mem: Series): Series
    requires q.QScanning?
  {
    Joined(q.found, RangeOf(mem, q.ids, q.start, q.end))
  }

  function SetParts(s: Sys, d: Day, parts: set<PartId>): Sys
    requires d in s.partitions
  {
    s.(partitions := s.partitions[d := s.partitions[d].(parts := parts)],
       disk := SetDir(s.disk, d, DirOf(s.disk, d).(manifest := parts)))
  }

  /** Reserves the next ID of day d and writes the staging directory of that part. */
  function StagePart(s: Sys, d: Day, part: PartDir): Sys
    requires d in s.partitions
  {
    var n, dd := s.partitions[d].nextID, DirOf(s.disk, d);
    s.(partitions := s.partitions[d := s.partitions[d].(nextID := n + 1)],
       disk := SetDir(s.disk, d, dd.(staging := dd.staging[n := part])))
  }

  function UnstagePart(disk: Disk, d: Day, n: PartId): Disk {
    SetDir(disk, d, DirOf(disk, d).(staging := DirOf(disk, d).staging - {n}))
  }

  function RenamePart(disk: Disk, d: Day, n: PartId): Disk
    requires n in DirOf(disk, d).staging
  {
    var dd := DirOf(disk, d);
    SetDir(disk, d, dd.(staging := dd.staging - {n}, dirs := dd.dirs[n := dd.staging[n]]))
  }

  /** Renaming a staged part succeeds: nothing is in its place. */
  predicate Renames(dd: DayDir, n: PartId) {
    n in dd.staging && n !in dd.dirs
  }

  /** Every listed part of the day, if it is open, has its directory. */
  predicate Readable(s: Sys, day: Day) {
    day in s.partitions ==> s.partitions[day].parts <= DirOf(s.disk, day).dirs.Keys
  }

  ghost predicate NextAppend(s: Sys, step: Step, s': Sys)
    requires step.AppendResolve? || step.AppendIndex? || step.AppendBuffer?
  {
    match step
    case AppendResolve(tid, labels, samples) =>
      && tid !in s.appends && samples != []
      && s' == s.(reg := S.Resolved(s.reg, labels),
                  appends := s.appends[tid := Append(S.ResolvedId(s.reg, labels), CanonicalKey(labels),
                                                     samples, SamplesDays(samples))])
    case AppendIndex(tid, day) =>
      && tid in s.appends && day in s.appends[tid].todo
      && var a := s.appends[tid];
         s' == s.(reg := S.IndexedForDay(s.reg, day, a.id), appends := s.appends[tid := a.(todo := a.todo - {day})])
    case AppendBuffer(tid) =>
      && tid in s.appends && s.appends[tid].todo == {}
      && var a := s.appends[tid];
         s' == s.(mem := Joined(s.mem, Singleton(a.id, a.samples)), appends := s.appends - {tid})
  }

  predicate IsFlushStep(step: Step) {
    step.FlushSwap? || step.FlushDrain? || step.FlushSaveRegistry? || step.FlushRegistryFails? ||
    step.FlushIndexDay? || step.FlushOpenDay? || step.FlushStage? || step.FlushRename? ||
    step.FlushPublish? || step.FlushManifestFails? || step.FlushDayFails? || step.FlushEnd?
  }

  ghost predicate NextFlush(s: Sys, step: Step, s': Sys)
    requires IsFlushStep(step)
  {
    var f := s.flush;
    match step
    case FlushSwap =>
      f == FIdle && s.retention == RIdle && s' == s.(flush := FSwapped(s.mem), mem := map[])
    case FlushDrain =>
      f.FSwapped? && s' == s.(flush := FDrained(f.batch, s.reg.pending), reg := s.reg.(pending := map[]))
    case FlushSaveRegistry =>
      && f.FDrained?
      && s' == s.(disk := s.disk.(forward := s.disk.forward + f.pending),
                  flush := if f.batch == map[] then FIdle else FVisiting(f.batch, DaysOf(f.batch)))
    case FlushRegistryFails =>
      && f.FDrained?
      && s' == s.(reg := s.reg.(pending := s.reg.pending + f.pending), mem := Joined(s.mem, f.batch), flush := FIdle)
    case FlushIndexDay(day) =>
      && f.FVisiting? && day in f.todo
      && var ids := S.Unindexed(s.reg, day, DayPart(f.batch, day).Keys);
         var inv := s.disk.inverted[day := InvertedOf(s.disk.inverted, day) + EntriesFor(s.reg, ids)];
         s' == s.(disk := s.disk.(inverted := if ids == {} then s.disk.inverted else inv),
                  reg := S.Marked(s.reg, day, ids),
                  flush := FDay(f.batch, f.todo, day, Indexed))
    case FlushOpenDay =>
      && f.FDay? && f.stage == Indexed
      && if f.day in s.partitions then s' == s.(flush := f.(stage := Opened))
         else
           var dd := Cleaned(DirOf(s.disk, f.day));
           exists p :: OpensAs(dd, p) && s' == s.(disk := SetDir(s.disk, f.day, dd),
                                                  partitions := s.partitions[f.day := p],
                                                  flush := f.(stage := Opened))
    case FlushStage(data) =>
      && f.FDay? && f.stage == Opened && f.day in s.partitions && Sorts(data, DayPart(f.batch, f.day))
      && s' == StagePart(s, f.day, PartDir(data, Small)).(flush := f.(stage := Staged(s.partitions[f.day].nextID)))
    case FlushRename =>
      && f.FDay? && f.stage.Staged? && Renames(DirOf(s.disk, f.day), f.stage.part)
      && s' == s.(disk := RenamePart(s.disk, f.day, f.stage.part), flush := f.(stage := Renamed(f.stage.part)))
    case FlushPublish =>
      && f.FDay? && f.stage.Renamed? && f.day in s.partitions
      && s' == SetParts(s, f.day, s.partitions[f.day].parts + {f.stage.part})
               .(flush := FVisiting(f.batch, f.todo - {f.day}))
    case FlushManifestFails(data) =>
      && f.FDay? && f.stage.Renamed? && f.day in s.partitions && Permutes(data, DayPart(f.batch, f.day))
      && s' == s.(partitions := s.partitions[f.day := s.partitions[f.day].(parts := s.partitions[f.day].parts + {f.stage.part})],
                  mem := Joined(s.mem, data), flush := FIdle)
    case FlushDayFails(day, data) =>
      && ((f.FVisiting? && day in f.todo) || (f.FDay? && f.day == day && !f.stage.Renamed?))
      && Permutes(data, DayPart(f.batch, day))
      && s' == s.(mem := Joined(s.mem, data), flush := FIdle,
                  disk := if f.FDay? && f.stage.Staged? then UnstagePart(s.disk, day, f.stage.part) else s.disk)
    case FlushEnd =>
      f.FVisiting? && f.todo == {} && s' == s.(flush := FIdle)
  }

  predicate IsMergeStep(step: Step) {
    step.MergeSnapshot? || step.MergeRead? || step.MergeStage? || step.MergeStageFails? || step.MergeRename? ||
    step.MergeSwap? || step.MergeSwapFails? || step.MergeDelete? || step.MergeEnd?
  }

  ghost predicate NextMerge(s: Sys, step: Step, s': Sys)
    requires IsMergeStep(step)
  {
    var m := s.merge;
    match step
    case MergeSnapshot(day) =>
      && m == MIdle && s.retention == RIdle && day in s.partitions && Readable(s, day)
      && s' == s.(merge := MNames(day, SmallParts(DirOf(s.disk, day), s.partitions[day])))
    case MergeRead(merged) =>
      && m.MNames? && MergesInto(m.names, DirOf(s.disk, m.day).dirs, merged)
      && s' == s.(merge := MRead(m.day, m.names, merged))
    case MergeStage(data) =>
      && m.MRead? && m.day in s.partitions && Sorts(data, m.merged)
      && s' == StagePart(s, m.day, PartDir(data, Big)).(merge := MStaged(m.day, m.names, s.partitions[m.day].nextID))
    case MergeStageFails =>
      m.MStaged? && s' == s.(disk := UnstagePart(s.disk, m.day, m.part), merge := MIdle)
    case MergeRename =>
      && m.MStaged? && Renames(DirOf(s.disk, m.day), m.part)
      && s' == s.(disk := RenamePart(s.disk, m.day, m.part), merge := MRenamed(m.day, m.names, m.part))
    case MergeSwap =>
      && m.MRenamed? && m.day in s.partitions
      && s' == SetParts(s, m.day, s.partitions[m.day].parts - m.names + {m.part}).(merge := MDeleting(m.day, m.names))
    case MergeSwapFails =>
      m.MRenamed? && s' == s.(merge := MIdle)
    case MergeDelete(n) =>
      && m.MDeleting? && n in m.names
      && var dd := DirOf(s.disk, m.day);
         s' == s.(disk := SetDir(s.disk, m.day, dd.(dirs := dd.dirs - {n})), merge := m.(names := m.names - {n}))
    case MergeEnd =>
      m.MDeleting? && m.names == {} && s' == s.(merge := MIdle)
  }

  predicate IsRetentionStep(step: Step) {
    step.RetentionStart? || step.RetentionDropDir? || step.RetentionDropIndex? || step.RetentionForget? ||
    step.RetentionEnd?
  }

  ghost predicate NextRetention(s: Sys, step: Step, s': Sys)
    requires IsRetentionStep(step)
  {
    var r := s.retention;
    match step
    case RetentionStart(cutoff, expired) =>
      && r == RIdle && s.flush == FIdle && s.merge == MIdle
      && expired <= s.partitions.Keys && s.cutoff <= cutoff && (forall d :: d in expired ==> d < cutoff)
      && s' == s.(retention := RRun(expired), cutoff := cutoff)
    case RetentionDropDir(day) =>
      && r.RRun? && day in r.todo
      && s' == s.(disk := s.disk.(days := s.disk.days - {day}), partitions := s.partitions - {day},
                  retention := RDirGone(r.todo - {day}, day))
    case RetentionDropIndex =>
      && r.RDirGone?
      && s' == s.(disk := s.disk.(inverted := s.disk.inverted - {r.day}), retention := RIndexGone(r.todo, r.day))
    case RetentionForget =>
      r.RIndexGone? && s' == s.(reg := S.Dropped(s.reg, r.day), retention := RRun(r.todo))
    case RetentionEnd =>
      r.RRun? && r.todo == {} && s' == s.(retention := RIdle)
  }

  predicate IsQueryStep(step: Step) {
    step.QueryMatch? || step.QuerySnapshot? || step.QueryScan? || step.QueryScanFails? || step.QuerySkip? ||
    step.QueryBuffer? || step.QueryReturn?
  }

  ghost predicate NextQuery(s: Sys, step: Step, s': Sys)
    requires IsQueryStep(step)
  {
    var q := s.query;
    match step
    case QueryMatch(matchers, start, end) =>
      && q == QIdle && matchers != []
      && s' == s.(query := QMatched(start, end, s.disk, S.Matching(s.reg.inverted, matchers)))
    case QuerySnapshot =>
      && q.QMatched?
      && s' == s.(query := QScanning(q.start, q.end, q.start0, q.ids,
                                     set d | d in s.partitions && DayOf(q.start) <= d <= DayOf(q.end), map[]))
    case QueryScan(day) =>
      && q.QScanning? && day in q.todo && Readable(s, day)
      && var parts := if day in s.partitions then s.partitions[day].parts else {};
         exists found :: ScansTo(parts, DirOf(s.disk, day).dirs, q, found) &&
                         s' == s.(query := q.(todo := q.todo - {day}, found := found))
    case QueryScanFails(day) =>
      q.QScanning? && day in q.todo && !Readable(s, day) && s' == s.(query := QIdle)
    case QuerySkip(day) =>
      q.QScanning? && day in q.todo && day < s.cutoff && s' == s.(query := q.(todo := q.todo - {day}))
    case QueryBuffer =>
      && q.QScanning? && q.todo == {}
      && s' == s.(query := QDone(q.start, q.end, q.start0, q.ids, BufferRange(q, s.mem)))
    case QueryReturn =>
      q.QDone? && s' == s.(query := QIdle)
  }

  ghost predicate NextCrash(s: Sys, s': Sys) {
    Reopened(s.disk, s') && s'.cutoff == s.cutoff
  }

  ghost predicate Next(s: Sys, step: Step, s': Sys) {
    if step.AppendResolve? || step.AppendIndex? || step.AppendBuffer? then NextAppend(s, step, s')
    else if IsFlushStep(step) then NextFlush(s, step, s')
    else if IsMergeStep(step) then NextMerge(s, step, s')
    else if IsRetentionStep(step) then NextRetention(s, step, s')
    else if IsQueryStep(step) then NextQuery(s, step, s')
    else NextCrash(s, s')
  }

  // ---------- kinds of steps ----------

  /** No step is of two kinds. */
  lemma Kinds(step: Step)
    ensures step.AppendResolve? || step.AppendIndex? || step.AppendBuffer? || step.Crash? ==>
              !IsFlushStep(step) && !IsMergeStep(step) && !IsRetentionStep(step) && !IsQueryStep(step)
    ensures IsFlushStep(step) ==> !IsMergeStep(step) && !IsRetentionStep(step) && !IsQueryStep(step)
    ensures IsMergeStep(step) ==> !IsRetentionStep(step) && !IsQueryStep(step)
    ensures IsRetentionStep(step) ==> !IsQueryStep(step)
    ensures IsFlushStep(step) || IsMergeStep(step) || IsRetentionStep(step) || IsQueryStep(step) || step.Crash? ||
            step.AppendResolve? || step.AppendIndex? || step.AppendBuffer?
  {
  }

  lemma NextIs(s: Sys, step: Step, s': Sys)
    requires Next(s, step, s')
    ensures IsFlushStep(step) ==> NextFlush(s, step, s')
    ensures IsMergeStep(step) ==> NextMerge(s, step, s')
    ensures IsRetentionStep(step) ==> NextRetention(s, step, s')
    ensures IsQueryStep(step) ==> NextQuery(s, step, s')
    ensures step.Crash? ==> NextCrash(s, s')
    ensures !IsFlushStep(step) && !IsMergeStep(step) && !IsRetentionStep(step) && !IsQueryStep(step) && !step.Crash? ==>
              (step.AppendResolve? || step.AppendIndex? || step.AppendBuffer?) && NextAppend(s, step, s')
  {
    Kinds(step);
    hide NextFlush, NextMerge, NextRetention, NextQuery, NextAppend, NextCrash;
    hide IsFlushStep, IsMergeStep, IsRetentionStep, IsQueryStep;
  }

  lemma NextAppendIs(s: Sys, step: Step, s': Sys)
    requires (step.AppendResolve? || step.AppendIndex? || step.AppendBuffer?) && NextAppend(s, step, s')
    ensures Next(s, step, s')
  {
    hide NextAppend, NextFlush, NextMerge, NextRetention, NextQuery, NextCrash;
  }

  lemma NextFlushIs(s: Sys, step: Step, s': Sys)
    requires IsFlushStep(step) && NextFlush(s, step, s')
    ensures Next(s, step, s')
  {
    hide NextFlush, NextAppend, NextMerge, NextRetention, NextQuery, NextCrash;
  }

  lemma NextMergeIs(s: Sys, step: Step, s': Sys)
    requires IsMergeStep(step) && NextMerge(s, step, s')
    ensures Next(s, step, s')
  {
    hide NextFlush, NextAppend, NextMerge, NextRetention, NextQuery, NextCrash;
  }

  lemma NextRetentionIs(s: Sys, step: Step, s': Sys)
    requires IsRetentionStep(step) && NextRetention(s, step, s')
    ensures Next(s, step, s')
  {
    hide NextAppend, NextFlush, NextMerge, NextRetention, NextQuery, NextCrash;
  }
}
