/** What every step of the engine keeps. Each part of the invariant names the components it speaks
    about, so a step keeps for free whatever it does not touch. */
module EngineInvariant {
  import opened Contents
  import opened Engine
  import opened Labels
  import opened Part
  import opened SortedIds
  import S = Series

  ghost predicate Agrees(a: Entries, names: Entries) {
    forall id :: id in a ==> id in names && a[id] == names[id]
  }

  function DrainedOf(f: Flush): Entries {
    if f.FDrained? then f.pending else map[]
  }

  function BatchOf(f: Flush): Series {
    if f.FIdle? then map[] else f.batch
  }

  /** Every registered series is on disk or waiting to be written there. */
  ghost predicate RegistryOk(reg: S.State, forward: Entries, f: Flush) {
    && S.Consistent(reg) && S.WellIndexed(reg)
    && Agrees(forward, reg.names) && Agrees(reg.pending, reg.names) && Agrees(DrainedOf(f), reg.names)
    && forall id :: id in reg.names ==> id in forward || id in reg.pending || id in DrainedOf(f)
  }

  ghost predicate AppendOk(a: Append, reg: S.State) {
    a.id in reg.names && a.key in reg.byKey && reg.byKey[a.key] == a.id
  }

  /** Buffered samples belong to registered series, and once the flush writes parts, to durable ones. */
  ghost predicate IdsOk(reg: S.State, forward: Entries, mem: Series, appends: map<nat, Append>, f: Flush) {
    && mem.Keys <= reg.names.Keys
    && (forall tid :: tid in appends ==> AppendOk(appends[tid], reg))
    && BatchOf(f).Keys <= reg.names.Keys
    && (f.FDrained? ==> f.batch.Keys <= forward.Keys + f.pending.Keys)
    && (f.FVisiting? || f.FDay? ==> f.batch.Keys <= forward.Keys)
  }

  /** An inverted record repeats a forward record. */
  ghost predicate DurableOk(forward: Entries, inverted: map<Day, Entries>) {
    forall d :: d in inverted ==> Agrees(inverted[d], forward)
  }

  /** What the registry takes to be persisted is, but for a day whose index is just being dropped. */
  ghost predicate PersistedOk(reg: S.State, inverted: map<Day, Entries>, r: Retention) {
    forall d, i: SeriesId :: S.Persisted(reg, d, i) && !(r.RIndexGone? && r.day == d) ==> d in inverted && i in inverted[d]
  }

  ghost predicate FoundAll(c: Series, reg: S.State, cutoff: Day) {
    forall id, x :: id in c && x in c[id] && DayOf(x.t) >= cutoff ==> S.IndexedOn(reg, DayOf(x.t), id)
  }

  ghost predicate FoundDurable(inverted: map<Day, Entries>, reg: S.State, cutoff: Day) {
    forall d, id :: d in inverted && id in inverted[d] && d >= cutoff ==> S.IndexedOn(reg, d, id)
  }

  ghost predicate FoundAppend(a: Append, reg: S.State, cutoff: Day) {
    forall x :: x in a.samples && DayOf(x.t) !in a.todo && DayOf(x.t) >= cutoff ==> S.IndexedOn(reg, DayOf(x.t), a.id)
  }

  /** From the cutoff on, whatever is stored can be found by label. */
  ghost predicate FindableOk(reg: S.State, inverted: map<Day, Entries>, mem: Series,
                             appends: map<nat, Append>, f: Flush, cutoff: Day)
  {
    && FoundAll(mem, reg, cutoff) && FoundAll(BatchOf(f), reg, cutoff) && FoundDurable(inverted, reg, cutoff)
    && forall tid :: tid in appends ==> FoundAppend(appends[tid], reg, cutoff)
  }

  /** Every series of the part has a forward record and an inverted record of that day, and every
      sample is of that day. */
  ghost predicate PartOk(d: Day, data: Series, forward: Entries, inverted: map<Day, Entries>) {
    && (forall id :: id in data ==> id in forward && d in inverted && id in inverted[d])
    && (forall id, x :: id in data && x in data[id] ==> DayOf(x.t) == d)
  }

  ghost predicate PartsOk(d: Day, dirs: map<PartId, PartDir>, forward: Entries, inverted: map<Day, Entries>) {
    forall n :: n in dirs ==> PartOk(d, dirs[n].data, forward, inverted)
  }

  /** The part list has all of the manifest, every listed part has its directory, and the next ID is new. */
  ghost predicate DayOk(dd: DayDir, p: Partition) {
    && dd.manifest <= p.parts <= dd.dirs.Keys
    && dd.dirs.Keys !! dd.staging.Keys
    && (forall n :: n in dd.dirs || n in dd.staging ==> n < p.nextID)
  }

  ghost predicate DaysOk(days: map<Day, DayDir>, forward: Entries, inverted: map<Day, Entries>,
                         partitions: map<Day, Partition>)
  {
    && partitions.Keys == days.Keys
    && (forall d :: d in partitions ==> DayOk(days[d], partitions[d]))
    && (forall d :: d in partitions ==> PartsOk(d, days[d].dirs, forward, inverted))
    && (forall d :: d in partitions ==> PartsOk(d, days[d].staging, forward, inverted))
  }

  ghost predicate HoldsPart(dirs: map<PartId, PartDir>, n: PartId, data: Series) {
    n in dirs && Sorts(dirs[n].data, data)
  }

  /** The flush has persisted the index of its day, and its part is where its stage says. */
  ghost predicate FlushOk(f: Flush, days: map<Day, DayDir>, inverted: map<Day, Entries>, partitions: map<Day, Partition>) {
    f.FDay? ==>
      && f.day in f.todo
      && DayPart(f.batch, f.day).Keys <= InvertedOf(inverted, f.day).Keys
      && (f.stage != Indexed ==> f.day in partitions && f.day in days)
      && (f.stage.Staged? ==> HoldsPart(days[f.day].staging, f.stage.part, DayPart(f.batch, f.day)))
      && (f.stage.Renamed? ==> f.stage.part !in partitions[f.day].parts)
      && (f.stage.Renamed? ==> HoldsPart(days[f.day].dirs, f.stage.part, DayPart(f.batch, f.day)))
  }

  /** The days a flush has left to visit are days of its batch. */
  ghost predicate TodoOk(f: Flush) {
    f.FVisiting? || f.FDay? ==> f.todo <= DaysOf(f.batch)
  }

  /** n is the part the flush is working on, on day d. */
  predicate IsFlushPart(f: Flush, d: Day, n: PartId) {
    f.FDay? && f.day == d && (f.stage == Staged(n) || f.stage == Renamed(n))
  }

  ghost predicate SameCounts(data: Series, names: set<PartId>, dirs: map<PartId, PartDir>) {
    forall id, x :: CountIn(data, id, x) == SumOver(names, dirs, id, x)
  }

  /** The merge's inputs stay listed until the swap, and its output holds exactly their content. */
  ghost predicate MergeOk(m: Merge, f: Flush, days: map<Day, DayDir>, partitions: map<Day, Partition>) {
    m != MIdle ==>
      && m.day in partitions && m.day in days
      && var dd, parts := days[m.day], partitions[m.day].parts;
         && m.names <= dd.dirs.Keys
         && (!m.MDeleting? ==> m.names <= parts)
         && (m.MDeleting? ==> m.names !! parts && forall n :: n in m.names ==> !IsFlushPart(f, m.day, n))
         && (m.MRead? ==> MergesInto(m.names, dd.dirs, m.merged))
         && (m.MStaged? ==> m.part in dd.staging && SameCounts(dd.staging[m.part].data, m.names, dd.dirs))
         && (m.MRenamed? ==> m.part in dd.dirs && m.part !in parts && SameCounts(dd.dirs[m.part].data, m.names, dd.dirs))
         && (m.MStaged? || m.MRenamed? ==> !IsFlushPart(f, m.day, m.part))
  }

  /** Retention excludes flushes and merges, and only touches days before the cutoff. */
  ghost predicate RetentionOk(r: Retention, f: Flush, m: Merge, days: map<Day, DayDir>, inverted: map<Day, Entries>, cutoff: Day) {
    r != RIdle ==>
      && f == FIdle && m == MIdle
      && (forall d :: d in r.todo ==> d < cutoff)
      && (r.RDirGone? || r.RIndexGone? ==> r.day < cutoff && r.day !in days)
      && (r.RIndexGone? ==> r.day !in inverted)
  }

  ghost predicate Inv(s: Sys) {
    && RegistryOk(s.reg, s.disk.forward, s.flush)
    && IdsOk(s.reg, s.disk.forward, s.mem, s.appends, s.flush)
    && DurableOk(s.disk.forward, s.disk.inverted)
    && PersistedOk(s.reg, s.disk.inverted, s.retention)
    && FindableOk(s.reg, s.disk.inverted, s.mem, s.appends, s.flush, s.cutoff)
    && DaysOk(s.disk.days, s.disk.forward, s.disk.inverted, s.partitions)
    && FlushOk(s.flush, s.disk.days, s.disk.inverted, s.partitions)
    && TodoOk(s.flush)
    && MergeOk(s.merge, s.flush, s.disk.days, s.partitions)
    && RetentionOk(s.retention, s.flush, s.merge, s.disk.days, s.disk.inverted, s.cutoff)
  }

  lemma InvParts(s: Sys)
    requires Inv(s)
    ensures RegistryOk(s.reg, s.disk.forward, s.flush) && IdsOk(s.reg, s.disk.forward, s.mem, s.appends, s.flush)
    ensures DurableOk(s.disk.forward, s.disk.inverted) && PersistedOk(s.reg, s.disk.inverted, s.retention)
    ensures FindableOk(s.reg, s.disk.inverted, s.mem, s.appends, s.flush, s.cutoff) && TodoOk(s.flush)
    ensures DaysOk(s.disk.days, s.disk.forward, s.disk.inverted, s.partitions)
    ensures FlushOk(s.flush, s.disk.days, s.disk.inverted, s.partitions) && MergeOk(s.merge, s.flush, s.disk.days, s.partitions)
    ensures RetentionOk(s.retention, s.flush, s.merge, s.disk.days, s.disk.inverted, s.cutoff)
  {
    hide RegistryOk, IdsOk, DurableOk, PersistedOk, FindableOk, DaysOk, FlushOk, TodoOk, MergeOk, RetentionOk;
  }

  lemma InvOf(s: Sys)
    requires RegistryOk(s.reg, s.disk.forward, s.flush) && IdsOk(s.reg, s.disk.forward, s.mem, s.appends, s.flush)
    requires DurableOk(s.disk.forward, s.disk.inverted) && PersistedOk(s.reg, s.disk.inverted, s.retention)
    requires FindableOk(s.reg, s.disk.inverted, s.mem, s.appends, s.flush, s.cutoff) && TodoOk(s.flush)
    requires DaysOk(s.disk.days, s.disk.forward, s.disk.inverted, s.partitions)
    requires FlushOk(s.flush, s.disk.days, s.disk.inverted, s.partitions) && MergeOk(s.merge, s.flush, s.disk.days, s.partitions)
    requires RetentionOk(s.retention, s.flush, s.merge, s.disk.days, s.disk.inverted, s.cutoff)
    ensures Inv(s)
  {
    hide RegistryOk, IdsOk, DurableOk, PersistedOk, FindableOk, DaysOk, FlushOk, TodoOk, MergeOk, RetentionOk;
  }

  // ---------- the registry only grows ----------

  /** Identities stay, and from the cutoff on so does every index entry. */
  ghost predicate Grows(r: S.State, r': S.State, cutoff: Day) {
    && S.Extends(r, r')
    && forall d, id :: d >= cutoff && S.IndexedOn(r, d, id) ==> S.IndexedOn(r', d, id)
  }

  lemma GrowsFound(r: S.State, r': S.State, cutoff: Day, inverted: map<Day, Entries>, mem: Series,
                   appends: map<nat, Append>, f: Flush)
    requires Grows(r, r', cutoff) && FindableOk(r, inverted, mem, appends, f, cutoff)
    ensures FindableOk(r', inverted, mem, appends, f, cutoff)
  {
    hide S.IndexedOn;
  }

  lemma GrowsIds(r: S.State, r': S.State, cutoff: Day, forward: Entries, mem: Series, appends: map<nat, Append>, f: Flush)
    requires Grows(r, r', cutoff) && IdsOk(r, forward, mem, appends, f)
    ensures IdsOk(r', forward, mem, appends, f)
  {
    hide S.IndexedOn;
  }

  lemma SameIndexGrows(r: S.State, r': S.State, cutoff: Day)
    requires S.Extends(r, r') && r'.inverted == r.inverted
    ensures Grows(r, r', cutoff)
  {
  }

  lemma SameIndexWell(r: S.State, r': S.State)
    requires S.WellIndexed(r) && S.Extends(r, r') && r'.inverted == r.inverted
    ensures S.WellIndexed(r')
  {
    hide S.HasKey, S.Has;
  }

  /** Changing only what is pending or persisted changes no identity and no index entry. */
  lemma SameIdentity(r: S.State, r': S.State, cutoff: Day)
    requires r' == r.(pending := r'.pending, persisted := r'.persisted)
    ensures S.Extends(r, r') && Grows(r, r', cutoff)
    ensures S.Consistent(r) ==> S.Consistent(r')
    ensures S.WellIndexed(r) ==> S.WellIndexed(r')
  {
    hide S.Has, S.HasKey, CanonicalKey, SortedLabels;
  }

  lemma MergeNewFlush(m: Merge, f: Flush, f': Flush, days: map<Day, DayDir>, partitions: map<Day, Partition>)
    requires MergeOk(m, f, days, partitions)
    requires f'.FDay? ==> f'.stage == Indexed || f'.stage == Opened
    ensures MergeOk(m, f', days, partitions)
  {
    hide MergesInto, SameCounts;
  }

  // ---------- appends ----------

  lemma ResolveFrame(r: S.State, labels: seq<Label>)
    requires S.Consistent(r)
    ensures var r', id := S.Resolved(r, labels), S.ResolvedId(r, labels);
            && r'.inverted == r.inverted && r'.persisted == r.persisted
            && (forall i :: i in r'.names ==> i in r.names || i in r'.pending)
            && (forall i :: i in r.pending ==> i in r'.pending)
            && (forall i :: i in r'.pending ==>
                  (i in r.pending && r'.pending[i] == r.pending[i]) || (i !in r.names && r'.pending[i] == r'.names[i]))
            && r'.pending.Keys <= r'.names.Keys + r.pending.Keys
  {
    hide CanonicalKey, SortedLabels;
  }

  lemma RegistryResolve(r: S.State, forward: Entries, f: Flush, labels: seq<Label>)
    requires RegistryOk(r, forward, f)
    ensures RegistryOk(S.Resolved(r, labels), forward, f)
  {
    hide S.Resolved, S.Consistent, S.WellIndexed, CanonicalKey, SortedLabels;
    S.ResolveKeeps(r, labels);
    ResolveFrame(r, labels);
    SameIndexWell(r, S.Resolved(r, labels));
  }

  lemma AppendResolveKeeps(s: Sys, step: Step, s': Sys)
    requires Inv(s) && step.AppendResolve? && NextAppend(s, step, s')
    ensures Inv(s')
  {
    hide TodoOk, RegistryOk, DaysOk, FlushOk, MergeOk, DurableOk, FindableOk, IdsOk, PersistedOk, S.Persisted;
    NewAppend(s, step, s');
    RegistryResolve(s.reg, s.disk.forward, s.flush, step.labels);
    SamePersisted(s.reg, s'.reg, s.disk.inverted, s.retention);
  }

  lemma SamePersisted(r: S.State, r': S.State, inverted: map<Day, Entries>, ret: Retention)
    requires PersistedOk(r, inverted, ret) && r'.persisted == r.persisted
    ensures PersistedOk(r', inverted, ret)
  {
    assert forall d, i: SeriesId :: S.Persisted(r', d, i) <==> S.Persisted(r, d, i);
  }

  lemma NewAppend(s: Sys, step: Step, s': Sys)
    requires Inv(s) && step.AppendResolve? && NextAppend(s, step, s')
    ensures IdsOk(s'.reg, s'.disk.forward, s'.mem, s'.appends, s'.flush)
    ensures FindableOk(s'.reg, s'.disk.inverted, s'.mem, s'.appends, s'.flush, s'.cutoff)
    ensures s'.reg.persisted == s.reg.persisted
  {
    hide S.Resolved, S.ResolvedId, S.IndexedOn, S.Consistent, S.WellIndexed, DaysOk, FlushOk, MergeOk, DurableOk, PersistedOk;
    S.ResolveKeeps(s.reg, step.labels);
    ResolveFrame(s.reg, step.labels);
    SameIndexGrows(s.reg, s'.reg, s.cutoff);
    GrowsFound(s.reg, s'.reg, s.cutoff, s.disk.inverted, s.mem, s.appends, s.flush);
    GrowsIds(s.reg, s'.reg, s.cutoff, s.disk.forward, s.mem, s.appends, s.flush);
    assert FoundAppend(s'.appends[step.tid], s'.reg, s.cutoff);
  }

  lemma RegistryIndex(r: S.State, forward: Entries, f: Flush, day: Day, id: SeriesId, cutoff: Day)
    requires RegistryOk(r, forward, f)
    ensures var r' := S.IndexedForDay(r, day, id);
            && RegistryOk(r', forward, f) && Grows(r, r', cutoff)
            && (id in r.names ==> S.IndexedOn(r', day, id))
  {
    hide S.AddInverted, S.WellIndexed, S.IndexedOn;
    S.IndexKeeps(r, day, id);
  }

  lemma AppendIndexKeeps(s: Sys, step: Step, s': Sys)
    requires Inv(s) && step.AppendIndex? && NextAppend(s, step, s')
    ensures Inv(s')
  {
    hide TodoOk, DaysOk, FlushOk, MergeOk, DurableOk, S.IndexedOn, RegistryOk, PersistedOk, Grows;
    var a := s.appends[step.tid];
    RegistryIndex(s.reg, s.disk.forward, s.flush, step.day, a.id, s.cutoff);
    SamePersisted(s.reg, s'.reg, s.disk.inverted, s.retention);
    hide S.IndexedForDay;
    GrowsFound(s.reg, s'.reg, s.cutoff, s.disk.inverted, s.mem, s.appends, s.flush);
    GrowsIds(s.reg, s'.reg, s.cutoff, s.disk.forward, s.mem, s.appends, s.flush);
    assert FoundAppend(s'.appends[step.tid], s'.reg, s.cutoff);
  }

  lemma JoinedIn(a: Series, b: Series, id: SeriesId, x: Sample)
    ensures id in Joined(a, b) && x in Joined(a, b)[id] <==> (id in a && x in a[id]) || (id in b && x in b[id])
  {
  }

  lemma FoundJoined(a: Series, b: Series, reg: S.State, cutoff: Day)
    requires FoundAll(a, reg, cutoff) && FoundAll(b, reg, cutoff)
    ensures FoundAll(Joined(a, b), reg, cutoff) && Joined(a, b).Keys == a.Keys + b.Keys
  {
    hide S.IndexedOn;
    forall id, x | id in Joined(a, b) && x in Joined(a, b)[id] && DayOf(x.t) >= cutoff
      ensures S.IndexedOn(reg, DayOf(x.t), id)
    {
      JoinedIn(a, b, id, x);
    }
  }

  lemma AppendBufferKeeps(s: Sys, step: Step, s': Sys)
    requires Inv(s) && step.AppendBuffer? && NextAppend(s, step, s')
    ensures Inv(s')
  {
    hide Joined, S.IndexedOn, DaysOk, FlushOk, MergeOk, DurableOk, RegistryOk, PersistedOk;
    var a := s.appends[step.tid];
    assert FoundAll(Singleton(a.id, a.samples), s.reg, s.cutoff);
    FoundJoined(s.mem, Singleton(a.id, a.samples), s.reg, s.cutoff);
  }

  // ---------- flush: registry and index ----------

  lemma FlushSwapKeeps(s: Sys, step: Step, s': Sys)
    requires Inv(s) && step.FlushSwap? && NextFlush(s, step, s')
    ensures Inv(s')
  {
    hide DaysOf, S.IndexedOn, DaysOk, DurableOk, PersistedOk, S.Consistent, S.WellIndexed;
  }

  lemma RegistryDrain(r: S.State, forward: Entries, batch: Series, mem: Series, appends: map<nat, Append>)
    requires RegistryOk(r, forward, FSwapped(batch)) && IdsOk(r, forward, mem, appends, FSwapped(batch))
    ensures RegistryOk(r.(pending := map[]), forward, FDrained(batch, r.pending))
    ensures IdsOk(r.(pending := map[]), forward, mem, appends, FDrained(batch, r.pending))
  {
    hide S.WellIndexed, S.Consistent, Grows;
    SameIdentity(r, r.(pending := map[]), 0);
  }

  lemma FlushDrainKeeps(s: Sys, step: Step, s': Sys)
    requires Inv(s) && step.FlushDrain? && NextFlush(s, step, s')
    ensures Inv(s')
  {
    RegistryDrain(s.reg, s.disk.forward, s.flush.batch, s.mem, s.appends);
    hide DaysOf, RegistryOk, IdsOk, S.IndexedOn, DaysOk, DurableOk, PersistedOk, FindableOk;
    SamePersisted(s.reg, s'.reg, s.disk.inverted, s.retention);
    SameIdentity(s.reg, s'.reg, s.cutoff);
    GrowsFound(s.reg, s'.reg, s.cutoff, s.disk.inverted, s.mem, s.appends, s.flush);
    SameBatch(s'.reg, s.disk.inverted, s.mem, s.appends, s.flush, s'.flush, s.cutoff);
  }

  lemma SameBatch(r: S.State, inverted: map<Day, Entries>, mem: Series, appends: map<nat, Append>, f: Flush, f': Flush, cutoff: Day)
    requires FindableOk(r, inverted, mem, appends, f, cutoff)
    requires BatchOf(f') == BatchOf(f) || BatchOf(f') == map[]
    ensures FindableOk(r, inverted, mem, appends, f', cutoff)
  {
  }

  lemma DaysGrow(days: map<Day, DayDir>, forward: Entries, inverted: map<Day, Entries>, partitions: map<Day, Partition>,
                 forward': Entries, inverted': map<Day, Entries>)
    requires DaysOk(days, forward, inverted, partitions)
    requires forward.Keys <= forward'.Keys
    requires forall d :: d in inverted ==> d in inverted' && inverted[d].Keys <= inverted'[d].Keys
    ensures DaysOk(days, forward', inverted', partitions)
  {
    hide DayOk;
  }

  lemma RegistrySave(r: S.State, forward: Entries, f: Flush, f': Flush, inverted: map<Day, Entries>,
                     mem: Series, appends: map<nat, Append>)
    requires f.FDrained? && (f'.FIdle? || (f'.FVisiting? && f'.batch == f.batch))
    requires RegistryOk(r, forward, f) && IdsOk(r, forward, mem, appends, f) && DurableOk(forward, inverted)
    ensures RegistryOk(r, forward + f.pending, f') && IdsOk(r, forward + f.pending, mem, appends, f')
    ensures DurableOk(forward + f.pending, inverted)
  {
    hide S.WellIndexed, S.Consistent, AppendOk;
  }

  lemma FlushSaveRegistryKeeps(s: Sys, step: Step, s': Sys)
    requires Inv(s) && step.FlushSaveRegistry? && NextFlush(s, step, s')
    ensures Inv(s')
  {
    hide RegistryOk, DaysOk, PersistedOk, FindableOk, S.WellIndexed, S.Consistent, DaysOf, DayPart;
    RegistrySave(s.reg, s.disk.forward, s.flush, s'.flush, s.disk.inverted, s.mem, s.appends);
    DaysGrow(s.disk.days, s.disk.forward, s.disk.inverted, s.partitions, s'.disk.forward, s.disk.inverted);
    SameBatch(s.reg, s.disk.inverted, s.mem, s.appends, s.flush, s'.flush, s.cutoff);
  }

  lemma RegistryBack(r: S.State, forward: Entries, f: Flush, mem: Series, appends: map<nat, Append>)
    requires f.FDrained? && RegistryOk(r, forward, f) && IdsOk(r, forward, mem, appends, f)
    ensures var r' := r.(pending := r.pending + f.pending);
            RegistryOk(r', forward, FIdle) && IdsOk(r', forward, Joined(mem, f.batch), appends, FIdle)
  {
    hide S.WellIndexed, S.Consistent, Grows, S.Extends;
    SameIdentity(r, r.(pending := r.pending + f.pending), 0);
  }

  lemma FlushRegistryFailsKeeps(s: Sys, step: Step, s': Sys)
    requires Inv(s) && step.FlushRegistryFails? && NextFlush(s, step, s')
    ensures Inv(s')
  {
    RegistryBack(s.reg, s.disk.forward, s.flush, s.mem, s.appends);
    SamePersisted(s.reg, s'.reg, s.disk.inverted, s.retention);
    SameIdentity(s.reg, s'.reg, s.cutoff);
    GrowsFound(s.reg, s'.reg, s.cutoff, s.disk.inverted, s.mem, s.appends, s.flush);
    FoundParts(s'.reg, s.disk.inverted, s.mem, s.appends, s.flush, s.cutoff);
    FoundRestored(s'.reg, s.disk.inverted, s.mem, s.appends, s.flush, s.flush.batch, s.cutoff);
    hide DaysOf, RegistryOk, IdsOk, DaysOk, DurableOk, PersistedOk, FindableOk, Joined, S.Extends;
  }

  lemma FoundParts(r: S.State, inverted: map<Day, Entries>, mem: Series, appends: map<nat, Append>, f: Flush, cutoff: Day)
    requires FindableOk(r, inverted, mem, appends, f, cutoff)
    ensures FoundAll(mem, r, cutoff) && FoundAll(BatchOf(f), r, cutoff)
  {
  }

  lemma FoundRestored(r: S.State, inverted: map<Day, Entries>, mem: Series, appends: map<nat, Append>, f: Flush, back: Series, cutoff: Day)
    requires FindableOk(r, inverted, mem, appends, f, cutoff) && FoundAll(back, r, cutoff)
    ensures FindableOk(r, inverted, Joined(mem, back), appends, FIdle, cutoff)
  {
    hide S.IndexedOn, Joined;
    FoundJoined(mem, back, r, cutoff);
  }

  lemma DayPartIn(batch: Series, d: Day, id: SeriesId)
    requires id in DayPart(batch, d)
    ensures id in batch && exists x :: x in batch[id] && DayOf(x.t) == d
  {
    var x := OnDay(batch[id], d)[0];
    OnDayCount(batch[id], d, x);
    assert multiset(OnDay(batch[id], d))[x] > 0;
    assert x in multiset(batch[id]);
  }

  lemma FlushIndexFacts(s: Sys, step: Step, s': Sys)
    requires Inv(s) && step.FlushIndexDay? && NextFlush(s, step, s')
    ensures DurableOk(s'.disk.forward, s'.disk.inverted)
    ensures FoundDurable(s'.disk.inverted, s.reg, s.cutoff)
    ensures DayPart(s.flush.batch, step.day).Keys <= InvertedOf(s'.disk.inverted, step.day).Keys
    ensures forall d :: d in s.disk.inverted ==> d in s'.disk.inverted && s.disk.inverted[d].Keys <= s'.disk.inverted[d].Keys
    ensures forall id :: id in S.Unindexed(s.reg, step.day, DayPart(s.flush.batch, step.day).Keys) ==>
              step.day in s'.disk.inverted && id in s'.disk.inverted[step.day]
  {
    hide *;
    IndexWrites(s, step, s');
    var ids := S.Unindexed(s.reg, step.day, DayPart(s.flush.batch, step.day).Keys);
    InvFound(s);
    BatchFacts(s, step.day);
    IndexedMore(s.reg, s.disk.forward, s.disk.inverted, step.day, DayPart(s.flush.batch, step.day).Keys, ids, s.cutoff);
  }

  function WithIndex(inverted: map<Day, Entries>, r: S.State, day: Day, ids: set<SeriesId>): map<Day, Entries> {
    if ids == {} then inverted else inverted[day := InvertedOf(inverted, day) + EntriesFor(r, ids)]
  }

  lemma IndexWrites(s: Sys, step: Step, s': Sys)
    requires step.FlushIndexDay? && NextFlush(s, step, s')
    ensures s.flush.FVisiting? && s'.disk.forward == s.disk.forward
    ensures s'.disk.inverted ==
            WithIndex(s.disk.inverted, s.reg, step.day, S.Unindexed(s.reg, step.day, DayPart(s.flush.batch, step.day).Keys))
  {
    hide DayPart, InvertedOf, EntriesFor, S.Marked, S.Unindexed;
  }

  lemma InvFound(s: Sys)
    requires Inv(s)
    ensures DurableOk(s.disk.forward, s.disk.inverted) && FoundDurable(s.disk.inverted, s.reg, s.cutoff)
  {
    hide RegistryOk, IdsOk, DurableOk, PersistedOk, DaysOk, FlushOk, TodoOk, MergeOk, RetentionOk, FoundDurable, FoundAll, FoundAppend;
  }

  /** The series of the batch on that day are durable, indexed, and persisted where the registry says so. */
  lemma BatchFacts(s: Sys, day: Day)
    requires Inv(s) && s.flush.FVisiting?
    ensures forall id :: id in DayPart(s.flush.batch, day) ==>
              && id in s.disk.forward && id in s.reg.names && s.reg.names[id] == s.disk.forward[id]
              && (day >= s.cutoff ==> S.IndexedOn(s.reg, day, id))
              && (id !in S.Unindexed(s.reg, day, DayPart(s.flush.batch, day).Keys) ==>
                    day in s.disk.inverted && id in s.disk.inverted[day])
  {
    hide S.IndexedOn, DaysOk, S.WellIndexed, S.Consistent, DayPart, TodoOk, MergeOk, FlushOk, DurableOk, FoundDurable;
    forall id | id in DayPart(s.flush.batch, day)
      ensures id in s.disk.forward && id in s.reg.names && s.reg.names[id] == s.disk.forward[id]
      ensures day >= s.cutoff ==> S.IndexedOn(s.reg, day, id)
      ensures id !in S.Unindexed(s.reg, day, DayPart(s.flush.batch, day).Keys) ==> day in s.disk.inverted && id in s.disk.inverted[day]
    {
      DayPartIn(s.flush.batch, day, id);
    }
  }

  lemma IndexedMore(r: S.State, forward: Entries, inverted: map<Day, Entries>, day: Day, all: set<SeriesId>,
                    ids: set<SeriesId>, cutoff: Day)
    requires DurableOk(forward, inverted) && FoundDurable(inverted, r, cutoff) && ids == S.Unindexed(r, day, all)
    requires forall id :: id in all ==>
               && id in forward && id in r.names && r.names[id] == forward[id]
               && (day >= cutoff ==> S.IndexedOn(r, day, id))
               && (id !in ids ==> day in inverted && id in inverted[day])
    ensures var grown := WithIndex(inverted, r, day, ids);
            && DurableOk(forward, grown) && FoundDurable(grown, r, cutoff) && all <= InvertedOf(grown, day).Keys
            && (forall d :: d in inverted ==> d in grown && inverted[d].Keys <= grown[d].Keys)
            && (forall id :: id in ids ==> day in grown && id in grown[day])
  {
    hide S.IndexedOn, S.Persisted;
    assert EntriesFor(r, ids).Keys == ids;
  }

  lemma MarkedKeeps(s: Sys, day: Day, ids: set<SeriesId>, inverted: map<Day, Entries>)
    requires PersistedOk(s.reg, s.disk.inverted, s.retention) && s.retention == RIdle
    requires forall d :: d in s.disk.inverted ==> d in inverted && s.disk.inverted[d].Keys <= inverted[d].Keys
    requires forall id :: id in ids ==> day in inverted && id in inverted[day]
    ensures PersistedOk(S.Marked(s.reg, day, ids), inverted, s.retention)
  {
    var r := S.Marked(s.reg, day, ids);
    forall d, i: SeriesId | S.Persisted(r, d, i) ensures d in inverted && i in inverted[d] {
      assert S.Persisted(s.reg, d, i) || (d == day && i in ids);
    }
  }

  lemma RegistryMarked(r: S.State, day: Day, ids: set<SeriesId>, forward: Entries, f: Flush, f': Flush,
                       mem: Series, appends: map<nat, Append>)
    requires f.FVisiting? && f'.FDay? && f'.batch == f.batch
    requires RegistryOk(r, forward, f) && IdsOk(r, forward, mem, appends, f)
    ensures var r' := S.Marked(r, day, ids);
            RegistryOk(r', forward, f') && IdsOk(r', forward, mem, appends, f')
  {
    hide S.WellIndexed, S.Consistent, Grows, S.Extends, AppendOk;
    SameIdentity(r, S.Marked(r, day, ids), 0);
    assert forall tid :: tid in appends ==> AppendOk(appends[tid], S.Marked(r, day, ids)) by {
      MarkedAppends(r, day, ids, appends);
    }
  }

  lemma MarkedAppends(r: S.State, day: Day, ids: set<SeriesId>, appends: map<nat, Append>)
    requires forall tid :: tid in appends ==> AppendOk(appends[tid], r)
    ensures forall tid :: tid in appends ==> AppendOk(appends[tid], S.Marked(r, day, ids))
  {
  }

  lemma FlushIndexDayKeeps(s: Sys, step: Step, s': Sys)
    requires Inv(s) && step.FlushIndexDay? && NextFlush(s, step, s')
    ensures Inv(s')
  {
    FlushIndexFacts(s, step, s');
    IndexIs(s, step, s');
    IndexedParts(s, step, s');
    IndexedRest(s, step, s');
    hide RegistryOk, IdsOk, DurableOk, PersistedOk, FindableOk, DaysOk, FlushOk, TodoOk, MergeOk, NextFlush, S.Unindexed;
  }

  /** What FlushIndexDay leaves of the state, but for the inverted index. */
  lemma IndexIs(s: Sys, step: Step, s': Sys)
    requires step.FlushIndexDay? && NextFlush(s, step, s')
    ensures s.flush.FVisiting? && step.day in s.flush.todo
    ensures s' == s.(disk := s.disk.(inverted := s'.disk.inverted), flush := FDay(s.flush.batch, s.flush.todo, step.day, Indexed),
                     reg := S.Marked(s.reg, step.day, S.Unindexed(s.reg, step.day, DayPart(s.flush.batch, step.day).Keys)))
  {
    hide DayPart, InvertedOf, EntriesFor, S.Marked, S.Unindexed;
  }

  lemma IndexedParts(s: Sys, step: Step, s': Sys)
    requires Inv(s) && step.FlushIndexDay? && NextFlush(s, step, s')
    requires forall d :: d in s.disk.inverted ==> d in s'.disk.inverted && s.disk.inverted[d].Keys <= s'.disk.inverted[d].Keys
    requires DayPart(s.flush.batch, step.day).Keys <= InvertedOf(s'.disk.inverted, step.day).Keys
    ensures DaysOk(s'.disk.days, s'.disk.forward, s'.disk.inverted, s'.partitions)
    ensures MergeOk(s'.merge, s'.flush, s'.disk.days, s'.partitions)
    ensures FlushOk(s'.flush, s'.disk.days, s'.disk.inverted, s'.partitions) && TodoOk(s'.flush)
  {
    IndexIs(s, step, s');
    hide NextFlush, RegistryOk, IdsOk, DurableOk, PersistedOk, FindableOk, DaysOk, MergeOk, DaysOf, DayPart, InvertedOf, S.Marked,
         S.Unindexed;
    DaysGrow(s.disk.days, s.disk.forward, s.disk.inverted, s.partitions, s'.disk.forward, s'.disk.inverted);
    MergeNewFlush(s.merge, s.flush, s'.flush, s.disk.days, s.partitions);
  }

  lemma IndexedRest(s: Sys, step: Step, s': Sys)
    requires Inv(s) && step.FlushIndexDay? && NextFlush(s, step, s') && FoundDurable(s'.disk.inverted, s.reg, s.cutoff)
    requires forall d :: d in s.disk.inverted ==> d in s'.disk.inverted && s.disk.inverted[d].Keys <= s'.disk.inverted[d].Keys
    requires forall id :: id in S.Unindexed(s.reg, step.day, DayPart(s.flush.batch, step.day).Keys) ==>
               step.day in s'.disk.inverted && id in s'.disk.inverted[step.day]
    ensures RegistryOk(s'.reg, s'.disk.forward, s'.flush) && IdsOk(s'.reg, s'.disk.forward, s'.mem, s'.appends, s'.flush)
    ensures PersistedOk(s'.reg, s'.disk.inverted, s'.retention)
    ensures FindableOk(s'.reg, s'.disk.inverted, s'.mem, s'.appends, s'.flush, s'.cutoff)
    ensures RetentionOk(s'.retention, s'.flush, s'.merge, s'.disk.days, s'.disk.inverted, s'.cutoff)
  {
    IndexIs(s, step, s');
    hide NextFlush, RegistryOk, IdsOk, DurableOk, PersistedOk, FindableOk, FoundDurable, DaysOk, MergeOk, FlushOk, TodoOk, Grows, DayPart,
         S.Marked, S.Unindexed;
    var ids := S.Unindexed(s.reg, step.day, DayPart(s.flush.batch, step.day).Keys);
    MarkedIdentity(s.reg, step.day, ids, s.cutoff);
    RegistryMarked(s.reg, step.day, ids, s.disk.forward, s.flush, s'.flush, s.mem, s.appends);
    MarkedKeeps(s, step.day, ids, s'.disk.inverted);
    FoundKept(s, s'.reg, s'.disk.inverted, s'.flush);
  }

  lemma MarkedIdentity(r: S.State, day: Day, ids: set<SeriesId>, cutoff: Day)
    ensures Grows(r, S.Marked(r, day, ids), cutoff)
  {
    SameIdentity(r, S.Marked(r, day, ids), cutoff);
  }

  lemma FoundKept(s: Sys, r: S.State, inverted: map<Day, Entries>, f: Flush)
    requires FindableOk(s.reg, s.disk.inverted, s.mem, s.appends, s.flush, s.cutoff)
    requires Grows(s.reg, r, s.cutoff) && BatchOf(f) == BatchOf(s.flush) && FoundDurable(inverted, s.reg, s.cutoff)
    ensures FindableOk(r, inverted, s.mem, s.appends, f, s.cutoff)
  {
    hide S.IndexedOn;
  }

  // ---------- one day directory ----------

  lemma DaysUpdate(days: map<Day, DayDir>, forward: Entries, inverted: map<Day, Entries>, partitions: map<Day, Partition>,
                   d: Day, dd: DayDir, p: Partition)
    requires DaysOk(days, forward, inverted, partitions) && DayOk(dd, p)
    requires PartsOk(d, dd.dirs, forward, inverted) && PartsOk(d, dd.staging, forward, inverted)
    ensures DaysOk(days[d := dd], forward, inverted, partitions[d := p])
  {
    hide DayOk, PartsOk;
  }

  lemma DaysAt(days: map<Day, DayDir>, forward: Entries, inverted: map<Day, Entries>, partitions: map<Day, Partition>, d: Day)
    requires DaysOk(days, forward, inverted, partitions) && d in partitions
    ensures d in days && DayOk(days[d], partitions[d])
    ensures PartsOk(d, days[d].dirs, forward, inverted) && PartsOk(d, days[d].staging, forward, inverted)
  {
    hide DayOk, PartsOk;
  }

  lemma SamePartitions(days: map<Day, DayDir>, forward: Entries, inverted: map<Day, Entries>, partitions: map<Day, Partition>,
                       d: Day, dd: DayDir)
    requires DaysOk(days, forward, inverted, partitions) && d in partitions && DayOk(dd, partitions[d])
    requires PartsOk(d, dd.dirs, forward, inverted) && PartsOk(d, dd.staging, forward, inverted)
    ensures DaysOk(days[d := dd], forward, inverted, partitions)
  {
    DaysUpdate(days, forward, inverted, partitions, d, dd, partitions[d]);
    assert partitions[d := partitions[d]] == partitions;
  }

  lemma SortsPartOk(d: Day, data: Series, source: Series, forward: Entries, inverted: map<Day, Entries>)
    requires Sorts(data, source) && PartOk(d, source, forward, inverted)
    ensures PartOk(d, data, forward, inverted)
  {
    hide SortedByTime;
    forall id, x | id in data && x in data[id] ensures DayOf(x.t) == d {
      assert x in multiset(data[id]);
      assert x in multiset(source[id]);
    }
  }

  /** The merge goes on as before when its day keeps its inputs and its output where they were. */
  lemma MergeKept(m: Merge, f: Flush, f': Flush, days: map<Day, DayDir>, days': map<Day, DayDir>,
                  partitions: map<Day, Partition>, partitions': map<Day, Partition>)
    requires MergeOk(m, f, days, partitions) && m != MIdle
    requires m.day in partitions' && m.day in days'
    requires var dd, dd' := days[m.day], days'[m.day];
             var parts, parts' := partitions[m.day].parts, partitions'[m.day].parts;
             && (forall n :: n in dd.dirs ==> n in dd'.dirs && dd'.dirs[n] == dd.dirs[n])
             && (m.MStaged? ==> m.part in dd'.staging && dd'.staging[m.part] == dd.staging[m.part])
             && parts <= parts' && (m.MDeleting? ==> m.names !! parts') && (m.MRenamed? ==> m.part !in parts')
    requires m.MDeleting? ==> forall n :: n in m.names ==> !IsFlushPart(f', m.day, n)
    requires m.MStaged? || m.MRenamed? ==> !IsFlushPart(f', m.day, m.part)
    ensures MergeOk(m, f', days', partitions')
  {
    hide IsFlushPart;
    var dirs, dirs' := days[m.day].dirs, days'[m.day].dirs;
    forall id, x ensures SumOver(m.names, dirs', id, x) == SumOver(m.names, dirs, id, x) {
      SumFrame(m.names, dirs, dirs', id, x);
    }
    if m.MRead? {
      assert MergesInto(m.names, dirs', m.merged) by {
        MergesKept(m.names, dirs, dirs', m.merged);
      }
    }
  }

  lemma MergesKept(names: set<PartId>, dirs: map<PartId, PartDir>, dirs': map<PartId, PartDir>, merged: Series)
    requires MergesInto(names, dirs, merged) && names <= dirs.Keys
    requires forall n :: n in names ==> n in dirs' && dirs'[n] == dirs[n]
    ensures MergesInto(names, dirs', merged)
  {
    forall id, x ensures CountIn(merged, id, x) == SumOver(names, dirs', id, x) {
      SumFrame(names, dirs, dirs', id, x);
    }
  }

  // ---------- flush: one day ----------

  /** What a flush at work on its day leaves alone. */
  predicate DayFrame(s: Sys, s': Sys) {
    && s.flush.FDay? && s'.flush.FDay? && s'.flush == s.flush.(stage := s'.flush.stage)
    && s' == s.(disk := s.disk.(days := s'.disk.days), partitions := s'.partitions, flush := s'.flush)
  }

  lemma DayFrameKeeps(s: Sys, s': Sys)
    requires Inv(s) && DayFrame(s, s')
    requires DaysOk(s'.disk.days, s'.disk.forward, s'.disk.inverted, s'.partitions)
    requires FlushOk(s'.flush, s'.disk.days, s'.disk.inverted, s'.partitions) && MergeOk(s'.merge, s'.flush, s'.disk.days, s'.partitions)
    ensures Inv(s')
  {
    InvParts(s);
    SameBatch(s.reg, s.disk.inverted, s.mem, s.appends, s.flush, s'.flush, s.cutoff);
    SameDrained(s.reg, s.disk.forward, s.flush, s'.flush);
    hide Inv, RegistryOk, DurableOk, PersistedOk, FindableOk, DaysOk, FlushOk, MergeOk, DaysOf, AppendOk;
    InvOf(s');
  }

  lemma FlushOpenDayKeeps(s: Sys, step: Step, s': Sys)
    requires Inv(s) && step.FlushOpenDay? && NextFlush(s, step, s')
    ensures Inv(s')
  {
    hide *;
    InvParts(s);
    OpenIs(s, step, s');
    OpenParts(s, s');
    DayFrameKeeps(s, s');
  }

  ghost predicate OpensItsDay(s: Sys, s': Sys)
    requires s.flush.FDay?
  {
    var d := s.flush.day;
    if d in s.partitions then s'.disk.days == s.disk.days && s'.partitions == s.partitions
    else exists p :: OpensAs(Cleaned(DirOf(s.disk, d)), p) &&
                     s'.disk.days == s.disk.days[d := Cleaned(DirOf(s.disk, d))] && s'.partitions == s.partitions[d := p]
  }

  lemma OpenIs(s: Sys, step: Step, s': Sys)
    requires step.FlushOpenDay? && NextFlush(s, step, s')
    ensures DayFrame(s, s') && s'.flush.stage == Opened && OpensItsDay(s, s')
  {
    hide OpensAs, Cleaned, DirOf;
  }

  lemma OpenParts(s: Sys, s': Sys)
    requires DaysOk(s.disk.days, s.disk.forward, s.disk.inverted, s.partitions)
    requires FlushOk(s.flush, s.disk.days, s.disk.inverted, s.partitions) && MergeOk(s.merge, s.flush, s.disk.days, s.partitions)
    requires DayFrame(s, s') && s'.flush.stage == Opened && OpensItsDay(s, s')
    ensures DaysOk(s'.disk.days, s'.disk.forward, s'.disk.inverted, s'.partitions)
    ensures FlushOk(s'.flush, s'.disk.days, s'.disk.inverted, s'.partitions) && MergeOk(s'.merge, s'.flush, s'.disk.days, s'.partitions)
  {
    hide MergesInto, SameCounts, DayPart, InvertedOf, Sorts;
    var d := s.flush.day;
    MergeNewFlush(s.merge, s.flush, s'.flush, s.disk.days, s.partitions);
    if d !in s.partitions {
      DaysUpdate(s.disk.days, s.disk.forward, s.disk.inverted, s.partitions, d, NEW_DIR, s'.partitions[d]);
    }
  }

  lemma SameDrained(r: S.State, forward: Entries, f: Flush, f': Flush)
    requires RegistryOk(r, forward, f) && !f.FDrained? && !f'.FDrained?
    ensures RegistryOk(r, forward, f')
  {
  }

  lemma DayPartOk(f: Flush, d: Day, forward: Entries, inverted: map<Day, Entries>)
    requires !f.FIdle? && f.batch.Keys <= forward.Keys && DayPart(f.batch, d).Keys <= InvertedOf(inverted, d).Keys
    ensures PartOk(d, DayPart(f.batch, d), forward, inverted)
  {
    forall id, x | id in DayPart(f.batch, d) && x in DayPart(f.batch, d)[id] ensures DayOf(x.t) == d {
      DayPartCount(f.batch, d, id, x);
      CountIsIn(DayPart(f.batch, d), id, x);
    }
  }

  /** Staging a part under a fresh ID. */
  lemma StageDay(dd: DayDir, p: Partition, part: PartDir)
    requires DayOk(dd, p)
    ensures DayOk(dd.(staging := dd.staging[p.nextID := part]), p.(nextID := p.nextID + 1))
    ensures p.nextID !in dd.dirs && p.nextID !in dd.staging
  {
  }

  lemma StageDays(s: Sys, d: Day, part: PartDir)
    requires DaysOk(s.disk.days, s.disk.forward, s.disk.inverted, s.partitions) && d in s.partitions
    requires PartOk(d, part.data, s.disk.forward, s.disk.inverted)
    ensures var s' := StagePart(s, d, part);
            DaysOk(s'.disk.days, s'.disk.forward, s'.disk.inverted, s'.partitions)
  {
    hide DayOk, PartOk;
    DaysAt(s.disk.days, s.disk.forward, s.disk.inverted, s.partitions, d);
    var dd, p := s.disk.days[d], s.partitions[d];
    StageDay(dd, p, part);
    DaysUpdate(s.disk.days, s.disk.forward, s.disk.inverted, s.partitions, d,
               dd.(staging := dd.staging[p.nextID := part]), p.(nextID := p.nextID + 1));
  }

  lemma FlushStageKeeps(s: Sys, step: Step, s': Sys)
    requires Inv(s) && step.FlushStage? && NextFlush(s, step, s')
    ensures Inv(s')
  {
    hide *;
    StageIs(s, step, s');
    StageParts(s, step, s');
    DayFrameKeeps(s, s');
  }

  lemma StageIs(s: Sys, step: Step, s': Sys)
    requires step.FlushStage? && NextFlush(s, step, s')
    ensures DayFrame(s, s')
  {
    hide DayPart, Sorts, DirOf;
  }

  lemma StageParts(s: Sys, step: Step, s': Sys)
    requires Inv(s) && step.FlushStage? && NextFlush(s, step, s')
    ensures DaysOk(s'.disk.days, s'.disk.forward, s'.disk.inverted, s'.partitions)
    ensures FlushOk(s'.flush, s'.disk.days, s'.disk.inverted, s'.partitions) && MergeOk(s'.merge, s'.flush, s'.disk.days, s'.partitions)
  {
    hide DaysOf, RegistryOk, DurableOk, PersistedOk, FindableOk, AppendOk, DayPart, Sorts, Permutes, PartOk, DaysOk, MergesInto, SameCounts;
    hide TodoOk, RetentionOk;
    var f := s.flush;
    DayPartOk(f, f.day, s.disk.forward, s.disk.inverted);
    SortsPartOk(f.day, step.data, DayPart(f.batch, f.day), s.disk.forward, s.disk.inverted);
    StageDays(s, f.day, PartDir(step.data, Small));
    DaysAt(s.disk.days, s.disk.forward, s.disk.inverted, s.partitions, f.day);
    StageDay(s.disk.days[f.day], s.partitions[f.day], PartDir(step.data, Small));
    if s.merge != MIdle {
      DaysAt(s.disk.days, s.disk.forward, s.disk.inverted, s.partitions, s.merge.day);
      MergeKept(s.merge, f, s'.flush, s.disk.days, s'.disk.days, s.partitions, s'.partitions);
    }
  }

  /** Renaming moves one part from staging to the directories. */
  lemma RenameDays(s: Sys, d: Day, n: PartId)
    requires DaysOk(s.disk.days, s.disk.forward, s.disk.inverted, s.partitions) && d in s.partitions
    requires n in DirOf(s.disk, d).staging
    ensures n !in s.disk.days[d].dirs && n !in s.partitions[d].parts
    ensures var disk' := RenamePart(s.disk, d, n);
            DaysOk(disk'.days, s.disk.forward, s.disk.inverted, s.partitions)
  {
    hide PartOk;
    DaysAt(s.disk.days, s.disk.forward, s.disk.inverted, s.partitions, d);
    var dd := s.disk.days[d];
    hide DaysOk;
    SamePartitions(s.disk.days, s.disk.forward, s.disk.inverted, s.partitions, d,
                   dd.(staging := dd.staging - {n}, dirs := dd.dirs[n := dd.staging[n]]));
  }

  lemma FlushRenameKeeps(s: Sys, step: Step, s': Sys)
    requires Inv(s) && step.FlushRename? && NextFlush(s, step, s')
    ensures Inv(s')
  {
    hide DaysOf, RegistryOk, DurableOk, PersistedOk, FindableOk, AppendOk, DayPart, Sorts, Permutes, PartOk, DaysOk, MergesInto, SameCounts;
    var f := s.flush;
    SameBatch(s.reg, s.disk.inverted, s.mem, s.appends, f, s'.flush, s.cutoff);
    SameDrained(s.reg, s.disk.forward, f, s'.flush);
    RenameDays(s, f.day, f.stage.part);
    if s.merge != MIdle {
      MergeKept(s.merge, f, s'.flush, s.disk.days, s'.disk.days, s.partitions, s'.partitions);
    }
  }

  lemma SetPartsDays(s: Sys, d: Day, parts: set<PartId>)
    requires DaysOk(s.disk.days, s.disk.forward, s.disk.inverted, s.partitions) && d in s.partitions
    requires parts <= DirOf(s.disk, d).dirs.Keys
    ensures var s' := SetParts(s, d, parts);
            DaysOk(s'.disk.days, s'.disk.forward, s'.disk.inverted, s'.partitions)
  {
    hide PartOk;
    DaysAt(s.disk.days, s.disk.forward, s.disk.inverted, s.partitions, d);
    var dd, p := s.disk.days[d], s.partitions[d];
    hide DaysOk;
    DaysUpdate(s.disk.days, s.disk.forward, s.disk.inverted, s.partitions, d, dd.(manifest := parts), p.(parts := parts));
  }

  lemma FlushPublishKeeps(s: Sys, step: Step, s': Sys)
    requires Inv(s) && step.FlushPublish? && NextFlush(s, step, s')
    ensures Inv(s')
  {
    hide DaysOf, RegistryOk, DurableOk, PersistedOk, FindableOk, AppendOk, DayPart, Sorts, Permutes, PartOk, DaysOk, MergesInto, SameCounts;
    var f := s.flush;
    SameBatch(s.reg, s.disk.inverted, s.mem, s.appends, f, s'.flush, s.cutoff);
    SameDrained(s.reg, s.disk.forward, f, s'.flush);
    DaysAt(s.disk.days, s.disk.forward, s.disk.inverted, s.partitions, f.day);
    SetPartsDays(s, f.day, s.partitions[f.day].parts + {f.stage.part});
    if s.merge != MIdle {
      MergeKept(s.merge, f, s'.flush, s.disk.days, s'.disk.days, s.partitions, s'.partitions);
    }
  }

  lemma UnstageDays(s: Sys, d: Day, n: PartId)
    requires DaysOk(s.disk.days, s.disk.forward, s.disk.inverted, s.partitions) && d in s.partitions
    ensures DaysOk(UnstagePart(s.disk, d, n).days, s.disk.forward, s.disk.inverted, s.partitions)
  {
    hide PartOk;
    DaysAt(s.disk.days, s.disk.forward, s.disk.inverted, s.partitions, d);
    var dd := s.disk.days[d];
    hide DaysOk;
    SamePartitions(s.disk.days, s.disk.forward, s.disk.inverted, s.partitions, d, dd.(staging := dd.staging - {n}));
  }

  lemma SortedFound(data: Series, batch: Series, d: Day, reg: S.State, cutoff: Day)
    requires Permutes(data, DayPart(batch, d)) && FoundAll(batch, reg, cutoff)
    ensures FoundAll(data, reg, cutoff) && data.Keys <= batch.Keys
  {
    hide S.IndexedOn, SortedByTime;
    forall id, x | id in data && x in data[id] ensures id in batch && x in batch[id] {
      assert x in multiset(data[id]);
      assert x in multiset(DayPart(batch, d)[id]);
      DayPartCount(batch, d, id, x);
      CountIsIn(batch, id, x);
    }
  }

  lemma IdsRestored(r: S.State, forward: Entries, mem: Series, appends: map<nat, Append>, f: Flush, back: Series)
    requires IdsOk(r, forward, mem, appends, f) && back.Keys <= BatchOf(f).Keys
    ensures IdsOk(r, forward, Joined(mem, back), appends, FIdle)
  {
    hide AppendOk;
  }

  lemma UnstagedMerge(m: Merge, f: Flush, disk: Disk, partitions: map<Day, Partition>, d: Day, n: PartId)
    requires MergeOk(m, f, disk.days, partitions) && IsFlushPart(f, d, n)
    ensures MergeOk(m, FIdle, UnstagePart(disk, d, n).days, partitions)
  {
    hide MergesInto, SameCounts;
    if m != MIdle {
      var days' := UnstagePart(disk, d, n).days;
      assert days'[m.day].dirs == disk.days[m.day].dirs;
      assert m.MStaged? && m.day == d ==> m.part != n;
      MergeKept(m, f, FIdle, disk.days, days', partitions, partitions);
    }
  }

  lemma FailedDayMerge(s: Sys, step: Step, s': Sys)
    requires MergeOk(s.merge, s.flush, s.disk.days, s.partitions) && step.FlushDayFails? && NextFlush(s, step, s')
    ensures MergeOk(s'.merge, s'.flush, s'.disk.days, s'.partitions)
  {
    hide MergeOk, Sorts, Permutes, DayPart, Joined, UnstagePart;
    if s.flush.FDay? && s.flush.stage.Staged? {
      UnstagedMerge(s.merge, s.flush, s.disk, s.partitions, step.day, s.flush.stage.part);
    } else {
      MergeNewFlush(s.merge, s.flush, FIdle, s.disk.days, s.partitions);
    }
  }

  lemma FlushDayFailsKeeps(s: Sys, step: Step, s': Sys)
    requires Inv(s) && step.FlushDayFails? && NextFlush(s, step, s')
    ensures Inv(s')
  {
    hide DaysOf, RegistryOk, IdsOk, DurableOk, PersistedOk, FindableOk, DaysOk, MergeOk, DayPart, Sorts, Permutes, Joined;
    hide UnstagePart, S.Replays;
    RestoredBuffer(s, step.day, step.data);
    FailedDayMerge(s, step, s');
    FailedDayDisk(s, step, s');
  }

  /** Samples a flush gives up go back to the buffer. */
  lemma RestoredBuffer(s: Sys, day: Day, data: Series)
    requires Inv(s) && (s.flush.FVisiting? || s.flush.FDay?) && Permutes(data, DayPart(s.flush.batch, day))
    ensures RegistryOk(s.reg, s.disk.forward, FIdle)
    ensures IdsOk(s.reg, s.disk.forward, Joined(s.mem, data), s.appends, FIdle)
    ensures FindableOk(s.reg, s.disk.inverted, Joined(s.mem, data), s.appends, FIdle, s.cutoff)
  {
    var f := s.flush;
    hide TodoOk, DaysOk, MergeOk, DurableOk, PersistedOk, UnstagePart, S.WellIndexed, S.Consistent;
    FoundParts(s.reg, s.disk.inverted, s.mem, s.appends, f, s.cutoff);
    SortedFound(data, f.batch, day, s.reg, s.cutoff);
    hide FoundAll, Sorts, Permutes, DayPart, Joined;
    FoundRestored(s.reg, s.disk.inverted, s.mem, s.appends, f, data, s.cutoff);
    IdsRestored(s.reg, s.disk.forward, s.mem, s.appends, f, data);
    SameDrained(s.reg, s.disk.forward, f, FIdle);
  }

  lemma ListDays(s: Sys, d: Day, parts: set<PartId>)
    requires DaysOk(s.disk.days, s.disk.forward, s.disk.inverted, s.partitions) && d in s.partitions
    requires s.partitions[d].parts <= parts <= DirOf(s.disk, d).dirs.Keys
    ensures DaysOk(s.disk.days, s.disk.forward, s.disk.inverted, s.partitions[d := s.partitions[d].(parts := parts)])
  {
    hide PartOk;
    DaysAt(s.disk.days, s.disk.forward, s.disk.inverted, s.partitions, d);
    var dd, p := s.disk.days[d], s.partitions[d];
    hide DaysOk;
    DaysUpdate(s.disk.days, s.disk.forward, s.disk.inverted, s.partitions, d, dd, p.(parts := parts));
    assert s.disk.days[d := dd] == s.disk.days;
  }

  lemma ManifestFailsDisk(s: Sys, step: Step, s': Sys)
    requires Inv(s) && step.FlushManifestFails? && NextFlush(s, step, s')
    ensures DaysOk(s'.disk.days, s.disk.forward, s.disk.inverted, s'.partitions)
    ensures MergeOk(s'.merge, s'.flush, s'.disk.days, s'.partitions)
  {
    hide TodoOk, RegistryOk, DurableOk, PersistedOk, FindableOk, AppendOk, DayPart, Sorts, Permutes, PartOk, DaysOk, MergesInto, SameCounts, Joined;
    var f := s.flush;
    DaysAt(s.disk.days, s.disk.forward, s.disk.inverted, s.partitions, f.day);
    ListDays(s, f.day, s.partitions[f.day].parts + {f.stage.part});
    if s.merge != MIdle {
      MergeKept(s.merge, f, FIdle, s.disk.days, s.disk.days, s.partitions, s'.partitions);
    }
  }

  lemma FlushManifestFailsKeeps(s: Sys, step: Step, s': Sys)
    requires Inv(s) && step.FlushManifestFails? && NextFlush(s, step, s')
    ensures Inv(s')
  {
    hide *;
    InvParts(s);
    ManifestFailsIs(s, step, s');
    ManifestFailsDisk(s, step, s');
    RestoredBuffer(s, s.flush.day, step.data);
    IdleOk(s, s');
    InvOf(s');
  }

  lemma ManifestFailsIs(s: Sys, step: Step, s': Sys)
    requires step.FlushManifestFails? && NextFlush(s, step, s')
    ensures s.flush.FDay? && Permutes(step.data, DayPart(s.flush.batch, s.flush.day))
    ensures s' == s.(partitions := s'.partitions, mem := Joined(s.mem, step.data), flush := FIdle)
  {
    hide DayPart, Permutes, Joined;
  }

  lemma IdleOk(s: Sys, s': Sys)
    requires RetentionOk(s.retention, s.flush, s.merge, s.disk.days, s.disk.inverted, s.cutoff) && s.flush != FIdle
    requires s'.retention == s.retention && s'.flush == FIdle
    ensures FlushOk(s'.flush, s'.disk.days, s'.disk.inverted, s'.partitions) && TodoOk(s'.flush)
    ensures RetentionOk(s'.retention, s'.flush, s'.merge, s'.disk.days, s'.disk.inverted, s'.cutoff)
  {
  }

  lemma FailedDayDisk(s: Sys, step: Step, s': Sys)
    requires Inv(s) && step.FlushDayFails? && NextFlush(s, step, s')
    ensures s'.disk.forward == s.disk.forward && s'.disk.inverted == s.disk.inverted && s'.partitions == s.partitions
    ensures DaysOk(s'.disk.days, s.disk.forward, s.disk.inverted, s.partitions)
  {
    hide TodoOk, RegistryOk, IdsOk, DurableOk, PersistedOk, FindableOk, DaysOk, MergeOk, DayPart, Sorts, Permutes, Joined;
    if s.flush.FDay? && s.flush.stage.Staged? {
      UnstageDays(s, s.flush.day, s.flush.stage.part);
    }
  }

  lemma FlushEndKeeps(s: Sys, step: Step, s': Sys)
    requires Inv(s) && step.FlushEnd? && NextFlush(s, step, s')
    ensures Inv(s')
  {
    hide DaysOf, RegistryOk, DurableOk, PersistedOk, FindableOk, AppendOk, DaysOk, MergeOk;
    SameBatch(s.reg, s.disk.inverted, s.mem, s.appends, s.flush, s'.flush, s.cutoff);
    SameDrained(s.reg, s.disk.forward, s.flush, s'.flush);
    MergeNewFlush(s.merge, s.flush, s'.flush, s.disk.days, s.partitions);
  }

  lemma FlushKeeps(s: Sys, step: Step, s': Sys)
    requires Inv(s) && IsFlushStep(step) && NextFlush(s, step, s')
    ensures Inv(s')
  {
    hide DaysOf, Inv, NextFlush;
    match step {
      case FlushSwap => FlushSwapKeeps(s, step, s');
      case FlushDrain => FlushDrainKeeps(s, step, s');
      case FlushSaveRegistry => FlushSaveRegistryKeeps(s, step, s');
      case FlushRegistryFails => FlushRegistryFailsKeeps(s, step, s');
      case FlushIndexDay(_) => FlushIndexDayKeeps(s, step, s');
      case FlushOpenDay => FlushOpenDayKeeps(s, step, s');
      case FlushStage(_) => FlushStageKeeps(s, step, s');
      case FlushRename => FlushRenameKeeps(s, step, s');
      case FlushPublish => FlushPublishKeeps(s, step, s');
      case FlushManifestFails(_) => FlushManifestFailsKeeps(s, step, s');
      case FlushDayFails(_, _) => FlushDayFailsKeeps(s, step, s');
      case FlushEnd => FlushEndKeeps(s, step, s');
    }
  }

  // ---------- merge ----------

  /** The flush goes on as before when its day keeps its part where it was. */
  lemma FlushKept(f: Flush, days: map<Day, DayDir>, days': map<Day, DayDir>, inverted: map<Day, Entries>,
                  partitions: map<Day, Partition>, partitions': map<Day, Partition>)
    requires FlushOk(f, days, inverted, partitions) && f.FDay?
    requires f.stage != Indexed ==> f.day in partitions' && f.day in days'
    requires f.stage.Staged? ==>
               f.stage.part in days'[f.day].staging && days'[f.day].staging[f.stage.part] == days[f.day].staging[f.stage.part]
    requires f.stage.Renamed? ==>
               && f.stage.part in days'[f.day].dirs && days'[f.day].dirs[f.stage.part] == days[f.day].dirs[f.stage.part]
               && f.stage.part !in partitions'[f.day].parts
    ensures FlushOk(f, days', inverted, partitions')
  {
    hide Sorts, Permutes, DayPart;
  }

  lemma MergeSnapshotKeeps(s: Sys, step: Step, s': Sys)
    requires Inv(s) && step.MergeSnapshot? && NextMerge(s, step, s')
    ensures Inv(s')
  {
    DaysAt(s.disk.days, s.disk.forward, s.disk.inverted, s.partitions, step.day);
    hide TodoOk, RegistryOk, IdsOk, DurableOk, PersistedOk, FindableOk, DaysOk, FlushOk, MergesInto, SameCounts, PartsOk;
  }

  lemma MergeReadKeeps(s: Sys, step: Step, s': Sys)
    requires Inv(s) && step.MergeRead? && NextMerge(s, step, s')
    ensures Inv(s')
  {
    hide TodoOk, RegistryOk, IdsOk, DurableOk, PersistedOk, FindableOk, DaysOk, FlushOk, MergesInto, SameCounts;
  }

  lemma MergedPartOk(d: Day, names: set<PartId>, dirs: map<PartId, PartDir>, merged: Series,
                     forward: Entries, inverted: map<Day, Entries>)
    requires PartsOk(d, dirs, forward, inverted) && MergesInto(names, dirs, merged)
    ensures PartOk(d, merged, forward, inverted)
  {
    forall id, x | id in merged && x in merged[id] ensures DayOf(x.t) == d {
      CountIsIn(merged, id, x);
      var n := SumPositive(names, dirs, id, x);
      CountIsIn(dirs[n].data, id, x);
    }
  }

  lemma SortedMergeCounts(data: Series, merged: Series, names: set<PartId>, dirs: map<PartId, PartDir>)
    requires Sorts(data, merged) && MergesInto(names, dirs, merged)
    ensures SameCounts(data, names, dirs)
  {
    forall id, x ensures CountIn(data, id, x) == SumOver(names, dirs, id, x) {
      SortsCount(data, merged, id, x);
    }
  }

  lemma MergeStageParts(s: Sys, step: Step, s': Sys)
    requires Inv(s) && step.MergeStage? && NextMerge(s, step, s')
    ensures DaysOk(s'.disk.days, s.disk.forward, s.disk.inverted, s'.partitions)
    ensures MergeOk(s'.merge, s.flush, s'.disk.days, s'.partitions)
  {
    hide TodoOk, RegistryOk, IdsOk, DurableOk, PersistedOk, FindableOk;
    var m, d, dd := s.merge, s.merge.day, s.disk.days[s.merge.day];
    DaysAt(s.disk.days, s.disk.forward, s.disk.inverted, s.partitions, d);
    MergedPartOk(d, m.names, dd.dirs, m.merged, s.disk.forward, s.disk.inverted);
    SortsPartOk(d, step.data, m.merged, s.disk.forward, s.disk.inverted);
    SortedMergeCounts(step.data, m.merged, m.names, dd.dirs);
    StageDays(s, d, PartDir(step.data, Big));
    StageDay(dd, s.partitions[d], PartDir(step.data, Big));
    hide DaysOk, MergesInto, SameCounts, Sorts, PartsOk, PartOk, DayPart;
  }

  lemma MergeStageKeeps(s: Sys, step: Step, s': Sys)
    requires Inv(s) && step.MergeStage? && NextMerge(s, step, s')
    ensures Inv(s')
  {
    hide TodoOk, RegistryOk, IdsOk, DurableOk, PersistedOk, FindableOk, MergesInto, SameCounts, Sorts, PartsOk, DayPart, MergeOk;
    MergeStageParts(s, step, s');
    if s.flush.FDay? {
      DaysAt(s.disk.days, s.disk.forward, s.disk.inverted, s.partitions, s.merge.day);
      FlushKept(s.flush, s.disk.days, s'.disk.days, s.disk.inverted, s.partitions, s'.partitions);
    }
    hide DaysOk;
  }

  lemma MergeStageFailsKeeps(s: Sys, step: Step, s': Sys)
    requires Inv(s) && step.MergeStageFails? && NextMerge(s, step, s')
    ensures Inv(s')
  {
    hide TodoOk, RegistryOk, IdsOk, DurableOk, PersistedOk, FindableOk, DaysOk, SameCounts, DayPart, Sorts, Permutes, MergesInto;
    UnstageDays(s, s.merge.day, s.merge.part);
    if s.flush.FDay? {
      FlushKept(s.flush, s.disk.days, s'.disk.days, s.disk.inverted, s.partitions, s'.partitions);
    }
  }

  lemma MergeRenameParts(s: Sys, step: Step, s': Sys)
    requires MergeOk(s.merge, s.flush, s.disk.days, s.partitions)
    requires FlushOk(s.flush, s.disk.days, s.disk.inverted, s.partitions)
    requires step.MergeRename? && NextMerge(s, step, s')
    requires s.merge.part !in s.disk.days[s.merge.day].dirs && s.merge.part !in s.partitions[s.merge.day].parts
    ensures MergeOk(s'.merge, s'.flush, s'.disk.days, s'.partitions)
    ensures FlushOk(s'.flush, s'.disk.days, s'.disk.inverted, s'.partitions)
  {
    hide SameCounts, DayPart, Sorts, Permutes;
    var m, dirs, dirs' := s.merge, s.disk.days[s.merge.day].dirs, s'.disk.days[s.merge.day].dirs;
    SameCountsKept(s.disk.days[m.day].staging[m.part].data, m.names, dirs, dirs');
    if s.flush.FDay? {
      FlushKept(s.flush, s.disk.days, s'.disk.days, s.disk.inverted, s.partitions, s'.partitions);
    }
  }

  lemma MergeRenameKeeps(s: Sys, step: Step, s': Sys)
    requires Inv(s) && step.MergeRename? && NextMerge(s, step, s')
    ensures Inv(s')
  {
    RenameDays(s, s.merge.day, s.merge.part);
    MergeRenameParts(s, step, s');
    hide TodoOk, RegistryOk, IdsOk, DurableOk, PersistedOk, FindableOk, DaysOk, FlushOk, MergeOk;
  }

  lemma SameCountsKept(data: Series, names: set<PartId>, dirs: map<PartId, PartDir>, dirs': map<PartId, PartDir>)
    requires SameCounts(data, names, dirs) && names <= dirs.Keys
    requires forall n :: n in names ==> n in dirs' && dirs'[n] == dirs[n]
    ensures SameCounts(data, names, dirs')
  {
    forall id, x ensures CountIn(data, id, x) == SumOver(names, dirs', id, x) {
      SumFrame(names, dirs, dirs', id, x);
    }
  }

  lemma MergeSwapParts(s: Sys, step: Step, s': Sys)
    requires MergeOk(s.merge, s.flush, s.disk.days, s.partitions)
    requires FlushOk(s.flush, s.disk.days, s.disk.inverted, s.partitions)
    requires step.MergeSwap? && NextMerge(s, step, s')
    requires forall n :: IsFlushPart(s.flush, s.merge.day, n) ==> n !in s.partitions[s.merge.day].parts
    ensures MergeOk(s'.merge, s'.flush, s'.disk.days, s'.partitions)
    ensures FlushOk(s'.flush, s'.disk.days, s'.disk.inverted, s'.partitions)
  {
    hide SameCounts, DayPart, Sorts, Permutes;
    if s.flush.FDay? {
      FlushKept(s.flush, s.disk.days, s'.disk.days, s.disk.inverted, s.partitions, s'.partitions);
    }
  }

  /** The part in the flush's hands is not listed yet. */
  lemma FlushPartUnlisted(f: Flush, days: map<Day, DayDir>, inverted: map<Day, Entries>, partitions: map<Day, Partition>,
                          d: Day, n: PartId)
    requires FlushOk(f, days, inverted, partitions) && d in partitions && d in days && DayOk(days[d], partitions[d])
    requires IsFlushPart(f, d, n)
    ensures n !in partitions[d].parts
  {
    hide Sorts, Permutes, DayPart;
  }

  lemma MergeSwapKeeps(s: Sys, step: Step, s': Sys)
    requires Inv(s) && step.MergeSwap? && NextMerge(s, step, s')
    ensures Inv(s')
  {
    var m := s.merge;
    DaysAt(s.disk.days, s.disk.forward, s.disk.inverted, s.partitions, m.day);
    SetPartsDays(s, m.day, s.partitions[m.day].parts - m.names + {m.part});
    forall n | IsFlushPart(s.flush, m.day, n) ensures n !in s.partitions[m.day].parts {
      FlushPartUnlisted(s.flush, s.disk.days, s.disk.inverted, s.partitions, m.day, n);
    }
    MergeSwapParts(s, step, s');
    hide TodoOk, RegistryOk, IdsOk, DurableOk, PersistedOk, FindableOk, DaysOk, FlushOk, MergeOk, DayOk, PartsOk, IsFlushPart;
  }

  lemma MergeSwapFailsKeeps(s: Sys, step: Step, s': Sys)
    requires Inv(s) && (step.MergeSwapFails? || step.MergeEnd?) && NextMerge(s, step, s')
    ensures Inv(s')
  {
    hide TodoOk, RegistryOk, IdsOk, DurableOk, PersistedOk, FindableOk, DaysOk, FlushOk, SameCounts;
  }

  lemma DeleteDays(s: Sys, d: Day, n: PartId)
    requires DaysOk(s.disk.days, s.disk.forward, s.disk.inverted, s.partitions) && d in s.partitions
    requires n !in s.partitions[d].parts
    ensures var dd := DirOf(s.disk, d);
            DaysOk(s.disk.days[d := dd.(dirs := dd.dirs - {n})], s.disk.forward, s.disk.inverted, s.partitions)
  {
    hide PartOk;
    DaysAt(s.disk.days, s.disk.forward, s.disk.inverted, s.partitions, d);
    var dd := s.disk.days[d];
    hide DaysOk;
    SamePartitions(s.disk.days, s.disk.forward, s.disk.inverted, s.partitions, d, dd.(dirs := dd.dirs - {n}));
  }

  lemma MergeDeleteParts(s: Sys, step: Step, s': Sys)
    requires MergeOk(s.merge, s.flush, s.disk.days, s.partitions)
    requires FlushOk(s.flush, s.disk.days, s.disk.inverted, s.partitions)
    requires step.MergeDelete? && NextMerge(s, step, s')
    ensures step.part !in s.partitions[s.merge.day].parts
    ensures MergeOk(s'.merge, s'.flush, s'.disk.days, s'.partitions)
    ensures FlushOk(s'.flush, s'.disk.days, s'.disk.inverted, s'.partitions)
  {
    hide SameCounts, DayPart, Sorts, Permutes;
    if s.flush.FDay? {
      FlushKept(s.flush, s.disk.days, s'.disk.days, s.disk.inverted, s.partitions, s'.partitions);
    }
  }

  lemma MergeDeleteKeeps(s: Sys, step: Step, s': Sys)
    requires Inv(s) && step.MergeDelete? && NextMerge(s, step, s')
    ensures Inv(s')
  {
    assert s.merge.day in s.partitions;
    MergeDeleteParts(s, step, s');
    DeleteDays(s, s.merge.day, step.part);
    hide TodoOk, RegistryOk, IdsOk, DurableOk, PersistedOk, FindableOk, DaysOk, FlushOk, MergeOk;
  }

  lemma MergeKeeps(s: Sys, step: Step, s': Sys)
    requires Inv(s) && IsMergeStep(step) && NextMerge(s, step, s')
    ensures Inv(s')
  {
    hide Inv, NextMerge;
    match step {
      case MergeSnapshot(_) => MergeSnapshotKeeps(s, step, s');
      case MergeRead(_) => MergeReadKeeps(s, step, s');
      case MergeStage(_) => MergeStageKeeps(s, step, s');
      case MergeStageFails => MergeStageFailsKeeps(s, step, s');
      case MergeRename => MergeRenameKeeps(s, step, s');
      case MergeSwap => MergeSwapKeeps(s, step, s');
      case MergeSwapFails => MergeSwapFailsKeeps(s, step, s');
      case MergeDelete(_) => MergeDeleteKeeps(s, step, s');
      case MergeEnd => MergeSwapFailsKeeps(s, step, s');
    }
  }

  // ---------- retention ----------

  lemma LaterCutoff(r: S.State, inverted: map<Day, Entries>, mem: Series, appends: map<nat, Append>, f: Flush, c: Day, c': Day)
    requires FindableOk(r, inverted, mem, appends, f, c) && c <= c'
    ensures FindableOk(r, inverted, mem, appends, f, c')
  {
    hide S.IndexedOn;
  }

  lemma RetentionStartKeeps(s: Sys, step: Step, s': Sys)
    requires Inv(s) && step.RetentionStart? && NextRetention(s, step, s')
    ensures Inv(s')
  {
    LaterCutoff(s.reg, s.disk.inverted, s.mem, s.appends, s.flush, s.cutoff, s'.cutoff);
    hide TodoOk, RegistryOk, IdsOk, DurableOk, FindableOk, DaysOk, FlushOk, MergeOk, S.Persisted;
  }

  lemma RetentionDropDirKeeps(s: Sys, step: Step, s': Sys)
    requires Inv(s) && step.RetentionDropDir? && NextRetention(s, step, s')
    ensures Inv(s')
  {
    hide TodoOk, RegistryOk, IdsOk, DurableOk, FindableOk, S.Persisted, DayOk, PartsOk, MergesInto, SameCounts;
  }

  lemma DropIndexDays(days: map<Day, DayDir>, forward: Entries, inverted: map<Day, Entries>, partitions: map<Day, Partition>, day: Day)
    requires DaysOk(days, forward, inverted, partitions) && day !in days
    ensures DaysOk(days, forward, inverted - {day}, partitions)
  {
    hide DayOk;
  }

  lemma DropIndexRecords(s: Sys, day: Day)
    requires DurableOk(s.disk.forward, s.disk.inverted) && s.retention.RDirGone? && s.retention.day == day
    requires PersistedOk(s.reg, s.disk.inverted, s.retention)
    requires FindableOk(s.reg, s.disk.inverted, s.mem, s.appends, s.flush, s.cutoff)
    ensures DurableOk(s.disk.forward, s.disk.inverted - {day})
    ensures PersistedOk(s.reg, s.disk.inverted - {day}, RIndexGone(s.retention.todo, day))
    ensures FindableOk(s.reg, s.disk.inverted - {day}, s.mem, s.appends, s.flush, s.cutoff)
  {
    hide S.Persisted, S.IndexedOn, FoundAll;
  }

  lemma RetentionDropIndexKeeps(s: Sys, step: Step, s': Sys)
    requires Inv(s) && step.RetentionDropIndex? && NextRetention(s, step, s')
    ensures Inv(s')
  {
    DropIndexDays(s.disk.days, s.disk.forward, s.disk.inverted, s.partitions, s.retention.day);
    DropIndexRecords(s, s.retention.day);
    hide TodoOk, RegistryOk, IdsOk, DaysOk, DurableOk, PersistedOk, FindableOk;
  }

  lemma ForgetKeeps(r: S.State, day: Day, cutoff: Day)
    requires S.Consistent(r) && S.WellIndexed(r) && day < cutoff
    ensures var r' := S.Dropped(r, day); S.Consistent(r') && S.WellIndexed(r') && Grows(r, r', cutoff)
  {
    hide S.HasKey, CanonicalKey, SortedLabels;
    var r' := S.Dropped(r, day);
    forall d, k, i ensures S.Has(r'.inverted, d, k, i) <==> d != day && S.Has(r.inverted, d, k, i) {}
    forall d, i | d != day && S.IndexedOn(r, d, i) ensures S.IndexedOn(r', d, i) {}
  }

  lemma RegistryForget(r: S.State, forward: Entries, f: Flush, day: Day, cutoff: Day)
    requires RegistryOk(r, forward, f) && day < cutoff
    ensures RegistryOk(S.Dropped(r, day), forward, f) && Grows(r, S.Dropped(r, day), cutoff)
  {
    hide S.WellIndexed, S.Consistent, Grows;
    ForgetKeeps(r, day, cutoff);
  }

  lemma PersistedForget(r: S.State, inverted: map<Day, Entries>, ret: Retention, ret': Retention)
    requires PersistedOk(r, inverted, ret) && ret.RIndexGone? && ret'.RRun?
    ensures PersistedOk(S.Dropped(r, ret.day), inverted, ret')
  {
    forall d, i: SeriesId | S.Persisted(S.Dropped(r, ret.day), d, i) ensures d in inverted && i in inverted[d] {
      assert S.Persisted(r, d, i) && d != ret.day;
    }
  }

  lemma RetentionForgetKeeps(s: Sys, step: Step, s': Sys)
    requires Inv(s) && step.RetentionForget? && NextRetention(s, step, s')
    ensures Inv(s')
  {
    RegistryForget(s.reg, s.disk.forward, s.flush, s.retention.day, s.cutoff);
    GrowsFound(s.reg, s'.reg, s.cutoff, s.disk.inverted, s.mem, s.appends, s.flush);
    GrowsIds(s.reg, s'.reg, s.cutoff, s.disk.forward, s.mem, s.appends, s.flush);
    PersistedForget(s.reg, s.disk.inverted, s.retention, s'.retention);
    hide TodoOk, RegistryOk, IdsOk, DurableOk, FindableOk, DaysOk, FlushOk, MergeOk, PersistedOk, Grows;
  }

  lemma RetentionEndKeeps(s: Sys, step: Step, s': Sys)
    requires Inv(s) && step.RetentionEnd? && NextRetention(s, step, s')
    ensures Inv(s')
  {
    hide TodoOk, RegistryOk, IdsOk, DurableOk, FindableOk, DaysOk, FlushOk, MergeOk, S.Persisted;
  }

  lemma RetentionKeeps(s: Sys, step: Step, s': Sys)
    requires Inv(s) && IsRetentionStep(step) && NextRetention(s, step, s')
    ensures Inv(s')
  {
    hide Inv, NextRetention;
    match step {
      case RetentionStart(_, _) => RetentionStartKeeps(s, step, s');
      case RetentionDropDir(_) => RetentionDropDirKeeps(s, step, s');
      case RetentionDropIndex => RetentionDropIndexKeeps(s, step, s');
      case RetentionForget => RetentionForgetKeeps(s, step, s');
      case RetentionEnd => RetentionEndKeeps(s, step, s');
    }
  }

  // ---------- queries, crashes, runs ----------

  lemma QueryKeeps(s: Sys, step: Step, s': Sys)
    requires Inv(s) && IsQueryStep(step) && NextQuery(s, step, s')
    ensures Inv(s')
    ensures s' == s.(query := s'.query)
  {
    hide TodoOk, RegistryOk, IdsOk, DurableOk, PersistedOk, FindableOk, DaysOk, FlushOk, MergeOk, RetentionOk;
  }

  /** A disk from which Open builds a good store. */
  ghost predicate Sound(disk: Disk) {
    && S.Loadable(disk.forward) && DurableOk(disk.forward, disk.inverted)
    && (forall d :: d in disk.days ==> disk.days[d].manifest <= disk.days[d].dirs.Keys)
    && (forall d :: d in disk.days ==> PartsOk(d, disk.days[d].dirs, disk.forward, disk.inverted))
  }

  lemma ReplayedIndex(r: S.State, forward: Entries, inverted: map<Day, Entries>, cutoff: Day)
    requires S.Replays(r, forward, inverted) && DurableOk(forward, inverted)
    ensures S.WellIndexed(r) && FoundDurable(inverted, r, cutoff)
  {
    hide S.Consistent;
    assert forall labels: seq<Label>, l :: l in labels ==> S.HasKey(labels, LabelKey(l.name, l.value));
    forall d, i | d in inverted && i in inverted[d] ensures S.IndexedOn(r, d, i) {
      assert inverted[d][i] == r.names[i];
    }
  }

  lemma ReopenedDays(disk: Disk, s: Sys)
    requires Sound(disk) && Reopened(disk, s)
    ensures DaysOk(s.disk.days, s.disk.forward, s.disk.inverted, s.partitions)
  {
    hide S.Replays, PartOk, S.Loadable, DurableOk;
  }

  /** Opening a sound disk, whatever was under way when it was left, gives a store in good order. */
  lemma ReopenedInv(disk: Disk, s: Sys)
    requires Sound(disk) && Reopened(disk, s)
    ensures Inv(s)
  {
    hide *;
    ReopenedDays(disk, s);
    ReopenedRegistry(disk, s);
    ReopenedIdle(disk, s);
    InvOf(s);
  }

  lemma ReopenedRegistry(disk: Disk, s: Sys)
    requires Sound(disk) && Reopened(disk, s)
    ensures RegistryOk(s.reg, s.disk.forward, s.flush) && IdsOk(s.reg, s.disk.forward, s.mem, s.appends, s.flush)
    ensures DurableOk(s.disk.forward, s.disk.inverted) && PersistedOk(s.reg, s.disk.inverted, s.retention)
    ensures FindableOk(s.reg, s.disk.inverted, s.mem, s.appends, s.flush, s.cutoff)
  {
    ReplayedIndex(s.reg, disk.forward, disk.inverted, s.cutoff);
    hide S.WellIndexed, S.Consistent, FoundDurable, S.Has, S.HasKey, S.Loadable, OpensAs, PartsOk, DurableOk, AppendOk;
  }

  lemma ReopenedIdle(disk: Disk, s: Sys)
    requires Reopened(disk, s)
    ensures FlushOk(s.flush, s.disk.days, s.disk.inverted, s.partitions) && TodoOk(s.flush)
    ensures MergeOk(s.merge, s.flush, s.disk.days, s.partitions)
    ensures RetentionOk(s.retention, s.flush, s.merge, s.disk.days, s.disk.inverted, s.cutoff)
  {
    hide S.Replays, OpensAs;
  }

  lemma InvSound(s: Sys)
    requires Inv(s)
    ensures Sound(s.disk)
  {
    hide S.WellIndexed, IdsOk, PersistedOk, FindableOk, FlushOk, MergeOk, RetentionOk, PartsOk;
    forall a, b | a in s.disk.forward && b in s.disk.forward && CanonicalKey(s.disk.forward[a]) == CanonicalKey(s.disk.forward[b])
      ensures a == b
    {
      assert s.reg.byKey[CanonicalKey(s.reg.names[a])] == a;
    }
  }

  /** Every step keeps the invariant. */
  lemma StepKeeps(s: Sys, step: Step, s': Sys)
    requires Inv(s) && Next(s, step, s')
    ensures Inv(s')
  {
    hide Inv, NextFlush, NextMerge, NextRetention, NextQuery, NextAppend, NextCrash;
    if IsFlushStep(step) {
      FlushKeeps(s, step, s');
    } else if IsMergeStep(step) {
      MergeKeeps(s, step, s');
    } else if IsRetentionStep(step) {
      RetentionKeeps(s, step, s');
    } else if IsQueryStep(step) {
      QueryKeeps(s, step, s');
    } else if step.Crash? {
      CrashKeeps(s, s');
    } else if step.AppendResolve? {
      AppendResolveKeeps(s, step, s');
    } else if step.AppendIndex? {
      AppendIndexKeeps(s, step, s');
    } else {
      AppendBufferKeeps(s, step, s');
    }
  }

  lemma CrashKeeps(s: Sys, s': Sys)
    requires Inv(s) && NextCrash(s, s')
    ensures Inv(s')
  {
    InvSound(s);
    hide Inv, Sound, Reopened;
    ReopenedInv(s.disk, s');
  }

  lemma InitInv(s: Sys)
    requires Init(s)
    ensures Inv(s)
  {
    var disk := Disk(map[], map[], map[]);
    assert Sound(disk);
    hide Inv, Sound, Reopened;
    ReopenedInv(disk, s);
  }
}
