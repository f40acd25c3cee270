/** Runs made move by move: a sample is appended, its day flushed, a day dropped. */
module Stretches {
  import opened Contents
  import opened Engine
  import opened Labels
  import opened Part
  import opened Program
  import opened ProgramLedger
  import opened SortedIds
  import S = Series

  // ---------- stretches of moves ----------

  /** Some moves lead from p to q, and none of them drops day d. */
  ghost predicate MovesTo(p: State, q: State, d: Day) {
    exists states: seq<State>, moves: seq<Move> ::
      IsStretch(states, moves) && states[0] == p && states[|moves|] == q && NeverDropped(moves, 0, |moves|, d)
  }

  ghost predicate IsStretch(states: seq<State>, moves: seq<Move>) {
    |states| == |moves| + 1 && forall i :: 0 <= i < |moves| ==> Moves(states[i], moves[i], states[i + 1])
  }

  lemma LeadsSelf(p: State, d: Day)
    ensures MovesTo(p, p, d)
  {
    var moves: seq<Move> := [];
    assert IsStretch([p], moves) && NeverDropped(moves, 0, |moves|, d);
  }

  lemma LeadsOn(p: State, q: State, move: Move, r: State, d: Day)
    requires MovesTo(p, q, d) && Moves(q, move, r) && !Drops(move, d)
    ensures MovesTo(p, r, d)
  {
    hide Moves, Drops;
    var states: seq<State>, moves: seq<Move> :|
      IsStretch(states, moves) && states[0] == p && states[|moves|] == q && NeverDropped(moves, 0, |moves|, d);
    var states', moves' := states + [r], moves + [move];
    forall i | 0 <= i < |moves'| ensures Moves(states'[i], moves'[i], states'[i + 1]) {
      if i < |moves| {
        assert Moves(states[i], moves[i], states[i + 1]);
      }
    }
    assert IsStretch(states', moves') && NeverDropped(moves', 0, |moves'|, d);
  }

  /** A step that starts no merge and ends no partition changes nothing but the engine. */
  lemma LeadsStep(p: State, q: State, step: Step, sys: Sys, d: Day)
    requires MovesTo(p, q, d) && Next(q.sys, step, sys)
    requires !step.RetentionDropDir? && !step.Crash? && q.stale == SIdle
    ensures MovesTo(p, q.(sys := sys), d)
  {
    hide Next, MovesTo;
    LeadsOn(p, q, Does(step), q.(sys := sys), d);
  }

  // ---------- one sample of one series ----------

  /** Nothing is under way, and the buffer is mem. */
  predicate Rests(p: State, mem: Series) {
    && p.sys.flush == FIdle && p.sys.merge == MIdle && p.sys.retention == RIdle && p.stale == SIdle
    && p.sys.appends == map[] && p.sys.mem == mem
  }

  predicate Knows(p: State, k: Str, id: SeriesId) {
    k in p.sys.reg.byKey && p.sys.reg.byKey[k] == id
  }

  function One(id: SeriesId, x: Sample): Series {
    map[id := [x]]
  }

  lemma OneDays(id: SeriesId, x: Sample)
    ensures DaysOf(One(id, x)) == {DayOf(x.t)} && DayPart(One(id, x), DayOf(x.t)) == One(id, x) && One(id, x) != map[]
    ensures Sorts(One(id, x), One(id, x)) && Permutes(One(id, x), One(id, x))
  {
    assert OnDay([x], DayOf(x.t)) == [x] by {
      assert [x][..0] == [];
    }
    OneDay(id, x);
    hide OnDay, DaysOf;
  }

  lemma OneDay(id: SeriesId, x: Sample)
    ensures DaysOf(One(id, x)) == {DayOf(x.t)}
  {
    var c := One(id, x);
    assert x in c[id] && DayOf(x.t) in DaysOf(c);
  }

  lemma OneBuffered(id: SeriesId, x: Sample)
    ensures SamplesDays([x]) == {DayOf(x.t)}
    ensures Joined(map[], Singleton(id, [x])) == Joined(map[], One(id, x)) == One(id, x)
  {
    assert x in [x];
    var none: seq<Sample> := [];
    assert none + [x] == [x];
    assert Joined(map[], One(id, x)).Keys == {id};
  }

  /** The engine once the sample has been appended. */
  function AppendedTo(s: Sys, labels: seq<Label>, x: Sample): Sys {
    var r, id := S.Resolved(s.reg, labels), S.ResolvedId(s.reg, labels);
    s.(reg := S.IndexedForDay(r, DayOf(x.t), id), mem := One(id, x))
  }

  lemma BuffersPath(s: Sys, labels: seq<Label>, x: Sample) returns (s1: Sys, s2: Sys)
    requires s.appends == map[] && s.mem == map[]
    ensures NextAppend(s, AppendResolve(0, labels, [x]), s1)
    ensures NextAppend(s1, AppendIndex(0, DayOf(x.t)), s2)
    ensures NextAppend(s2, AppendBuffer(0), AppendedTo(s, labels, x))
  {
    hide S.IndexedForDay, CanonicalKey, SortedLabels, S.Resolved, S.ResolvedId, Joined, Singleton, SamplesDays, One;
    var id, day := S.ResolvedId(s.reg, labels), DayOf(x.t);
    OneBuffered(id, x);
    s1 := s.(reg := S.Resolved(s.reg, labels), appends := map[0 := Append(id, CanonicalKey(labels), [x], {day})]);
    s2 := s1.(reg := S.IndexedForDay(s1.reg, day, id), appends := map[0 := Append(id, CanonicalKey(labels), [x], {})]);
    assert {day} - {day} == {};
    assert s2.appends - {0} == map[];
  }

  /** The sample is appended. */
  lemma Buffers(p0: State, p: State, labels: seq<Label>, x: Sample, d: Day) returns (q: State, id: SeriesId)
    requires MovesTo(p0, p, d) && Rests(p, map[])
    ensures id == S.ResolvedId(p.sys.reg, labels) && MovesTo(p0, q, d) && Rests(q, One(id, x)) && Knows(q, CanonicalKey(labels), id)
    ensures q == p.(sys := q.sys) && q.sys.disk == p.sys.disk && q.sys.partitions == p.sys.partitions && q.sys.cutoff == p.sys.cutoff
    ensures Registers(p.sys.reg, q.sys.reg, labels, DayOf(x.t))
  {
    id := S.ResolvedId(p.sys.reg, labels);
    var s1, s2 := BuffersPath(p.sys, labels, x);
    q := p.(sys := AppendedTo(p.sys, labels, x));
    BufferedKnows(p, labels, x);
    hide *;
    RestsStale(p);
    NextAppendIs(p.sys, AppendResolve(0, labels, [x]), s1);
    LeadsStep(p0, p, AppendResolve(0, labels, [x]), s1, d);
    NextAppendIs(s1, AppendIndex(0, DayOf(x.t)), s2);
    LeadsStep(p0, p.(sys := s1), AppendIndex(0, DayOf(x.t)), s2, d);
    NextAppendIs(s2, AppendBuffer(0), q.sys);
    LeadsStep(p0, p.(sys := s2), AppendBuffer(0), q.sys, d);
  }

  lemma RestsStale(p: State)
    requires Rests(p, map[])
    ensures p.stale == SIdle
  {
  }

  lemma BufferedKnows(p: State, labels: seq<Label>, x: Sample)
    requires Rests(p, map[])
    ensures var q, id := p.(sys := AppendedTo(p.sys, labels, x)), S.ResolvedId(p.sys.reg, labels);
            && Rests(q, One(id, x)) && Knows(q, CanonicalKey(labels), id)
            && q.sys.disk == p.sys.disk && q.sys.partitions == p.sys.partitions && q.sys.cutoff == p.sys.cutoff
            && Registers(p.sys.reg, q.sys.reg, labels, DayOf(x.t))
  {
    hide CanonicalKey, SortedLabels, S.AddKeys;
  }

  /** The registry knows the labels, and one more day may be indexed. */
  ghost predicate Registers(r: S.State, r': S.State, labels: seq<Label>, day: Day) {
    && r'.names == S.Resolved(r, labels).names && r'.inverted.Keys <= r.inverted.Keys + {day}
  }

  // ---------- one flush ----------

  /** A flush has opened the only day of its batch. */
  predicate AtDay(p: State, id: SeriesId, x: Sample) {
    && p.sys.flush == FDay(One(id, x), {DayOf(x.t)}, DayOf(x.t), Opened)
    && p.sys.merge == MIdle && p.sys.retention == RIdle && p.stale == SIdle && p.sys.appends == map[] && p.sys.mem == map[]
  }

  predicate DayHolds(p: State, d: Day, live: Partition, dd: DayDir) {
    d in p.sys.partitions && p.sys.partitions[d] == live && d in p.sys.disk.days && p.sys.disk.days[d] == dd
  }

  const FIRST := Partition({}, 1)

  /** A flush swaps the buffer out, saves the registry and comes to the only day of its batch. */
  lemma VisitPath(s: Sys, id: SeriesId, x: Sample) returns (s1: Sys, s2: Sys, s3: Sys)
    requires s.flush == FIdle && s.retention == RIdle && s.mem == One(id, x)
    ensures NextFlush(s, FlushSwap, s1) && NextFlush(s1, FlushDrain, s2) && NextFlush(s2, FlushSaveRegistry, s3)
    ensures s3 == s.(flush := FVisiting(One(id, x), {DayOf(x.t)}), mem := map[], reg := s.reg.(pending := map[]),
                     disk := s.disk.(forward := s3.disk.forward))
  {
    hide DaysOf, One, DayPart;
    OneDays(id, x);
    s1 := s.(flush := FSwapped(s.mem), mem := map[]);
    s2 := s1.(flush := FDrained(s.mem, s.reg.pending), reg := s.reg.(pending := map[]));
    s3 := s2.(disk := s.disk.(forward := s.disk.forward + s.reg.pending), flush := FVisiting(s.mem, {DayOf(x.t)}));
  }

  lemma DayIndexPath(s: Sys, id: SeriesId, x: Sample) returns (s4: Sys)
    requires s.flush == FVisiting(One(id, x), {DayOf(x.t)})
    ensures NextFlush(s, FlushIndexDay(DayOf(x.t)), s4)
    ensures s4 == s.(flush := FDay(One(id, x), {DayOf(x.t)}, DayOf(x.t), Indexed), reg := s.reg.(persisted := s4.reg.persisted),
                     disk := s.disk.(inverted := s4.disk.inverted))
  {
    hide DayPart, S.Unindexed, EntriesFor, InvertedOf, One;
    var day := DayOf(x.t);
    var ids := S.Unindexed(s.reg, day, DayPart(s.flush.batch, day).Keys);
    var inv := s.disk.inverted[day := InvertedOf(s.disk.inverted, day) + EntriesFor(s.reg, ids)];
    s4 := s.(disk := s.disk.(inverted := if ids == {} then s.disk.inverted else inv),
             reg := S.Marked(s.reg, day, ids), flush := FDay(s.flush.batch, {day}, day, Indexed));
  }

  /** The day is open or is made now. */
  function OpenedDay(s: Sys, id: SeriesId, x: Sample): Sys {
    var day := DayOf(x.t);
    var t := if day in s.partitions then s
             else s.(disk := SetDir(s.disk, day, NEW_DIR), partitions := s.partitions[day := FIRST]);
    t.(flush := FDay(One(id, x), {day}, day, Opened))
  }

  lemma OpenPath(s: Sys, id: SeriesId, x: Sample)
    requires s.flush == FDay(One(id, x), {DayOf(x.t)}, DayOf(x.t), Indexed)
    requires DayOf(x.t) in s.partitions || DayOf(x.t) !in s.disk.days
    ensures NextFlush(s, FlushOpenDay, OpenedDay(s, id, x))
  {
    hide One;
    assert OpensAs(Cleaned(NEW_DIR), FIRST);
  }

  /** A flush reaches its day. */
  lemma FlushToDay(p0: State, p: State, id: SeriesId, x: Sample, d: Day) returns (q: State)
    requires MovesTo(p0, p, d) && Rests(p, One(id, x))
    requires DayOf(x.t) in p.sys.partitions || DayOf(x.t) !in p.sys.disk.days
    ensures MovesTo(p0, q, d) && AtDay(q, id, x) && q == p.(sys := q.sys) && q.sys.cutoff == p.sys.cutoff
    ensures q.sys.reg.byKey == p.sys.reg.byKey && q.sys.reg.names == p.sys.reg.names && q.sys.reg.inverted == p.sys.reg.inverted
    ensures DayOf(x.t) in p.sys.partitions ==> q.sys.partitions == p.sys.partitions && q.sys.disk.days == p.sys.disk.days
    ensures DayOf(x.t) !in p.sys.partitions ==>
              && q.sys.partitions == p.sys.partitions[DayOf(x.t) := FIRST]
              && q.sys.disk.days == p.sys.disk.days[DayOf(x.t) := NEW_DIR]
  {
    hide MovesTo, One, Next, NextFlush;
    var s, day := p.sys, DayOf(x.t);
    var s1, s2, s3 := VisitPath(s, id, x);
    var s4 := DayIndexPath(s3, id, x);
    OpenPath(s4, id, x);
    q := p.(sys := OpenedDay(s4, id, x));
    FlushLeads(p0, p, FlushSwap, s1, d);
    FlushLeads(p0, p.(sys := s1), FlushDrain, s2, d);
    FlushLeads(p0, p.(sys := s2), FlushSaveRegistry, s3, d);
    FlushLeads(p0, p.(sys := s3), FlushIndexDay(day), s4, d);
    FlushLeads(p0, p.(sys := s4), FlushOpenDay, q.sys, d);
  }

  lemma FlushLeads(p0: State, q: State, step: Step, sys: Sys, d: Day)
    requires MovesTo(p0, q, d) && IsFlushStep(step) && NextFlush(q.sys, step, sys) && q.stale == SIdle
    ensures MovesTo(p0, q.(sys := sys), d)
  {
    hide MovesTo, Next, NextFlush;
    NextFlushIs(q.sys, step, sys);
    LeadsStep(p0, q, step, sys, d);
  }

  /** The part is staged under the next ID. */
  lemma Stages(p0: State, p: State, id: SeriesId, x: Sample, live: Partition, dd: DayDir, d: Day) returns (q: State)
    requires MovesTo(p0, p, d) && AtDay(p, id, x) && DayHolds(p, DayOf(x.t), live, dd)
    ensures MovesTo(p0, q, d) && q == p.(sys := q.sys) && q.sys.reg == p.sys.reg && q.sys.cutoff == p.sys.cutoff
    ensures q.sys == StagePart(p.sys, DayOf(x.t), PartDir(One(id, x), Small))
                     .(flush := FDay(One(id, x), {DayOf(x.t)}, DayOf(x.t), Staged(live.nextID)))
  {
    hide MovesTo, DayPart, Sorts, Next;
    var s := p.sys;
    OneDays(id, x);
    var s1 := StagePart(s, DayOf(x.t), PartDir(One(id, x), Small))
              .(flush := FDay(One(id, x), {DayOf(x.t)}, DayOf(x.t), Staged(live.nextID)));
    NextFlushIs(s, FlushStage(One(id, x)), s1);
    LeadsStep(p0, p, FlushStage(One(id, x)), s1, d);
    q := p.(sys := s1);
  }

  /** The day's directory with the flushed part. */
  function Grown(dd: DayDir, live: Partition, id: SeriesId, x: Sample): DayDir {
    DayDir(dd.dirs[live.nextID := PartDir(One(id, x), Small)], map[], live.parts + {live.nextID})
  }

  /** The staged part is put in place, and the flush ends. */
  lemma PublishPath(s1: Sys, batch: Series, day: Day, live: Partition, n: PartId, part: PartDir, dd: DayDir)
    returns (s2: Sys, s3: Sys, s4: Sys)
    requires s1.flush == FDay(batch, {day}, day, Staged(n)) && n !in dd.dirs && dd.staging == map[n := part]
    requires day in s1.partitions && s1.partitions[day] == live && day in s1.disk.days && s1.disk.days[day] == dd
    ensures NextFlush(s1, FlushRename, s2) && NextFlush(s2, FlushPublish, s3) && NextFlush(s3, FlushEnd, s4)
    ensures s4 == s1.(flush := FIdle, partitions := s1.partitions[day := live.(parts := live.parts + {n})],
                      disk := s1.disk.(days := s1.disk.days[day := DayDir(dd.dirs[n := part], map[], live.parts + {n})]))
  {
    var dd2 := DayDir(dd.dirs[n := part], map[], dd.manifest);
    assert dd.staging - {n} == map[];
    s2 := s1.(disk := SetDir(s1.disk, day, dd2), flush := FDay(batch, {day}, day, Renamed(n)));
    assert {day} - {day} == {};
    s3 := PublishStep(s2, batch, day, live, n, dd2);
    s4 := s3.(flush := FIdle);
    assert s1.disk.days[day := dd2][day := dd2.(manifest := live.parts + {n})] == s1.disk.days[day := dd2.(manifest := live.parts + {n})];
  }

  lemma PublishStep(s2: Sys, batch: Series, day: Day, live: Partition, n: PartId, dd: DayDir) returns (s3: Sys)
    requires s2.flush == FDay(batch, {day}, day, Renamed(n))
    requires day in s2.partitions && s2.partitions[day] == live && day in s2.disk.days && s2.disk.days[day] == dd
    ensures NextFlush(s2, FlushPublish, s3)
    ensures s3 == s2.(flush := FVisiting(batch, {}), partitions := s2.partitions[day := live.(parts := live.parts + {n})],
                      disk := s2.disk.(days := s2.disk.days[day := dd.(manifest := live.parts + {n})]))
  {
    assert {day} - {day} == {};
    s3 := SetParts(s2, day, live.parts + {n}).(flush := FVisiting(batch, {}));
  }

  /** The flush puts its part in place and ends. */
  lemma Publishes(p0: State, p: State, id: SeriesId, x: Sample, live: Partition, dd: DayDir, d: Day) returns (q: State)
    requires MovesTo(p0, p, d) && AtDay(p, id, x) && DayHolds(p, DayOf(x.t), live, dd)
    requires live.nextID !in dd.dirs && dd.staging == map[]
    ensures MovesTo(p0, q, d) && Rests(q, map[]) && q == p.(sys := q.sys) && q.sys.reg == p.sys.reg && q.sys.cutoff == p.sys.cutoff
    ensures DayHolds(q, DayOf(x.t), Partition(live.parts + {live.nextID}, live.nextID + 1), Grown(dd, live, id, x))
    ensures q.sys.partitions.Keys == p.sys.partitions.Keys && q.sys.disk.days.Keys == p.sys.disk.days.Keys
  {
    var q1 := Stages(p0, p, id, x, live, dd, d);
    hide MovesTo, Next, NextFlush, One;
    var day, n, part := DayOf(x.t), live.nextID, PartDir(One(id, x), Small);
    var s2, s3, s4 := PublishPath(q1.sys, One(id, x), day, live.(nextID := n + 1), n, part, dd.(staging := map[n := part]));
    FlushLeads(p0, q1, FlushRename, s2, d);
    FlushLeads(p0, p.(sys := s2), FlushPublish, s3, d);
    FlushLeads(p0, p.(sys := s3), FlushEnd, s4, d);
    q := p.(sys := s4);
  }

  /** The flush fails: something is in the place of its part. */
  lemma GivesUp(p0: State, p: State, id: SeriesId, x: Sample, live: Partition, dd: DayDir, d: Day) returns (q: State)
    requires MovesTo(p0, p, d) && AtDay(p, id, x) && DayHolds(p, DayOf(x.t), live, dd) && dd.staging == map[]
    ensures MovesTo(p0, q, d) && Rests(q, One(id, x)) && q == p.(sys := q.sys) && q.sys.reg == p.sys.reg && q.sys.cutoff == p.sys.cutoff
    ensures DayHolds(q, DayOf(x.t), live.(nextID := live.nextID + 1), dd)
  {
    var q1 := Stages(p0, p, id, x, live, dd, d);
    var s2 := Unstaged(p, id, x, live, dd);
    hide MovesTo, Next, NextFlush;
    NextFlushIs(q1.sys, FlushDayFails(DayOf(x.t), One(id, x)), s2);
    LeadsStep(p0, q1, FlushDayFails(DayOf(x.t), One(id, x)), s2, d);
    q := p.(sys := s2);
  }

  lemma Unstaged(p: State, id: SeriesId, x: Sample, live: Partition, dd: DayDir) returns (s2: Sys)
    requires AtDay(p, id, x) && DayHolds(p, DayOf(x.t), live, dd) && dd.staging == map[]
    ensures var s1 := StagePart(p.sys, DayOf(x.t), PartDir(One(id, x), Small))
                      .(flush := FDay(One(id, x), {DayOf(x.t)}, DayOf(x.t), Staged(live.nextID)));
            NextFlush(s1, FlushDayFails(DayOf(x.t), One(id, x)), s2)
    ensures Rests(p.(sys := s2), One(id, x)) && s2.reg == p.sys.reg && s2.cutoff == p.sys.cutoff
    ensures DayHolds(p.(sys := s2), DayOf(x.t), live.(nextID := live.nextID + 1), dd)
  {
    OneDays(id, x);
    OneBuffered(id, x);
    hide One, DayPart, Permutes, Joined;
    var day, n, batch := DayOf(x.t), live.nextID, One(id, x);
    var s1 := StagePart(p.sys, day, PartDir(batch, Small)).(flush := FDay(batch, {day}, day, Staged(n)));
    s2 := s1.(disk := UnstagePart(s1.disk, day, n), mem := batch, flush := FIdle);
    assert s2.disk.days[day].staging == map[];
  }

  /** The sample is appended and flushed. */
  lemma AddsPart(p0: State, p: State, labels: seq<Label>, x: Sample, live: Partition, dd: DayDir, d: Day)
    returns (q: State, id: SeriesId)
    requires MovesTo(p0, p, d) && Rests(p, map[])
    requires DayHolds(p, DayOf(x.t), live, dd) || (DayOf(x.t) !in p.sys.partitions && DayOf(x.t) !in p.sys.disk.days && live == FIRST && dd == NEW_DIR)
    requires live.nextID !in dd.dirs && dd.staging == map[]
    ensures id == S.ResolvedId(p.sys.reg, labels) && Knows(q, CanonicalKey(labels), id)
    ensures MovesTo(p0, q, d) && Rests(q, map[]) && q == p.(sys := q.sys) && q.sys.cutoff == p.sys.cutoff
    ensures DayHolds(q, DayOf(x.t), Partition(live.parts + {live.nextID}, live.nextID + 1), Grown(dd, live, id, x))
    ensures q.sys.partitions.Keys == p.sys.partitions.Keys + {DayOf(x.t)}
    ensures q.sys.disk.days.Keys == p.sys.disk.days.Keys + {DayOf(x.t)}
    ensures Registers(p.sys.reg, q.sys.reg, labels, DayOf(x.t))
  {
    hide MovesTo, S.Resolved, CanonicalKey, S.ResolvedId, Grown, One, NEW_DIR;
    var q1, i := Buffers(p0, p, labels, x, d);
    id := i;
    var q2 := FlushToDay(p0, q1, id, x, d);
    q := Publishes(p0, q2, id, x, live, dd, d);
  }

  // ---------- retention ----------

  /** A retention pass drops the only day, which lives on as a handle, and forgets its index. What is
      buffered stays. */
  lemma DropsDay(p0: State, p: State, mem: Series, day: Day, live: Partition, dd: DayDir, cutoff: Day, d: Day)
    returns (q: State)
    requires MovesTo(p0, p, d) && d != day && Rests(p, mem) && DayHolds(p, day, live, dd) && p.handles == [] && p.used == {}
    requires p.sys.partitions.Keys == {day} == p.sys.disk.days.Keys && day < cutoff && p.sys.cutoff <= cutoff
    ensures MovesTo(p0, q, d) && Rests(q, mem) && q.handles == [Handle(day, live)] && q.used == {}
    ensures q.sys.partitions == map[] && q.sys.disk.days == map[] && q.sys.cutoff == cutoff
    ensures q.sys.reg == S.Dropped(p.sys.reg, day)
  {
    hide MovesTo, Next, Drops;
    var s := p.sys;
    var s1 := s.(retention := RRun({day}), cutoff := cutoff);
    NextRetentionIs(s, RetentionStart(cutoff, {day}), s1);
    LeadsStep(p0, p, RetentionStart(cutoff, {day}), s1, d);
    var p1 := p.(sys := s1);
    assert s.disk.days - {day} == map[] && s.partitions - {day} == map[] && {day} - {day} == {};
    var s2 := s1.(disk := s1.disk.(days := map[]), partitions := map[], retention := RDirGone({}, day));
    NextRetentionIs(s1, RetentionDropDir(day), s2);
    var p2 := State(s2, [Handle(day, live)], SIdle, {});
    DropsOther(day, d);
    LeadsOn(p0, p1, Does(RetentionDropDir(day)), p2, d);
    var s3 := s2.(disk := s2.disk.(inverted := s2.disk.inverted - {day}), retention := RIndexGone({}, day));
    NextRetentionIs(s2, RetentionDropIndex, s3);
    LeadsStep(p0, p2, RetentionDropIndex, s3, d);
    var s4 := s3.(reg := S.Dropped(s3.reg, day), retention := RRun({}));
    NextRetentionIs(s3, RetentionForget, s4);
    LeadsStep(p0, p2.(sys := s3), RetentionForget, s4, d);
    var s5 := s4.(retention := RIdle);
    NextRetentionIs(s4, RetentionEnd, s5);
    LeadsStep(p0, p2.(sys := s4), RetentionEnd, s5, d);
    q := p2.(sys := s5);
  }

  lemma DropsOther(day: Day, d: Day)
    requires d != day
    ensures !Drops(Does(RetentionDropDir(day)), d)
  {
  }

  // ---------- from a fresh store ----------

  /** A fresh store, cutoff at c. */
  function Fresh(c: Day): State {
    State(Sys(Disk(map[], map[], map[]), S.EMPTY, map[], map[], map[], FIdle, MIdle, RIdle, QIdle, c), [], SIdle, {})
  }

  lemma FreshBegins(c: Day)
    ensures Begins(Fresh(c)) && Rests(Fresh(c), map[])
  {
    hide CanonicalKey, SortedLabels;
    assert CleanDisk(Fresh(c).sys.disk).days == map[];
  }

  /** The run goes on. */
  lemma Continues(states: seq<State>, moves: seq<Move>, q: State, d: Day) returns (states': seq<State>, moves': seq<Move>)
    requires IsRun(states, moves) && MovesTo(states[|moves|], q, d)
    ensures IsRun(states', moves') && |moves| <= |moves'| && states'[..|states|] == states && moves'[..|moves|] == moves
    ensures states'[|moves'|] == q && NeverDropped(moves', |moves|, |moves'|, d)
  {
    hide Moves, Begins, Drops;
    var b: seq<State>, y: seq<Move> :|
      IsStretch(b, y) && b[0] == states[|moves|] && b[|y|] == q && NeverDropped(y, 0, |y|, d);
    states', moves' := states + b[1..], moves + y;
    forall i | 0 <= i < |moves'| ensures Moves(states'[i], moves'[i], states'[i + 1]) {
      if i < |moves| {
        assert Moves(states[i], moves[i], states[i + 1]);
      } else {
        assert Moves(b[i - |moves|], y[i - |moves|], b[i - |moves| + 1]);
      }
    }
    forall j | |moves| <= j < |moves'| ensures !Drops(moves'[j], d) {
      assert moves'[j] == y[j - |moves|];
    }
  }
}
