/** Stretches of steps: what one uninterrupted call of a storage method amounts to in the state machine. */
module EnginePaths {
  import opened Contents
  import opened Engine
  import opened EngineInvariant
  import opened EngineLedger
  import opened Labels
  import opened Part
  import opened Program
  import opened SortedIds
  import S = Series

  ghost predicate IsPath(states: seq<Sys>, steps: seq<Step>) {
    |states| == |steps| + 1 && forall i :: 0 <= i < |steps| ==> Next(states[i], steps[i], states[i + 1])
  }

  /** Some steps of the machine lead from s to s'. */
  ghost predicate Reaches(s: Sys, s': Sys) {
    exists states: seq<Sys>, steps: seq<Step> :: IsPath(states, steps) && states[0] == s && states[|steps|] == s'
  }

  lemma ReachesSelf(s: Sys)
    ensures Reaches(s, s)
  {
    var steps: seq<Step> := [];
    assert IsPath([s], steps);
  }

  lemma ReachesTrans(s: Sys, t: Sys, u: Sys)
    requires Reaches(s, t) && Reaches(t, u)
    ensures Reaches(s, u)
  {
    hide Next;
    var a: seq<Sys>, x: seq<Step> :| IsPath(a, x) && a[0] == s && a[|x|] == t;
    var b: seq<Sys>, y: seq<Step> :| IsPath(b, y) && b[0] == t && b[|y|] == u;
    var states, steps := a + b[1..], x + y;
    forall i | 0 <= i < |steps| ensures Next(states[i], steps[i], states[i + 1]) {
      if i < |x| {
        assert Next(a[i], x[i], a[i + 1]);
      } else {
        assert Next(b[i - |x|], y[i - |x|], b[i - |x| + 1]);
      }
    }
    assert IsPath(states, steps);
  }

  lemma ReachesNext(s: Sys, t: Sys, step: Step, u: Sys)
    requires Reaches(s, t) && Next(t, step, u)
    ensures Reaches(s, u)
  {
    hide Next;
    assert IsPath([t, u], [step]);
    ReachesTrans(s, t, u);
  }

  lemma {:induction false} PathInv(states: seq<Sys>, steps: seq<Step>, n: nat)
    requires IsPath(states, steps) && Inv(states[0]) && n <= |steps|
    ensures Inv(states[n])
  {
    hide Inv, Next;
    if n > 0 {
      PathInv(states, steps, n - 1);
      StepKeeps(states[n - 1], steps[n - 1], states[n]);
    }
  }

  lemma ReachesInv(s: Sys, s': Sys)
    requires Reaches(s, s') && Inv(s)
    ensures Inv(s')
  {
    hide Inv, Next;
    var states: seq<Sys>, steps: seq<Step> :| IsPath(states, steps) && states[0] == s && states[|steps|] == s';
    PathInv(states, steps, |steps|);
  }

  /** Opening what a stopped process left is a step like the others. */
  lemma OpenContinues(s: Sys, s': Sys)
    requires Reopened(s.disk, s') && s'.cutoff == s.cutoff
    ensures Reaches(s, s')
  {
    hide Reopened, Reaches;
    ReachesSelf(s);
    assert Next(s, Crash, s');
    ReachesNext(s, s, Crash, s');
  }

  /** No merge of a dropped partition is under way or has ever written. */
  predicate Unspoilt(p: State) {
    p.stale == SIdle && p.used == {}
  }

  /** A run of the program goes on as the steps of an uninterrupted call say. */
  lemma RunsOn(states: seq<State>, moves: seq<Move>, step: Step, s': Sys) returns (states': seq<State>, moves': seq<Move>)
    requires IsRun(states, moves) && Unspoilt(states[|moves|]) && Next(states[|moves|].sys, step, s')
    ensures IsRun(states', moves') && moves <= moves' && states <= states'
    ensures states'[|moves'|].sys == s' && Unspoilt(states'[|moves'|])
  {
    hide Next, Begins;
    var p := Around(states[|moves|], step, s');
    states', moves' := states + [p], moves + [Does(step)];
    forall i | 0 <= i < |moves'| ensures Moves(states'[i], moves'[i], states'[i + 1]) {
      if i < |moves| {
        assert Moves(states[i], moves[i], states[i + 1]);
      }
    }
  }

  lemma {:induction false} PathRuns(states: seq<State>, moves: seq<Move>, path: seq<Sys>, steps: seq<Step>, n: nat)
    returns (states': seq<State>, moves': seq<Move>)
    requires IsRun(states, moves) && Unspoilt(states[|moves|]) && IsPath(path, steps) && path[0] == states[|moves|].sys && n <= |steps|
    ensures IsRun(states', moves') && moves <= moves' && states <= states'
    ensures states'[|moves'|].sys == path[n] && Unspoilt(states'[|moves'|])
  {
    hide Next, Moves, Begins, Unspoilt;
    states', moves' := states, moves;
    if n > 0 {
      var a, b := PathRuns(states, moves, path, steps, n - 1);
      assert Next(path[n - 1], steps[n - 1], path[n]);
      states', moves' := RunsOn(a, b, steps[n - 1], path[n]);
    }
  }

  /** Calls one after another extend a run, so all that holds of every run holds of them. */
  lemma ReachesRuns(states: seq<State>, moves: seq<Move>, s': Sys) returns (states': seq<State>, moves': seq<Move>)
    requires IsRun(states, moves) && Unspoilt(states[|moves|]) && Reaches(states[|moves|].sys, s')
    ensures IsRun(states', moves') && moves <= moves' && states <= states'
    ensures states'[|moves'|].sys == s' && Unspoilt(states'[|moves'|])
  {
    hide Next, Moves, Begins, Unspoilt;
    var path: seq<Sys>, steps: seq<Step> :| IsPath(path, steps) && path[0] == states[|moves|].sys && path[|steps|] == s';
    states', moves' := PathRuns(states, moves, path, steps, |steps|);
  }

  // ---------- parts ----------

  /** addPart has listed part n of day d. */
  function PartAdded(s: Sys, d: Day, part: PartDir): Sys
    requires d in s.partitions
  {
    var p, dd, n := s.partitions[d], DirOf(s.disk, d), s.partitions[d].nextID;
    s.(partitions := s.partitions[d := Partition(p.parts + {n}, n + 1)],
       disk := SetDir(s.disk, d, dd.(dirs := dd.dirs[n := part], manifest := p.parts + {n})))
  }

  /** A part ID has been taken and nothing has come of it. */
  function IdTaken(s: Sys, d: Day): Sys
    requires d in s.partitions
  {
    s.(partitions := s.partitions[d := s.partitions[d].(nextID := s.partitions[d].nextID + 1)])
  }

  /** mergeParts has put part in the place of names. */
  function PartMerged(s: Sys, d: Day, names: set<PartId>, part: PartDir): Sys
    requires d in s.partitions
  {
    var p, dd, n := s.partitions[d], DirOf(s.disk, d), s.partitions[d].nextID;
    s.(partitions := s.partitions[d := Partition(p.parts - names + {n}, n + 1)],
       disk := SetDir(s.disk, d, dd.(dirs := dd.dirs[n := part] - names, manifest := p.parts - names + {n})))
  }

  /** mergeParts has written the big part but could not save the manifest. */
  function PartOrphaned(s: Sys, d: Day, part: PartDir): Sys
    requires d in s.partitions
  {
    var dd, n := DirOf(s.disk, d), s.partitions[d].nextID;
    IdTaken(s, d).(disk := SetDir(s.disk, d, dd.(dirs := dd.dirs[n := part])))
  }

  lemma DayFacts(s: Sys, d: Day)
    requires Inv(s) && d in s.partitions
    ensures d in s.disk.days && DayOk(s.disk.days[d], s.partitions[d])
    ensures s.partitions.Keys == s.disk.days.Keys
  {
    hide TodoOk, RegistryOk, IdsOk, DurableOk, PersistedOk, FindableOk, FlushOk, MergeOk, RetentionOk, PartsOk, DayOk;
  }

  lemma StageThenUnstage(s: Sys, d: Day, part: PartDir)
    requires Inv(s) && d in s.partitions
    ensures var t := StagePart(s, d, part);
            t.(disk := UnstagePart(t.disk, d, s.partitions[d].nextID)) == IdTaken(s, d)
  {
    DayFacts(s, d);
    hide Inv;
    var t, n := StagePart(s, d, part), s.partitions[d].nextID;
    assert DirOf(t.disk, d).staging - {n} == DirOf(s.disk, d).staging;
    assert UnstagePart(t.disk, d, n).days == s.disk.days;
  }

  lemma StageThenRename(s: Sys, d: Day, part: PartDir)
    requires Inv(s) && d in s.partitions
    ensures var t, n := StagePart(s, d, part), s.partitions[d].nextID;
            && Renames(DirOf(t.disk, d), n)
            && t.(disk := RenamePart(t.disk, d, n)) == PartOrphaned(s, d, part)
  {
    DayFacts(s, d);
    hide Inv;
    var t, n := StagePart(s, d, part), s.partitions[d].nextID;
    assert DirOf(t.disk, d).staging - {n} == DirOf(s.disk, d).staging;
    assert RenamePart(t.disk, d, n).days == PartOrphaned(s, d, part).disk.days;
  }

  /** addPart has listed its part in memory but the manifest is as it was. */
  function PartUnsaved(s: Sys, d: Day, part: PartDir): Sys
    requires d in s.partitions
  {
    var n := s.partitions[d].nextID;
    PartOrphaned(s, d, part).(partitions := s.partitions[d := Partition(s.partitions[d].parts + {n}, n + 1)])
  }

  lemma OrphanThenList(s: Sys, d: Day, part: PartDir)
    requires d in s.partitions
    ensures SetParts(PartOrphaned(s, d, part), d, s.partitions[d].parts + {s.partitions[d].nextID}) == PartAdded(s, d, part)
  {
    var a, b := SetParts(PartOrphaned(s, d, part), d, s.partitions[d].parts + {s.partitions[d].nextID}), PartAdded(s, d, part);
    assert a.disk.days == b.disk.days;
    assert a.partitions == b.partitions;
  }

  // ---------- one day of a flush ----------

  ghost predicate HeldChanges(s: Sys, s': Sys, e: Event) {
    forall id: SeriesId, x: Sample :: Held(s', id, x) == Record(Held(s, id, x), e, [], x)
  }

  /** Steps of the machine lead from a good s to s', and the samples held change as e says. */
  ghost predicate Leads(s: Sys, s': Sys, e: Event) {
    Reaches(s, s') && HeldChanges(s, s', e) && Inv(s')
  }

  lemma FlushChanges(s: Sys, step: Step, s': Sys)
    requires Inv(s) && IsFlushStep(step) && NextFlush(s, step, s')
    ensures Next(s, step, s') && Inv(s') && HeldChanges(s, s', EventOf(s, step))
  {
    hide Inv, NextFlush, Held, Record, EventOf, NextAppend, NextMerge, NextQuery, NextRetention, NextCrash;
    forall id: SeriesId, x: Sample {
      FlushHeld(s, step, s', [], id, x);
    }
    FlushKeeps(s, step, s');
  }

  lemma SilentChanges(s: Sys, t: Sys, u: Sys, e: Event)
    requires HeldChanges(s, t, Silent) && HeldChanges(t, u, e)
    ensures HeldChanges(s, u, e)
  {
    hide Held;
  }

  lemma FlushAdvance(s0: Sys, s: Sys, step: Step, s': Sys, e: Event)
    requires Reaches(s0, s) && HeldChanges(s0, s, Silent) && Inv(s) && IsFlushStep(step) && NextFlush(s, step, s')
    requires EventOf(s, step) == e
    ensures Reaches(s0, s') && HeldChanges(s0, s', e) && Inv(s')
  {
    hide Inv, NextFlush, Next, Reaches, HeldChanges, EventOf;
    FlushChanges(s, step, s');
    SilentChanges(s0, s, s', e);
    ReachesNext(s0, s, step, s');
  }

  lemma SilentSelf(s: Sys)
    ensures Reaches(s, s) && HeldChanges(s, s, Silent)
  {
    hide Held;
    ReachesSelf(s);
  }

  /** addPart has put its part in place, unlisted. */
  lemma FlushRenames(s0: Sys, s: Sys, sorted: Series) returns (s': Sys)
    requires Reaches(s0, s) && HeldChanges(s0, s, Silent)
    requires Inv(s) && s.flush.FDay? && s.flush.stage == Opened && s.flush.day in s.partitions
    requires Sorts(sorted, DayPart(s.flush.batch, s.flush.day))
    ensures var f := s.flush;
            s' == PartOrphaned(s, f.day, PartDir(sorted, Small))
                  .(flush := FDay(f.batch, f.todo, f.day, Renamed(s.partitions[f.day].nextID)))
    ensures Reaches(s0, s') && HeldChanges(s0, s', Silent) && Inv(s')
  {
    hide Inv, Sorts, DayPart, Reaches, HeldChanges, StagePart, RenamePart, PartOrphaned;
    var f, part, n := s.flush, PartDir(sorted, Small), s.partitions[s.flush.day].nextID;
    var s1 := StagePart(s, f.day, part).(flush := FDay(f.batch, f.todo, f.day, Staged(n)));
    s' := PartOrphaned(s, f.day, part).(flush := FDay(f.batch, f.todo, f.day, Renamed(n)));
    assert NextFlush(s, FlushStage(sorted), s1);
    StageThenRename(s, f.day, part);
    StageFrame(s, f.day, part);
    DayEvents(s, FlushStage(sorted));
    FlushAdvance(s0, s, FlushStage(sorted), s1, Silent);
    assert NextFlush(s1, FlushRename, s');
    DayEvents(s1, FlushRename);
    FlushAdvance(s0, s1, FlushRename, s', Silent);
  }

  /** addPart succeeds. */
  lemma FlushDayPath(s0: Sys, s: Sys, sorted: Series)
    requires Reaches(s0, s) && HeldChanges(s0, s, Silent)
    requires Inv(s) && s.flush.FDay? && s.flush.stage == Opened && s.flush.day in s.partitions
    requires Sorts(sorted, DayPart(s.flush.batch, s.flush.day))
    ensures var f := s.flush;
            var s' := PartAdded(s, f.day, PartDir(sorted, Small)).(flush := FVisiting(f.batch, f.todo - {f.day}));
            Reaches(s0, s') && HeldChanges(s0, s', Persisted(f.day)) && Inv(s')
  {
    hide Inv, Sorts, DayPart, Reaches, HeldChanges, SetParts, PartOrphaned, PartAdded;
    var f, part, n := s.flush, PartDir(sorted, Small), s.partitions[s.flush.day].nextID;
    var s2 := FlushRenames(s0, s, sorted);
    var s3 := PartAdded(s, f.day, part).(flush := FVisiting(f.batch, f.todo - {f.day}));
    OrphanFrame(s, f.day, part);
    OrphanThenList(s, f.day, part);
    SetPartsFrame(PartOrphaned(s, f.day, part), f.day, s.partitions[f.day].parts + {n}, s2.flush);
    assert NextFlush(s2, FlushPublish, s3);
    DayEvents(s2, FlushPublish);
    FlushAdvance(s0, s2, FlushPublish, s3, Persisted(f.day));
  }

  /** addPart lists its part but cannot save the manifest: the samples go back to the buffer all the same. */
  lemma FlushUnsavedPath(s0: Sys, s: Sys, sorted: Series, back: Series)
    requires Reaches(s0, s) && HeldChanges(s0, s, Silent)
    requires Inv(s) && s.flush.FDay? && s.flush.stage == Opened && s.flush.day in s.partitions
    requires Sorts(sorted, DayPart(s.flush.batch, s.flush.day)) && Permutes(back, DayPart(s.flush.batch, s.flush.day))
    ensures var f := s.flush;
            var s' := PartUnsaved(s, f.day, PartDir(sorted, Small)).(mem := Joined(s.mem, back), flush := FIdle);
            Reaches(s0, s') && HeldChanges(s0, s', Unsaved(f.day)) && Inv(s')
  {
    hide Inv, Sorts, Permutes, DayPart, Reaches, HeldChanges, Joined;
    var f, part := s.flush, PartDir(sorted, Small);
    var s2 := FlushRenames(s0, s, sorted);
    var s3 := PartUnsaved(s, f.day, part).(mem := Joined(s.mem, back), flush := FIdle);
    UnsavedFrame(s, f.day, part);
    OrphanFrame(s, f.day, part);
    hide PartOrphaned, PartUnsaved;
    assert NextFlush(s2, FlushManifestFails(back), s3);
    DayEvents(s2, FlushManifestFails(back));
    FlushAdvance(s0, s2, FlushManifestFails(back), s3, Unsaved(f.day));
  }

  lemma UnsavedFrame(s: Sys, d: Day, part: PartDir)
    requires d in s.partitions
    ensures var t, n := PartOrphaned(s, d, part), s.partitions[d].nextID;
            && d in t.partitions
            && PartUnsaved(s, d, part) ==
               t.(partitions := t.partitions[d := t.partitions[d].(parts := t.partitions[d].parts + {n})])
  {
    var t, n := PartOrphaned(s, d, part), s.partitions[d].nextID;
    assert t.partitions[d := t.partitions[d].(parts := t.partitions[d].parts + {n})] ==
           s.partitions[d := Partition(s.partitions[d].parts + {n}, n + 1)];
  }

  lemma DayEvents(s: Sys, step: Step)
    ensures step.FlushStage? || step.FlushRename? || step.FlushIndexDay? || step.FlushOpenDay? ==> EventOf(s, step) == Silent
    ensures step.FlushDrain? || step.FlushSaveRegistry? || step.FlushEnd? ==> EventOf(s, step) == Silent
    ensures step.FlushPublish? && s.flush.FDay? ==> EventOf(s, step) == Persisted(s.flush.day)
    ensures step.FlushManifestFails? && s.flush.FDay? ==> EventOf(s, step) == Unsaved(s.flush.day)
    ensures step.FlushDayFails? ==> EventOf(s, step) == DayFailed(step.day)
    ensures step.FlushRegistryFails? ==> EventOf(s, step) == Restored
    ensures step.FlushSwap? ==> EventOf(s, step) == Swapped
  {
  }

  lemma StageFrame(s: Sys, d: Day, part: PartDir)
    requires d in s.partitions
    ensures var t := StagePart(s, d, part); t == s.(partitions := t.partitions, disk := t.disk) && d in t.partitions
  {
  }

  lemma OrphanFrame(s: Sys, d: Day, part: PartDir)
    requires d in s.partitions
    ensures var t := PartOrphaned(s, d, part);
            && t == s.(partitions := t.partitions, disk := t.disk) && d in t.partitions
            && t.partitions[d].parts == s.partitions[d].parts
            && t.partitions == StagePart(s, d, part).partitions
  {
  }

  lemma SetPartsFrame(s: Sys, d: Day, parts: set<PartId>, f: Flush)
    requires d in s.partitions
    ensures SetParts(s.(flush := f), d, parts) == SetParts(s, d, parts).(flush := f)
  {
  }

  /** addPart fails before the part is in place: its ID is gone, its samples go back to the buffer. */
  lemma FlushDayFailsPath(s0: Sys, s: Sys, sorted: Series, back: Series)
    requires Reaches(s0, s) && HeldChanges(s0, s, Silent)
    requires Inv(s) && s.flush.FDay? && s.flush.stage == Opened && s.flush.day in s.partitions
    requires Sorts(sorted, DayPart(s.flush.batch, s.flush.day)) && Permutes(back, DayPart(s.flush.batch, s.flush.day))
    ensures var f := s.flush;
            var s' := IdTaken(s, f.day).(mem := Joined(s.mem, back), flush := FIdle);
            Reaches(s0, s') && HeldChanges(s0, s', DayFailed(f.day)) && Inv(s')
  {
    hide Inv, Sorts, Permutes, DayPart, Reaches, HeldChanges, StagePart, UnstagePart, IdTaken, Joined;
    var f, part, n := s.flush, PartDir(sorted, Small), s.partitions[s.flush.day].nextID;
    var s1 := StagePart(s, f.day, part).(flush := FDay(f.batch, f.todo, f.day, Staged(n)));
    var s2 := IdTaken(s, f.day).(mem := Joined(s.mem, back), flush := FIdle);
    assert NextFlush(s, FlushStage(sorted), s1);
    StageThenUnstage(s, f.day, part);
    StageFrame(s, f.day, part);
    TakenFrame(s, f.day, part);
    DayEvents(s, FlushStage(sorted));
    FlushAdvance(s0, s, FlushStage(sorted), s1, Silent);
    assert NextFlush(s1, FlushDayFails(f.day, back), s2);
    DayEvents(s1, FlushDayFails(f.day, back));
    FlushAdvance(s0, s1, FlushDayFails(f.day, back), s2, DayFailed(f.day));
  }

  /** The flush fails at a day before it has touched the day's directory. */
  lemma FlushFailsEarlyPath(s0: Sys, s: Sys, day: Day, back: Series)
    requires Reaches(s0, s) && HeldChanges(s0, s, Silent) && Inv(s)
    requires (s.flush.FVisiting? && day in s.flush.todo) || (s.flush.FDay? && s.flush.day == day && s.flush.stage == Indexed)
    requires Permutes(back, DayPart(s.flush.batch, day))
    ensures var s' := s.(mem := Joined(s.mem, back), flush := FIdle);
            Reaches(s0, s') && HeldChanges(s0, s', DayFailed(day)) && Inv(s')
  {
    hide Inv, Permutes, DayPart, Reaches, HeldChanges, Joined;
    var s' := s.(mem := Joined(s.mem, back), flush := FIdle);
    assert NextFlush(s, FlushDayFails(day, back), s');
    DayEvents(s, FlushDayFails(day, back));
    FlushAdvance(s0, s, FlushDayFails(day, back), s', DayFailed(day));
  }

  /** persistDayIndex has written the records of keys that day did not have. */
  function IndexedDay(s: Sys, day: Day, keys: set<SeriesId>): Sys {
    var ids := S.Unindexed(s.reg, day, keys);
    var inv := s.disk.inverted[day := InvertedOf(s.disk.inverted, day) + EntriesFor(s.reg, ids)];
    s.(disk := s.disk.(inverted := if ids == {} then s.disk.inverted else inv), reg := S.Marked(s.reg, day, ids))
  }

  lemma IndexPath(s: Sys, day: Day)
    requires Inv(s) && s.flush.FVisiting? && day in s.flush.todo
    ensures var f := s.flush;
            var s' := IndexedDay(s, day, DayPart(f.batch, day).Keys).(flush := FDay(f.batch, f.todo, day, Indexed));
            Reaches(s, s') && HeldChanges(s, s', Silent) && Inv(s')
  {
    hide Inv, DayPart, Reaches, HeldChanges, S.Unindexed, S.Marked, EntriesFor, InvertedOf;
    var f := s.flush;
    var s' := IndexedDay(s, day, DayPart(f.batch, day).Keys).(flush := FDay(f.batch, f.todo, day, Indexed));
    assert NextFlush(s, FlushIndexDay(day), s');
    SilentSelf(s);
    DayEvents(s, FlushIndexDay(day));
    FlushAdvance(s, s, FlushIndexDay(day), s', Silent);
  }

  /** A day directory made and opened. */
  function DayOpened(s: Sys, day: Day, p: Partition): Sys {
    s.(disk := SetDir(s.disk, day, NEW_DIR), partitions := s.partitions[day := p])
  }

  lemma OpenDayPath(s0: Sys, s: Sys, p: Partition)
    requires Reaches(s0, s) && HeldChanges(s0, s, Silent) && Inv(s)
    requires s.flush.FDay? && s.flush.stage == Indexed && OpensAs(NEW_DIR, p)
    ensures var f := s.flush;
            var s' := (if f.day in s.partitions then s else DayOpened(s, f.day, p)).(flush := FDay(f.batch, f.todo, f.day, Opened));
            Reaches(s0, s') && HeldChanges(s0, s', Silent) && Inv(s')
  {
    hide Inv, Reaches, HeldChanges, IsNext;
    var f := s.flush;
    var s' := (if f.day in s.partitions then s else DayOpened(s, f.day, p)).(flush := FDay(f.batch, f.todo, f.day, Opened));
    if f.day !in s.partitions {
      NoDirectory(s, f.day);
    }
    assert NextFlush(s, FlushOpenDay, s');
    DayEvents(s, FlushOpenDay);
    FlushAdvance(s0, s, FlushOpenDay, s', Silent);
  }

  lemma NoDirectory(s: Sys, day: Day)
    requires Inv(s) && day !in s.partitions
    ensures Cleaned(DirOf(s.disk, day)) == NEW_DIR
  {
    hide TodoOk, RegistryOk, IdsOk, DurableOk, PersistedOk, FindableOk, FlushOk, MergeOk, RetentionOk, PartsOk, DayOk;
  }

  // ---------- the start and the end of a flush ----------

  /** The buffer is swapped, the pending registrations are written. */
  function FlushStarted(s: Sys): Sys {
    s.(mem := map[], reg := s.reg.(pending := map[]), disk := s.disk.(forward := s.disk.forward + s.reg.pending),
       flush := if s.mem == map[] then FIdle else FVisiting(s.mem, DaysOf(s.mem)))
  }

  lemma FlushDrains(s: Sys) returns (s': Sys)
    requires Inv(s) && s.flush == FIdle && s.retention == RIdle
    ensures s' == s.(mem := map[], reg := s.reg.(pending := map[]), flush := FDrained(s.mem, s.reg.pending))
    ensures Reaches(s, s') && HeldChanges(s, s', Swapped) && Inv(s')
  {
    hide Inv, Reaches, HeldChanges;
    var s1 := s.(flush := FSwapped(s.mem), mem := map[]);
    s' := s1.(flush := FDrained(s.mem, s.reg.pending), reg := s.reg.(pending := map[]));
    SilentSelf(s);
    DayEvents(s, FlushSwap);
    FlushAdvance(s, s, FlushSwap, s1, Swapped);
    DayEvents(s1, FlushDrain);
    FlushThenSilent(s, s1, FlushDrain, s', Swapped);
  }

  lemma ChangesSilent(s: Sys, t: Sys, u: Sys, e: Event)
    requires HeldChanges(s, t, e) && HeldChanges(t, u, Silent)
    ensures HeldChanges(s, u, e)
  {
    hide Held;
  }

  lemma FlushThenSilent(s0: Sys, s: Sys, step: Step, s': Sys, e: Event)
    requires Reaches(s0, s) && HeldChanges(s0, s, e) && Inv(s) && IsFlushStep(step) && NextFlush(s, step, s')
    requires EventOf(s, step) == Silent
    ensures Reaches(s0, s') && HeldChanges(s0, s', e) && Inv(s')
  {
    hide Inv, NextFlush, Next, Reaches, HeldChanges, EventOf;
    FlushChanges(s, step, s');
    ChangesSilent(s0, s, s', e);
    ReachesNext(s0, s, step, s');
  }

  lemma FlushStartPath(s: Sys)
    requires Inv(s) && s.flush == FIdle && s.retention == RIdle
    ensures Reaches(s, FlushStarted(s)) && HeldChanges(s, FlushStarted(s), Swapped) && Inv(FlushStarted(s))
  {
    hide Inv, Reaches, HeldChanges, DaysOf;
    var s2 := FlushDrains(s);
    DayEvents(s2, FlushSaveRegistry);
    assert NextFlush(s2, FlushSaveRegistry, FlushStarted(s));
    FlushThenSilent(s, s2, FlushSaveRegistry, FlushStarted(s), Swapped);
  }

  /** The registry segment cannot be written: buffer and pending registrations are as before. */
  lemma FlushRefusedPath(s: Sys)
    requires Inv(s) && s.flush == FIdle && s.retention == RIdle
    ensures var s' := s.(mem := Joined(map[], s.mem), reg := s.reg.(pending := map[] + s.reg.pending));
            Reaches(s, s') && HeldKept(s, s') && Inv(s')
  {
    hide Inv, Reaches, HeldChanges, HeldKept, Joined;
    var s2 := FlushDrains(s);
    var s' := s.(mem := Joined(map[], s.mem), reg := s.reg.(pending := map[] + s.reg.pending));
    assert NextFlush(s2, FlushRegistryFails, s');
    FlushChanges(s2, FlushRegistryFails, s');
    DayEvents(s2, FlushRegistryFails);
    hide Next, NextFlush;
    ReachesNext(s, s2, FlushRegistryFails, s');
    SwappedRestored(s, s2, s');
  }

  lemma SwappedRestored(s: Sys, t: Sys, u: Sys)
    requires s.flush == FIdle && HeldChanges(s, t, Swapped) && HeldChanges(t, u, Restored)
    ensures HeldKept(s, u)
  {
    hide OnDisk, OnlyListed, CountIn;
    forall id: SeriesId, x: Sample ensures SameHeld(Held(s, id, x), Held(u, id, x)) {
      assert Held(t, id, x) == Record(Held(s, id, x), Swapped, [], x);
      assert Held(u, id, x) == Record(Held(t, id, x), Restored, [], x);
      assert Held(s, id, x).flight == 0;
    }
  }

  lemma FlushEndPath(s: Sys)
    requires Inv(s) && s.flush.FVisiting? && s.flush.todo == {}
    ensures Reaches(s, s.(flush := FIdle)) && HeldChanges(s, s.(flush := FIdle), Silent) && Inv(s.(flush := FIdle))
  {
    hide Inv, Reaches, HeldChanges;
    SilentSelf(s);
    DayEvents(s, FlushEnd);
    FlushAdvance(s, s, FlushEnd, s.(flush := FIdle), Silent);
  }

  lemma TakenFrame(s: Sys, d: Day, part: PartDir)
    requires d in s.partitions
    ensures IdTaken(s, d) == s.(partitions := StagePart(s, d, part).partitions)
  {
  }

  // ---------- a merge ----------

  /** The same copies in memory and in the listed parts, of which more may be saved. */
  ghost predicate HeldKept(s: Sys, s': Sys) {
    forall id: SeriesId, x: Sample :: SameHeld(Held(s, id, x), Held(s', id, x))
  }

  predicate SameHeld(l: Ledger, l': Ledger) {
    l'.mem == l.mem && l'.flight == l.flight && l'.listed + l'.disk == l.listed + l.disk && l'.disk >= l.disk
  }

  lemma MergeHolds(s: Sys, step: Step, s': Sys, id: SeriesId, x: Sample)
    requires Inv(s) && IsMergeStep(step) && NextMerge(s, step, s')
    ensures SameHeld(Held(s, id, x), Held(s', id, x))
  {
    hide Inv, NextMerge, Held, EventOf, Record;
    MergeHeld(s, step, s', [], id, x);
    SavedOrSilent(s, step);
    SavedHolds(Held(s, id, x), EventOf(s, step), x);
  }

  lemma SavedOrSilent(s: Sys, step: Step)
    requires IsMergeStep(step)
    ensures EventOf(s, step).Saved? || EventOf(s, step) == Silent
  {
  }

  lemma SavedHolds(l: Ledger, e: Event, x: Sample)
    requires e.Saved? || e == Silent
    ensures SameHeld(l, Record(l, e, [], x))
  {
  }

  lemma MergeChanges(s0: Sys, s: Sys, step: Step, s': Sys)
    requires Reaches(s0, s) && HeldKept(s0, s) && Inv(s) && IsMergeStep(step) && NextMerge(s, step, s')
    ensures Reaches(s0, s') && HeldKept(s0, s') && Inv(s')
  {
    hide Inv, NextMerge, Held, NextAppend, NextFlush, NextQuery, NextRetention, NextCrash, Reaches;
    forall id: SeriesId, x: Sample ensures SameHeld(Held(s0, id, x), Held(s', id, x)) {
      MergeHolds(s, step, s', id, x);
    }
    MergeKeeps(s, step, s');
    assert Next(s, step, s');
    ReachesNext(s0, s, step, s');
  }

  /** The merge of a day begins with its small parts and their whole content. */
  lemma MergeBegins(s: Sys, d: Day, merged: Series) returns (s': Sys)
    requires Inv(s) && s.merge == MIdle && s.retention == RIdle && d in s.partitions
    requires MergesInto(SmallParts(DirOf(s.disk, d), s.partitions[d]), DirOf(s.disk, d).dirs, merged)
    ensures s' == s.(merge := MRead(d, SmallParts(DirOf(s.disk, d), s.partitions[d]), merged))
    ensures Reaches(s, s') && HeldKept(s, s') && Inv(s')
  {
    hide Inv, MergesInto, SmallParts, Reaches, HeldKept;
    var names := SmallParts(DirOf(s.disk, d), s.partitions[d]);
    var s1 := s.(merge := MNames(d, names));
    s' := s.(merge := MRead(d, names, merged));
    ReachesSelf(s);
    HeldSelf(s);
    DayFacts(s, d);
    MergeChanges(s, s, MergeSnapshot(d), s1);
    MergeChanges(s, s1, MergeRead(merged), s');
  }

  lemma HeldSelf(s: Sys)
    ensures HeldKept(s, s)
  {
  }

  lemma MergeStages(s0: Sys, s: Sys, sorted: Series) returns (s': Sys)
    requires Reaches(s0, s) && HeldKept(s0, s) && Inv(s) && s.merge.MRead? && s.merge.day in s.partitions
    requires Sorts(sorted, s.merge.merged)
    ensures var m := s.merge;
            s' == StagePart(s, m.day, PartDir(sorted, Big)).(merge := MStaged(m.day, m.names, s.partitions[m.day].nextID))
    ensures Reaches(s0, s') && HeldKept(s0, s') && Inv(s')
  {
    hide Inv, Sorts, Permutes, StagePart, Reaches, HeldKept;
    var m := s.merge;
    s' := StagePart(s, m.day, PartDir(sorted, Big)).(merge := MStaged(m.day, m.names, s.partitions[m.day].nextID));
    MergeChanges(s0, s, MergeStage(sorted), s');
  }

  /** mergeParts fails before its part is in place. */
  lemma MergeFailsPath(s: Sys, d: Day, merged: Series, sorted: Series)
    requires Inv(s) && s.merge == MIdle && s.retention == RIdle && d in s.partitions && Sorts(sorted, merged)
    requires MergesInto(SmallParts(DirOf(s.disk, d), s.partitions[d]), DirOf(s.disk, d).dirs, merged)
    ensures Reaches(s, IdTaken(s, d)) && HeldKept(s, IdTaken(s, d))
  {
    hide Inv, MergesInto, SmallParts, Reaches, HeldKept, Sorts, Permutes, StagePart, UnstagePart, IdTaken;
    var s1 := MergeBegins(s, d, merged);
    var s2 := MergeStages(s, s1, sorted);
    StageThenUnstage(s, d, PartDir(sorted, Big));
    StageFrame(s, d, PartDir(sorted, Big));
    StageMerge(s, d, PartDir(sorted, Big), s1.merge);
    TakenFrame(s, d, PartDir(sorted, Big));
    var s3 := IdTaken(s, d);
    assert NextMerge(s2, MergeStageFails, s3);
    MergeChanges(s, s2, MergeStageFails, s3);
  }

  lemma StageMerge(s: Sys, d: Day, part: PartDir, m: Merge)
    requires d in s.partitions
    ensures StagePart(s.(merge := m), d, part) == StagePart(s, d, part).(merge := m)
  {
  }

  lemma MergeRenames(s: Sys, d: Day, merged: Series, sorted: Series) returns (s': Sys)
    requires Inv(s) && s.merge == MIdle && s.retention == RIdle && d in s.partitions && Sorts(sorted, merged)
    requires MergesInto(SmallParts(DirOf(s.disk, d), s.partitions[d]), DirOf(s.disk, d).dirs, merged)
    ensures s' == PartOrphaned(s, d, PartDir(sorted, Big))
                  .(merge := MRenamed(d, SmallParts(DirOf(s.disk, d), s.partitions[d]), s.partitions[d].nextID))
    ensures Reaches(s, s') && HeldKept(s, s') && Inv(s')
  {
    hide Inv, MergesInto, SmallParts, Reaches, HeldKept, Sorts, Permutes, StagePart, RenamePart, PartOrphaned;
    var s1 := MergeBegins(s, d, merged);
    var s2 := MergeStages(s, s1, sorted);
    var part := PartDir(sorted, Big);
    StageThenRename(s, d, part);
    StageFrame(s, d, part);
    OrphanFrame(s, d, part);
    StageMerge(s, d, part, s1.merge);
    s' := PartOrphaned(s, d, part)
          .(merge := MRenamed(d, SmallParts(DirOf(s.disk, d), s.partitions[d]), s.partitions[d].nextID));
    assert NextMerge(s2, MergeRename, s');
    MergeChanges(s, s2, MergeRename, s');
  }

  /** mergeParts cannot save the manifest: the big part is an orphan, the small ones stay. */
  lemma MergeUnsavedPath(s: Sys, d: Day, merged: Series, sorted: Series)
    requires Inv(s) && s.merge == MIdle && s.retention == RIdle && d in s.partitions && Sorts(sorted, merged)
    requires MergesInto(SmallParts(DirOf(s.disk, d), s.partitions[d]), DirOf(s.disk, d).dirs, merged)
    ensures var s' := PartOrphaned(s, d, PartDir(sorted, Big));
            Reaches(s, s') && HeldKept(s, s')
  {
    hide Inv, MergesInto, SmallParts, Reaches, HeldKept, Sorts, Permutes, PartOrphaned;
    var s1 := MergeRenames(s, d, merged, sorted);
    OrphanFrame(s, d, PartDir(sorted, Big));
    MergeChanges(s, s1, MergeSwapFails, PartOrphaned(s, d, PartDir(sorted, Big)));
  }

  function WithoutDirs(s: Sys, d: Day, names: set<PartId>): Sys {
    var dd := DirOf(s.disk, d);
    s.(merge := MIdle, disk := SetDir(s.disk, d, dd.(dirs := dd.dirs - names)))
  }

  lemma {:induction false} DeletePath(s0: Sys, s: Sys)
    requires Reaches(s0, s) && HeldKept(s0, s) && Inv(s) && s.merge.MDeleting? && s.merge.day in s.disk.days
    ensures var s' := WithoutDirs(s, s.merge.day, s.merge.names);
            Reaches(s0, s') && HeldKept(s0, s')
    decreases s.merge.names
  {
    hide Inv, Reaches, HeldKept;
    var m := s.merge;
    if m.names == {} {
      assert WithoutDirs(s, m.day, {}) == s.(merge := MIdle) by {
        assert s.disk.days[m.day].dirs - {} == s.disk.days[m.day].dirs;
        assert s.disk.days[m.day := s.disk.days[m.day]] == s.disk.days;
      }
      MergeChanges(s0, s, MergeEnd, s.(merge := MIdle));
    } else {
      var n := Member(m.names);
      var dd := s.disk.days[m.day];
      var s1 := s.(disk := SetDir(s.disk, m.day, dd.(dirs := dd.dirs - {n})), merge := MDeleting(m.day, m.names - {n}));
      MergeChanges(s0, s, MergeDelete(n), s1);
      DeletePath(s0, s1);
      DeleteJoins(s, s1, n);
    }
  }

  lemma DeleteJoins(s: Sys, s1: Sys, n: PartId)
    requires s.merge.MDeleting? && s.merge.day in s.disk.days && n in s.merge.names
    requires var m, dd := s.merge, DirOf(s.disk, s.merge.day);
             s1 == s.(disk := SetDir(s.disk, m.day, dd.(dirs := dd.dirs - {n})), merge := MDeleting(m.day, m.names - {n}))
    ensures WithoutDirs(s1, s.merge.day, s.merge.names - {n}) == WithoutDirs(s, s.merge.day, s.merge.names)
  {
    var dirs := DirOf(s.disk, s.merge.day).dirs;
    assert dirs - {n} - (s.merge.names - {n}) == dirs - s.merge.names;
  }

  /** mergeParts succeeds: the small parts of the day give way to one that holds all they held. */
  lemma MergePath(s: Sys, d: Day, merged: Series, sorted: Series)
    requires Inv(s) && s.merge == MIdle && s.retention == RIdle && d in s.partitions && Sorts(sorted, merged)
    requires MergesInto(SmallParts(DirOf(s.disk, d), s.partitions[d]), DirOf(s.disk, d).dirs, merged)
    ensures var s' := PartMerged(s, d, SmallParts(DirOf(s.disk, d), s.partitions[d]), PartDir(sorted, Big));
            Reaches(s, s') && HeldKept(s, s')
  {
    hide Inv, MergesInto, SmallParts, Reaches, HeldKept, Sorts, Permutes, PartOrphaned, SetParts, WithoutDirs, PartMerged;
    var names, part, n := SmallParts(DirOf(s.disk, d), s.partitions[d]), PartDir(sorted, Big), s.partitions[d].nextID;
    var s1 := MergeRenames(s, d, merged, sorted);
    OrphanFrame(s, d, part);
    var s2 := SetParts(s1, d, s.partitions[d].parts - names + {n}).(merge := MDeleting(d, names));
    assert NextMerge(s1, MergeSwap, s2);
    MergeChanges(s, s1, MergeSwap, s2);
    SwapThenDelete(s, d, names, part);
    DeletePath(s, s2);
  }

  lemma SwapThenDelete(s: Sys, d: Day, names: set<PartId>, part: PartDir)
    requires d in s.partitions && s.merge == MIdle
    ensures var n := s.partitions[d].nextID;
            var s1 := PartOrphaned(s, d, part).(merge := MRenamed(d, names, n));
            var s2 := SetParts(s1, d, s.partitions[d].parts - names + {n}).(merge := MDeleting(d, names));
            d in s2.disk.days && WithoutDirs(s2, d, names) == PartMerged(s, d, names, part)
  {
    var n := s.partitions[d].nextID;
    var s1 := PartOrphaned(s, d, part).(merge := MRenamed(d, names, n));
    var s2 := SetParts(s1, d, s.partitions[d].parts - names + {n}).(merge := MDeleting(d, names));
    var a, b := WithoutDirs(s2, d, names), PartMerged(s, d, names, part);
    assert a.disk.days == b.disk.days;
    assert a.partitions == b.partitions;
  }

  lemma BatchNamed(s: Sys, day: Day)
    requires Inv(s) && s.flush.FVisiting?
    ensures DayPart(s.flush.batch, day).Keys <= s.reg.names.Keys
  {
    hide TodoOk, RegistryOk, DurableOk, PersistedOk, FindableOk, DaysOk, FlushOk, MergeOk, RetentionOk, OnDay;
  }

  lemma PermutesSelf(data: Series)
    ensures Permutes(data, data)
  {
  }

  /** Which part of a state a flush under way does not bear on. */
  lemma FlushFrame(s: Sys, d: Day, part: PartDir, f: Flush)
    requires d in s.partitions
    ensures PartAdded(s.(flush := f), d, part) == PartAdded(s, d, part).(flush := f)
    ensures PartOrphaned(s.(flush := f), d, part) == PartOrphaned(s, d, part).(flush := f)
    ensures PartUnsaved(s.(flush := f), d, part) == PartUnsaved(s, d, part).(flush := f)
    ensures IdTaken(s.(flush := f), d) == IdTaken(s, d).(flush := f)
  {
  }

  lemma MergeFrameOf(s: Sys, d: Day, names: set<PartId>, part: PartDir, f: Flush)
    requires d in s.partitions
    ensures PartMerged(s.(flush := f), d, names, part) == PartMerged(s, d, names, part).(flush := f)
  {
  }

  // ---------- retention ----------

  /** Retention has dropped the days of gone. */
  function Expiry(s: Sys, gone: set<Day>): Sys {
    s.(disk := s.disk.(days := s.disk.days - gone, inverted := s.disk.inverted - gone),
       partitions := s.partitions - gone,
       reg := s.reg.(inverted := s.reg.inverted - gone, persisted := s.reg.persisted - gone))
  }

  lemma RetentionAdvance(s0: Sys, s: Sys, step: Step, s': Sys)
    requires Reaches(s0, s) && IsRetentionStep(step) && NextRetention(s, step, s')
    ensures Reaches(s0, s')
  {
    hide NextRetention, NextFlush, NextMerge, NextAppend, NextQuery, NextCrash, Reaches;
    assert Next(s, step, s');
    ReachesNext(s0, s, step, s');
  }

  lemma ExpirySplit(s: Sys, gone: set<Day>, d: Day)
    ensures Expiry(Expiry(s, gone), {d}) == Expiry(s, gone + {d})
  {
    assert s.disk.days - gone - {d} == s.disk.days - (gone + {d});
    assert s.disk.inverted - gone - {d} == s.disk.inverted - (gone + {d});
    assert s.partitions - gone - {d} == s.partitions - (gone + {d});
    assert s.reg.inverted - gone - {d} == s.reg.inverted - (gone + {d});
    assert s.reg.persisted - gone - {d} == s.reg.persisted - (gone + {d});
  }

  lemma DropDayPath(s0: Sys, s: Sys, d: Day)
    requires Reaches(s0, s) && s.retention.RRun? && d in s.retention.todo
    ensures Reaches(s0, Expiry(s, {d}).(retention := RRun(s.retention.todo - {d})))
  {
    hide Reaches;
    var todo := s.retention.todo - {d};
    var s1 := s.(disk := s.disk.(days := s.disk.days - {d}), partitions := s.partitions - {d}, retention := RDirGone(todo, d));
    var s2 := s1.(disk := s1.disk.(inverted := s1.disk.inverted - {d}), retention := RIndexGone(todo, d));
    var s3 := s2.(reg := S.Dropped(s2.reg, d), retention := RRun(todo));
    RetentionAdvance(s0, s, RetentionDropDir(d), s1);
    RetentionAdvance(s0, s1, RetentionDropIndex, s2);
    RetentionAdvance(s0, s2, RetentionForget, s3);
  }

  lemma {:induction false} ExpiryPath(s0: Sys, s: Sys, gone: set<Day>)
    requires Reaches(s0, s) && s.retention == RRun(gone)
    ensures Reaches(s0, Expiry(s, gone).(retention := RRun({})))
    decreases gone
  {
    hide Reaches;
    if gone == {} {
      assert s.disk.days - {} == s.disk.days && s.disk.inverted - {} == s.disk.inverted;
      assert s.partitions - {} == s.partitions;
      assert s.reg.inverted - {} == s.reg.inverted && s.reg.persisted - {} == s.reg.persisted;
    } else {
      var d := Member(gone);
      DropDayPath(s0, s, d);
      var s1 := Expiry(s, {d}).(retention := RRun(gone - {d}));
      ExpiryPath(s0, s1, gone - {d});
      ExpiryJoin(s, gone, d);
    }
  }

  lemma ExpiryJoin(s: Sys, gone: set<Day>, d: Day)
    requires d in gone
    ensures Expiry(Expiry(s, {d}).(retention := RRun(gone - {d})), gone - {d}).(retention := RRun({})) ==
            Expiry(s, gone).(retention := RRun({}))
  {
    assert {d} + (gone - {d}) == gone;
    assert s.disk.days - {d} - (gone - {d}) == s.disk.days - gone;
    assert s.disk.inverted - {d} - (gone - {d}) == s.disk.inverted - gone;
    assert s.partitions - {d} - (gone - {d}) == s.partitions - gone;
    assert s.reg.inverted - {d} - (gone - {d}) == s.reg.inverted - gone;
    assert s.reg.persisted - {d} - (gone - {d}) == s.reg.persisted - gone;
  }

  /** A whole retention pass. */
  lemma RetentionPath(s: Sys, cutoff: Day, gone: set<Day>)
    requires Inv(s) && s.retention == RIdle && s.flush == FIdle && s.merge == MIdle
    requires gone <= s.partitions.Keys && s.cutoff <= cutoff && forall d :: d in gone ==> d < cutoff
    ensures Reaches(s, Expiry(s, gone).(cutoff := cutoff))
  {
    hide Reaches, Inv;
    var s1 := s.(retention := RRun(gone), cutoff := cutoff);
    ReachesSelf(s);
    RetentionAdvance(s, s, RetentionStart(cutoff, gone), s1);
    ExpiryPath(s, s1, gone);
    var s2 := Expiry(s1, gone).(retention := RRun({}));
    RetentionAdvance(s, s2, RetentionEnd, s2.(retention := RIdle));
  }

  // ---------- an append ----------

  function IndexedAll(r: S.State, days: seq<Day>, id: SeriesId): S.State {
    if days == [] then r else S.IndexedForDay(IndexedAll(r, days[..|days| - 1], id), days[|days| - 1], id)
  }

  function AfterAppend(s: Sys, labels: seq<Label>, samples: seq<Sample>): Sys {
    var id := S.ResolvedId(s.reg, labels);
    s.(reg := IndexedAll(S.Resolved(s.reg, labels), Ascending(SamplesDays(samples)), id),
       mem := Joined(s.mem, Singleton(id, samples)))
  }

  function DaySet(days: seq<Day>): set<Day> {
    set d | d in days
  }

  /** An append under way, the days of done already indexed. */
  function Appending(s: Sys, r: S.State, a: Append, done: seq<Day>): Sys {
    s.(reg := IndexedAll(r, done, a.id), appends := map[0 := a.(todo := a.todo - DaySet(done))])
  }

  lemma {:induction false} AppendIndexes(s: Sys, r: S.State, a: Append, list: seq<Day>, i: nat)
    requires i <= |list| && Reaches(s, Appending(s, r, a, []))
    requires forall j :: 0 <= j < |list| ==> list[j] in a.todo && list[j] !in list[..j]
    ensures Reaches(s, Appending(s, r, a, list[..i]))
  {
    hide S.IndexedForDay, Reaches;
    if i > 0 {
      AppendIndexes(s, r, a, list, i - 1);
      var t, u := Appending(s, r, a, list[..i - 1]), Appending(s, r, a, list[..i]);
      assert list[..i][..i - 1] == list[..i - 1];
      assert list[..i] == list[..i - 1] + [list[i - 1]];
      assert a.todo - DaySet(list[..i]) == a.todo - DaySet(list[..i - 1]) - {list[i - 1]};
      assert t.appends[0 := u.appends[0]] == u.appends;
      assert Next(t, AppendIndex(0, list[i - 1]), u);
      ReachesNext(s, t, AppendIndex(0, list[i - 1]), u);
    }
  }

  lemma AppendPath(s: Sys, labels: seq<Label>, samples: seq<Sample>)
    requires samples != [] && s.appends == map[]
    ensures Reaches(s, AfterAppend(s, labels, samples))
  {
    hide S.Resolved, S.ResolvedId, CanonicalKey, Reaches, Joined, Ascending, S.IndexedForDay;
    var r, id, days := S.Resolved(s.reg, labels), S.ResolvedId(s.reg, labels), SamplesDays(samples);
    var a := Append(id, CanonicalKey(labels), samples, days);
    var list := Ascending(days);
    var s1 := Appending(s, r, a, []);
    assert days - DaySet([]) == days;
    assert Next(s, AppendResolve(0, labels, samples), s1);
    ReachesSelf(s);
    ReachesNext(s, s, AppendResolve(0, labels, samples), s1);
    forall j | 0 <= j < |list| ensures list[j] in days && list[j] !in list[..j] {
      AscendingAt(days, j);
    }
    AppendIndexes(s, r, a, list, |list|);
    assert list[..|list|] == list;
    var s2 := Appending(s, r, a, list);
    assert s2.appends[0].todo == {};
    var s3 := AfterAppend(s, labels, samples);
    assert s2.appends - {0} == map[];
    assert Next(s2, AppendBuffer(0), s3);
    ReachesNext(s, s2, AppendBuffer(0), s3);
  }
}
