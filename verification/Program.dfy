/** The engine inside the program: storage/compaction.go and retention.go together. ForceMerge collects the
    partition objects before it takes the merge lock, and a merge never asks whether its partition has been
    dropped. So a partition that retention has dropped may still be merged, and the directory it then works
    in is whatever has the day's name by now. */
module Program {
  import opened Contents
  import opened Engine
  import opened EngineInvariant
  import opened Labels
  import opened Part
  import opened SortedIds
  import S = Series

  /** A dropped partition object: its day, its part list and its next part ID. */
  datatype Handle = Handle(day: Day, live: Partition)

  /** How far a merge of dropped partition h has come. */
  datatype Stale =
    | SIdle
    | SNames(h: nat, day: Day, names: set<PartId>)
    | SRead(h: nat, day: Day, names: set<PartId>, merged: Series)
    | SStaged(h: nat, day: Day, names: set<PartId>, part: PartId)
    | SRenamed(h: nat, day: Day, names: set<PartId>, part: PartId)
    | SDeleting(h: nat, day: Day, names: set<PartId>)

  /** handles are the partitions dropped by this process. used are the days into whose directory a merge of
      a dropped partition has written since the directory was made; it takes no part in the moves. */
  datatype State = State(sys: Sys, handles: seq<Handle>, stale: Stale, used: set<Day>)

  datatype Move =
    | Does(step: Step)
    | StaleSnapshot(h: nat)
    | StaleRead(merged: Series)
    | StaleStage(data: Series)
    | StaleStageFails
    | StaleRename
    | StaleSwap
    | StaleSwapFails
    | StaleDelete(part: PartId)
    | StaleEnd

  // ---------- moves ----------

  /** What a step of the engine does outside it: a dropped partition lives on as a handle; a new process
      has none. */
  function Around(p: State, step: Step, sys: Sys): State {
    if step.RetentionDropDir? && step.day in p.sys.partitions then
      State(sys, p.handles + [Handle(step.day, p.sys.partitions[step.day])], p.stale, p.used - {step.day})
    else if step.Crash? then State(sys, [], SIdle, p.used)
    else p.(sys := sys)
  }

  /** A merge holds the merge lock, which retention takes too. */
  ghost predicate MovesEngine(p: State, step: Step, p': State) {
    && Next(p.sys, step, p'.sys)
    && (step.MergeSnapshot? || step.RetentionStart? ==> p.stale == SIdle)
    && p' == Around(p, step, p'.sys)
  }

  /** The process and the disk with other directories for day d. */
  function WithDir(s: Sys, d: Day, dd: DayDir): Sys {
    s.(disk := SetDir(s.disk, d, dd))
  }

  ghost predicate MovesStale(p: State, move: Move, p': State)
    requires !move.Does?
  {
    var s, m := p.sys, p.stale;
    match move
    case StaleSnapshot(h) =>
      && m == SIdle && s.merge == MIdle && s.retention == RIdle && h < |p.handles|
      && var d, live := p.handles[h].day, p.handles[h].live;
         && live.parts <= DirOf(s.disk, d).dirs.Keys && |SmallParts(DirOf(s.disk, d), live)| >= 2
         && p' == p.(stale := SNames(h, d, SmallParts(DirOf(s.disk, d), live)))
    case StaleRead(merged) =>
      && m.SNames? && MergesInto(m.names, DirOf(s.disk, m.day).dirs, merged)
      && p' == p.(stale := SRead(m.h, m.day, m.names, merged))
    case StaleStage(data) =>
      && m.SRead? && m.h < |p.handles| && Sorts(data, m.merged)
      && var live, dd := p.handles[m.h].live, DirOf(s.disk, m.day);
         p' == State(WithDir(s, m.day, dd.(staging := dd.staging[live.nextID := PartDir(data, Big)])),
                     p.handles[m.h := Handle(m.day, live.(nextID := live.nextID + 1))],
                     SStaged(m.h, m.day, m.names, live.nextID), p.used + {m.day})
    case StaleStageFails =>
      && m.SStaged?
      && p' == p.(sys := s.(disk := UnstagePart(s.disk, m.day, m.part)), stale := SIdle)
    case StaleRename =>
      && m.SStaged? && Renames(DirOf(s.disk, m.day), m.part)
      && p' == p.(sys := s.(disk := RenamePart(s.disk, m.day, m.part)), stale := SRenamed(m.h, m.day, m.names, m.part))
    case StaleSwap =>
      && m.SRenamed? && m.h < |p.handles|
      && var live, dd := p.handles[m.h].live, DirOf(s.disk, m.day);
         var parts := live.parts - m.names + {m.part};
         p' == State(WithDir(s, m.day, dd.(manifest := parts)), p.handles[m.h := Handle(m.day, live.(parts := parts))],
                     SDeleting(m.h, m.day, m.names), p.used)
    case StaleSwapFails =>
      m.SRenamed? && p' == p.(stale := SIdle)
    case StaleDelete(n) =>
      && m.SDeleting? && n in m.names
      && var dd := DirOf(s.disk, m.day);
         p' == State(WithDir(s, m.day, dd.(dirs := dd.dirs - {n})), p.handles, SDeleting(m.h, m.day, m.names - {n}), p.used)
    case StaleEnd =>
      (m.SNames? || m.SRead? || (m.SDeleting? && m.names == {})) && p' == p.(stale := SIdle)
  }

  ghost predicate Moves(p: State, move: Move, p': State) {
    if move.Does? then MovesEngine(p, move.step, p') else MovesStale(p, move, p')
  }

  ghost predicate Begins(p: State) {
    Init(p.sys) && p.handles == [] && p.stale == SIdle && p.used == {}
  }

  /** A run: states joined by moves, from a fresh store. */
  ghost predicate IsRun(states: seq<State>, moves: seq<Move>) {
    && |states| == |moves| + 1 && Begins(states[0])
    && forall i :: 0 <= i < |moves| ==> Moves(states[i], moves[i], states[i + 1])
  }

  // ---------- the engine but for the days used ----------

  /** The state as if the days of used had no directory, and what is under way in them had not begun. */
  function Without(s: Sys, used: set<Day>): Sys {
    s.(disk := s.disk.(days := s.disk.days - used),
       partitions := s.partitions - used,
       flush := if s.flush.FDay? && s.flush.day in used then FDay(s.flush.batch, s.flush.todo, s.flush.day, Indexed) else s.flush,
       merge := if s.merge != MIdle && s.merge.day in used then MIdle else s.merge)
  }

  lemma PutOutside<V>(m: map<Day, V>, used: set<Day>, d: Day, v: V)
    ensures d !in used ==> m[d := v] - used == (m - used)[d := v]
    ensures d in used ==> m[d := v] - used == m - used
  {
  }

  lemma DirOutside(s: Sys, used: set<Day>, d: Day)
    requires d !in used
    ensures DirOf(Without(s, used).disk, d) == DirOf(s.disk, d)
    ensures d in Without(s, used).partitions <==> d in s.partitions
    ensures d in s.partitions ==> Without(s, used).partitions[d] == s.partitions[d]
  {
  }

  /** A day's directory and partition change outside the days used, or inside them. */
  lemma ChangeOutside(s: Sys, used: set<Day>, d: Day, dd: DayDir, p: Partition)
    ensures var t, w := s.(disk := SetDir(s.disk, d, dd), partitions := s.partitions[d := p]), Without(s, used);
            Without(t, used) ==
            if d in used then w else w.(disk := SetDir(w.disk, d, dd), partitions := w.partitions[d := p])
    ensures var t, w := s.(disk := SetDir(s.disk, d, dd)), Without(s, used);
            Without(t, used) == if d in used then w else w.(disk := SetDir(w.disk, d, dd))
    ensures var t, w := s.(partitions := s.partitions[d := p]), Without(s, used);
            Without(t, used) == if d in used then w else w.(partitions := w.partitions[d := p])
  {
    PutOutside(s.disk.days, used, d, dd);
    PutOutside(s.partitions, used, d, p);
  }

  /** The step works on a day of used. */
  predicate WorksOn(s: Sys, step: Step, used: set<Day>) {
    || (IsFlushStep(step) && s.flush.FDay? && s.flush.day in used)
    || (step.MergeSnapshot? && step.day in used)
    || (IsMergeStep(step) && s.merge != MIdle && s.merge.day in used)
  }

  lemma AppendOutside(s: Sys, step: Step, s': Sys, used: set<Day>)
    requires (step.AppendResolve? || step.AppendIndex? || step.AppendBuffer?) && NextAppend(s, step, s')
    ensures NextAppend(Without(s, used), step, Without(s', used))
  {
    hide S.Resolved, S.ResolvedId, S.IndexedForDay, Joined, CanonicalKey;
  }

  lemma WholeOutside(s: Sys, step: Step, s': Sys, used: set<Day>)
    requires step.FlushSwap? || step.FlushDrain? || step.FlushSaveRegistry? || step.FlushRegistryFails? ||
             step.FlushIndexDay? || step.FlushEnd?
    requires NextFlush(s, step, s')
    ensures NextFlush(Without(s, used), step, Without(s', used))
  {
    hide Joined, DaysOf, DayPart, S.Unindexed, S.Marked, EntriesFor, InvertedOf;
  }

  lemma OpenOutside(s: Sys, s': Sys, used: set<Day>)
    requires NextFlush(s, FlushOpenDay, s') && s.flush.day !in used
    ensures NextFlush(Without(s, used), FlushOpenDay, Without(s', used))
  {
    hide IsNext, Cleaned;
    var d, w := s.flush.day, Without(s, used);
    DirOutside(s, used, d);
    if d !in s.partitions {
      var dd := Cleaned(DirOf(s.disk, d));
      ChangeOutside(s, used, d, dd, s'.partitions[d]);
      assert OpensAs(dd, s'.partitions[d]);
    }
  }

  lemma StageOutside(s: Sys, d: Day, part: PartDir, used: set<Day>)
    requires d in s.partitions && d !in used
    ensures d in Without(s, used).partitions
    ensures Without(StagePart(s, d, part), used) == StagePart(Without(s, used), d, part)
  {
    DirOutside(s, used, d);
    var n, dd := s.partitions[d].nextID, DirOf(s.disk, d);
    ChangeOutside(s, used, d, dd.(staging := dd.staging[n := part]), s.partitions[d].(nextID := n + 1));
  }

  lemma ListOutside(s: Sys, d: Day, parts: set<PartId>, used: set<Day>)
    requires d in s.partitions && d !in used
    ensures d in Without(s, used).partitions
    ensures Without(SetParts(s, d, parts), used) == SetParts(Without(s, used), d, parts)
  {
    DirOutside(s, used, d);
    ChangeOutside(s, used, d, DirOf(s.disk, d).(manifest := parts), s.partitions[d].(parts := parts));
  }

  lemma DirsOutside(s: Sys, d: Day, n: PartId, used: set<Day>)
    requires d !in used
    ensures Without(s.(disk := UnstagePart(s.disk, d, n)), used).disk == UnstagePart(Without(s, used).disk, d, n)
    ensures n in DirOf(s.disk, d).staging ==>
              && n in DirOf(Without(s, used).disk, d).staging
              && Without(s.(disk := RenamePart(s.disk, d, n)), used).disk == RenamePart(Without(s, used).disk, d, n)
  {
    DirOutside(s, used, d);
    var dd := DirOf(s.disk, d);
    ChangeOutside(s, used, d, dd.(staging := dd.staging - {n}), Partition({}, 0));
    if n in dd.staging {
      ChangeOutside(s, used, d, dd.(staging := dd.staging - {n}, dirs := dd.dirs[n := dd.staging[n]]), Partition({}, 0));
    }
  }

  lemma DayOutside(s: Sys, step: Step, s': Sys, used: set<Day>)
    requires step.FlushStage? || step.FlushRename? || step.FlushPublish? || step.FlushManifestFails? || step.FlushDayFails?
    requires NextFlush(s, step, s') && !WorksOn(s, step, used)
    ensures NextFlush(Without(s, used), step, Without(s', used))
  {
    hide Joined, DayPart, Sorts, Permutes, StagePart, SetParts, UnstagePart, RenamePart, DirOf, SetDir;
    var f := s.flush;
    if f.FDay? {
      var d := f.day;
      DirOutside(s, used, d);
      match step {
        case FlushStage(data) => StageOutside(s, d, PartDir(data, Small), used);
        case FlushRename => DirsOutside(s, d, f.stage.part, used);
        case FlushPublish => ListOutside(s, d, s.partitions[d].parts + {f.stage.part}, used);
        case FlushManifestFails(_) =>
          PutOutside(s.partitions, used, d, s.partitions[d].(parts := s.partitions[d].parts + {f.stage.part}));
        case FlushDayFails(_, _) =>
          if f.stage.Staged? {
            DirsOutside(s, d, f.stage.part, used);
          }
      }
    }
  }

  lemma MergeOutside(s: Sys, step: Step, s': Sys, used: set<Day>)
    requires IsMergeStep(step) && NextMerge(s, step, s') && !WorksOn(s, step, used)
    ensures NextMerge(Without(s, used), step, Without(s', used))
  {
    hide *;
    if step.MergeStage? || step.MergeSwap? {
      MergePartOutside(s, step, s', used);
    } else {
      MergeMoveOutside(s, step, s', used);
    }
  }

  lemma MergePartOutside(s: Sys, step: Step, s': Sys, used: set<Day>)
    requires (step.MergeStage? || step.MergeSwap?) && NextMerge(s, step, s') && !WorksOn(s, step, used)
    ensures NextMerge(Without(s, used), step, Without(s', used))
  {
    hide Sorts, StagePart, SetParts;
    var m := s.merge;
    DirOutside(s, used, m.day);
    if step.MergeStage? {
      StageOutside(s, m.day, PartDir(step.data, Big), used);
    } else {
      ListOutside(s, m.day, s.partitions[m.day].parts - m.names + {m.part}, used);
    }
  }

  lemma MergeMoveOutside(s: Sys, step: Step, s': Sys, used: set<Day>)
    requires IsMergeStep(step) && !step.MergeStage? && !step.MergeSwap? && NextMerge(s, step, s') && !WorksOn(s, step, used)
    ensures NextMerge(Without(s, used), step, Without(s', used))
  {
    hide *;
    if step.MergeStageFails? || step.MergeRename? || step.MergeDelete? {
      MergeDirOutside(s, step, s', used);
    } else {
      MergeReadOutside(s, step, s', used);
    }
  }

  lemma MergeDirOutside(s: Sys, step: Step, s': Sys, used: set<Day>)
    requires (step.MergeStageFails? || step.MergeRename? || step.MergeDelete?) && NextMerge(s, step, s') && !WorksOn(s, step, used)
    ensures NextMerge(Without(s, used), step, Without(s', used))
  {
    hide UnstagePart, RenamePart, DirOf, SetDir;
    var d := s.merge.day;
    DirOutside(s, used, d);
    if step.MergeDelete? {
      var dd := DirOf(s.disk, d);
      ChangeOutside(s, used, d, dd.(dirs := dd.dirs - {step.part}), Partition({}, 0));
    } else {
      DirsOutside(s, d, s.merge.part, used);
    }
  }

  lemma MergeReadOutside(s: Sys, step: Step, s': Sys, used: set<Day>)
    requires IsMergeStep(step) && !step.MergeStage? && !step.MergeSwap? && !step.MergeStageFails? && !step.MergeRename? && !step.MergeDelete?
    requires NextMerge(s, step, s') && !WorksOn(s, step, used)
    ensures NextMerge(Without(s, used), step, Without(s', used))
  {
    hide MergesInto, DirOf, SmallParts;
    DirOutside(s, used, if step.MergeSnapshot? then step.day else s.merge.day);
  }

  lemma MinusBoth<V>(m: map<Day, V>, used: set<Day>, d: Day)
    ensures m - {d} - (used - {d}) == m - used - {d}
    ensures m - {d} - used == m - used - {d}
  {
  }

  lemma RetentionOutside(s: Sys, step: Step, s': Sys, used: set<Day>)
    requires IsRetentionStep(step) && !step.RetentionStart? && NextRetention(s, step, s')
    requires step.RetentionDropDir? ==> s.flush == FIdle && s.merge == MIdle
    ensures NextRetention(Without(s, used), step, Without(s', used))
    ensures step.RetentionDropDir? ==> NextRetention(Without(s, used), step, Without(s', used - {step.day}))
  {
    hide S.Dropped;
    if step.RetentionDropDir? {
      MinusBoth(s.disk.days, used, step.day);
      MinusBoth(s.partitions, used, step.day);
    }
  }

  lemma CrashOutside(s: Sys, s': Sys, used: set<Day>)
    requires NextCrash(s, s')
    ensures NextCrash(Without(s, used), Without(s', used))
  {
    hide S.Replays, IsNext;
    assert CleanDisk(Without(s, used).disk).days == CleanDisk(s.disk).days - used;
    forall d | d in Without(s, used).disk.days
      ensures OpensAs(Cleaned(Without(s, used).disk.days[d]), Without(s', used).partitions[d])
    {
    }
  }

  /** Inside a used day a flush is a flush that has got no further than the day's index. */
  lemma FlushInside(s: Sys, step: Step, s': Sys, used: set<Day>)
    requires IsFlushStep(step) && s.flush.FDay? && s.flush.day in used && s.flush.day in s.partitions && NextFlush(s, step, s')
    ensures var w, w' := Without(s, used), Without(s', used);
            && w.flush.FDay? && w.flush.stage == Indexed
            && if step.FlushPublish? then w' == w.(flush := FVisiting(w.flush.batch, w.flush.todo - {w.flush.day}))
               else if step.FlushManifestFails? then NextFlush(w, FlushDayFails(w.flush.day, step.data), w')
               else if step.FlushDayFails? then NextFlush(w, step, w')
               else w' == w
  {
    assert WorksOn(s, step, used);
    hide *;
    if step.FlushStage? || step.FlushPublish? {
      PartInside(s, step, s', used);
    } else if step.FlushOpenDay? || step.FlushManifestFails? {
      OpenInside(s, step, s', used);
    } else {
      MoveInside(s, step, s', used);
    }
  }

  lemma PartInside(s: Sys, step: Step, s': Sys, used: set<Day>)
    requires (step.FlushStage? || step.FlushPublish?) && NextFlush(s, step, s') && WorksOn(s, step, used)
    ensures var w, w' := Without(s, used), Without(s', used);
            && w.flush.FDay? && w.flush.stage == Indexed
            && if step.FlushPublish? then w' == w.(flush := FVisiting(w.flush.batch, w.flush.todo - {w.flush.day}))
               else w' == w
  {
    hide DayPart, Sorts, StagePart, SetParts;
    var f := s.flush;
    if step.FlushStage? {
      PartsInside(s, used, f.day, PartDir(step.data, Small), {});
    } else {
      PartsInside(s, used, f.day, PartDir(map[], Small), s.partitions[f.day].parts + {f.stage.part});
    }
  }

  lemma OpenInside(s: Sys, step: Step, s': Sys, used: set<Day>)
    requires (step.FlushOpenDay? || step.FlushManifestFails?) && NextFlush(s, step, s') && WorksOn(s, step, used)
    requires s.flush.day in s.partitions
    ensures var w, w' := Without(s, used), Without(s', used);
            && w.flush.FDay? && w.flush.stage == Indexed
            && if step.FlushManifestFails? then NextFlush(w, FlushDayFails(w.flush.day, step.data), w')
               else w' == w
  {
    hide Joined, DayPart, Permutes, OpensAs, Cleaned;
    var d := s.flush.day;
    if step.FlushManifestFails? {
      PutOutside(s.partitions, used, d, s.partitions[d].(parts := s.partitions[d].parts + {s.flush.stage.part}));
    }
  }

  lemma MoveInside(s: Sys, step: Step, s': Sys, used: set<Day>)
    requires IsFlushStep(step) && !step.FlushStage? && !step.FlushPublish? && !step.FlushOpenDay? && !step.FlushManifestFails?
    requires NextFlush(s, step, s') && WorksOn(s, step, used)
    ensures var w, w' := Without(s, used), Without(s', used);
            && w.flush.FDay? && w.flush.stage == Indexed
            && if step.FlushDayFails? then NextFlush(w, step, w') else w' == w
  {
    hide *;
    MoveIs(s, step, s', used);
    if step.FlushRename? {
      RenameInside(s, s', used);
    } else {
      FailInside(s, step, s', used);
    }
  }

  lemma MoveIs(s: Sys, step: Step, s': Sys, used: set<Day>)
    requires IsFlushStep(step) && !step.FlushStage? && !step.FlushPublish? && !step.FlushOpenDay? && !step.FlushManifestFails?
    requires NextFlush(s, step, s') && WorksOn(s, step, used)
    ensures s.flush.FDay? && s.flush.day in used && (step.FlushRename? || step.FlushDayFails?)
  {
    hide RenamePart, UnstagePart, DirOf, Joined, Permutes, DayPart, S.Unindexed, S.Marked, EntriesFor;
  }

  lemma RenameInside(s: Sys, s': Sys, used: set<Day>)
    requires s.flush.FDay? && s.flush.day in used && NextFlush(s, FlushRename, s')
    ensures var w, w' := Without(s, used), Without(s', used); w.flush.FDay? && w.flush.stage == Indexed && w' == w
  {
    hide RenamePart;
    MovesInside(s, used, s.flush.day, s.flush.stage.part);
  }

  lemma FailInside(s: Sys, step: Step, s': Sys, used: set<Day>)
    requires s.flush.FDay? && s.flush.day in used && step.FlushDayFails? && NextFlush(s, step, s')
    ensures var w, w' := Without(s, used), Without(s', used);
            w.flush.FDay? && w.flush.stage == Indexed && NextFlush(w, step, w')
  {
    hide Joined, DayPart, Permutes, UnstagePart;
    if s.flush.stage.Staged? {
      MovesInside(s, used, s.flush.day, s.flush.stage.part);
    }
  }

  lemma MovesInside(s: Sys, used: set<Day>, d: Day, n: PartId)
    requires d in used
    ensures Without(s.(disk := UnstagePart(s.disk, d, n)), used) == Without(s, used)
    ensures n in DirOf(s.disk, d).staging ==> Without(s.(disk := RenamePart(s.disk, d, n)), used) == Without(s, used)
  {
    var dd := DirOf(s.disk, d);
    ChangeOutside(s, used, d, dd.(staging := dd.staging - {n}), Partition({}, 0));
    if n in dd.staging {
      ChangeOutside(s, used, d, dd.(staging := dd.staging - {n}, dirs := dd.dirs[n := dd.staging[n]]), Partition({}, 0));
    }
  }

  lemma PartsInside(s: Sys, used: set<Day>, d: Day, part: PartDir, parts: set<PartId>)
    requires d in used && d in s.partitions
    ensures Without(StagePart(s, d, part), used) == Without(SetParts(s, d, parts), used) == Without(s, used)
    ensures var t := StagePart(s, d, part); t == s.(disk := t.disk, partitions := t.partitions)
    ensures var t := SetParts(s, d, parts); t == s.(disk := t.disk, partitions := t.partitions)
  {
    var p, dd := s.partitions[d], DirOf(s.disk, d);
    ChangeOutside(s, used, d, dd.(staging := dd.staging[p.nextID := part]), p.(nextID := p.nextID + 1));
    ChangeOutside(s, used, d, dd.(manifest := parts), p.(parts := parts));
  }

  lemma MergeInside(s: Sys, step: Step, s': Sys, used: set<Day>)
    requires IsMergeStep(step) && NextMerge(s, step, s') && WorksOn(s, step, used)
    ensures Without(s', used) == Without(s, used)
  {
    hide *;
    if step.MergeStage? || step.MergeSwap? {
      MergePartInside(s, step, s', used);
    } else if step.MergeStageFails? || step.MergeRename? || step.MergeDelete? {
      MergeDirInside(s, step, s', used);
    } else {
      MergePlainInside(s, step, s', used);
    }
  }

  lemma MergePartInside(s: Sys, step: Step, s': Sys, used: set<Day>)
    requires (step.MergeStage? || step.MergeSwap?) && NextMerge(s, step, s') && WorksOn(s, step, used)
    ensures Without(s', used) == Without(s, used)
  {
    hide Sorts, StagePart, SetParts;
    var m := s.merge;
    if step.MergeStage? {
      PartsInside(s, used, m.day, PartDir(step.data, Big), {});
    } else {
      PartsInside(s, used, m.day, PartDir(map[], Big), s.partitions[m.day].parts - m.names + {m.part});
    }
  }

  lemma MergeDirInside(s: Sys, step: Step, s': Sys, used: set<Day>)
    requires (step.MergeStageFails? || step.MergeRename? || step.MergeDelete?) && NextMerge(s, step, s') && WorksOn(s, step, used)
    ensures Without(s', used) == Without(s, used)
  {
    hide Without;
    var d := s.merge.day;
    var t := s.(disk := s'.disk);
    assert Without(t, used) == Without(s, used) by {
      if step.MergeDelete? {
        var dd := DirOf(s.disk, d);
        ChangeOutside(s, used, d, dd.(dirs := dd.dirs - {step.part}), Partition({}, 0));
      } else {
        MovesInside(s, used, d, s.merge.part);
      }
    }
    MergeFree(t, used, s'.merge);
  }

  /** How far the merge on a used day has come makes no difference. */
  lemma MergeFree(s: Sys, used: set<Day>, m: Merge)
    requires s.merge != MIdle && s.merge.day in used && (m != MIdle ==> m.day in used)
    ensures Without(s.(merge := m), used) == Without(s, used)
  {
  }

  lemma MergePlainInside(s: Sys, step: Step, s': Sys, used: set<Day>)
    requires IsMergeStep(step) && !step.MergeStage? && !step.MergeSwap? && !step.MergeStageFails? && !step.MergeRename? && !step.MergeDelete?
    requires NextMerge(s, step, s') && WorksOn(s, step, used)
    ensures Without(s', used) == Without(s, used)
  {
    hide MergesInto, SmallParts, Readable;
  }

  // ---------- what every move keeps ----------

  ghost predicate KeysOk(s: Sys) {
    s.partitions.Keys == s.disk.days.Keys
  }

  /** Dropped partitions, and the days their merges have used, lie before the cutoff. */
  ghost predicate OldOk(p: State) {
    && p.used <= p.sys.partitions.Keys
    && (forall d :: d in p.used ==> d < p.sys.cutoff)
    && (forall i :: 0 <= i < |p.handles| ==> p.handles[i].day < p.sys.cutoff)
  }

  /** Retention excludes flushes and both kinds of merge, and a merge excludes any other. */
  ghost predicate AloneOk(s: Sys, m: Stale) {
    && (s.retention != RIdle ==> s.flush == FIdle && s.merge == MIdle && m == SIdle)
    && (s.retention.RDirGone? || s.retention.RIndexGone? ==> s.retention.day !in s.partitions)
    && (m != SIdle ==> s.merge == MIdle)
  }

  /** Flushes and merges work on open days. */
  ghost predicate WorkOk(s: Sys) {
    && (s.flush.FDay? && s.flush.stage != Indexed ==> s.flush.day in s.partitions)
    && (s.merge != MIdle ==> s.merge.day in s.partitions)
  }

  ghost predicate StaleOk(p: State) {
    var m := p.stale;
    m != SIdle ==>
      && m.day in p.sys.partitions && m.h < |p.handles| && p.handles[m.h].day == m.day
      && (!m.SNames? && !m.SRead? ==> m.day in p.used)
  }

  ghost predicate DirsOk(d: Day, dd: DayDir, forward: Entries, inverted: map<Day, Entries>) {
    PartsOk(d, dd.dirs, forward, inverted) && PartsOk(d, dd.staging, forward, inverted)
  }

  /** In every directory, used or not, each series is durably named and each sample is of the day. */
  ghost predicate AllDirsOk(disk: Disk) {
    forall d :: d in disk.days ==> DirsOk(d, disk.days[d], disk.forward, disk.inverted)
  }

  ghost predicate ReadOk(disk: Disk, m: Merge, st: Stale) {
    && (m.MRead? ==> PartOk(m.day, m.merged, disk.forward, disk.inverted))
    && (st.SRead? ==> PartOk(st.day, st.merged, disk.forward, disk.inverted))
  }

  /** What can be said of all days. */
  ghost predicate Aside(p: State) {
    && KeysOk(p.sys) && OldOk(p) && AloneOk(p.sys, p.stale) && WorkOk(p.sys) && StaleOk(p)
    && AllDirsOk(p.sys.disk) && ReadOk(p.sys.disk, p.sys.merge, p.stale)
  }

  /** But for the days used, the engine is in good order. */
  ghost predicate Good(p: State) {
    Inv(Without(p.sys, p.used)) && Aside(p)
  }

  // ---------- the directories ----------

  lemma DirsGrow(disk: Disk, disk': Disk, m: Merge, st: Stale)
    requires AllDirsOk(disk) && ReadOk(disk, m, st) && disk'.days == disk.days && disk.forward.Keys <= disk'.forward.Keys
    requires forall d :: d in disk.inverted ==> d in disk'.inverted && disk.inverted[d].Keys <= disk'.inverted[d].Keys
    ensures AllDirsOk(disk') && ReadOk(disk', m, st)
  {
  }

  lemma DirsPut(disk: Disk, d: Day, dd: DayDir)
    requires AllDirsOk(disk) && DirsOk(d, dd, disk.forward, disk.inverted)
    ensures AllDirsOk(SetDir(disk, d, dd))
  {
    hide DirsOk;
  }

  lemma DirAt(disk: Disk, d: Day)
    requires AllDirsOk(disk)
    ensures DirsOk(d, DirOf(disk, d), disk.forward, disk.inverted)
  {
    hide PartOk;
  }

  lemma StagingPut(disk: Disk, d: Day, n: PartId, part: PartDir)
    requires AllDirsOk(disk) && PartOk(d, part.data, disk.forward, disk.inverted)
    ensures var dd := DirOf(disk, d); AllDirsOk(SetDir(disk, d, dd.(staging := dd.staging[n := part])))
  {
    DirAt(disk, d);
    hide PartOk, AllDirsOk;
    var dd := DirOf(disk, d);
    DirsPut(disk, d, dd.(staging := dd.staging[n := part]));
  }

  lemma DirsMoved(disk: Disk, d: Day, n: PartId, parts: set<PartId>)
    requires AllDirsOk(disk)
    ensures AllDirsOk(UnstagePart(disk, d, n))
    ensures n in DirOf(disk, d).staging ==> AllDirsOk(RenamePart(disk, d, n))
    ensures var dd := DirOf(disk, d);
            AllDirsOk(SetDir(disk, d, dd.(manifest := parts))) && AllDirsOk(SetDir(disk, d, dd.(dirs := dd.dirs - {n})))
  {
    DirAt(disk, d);
    hide PartOk, AllDirsOk;
    var dd := DirOf(disk, d);
    DirsPut(disk, d, dd.(staging := dd.staging - {n}));
    DirsPut(disk, d, dd.(manifest := parts));
    DirsPut(disk, d, dd.(dirs := dd.dirs - {n}));
    if n in dd.staging {
      DirsPut(disk, d, dd.(staging := dd.staging - {n}, dirs := dd.dirs[n := dd.staging[n]]));
    }
  }

  /** What a flush is about to stage is durably named. */
  lemma FlushPartOk(s: Sys, used: set<Day>, data: Series)
    requires Inv(Without(s, used)) && s.flush.FDay? && Sorts(data, DayPart(s.flush.batch, s.flush.day))
    ensures PartOk(s.flush.day, data, s.disk.forward, s.disk.inverted)
  {
    var w := Without(s, used);
    FlushNamed(w);
    hide Inv, DayPart, Sorts;
    DayPartOk(w.flush, w.flush.day, s.disk.forward, s.disk.inverted);
    SortsPartOk(s.flush.day, data, DayPart(s.flush.batch, s.flush.day), s.disk.forward, s.disk.inverted);
  }

  lemma FlushNamed(s: Sys)
    requires Inv(s) && s.flush.FDay?
    ensures s.flush.batch.Keys <= s.disk.forward.Keys
    ensures DayPart(s.flush.batch, s.flush.day).Keys <= InvertedOf(s.disk.inverted, s.flush.day).Keys
  {
    hide TodoOk, RegistryOk, DurableOk, PersistedOk, FindableOk, DaysOk, MergeOk, RetentionOk, Sorts, DayPart;
  }

  lemma FlushDirs(s: Sys, step: Step, s': Sys, used: set<Day>, st: Stale)
    requires Inv(Without(s, used)) && AllDirsOk(s.disk) && ReadOk(s.disk, s.merge, st) && IsFlushStep(step) && NextFlush(s, step, s')
    ensures AllDirsOk(s'.disk) && ReadOk(s'.disk, s.merge, st)
  {
    hide *;
    if step.FlushSaveRegistry? || step.FlushIndexDay? {
      if step.FlushSaveRegistry? {
        SavesRegistry(s, s');
      } else {
        IndexesDay(s, step, s');
      }
      DirsGrow(s.disk, s'.disk, s.merge, st);
    } else {
      if step.FlushStage? {
        FlushStages(s, step, s', used);
      } else {
        FlushMovesDirs(s, step, s');
      }
      SameRead(s.disk, s'.disk, s.merge, st);
    }
  }

  lemma SameRead(disk: Disk, disk': Disk, m: Merge, st: Stale)
    requires ReadOk(disk, m, st) && disk'.forward == disk.forward && disk'.inverted == disk.inverted
    ensures ReadOk(disk', m, st)
  {
  }

  lemma SavesRegistry(s: Sys, s': Sys)
    requires NextFlush(s, FlushSaveRegistry, s')
    ensures s'.disk.days == s.disk.days && s.disk.forward.Keys <= s'.disk.forward.Keys && s'.disk.inverted == s.disk.inverted
  {
    hide DaysOf;
  }

  lemma IndexesDay(s: Sys, step: Step, s': Sys)
    requires step.FlushIndexDay? && NextFlush(s, step, s')
    ensures s'.disk.days == s.disk.days && s'.disk.forward == s.disk.forward
    ensures forall d :: d in s.disk.inverted ==> d in s'.disk.inverted && s.disk.inverted[d].Keys <= s'.disk.inverted[d].Keys
  {
    hide DayPart, S.Unindexed, S.Marked, EntriesFor, InvertedOf;
    IndexGrows(s.disk.inverted, step.day, EntriesFor(s.reg, S.Unindexed(s.reg, step.day, DayPart(s.flush.batch, step.day).Keys)));
  }

  lemma IndexGrows(inverted: map<Day, Entries>, day: Day, more: Entries)
    ensures var grown := inverted[day := InvertedOf(inverted, day) + more];
            forall d :: d in inverted ==> d in grown && inverted[d].Keys <= grown[d].Keys
  {
  }

  lemma FlushStages(s: Sys, step: Step, s': Sys, used: set<Day>)
    requires Inv(Without(s, used)) && AllDirsOk(s.disk) && step.FlushStage? && NextFlush(s, step, s')
    ensures AllDirsOk(s'.disk) && s'.disk.forward == s.disk.forward && s'.disk.inverted == s.disk.inverted
  {
    hide Inv, Without, AllDirsOk, PartOk, DayPart, Sorts;
    FlushPartOk(s, used, step.data);
    StagingPut(s.disk, s.flush.day, s.partitions[s.flush.day].nextID, PartDir(step.data, Small));
  }

  lemma FlushMovesDirs(s: Sys, step: Step, s': Sys)
    requires AllDirsOk(s.disk) && IsFlushStep(step) && !step.FlushSaveRegistry? && !step.FlushIndexDay? && !step.FlushStage?
    requires NextFlush(s, step, s')
    ensures AllDirsOk(s'.disk) && s'.disk.forward == s.disk.forward && s'.disk.inverted == s.disk.inverted
  {
    hide AllDirsOk, Joined, DayPart, Permutes, DirOf;
    var f := s.flush;
    if step.FlushOpenDay? {
      OpensDir(s.disk, f.day);
    } else if step.FlushRename? {
      DirsMoved(s.disk, f.day, f.stage.part, {});
    } else if step.FlushPublish? {
      DirsMoved(s.disk, f.day, 0, s.partitions[f.day].parts + {f.stage.part});
    } else if step.FlushDayFails? && f.FDay? && f.stage.Staged? {
      DirsMoved(s.disk, f.day, f.stage.part, {});
    }
  }

  lemma OpensDir(disk: Disk, d: Day)
    requires AllDirsOk(disk)
    ensures AllDirsOk(SetDir(disk, d, Cleaned(DirOf(disk, d))))
  {
    DirAt(disk, d);
    hide AllDirsOk, PartOk;
    DirsPut(disk, d, Cleaned(DirOf(disk, d)));
  }

  lemma MergeDirs(s: Sys, step: Step, s': Sys, st: Stale)
    requires AllDirsOk(s.disk) && ReadOk(s.disk, s.merge, st) && IsMergeStep(step) && NextMerge(s, step, s')
    ensures AllDirsOk(s'.disk) && ReadOk(s'.disk, s'.merge, st)
  {
    hide AllDirsOk, PartOk, DirsOk, PartsOk, Sorts, MergesInto, SmallParts;
    var m := s.merge;
    if step.MergeRead? {
      ReadPartOk(s.disk, m.day, m.names, step.merged);
    } else if step.MergeStage? {
      SortsPartOk(m.day, step.data, m.merged, s.disk.forward, s.disk.inverted);
      StagingPut(s.disk, m.day, s.partitions[m.day].nextID, PartDir(step.data, Big));
    } else if step.MergeSwap? {
      DirsMoved(s.disk, m.day, 0, s.partitions[m.day].parts - m.names + {m.part});
    } else if m.MStaged? {
      DirsMoved(s.disk, m.day, m.part, {});
    } else if step.MergeDelete? {
      DirsMoved(s.disk, m.day, step.part, {});
    }
  }

  lemma ReadPartOk(disk: Disk, d: Day, names: set<PartId>, merged: Series)
    requires AllDirsOk(disk) && MergesInto(names, DirOf(disk, d).dirs, merged)
    ensures PartOk(d, merged, disk.forward, disk.inverted)
  {
    DirAt(disk, d);
    MergedPartOk(d, names, DirOf(disk, d).dirs, merged, disk.forward, disk.inverted);
  }

  // ---------- what is under way, and where ----------

  lemma FlushSide(s: Sys, step: Step, s': Sys)
    requires KeysOk(s) && WorkOk(s) && IsFlushStep(step) && NextFlush(s, step, s')
    ensures KeysOk(s') && WorkOk(s') && s.partitions.Keys <= s'.partitions.Keys && s'.retention == s.retention && s'.cutoff == s.cutoff
    ensures s'.merge == s.merge
    ensures s.flush != FIdle || s.retention == RIdle
  {
    hide *;
    if step.FlushStage? || step.FlushRename? || step.FlushPublish? || step.FlushDayFails? {
      DirSide(s, step, s');
    } else if step.FlushOpenDay? {
      OpenSide(s, s');
    } else {
      PlainSide(s, step, s');
    }
  }

  lemma DirSide(s: Sys, step: Step, s': Sys)
    requires step.FlushStage? || step.FlushRename? || step.FlushPublish? || step.FlushDayFails?
    requires KeysOk(s) && WorkOk(s) && NextFlush(s, step, s')
    ensures KeysOk(s') && WorkOk(s') && s.partitions.Keys <= s'.partitions.Keys && s'.retention == s.retention && s'.cutoff == s.cutoff
    ensures s'.merge == s.merge && s.flush != FIdle
  {
    hide Joined, DayPart, Sorts, Permutes;
  }

  lemma OpenSide(s: Sys, s': Sys)
    requires KeysOk(s) && WorkOk(s) && NextFlush(s, FlushOpenDay, s')
    ensures KeysOk(s') && WorkOk(s') && s.partitions.Keys <= s'.partitions.Keys && s'.retention == s.retention && s'.cutoff == s.cutoff
    ensures s'.merge == s.merge && s.flush != FIdle
  {
    hide IsNext, Cleaned, DirOf;
  }

  lemma PlainSide(s: Sys, step: Step, s': Sys)
    requires IsFlushStep(step) && !step.FlushOpenDay? && !step.FlushStage? && !step.FlushRename? && !step.FlushPublish? && !step.FlushDayFails?
    requires KeysOk(s) && WorkOk(s) && NextFlush(s, step, s')
    ensures KeysOk(s') && WorkOk(s') && s.partitions.Keys <= s'.partitions.Keys && s'.retention == s.retention && s'.cutoff == s.cutoff
    ensures s'.merge == s.merge
    ensures s.flush != FIdle || s.retention == RIdle
  {
    hide Joined, DayPart, Permutes, DaysOf, S.Unindexed, S.Marked, EntriesFor, InvertedOf, IsNext, Cleaned, DirOf;
  }

  lemma MergeSide(s: Sys, step: Step, s': Sys)
    requires KeysOk(s) && WorkOk(s) && IsMergeStep(step) && NextMerge(s, step, s')
    ensures KeysOk(s') && WorkOk(s') && s.partitions.Keys <= s'.partitions.Keys && s'.retention == s.retention && s'.cutoff == s.cutoff
    ensures s'.flush == s.flush
    ensures s.merge != MIdle || (step.MergeSnapshot? && s.retention == RIdle)
  {
    hide Sorts, MergesInto, SmallParts;
  }

  lemma StaleKept(p: State, s': Sys)
    requires OldOk(p) && StaleOk(p) && p.sys.partitions.Keys <= s'.partitions.Keys && p.sys.cutoff <= s'.cutoff
    ensures OldOk(p.(sys := s')) && StaleOk(p.(sys := s'))
  {
  }

  // ---------- the engine without the days used ----------

  lemma QueryFree(s: Sys, q: Query)
    requires Inv(s)
    ensures Inv(s.(query := q))
  {
    hide TodoOk, RegistryOk, IdsOk, DurableOk, PersistedOk, FindableOk, DaysOk, FlushOk, MergeOk, RetentionOk;
  }

  /** A flush that has no more to do with its day. */
  lemma SkipsDay(s: Sys)
    requires Inv(s) && s.flush.FDay? && s.flush.stage == Indexed
    ensures Inv(s.(flush := FVisiting(s.flush.batch, s.flush.todo - {s.flush.day})))
  {
    hide RegistryOk, IdsOk, DurableOk, PersistedOk, DaysOk, DaysOf, AppendOk;
    hide FindableOk;
    var f, f' := s.flush, FVisiting(s.flush.batch, s.flush.todo - {s.flush.day});
    SameBatch(s.reg, s.disk.inverted, s.mem, s.appends, f, f', s.cutoff);
    SameDrained(s.reg, s.disk.forward, f, f');
    MergeNewFlush(s.merge, f, f', s.disk.days, s.partitions);
    SkipsIds(s.reg, s.disk.forward, s.mem, s.appends, f, f');
    hide MergeOk;
  }

  lemma SkipsIds(reg: S.State, forward: Entries, mem: Series, appends: map<nat, Append>, f: Flush, f': Flush)
    requires IdsOk(reg, forward, mem, appends, f) && f.FDay? && f'.FVisiting? && f'.batch == f.batch
    ensures IdsOk(reg, forward, mem, appends, f')
  {
  }

  lemma LaterPass(s: Sys, cutoff: Day, todo: set<Day>)
    requires Inv(s) && s.retention == RIdle && s.flush == FIdle && s.merge == MIdle && s.cutoff <= cutoff
    requires forall d :: d in todo ==> d < cutoff
    ensures Inv(s.(retention := RRun(todo), cutoff := cutoff))
  {
    LaterCutoff(s.reg, s.disk.inverted, s.mem, s.appends, s.flush, s.cutoff, cutoff);
    hide TodoOk, RegistryOk, IdsOk, DurableOk, FindableOk, DaysOk, FlushOk, MergeOk, S.Persisted;
  }

  /** Leaving out one more day. */
  lemma LeavesOut(s: Sys, d: Day)
    requires Inv(s) && (s.merge != MIdle ==> s.merge.day != d)
    ensures Inv(Without(s, {d}))
  {
    var w := Without(s, {d});
    hide DaysOf, AppendOk, DurableOk, Sorts, DayPart, MergesInto, SameCounts, S.Consistent, S.WellIndexed;
    FlushLeavesOut(s, d);
    MergeLeavesOut(s, d);
    hide FlushOk, MergeOk, DayOk, PartsOk;
    SameBatch(s.reg, s.disk.inverted, s.mem, s.appends, s.flush, w.flush, s.cutoff);
    hide FindableOk, PersistedOk;
  }

  lemma FlushLeavesOut(s: Sys, d: Day)
    requires FlushOk(s.flush, s.disk.days, s.disk.inverted, s.partitions)
    ensures var w := Without(s, {d}); FlushOk(w.flush, w.disk.days, w.disk.inverted, w.partitions)
  {
    hide Sorts, DayPart;
  }

  lemma MergeLeavesOut(s: Sys, d: Day)
    requires MergeOk(s.merge, s.flush, s.disk.days, s.partitions) && (s.merge != MIdle ==> s.merge.day != d)
    ensures var w := Without(s, {d}); MergeOk(w.merge, w.flush, w.disk.days, w.partitions)
  {
    hide MergesInto, SameCounts;
  }

  lemma WithoutMore(s: Sys, used: set<Day>, d: Day)
    ensures Without(Without(s, used), {d}) == Without(s, used + {d})
  {
    assert s.disk.days - used - {d} == s.disk.days - (used + {d});
    assert s.partitions - used - {d} == s.partitions - (used + {d});
  }

  lemma FlushOutside(s: Sys, step: Step, s': Sys, used: set<Day>)
    requires IsFlushStep(step) && NextFlush(s, step, s') && !WorksOn(s, step, used)
    ensures NextFlush(Without(s, used), step, Without(s', used))
  {
    hide NextFlush, Without;
    if step.FlushStage? || step.FlushRename? || step.FlushPublish? || step.FlushManifestFails? || step.FlushDayFails? {
      DayOutside(s, step, s', used);
    } else if step.FlushOpenDay? {
      OpensFlush(s, s');
      OpenOutside(s, s', used);
    } else {
      WholeOutside(s, step, s', used);
    }
  }

  lemma OpensFlush(s: Sys, s': Sys)
    requires NextFlush(s, FlushOpenDay, s')
    ensures s.flush.FDay?
  {
  }

  lemma FlushRest(s: Sys, step: Step, s': Sys, used: set<Day>)
    requires Inv(Without(s, used)) && WorkOk(s) && used <= s.partitions.Keys && IsFlushStep(step) && NextFlush(s, step, s')
    ensures Inv(Without(s', used))
  {
    hide Inv, NextFlush, Without, WorkOk;
    if WorksOn(s, step, used) {
      assert s.flush.day in s.partitions;
      FlushInside(s, step, s', used);
      var w, w' := Without(s, used), Without(s', used);
      if step.FlushPublish? {
        SkipsDay(w);
      } else if step.FlushManifestFails? {
        FlushKeeps(w, FlushDayFails(w.flush.day, step.data), w');
      } else if step.FlushDayFails? {
        FlushKeeps(w, step, w');
      }
    } else {
      FlushOutside(s, step, s', used);
      FlushKeeps(Without(s, used), step, Without(s', used));
    }
  }

  lemma MergeRest(s: Sys, step: Step, s': Sys, used: set<Day>)
    requires Inv(Without(s, used)) && IsMergeStep(step) && NextMerge(s, step, s')
    ensures Inv(Without(s', used))
  {
    hide Inv, NextMerge, Without;
    if WorksOn(s, step, used) {
      MergeInside(s, step, s', used);
    } else {
      MergeOutside(s, step, s', used);
      MergeKeeps(Without(s, used), step, Without(s', used));
    }
  }

  /** A retention pass may drop days used and others. */
  lemma RetentionRest(s: Sys, step: Step, s': Sys, used: set<Day>)
    requires Inv(Without(s, used)) && AloneOk(s, SIdle) && IsRetentionStep(step) && NextRetention(s, step, s')
    ensures Inv(Without(s', if step.RetentionDropDir? then used - {step.day} else used))
  {
    hide Inv, S.Dropped;
    if step.RetentionStart? {
      var w := Without(s, used);
      LaterPass(w, s'.cutoff, s'.retention.todo);
    } else {
      hide NextRetention, Without;
      PassAlone(s, step, s');
      RetentionOutside(s, step, s', used);
      RetentionKeeps(Without(s, used), step, Without(s', if step.RetentionDropDir? then used - {step.day} else used));
    }
  }

  lemma PassAlone(s: Sys, step: Step, s': Sys)
    requires AloneOk(s, SIdle) && IsRetentionStep(step) && NextRetention(s, step, s')
    ensures s.flush == FIdle && s.merge == MIdle
  {
    hide S.Dropped;
  }

  lemma QueryFrame(s: Sys, step: Step, s': Sys)
    requires IsQueryStep(step) && NextQuery(s, step, s')
    ensures s' == s.(query := s'.query)
  {
    hide ScansTo, BufferRange, S.Matching, Readable;
  }

  lemma QueryRest(s: Sys, step: Step, s': Sys, used: set<Day>)
    requires Inv(Without(s, used)) && IsQueryStep(step) && NextQuery(s, step, s')
    ensures Inv(Without(s', used))
  {
    QueryFrame(s, step, s');
    hide Inv, NextQuery;
    QueryFree(Without(s, used), s'.query);
    assert Without(s', used) == Without(s, used).(query := s'.query);
  }

  lemma OtherRest(s: Sys, step: Step, s': Sys, used: set<Day>)
    requires Inv(Without(s, used)) && Next(s, step, s')
    requires step.AppendResolve? || step.AppendIndex? || step.AppendBuffer? || step.Crash?
    ensures Inv(Without(s', used))
  {
    hide Inv, Without, NextAppend, NextCrash;
    var w, w' := Without(s, used), Without(s', used);
    if step.Crash? {
      CrashOutside(s, s', used);
    } else {
      AppendOutside(s, step, s', used);
    }
    StepKeeps(w, step, w');
  }

  lemma NotStale(p: State, step: Step, s': Sys)
    requires AloneOk(p.sys, p.stale) && IsRetentionStep(step) && NextRetention(p.sys, step, s')
    requires step.RetentionStart? ==> p.stale == SIdle
    ensures p.stale == SIdle
  {
    hide S.Dropped;
  }

  /** Good and Aside, part by part. */
  lemma GoodParts(p: State)
    requires Good(p)
    ensures Inv(Without(p.sys, p.used)) && Aside(p)
    ensures KeysOk(p.sys) && OldOk(p) && AloneOk(p.sys, p.stale) && WorkOk(p.sys) && StaleOk(p)
    ensures AllDirsOk(p.sys.disk) && ReadOk(p.sys.disk, p.sys.merge, p.stale) && p.used <= p.sys.partitions.Keys
  {
    hide Inv, Without, KeysOk, AloneOk, WorkOk, StaleOk, AllDirsOk, ReadOk;
  }

  lemma GoodOf(p: State)
    requires Inv(Without(p.sys, p.used)) && KeysOk(p.sys) && OldOk(p) && AloneOk(p.sys, p.stale) && WorkOk(p.sys) && StaleOk(p)
    requires AllDirsOk(p.sys.disk) && ReadOk(p.sys.disk, p.sys.merge, p.stale)
    ensures Good(p)
  {
    hide Inv, Without, KeysOk, OldOk, AloneOk, WorkOk, StaleOk, AllDirsOk, ReadOk;
  }

  lemma FlushApart(s: Sys, s': Sys, m: Stale)
    requires AloneOk(s, m) && s'.retention == s.retention && s'.merge == s.merge && (s.flush != FIdle || s.retention == RIdle)
    ensures AloneOk(s', m)
  {
  }

  lemma MergeApart(s: Sys, s': Sys, m: Stale)
    requires AloneOk(s, m) && s'.retention == s.retention && s'.flush == s.flush
    requires s.merge != MIdle || (s.retention == RIdle && m == SIdle)
    ensures AloneOk(s', m)
  {
  }

  /** What a step of the engine is, and where it leads. */
  lemma EngineMoves(p: State, step: Step, p': State)
    requires MovesEngine(p, step, p')
    ensures Next(p.sys, step, p'.sys) && p' == Around(p, step, p'.sys)
    ensures step.MergeSnapshot? || step.RetentionStart? ==> p.stale == SIdle
  {
    hide Next, Around;
  }

  lemma AroundPlain(p: State, step: Step, s': Sys)
    requires !step.RetentionDropDir? && !step.Crash?
    ensures Around(p, step, s') == p.(sys := s')
  {
  }

  lemma IsPlain(step: Step)
    ensures IsFlushStep(step) || IsMergeStep(step) || IsQueryStep(step) ==> !step.RetentionDropDir? && !step.Crash?
    ensures IsMergeStep(step) || IsQueryStep(step) ==> !IsFlushStep(step)
  {
  }

  lemma FlushGood(p: State, step: Step, p': State)
    requires Good(p) && MovesEngine(p, step, p') && IsFlushStep(step)
    ensures Good(p')
  {
    hide *;
    var s, s' := p.sys, p'.sys;
    GoodParts(p);
    EngineMoves(p, step, p');
    NextIs(s, step, s');
    IsPlain(step);
    AroundPlain(p, step, s');
    FlushRest(s, step, s', p.used);
    FlushDirs(s, step, s', p.used, p.stale);
    FlushSide(s, step, s');
    FlushApart(s, s', p.stale);
    StaleKept(p, s');
    GoodOf(p');
  }

  lemma MergeGood(p: State, step: Step, p': State)
    requires Good(p) && MovesEngine(p, step, p') && IsMergeStep(step)
    ensures Good(p')
  {
    hide *;
    var s, s' := p.sys, p'.sys;
    GoodParts(p);
    EngineMoves(p, step, p');
    NextIs(s, step, s');
    IsPlain(step);
    AroundPlain(p, step, s');
    MergeRest(s, step, s', p.used);
    MergeDirs(s, step, s', p.stale);
    MergeSide(s, step, s');
    MergeApart(s, s', p.stale);
    StaleKept(p, s');
    GoodOf(p');
  }

  lemma DropDirs(disk: Disk, days: map<Day, DayDir>)
    requires AllDirsOk(disk) && days.Keys <= disk.days.Keys && forall d :: d in days ==> days[d] == disk.days[d]
    ensures AllDirsOk(disk.(days := days))
  {
  }

  lemma IndexDropped(disk: Disk, d: Day)
    requires AllDirsOk(disk) && d !in disk.days
    ensures AllDirsOk(disk.(inverted := disk.inverted - {d}))
  {
  }

  lemma DropGood(p: State, step: Step, p': State)
    requires Good(p) && MovesEngine(p, step, p') && step.RetentionDropDir?
    ensures Good(p')
  {
    hide *;
    var s, s' := p.sys, p'.sys;
    GoodParts(p);
    EngineMoves(p, step, p');
    NextIs(s, step, s');
    DropIs(step);
    NotStale(p, step, s');
    RetentionRest(s, step, s', p.used);
    DropFrame(s, step, s');
    DropDirs(s.disk, s'.disk.days);
    PassOld(p);
    DropAside(p, step, s');
    assert p'.used == p.used - {step.day};
    GoodOf(p');
  }

  lemma DropIs(step: Step)
    ensures step.RetentionDropDir? ==> IsRetentionStep(step)
  {
  }

  lemma DropFrame(s: Sys, step: Step, s': Sys)
    requires step.RetentionDropDir? && NextRetention(s, step, s')
    ensures s.retention.RRun? && step.day in s.retention.todo
    ensures s'.disk == s.disk.(days := s'.disk.days) && s'.disk.days == s.disk.days - {step.day}
    ensures s' == s.(disk := s'.disk, partitions := s.partitions - {step.day}, retention := RDirGone(s.retention.todo - {step.day}, step.day))
  {
  }

  lemma DropAside(p: State, step: Step, s': Sys)
    requires KeysOk(p.sys) && OldOk(p) && AloneOk(p.sys, p.stale) && ReadOk(p.sys.disk, p.sys.merge, p.stale) && p.stale == SIdle
    requires step.RetentionDropDir? && NextRetention(p.sys, step, s') && forall d :: d in p.sys.retention.todo ==> d < p.sys.cutoff
    ensures var p' := Around(p, step, s');
            && p'.sys == s' && p'.used == p.used - (if step.day in p.sys.partitions then {step.day} else {})
            && KeysOk(s') && OldOk(p') && AloneOk(s', p'.stale) && WorkOk(s') && StaleOk(p') && ReadOk(s'.disk, s'.merge, p'.stale)
  {
    DropFrame(p.sys, step, s');
    hide NextRetention, PartOk;
  }

  lemma PassGood(p: State, step: Step, p': State)
    requires Good(p) && MovesEngine(p, step, p') && IsRetentionStep(step) && !step.RetentionDropDir?
    ensures Good(p')
  {
    hide *;
    var s, s' := p.sys, p'.sys;
    GoodParts(p);
    EngineMoves(p, step, p');
    NextIs(s, step, s');
    NotStale(p, step, s');
    PassPlain(step);
    AroundPlain(p, step, s');
    RetentionRest(s, step, s', p.used);
    PassDirs(s, step, s');
    PassAside(p, step, s');
    GoodOf(p');
  }

  lemma PassPlain(step: Step)
    requires IsRetentionStep(step)
    ensures !step.Crash? && !IsFlushStep(step) && !IsMergeStep(step)
  {
  }

  lemma PassDirs(s: Sys, step: Step, s': Sys)
    requires KeysOk(s) && AloneOk(s, SIdle) && AllDirsOk(s.disk)
    requires IsRetentionStep(step) && !step.RetentionDropDir? && NextRetention(s, step, s')
    ensures AllDirsOk(s'.disk)
  {
    hide AllDirsOk, S.Dropped;
    if step.RetentionDropIndex? {
      IndexDropped(s.disk, s.retention.day);
    }
  }

  lemma PassAside(p: State, step: Step, s': Sys)
    requires KeysOk(p.sys) && OldOk(p) && AloneOk(p.sys, p.stale) && WorkOk(p.sys) && p.stale == SIdle
    requires ReadOk(p.sys.disk, p.sys.merge, p.stale)
    requires IsRetentionStep(step) && !step.RetentionDropDir? && NextRetention(p.sys, step, s')
    ensures var p' := p.(sys := s');
            KeysOk(s') && OldOk(p') && AloneOk(s', p'.stale) && WorkOk(s') && StaleOk(p') && ReadOk(s'.disk, s'.merge, p'.stale)
  {
    hide S.Dropped, PartOk;
  }

  lemma PassOld(p: State)
    requires Good(p)
    ensures p.sys.retention != RIdle ==> forall d :: d in p.sys.retention.todo ==> d < p.sys.cutoff
  {
    hide TodoOk, RegistryOk, IdsOk, DurableOk, PersistedOk, FindableOk, DaysOk, FlushOk, MergeOk;
  }

  lemma CrashGood(p: State, step: Step, p': State)
    requires Good(p) && MovesEngine(p, step, p') && step.Crash?
    ensures Good(p')
  {
    hide *;
    var s, s' := p.sys, p'.sys;
    GoodParts(p);
    EngineMoves(p, step, p');
    NextIs(s, step, s');
    CrashedAround(p, step, s');
    OtherRest(s, step, s', p.used);
    CleanDirs(s.disk);
    CrashAside(p, s');
    GoodOf(p');
  }

  lemma CrashedAround(p: State, step: Step, s': Sys)
    requires step.Crash?
    ensures Around(p, step, s') == State(s', [], SIdle, p.used)
  {
  }

  lemma CrashAside(p: State, s': Sys)
    requires KeysOk(p.sys) && OldOk(p) && NextCrash(p.sys, s')
    ensures var p' := State(s', [], SIdle, p.used);
            && s'.disk == CleanDisk(p.sys.disk)
            && KeysOk(s') && OldOk(p') && AloneOk(s', SIdle) && WorkOk(s') && StaleOk(p') && ReadOk(s'.disk, s'.merge, SIdle)
  {
    hide S.Replays, OpensAs;
  }

  lemma CleanDirs(disk: Disk)
    requires AllDirsOk(disk)
    ensures AllDirsOk(CleanDisk(disk))
  {
  }

  /** A step that changes neither directories nor what is under way in them. */
  lemma AppendGood(p: State, step: Step, p': State)
    requires Good(p) && MovesEngine(p, step, p') && (step.AppendResolve? || step.AppendIndex? || step.AppendBuffer?)
    ensures Good(p')
  {
    hide *;
    var s, s' := p.sys, p'.sys;
    GoodParts(p);
    EngineMoves(p, step, p');
    AppendIs(step);
    NextIs(s, step, s');
    AroundPlain(p, step, s');
    OtherRest(s, step, s', p.used);
    AppendFrame(s, step, s');
    FrameAside(p, s');
    GoodOf(p');
  }

  lemma AppendIs(step: Step)
    requires step.AppendResolve? || step.AppendIndex? || step.AppendBuffer?
    ensures !IsFlushStep(step) && !IsMergeStep(step) && !IsRetentionStep(step) && !IsQueryStep(step)
  {
  }

  lemma FrameAside(p: State, s': Sys)
    requires KeysOk(p.sys) && OldOk(p) && AloneOk(p.sys, p.stale) && WorkOk(p.sys) && StaleOk(p)
    requires s' == p.sys.(reg := s'.reg, mem := s'.mem, appends := s'.appends, query := s'.query)
    ensures var p' := p.(sys := s'); KeysOk(s') && OldOk(p') && AloneOk(s', p'.stale) && WorkOk(s') && StaleOk(p')
  {
  }

  lemma QueryGood(p: State, step: Step, p': State)
    requires Good(p) && MovesEngine(p, step, p') && IsQueryStep(step)
    ensures Good(p')
  {
    hide *;
    var s, s' := p.sys, p'.sys;
    GoodParts(p);
    EngineMoves(p, step, p');
    NextIs(s, step, s');
    IsPlain(step);
    AroundPlain(p, step, s');
    QueryRest(s, step, s', p.used);
    QueryFrame(s, step, s');
    FrameAside(p, s');
    GoodOf(p');
  }

  lemma AppendFrame(s: Sys, step: Step, s': Sys)
    requires (step.AppendResolve? || step.AppendIndex? || step.AppendBuffer?) && NextAppend(s, step, s')
    ensures s' == s.(reg := s'.reg, mem := s'.mem, appends := s'.appends)
  {
    hide S.Resolved, S.ResolvedId, S.IndexedForDay, Joined;
  }

  /** Every step of the engine keeps the program in good order. */
  lemma EngineKeeps(p: State, step: Step, p': State)
    requires Good(p) && MovesEngine(p, step, p')
    ensures Good(p')
  {
    hide *;
    if IsFlushStep(step) {
      FlushGood(p, step, p');
    } else if IsMergeStep(step) {
      MergeGood(p, step, p');
    } else if step.RetentionDropDir? {
      DropGood(p, step, p');
    } else if IsRetentionStep(step) {
      PassGood(p, step, p');
    } else if IsQueryStep(step) {
      QueryGood(p, step, p');
    } else if step.Crash? {
      CrashGood(p, step, p');
    } else {
      EngineMoves(p, step, p');
      NextIs(p.sys, step, p'.sys);
      AppendGood(p, step, p');
    }
  }

  // ---------- the moves of a stale merge ----------

  /** The directory of a used day changes. */
  lemma WithDirKeeps(p: State, d: Day, dd: DayDir)
    requires Inv(Without(p.sys, p.used)) && d in p.used
    ensures Inv(Without(WithDir(p.sys, d, dd), p.used))
  {
    hide Inv;
    ChangeOutside(p.sys, p.used, d, dd, Partition({}, 0));
  }

  lemma StaleDir(p: State, move: Move, p': State)
    requires Good(p) && !move.Does? && MovesStale(p, move, p')
    requires move.StaleStageFails? || move.StaleRename? || move.StaleSwap? || move.StaleDelete?
    ensures Inv(Without(p'.sys, p'.used)) && AllDirsOk(p'.sys.disk)
    ensures p'.sys == WithDir(p.sys, p.stale.day, DirOf(p'.sys.disk, p.stale.day)) && p'.used == p.used
  {
    hide Inv, AllDirsOk;
    var s, m := p.sys, p.stale;
    var dd := DirOf(p'.sys.disk, m.day);
    WithDirKeeps(p, m.day, dd);
    match move {
      case StaleStageFails => DirsMoved(s.disk, m.day, m.part, {});
      case StaleRename => DirsMoved(s.disk, m.day, m.part, {});
      case StaleSwap => DirsMoved(s.disk, m.day, 0, p.handles[m.h].live.parts - m.names + {m.part});
      case StaleDelete(n) => DirsMoved(s.disk, m.day, n, {});
    }
  }

  lemma StaleDirAside(p: State, move: Move, p': State)
    requires Good(p) && !move.Does? && MovesStale(p, move, p')
    requires move.StaleStageFails? || move.StaleRename? || move.StaleSwap? || move.StaleDelete?
    requires AllDirsOk(p'.sys.disk)
    requires p'.sys == WithDir(p.sys, p.stale.day, DirOf(p'.sys.disk, p.stale.day)) && p'.used == p.used
    ensures Aside(p')
  {
    hide Inv, AllDirsOk, DirOf, UnstagePart, RenamePart, Renames, PartOk;
  }

  lemma StaleStaged(p: State, move: Move, p': State)
    requires Good(p) && move.StaleStage? && MovesStale(p, move, p')
    ensures Good(p')
  {
    hide Inv, AllDirsOk, PartOk, Sorts;
    var s, m := p.sys, p.stale;
    SortsPartOk(m.day, move.data, m.merged, s.disk.forward, s.disk.inverted);
    StagingPut(s.disk, m.day, p.handles[m.h].live.nextID, PartDir(move.data, Big));
    LeavesOut(Without(s, p.used), m.day);
    WithoutMore(s, p.used, m.day);
    WithDirKeeps(p.(used := p.used + {m.day}), m.day, DirOf(p'.sys.disk, m.day));
    assert p'.sys == WithDir(s, m.day, DirOf(p'.sys.disk, m.day));
    StaleStagedAside(p, move, p');
  }

  lemma StaleStagedAside(p: State, move: Move, p': State)
    requires Good(p) && move.StaleStage? && MovesStale(p, move, p') && AllDirsOk(p'.sys.disk)
    ensures Aside(p')
  {
    StaleDayOld(p);
    hide Inv, AllDirsOk, DirOf, PartOk, Sorts;
  }

  lemma StaleDayOld(p: State)
    requires Aside(p) && p.stale != SIdle
    ensures p.stale.day < p.sys.cutoff && p.sys.merge == MIdle
  {
    hide AllDirsOk, ReadOk;
  }

  lemma StaleReads(p: State, move: Move, p': State)
    requires Good(p) && !move.Does? && MovesStale(p, move, p')
    requires move.StaleSnapshot? || move.StaleRead? || move.StaleSwapFails? || move.StaleEnd?
    ensures Good(p')
  {
    if move.StaleRead? {
      ReadPartOk(p.sys.disk, p.stale.day, p.stale.names, move.merged);
    }
    hide Inv, AllDirsOk, PartOk, MergesInto;
    if move.StaleSnapshot? {
      SmallExist(p, move);
    }
  }

  lemma SmallExist(p: State, move: Move)
    requires KeysOk(p.sys) && move.StaleSnapshot? && move.h < |p.handles|
    requires |SmallParts(DirOf(p.sys.disk, p.handles[move.h].day), p.handles[move.h].live)| >= 2
    ensures p.handles[move.h].day in p.sys.partitions
  {
    NoneSmall(p.sys.disk, p.handles[move.h].day, p.handles[move.h].live);
  }

  lemma NoneSmall(disk: Disk, d: Day, live: Partition)
    ensures d !in disk.days ==> |SmallParts(DirOf(disk, d), live)| == 0
  {
    assert d !in disk.days ==> SmallParts(DirOf(disk, d), live) == {};
  }

  /** Every move keeps the program in good order. */
  lemma MoveKeeps(p: State, move: Move, p': State)
    requires Good(p) && Moves(p, move, p')
    ensures Good(p')
  {
    if move.Does? {
      hide Good, MovesEngine;
      EngineKeeps(p, move.step, p');
    } else if move.StaleStage? {
      hide Good, MovesStale;
      StaleStaged(p, move, p');
    } else if move.StaleSnapshot? || move.StaleRead? || move.StaleSwapFails? || move.StaleEnd? {
      hide Good, MovesStale;
      StaleReads(p, move, p');
    } else {
      hide Inv, Aside, MovesStale;
      StaleDir(p, move, p');
      StaleDirAside(p, move, p');
    }
  }

  /** The engine by itself, at rest. */
  lemma AtRestGood(s: Sys)
    requires Inv(s) && s.flush == FIdle && s.merge == MIdle && s.retention == RIdle
    ensures Good(State(s, [], SIdle, {}))
  {
    assert s.disk.days - {} == s.disk.days && s.partitions - {} == s.partitions;
    assert Without(s, {}) == s;
    hide TodoOk, RegistryOk, IdsOk, DurableOk, PersistedOk, FindableOk, FlushOk, MergeOk, RetentionOk, DayOk, PartOk;
  }

  lemma BeginsGood(p: State)
    requires Begins(p)
    ensures Good(p)
  {
    InitInv(p.sys);
    assert p.sys.disk.days - {} == p.sys.disk.days && p.sys.partitions - {} == p.sys.partitions;
    assert Without(p.sys, {}) == p.sys;
    hide Inv, S.Replays;
  }

  lemma RunMove(states: seq<State>, moves: seq<Move>, i: nat)
    requires IsRun(states, moves) && i < |moves|
    ensures Moves(states[i], moves[i], states[i + 1])
  {
    hide Moves, Begins;
  }

  /** At every point of every run the program is in good order. */
  lemma {:induction false} RunGood(states: seq<State>, moves: seq<Move>, i: nat)
    requires IsRun(states, moves) && i < |states|
    ensures Good(states[i])
  {
    hide Good, Moves, Begins;
    if i == 0 {
      BeginsGood(states[0]);
    } else {
      RunGood(states, moves, i - 1);
      RunMove(states, moves, i - 1);
      MoveKeeps(states[i - 1], moves[i - 1], states[i]);
    }
  }
}
