/** Whether every listed part has its directory: true of every run up to the moment a merge of a dropped
    partition saves its manifest over that of the partition now open for the same day, and false then. */
module ProgramListed {
  import opened Contents
  import opened Engine
  import opened EngineInvariant
  import opened Part
  import opened Program
  import opened SortedIds
  import S = Series

  /** Every part in the manifest of day d is listed, and every listed part has its directory. */
  ghost predicate PartsListed(s: Sys, d: Day) {
    d in s.partitions ==>
      d in s.disk.days && s.disk.days[d].manifest <= s.partitions[d].parts <= s.disk.days[d].dirs.Keys
  }

  /** The move is the swap of a merge of a dropped partition of day d. */
  predicate SwapsOn(p: State, move: Move, d: Day) {
    move == StaleSwap && p.stale.SRenamed? && p.stale.day == d
  }

  // ---------- the live partition of one day ----------

  ghost predicate MergeLive(m: Merge, f: Flush, d: Day, live: Partition, dirs: map<PartId, PartDir>) {
    m != MIdle && m.day == d ==>
      && (!m.MDeleting? ==> m.names <= live.parts)
      && (m.MDeleting? ==> m.names !! live.parts && forall n :: n in m.names ==> n < live.nextID && !IsFlushPart(f, d, n))
      && (m.MStaged? || m.MRenamed? ==> m.part < live.nextID && m.part !in live.parts && !IsFlushPart(f, d, m.part))
      && (m.MRenamed? ==> m.part in dirs)
  }

  ghost predicate FlushLive(f: Flush, d: Day, live: Partition, dirs: map<PartId, PartDir>) {
    forall n: PartId :: IsFlushPart(f, d, n) ==> n < live.nextID && n !in live.parts && (f.stage.Renamed? ==> n in dirs)
  }

  ghost predicate StaleLive(st: Stale, f: Flush, d: Day, live: Partition, dirs: map<PartId, PartDir>) {
    st.SRenamed? && st.day == d ==>
      st.part in dirs && st.part !in live.parts && !(IsFlushPart(f, d, st.part) && f.stage.Renamed?)
  }

  /** The open partition and the directory of a day agree, and nothing under way will change that. */
  ghost predicate DayLive(d: Day, live: Partition, dd: DayDir, f: Flush, m: Merge, st: Stale) {
    && dd.manifest <= live.parts <= dd.dirs.Keys
    && (forall n :: n in live.parts ==> n < live.nextID)
    && FlushLive(f, d, live, dd.dirs) && MergeLive(m, f, d, live, dd.dirs) && StaleLive(st, f, d, live, dd.dirs)
  }

  ghost predicate Live(p: State, d: Day) {
    && (d in p.sys.partitions && d in p.sys.disk.days ==>
          DayLive(d, p.sys.partitions[d], p.sys.disk.days[d], p.sys.flush, p.sys.merge, p.stale))
    && !(p.stale.SDeleting? && p.stale.day == d)
  }

  lemma LiveListed(p: State, d: Day)
    requires Good(p) && Live(p, d)
    ensures PartsListed(p.sys, d)
  {
    hide Inv, AllDirsOk, ReadOk, FlushLive, MergeLive, StaleLive;
  }

  // ---------- flushes ----------

  /** A flush that is not working on a part of day d. */
  lemma OtherFlush(d: Day, live: Partition, dd: DayDir, f: Flush, f': Flush, m: Merge, st: Stale)
    requires DayLive(d, live, dd, f, m, st)
    requires f'.FDay? ==> f'.stage == Indexed || f'.stage == Opened || f'.day != d
    ensures DayLive(d, live, dd, f', m, st)
  {
  }

  lemma StagesPart(d: Day, live: Partition, dd: DayDir, f: Flush, m: Merge, st: Stale, part: PartDir)
    requires DayLive(d, live, dd, f, m, st) && f.FDay? && f.day == d
    ensures var n := live.nextID;
            DayLive(d, live.(nextID := n + 1), dd.(staging := dd.staging[n := part]),
                    FDay(f.batch, f.todo, d, Staged(n)), m, st)
  {
  }

  lemma RenamesPart(d: Day, live: Partition, dd: DayDir, f: Flush, m: Merge, st: Stale)
    requires DayLive(d, live, dd, f, m, st) && f.FDay? && f.day == d && f.stage.Staged? && Renames(dd, f.stage.part)
    ensures var n := f.stage.part;
            DayLive(d, live, dd.(staging := dd.staging - {n}, dirs := dd.dirs[n := dd.staging[n]]),
                    FDay(f.batch, f.todo, d, Renamed(n)), m, st)
  {
  }

  lemma ListsPart(d: Day, live: Partition, dd: DayDir, f: Flush, f': Flush, m: Merge, st: Stale, saved: bool)
    requires DayLive(d, live, dd, f, m, st) && f.FDay? && f.day == d && f.stage.Renamed? && !f'.FDay?
    ensures var parts := live.parts + {f.stage.part};
            DayLive(d, live.(parts := parts), if saved then dd.(manifest := parts) else dd, f', m, st)
  {
    assert IsFlushPart(f, d, f.stage.part);
  }

  lemma FlushLives(p: State, step: Step, s': Sys, d: Day)
    requires Good(p) && Live(p, d) && IsFlushStep(step) && NextFlush(p.sys, step, s')
    ensures Live(p.(sys := s'), d)
  {
    hide *;
    var s, f := p.sys, p.sys.flush;
    FlushSideOf(p, step, s');
    if f.FDay? && f.day == d {
      if step.FlushOpenDay? {
        OpenLives(p, s', d);
      } else {
        DayLives(p, step, s', d);
      }
    } else {
      FlushElsewhere(s, step, s', d);
      ElsewhereLives(p, s', d);
    }
  }

  lemma FlushSideOf(p: State, step: Step, s': Sys)
    requires Good(p) && IsFlushStep(step) && NextFlush(p.sys, step, s')
    ensures KeysOk(p.sys) && WorkOk(p.sys) && StaleOk(p) && s'.merge == p.sys.merge
  {
    hide *;
    GoodParts(p);
    FlushSide(p.sys, step, s');
  }

  lemma FlushElsewhere(s: Sys, step: Step, s': Sys, d: Day)
    requires IsFlushStep(step) && NextFlush(s, step, s') && !(s.flush.FDay? && s.flush.day == d)
    ensures d in s'.partitions <==> d in s.partitions
    ensures d in s'.disk.days <==> d in s.disk.days
    ensures d in s.partitions ==> s'.partitions[d] == s.partitions[d]
    ensures d in s.disk.days ==> s'.disk.days[d] == s.disk.days[d]
    ensures s'.flush.FDay? ==> s'.flush.stage == Indexed || s'.flush.day != d
  {
    hide *;
    if s.flush.FDay? {
      DayElsewhere(s, step, s', d);
    } else {
      BatchElsewhere(s, step, s', d);
    }
  }

  lemma DayElsewhere(s: Sys, step: Step, s': Sys, d: Day)
    requires s.flush.FDay? && s.flush.day != d && IsFlushStep(step) && NextFlush(s, step, s')
    ensures d in s'.partitions <==> d in s.partitions
    ensures d in s'.disk.days <==> d in s.disk.days
    ensures d in s.partitions ==> s'.partitions[d] == s.partitions[d]
    ensures d in s.disk.days ==> s'.disk.days[d] == s.disk.days[d]
    ensures s'.flush.FDay? ==> s'.flush.day != d
  {
  }

  lemma BatchElsewhere(s: Sys, step: Step, s': Sys, d: Day)
    requires !s.flush.FDay? && IsFlushStep(step) && NextFlush(s, step, s')
    ensures s'.partitions == s.partitions && s'.disk.days == s.disk.days && (s'.flush.FDay? ==> s'.flush.stage == Indexed)
  {
  }

  lemma ElsewhereLives(p: State, s': Sys, d: Day)
    requires Live(p, d) && s'.merge == p.sys.merge
    requires d in s'.partitions <==> d in p.sys.partitions
    requires d in s'.disk.days <==> d in p.sys.disk.days
    requires d in p.sys.partitions ==> s'.partitions[d] == p.sys.partitions[d]
    requires d in p.sys.disk.days ==> s'.disk.days[d] == p.sys.disk.days[d]
    requires s'.flush.FDay? ==> s'.flush.stage == Indexed || s'.flush.stage == Opened || s'.flush.day != d
    ensures Live(p.(sys := s'), d)
  {
    hide DayLive;
    if d in p.sys.partitions && d in p.sys.disk.days {
      OtherFlush(d, p.sys.partitions[d], p.sys.disk.days[d], p.sys.flush, s'.flush, p.sys.merge, p.stale);
    }
  }

  lemma OpenLives(p: State, s': Sys, d: Day)
    requires KeysOk(p.sys) && WorkOk(p.sys) && StaleOk(p) && Live(p, d)
    requires NextFlush(p.sys, FlushOpenDay, s') && p.sys.flush.day == d
    ensures Live(p.(sys := s'), d)
  {
    if d in p.sys.partitions {
      hide DayLive;
      OtherFlush(d, p.sys.partitions[d], p.sys.disk.days[d], p.sys.flush, s'.flush, p.sys.merge, p.stale);
    }
  }

  lemma DayLives(p: State, step: Step, s': Sys, d: Day)
    requires KeysOk(p.sys) && WorkOk(p.sys) && Live(p, d) && IsFlushStep(step) && !step.FlushOpenDay?
    requires p.sys.flush.FDay? && p.sys.flush.day == d && NextFlush(p.sys, step, s')
    ensures Live(p.(sys := s'), d)
  {
    hide *;
    if step.FlushStage? || step.FlushRename? {
      PartLives(p, step, s', d);
    } else if step.FlushPublish? || step.FlushManifestFails? {
      ListLives(p, step, s', d);
    } else {
      FailLives(p, step, s', d);
    }
  }

  lemma PartLives(p: State, step: Step, s': Sys, d: Day)
    requires KeysOk(p.sys) && Live(p, d) && (step.FlushStage? || step.FlushRename?)
    requires p.sys.flush.FDay? && p.sys.flush.day == d && NextFlush(p.sys, step, s')
    ensures Live(p.(sys := s'), d)
  {
    hide DayLive, DayPart, Sorts, Renames;
    var s, f, m, st := p.sys, p.sys.flush, p.sys.merge, p.stale;
    if d in s.partitions {
      var live, dd := s.partitions[d], s.disk.days[d];
      if step.FlushStage? {
        StagesPart(d, live, dd, f, m, st, PartDir(step.data, Small));
      } else {
        RenamesPart(d, live, dd, f, m, st);
      }
    }
  }

  lemma ListLives(p: State, step: Step, s': Sys, d: Day)
    requires KeysOk(p.sys) && Live(p, d) && (step.FlushPublish? || step.FlushManifestFails?)
    requires p.sys.flush.FDay? && p.sys.flush.day == d && NextFlush(p.sys, step, s')
    ensures Live(p.(sys := s'), d)
  {
    hide DayLive, Joined, DayPart, Permutes;
    var s, f, m, st := p.sys, p.sys.flush, p.sys.merge, p.stale;
    var live, dd := s.partitions[d], s.disk.days[d];
    ListsPart(d, live, dd, f, s'.flush, m, st, step.FlushPublish?);
  }

  lemma FailLives(p: State, step: Step, s': Sys, d: Day)
    requires KeysOk(p.sys) && WorkOk(p.sys) && Live(p, d) && IsFlushStep(step)
    requires !step.FlushOpenDay? && !step.FlushStage? && !step.FlushRename? && !step.FlushPublish? && !step.FlushManifestFails?
    requires p.sys.flush.FDay? && p.sys.flush.day == d && NextFlush(p.sys, step, s')
    ensures Live(p.(sys := s'), d)
  {
    hide DayLive, Joined, DayPart, Permutes;
    var s, f, m, st := p.sys, p.sys.flush, p.sys.merge, p.stale;
    if d in s.partitions {
      var live, dd := s.partitions[d], s.disk.days[d];
      OtherFlush(d, live, dd, f, FIdle, m, st);
      if f.stage.Staged? {
        Unstages(d, live, dd, FIdle, m, st, f.stage.part);
      }
    }
  }

  lemma Unstages(d: Day, live: Partition, dd: DayDir, f: Flush, m: Merge, st: Stale, n: PartId)
    requires DayLive(d, live, dd, f, m, st)
    ensures DayLive(d, live, dd.(staging := dd.staging - {n}), f, m, st)
  {
  }

  // ---------- merges of the live partition ----------

  lemma OtherMerge(d: Day, live: Partition, dd: DayDir, f: Flush, m: Merge, m': Merge, st: Stale)
    requires DayLive(d, live, dd, f, m, st) && (m' == MIdle || m'.day != d || ((m'.MNames? || m'.MRead?) && m'.names <= live.parts))
    ensures DayLive(d, live, dd, f, m', st)
  {
  }

  lemma MergesStage(d: Day, live: Partition, dd: DayDir, f: Flush, m: Merge, st: Stale, part: PartDir)
    requires DayLive(d, live, dd, f, m, st) && m.MRead? && m.day == d
    ensures var n := live.nextID;
            DayLive(d, live.(nextID := n + 1), dd.(staging := dd.staging[n := part]), f, MStaged(d, m.names, n), st)
  {
  }

  lemma MergesRename(d: Day, live: Partition, dd: DayDir, f: Flush, m: Merge)
    requires DayLive(d, live, dd, f, m, SIdle) && m.MStaged? && m.day == d && Renames(dd, m.part)
    ensures var n := m.part;
            DayLive(d, live, dd.(staging := dd.staging - {n}, dirs := dd.dirs[n := dd.staging[n]]), f,
                    MRenamed(d, m.names, n), SIdle)
  {
  }

  lemma MergesSwap(d: Day, live: Partition, dd: DayDir, f: Flush, m: Merge)
    requires DayLive(d, live, dd, f, m, SIdle) && m.MRenamed? && m.day == d
    ensures var parts := live.parts - m.names + {m.part};
            DayLive(d, live.(parts := parts), dd.(manifest := parts), f, MDeleting(d, m.names), SIdle)
  {
  }

  lemma MergesDelete(d: Day, live: Partition, dd: DayDir, f: Flush, m: Merge, n: PartId)
    requires DayLive(d, live, dd, f, m, SIdle) && m.MDeleting? && m.day == d && n in m.names
    ensures DayLive(d, live, dd.(dirs := dd.dirs - {n}), f, MDeleting(d, m.names - {n}), SIdle)
  {
  }

  lemma MergeLives(p: State, step: Step, s': Sys, d: Day)
    requires Good(p) && Live(p, d) && IsMergeStep(step) && NextMerge(p.sys, step, s') && (step.MergeSnapshot? ==> p.stale == SIdle)
    ensures Live(p.(sys := s'), d)
  {
    hide *;
    MergeAlone(p, step, s');
    if step.MergeSnapshot? || p.sys.merge.day == d {
      MergeDayLives(p, step, s', d);
    } else {
      MergeElsewhere(p, step, s', d);
    }
  }

  lemma MergeAlone(p: State, step: Step, s': Sys)
    requires Good(p) && IsMergeStep(step) && NextMerge(p.sys, step, s') && (step.MergeSnapshot? ==> p.stale == SIdle)
    ensures p.stale == SIdle && KeysOk(p.sys) && WorkOk(p.sys) && (step.MergeSnapshot? || p.sys.merge != MIdle)
  {
    hide *;
    GoodParts(p);
    MergeSide(p.sys, step, s');
    AloneIdle(p.sys, p.stale);
  }

  lemma AloneIdle(s: Sys, m: Stale)
    requires AloneOk(s, m)
    ensures m == SIdle || s.merge == MIdle
  {
  }

  lemma MergeElsewhere(p: State, step: Step, s': Sys, d: Day)
    requires Live(p, d) && IsMergeStep(step) && !step.MergeSnapshot? && NextMerge(p.sys, step, s')
    requires p.sys.merge != MIdle && p.sys.merge.day != d
    ensures Live(p.(sys := s'), d)
  {
    hide DayLive, Sorts, MergesInto;
    if d in p.sys.partitions && d in p.sys.disk.days {
      OtherMerge(d, p.sys.partitions[d], p.sys.disk.days[d], p.sys.flush, p.sys.merge, s'.merge, p.stale);
    }
  }

  lemma MergeDayLives(p: State, step: Step, s': Sys, d: Day)
    requires p.stale == SIdle && KeysOk(p.sys) && WorkOk(p.sys) && Live(p, d) && IsMergeStep(step)
    requires step.MergeSnapshot? || (p.sys.merge != MIdle && p.sys.merge.day == d)
    requires NextMerge(p.sys, step, s')
    ensures Live(p.(sys := s'), d)
  {
    hide *;
    if step.MergeStage? || step.MergeRename? || step.MergeStageFails? {
      MergePartLives(p, step, s', d);
    } else if step.MergeSwap? || step.MergeDelete? {
      MergeSwapLives(p, step, s', d);
    } else {
      MergeReadLives(p, step, s', d);
    }
  }

  lemma MergePartLives(p: State, step: Step, s': Sys, d: Day)
    requires p.stale == SIdle && KeysOk(p.sys) && WorkOk(p.sys) && Live(p, d)
    requires step.MergeStage? || step.MergeRename? || step.MergeStageFails?
    requires p.sys.merge != MIdle && p.sys.merge.day == d && NextMerge(p.sys, step, s')
    ensures Live(p.(sys := s'), d)
  {
    hide DayLive, Sorts, Renames;
    var s, f, m := p.sys, p.sys.flush, p.sys.merge;
    var live, dd := s.partitions[d], s.disk.days[d];
    if step.MergeStage? {
      MergesStage(d, live, dd, f, m, SIdle, PartDir(step.data, Big));
    } else if step.MergeRename? {
      MergesRename(d, live, dd, f, m);
    } else {
      OtherMerge(d, live, dd, f, m, MIdle, SIdle);
      Unstages(d, live, dd, f, MIdle, SIdle, m.part);
    }
  }

  lemma MergeSwapLives(p: State, step: Step, s': Sys, d: Day)
    requires p.stale == SIdle && KeysOk(p.sys) && WorkOk(p.sys) && Live(p, d) && (step.MergeSwap? || step.MergeDelete?)
    requires p.sys.merge != MIdle && p.sys.merge.day == d && NextMerge(p.sys, step, s')
    ensures Live(p.(sys := s'), d)
  {
    hide DayLive;
    var s, f, m := p.sys, p.sys.flush, p.sys.merge;
    var live, dd := s.partitions[d], s.disk.days[d];
    if step.MergeSwap? {
      MergesSwap(d, live, dd, f, m);
    } else {
      MergesDelete(d, live, dd, f, m, step.part);
    }
  }

  lemma MergeReadLives(p: State, step: Step, s': Sys, d: Day)
    requires p.stale == SIdle && KeysOk(p.sys) && Live(p, d)
    requires IsMergeStep(step) && !step.MergeStage? && !step.MergeRename? && !step.MergeStageFails? && !step.MergeSwap? && !step.MergeDelete?
    requires step.MergeSnapshot? || (p.sys.merge != MIdle && p.sys.merge.day == d)
    requires NextMerge(p.sys, step, s')
    ensures Live(p.(sys := s'), d)
  {
    hide DayLive, MergesInto;
    var s, f, m := p.sys, p.sys.flush, p.sys.merge;
    if d in s.partitions {
      var live, dd := s.partitions[d], s.disk.days[d];
      if step.MergeRead? {
        ReadNames(d, live, dd, f, m);
      }
      OtherMerge(d, live, dd, f, m, s'.merge, SIdle);
    }
  }

  lemma ReadNames(d: Day, live: Partition, dd: DayDir, f: Flush, m: Merge)
    requires DayLive(d, live, dd, f, m, SIdle) && m.MNames? && m.day == d
    ensures m.names <= live.parts
  {
  }

  // ---------- other steps ----------

  lemma RetentionLives(p: State, step: Step, s': Sys, d: Day)
    requires Live(p, d) && IsRetentionStep(step) && NextRetention(p.sys, step, s')
    ensures Live(Around(p, step, s'), d)
  {
    hide DayLive, S.Dropped;
  }

  lemma CrashLives(p: State, s': Sys, d: Day)
    requires KeysOk(p.sys) && Live(p, d) && NextCrash(p.sys, s')
    ensures Live(State(s', [], SIdle, p.used), d)
  {
    hide S.Replays;
    if d in s'.partitions {
      assert d in p.sys.disk.days && OpensAs(Cleaned(p.sys.disk.days[d]), s'.partitions[d]);
    }
  }

  lemma OtherLives(p: State, step: Step, s': Sys, d: Day)
    requires Live(p, d)
    requires (IsQueryStep(step) && NextQuery(p.sys, step, s')) ||
             ((step.AppendResolve? || step.AppendIndex? || step.AppendBuffer?) && NextAppend(p.sys, step, s'))
    ensures Live(p.(sys := s'), d)
  {
    hide DayLive, NextQuery, NextAppend;
    if IsQueryStep(step) {
      QueryFrame(p.sys, step, s');
    } else {
      Program.AppendFrame(p.sys, step, s');
    }
  }

  lemma EngineLives(p: State, step: Step, p': State, d: Day)
    requires Good(p) && Live(p, d) && MovesEngine(p, step, p')
    ensures Live(p', d)
  {
    hide *;
    var s, s' := p.sys, p'.sys;
    EngineMoves(p, step, p');
    NextIs(s, step, s');
    if IsRetentionStep(step) {
      RetentionLives(p, step, s', d);
    } else if step.Crash? {
      GoodParts(p);
      CrashedAround(p, step, s');
      CrashLives(p, s', d);
    } else {
      PlainStep(step);
      AroundPlain(p, step, s');
      if IsFlushStep(step) {
        FlushLives(p, step, s', d);
      } else if IsMergeStep(step) {
        MergeLives(p, step, s', d);
      } else {
        OtherLives(p, step, s', d);
      }
    }
  }

  lemma PlainStep(step: Step)
    requires !IsRetentionStep(step)
    ensures !step.RetentionDropDir?
  {
  }

  // ---------- merges of a dropped partition ----------

  lemma OtherStale(d: Day, live: Partition, dd: DayDir, f: Flush, m: Merge, st: Stale, st': Stale)
    requires DayLive(d, live, dd, f, m, st) && (!st'.SRenamed? || st'.day != d)
    ensures DayLive(d, live, dd, f, m, st')
  {
  }

  lemma StaleRenames(d: Day, live: Partition, dd: DayDir, f: Flush, m: Merge, st: Stale)
    requires DayLive(d, live, dd, f, m, st) && m == MIdle && st.SStaged? && st.day == d && Renames(dd, st.part)
    ensures var n := st.part;
            DayLive(d, live, dd.(staging := dd.staging - {n}, dirs := dd.dirs[n := dd.staging[n]]), f, m,
                    SRenamed(st.h, d, st.names, n))
  {
  }

  lemma StaleStages(d: Day, live: Partition, dd: DayDir, f: Flush, m: Merge, st: Stale, n: PartId, part: PartDir)
    requires DayLive(d, live, dd, f, m, st)
    ensures DayLive(d, live, dd.(staging := dd.staging[n := part]), f, m, st)
  {
  }

  lemma StaleLives(p: State, move: Move, p': State, d: Day)
    requires Good(p) && Live(p, d) && !move.Does? && MovesStale(p, move, p') && !SwapsOn(p, move, d)
    ensures Live(p', d)
  {
    assert KeysOk(p.sys) && AloneOk(p.sys, p.stale);
    hide Good, DayLive, Sorts, MergesInto, SmallParts, Renames;
    var s, f, m, st := p.sys, p.sys.flush, p.sys.merge, p.stale;
    if d in s.partitions {
      var live, dd := s.partitions[d], s.disk.days[d];
      if move.StaleRename? && st.day == d {
        StaleRenames(d, live, dd, f, m, st);
      } else {
        OtherStale(d, live, dd, f, m, st, p'.stale);
        if move.StaleStage? && st.day == d {
          var n := p.handles[st.h].live.nextID;
          StaleStages(d, live, dd, f, m, p'.stale, n, PartDir(move.data, Big));
        } else if move.StaleStageFails? && st.day == d {
          Unstages(d, live, dd, f, m, p'.stale, st.part);
        }
      }
    }
  }

  lemma MoveLives(p: State, move: Move, p': State, d: Day)
    requires Good(p) && Live(p, d) && Moves(p, move, p') && !SwapsOn(p, move, d)
    ensures Live(p', d)
  {
    hide Good, Live, MovesEngine, MovesStale;
    if move.Does? {
      EngineLives(p, move.step, p', d);
    } else {
      StaleLives(p, move, p', d);
    }
  }

  /** The swap saves a manifest that names a part the open partition does not list. */
  lemma SwapBreaks(p: State, move: Move, p': State, d: Day)
    requires Good(p) && Live(p, d) && Moves(p, move, p') && SwapsOn(p, move, d)
    ensures !PartsListed(p'.sys, d)
  {
    hide Inv, AllDirsOk, ReadOk, FlushLive, MergeLive, OldOk;
    assert p.stale.part in p'.sys.disk.days[d].manifest;
  }

  // ---------- runs ----------

  lemma BeginsLive(p: State, d: Day)
    requires Begins(p)
    ensures Live(p, d)
  {
    hide S.Replays;
  }

  lemma {:induction false} RunLive(states: seq<State>, moves: seq<Move>, n: nat, d: Day)
    requires IsRun(states, moves) && n <= |moves| && forall i :: 0 <= i < n ==> !SwapsOn(states[i], moves[i], d)
    ensures Live(states[n], d)
  {
    hide Moves, Begins, Good, Live, SwapsOn;
    if n == 0 {
      BeginsLive(states[0], d);
    } else {
      RunLive(states, moves, n - 1, d);
      RunGood(states, moves, n - 1);
      RunMove(states, moves, n - 1);
      MoveLives(states[n - 1], moves[n - 1], states[n], d);
    }
  }

  /** At every point of a run every part in the manifest of a day is listed and every listed part has its
      directory, if and only if no merge of a dropped partition of that day has saved its manifest. */
  lemma ListedIff(states: seq<State>, moves: seq<Move>, n: nat, d: Day)
    requires IsRun(states, moves) && n <= |moves|
    ensures (forall i :: 0 <= i <= n ==> PartsListed(states[i].sys, d)) <==>
            (forall i :: 0 <= i < n ==> !SwapsOn(states[i], moves[i], d))
  {
    hide Moves, Begins, PartsListed, SwapsOn, Good, Live;
    if forall i :: 0 <= i < n ==> !SwapsOn(states[i], moves[i], d) {
      forall i | 0 <= i <= n ensures PartsListed(states[i].sys, d) {
        ListedUntil(states, moves, i, d);
      }
    } else {
      var i := FirstSwap(states, moves, n, d);
      BrokenAt(states, moves, i, d);
    }
  }

  lemma ListedUntil(states: seq<State>, moves: seq<Move>, n: nat, d: Day)
    requires IsRun(states, moves) && n <= |moves| && forall i :: 0 <= i < n ==> !SwapsOn(states[i], moves[i], d)
    ensures PartsListed(states[n].sys, d)
  {
    hide PartsListed, SwapsOn, Good, Live, Moves, Begins;
    RunLive(states, moves, n, d);
    RunGood(states, moves, n);
    LiveListed(states[n], d);
  }

  lemma BrokenAt(states: seq<State>, moves: seq<Move>, n: nat, d: Day)
    requires IsRun(states, moves) && n < |moves| && SwapsOn(states[n], moves[n], d)
    requires forall i :: 0 <= i < n ==> !SwapsOn(states[i], moves[i], d)
    ensures !PartsListed(states[n + 1].sys, d)
  {
    hide PartsListed, SwapsOn, Good, Live, Moves, Begins;
    RunLive(states, moves, n, d);
    RunGood(states, moves, n);
    RunMove(states, moves, n);
    SwapBreaks(states[n], moves[n], states[n + 1], d);
  }

  lemma {:induction false} FirstSwap(states: seq<State>, moves: seq<Move>, n: nat, d: Day) returns (i: nat)
    requires |states| == |moves| + 1 && n <= |moves| && exists i :: 0 <= i < n && SwapsOn(states[i], moves[i], d)
    ensures i < n && SwapsOn(states[i], moves[i], d) && forall j :: 0 <= j < i ==> !SwapsOn(states[j], moves[j], d)
  {
    hide SwapsOn;
    i := 0;
    while !SwapsOn(states[i], moves[i], d)
      invariant 0 <= i < n && forall j :: 0 <= j < i ==> !SwapsOn(states[j], moves[j], d)
      decreases n - i
    {
      i := i + 1;
    }
  }
}
