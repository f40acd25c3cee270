/** What a query sees, alone or among appends, flushes and merges. */
module EngineQuery {
  import opened Contents
  import opened Engine
  import opened EngineInvariant
  import opened EngineLedger
  import opened Labels
  import opened Part
  import opened Program
  import opened ProgramLedger
  import opened SortedIds
  import S = Series
  import opened Varint

  // ---------- what is stored can be found, and only by its labels ----------

  /** From the cutoff on, a series that has a sample anywhere is indexed on that day. */
  lemma StoredIsIndexed(s: Sys, id: SeriesId, x: Sample)
    requires Inv(s) && DayOf(x.t) >= s.cutoff && Total(Held(s, id, x)) > 0
    ensures S.IndexedOn(s.reg, DayOf(x.t), id)
  {
    CountIsIn(s.mem, id, x);
    CountIsIn(BatchOf(s.flush), id, x);
    if OnDisk(s.disk.days, id, x) + OnlyListed(s.partitions, s.disk.days, id, x) > 0 {
      OnDiskDurable(s, id, x);
    }
    hide TodoOk, RegistryOk, IdsOk, DurableOk, PersistedOk, DaysOk, FlushOk, MergeOk, RetentionOk, S.IndexedOn, OnDisk, OnlyListed;
  }

  lemma UnusedRecent(p: State, x: Sample)
    requires Good(p) && DayOf(x.t) >= p.sys.cutoff
    ensures DayOf(x.t) !in p.used
  {
    hide Inv, AllDirsOk, ReadOk;
  }

  lemma WithoutHeld(s: Sys, used: set<Day>, id: SeriesId, x: Sample)
    ensures DayOf(x.t) !in used ==> Held(Without(s, used), id, x) == Held(s, id, x)
  {
    hide SumOver, CountIn;
  }

  /** Retention forgets a day's index together with its data, and nothing else: a stored series is
      found by every matcher list its labels satisfy. */
  lemma StoredIsMatched(p: State, matchers: seq<S.Matcher>, id: SeriesId, x: Sample)
    requires Good(p) && DayOf(x.t) >= p.sys.cutoff && Total(Held(p.sys, id, x)) > 0 && matchers != []
    ensures var r := p.sys.reg;
            id in r.names && (S.Satisfies(r.names[id], matchers) ==> id in S.Matching(r.inverted, matchers))
  {
    var w := Without(p.sys, p.used);
    UnusedRecent(p, x);
    WithoutHeld(p.sys, p.used, id, x);
    hide Aside, Held, S.Matching, S.Satisfies;
    StoredIsIndexed(w, id, x);
    assert S.WellIndexed(w.reg);
    hide Inv;
    if S.Satisfies(w.reg.names[id], matchers) {
      S.MatchComplete(w.reg, matchers, id, DayOf(x.t));
    }
  }

  lemma MatchedSatisfies(p: State, matchers: seq<S.Matcher>, id: SeriesId)
    requires Good(p) && S.CleanNames(p.sys.reg) && S.CleanMatchers(matchers) && matchers != []
    requires id in S.Matching(p.sys.reg.inverted, matchers)
    ensures id in p.sys.reg.names && S.Satisfies(p.sys.reg.names[id], matchers)
  {
    var w := Without(p.sys, p.used);
    assert S.WellIndexed(w.reg);
    hide Inv, Aside, S.WellIndexed, S.Matching, S.Has;
    S.MatchSound(w.reg, matchers, id);
  }

  /** The moves of a program that keeps the separators out of its labels. */
  predicate CleanMove(move: Move) {
    move.Does? && move.step.AppendResolve? ==> AllClean(move.step.labels)
  }

  lemma FlushNames(s: Sys, step: Step, s': Sys)
    requires IsFlushStep(step) && NextFlush(s, step, s')
    ensures s'.reg.names == s.reg.names && s'.reg.byKey == s.reg.byKey
  {
    hide NextFlush;
    FlushKeys(s, step, s');
  }

  lemma OtherNames(s: Sys, step: Step, s': Sys)
    requires (step.AppendIndex? && NextAppend(s, step, s')) || (IsRetentionStep(step) && NextRetention(s, step, s'))
    ensures s'.reg.names == s.reg.names && s'.reg.byKey == s.reg.byKey
  {
    hide S.AddInverted;
  }

  /** No move but a registration or a crash changes what a series ID stands for. */
  lemma NamesKept(p: State, move: Move, p': State)
    requires Moves(p, move, p') && (move.Does? ==> !move.step.AppendResolve? && !move.step.Crash?)
    ensures p'.sys.reg.names == p.sys.reg.names && p'.sys.reg.byKey == p.sys.reg.byKey
  {
    if move.Does? {
      hide Next, NextFlush, NextMerge, NextQuery, NextRetention;
      var s, step, s' := p.sys, move.step, p'.sys;
      NextIs(s, step, s');
      if IsFlushStep(step) {
        FlushNames(s, step, s');
      } else if IsMergeStep(step) {
        MergeFrame(s, step, s');
      } else if IsQueryStep(step) {
        QueryFrame(s, step, s');
      } else if !step.AppendBuffer? {
        hide NextAppend;
        OtherNames(s, step, s');
      }
    } else {
      StaleFrame(p, move, p');
    }
  }

  /** A merge of a dropped partition changes nothing of the engine but a day's directory. */
  lemma StaleFrame(p: State, move: Move, p': State)
    requires !move.Does? && MovesStale(p, move, p')
    ensures p'.sys == p.sys.(disk := p.sys.disk.(days := p'.sys.disk.days))
  {
    hide DirOf, Renames, MergesInto, SmallParts, Sorts;
  }

  lemma GoodRegistry(p: State)
    requires Good(p)
    ensures RegistryOk(p.sys.reg, p.sys.disk.forward, Without(p.sys, p.used).flush)
  {
    hide IdsOk, DurableOk, PersistedOk, FindableOk, DaysOk, FlushOk, TodoOk, MergeOk, RetentionOk, RegistryOk, Aside;
  }

  lemma MoveClean(p: State, move: Move, p': State)
    requires Good(p) && Moves(p, move, p') && S.CleanNames(p.sys.reg) && CleanMove(move)
    ensures S.CleanNames(p'.sys.reg)
  {
    GoodRegistry(p);
    hide Good, Moves, S.CleanNames, CleanMove;
    if move.Does? && move.step.AppendResolve? {
      ResolvesClean(p, move, p');
    } else if move == Does(Crash) {
      CrashesClean(p, p');
    } else {
      NamesKept(p, move, p');
      SameClean(p.sys.reg, p'.sys.reg);
    }
  }

  lemma SameClean(r: S.State, r': S.State)
    requires S.CleanNames(r) && r'.names == r.names
    ensures S.CleanNames(r')
  {
  }

  lemma ResolvesClean(p: State, move: Move, p': State)
    requires RegistryOk(p.sys.reg, p.sys.disk.forward, Without(p.sys, p.used).flush) && Moves(p, move, p')
    requires S.CleanNames(p.sys.reg) && move.Does? && move.step.AppendResolve? && CleanMove(move)
    ensures S.CleanNames(p'.sys.reg)
  {
    hide S.WellIndexed, CanonicalKey, SortedLabels, S.Resolved, S.ResolvedId, S.Consistent;
    S.ResolveClean(p.sys.reg, move.step.labels);
  }

  lemma CrashesClean(p: State, p': State)
    requires RegistryOk(p.sys.reg, p.sys.disk.forward, Without(p.sys, p.used).flush) && Moves(p, Does(Crash), p')
    requires S.CleanNames(p.sys.reg)
    ensures S.CleanNames(p'.sys.reg)
  {
    hide NextCrash, S.WellIndexed, CanonicalKey, SortedLabels, S.Consistent;
    CrashNames(p.sys, p'.sys);
  }

  lemma CrashNames(s: Sys, s': Sys)
    requires NextCrash(s, s')
    ensures s'.reg.names == s.disk.forward == s'.disk.forward
  {
    hide OpensAs, CanonicalKey, SortedLabels, S.Has, S.Persisted, S.HasKey;
  }

  lemma {:induction false} RunClean(states: seq<State>, moves: seq<Move>, n: nat)
    requires IsRun(states, moves) && n <= |moves| && forall i :: 0 <= i < n ==> CleanMove(moves[i])
    ensures S.CleanNames(states[n].sys.reg)
  {
    hide Moves, Good, CleanMove;
    if n == 0 {
      assert states[0].sys.reg.names == map[];
    } else {
      hide Begins;
      RunClean(states, moves, n - 1);
      RunGood(states, moves, n - 1);
      RunMove(states, moves, n - 1);
      MoveClean(states[n - 1], moves[n - 1], states[n]);
    }
  }

  // ---------- what is in the parts only grows ----------

  /** The copies of x in the listed parts, saved or not: what a scan of its day finds. */
  ghost function InParts(s: Sys, id: SeriesId, x: Sample): nat {
    OnDisk(s.disk.days, id, x) + OnlyListed(s.partitions, s.disk.days, id, x)
  }

  lemma CutoffGrows(p: State, move: Move, p': State)
    requires Good(p) && Moves(p, move, p')
    ensures p'.sys.cutoff >= p.sys.cutoff
    ensures forall d :: Drops(move, d) ==> d < p.sys.cutoff
  {
    hide Next, Inv, NextFlush, NextMerge, NextQuery, NextAppend, NextRetention, NextCrash, Aside;
    if move.Does? {
      var s, step, s' := p.sys, move.step, p'.sys;
      NextIs(s, step, s');
      if IsFlushStep(step) {
        GoodWork(p);
        FlushSide(s, step, s');
      } else if IsMergeStep(step) {
        GoodWork(p);
        MergeSide(s, step, s');
      } else if IsQueryStep(step) {
        QueryFrame(s, step, s');
      } else if IsRetentionStep(step) {
        PassOld(p);
        PassCutoff(s, step, s');
      } else if step.Crash? {
        CrashCutoff(s, s');
      } else {
        AppendFrame(s, step, s');
      }
    } else {
      StaleFrame(p, move, p');
    }
  }

  lemma GoodWork(p: State)
    requires Good(p)
    ensures KeysOk(p.sys) && WorkOk(p.sys)
  {
    hide Inv, AllDirsOk, ReadOk;
  }

  lemma PassCutoff(s: Sys, step: Step, s': Sys)
    requires IsRetentionStep(step) && NextRetention(s, step, s')
    ensures s'.cutoff >= s.cutoff && (step.RetentionDropDir? ==> s.retention != RIdle && step.day in s.retention.todo)
  {
    hide S.Dropped;
  }

  lemma CrashCutoff(s: Sys, s': Sys)
    requires NextCrash(s, s')
    ensures s'.cutoff == s.cutoff && s'.query == QIdle
  {
    hide S.Replays, OpensAs;
  }

  /** A key stays bound to its ID while the process lives. */
  lemma KeyKept(p: State, move: Move, p': State, k: Str)
    requires Moves(p, move, p') && move != Does(Crash) && k in p.sys.reg.byKey
    ensures k in p'.sys.reg.byKey && p'.sys.reg.byKey[k] == p.sys.reg.byKey[k]
  {
    if move.Does? && move.step.AppendResolve? {
      hide CanonicalKey, SortedLabels;
    } else {
      hide Moves;
      NamesKept(p, move, p');
    }
  }

  lemma UnnamedEmpty(p: State, id: SeriesId, x: Sample)
    requires Good(p) && DayOf(x.t) !in p.used && id !in p.sys.reg.names
    ensures InParts(p.sys, id, x) == 0
  {
    hide Aside, OnDisk, OnlyListed, InFlight, CountIn;
    WithoutHeld(p.sys, p.used, id, x);
    UnregisteredEmpty(Without(p.sys, p.used), id, x);
  }

  lemma NamedKey(p: State, id: SeriesId) returns (k: Str)
    requires Good(p) && id in p.sys.reg.names
    ensures k in p.sys.reg.byKey && p.sys.reg.byKey[k] == id
  {
    GoodRegistry(p);
    k := CanonicalKey(p.sys.reg.names[id]);
    hide Good, CanonicalKey, SortedLabels, S.WellIndexed;
  }

  lemma RecordGrows(l: Ledger, e: Event, k: Str, x: Sample)
    requires e != Expired(DayOf(x.t))
    ensures var l' := Record(l, e, k, x);
            l'.disk >= l.disk && (!e.Crashed? ==> l'.listed + l'.disk >= l.listed + l.disk)
  {
  }

  lemma CrashedOnly(p: State, move: Move)
    ensures EventOfMove(p, move).Crashed? ==> move == Does(Crash)
  {
  }

  /** From the cutoff on, the parts lose nothing while the process lives. */
  lemma PartsGrow(p: State, move: Move, p': State, id: SeriesId, x: Sample)
    requires Good(p) && Moves(p, move, p') && move != Does(Crash) && DayOf(x.t) >= p'.sys.cutoff
    ensures OnDisk(p'.sys.disk.days, id, x) >= OnDisk(p.sys.disk.days, id, x) && InParts(p'.sys, id, x) >= InParts(p.sys, id, x)
  {
    hide Good, Moves, OnDisk, OnlyListed, EventOfMove, Record, InFlight, CountIn, Drops;
    CutoffGrows(p, move, p');
    UnusedRecent(p, x);
    MoveKeeps(p, move, p');
    UnusedRecent(p', x);
    if id in p.sys.reg.names {
      var k := NamedKey(p, id);
      KeyKept(p, move, p', k);
      MoveTally(p, move, p', k, x);
      ExpiredOnly(p, move, x);
      CrashedOnly(p, move);
      RecordGrows(Tally(p.sys, k, x), EventOfMove(p, move), k, x);
    } else {
      UnnamedEmpty(p, id, x);
    }
  }

  // ---------- a query among other moves ----------

  /** A day still to scan has added nothing and holds all it held when the query began; a scanned day
      has given at least that and at most what it holds now. */
  predicate Bounds(base: nat, disk: nat, parts: nat, scanned: bool, n: nat) {
    if scanned then base <= n <= parts else n == 0 && base <= disk
  }

  /** What a query has found so far of samples in the window and not yet expired; nothing else is ever
      found. */
  ghost predicate QueryOk(s: Sys) {
    var q := s.query;
    && (q.QMatched? ==> forall id: SeriesId, x: Sample :: DayOf(x.t) >= s.cutoff ==>
          OnDisk(q.start0.days, id, x) <= OnDisk(s.disk.days, id, x))
    && (q.QScanning? ==> forall id: SeriesId, x: Sample :: DayOf(x.t) >= s.cutoff && id in q.ids && InWindow(x, q.start, q.end) ==>
          Bounds(OnDisk(q.start0.days, id, x), OnDisk(s.disk.days, id, x), InParts(s, id, x), DayOf(x.t) !in q.todo, CountIn(q.found, id, x)))
    && (q.QScanning? ==> forall id: SeriesId, x: Sample :: !(id in q.ids && InWindow(x, q.start, q.end)) ==> CountIn(q.found, id, x) == 0)
  }

  lemma WindowDays(x: Sample, start: Int64, end: Int64)
    requires InWindow(x, start, end)
    ensures DayOf(start) <= DayOf(x.t) <= DayOf(end)
  {
  }

  /** The parts of another day hold no copy of x. */
  lemma OtherDayEmpty(p: State, day: Day, parts: set<PartId>, id: SeriesId, x: Sample)
    requires Aside(p) && DayOf(x.t) != day
    ensures SumOver(parts, DirOf(p.sys.disk, day).dirs, id, x) == 0
  {
    DirAt(p.sys.disk, day);
    var dirs := DirOf(p.sys.disk, day).dirs;
    forall n | n in dirs ensures CountIn(dirs[n].data, id, x) == 0 {
      CountIsIn(dirs[n].data, id, x);
    }
    SumZero(parts, dirs, id, x);
  }

  /** Scanning a day adds exactly what its listed parts hold of that day's samples, and none of another's. */
  lemma ScanCount(p: State, day: Day, id: SeriesId, x: Sample)
    requires Good(p) && DayOf(x.t) !in p.used
    ensures SumOver(if day in p.sys.partitions then p.sys.partitions[day].parts else {}, DirOf(p.sys.disk, day).dirs, id, x)
            == if DayOf(x.t) == day then InParts(p.sys, id, x) else 0
  {
    hide *;
    var parts := if day in p.sys.partitions then p.sys.partitions[day].parts else {};
    GoodParts(p);
    if DayOf(x.t) != day {
      OtherDayEmpty(p, day, parts, id, x);
    } else {
      GoodDays(p);
      OwnDay(p.sys, p.used, id, x);
    }
  }

  lemma OwnDay(s: Sys, used: set<Day>, id: SeriesId, x: Sample)
    requires var w := Without(s, used); DaysOk(w.disk.days, w.disk.forward, w.disk.inverted, w.partitions)
    requires KeysOk(s) && DayOf(x.t) !in used
    ensures var d := DayOf(x.t);
            SumOver(if d in s.partitions then s.partitions[d].parts else {}, DirOf(s.disk, d).dirs, id, x) == InParts(s, id, x)
  {
    hide DaysOk, SumOver;
    var w, day := Without(s, used), DayOf(x.t);
    if day in s.partitions {
      ListedSum(w, id, x);
      WithoutHeld(s, used, id, x);
      assert w.partitions[day] == s.partitions[day] && w.disk.days[day] == s.disk.days[day];
    } else {
      NoSum(DirOf(s.disk, day).dirs, id, x);
    }
  }

  lemma NoSum(dirs: map<PartId, PartDir>, id: SeriesId, x: Sample)
    ensures SumOver({}, dirs, id, x) == 0
  {
  }

  lemma GoodDays(p: State)
    requires Good(p)
    ensures var w := Without(p.sys, p.used); DaysOk(w.disk.days, w.disk.forward, w.disk.inverted, w.partitions)
    ensures KeysOk(p.sys)
  {
    hide TodoOk, RegistryOk, IdsOk, DurableOk, PersistedOk, FindableOk, FlushOk, MergeOk, RetentionOk, DaysOk, AllDirsOk, ReadOk;
  }

  lemma QueryBegins(s: Sys, step: Step, s': Sys)
    requires step.QueryMatch? && NextQuery(s, step, s')
    ensures QueryOk(s')
  {
    hide OnDisk, S.Matching;
  }

  lemma QuerySnapshots(s: Sys, s': Sys)
    requires KeysOk(s) && QueryOk(s) && NextQuery(s, QuerySnapshot, s')
    ensures QueryOk(s')
  {
    var q := s'.query;
    forall id: SeriesId, x: Sample | DayOf(x.t) >= s.cutoff && id in q.ids && InWindow(x, q.start, q.end)
      ensures Bounds(OnDisk(q.start0.days, id, x), OnDisk(s.disk.days, id, x), InParts(s, id, x), DayOf(x.t) !in q.todo, CountIn(q.found, id, x))
    {
      WindowDays(x, q.start, q.end);
    }
    hide OnDisk, OnlyListed, InWindow;
  }

  lemma QueryScans(p: State, step: Step, s': Sys)
    requires Good(p) && QueryOk(p.sys) && step.QueryScan? && NextQuery(p.sys, step, s')
    ensures QueryOk(s')
  {
    hide Good, OnDisk, OnlyListed, CountIn, InWindow, Readable;
    var q := p.sys.query;
    forall id: SeriesId, x: Sample | DayOf(x.t) >= p.sys.cutoff
      ensures CountIn(s'.query.found, id, x) == CountIn(q.found, id, x) +
              if id in q.ids && InWindow(x, q.start, q.end) && DayOf(x.t) == step.day then InParts(p.sys, id, x) else 0
    {
      UnusedRecent(p, x);
      ScanCount(p, step.day, id, x);
    }
    ScanFrame(p.sys, step, s');
    ScannedOk(p.sys, step.day, s');
  }

  lemma ScanFrame(s: Sys, step: Step, s': Sys)
    requires step.QueryScan? && NextQuery(s, step, s')
    ensures s.query.QScanning? && s'.query.QScanning? && s' == s.(query := s.query.(todo := s.query.todo - {step.day}, found := s'.query.found))
    ensures step.day in s.query.todo
    ensures forall id: SeriesId, x: Sample :: !(id in s.query.ids && InWindow(x, s.query.start, s.query.end)) ==>
              CountIn(s'.query.found, id, x) == CountIn(s.query.found, id, x)
  {
    hide CountIn, InWindow, Readable, DirOf;
  }

  lemma ScannedOk(s: Sys, day: Day, s': Sys)
    requires QueryOk(s) && s.query.QScanning? && s'.query.QScanning? && day in s.query.todo
    requires s' == s.(query := s.query.(todo := s.query.todo - {day}, found := s'.query.found))
    requires forall id: SeriesId, x: Sample :: DayOf(x.t) >= s.cutoff ==>
               CountIn(s'.query.found, id, x) == CountIn(s.query.found, id, x) +
               if id in s.query.ids && InWindow(x, s.query.start, s.query.end) && DayOf(x.t) == day then InParts(s, id, x) else 0
    requires forall id: SeriesId, x: Sample :: !(id in s.query.ids && InWindow(x, s.query.start, s.query.end)) ==>
               CountIn(s'.query.found, id, x) == CountIn(s.query.found, id, x)
    ensures QueryOk(s')
  {
    hide OnDisk, OnlyListed, CountIn, InWindow;
  }

  lemma QuerySkips(s: Sys, step: Step, s': Sys)
    requires QueryOk(s) && step.QuerySkip? && NextQuery(s, step, s')
    ensures QueryOk(s')
  {
    hide OnDisk, OnlyListed, CountIn, InWindow;
  }

  lemma QueryUnmoved(s: Sys, s': Sys)
    requires QueryOk(s) && s'.query == s.query && s.cutoff <= s'.cutoff
    requires forall id: SeriesId, x: Sample :: DayOf(x.t) >= s'.cutoff ==>
               OnDisk(s'.disk.days, id, x) >= OnDisk(s.disk.days, id, x) && InParts(s', id, x) >= InParts(s, id, x)
    ensures QueryOk(s')
  {
    hide OnDisk, InParts, CountIn, InWindow;
  }

  lemma OtherQuery(p: State, move: Move, p': State)
    requires Moves(p, move, p') && move != Does(Crash) && (move.Does? ==> !IsQueryStep(move.step))
    ensures p'.sys.query == p.sys.query
  {
    hide Next;
    if move.Does? {
      hide NextFlush, NextMerge, NextRetention, NextAppend;
      var s, step, s' := p.sys, move.step, p'.sys;
      NextIs(s, step, s');
      if IsFlushStep(step) {
        FlushQuery(s, step, s');
      } else if IsMergeStep(step) {
        MergeQuery(s, step, s');
      } else if IsRetentionStep(step) {
        RetentionQuery(s, step, s');
      } else {
        AppendFrame(s, step, s');
      }
    } else {
      StaleFrame(p, move, p');
    }
  }

  lemma FlushQuery(s: Sys, step: Step, s': Sys)
    requires IsFlushStep(step) && NextFlush(s, step, s')
    ensures s'.query == s.query
  {
    hide Permutes, Sorts, DayPart, Joined, RenamePart, UnstagePart, EntriesFor, S.Unindexed, S.Marked, DaysOf, InvertedOf, OpensAs, Cleaned,
         Renames, SetDir, DirOf;
  }

  lemma MergeQuery(s: Sys, step: Step, s': Sys)
    requires IsMergeStep(step) && NextMerge(s, step, s')
    ensures s'.query == s.query
  {
    hide MergesInto, Sorts, RenamePart, UnstagePart, SmallParts, Readable, Renames, SetDir, DirOf;
  }

  lemma RetentionQuery(s: Sys, step: Step, s': Sys)
    requires IsRetentionStep(step) && NextRetention(s, step, s')
    ensures s'.query == s.query
  {
    hide S.Dropped;
  }

  lemma MoveQueryOk(p: State, move: Move, p': State)
    requires Good(p) && QueryOk(p.sys) && Moves(p, move, p')
    ensures QueryOk(p'.sys)
  {
    hide Good, QueryOk, OnDisk, InParts;
    if move.Does? && IsQueryStep(move.step) {
      hide Next, NextQuery;
      NextIs(p.sys, move.step, p'.sys);
      StepQueryOk(p, move.step, p'.sys);
    } else if move == Does(Crash) {
      CrashCutoff(p.sys, p'.sys);
      NoQuery(p'.sys);
    } else {
      hide Moves;
      OtherQuery(p, move, p');
      CutoffGrows(p, move, p');
      forall id: SeriesId, x: Sample | DayOf(x.t) >= p'.sys.cutoff
        ensures OnDisk(p'.sys.disk.days, id, x) >= OnDisk(p.sys.disk.days, id, x) && InParts(p'.sys, id, x) >= InParts(p.sys, id, x)
      {
        PartsGrow(p, move, p', id, x);
      }
      QueryUnmoved(p.sys, p'.sys);
    }
  }

  lemma NoQuery(s: Sys)
    requires s.query == QIdle || s.query.QDone?
    ensures QueryOk(s)
  {
  }

  lemma StepQueryOk(p: State, step: Step, s': Sys)
    requires Good(p) && QueryOk(p.sys) && IsQueryStep(step) && NextQuery(p.sys, step, s')
    ensures QueryOk(s')
  {
    hide Good, QueryOk;
    if step.QueryMatch? {
      QueryBegins(p.sys, step, s');
    } else if step.QuerySnapshot? {
      GoodWork(p);
      QuerySnapshots(p.sys, s');
    } else if step.QueryScan? {
      QueryScans(p, step, s');
    } else if step.QuerySkip? {
      QuerySkips(p.sys, step, s');
    } else {
      hide BufferRange;
      NoQuery(s');
    }
  }

  lemma {:induction false} RunQueryOk(states: seq<State>, moves: seq<Move>, n: nat)
    requires IsRun(states, moves) && n <= |moves|
    ensures QueryOk(states[n].sys)
  {
    hide Moves, Good;
    if n == 0 {
      NoQuery(states[0].sys);
    } else {
      hide Begins, QueryOk;
      RunQueryOk(states, moves, n - 1);
      RunGood(states, moves, n - 1);
      RunMove(states, moves, n - 1);
      MoveQueryOk(states[n - 1], moves[n - 1], states[n]);
    }
  }

  lemma BufferCounts(q: Query, mem: Series, id: SeriesId, x: Sample)
    requires q.QScanning?
    ensures CountIn(BufferRange(q, mem), id, x) == CountIn(q.found, id, x) +
              if id in q.ids && InWindow(x, q.start, q.end) then CountIn(mem, id, x) else 0
  {
    JoinedCount(q.found, RangeOf(mem, q.ids, q.start, q.end), id, x);
    if id in mem {
      ClipCount(mem[id], q.start, q.end, x);
    }
  }

  lemma BufferMove(p: State, p': State)
    requires Moves(p, Does(QueryBuffer), p')
    ensures var q := p.sys.query;
            && q.QScanning? && q.todo == {}
            && p'.sys.query == QDone(q.start, q.end, q.start0, q.ids, BufferRange(q, p.sys.mem))
  {
    hide BufferRange;
  }

  /** Under every interleaving with appends, flushes, merges of live and dropped partitions and retention,
      a finished query returns of a matched series every copy that was on disk when the query began, and
      no sample more often than the engine holds it. */
  lemma QuerySeesOnce(states: seq<State>, moves: seq<Move>, n: nat, id: SeriesId, x: Sample)
    requires IsRun(states, moves) && n < |moves| && moves[n] == Does(QueryBuffer)
    ensures var s, q, q' := states[n].sys, states[n].sys.query, states[n + 1].sys.query;
            && q != QIdle && q'.QDone?
            && (id in q.ids && InWindow(x, q.start, q.end) && DayOf(x.t) >= s.cutoff ==>
                  OnDisk(q.start0.days, id, x) <= CountIn(q'.found, id, x) <= Total(Held(s, id, x)))
            && (!(id in q.ids && InWindow(x, q.start, q.end)) ==> CountIn(q'.found, id, x) == 0)
  {
    hide OnDisk, OnlyListed, CountIn, Moves, Begins, InWindow, BufferRange;
    RunQueryOk(states, moves, n);
    RunMove(states, moves, n);
    BufferMove(states[n], states[n + 1]);
    BufferCounts(states[n].sys.query, states[n].sys.mem, id, x);
  }

  // ---------- a query by itself ----------

  /** The query is not about this sample, or the sample has not expired. */
  predicate Foreseen(s: Sys, q: Query, id: SeriesId, x: Sample)
    requires q != QIdle
  {
    DayOf(x.t) >= s.cutoff || !(id in q.ids && InWindow(x, q.start, q.end))
  }

  /** A query none of whose moves is interrupted has found, of the days scanned, all their parts hold from
      the cutoff on. */
  ghost predicate QuietOk(s: Sys, q: Query) {
    q.QScanning? ==> forall id: SeriesId, x: Sample :: Foreseen(s, q, id, x) ==>
      CountIn(q.found, id, x) ==
      if id in q.ids && InWindow(x, q.start, q.end) && DayOf(x.t) !in q.todo then InParts(s, id, x) else 0
  }

  /** Of the matched series, every copy in the parts and in the buffer that is in the window; nothing else. */
  ghost predicate FoundExactly(s: Sys, q: Query)
    requires q.QDone?
  {
    forall id: SeriesId, x: Sample :: Foreseen(s, q, id, x) ==>
      CountIn(q.found, id, x) ==
      if id in q.ids && InWindow(x, q.start, q.end) then InParts(s, id, x) + CountIn(s.mem, id, x) else 0
  }

  lemma QuietSnapshot(s: Sys, s': Sys)
    requires KeysOk(s) && NextQuery(s, QuerySnapshot, s')
    ensures QuietOk(s, s'.query)
  {
    var q := s'.query;
    forall id: SeriesId, x: Sample | id in q.ids && InWindow(x, q.start, q.end) && DayOf(x.t) !in q.todo
      ensures InParts(s, id, x) == 0
    {
      WindowDays(x, q.start, q.end);
    }
  }

  lemma QuietScan(p: State, step: Step, s': Sys)
    requires Good(p) && step.QueryScan? && NextQuery(p.sys, step, s') && QuietOk(p.sys, p.sys.query)
    ensures QuietOk(p.sys, s'.query)
  {
    hide Good, OnDisk, OnlyListed, CountIn, Readable, InWindow;
    ScanFrame(p.sys, step, s');
    var q := p.sys.query;
    forall id: SeriesId, x: Sample | DayOf(x.t) >= p.sys.cutoff
      ensures CountIn(s'.query.found, id, x) == CountIn(q.found, id, x) +
        if id in q.ids && InWindow(x, q.start, q.end) && DayOf(x.t) == step.day then InParts(p.sys, id, x) else 0
    {
      UnusedRecent(p, x);
      ScanCount(p, step.day, id, x);
    }
  }

  /** The moves of one query from its matching to its end, nothing in between. */
  ghost predicate IsQuietQuery(states: seq<State>, moves: seq<Move>, matchers: seq<S.Matcher>, start: Int64, end: Int64) {
    && |states| == |moves| + 1 && moves != [] && matchers != [] && moves[0] == Does(QueryMatch(matchers, start, end))
    && (forall i :: 0 <= i < |moves| ==> moves[i].Does? && Moves(states[i], moves[i], states[i + 1]))
    && (forall i :: 0 < i < |moves| ==> Scans(moves[i].step))
  }

  predicate Scans(step: Step) {
    step.QuerySnapshot? || step.QueryScan? || step.QueryBuffer?
  }

  lemma QuietMove(states: seq<State>, moves: seq<Move>, matchers: seq<S.Matcher>, start: Int64, end: Int64, n: nat)
    requires IsQuietQuery(states, moves, matchers, start, end) && n < |moves|
    ensures |states| == |moves| + 1 && moves[n].Does? && Moves(states[n], moves[n], states[n + 1])
    ensures if n == 0 then moves[n].step == QueryMatch(matchers, start, end) else Scans(moves[n].step)
  {
    hide Moves, Scans;
  }

  /** What is so after some moves of a quiet query. */
  ghost predicate Quiet(p0: State, p: State, matchers: seq<S.Matcher>, start: Int64, end: Int64) {
    var q := p.sys.query;
    && matchers != [] && p == p0.(sys := p0.sys.(query := q)) && Good(p) && q != QIdle
    && (q.start, q.end, q.ids) == (start, end, S.Matching(p0.sys.reg.inverted, matchers))
    && QuietOk(p0.sys, q) && (q.QDone? ==> FoundExactly(p0.sys, q))
  }

  lemma {:induction false} QuietSteps(states: seq<State>, moves: seq<Move>, matchers: seq<S.Matcher>, start: Int64, end: Int64, n: nat)
    requires IsQuietQuery(states, moves, matchers, start, end) && Good(states[0]) && 0 < n <= |moves|
    ensures Quiet(states[0], states[n], matchers, start, end)
  {
    hide Good, Moves, Quiet, Scans;
    QuietMove(states, moves, matchers, start, end, n - 1);
    MoveKeepsAt(states, moves, matchers, start, end, n);
    if n == 1 {
      QuietStart(states[0], moves[0].step, states[1]);
    } else {
      QuietSteps(states, moves, matchers, start, end, n - 1);
      QuietStep(states[0], states[n - 1], moves[n - 1].step, states[n], matchers, start, end);
    }
  }

  lemma {:induction false} MoveKeepsAt(states: seq<State>, moves: seq<Move>, matchers: seq<S.Matcher>, start: Int64, end: Int64, n: nat)
    requires IsQuietQuery(states, moves, matchers, start, end) && Good(states[0]) && n <= |moves|
    ensures Good(states[n])
  {
    hide Good, Moves, Scans;
    if n > 0 {
      QuietMove(states, moves, matchers, start, end, n - 1);
      MoveKeepsAt(states, moves, matchers, start, end, n - 1);
      MoveKeeps(states[n - 1], moves[n - 1], states[n]);
    }
  }

  lemma QuietStart(p: State, step: Step, p': State)
    requires step.QueryMatch? && Moves(p, Does(step), p') && Good(p')
    ensures Quiet(p, p', step.matchers, step.start, step.end)
  {
    hide Good, S.Matching;
  }

  lemma QuietBuffer(s: Sys, s': Sys)
    requires NextQuery(s, QueryBuffer, s') && QuietOk(s, s.query)
    ensures s'.query.QDone? && FoundExactly(s, s'.query)
  {
    hide OnDisk, OnlyListed, CountIn, InWindow, BufferRange;
    var q, found := s.query, BufferRange(s.query, s.mem);
    forall id: SeriesId, x: Sample | Foreseen(s, q, id, x)
      ensures CountIn(found, id, x) ==
              if id in q.ids && InWindow(x, q.start, q.end) then InParts(s, id, x) + CountIn(s.mem, id, x) else 0
    {
      BufferCounts(q, s.mem, id, x);
    }
  }

  lemma QueryWindowKept(s: Sys, step: Step, s': Sys)
    requires Scans(step) && NextQuery(s, step, s')
    ensures s'.query != QIdle && s.query != QIdle
    ensures (s'.query.start, s'.query.end, s'.query.ids) == (s.query.start, s.query.end, s.query.ids)
    ensures s'.query.QDone? <==> step.QueryBuffer?
  {
    hide ScansTo, BufferRange, Readable;
  }

  /** Neither predicate depends on the query the state itself records. */
  lemma QuietFrame(s: Sys, t: Sys, q: Query)
    requires t == s.(query := t.query)
    ensures QuietOk(t, q) <==> QuietOk(s, q)
    ensures q.QDone? ==> (FoundExactly(t, q) <==> FoundExactly(s, q))
  {
    hide OnDisk, OnlyListed, CountIn, InWindow;
  }

  lemma QuietStep(p0: State, p: State, step: Step, p': State, matchers: seq<S.Matcher>, start: Int64, end: Int64)
    requires Quiet(p0, p, matchers, start, end) && Scans(step) && Moves(p, Does(step), p') && Good(p')
    ensures Quiet(p0, p', matchers, start, end)
  {
    hide Good, NextQuery, FoundExactly, QuietOk, Next, S.Matching;
    var s, s' := p.sys, p'.sys;
    NextIs(s, step, s');
    QueryFrame(s, step, s');
    QueryWindowKept(s, step, s');
    QuietFrame(p0.sys, s, s.query);
    if step.QuerySnapshot? {
      GoodWork(p);
      QuietSnapshot(s, s');
    } else if step.QueryScan? {
      QuietScan(p, step, s');
    } else {
      QuietBuffer(s, s');
      NotScanning(s, s'.query);
    }
    QuietFrame(p0.sys, s, s'.query);
  }

  lemma NotScanning(s: Sys, q: Query)
    requires !q.QScanning?
    ensures QuietOk(s, q)
  {
  }

  /** A query that nothing interrupts, while no flush is under way and with a window that starts at or
      after every cutoff applied, returns of each series exactly the copies the engine holds if its labels
      satisfy the matchers, and nothing of any other series. */
  lemma QuietQueryIsExact(states: seq<State>, moves: seq<Move>, matchers: seq<S.Matcher>, start: Int64, end: Int64,
                          id: SeriesId, x: Sample)
    requires IsQuietQuery(states, moves, matchers, start, end) && states[|moves|].sys.query.QDone?
    requires Good(states[0]) && states[0].sys.flush == FIdle && S.CleanNames(states[0].sys.reg)
    requires S.CleanMatchers(matchers) && DayOf(start) >= states[0].sys.cutoff
    ensures var s := states[0].sys;
            CountIn(states[|moves|].sys.query.found, id, x) ==
            if id in s.reg.names && S.Satisfies(s.reg.names[id], matchers) && InWindow(x, start, end)
            then Total(Held(s, id, x)) else 0
  {
    hide *;
    QuietBegun(states, moves, matchers, start, end);
    var p, r := states[0], states[0].sys.reg;
    QuietSteps(states, moves, matchers, start, end, |moves|);
    QuietFound(p, states[|moves|], matchers, start, end, id, x);
    if InWindow(x, start, end) {
      WindowDays(x, start, end);
      if id in S.Matching(r.inverted, matchers) {
        MatchedSatisfies(p, matchers, id);
      } else if Total(Held(p.sys, id, x)) > 0 {
        StoredIsMatched(p, matchers, id, x);
      }
    }
  }

  lemma QuietBegun(states: seq<State>, moves: seq<Move>, matchers: seq<S.Matcher>, start: Int64, end: Int64)
    requires IsQuietQuery(states, moves, matchers, start, end)
    ensures |states| == |moves| + 1 && |moves| > 0 && matchers != []
  {
  }

  /** What the query has found of the series it has matched. */
  lemma QuietFound(p0: State, p: State, matchers: seq<S.Matcher>, start: Int64, end: Int64, id: SeriesId, x: Sample)
    requires matchers != [] && Quiet(p0, p, matchers, start, end) && p.sys.query.QDone?
    requires p0.sys.flush == FIdle && DayOf(start) >= p0.sys.cutoff
    ensures CountIn(p.sys.query.found, id, x) ==
            if id in S.Matching(p0.sys.reg.inverted, matchers) && InWindow(x, start, end) then Total(Held(p0.sys, id, x)) else 0
  {
    hide Good, QuietOk, OnDisk, OnlyListed, CountIn, S.Matching, Held, InParts;
    HeldAtRest(p0.sys, id, x);
    if InWindow(x, start, end) {
      WindowDays(x, start, end);
    }
    hide InWindow;
    assert Foreseen(p0.sys, p.sys.query, id, x);
  }

  lemma HeldAtRest(s: Sys, id: SeriesId, x: Sample)
    requires s.flush == FIdle
    ensures Total(Held(s, id, x)) == InParts(s, id, x) + CountIn(s.mem, id, x)
  {
    hide OnDisk, OnlyListed, CountIn;
  }
}
