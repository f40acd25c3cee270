/** The program against the log: what every run keeps of every sample. */
module ProgramLedger {
  import opened Contents
  import opened Engine
  import opened EngineInvariant
  import opened EngineLedger
  import opened Labels
  import opened Part
  import opened Program
  import opened SortedIds

  // ---------- one move ----------

  function EventOfMove(p: State, move: Move): Event {
    if move.Does? then EventOf(p.sys, move.step) else Silent
  }

  /** The same copies in memory, and if whole, in the parts too. */
  predicate SameLedger(a: Ledger, b: Ledger, whole: bool) {
    a.mem == b.mem && a.flight == b.flight && (whole ==> a == b)
  }

  lemma WithoutTally(s: Sys, used: set<Day>, k: Str, x: Sample)
    ensures SameLedger(Tally(Without(s, used), k, x), Tally(s, k, x), DayOf(x.t) !in used)
  {
    hide SumOver, CountIn;
  }

  /** What an event does to the copies in memory depends on nothing else. */
  lemma RecordAlike(a: Ledger, b: Ledger, e: Event, k: Str, x: Sample, whole: bool)
    requires SameLedger(a, b, whole)
    ensures SameLedger(Record(a, e, k, x), Record(b, e, k, x), whole || e == Expired(DayOf(x.t)))
  {
  }

  lemma Transfers(s: Sys, used: set<Day>, s': Sys, used': set<Day>, e: Event, k: Str, x: Sample)
    requires SameLedger(Tally(Without(s', used'), k, x), Record(Tally(Without(s, used), k, x), e, k, x), DayOf(x.t) !in used')
    requires forall d :: d in used && d !in used' ==> e == Expired(d)
    ensures SameLedger(Tally(s', k, x), Record(Tally(s, k, x), e, k, x), DayOf(x.t) !in used')
  {
    WithoutTally(s, used, k, x);
    WithoutTally(s', used', k, x);
    hide Tally, Without, Record;
    RecordAlike(Tally(Without(s, used), k, x), Tally(s, k, x), e, k, x, DayOf(x.t) !in used);
  }

  lemma SkipTally(s: Sys, k: Str, x: Sample)
    requires s.flush.FDay? && s.flush.day in s.flush.todo
    ensures var t := s.(flush := FVisiting(s.flush.batch, s.flush.todo - {s.flush.day}));
            SameLedger(Tally(t, k, x), Record(Tally(s, k, x), Persisted(s.flush.day), k, x), DayOf(x.t) != s.flush.day)
  {
    hide OnDisk, OnlyListed, CountIn;
  }

  lemma FailsAlike(l: Ledger, d: Day, k: Str, x: Sample)
    ensures SameLedger(Record(l, DayFailed(d), k, x), Record(l, Unsaved(d), k, x), DayOf(x.t) != d)
  {
  }

  lemma SilentIs(l: Ledger, k: Str, x: Sample)
    ensures Record(l, Silent, k, x) == l
  {
  }

  lemma InsideEvent(s: Sys, step: Step, used: set<Day>)
    requires IsFlushStep(step) && WorksOn(s, step, used)
    ensures s.flush.FDay? && s.flush.day in used && Without(s, used).flush.day == s.flush.day
    ensures EventOf(s, step) == if step.FlushPublish? then Persisted(s.flush.day)
                                else if step.FlushManifestFails? then Unsaved(s.flush.day)
                                else if step.FlushDayFails? then DayFailed(step.day)
                                else if step.FlushSwap? then Swapped
                                else if step.FlushRegistryFails? then Restored else Silent
  {
  }

  lemma DayStep(s: Sys, step: Step, s': Sys)
    requires IsFlushStep(step) && s.flush.FDay? && NextFlush(s, step, s')
    ensures Next(s, step, s')
    ensures !step.FlushSwap? && !step.FlushRegistryFails?
  {
    hide Sorts, Permutes, DayPart, Joined, OpensAs, Renames;
  }

  lemma FailIs(s: Sys, d: Day, data: Series, s': Sys, k: Str, x: Sample)
    requires Inv(s) && NextFlush(s, FlushDayFails(d, data), s')
    ensures Tally(s', k, x) == Record(Tally(s, k, x), DayFailed(d), k, x)
  {
    hide NextFlush, Inv, Tally, Record;
    assert Next(s, FlushDayFails(d, data), s');
    StepTally(s, FlushDayFails(d, data), s', k, x);
  }

  lemma PublishInside(w: Sys, k: Str, x: Sample, whole: bool)
    requires Inv(w) && w.flush.FDay? && (whole ==> DayOf(x.t) != w.flush.day)
    ensures var t := w.(flush := FVisiting(w.flush.batch, w.flush.todo - {w.flush.day}));
            SameLedger(Tally(t, k, x), Record(Tally(w, k, x), Persisted(w.flush.day), k, x), whole)
  {
    hide Inv, Tally, Record;
    FlushFacts(w);
    SkipTally(w, k, x);
  }

  lemma FailsInside(w: Sys, d: Day, data: Series, w': Sys, k: Str, x: Sample, e: Event, whole: bool)
    requires Inv(w) && NextFlush(w, FlushDayFails(d, data), w') && (e == DayFailed(d) || (e == Unsaved(d) && (whole ==> DayOf(x.t) != d)))
    ensures SameLedger(Tally(w', k, x), Record(Tally(w, k, x), e, k, x), whole)
  {
    hide Inv, Tally, Record, NextFlush;
    FailIs(w, d, data, w', k, x);
    FailsAlike(Tally(w, k, x), d, k, x);
  }

  lemma SilentInside(w: Sys, k: Str, x: Sample, whole: bool)
    ensures SameLedger(Tally(w, k, x), Record(Tally(w, k, x), Silent, k, x), whole)
  {
    hide Tally;
  }

  lemma IsWork(s: Sys, step: Step, used: set<Day>)
    requires IsFlushStep(step) && s.flush.FDay? && s.flush.day in used
    ensures WorksOn(s, step, used)
  {
  }

  /** A flush on a used day: the copies in memory change as the log says. */
  lemma InsideTally(s: Sys, step: Step, s': Sys, used: set<Day>, k: Str, x: Sample)
    requires IsFlushStep(step) && s.flush.FDay? && s.flush.day in used && s.flush.day in s.partitions
    requires NextFlush(s, step, s') && Inv(Without(s, used))
    ensures SameLedger(Tally(s', k, x), Record(Tally(s, k, x), EventOf(s, step), k, x), DayOf(x.t) !in used)
  {
    hide *;
    IsWork(s, step, used);
    var w, w', whole := Without(s, used), Without(s', used), DayOf(x.t) !in used;
    InsideEvent(s, step, used);
    DayStep(s, step, s');
    FlushInside(s, step, s', used);
    if step.FlushPublish? {
      PublishInside(w, k, x, whole);
    } else if step.FlushManifestFails? {
      FailsInside(w, s.flush.day, step.data, w', k, x, EventOf(s, step), whole);
    } else if step.FlushDayFails? {
      FailsInside(w, step.day, step.data, w', k, x, EventOf(s, step), whole);
    } else {
      SilentInside(w, k, x, whole);
    }
    Transfers(s, used, s', used, EventOf(s, step), k, x);
  }

  lemma OutsideEvent(s: Sys, step: Step, used: set<Day>)
    requires !(IsMergeStep(step) && WorksOn(s, step, used))
    ensures EventOf(Without(s, used), step) == EventOf(s, step)
  {
  }

  lemma OutsideTally(s: Sys, step: Step, s': Sys, used: set<Day>, used': set<Day>, k: Str, x: Sample)
    requires Inv(Without(s, used)) && Next(Without(s, used), step, Without(s', used'))
    requires !(IsMergeStep(step) && WorksOn(s, step, used))
    requires forall d :: d in used && d !in used' ==> EventOf(s, step) == Expired(d)
    ensures SameLedger(Tally(s', k, x), Record(Tally(s, k, x), EventOf(s, step), k, x), DayOf(x.t) !in used')
  {
    hide Inv, Next, Without, Tally, EventOf, Record, WorksOn;
    OutsideEvent(s, step, used);
    StepTally(Without(s, used), step, Without(s', used'), k, x);
    Transfers(s, used, s', used', EventOf(s, step), k, x);
  }

  lemma FlushTally(s: Sys, step: Step, s': Sys, used: set<Day>, k: Str, x: Sample)
    requires Inv(Without(s, used)) && WorkOk(s) && used <= s.partitions.Keys && IsFlushStep(step) && NextFlush(s, step, s')
    ensures SameLedger(Tally(s', k, x), Record(Tally(s, k, x), EventOf(s, step), k, x), DayOf(x.t) !in used)
  {
    hide Inv, NextFlush, Without, Tally, EventOf, Record, WorkOk;
    if WorksOn(s, step, used) {
      InsideTally(s, step, s', used, k, x);
    } else {
      FlushOutside(s, step, s', used);
      OutsideTally(s, step, s', used, used, k, x);
    }
  }

  lemma MergeTally(s: Sys, step: Step, s': Sys, used: set<Day>, k: Str, x: Sample)
    requires Inv(Without(s, used)) && IsMergeStep(step) && NextMerge(s, step, s')
    ensures SameLedger(Tally(s', k, x), Record(Tally(s, k, x), EventOf(s, step), k, x), DayOf(x.t) !in used)
  {
    hide *;
    if WorksOn(s, step, used) {
      MergeInside(s, step, s', used);
      MergeEvent(s, step, used, Tally(Without(s, used), k, x), k, x);
      Transfers(s, used, s', used, EventOf(s, step), k, x);
    } else {
      MergeOutside(s, step, s', used);
      NextMergeIs(Without(s, used), step, Without(s', used));
      OutsideTally(s, step, s', used, used, k, x);
    }
  }

  lemma MergeEvent(s: Sys, step: Step, used: set<Day>, l: Ledger, k: Str, x: Sample)
    requires IsMergeStep(step) && WorksOn(s, step, used)
    ensures SameLedger(l, Record(l, EventOf(s, step), k, x), DayOf(x.t) !in used)
  {
  }

  lemma RetentionTally(s: Sys, step: Step, s': Sys, used: set<Day>, k: Str, x: Sample)
    requires Inv(Without(s, used)) && AloneOk(s, SIdle) && IsRetentionStep(step) && NextRetention(s, step, s')
    ensures var used' := if step.RetentionDropDir? then used - {step.day} else used;
            SameLedger(Tally(s', k, x), Record(Tally(s, k, x), EventOf(s, step), k, x), DayOf(x.t) !in used')
  {
    hide *;
    if step.RetentionStart? {
      StartTally(s, step, s', k, x);
      SameSelf(Tally(s', k, x), DayOf(x.t) !in used);
    } else {
      var used' := if step.RetentionDropDir? then used - {step.day} else used;
      DropEvent(s, step);
      PassAlone(s, step, s');
      Kinds(step);
      RetentionOutside(s, step, s', used);
      NextRetentionIs(Without(s, used), step, Without(s', used'));
      OutsideTally(s, step, s', used, used', k, x);
    }
  }

  lemma DropEvent(s: Sys, step: Step)
    ensures step.RetentionDropDir? ==> EventOf(s, step) == Expired(step.day)
  {
  }

  lemma StartTally(s: Sys, step: Step, s': Sys, k: Str, x: Sample)
    requires step.RetentionStart? && NextRetention(s, step, s')
    ensures Tally(s', k, x) == Record(Tally(s, k, x), EventOf(s, step), k, x)
  {
    hide OnDisk, OnlyListed, CountIn, InFlight;
  }

  lemma OtherTally(s: Sys, step: Step, s': Sys, used: set<Day>, k: Str, x: Sample)
    requires Inv(Without(s, used)) && Next(s, step, s')
    requires step.AppendResolve? || step.AppendIndex? || step.AppendBuffer? || step.Crash?
    ensures SameLedger(Tally(s', k, x), Record(Tally(s, k, x), EventOf(s, step), k, x), DayOf(x.t) !in used)
  {
    hide Inv, Without, NextAppend, NextCrash, Tally, EventOf, Record;
    if step.Crash? {
      CrashOutside(s, s', used);
    } else {
      AppendOutside(s, step, s', used);
    }
    OutsideTally(s, step, s', used, used, k, x);
  }

  lemma QueryTally(s: Sys, step: Step, s': Sys, k: Str, x: Sample)
    requires IsQueryStep(step) && NextQuery(s, step, s')
    ensures Tally(s', k, x) == Record(Tally(s, k, x), EventOf(s, step), k, x)
  {
    QueryFrame(s, step, s');
    hide NextQuery, OnDisk, OnlyListed, CountIn;
  }

  lemma EngineTally(p: State, step: Step, p': State, k: Str, x: Sample)
    requires Good(p) && MovesEngine(p, step, p')
    ensures SameLedger(Tally(p'.sys, k, x), Record(Tally(p.sys, k, x), EventOf(p.sys, step), k, x), DayOf(x.t) !in p'.used)
  {
    hide Inv, Without, Next, AllDirsOk, ReadOk, StaleOk, KeysOk, WorkOk, Tally, EventOf, Record, SameLedger;
    var s, s' := p.sys, p'.sys;
    NextIs(s, step, s');
    if IsFlushStep(step) {
      FlushTally(s, step, s', p.used, k, x);
    } else if IsMergeStep(step) {
      MergeTally(s, step, s', p.used, k, x);
    } else if IsRetentionStep(step) {
      NotStale(p, step, s');
      RetentionTally(s, step, s', p.used, k, x);
      if step.RetentionDropDir? && step.day !in s.partitions {
        assert p.used - {step.day} == p.used;
      }
    } else if IsQueryStep(step) {
      QueryTally(s, step, s', k, x);
      assert SameLedger(Tally(s', k, x), Tally(s', k, x), DayOf(x.t) !in p.used) by {
        SameSelf(Tally(s', k, x), DayOf(x.t) !in p.used);
      }
    } else {
      OtherTally(s, step, s', p.used, k, x);
    }
  }

  lemma SameSelf(l: Ledger, whole: bool)
    ensures SameLedger(l, l, whole)
  {
  }

  /** A merge of a dropped partition moves nothing outside the days used. */
  lemma StaleTally(p: State, move: Move, p': State, k: Str, x: Sample)
    requires !move.Does? && MovesStale(p, move, p') && StaleOk(p)
    ensures SameLedger(Tally(p'.sys, k, x), Tally(p.sys, k, x), DayOf(x.t) !in p'.used)
  {
    hide CountIn, SumOver, DirOf, Renames;
  }

  /** Refinement: with every move the copies in memory change exactly as the log says, and so do those in
      the parts of every day that no merge of a dropped partition has used. */
  lemma MoveTally(p: State, move: Move, p': State, k: Str, x: Sample)
    requires Good(p) && Moves(p, move, p')
    ensures SameLedger(Tally(p'.sys, k, x), Record(Tally(p.sys, k, x), EventOfMove(p, move), k, x), DayOf(x.t) !in p'.used)
    ensures forall d :: d in p.used && d !in p'.used ==> EventOfMove(p, move) == Expired(d)
  {
    hide Inv, Next, Tally, SameLedger;
    if move.Does? {
      EngineTally(p, move.step, p', k, x);
    } else {
      StaleTally(p, move, p', k, x);
    }
  }

  // ---------- runs ----------

  /** The log after the first n moves of a run. */
  function Recorded(states: seq<State>, moves: seq<Move>, n: nat, k: Str, x: Sample): Ledger
    requires n <= |moves| && |states| == |moves| + 1
  {
    if n == 0 then NOTHING
    else Record(Recorded(states, moves, n - 1, k, x), EventOfMove(states[n - 1], moves[n - 1]), k, x)
  }

  lemma BeginsTally(p: State, k: Str, x: Sample)
    requires Begins(p)
    ensures Tally(p.sys, k, x) == NOTHING
  {
    hide CanonicalKey, SortedLabels;
  }

  /** In every run, at every point, the engine holds of every sample exactly the copies the log says,
      where the log says; only what is in the parts of a day that a merge of a dropped partition has
      used is left open. */
  lemma {:induction false} RefinesLog(states: seq<State>, moves: seq<Move>, n: nat, k: Str, x: Sample)
    requires IsRun(states, moves) && n <= |moves|
    ensures SameLedger(Tally(states[n].sys, k, x), Recorded(states, moves, n, k, x), DayOf(x.t) !in states[n].used)
  {
    hide Tally, Record, EventOfMove, Moves, Good, Begins;
    if n == 0 {
      BeginsTally(states[0], k, x);
    } else {
      var p, move, p' := states[n - 1], moves[n - 1], states[n];
      RefinesLog(states, moves, n - 1, k, x);
      RunGood(states, moves, n - 1);
      RunMove(states, moves, n - 1);
      MoveTally(p, move, p', k, x);
      RecordAlike(Tally(p.sys, k, x), Recorded(states, moves, n - 1, k, x), EventOfMove(p, move), k, x, DayOf(x.t) !in p.used);
    }
  }

  // ---------- days that are not used ----------

  /** The move drops day d. */
  predicate Drops(move: Move, d: Day) {
    move.Does? && move.step == RetentionDropDir(d)
  }

  predicate NeverDropped(moves: seq<Move>, i: nat, n: nat, d: Day)
    requires n <= |moves|
  {
    forall j :: i <= j < n ==> !Drops(moves[j], d)
  }

  lemma UsedStays(p: State, move: Move, p': State, d: Day)
    requires Moves(p, move, p') && !Drops(move, d)
    ensures d in p.used ==> d in p'.used
  {
    hide Next;
  }

  lemma NewlyUsed(p: State, move: Move, p': State, d: Day)
    requires Good(p) && Moves(p, move, p') && !Drops(move, d) && d !in p.used
    requires forall i :: 0 <= i < |p.handles| ==> p.handles[i].day != d
    ensures d !in p'.used && forall i :: 0 <= i < |p'.handles| ==> p'.handles[i].day != d
  {
    hide Inv, Next, AllDirsOk, ReadOk, DirOf;
  }

  /** Only a day that this process has dropped and made again can be used by a merge of a dropped
      partition. */
  lemma {:induction false} UsedWasDropped(states: seq<State>, moves: seq<Move>, n: nat, d: Day)
    requires IsRun(states, moves) && n <= |moves| && NeverDropped(moves, 0, n, d)
    ensures d !in states[n].used && forall i :: 0 <= i < |states[n].handles| ==> states[n].handles[i].day != d
  {
    hide Moves, Good, Drops;
    if n > 0 {
      hide Begins;
      UsedWasDropped(states, moves, n - 1, d);
      RunGood(states, moves, n - 1);
      RunMove(states, moves, n - 1);
      NewlyUsed(states[n - 1], moves[n - 1], states[n], d);
    }
  }

  /** Every day from the largest cutoff on is unused. */
  lemma UsedIsOld(states: seq<State>, moves: seq<Move>, n: nat, d: Day)
    requires IsRun(states, moves) && n <= |moves| && d in states[n].used
    ensures d < states[n].sys.cutoff
  {
    RunGood(states, moves, n);
    hide Inv, AllDirsOk, ReadOk, IsRun;
  }

  // ---------- conservation ----------

  /** How often x was appended to the series with key k in the first n moves. */
  function AppendedBy(states: seq<State>, moves: seq<Move>, n: nat, k: Str, x: Sample): nat
    requires n <= |moves| && |states| == |moves| + 1
  {
    if n == 0 then 0
    else
      var e := EventOfMove(states[n - 1], moves[n - 1]);
      AppendedBy(states, moves, n - 1, k, x) + if e.Appended? && e.key == k then multiset(e.samples)[x] else 0
  }

  /** Moves that do not keep every copy once: a crash, retention of the day, a flush that fails on some day
      or cannot save its manifest. */
  predicate Loses(move: Move, x: Sample) {
    move.Does? && (move.step.Crash? || move.step.FlushDayFails? || move.step.FlushManifestFails? || Drops(move, DayOf(x.t)))
  }

  function Total(l: Ledger): nat {
    l.mem + l.flight + l.listed + l.disk
  }

  /** Without those moves no copy is ever lost and none is made: across all merges, of live partitions and of
      dropped ones, all flushes and failed registry writes, the copies held are exactly those appended. */
  lemma NothingLostOrDuplicated(states: seq<State>, moves: seq<Move>, n: nat, k: Str, x: Sample)
    requires IsRun(states, moves) && n <= |moves|
    requires forall i :: 0 <= i < n ==> !Loses(moves[i], x)
    ensures Total(Tally(states[n].sys, k, x)) == AppendedBy(states, moves, n, k, x)
  {
    hide Moves, Begins, Tally, Recorded, AppendedBy;
    UsedWasDropped(states, moves, n, DayOf(x.t));
    RefinesLog(states, moves, n, k, x);
    RecordedTotal(states, moves, n, k, x);
  }

  lemma TotalMove(p: State, move: Move, l: Ledger, k: Str, x: Sample)
    requires !Loses(move, x)
    ensures var e := EventOfMove(p, move);
            Total(Record(l, e, k, x)) == Total(l) + if e.Appended? && e.key == k then multiset(e.samples)[x] else 0
  {
  }

  lemma {:induction false} RecordedTotal(states: seq<State>, moves: seq<Move>, n: nat, k: Str, x: Sample)
    requires n <= |moves| && |states| == |moves| + 1
    requires forall i :: 0 <= i < n ==> !Loses(moves[i], x)
    ensures Total(Recorded(states, moves, n, k, x)) == AppendedBy(states, moves, n, k, x)
  {
    hide Loses, Record, EventOfMove;
    if n > 0 {
      RecordedTotal(states, moves, n - 1, k, x);
      TotalMove(states[n - 1], moves[n - 1], Recorded(states, moves, n - 1, k, x), k, x);
    }
  }

  // ---------- durability ----------

  /** One move, seen from a day that is unused afterwards. */
  lemma UnusedMove(states: seq<State>, moves: seq<Move>, n: nat, k: Str, x: Sample)
    requires IsRun(states, moves) && n < |moves| && !Drops(moves[n], DayOf(x.t)) && DayOf(x.t) !in states[n + 1].used
    ensures DayOf(x.t) !in states[n].used
    ensures Tally(states[n + 1].sys, k, x) == Record(Tally(states[n].sys, k, x), EventOfMove(states[n], moves[n]), k, x)
  {
    hide Tally, Record, EventOfMove, Moves, Good, Drops;
    RunGood(states, moves, n);
    RunMove(states, moves, n);
    UsedStays(states[n], moves[n], states[n + 1], DayOf(x.t));
    MoveTally(states[n], moves[n], states[n + 1], k, x);
  }

  /** Some move from the i-th to before the n-th saved a manifest of day d. */
  ghost predicate ManifestSaved(states: seq<State>, moves: seq<Move>, i: nat, n: nat, d: Day)
    requires n <= |moves| && |states| == |moves| + 1
  {
    exists j :: i <= j < n && (EventOfMove(states[j], moves[j]) == Persisted(d) || EventOfMove(states[j], moves[j]) == Saved(d))
  }

  /** Once on disk, a copy stays there through crashes, reopenings, merges and everything else until
      retention drops its day, and only a saved manifest adds to the copies on disk. */
  lemma {:induction false} DiskKept(states: seq<State>, moves: seq<Move>, i: nat, n: nat, k: Str, x: Sample)
    requires IsRun(states, moves) && i <= n <= |moves|
    requires NeverDropped(moves, i, n, DayOf(x.t)) && DayOf(x.t) !in states[n].used
    ensures Tally(states[i].sys, k, x).disk <= Tally(states[n].sys, k, x).disk
    ensures !ManifestSaved(states, moves, i, n, DayOf(x.t)) ==>
              Tally(states[i].sys, k, x).disk == Tally(states[n].sys, k, x).disk
    decreases n
  {
    hide Tally, Moves, Begins, EventOfMove, Drops;
    if i < n {
      UnusedMove(states, moves, n - 1, k, x);
      DiskKept(states, moves, i, n - 1, k, x);
      ExpiredOnly(states[n - 1], moves[n - 1], x);
    }
  }

  lemma ExpiredOnly(p: State, move: Move, x: Sample)
    ensures EventOfMove(p, move) == Expired(DayOf(x.t)) ==> Drops(move, DayOf(x.t))
  {
  }

  /** From the move after the i-th to the n-th, neither another swap, a failure, a crash nor an expiry of x. */
  predicate FlushUndisturbed(moves: seq<Move>, i: nat, n: nat, x: Sample)
    requires n <= |moves|
  {
    forall j :: i < j < n ==> !Loses(moves[j], x) && moves[j] != Does(FlushRegistryFails) && moves[j] != Does(FlushSwap)
  }

  lemma QuietEvent(p: State, move: Move, l: Ledger, k: Str, x: Sample)
    requires !Loses(move, x) && move != Does(FlushRegistryFails) && move != Does(FlushSwap)
    ensures var l' := Record(l, EventOfMove(p, move), k, x);
            l'.flight + l'.listed + l'.disk == l.flight + l.listed + l.disk && l'.listed <= l.listed
  {
  }

  lemma {:induction false} FlushMoves(states: seq<State>, moves: seq<Move>, i: nat, n: nat, k: Str, x: Sample)
    requires IsRun(states, moves) && i < n <= |moves| && moves[i] == Does(FlushSwap) && FlushUndisturbed(moves, i, n, x)
    requires DayOf(x.t) !in states[n].used
    ensures var before, l := Tally(states[i].sys, k, x), Tally(states[n].sys, k, x);
            && DayOf(x.t) !in states[i].used && before.flight == 0
            && l.flight + l.listed + l.disk == before.mem + before.listed + before.disk && l.listed <= before.listed
    decreases n
  {
    hide Tally, Moves, Begins, EventOfMove, Loses;
    NotDropped(moves[n - 1], x);
    UnusedMove(states, moves, n - 1, k, x);
    if n - 1 > i {
      FlushMoves(states, moves, i, n - 1, k, x);
      QuietEvent(states[n - 1], moves[n - 1], Tally(states[n - 1].sys, k, x), k, x);
    } else {
      RunMove(states, moves, i);
      SwapMove(states[i], states[n], k, x);
    }
  }

  lemma NotDropped(move: Move, x: Sample)
    ensures !Loses(move, x) || move == Does(FlushSwap) ==> !Drops(move, DayOf(x.t))
  {
  }

  lemma SwapMove(p: State, p': State, k: Str, x: Sample)
    requires Moves(p, Does(FlushSwap), p')
    ensures Tally(p.sys, k, x).flight == 0 && EventOfMove(p, Does(FlushSwap)) == Swapped
  {
    hide OnDisk, OnlyListed, CountIn;
  }

  lemma IdleNoFlight(s: Sys, k: Str, x: Sample)
    requires s.flush == FIdle
    ensures Tally(s, k, x).flight == 0
  {
    hide OnDisk, OnlyListed, CountIn;
  }

  /** A flush that ends without an error has put on disk every copy that was in the buffer when it began,
      once each, and there they survive any later crash. What was listed without being saved may have been
      saved along with them. */
  lemma FlushIsDurable(states: seq<State>, moves: seq<Move>, i: nat, j: nat, n: nat, k: Str, x: Sample)
    requires IsRun(states, moves) && i < j <= n <= |moves| && moves[i] == Does(FlushSwap)
    requires FlushUndisturbed(moves, i, j, x) && states[j].sys.flush == FIdle
    requires NeverDropped(moves, j, n, DayOf(x.t)) && DayOf(x.t) !in states[n].used
    ensures var before, after, later := Tally(states[i].sys, k, x), Tally(states[j].sys, k, x), Tally(states[n].sys, k, x);
            && before.flight == 0 && after.listed <= before.listed
            && after.disk + after.listed == before.mem + before.disk + before.listed
            && later.disk >= before.mem + before.disk
            && (before.listed == 0 && !ManifestSaved(states, moves, j, n, DayOf(x.t)) ==> later.disk == before.mem + before.disk)
  {
    hide Tally, EventOfMove, Moves, Begins, Loses;
    DiskKept(states, moves, j, n, k, x);
    UnusedBefore(states, moves, j, n, DayOf(x.t));
    FlushMoves(states, moves, i, j, k, x);
    IdleNoFlight(states[j].sys, k, x);
  }

  lemma {:induction false} UnusedBefore(states: seq<State>, moves: seq<Move>, i: nat, n: nat, d: Day)
    requires IsRun(states, moves) && i <= n <= |moves| && NeverDropped(moves, i, n, d) && d !in states[n].used
    ensures d !in states[i].used
    decreases n
  {
    hide Moves, Begins, Drops;
    if i < n {
      RunMove(states, moves, n - 1);
      UsedStays(states[n - 1], moves[n - 1], states[n], d);
      UnusedBefore(states, moves, i, n - 1, d);
    }
  }
}
