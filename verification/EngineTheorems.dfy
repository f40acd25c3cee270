/** What the program promises over whole runs. */
module EngineTheorems {
  import opened Contents
  import opened Cutoffs
  import opened DayNames
  import opened Engine
  import opened EngineInvariant
  import opened EngineLedger
  import opened EngineQuery
  import opened Labels
  import opened Part
  import opened Program
  import opened ProgramLedger
  import opened ProgramListed
  import opened SortedIds
  import S = Series
  import opened Varint

  // ---------- crashes ----------

  /** A series of a part directory has a forward record under the labels it is registered with, and an
      inverted record of that day repeating it. */
  ghost predicate DurablyNamed(s: Sys, d: Day, id: SeriesId) {
    && id in s.disk.forward && id in s.reg.names && s.disk.forward[id] == s.reg.names[id]
    && d in s.disk.inverted && id in s.disk.inverted[d] && s.disk.inverted[d][id] == s.disk.forward[id]
  }

  /** No merge of a dropped partition of day d has saved a manifest in the first n moves. */
  ghost predicate NoStaleSwap(states: seq<State>, moves: seq<Move>, n: nat, d: Day)
    requires n <= |moves| && |states| == |moves| + 1
  {
    forall i :: 0 <= i < n ==> !SwapsOn(states[i], moves[i], d)
  }

  /** At every point of every run, so wherever a crash may strike: unless a merge of a dropped partition has
      saved its manifest, all parts of the manifest are listed and each listed part has its directory; in
      a day none has written to, the next part ID is above every directory; and in every day every series
      of every directory, orphans and staging directories included, is durably named. */
  lemma DurableAtEveryPoint(states: seq<State>, moves: seq<Move>, n: nat, d: Day, m: PartId)
    requires IsRun(states, moves) && n <= |moves| && d in states[n].sys.disk.days
    ensures var s, dd := states[n].sys, states[n].sys.disk.days[d];
            && d in s.partitions
            && (NoStaleSwap(states, moves, n, d) ==> (m in dd.manifest ==> m in s.partitions[d].parts) && (m in s.partitions[d].parts ==> m in dd.dirs))
            && (d !in states[n].used && (m in dd.dirs || m in dd.staging) ==> m < s.partitions[d].nextID)
            && (m in dd.dirs ==> forall id :: id in dd.dirs[m].data ==> DurablyNamed(s, d, id))
            && (m in dd.staging ==> forall id :: id in dd.staging[m].data ==> DurablyNamed(s, d, id))
  {
    hide Moves, Begins, Good, DurablyNamed, PartsListed, SwapsOn;
    RunGood(states, moves, n);
    GoodWork(states[n]);
    if NoStaleSwap(states, moves, n, d) {
      ListedUntil(states, moves, n, d);
      ListedHere(states[n].sys, d);
    }
    if d !in states[n].used {
      UnusedIds(states[n], d);
    }
    AllDurablyNamed(states[n], d);
  }

  lemma ListedHere(s: Sys, d: Day)
    requires PartsListed(s, d) && d in s.partitions
    ensures d in s.disk.days && s.disk.days[d].manifest <= s.partitions[d].parts <= s.disk.days[d].dirs.Keys
  {
  }

  lemma UnusedIds(p: State, d: Day)
    requires Good(p) && d in p.sys.disk.days && d !in p.used
    ensures d in p.sys.partitions
    ensures forall m :: m in p.sys.disk.days[d].dirs || m in p.sys.disk.days[d].staging ==> m < p.sys.partitions[d].nextID
  {
    GoodDays(p);
    hide Good, PartsOk;
    var w := Without(p.sys, p.used);
    assert w.partitions[d] == p.sys.partitions[d] && w.disk.days[d] == p.sys.disk.days[d];
  }

  lemma AllDurablyNamed(p: State, d: Day)
    requires Good(p) && d in p.sys.disk.days
    ensures forall m :: m in p.sys.disk.days[d].dirs ==>
              forall id :: id in p.sys.disk.days[d].dirs[m].data ==> DurablyNamed(p.sys, d, id)
    ensures forall m :: m in p.sys.disk.days[d].staging ==>
              forall id :: id in p.sys.disk.days[d].staging[m].data ==> DurablyNamed(p.sys, d, id)
  {
    GoodRecords(p);
    hide Good, S.Consistent, S.WellIndexed;
  }

  lemma GoodRecords(p: State)
    requires Good(p)
    ensures Agrees(p.sys.disk.forward, p.sys.reg.names) && DurableOk(p.sys.disk.forward, p.sys.disk.inverted)
    ensures AllDirsOk(p.sys.disk)
  {
    hide IdsOk, PersistedOk, FindableOk, DaysOk, FlushOk, TodoOk, MergeOk, RetentionOk, S.Consistent, S.WellIndexed, AllDirsOk, ReadOk, DurableOk;
  }

  /** A crash and the reopening after it leave every day with exactly its manifest's parts; staging
      directories are gone, orphans stay but are not listed, and new part IDs are above them all. */
  lemma CrashKeepsManifests(states: seq<State>, moves: seq<Move>, n: nat, d: Day)
    requires IsRun(states, moves) && n < |moves| && moves[n] == Does(Crash)
    ensures var s, s' := states[n].sys, states[n + 1].sys;
            && s'.disk.days.Keys == s.disk.days.Keys == s'.partitions.Keys
            && s'.disk.forward == s.disk.forward && s'.disk.inverted == s.disk.inverted
            && (d in s.disk.days ==>
                  && s'.disk.days[d] == s.disk.days[d].(staging := map[])
                  && s'.partitions[d].parts == s.disk.days[d].manifest
                  && (NoStaleSwap(states, moves, n, d) ==> s.disk.days[d].manifest <= s'.disk.days[d].dirs.Keys)
                  && forall m :: m in s'.disk.days[d].dirs ==> m < s'.partitions[d].nextID)
  {
    hide Moves, Begins, SwapsOn, PartsListed;
    RunMove(states, moves, n);
    CrashDays(states[n], states[n + 1], d);
    if NoStaleSwap(states, moves, n, d) && d in states[n].sys.disk.days {
      ListedUntil(states, moves, n, d);
      RunGood(states, moves, n);
      hide Good;
      GoodWork(states[n]);
      ListedHere(states[n].sys, d);
    }
  }

  lemma CrashDays(p: State, p': State, d: Day)
    requires Moves(p, Does(Crash), p')
    ensures var s, s' := p.sys, p'.sys;
            && s'.disk.days.Keys == s.disk.days.Keys == s'.partitions.Keys
            && s'.disk.forward == s.disk.forward && s'.disk.inverted == s.disk.inverted
            && (d in s.disk.days ==>
                  && s'.disk.days[d] == s.disk.days[d].(staging := map[])
                  && s'.partitions[d].parts == s.disk.days[d].manifest
                  && forall m :: m in s'.disk.days[d].dirs ==> m < s'.partitions[d].nextID)
  {
    hide S.Replays;
    if d in p.sys.disk.days {
      assert OpensAs(Cleaned(p.sys.disk.days[d]), p'.sys.partitions[d]);
    }
  }

  /** The series lost in a crash are in no part and no inverted index; the others keep their labels, and
      no ID still to be handed out occurs anywhere on disk. */
  lemma LostIdsAreFree(states: seq<State>, moves: seq<Move>, n: nat, d: Day, m: PartId, id: SeriesId)
    requires IsRun(states, moves) && n < |moves| && moves[n] == Does(Crash) && d in states[n].sys.disk.days
    ensures var s, s' := states[n].sys, states[n + 1].sys;
            && (id in s'.reg.names ==> id in s.reg.names && s'.reg.names[id] == s.reg.names[id])
            && (id !in s'.reg.names || id >= s'.reg.nextID ==>
                  && (m in s.disk.days[d].dirs ==> id !in s.disk.days[d].dirs[m].data)
                  && (forall e :: e in s.disk.inverted ==> id !in s.disk.inverted[e]))
  {
    hide Moves, Begins, Good, DurablyNamed;
    RunGood(states, moves, n);
    RunMove(states, moves, n);
    ReplayedNames(states[n], states[n + 1]);
    GoodRecords(states[n]);
  }

  lemma ReplayedNames(p: State, p': State)
    requires Moves(p, Does(Crash), p')
    ensures p'.sys.reg.names == p.sys.disk.forward && forall id :: id in p'.sys.reg.names ==> id < p'.sys.reg.nextID
  {
    hide CanonicalKey, SortedLabels, OpensAs, S.Has, S.Persisted, S.HasKey;
  }

  // ---------- the log ----------

  /** Every move but a flush that fails on some day or cannot save its manifest, and a crash that finds
      something in memory. */
  ghost predicate Harmless(p: State, move: Move) {
    move.Does? ==>
      && !move.step.FlushDayFails? && !move.step.FlushManifestFails?
      && (move.step.Crash? ==> p.sys.mem == map[] && p.sys.flush == FIdle)
  }

  lemma HarmlessTotal(p: State, move: Move, p': State, k: Str, x: Sample)
    requires Good(p) && Moves(p, move, p') && Harmless(p, move) && DayOf(x.t) >= p.sys.cutoff && Tally(p.sys, k, x).listed == 0
    ensures var e := EventOfMove(p, move);
            && Record(Tally(p.sys, k, x), e, k, x).listed == 0
            && Total(Record(Tally(p.sys, k, x), e, k, x)) ==
               Total(Tally(p.sys, k, x)) + if e.Appended? && e.key == k then multiset(e.samples)[x] else 0
  {
    hide Tally, Good, Moves, Record, EventOfMove, Drops, Harmless;
    CutoffGrows(p, move, p');
    HarmlessEvent(p, move);
    ExpiredOnly(p, move, x);
    if p.sys.mem == map[] && p.sys.flush == FIdle {
      EmptyMemory(p.sys, k, x);
    }
    HarmlessRecord(Tally(p.sys, k, x), EventOfMove(p, move), k, x);
  }

  lemma HarmlessEvent(p: State, move: Move)
    requires Harmless(p, move)
    ensures var e := EventOfMove(p, move);
            !e.DayFailed? && !e.Unsaved? && (e.Crashed? ==> p.sys.mem == map[] && p.sys.flush == FIdle)
  {
  }

  lemma HarmlessRecord(l: Ledger, e: Event, k: Str, x: Sample)
    requires !e.DayFailed? && !e.Unsaved? && e != Expired(DayOf(x.t)) && l.listed == 0
    requires e.Crashed? ==> l.mem == 0 && l.flight == 0
    ensures var l' := Record(l, e, k, x);
            l'.listed == 0 && Total(l') == Total(l) + if e.Appended? && e.key == k then multiset(e.samples)[x] else 0
  {
  }

  lemma EmptyMemory(s: Sys, k: Str, x: Sample)
    requires s.mem == map[] && s.flush == FIdle
    ensures Tally(s, k, x).mem == 0 && Tally(s, k, x).flight == 0
  {
    hide OnDisk, OnlyListed;
  }

  /** Over every run of appends, flushes, merges, retention and clean reopenings, the copies held of a
      sample at or after the cutoff are exactly those appended. */
  lemma {:induction false} Conserved(states: seq<State>, moves: seq<Move>, n: nat, k: Str, x: Sample)
    requires IsRun(states, moves) && n <= |moves| && DayOf(x.t) >= states[n].sys.cutoff
    requires forall i :: 0 <= i < n ==> Harmless(states[i], moves[i])
    ensures Total(Tally(states[n].sys, k, x)) == AppendedBy(states, moves, n, k, x) && Tally(states[n].sys, k, x).listed == 0
  {
    hide Tally, Record, EventOfMove, Moves, Good, Begins, Harmless, Drops;
    if n == 0 {
      BeginsTally(states[0], k, x);
    } else {
      var p, move, p' := states[n - 1], moves[n - 1], states[n];
      RunGood(states, moves, n - 1);
      RunGood(states, moves, n);
      RunMove(states, moves, n - 1);
      CutoffGrows(p, move, p');
      UnusedRecent(p', x);
      Conserved(states, moves, n - 1, k, x);
      MoveTally(p, move, p', k, x);
      HarmlessTotal(p, move, p', k, x);
    }
  }

  /** A run, and from its end a query that nothing interrupts. */
  ghost predicate QueryAfter(states: seq<State>, moves: seq<Move>, qstates: seq<State>, qmoves: seq<Move>,
                             matchers: seq<S.Matcher>, start: Int64, end: Int64)
  {
    && IsRun(states, moves) && (forall i :: 0 <= i < |moves| ==> CleanMove(moves[i]))
    && IsQuietQuery(qstates, qmoves, matchers, start, end) && qstates[|qmoves|].sys.query.QDone?
    && qstates[0] == states[|moves|] && states[|moves|].sys.flush == FIdle
    && S.CleanMatchers(matchers) && DayOf(start) >= states[|moves|].sys.cutoff
  }

  /** What such a query returns is what the log says: of the series whose labels have every matcher,
      each sample in the window as often as the log holds it, wherever the engine keeps it. */
  lemma QueryReturnsTheLog(states: seq<State>, moves: seq<Move>, qstates: seq<State>, qmoves: seq<Move>,
                           matchers: seq<S.Matcher>, start: Int64, end: Int64, k: Str, x: Sample)
    requires QueryAfter(states, moves, qstates, qmoves, matchers, start, end) && InWindow(x, start, end)
    ensures var s, found, log := states[|moves|].sys, qstates[|qmoves|].sys.query.found, Recorded(states, moves, |moves|, k, x);
            if k !in s.reg.byKey then Total(log) == 0
            else
              var id := s.reg.byKey[k];
              && id in s.reg.names && CanonicalKey(s.reg.names[id]) == k
              && CountIn(found, id, x) == if S.Satisfies(s.reg.names[id], matchers) then Total(log) else 0
  {
    hide Moves, Begins, Good, Held, IsQuietQuery, Recorded, S.Satisfies, CountIn, CanonicalKey, CleanMove, S.CleanMatchers;
    var p := states[|moves|];
    WindowDays(x, start, end);
    RunGood(states, moves, |moves|);
    RunClean(states, moves, |moves|);
    RefinesLog(states, moves, |moves|, k, x);
    UnusedRecent(p, x);
    if k in p.sys.reg.byKey {
      RegisteredKey(p, k);
      QuietQueryIsExact(qstates, qmoves, matchers, start, end, p.sys.reg.byKey[k], x);
    }
  }

  /** Outside the window, and of series that no key stands for, it returns nothing. */
  lemma QueryReturnsNoOther(states: seq<State>, moves: seq<Move>, qstates: seq<State>, qmoves: seq<Move>,
                            matchers: seq<S.Matcher>, start: Int64, end: Int64, id: SeriesId, x: Sample)
    requires QueryAfter(states, moves, qstates, qmoves, matchers, start, end)
    requires !InWindow(x, start, end) || id !in states[|moves|].sys.reg.names
    ensures CountIn(qstates[|qmoves|].sys.query.found, id, x) == 0
  {
    hide Moves, Begins, Good, Held, IsQuietQuery, S.Satisfies, CountIn, CleanMove, S.CleanMatchers, InWindow;
    RunGood(states, moves, |moves|);
    RunClean(states, moves, |moves|);
    QuietQueryIsExact(qstates, qmoves, matchers, start, end, id, x);
  }

  lemma RegisteredKey(p: State, k: Str)
    requires Good(p) && k in p.sys.reg.byKey
    ensures p.sys.reg.byKey[k] in p.sys.reg.names && CanonicalKey(p.sys.reg.names[p.sys.reg.byKey[k]]) == k
  {
    GoodRegistry(p);
    hide Good, S.WellIndexed, CanonicalKey, SortedLabels;
  }

  /** And if no move lost anything, that is every copy ever appended. */
  lemma QueryReturnsAllAppended(states: seq<State>, moves: seq<Move>, qstates: seq<State>, qmoves: seq<Move>,
                                matchers: seq<S.Matcher>, start: Int64, end: Int64, k: Str, x: Sample)
    requires QueryAfter(states, moves, qstates, qmoves, matchers, start, end) && InWindow(x, start, end)
    requires forall i :: 0 <= i < |moves| ==> Harmless(states[i], moves[i])
    ensures var s, n := states[|moves|].sys, AppendedBy(states, moves, |moves|, k, x);
            if k !in s.reg.byKey then n == 0
            else
              var id := s.reg.byKey[k];
              id in s.reg.names &&
              (S.Satisfies(s.reg.names[id], matchers) ==> CountIn(qstates[|qmoves|].sys.query.found, id, x) == n)
  {
    hide Total, CountIn, Tally, Recorded, Moves, Begins, Good, Harmless, IsQuietQuery, S.Satisfies, CanonicalKey, CleanMove, DayOf,
         InWindow, S.CleanMatchers;
    WindowDays(x, start, end);
    QueryReturnsTheLog(states, moves, qstates, qmoves, matchers, start, end, k, x);
    RefinesLog(states, moves, |moves|, k, x);
    RunGood(states, moves, |moves|);
    UnusedRecent(states[|moves|], x);
    Conserved(states, moves, |moves|, k, x);
  }

  /** No query of days from the largest cutoff on ever fails. */
  lemma RecentIsReadable(states: seq<State>, moves: seq<Move>, n: nat, day: Day)
    requires IsRun(states, moves) && n < |moves| && moves[n] == Does(QueryScanFails(day))
    ensures day < states[n].sys.cutoff
  {
    hide Moves, Begins, Good, SwapsOn;
    RunMove(states, moves, n);
    RunGood(states, moves, n);
    NotReadable(states[n], day, states[n + 1]);
    if day >= states[n].sys.cutoff {
      ReadableDay(states[n], day);
    }
  }

  lemma NotReadable(p: State, day: Day, p': State)
    requires Moves(p, Does(QueryScanFails(day)), p')
    ensures !Readable(p.sys, day)
  {
  }

  lemma ReadableDay(p: State, day: Day)
    requires Good(p) && day >= p.sys.cutoff
    ensures Readable(p.sys, day)
  {
    GoodDays(p);
    RecentUnused(p, day);
    hide Good, PartsOk;
    var w := Without(p.sys, p.used);
    if day in p.sys.partitions {
      assert w.partitions[day] == p.sys.partitions[day] && w.disk.days[day] == p.sys.disk.days[day];
    }
  }

  lemma RecentUnused(p: State, day: Day)
    requires Good(p) && day >= p.sys.cutoff
    ensures day !in p.used
  {
    hide Inv, AllDirsOk, ReadOk;
  }

  // ---------- a flush under way ----------

  /** Some move after the i-th and before the n-th was event e. */
  ghost predicate Happened(states: seq<State>, moves: seq<Move>, i: nat, n: nat, e: Event)
    requires n <= |moves| && |states| == |moves| + 1
  {
    exists j :: i < j < n && EventOfMove(states[j], moves[j]) == e
  }

  /** Some move after the i-th and before the n-th published the day of x. */
  ghost predicate WasPersisted(states: seq<State>, moves: seq<Move>, i: nat, n: nat, x: Sample)
    requires n <= |moves| && |states| == |moves| + 1
  {
    Happened(states, moves, i, n, Persisted(DayOf(x.t)))
  }

  /** Some merge has saved a manifest of the day of x meanwhile. */
  ghost predicate WasSaved(states: seq<State>, moves: seq<Move>, i: nat, n: nat, x: Sample)
    requires n <= |moves| && |states| == |moves| + 1
  {
    Happened(states, moves, i, n, Saved(DayOf(x.t)))
  }

  lemma HappenedStep(states: seq<State>, moves: seq<Move>, i: nat, n: nat, e: Event)
    requires i < n < |moves| && |states| == |moves| + 1
    ensures Happened(states, moves, i, n + 1, e) <==> Happened(states, moves, i, n, e) || EventOfMove(states[n], moves[n]) == e
  {
    hide EventOfMove;
  }

  /** What a flush that found before makes of it while it is under way: the buffer has what was appended
      since; what the flush took is in its hands until the day is published, and then on disk, together
      with what was listed without being saved. */
  function UnderWay(before: Ledger, late: int, persisted: bool, saved: bool): Ledger
    requires late >= 0
  {
    if persisted then Ledger(late, 0, 0, before.disk + before.listed + before.mem)
    else if saved then Ledger(late, before.mem, 0, before.disk + before.listed)
    else Ledger(late, before.mem, before.listed, before.disk)
  }

  lemma QuietRecord(before: Ledger, late: int, persisted: bool, saved: bool, e: Event, k: Str, x: Sample)
    requires late >= 0 && !e.Swapped? && !e.Restored? && !e.DayFailed? && !e.Unsaved? && !e.Crashed? && e != Expired(DayOf(x.t))
    ensures Record(UnderWay(before, late, persisted, saved), e, k, x) ==
            UnderWay(before, late + (if e.Appended? && e.key == k then multiset(e.samples)[x] else 0),
                     persisted || e == Persisted(DayOf(x.t)), saved || e == Saved(DayOf(x.t)))
  {
  }

  lemma QuietMoveEvent(p: State, move: Move, x: Sample)
    requires !Loses(move, x) && move != Does(FlushRegistryFails) && move != Does(FlushSwap)
    ensures var e := EventOfMove(p, move);
            !e.Swapped? && !e.Restored? && !e.DayFailed? && !e.Unsaved? && !e.Crashed? && e != Expired(DayOf(x.t))
  {
  }

  function Late(states: seq<State>, moves: seq<Move>, i: nat, n: nat, k: Str, x: Sample): int
    requires i <= |moves| && n <= |moves| && |states| == |moves| + 1
  {
    AppendedBy(states, moves, n, k, x) - AppendedBy(states, moves, i, k, x)
  }

  lemma {:induction false} LateGrows(states: seq<State>, moves: seq<Move>, i: nat, n: nat, k: Str, x: Sample)
    requires i <= n <= |moves| && |states| == |moves| + 1
    ensures Late(states, moves, i, n, k, x) >= 0
    decreases n
  {
    hide EventOfMove;
    if i < n {
      LateGrows(states, moves, i, n - 1, k, x);
    }
  }

  /** While the flush that began at move i is under way, the copies of x are where UnderWay says. */
  lemma {:induction false} FlushPhase(states: seq<State>, moves: seq<Move>, i: nat, n: nat, k: Str, x: Sample)
    requires IsRun(states, moves) && i < n <= |moves| && moves[i] == Does(FlushSwap) && FlushUndisturbed(moves, i, n, x)
    ensures Late(states, moves, i, n, k, x) >= 0
    ensures SameLedger(Tally(states[n].sys, k, x),
                       UnderWay(Tally(states[i].sys, k, x), Late(states, moves, i, n, k, x),
                                WasPersisted(states, moves, i, n, x), WasSaved(states, moves, i, n, x)),
                       DayOf(x.t) !in states[n].used)
    decreases n
  {
    hide Tally, Moves, Good, Begins, Loses, EventOfMove, Record, SameLedger, UnderWay, Happened;
    LateGrows(states, moves, i, n, k, x);
    if n - 1 == i {
      FlushBegins(states, moves, i, k, x);
    } else {
      FlushPhase(states, moves, i, n - 1, k, x);
      LateGrows(states, moves, i, n - 1, k, x);
      FlushGoesOn(states, moves, i, n - 1, k, x);
    }
  }

  lemma FlushBegins(states: seq<State>, moves: seq<Move>, i: nat, k: Str, x: Sample)
    requires IsRun(states, moves) && i < |moves| && moves[i] == Does(FlushSwap)
    ensures Late(states, moves, i, i + 1, k, x) == 0
    ensures SameLedger(Tally(states[i + 1].sys, k, x),
                       UnderWay(Tally(states[i].sys, k, x), 0, WasPersisted(states, moves, i, i + 1, x), WasSaved(states, moves, i, i + 1, x)),
                       DayOf(x.t) !in states[i + 1].used)
  {
    hide Tally, Moves, Good, Begins;
    RunGood(states, moves, i);
    RunMove(states, moves, i);
    MoveTally(states[i], moves[i], states[i + 1], k, x);
    SwapMove(states[i], states[i + 1], k, x);
  }

  lemma FlushGoesOn(states: seq<State>, moves: seq<Move>, i: nat, n: nat, k: Str, x: Sample)
    requires IsRun(states, moves) && i < n < |moves| && FlushUndisturbed(moves, i, n + 1, x) && Late(states, moves, i, n, k, x) >= 0
    requires SameLedger(Tally(states[n].sys, k, x),
                        UnderWay(Tally(states[i].sys, k, x), Late(states, moves, i, n, k, x),
                                 WasPersisted(states, moves, i, n, x), WasSaved(states, moves, i, n, x)),
                        DayOf(x.t) !in states[n].used)
    ensures Late(states, moves, i, n + 1, k, x) >= 0
    ensures SameLedger(Tally(states[n + 1].sys, k, x),
                       UnderWay(Tally(states[i].sys, k, x), Late(states, moves, i, n + 1, k, x),
                                WasPersisted(states, moves, i, n + 1, x), WasSaved(states, moves, i, n + 1, x)),
                       DayOf(x.t) !in states[n + 1].used)
  {
    hide Tally, Moves, Good, Begins, Loses, EventOfMove, Record, SameLedger, UnderWay, Happened;
    var p, move, p' := states[n], moves[n], states[n + 1];
    var e, d := EventOfMove(p, move), DayOf(x.t);
    var persisted, saved := WasPersisted(states, moves, i, n, x), WasSaved(states, moves, i, n, x);
    var l := UnderWay(Tally(states[i].sys, k, x), Late(states, moves, i, n, k, x), persisted, saved);
    RunGood(states, moves, n);
    RunMove(states, moves, n);
    MoveTally(p, move, p', k, x);
    QuietMoveEvent(p, move, x);
    UsedAfter(p, move, p', x);
    QuietRecord(Tally(states[i].sys, k, x), Late(states, moves, i, n, k, x), persisted, saved, e, k, x);
    HappenedStep(states, moves, i, n, Persisted(d));
    HappenedStep(states, moves, i, n, Saved(d));
    RecordAlike(Tally(p.sys, k, x), l, e, k, x, d !in p.used);
    SameTrans(Tally(p'.sys, k, x), Record(Tally(p.sys, k, x), e, k, x), Record(l, e, k, x), d !in p.used, d !in p'.used);
  }

  lemma UsedAfter(p: State, move: Move, p': State, x: Sample)
    requires Moves(p, move, p') && !Loses(move, x)
    ensures DayOf(x.t) !in p'.used ==> DayOf(x.t) !in p.used
  {
    NotDropped(move, x);
    hide Moves, Drops, Loses;
    UsedStays(p, move, p', DayOf(x.t));
  }

  lemma SameTrans(a: Ledger, b: Ledger, c: Ledger, wide: bool, whole: bool)
    requires SameLedger(a, b, whole) && (whole ==> wide) && SameLedger(b, c, wide)
    ensures SameLedger(a, c, whole)
  {
  }

  // ---------- a flush that fails ----------

  /** What a failure at day leaves: published samples are on disk, that day's are back in the buffer, and
      those of days not yet visited are gone. */
  function AfterFailure(before: Ledger, late: int, persisted: bool, saved: bool, here: bool): Ledger
    requires late >= 0
  {
    var l := UnderWay(before, late, persisted, saved);
    Ledger(l.mem + (if here && !persisted then before.mem else 0), 0, l.listed, l.disk)
  }

  /** The exact account of a flush that fails at a day. */
  lemma FailedFlushAccount(states: seq<State>, moves: seq<Move>, i: nat, n: nat, k: Str, x: Sample)
    requires IsRun(states, moves) && i < n < |moves| && moves[i] == Does(FlushSwap) && FlushUndisturbed(moves, i, n, x)
    requires moves[n].Does? && moves[n].step.FlushDayFails?
    ensures Late(states, moves, i, n, k, x) >= 0
    ensures SameLedger(Tally(states[n + 1].sys, k, x),
                       AfterFailure(Tally(states[i].sys, k, x), Late(states, moves, i, n, k, x),
                                    WasPersisted(states, moves, i, n, x), WasSaved(states, moves, i, n, x), DayOf(x.t) == moves[n].step.day),
                       DayOf(x.t) !in states[n + 1].used)
  {
    hide Tally, Moves, Good, Begins, Loses, Happened;
    FlushPhase(states, moves, i, n, k, x);
    FailingMove(states, moves, n, k, x);
  }

  lemma FailingMove(states: seq<State>, moves: seq<Move>, n: nat, k: Str, x: Sample)
    requires IsRun(states, moves) && n < |moves| && moves[n].Does?
    requires moves[n].step.FlushDayFails? || moves[n].step.FlushManifestFails? || moves[n].step.FlushRegistryFails?
    ensures var e := EventOfMove(states[n], moves[n]);
            SameLedger(Tally(states[n + 1].sys, k, x), Record(Tally(states[n].sys, k, x), e, k, x), DayOf(x.t) !in states[n + 1].used)
    ensures DayOf(x.t) !in states[n + 1].used ==> DayOf(x.t) !in states[n].used
  {
    hide Tally, Moves, Good, Begins, Record, EventOfMove, SameLedger;
    RunGood(states, moves, n);
    RunMove(states, moves, n);
    MoveTally(states[n], moves[n], states[n + 1], k, x);
    UsedStays(states[n], moves[n], states[n + 1], DayOf(x.t));
  }

  predicate Early(f: Flush) {
    f.FSwapped? || f.FDrained?
  }

  /** A registry segment that cannot be written costs nothing: every sample is back in the buffer, and
      every series not yet on disk is pending again. */
  lemma FailedRegistryAccount(states: seq<State>, moves: seq<Move>, i: nat, n: nat, k: Str, x: Sample)
    requires IsRun(states, moves) && i < n < |moves| && moves[i] == Does(FlushSwap) && FlushUndisturbed(moves, i, n, x)
    requires moves[n] == Does(FlushRegistryFails)
    ensures Late(states, moves, i, n, k, x) >= 0
    ensures var before := Tally(states[i].sys, k, x);
            var l := UnderWay(before, Late(states, moves, i, n, k, x), false, WasSaved(states, moves, i, n, x));
            SameLedger(Tally(states[n + 1].sys, k, x), l.(mem := l.mem + before.mem, flight := 0), DayOf(x.t) !in states[n + 1].used)
    ensures NothingForgotten(states[n + 1].sys)
  {
    hide Tally, Moves, Begins, Loses, Happened, Good, FlushUndisturbed;
    RunMove(states, moves, n);
    FlushPhase(states, moves, i, n, k, x);
    RunGood(states, moves, n + 1);
    FailsDrained(states[n], states[n + 1]);
    NotYetPersisted(states, moves, i, n, x);
    AllPending(states[n + 1]);
    FailingMove(states, moves, n, k, x);
  }

  lemma FailsDrained(p: State, p': State)
    requires Moves(p, Does(FlushRegistryFails), p')
    ensures Early(p.sys.flush) && p'.sys.flush == FIdle
  {
    hide Joined;
  }

  /** Every registered series is on disk or will be written by the next flush. */
  ghost predicate NothingForgotten(s: Sys) {
    forall id :: id in s.reg.names ==> id in s.disk.forward || id in s.reg.pending
  }

  lemma AllPending(p: State)
    requires Good(p) && p.sys.flush == FIdle
    ensures NothingForgotten(p.sys)
  {
    GoodRegistry(p);
    hide Good, S.WellIndexed, S.Consistent;
  }

  /** What a move other than the swap does to a flush under way: its batch stays, its days only go. */
  ghost predicate Advances(f: Flush, f': Flush)
    requires f' != FIdle
  {
    && f != FIdle && f'.batch == f.batch
    && (Early(f') ==> Early(f))
    && (!Early(f') ==> f'.todo <= if Early(f) then DaysOf(f.batch) else f.todo)
  }

  lemma SameBatchMove(p: State, move: Move, p': State)
    requires Moves(p, move, p') && p'.sys.flush != FIdle && move != Does(FlushSwap)
    ensures Advances(p.sys.flush, p'.sys.flush)
    ensures Early(p'.sys.flush) ==> move != Does(FlushPublish)
  {
    hide Next, NextFlush, NextMerge, NextQuery, NextRetention, NextCrash, NextAppend, DaysOf;
    if move.Does? {
      var s, step, s' := p.sys, move.step, p'.sys;
      NextIs(s, step, s');
      if IsFlushStep(step) {
        FlushAdvances(s, step, s');
      } else if IsMergeStep(step) {
        MergeFrame(s, step, s');
      } else if IsQueryStep(step) {
        QueryFrame(s, step, s');
      } else if IsRetentionStep(step) {
        RetentionFrame(s, step, s');
      } else if step.Crash? {
        CrashIdle(s, s');
      } else {
        AppendFrame(s, step, s');
      }
    } else {
      StaleFrame(p, move, p');
    }
  }

  lemma CrashIdle(s: Sys, s': Sys)
    requires NextCrash(s, s')
    ensures s'.flush == FIdle && s'.retention == RIdle && s'.merge == MIdle
  {
    hide S.Replays, OpensAs, CleanDisk;
  }

  lemma RetentionFrame(s: Sys, step: Step, s': Sys)
    requires IsRetentionStep(step) && NextRetention(s, step, s')
    ensures s'.flush == s.flush && s'.mem == s.mem && s'.disk.forward == s.disk.forward
  {
    hide S.Dropped;
  }

  lemma FlushAdvances(s: Sys, step: Step, s': Sys)
    requires IsFlushStep(step) && NextFlush(s, step, s') && s'.flush != FIdle && !step.FlushSwap?
    ensures Advances(s.flush, s'.flush)
    ensures Early(s'.flush) ==> !step.FlushPublish?
  {
    hide *;
    if s.flush.FDay? {
      DayAdvances(s, step, s');
    } else {
      BatchAdvances(s, step, s');
    }
  }

  lemma DayAdvances(s: Sys, step: Step, s': Sys)
    requires s.flush.FDay? && IsFlushStep(step) && NextFlush(s, step, s') && s'.flush != FIdle
    ensures Advances(s.flush, s'.flush)
    ensures Early(s'.flush) ==> !step.FlushPublish?
  {
    hide Sorts, Permutes, DayPart, Joined, RenamePart, UnstagePart, OpensAs, Cleaned, DirOf, Renames;
  }

  lemma BatchAdvances(s: Sys, step: Step, s': Sys)
    requires !s.flush.FDay? && IsFlushStep(step) && NextFlush(s, step, s') && s'.flush != FIdle && !step.FlushSwap?
    ensures Advances(s.flush, s'.flush)
    ensures Early(s'.flush) ==> !step.FlushPublish?
  {
    hide Permutes, DayPart, Joined, EntriesFor, S.Unindexed, DaysOf, S.Marked, InvertedOf;
  }

  lemma {:induction false} NotYetPersisted(states: seq<State>, moves: seq<Move>, i: nat, n: nat, x: Sample)
    requires IsRun(states, moves) && i < n <= |moves| && moves[i] == Does(FlushSwap) && FlushUndisturbed(moves, i, n, x)
    requires Early(states[n].sys.flush)
    ensures !WasPersisted(states, moves, i, n, x)
    decreases n
  {
    hide Moves, Begins, Loses, EventOfMove, Happened;
    if n - 1 > i {
      RunMove(states, moves, n - 1);
      SameBatchMove(states[n - 1], moves[n - 1], states[n]);
      PublishEvent(states[n - 1], moves[n - 1]);
      NotYetPersisted(states, moves, i, n - 1, x);
      HappenedStep(states, moves, i, n - 1, Persisted(DayOf(x.t)));
    } else {
      NothingYet(states, moves, i, Persisted(DayOf(x.t)));
    }
  }

  lemma NothingYet(states: seq<State>, moves: seq<Move>, i: nat, e: Event)
    requires i < |moves| && |states| == |moves| + 1
    ensures !Happened(states, moves, i, i + 1, e)
  {
  }

  lemma PublishEvent(p: State, move: Move)
    ensures EventOfMove(p, move).Persisted? ==> move == Does(FlushPublish)
  {
  }

  lemma {:induction false} FlushBatch(states: seq<State>, moves: seq<Move>, i: nat, n: nat, x: Sample)
    requires IsRun(states, moves) && i < n <= |moves| && moves[i] == Does(FlushSwap) && FlushUndisturbed(moves, i, n, x)
    requires states[n].sys.flush != FIdle
    ensures states[n].sys.flush.batch == states[i].sys.mem
    ensures !Early(states[n].sys.flush) ==> states[n].sys.flush.todo <= DaysOf(states[i].sys.mem)
    decreases n
  {
    hide Moves, Begins, Loses, DaysOf;
    RunMove(states, moves, n - 1);
    if n - 1 > i {
      SameBatchMove(states[n - 1], moves[n - 1], states[n]);
      FlushBatch(states, moves, i, n - 1, x);
    } else {
      SwapTakesAll(states[i], states[n]);
    }
  }

  lemma SwapTakesAll(p: State, p': State)
    requires Moves(p, Does(FlushSwap), p')
    ensures p'.sys.flush == FSwapped(p.sys.mem)
  {
  }

  /** So a buffer that spans one day only is conserved by a flush, failed or not. */
  lemma OneDayFailureLosesNothing(states: seq<State>, moves: seq<Move>, i: nat, n: nat, k: Str, x: Sample)
    requires IsRun(states, moves) && i < n < |moves| && moves[i] == Does(FlushSwap) && FlushUndisturbed(moves, i, n, x)
    requires moves[n].Does? && moves[n].step.FlushDayFails? && |DaysOf(states[i].sys.mem)| == 1 && DayOf(x.t) !in states[n + 1].used
    ensures Total(Tally(states[n + 1].sys, k, x)) == Total(Tally(states[i].sys, k, x)) + Late(states, moves, i, n, k, x)
  {
    hide Tally, Moves, Begins, Good, Loses, Happened, DaysOf, FlushUndisturbed;
    RunMove(states, moves, n);
    RunMove(states, moves, i);
    FailsVisiting(states[n], moves[n].step, states[n + 1]);
    SwapMove(states[i], states[i + 1], k, x);
    FailedFlushAccount(states, moves, i, n, k, x);
    RunGood(states, moves, n);
    GoodTodo(states[n]);
    FlushBatch(states, moves, i, n, x);
    BufferedDay(states[i].sys, k, x);
    OnlyOne(DaysOf(states[i].sys.mem), moves[n].step.day, DayOf(x.t));
  }

  lemma FailsVisiting(p: State, step: Step, p': State)
    requires step.FlushDayFails? && Moves(p, Does(step), p')
    ensures p.sys.flush != FIdle && !Early(p.sys.flush)
    ensures p.sys.flush.FDay? ==> p.sys.flush.day == step.day
    ensures !p.sys.flush.FDay? ==> step.day in p.sys.flush.todo
  {
    hide Permutes, DayPart, Joined, UnstagePart;
  }

  lemma GoodTodo(p: State)
    requires Good(p) && (p.sys.flush.FDay? || p.sys.flush.FVisiting?)
    ensures p.sys.flush.FDay? ==> p.sys.flush.day in p.sys.flush.todo
    ensures p.sys.flush.todo <= DaysOf(p.sys.flush.batch)
  {
    hide RegistryOk, IdsOk, DurableOk, PersistedOk, FindableOk, DaysOk, MergeOk, RetentionOk, Aside, DaysOf, Sorts, DayPart;
  }

  lemma OnlyOne(days: set<Day>, a: Day, b: Day)
    requires |days| == 1 && a in days
    ensures b in days ==> a == b
  {
    assert |days - {a}| == 0;
  }

  lemma BufferedDay(s: Sys, k: Str, x: Sample)
    ensures Tally(s, k, x).mem > 0 ==> DayOf(x.t) in DaysOf(s.mem)
  {
    if k in s.reg.byKey {
      CountIsIn(s.mem, s.reg.byKey[k], x);
    }
  }

  ghost predicate TotalsKept(s: Sys, s': Sys) {
    forall id: SeriesId, x: Sample :: Total(Held(s', id, x)) == Total(Held(s, id, x))
  }

  /** A failure at a day loses nothing exactly when that day was the last one left to visit. */
  lemma FailureConservesIff(p: State, step: Step, p': State)
    requires Good(p) && step.FlushDayFails? && Moves(p, Does(step), p')
    ensures p.sys.flush != FIdle && !Early(p.sys.flush)
    ensures TotalsKept(p.sys, p'.sys) <==> p.sys.flush.todo == {step.day}
  {
    hide Good, Held, DaysOf, NextFlush;
    FailsVisiting(p, step, p');
    GoodTodo(p);
    var s, s' := p.sys, p'.sys;
    forall id: SeriesId, x: Sample ensures Held(s', id, x) == Record(Held(s, id, x), DayFailed(step.day), [], x) {
      FailsHeld(s, step, s', id, x);
    }
    forall d | d in s.flush.todo && d != step.day ensures !TotalsKept(s, s') {
      DayLost(s, step.day, s', d);
    }
    forall id: SeriesId, x: Sample | s.flush.todo == {step.day} ensures Total(Held(s', id, x)) == Total(Held(s, id, x)) {
      OnlyThatDay(s, step.day, id, x);
    }
  }

  /** Used or not, a day whose flush fails keeps its parts. */
  lemma FailsHeld(s: Sys, step: Step, s': Sys, id: SeriesId, x: Sample)
    requires step.FlushDayFails? && NextFlush(s, step, s') && (s.flush.FDay? ==> s.flush.day in s.flush.todo)
    ensures Held(s', id, x) == Record(Held(s, id, x), DayFailed(step.day), [], x)
  {
    FailedDay(s, step, s');
    hide NextFlush, Joined, DayPart, Permutes;
    FailedCount(s, step, id, x);
    UnstagedParts(s, step.day, if s.flush.FDay? && s.flush.stage.Staged? then s.flush.stage.part else 0, id, x);
    hide UnstagePart, OnDisk, OnlyListed, CountIn;
  }

  lemma UnstagedParts(s: Sys, d: Day, n: PartId, id: SeriesId, x: Sample)
    ensures SameStored(s, s.partitions, UnstagePart(s.disk, d, n).days, id, x)
  {
    if d !in s.disk.days && d in s.partitions {
      SumNone(s.partitions[d].parts, id, x);
    }
  }

  lemma SumNone(names: set<PartId>, id: SeriesId, x: Sample)
    ensures SumOver(names, map[], id, x) == 0 && SumOver(names - {}, map[], id, x) == 0
  {
    SumZero(names, map[], id, x);
    SumZero(names - {}, map[], id, x);
  }

  lemma DayLost(s: Sys, failed: Day, s': Sys, d: Day)
    requires s.flush != FIdle && !Early(s.flush) && d in s.flush.todo && d in DaysOf(s.flush.batch) && d != failed
    requires forall id: SeriesId, x: Sample :: Held(s', id, x) == Record(Held(s, id, x), DayFailed(failed), [], x)
    ensures !TotalsKept(s, s')
  {
    hide OnDisk, OnlyListed;
    var id, x :| id in s.flush.batch && x in s.flush.batch[id] && DayOf(x.t) == d;
    CountIsIn(s.flush.batch, id, x);
    assert Held(s', id, x) == Record(Held(s, id, x), DayFailed(failed), [], x);
    assert Total(Held(s', id, x)) < Total(Held(s, id, x));
  }

  lemma OnlyThatDay(s: Sys, day: Day, id: SeriesId, x: Sample)
    requires s.flush != FIdle && !Early(s.flush) && s.flush.todo == {day}
    ensures Total(Record(Held(s, id, x), DayFailed(day), [], x)) == Total(Held(s, id, x))
  {
    hide OnDisk, OnlyListed, CountIn;
  }

  // ---------- a manifest that cannot be saved ----------

  /** addPart lists the part in memory before it saves the manifest, so when the save fails the part stays
      listed, and Flush puts the same samples back into the buffer: every copy of that day that the flush
      had taken is now held twice, and on disk as little as before. */
  lemma ManifestFailureDoubles(states: seq<State>, moves: seq<Move>, i: nat, m: nat, k: Str, x: Sample)
    requires IsRun(states, moves) && i < m < |moves| && moves[i] == Does(FlushSwap) && FlushUndisturbed(moves, i, m, x)
    requires moves[m].Does? && moves[m].step.FlushManifestFails? && DayOf(x.t) !in states[m + 1].used
    ensures states[m].sys.flush.FDay? && Late(states, moves, i, m, k, x) >= 0
    ensures DayOf(x.t) == states[m].sys.flush.day && !WasPersisted(states, moves, i, m, x) ==>
              var before, after := Tally(states[i].sys, k, x), Tally(states[m + 1].sys, k, x);
              && after.mem == Late(states, moves, i, m, k, x) + before.mem && after.flight == 0
              && after.listed + after.disk == before.listed + before.disk + before.mem && after.listed >= before.mem
              && (!WasSaved(states, moves, i, m, x) ==> after.disk == before.disk && after.listed == before.listed + before.mem)
  {
    hide Tally, Moves, Begins, Good, Loses, Happened;
    RunMove(states, moves, m);
    UnsavedFlush(states[m], moves[m].step, states[m + 1]);
    FlushPhase(states, moves, i, m, k, x);
    FailingMove(states, moves, m, k, x);
    UnsavedIs(Tally(states[i].sys, k, x), Late(states, moves, i, m, k, x), WasSaved(states, moves, i, m, x), k, x);
  }

  lemma UnsavedFlush(p: State, step: Step, p': State)
    requires step.FlushManifestFails? && Moves(p, Does(step), p')
    ensures p.sys.flush.FDay? && p'.sys.flush == FIdle && EventOfMove(p, Does(step)) == Unsaved(p.sys.flush.day)
  {
    hide Permutes, DayPart, Joined;
  }

  lemma UnsavedIs(before: Ledger, late: int, saved: bool, k: Str, x: Sample)
    requires late >= 0
    ensures var after := Record(UnderWay(before, late, false, saved), Unsaved(DayOf(x.t)), k, x);
            && after.mem == late + before.mem && after.flight == 0
            && after.listed + after.disk == before.listed + before.disk + before.mem && after.listed >= before.mem
            && (!saved ==> after.disk == before.disk && after.listed == before.listed + before.mem)
  {
  }

  /** Between flushes: the buffer grows by what is appended, and listed parts may be saved by a merge. */
  predicate BetweenFlushes(moves: seq<Move>, i: nat, n: nat, x: Sample)
    requires n <= |moves|
  {
    forall j :: i <= j < n ==> !Loses(moves[j], x) && moves[j] != Does(FlushRegistryFails) && moves[j] != Does(FlushSwap)
  }

  lemma {:induction false} RestPhase(states: seq<State>, moves: seq<Move>, i: nat, n: nat, k: Str, x: Sample)
    requires IsRun(states, moves) && i <= n <= |moves| && BetweenFlushes(moves, i, n, x)
    requires states[i].sys.flush == FIdle && DayOf(x.t) !in states[n].used
    ensures states[n].sys.flush == FIdle && DayOf(x.t) !in states[i].used
    ensures var a, b := Tally(states[i].sys, k, x), Tally(states[n].sys, k, x);
            && b.mem == a.mem + Late(states, moves, i, n, k, x) && b.flight == 0
            && b.listed + b.disk == a.listed + a.disk
    decreases n
  {
    hide Tally, Moves, Good, Begins, Loses, Record, EventOfMove;
    if i < n {
      RunMove(states, moves, n - 1);
      NotDropped(moves[n - 1], x);
      UnusedMove(states, moves, n - 1, k, x);
      RestPhase(states, moves, i, n - 1, k, x);
      RestMove(states[n - 1], moves[n - 1], states[n], Tally(states[n - 1].sys, k, x), k, x);
    } else {
      IdleNoFlight(states[i].sys, k, x);
    }
  }

  lemma RestMove(p: State, move: Move, p': State, l: Ledger, k: Str, x: Sample)
    requires Moves(p, move, p') && p.sys.flush == FIdle && l.flight == 0
    requires !Loses(move, x) && move != Does(FlushRegistryFails) && move != Does(FlushSwap)
    ensures p'.sys.flush == FIdle
    ensures var e := EventOfMove(p, move);
            var l' := Record(l, e, k, x);
            && l'.mem == l.mem + (if e.Appended? && e.key == k then multiset(e.samples)[x] else 0)
            && l'.flight == 0 && l'.listed + l'.disk == l.listed + l.disk
  {
    StaysIdle(p, move, p');
    QuietMoveEvent(p, move, x);
    hide Moves, EventOfMove, Loses;
  }

  lemma StaysIdle(p: State, move: Move, p': State)
    requires Moves(p, move, p') && p.sys.flush == FIdle && move != Does(FlushSwap)
    ensures p'.sys.flush == FIdle
  {
    hide Moves, Advances;
    if p'.sys.flush != FIdle {
      SameBatchMove(p, move, p');
      BusyBefore(p.sys.flush, p'.sys.flush);
    }
  }

  lemma BusyBefore(f: Flush, f': Flush)
    requires f' != FIdle && Advances(f, f')
    ensures f != FIdle
  {
    hide DaysOf;
  }

  /** The flush after that writes the restored samples into a second part, and its manifest lists both: once
      it has published the day, every copy the failed flush had taken is on disk twice, for good. */
  lemma UnsavedBecomesDurable(states: seq<State>, moves: seq<Move>, i: nat, m: nat, j: nat, n: nat, k: Str, x: Sample)
    requires IsRun(states, moves) && i < m < j < n <= |moves| && moves[i] == Does(FlushSwap) && FlushUndisturbed(moves, i, m, x)
    requires moves[m].Does? && moves[m].step.FlushManifestFails? && !WasPersisted(states, moves, i, m, x)
    requires states[m].sys.flush.FDay? && states[m].sys.flush.day == DayOf(x.t)
    requires BetweenFlushes(moves, m + 1, j, x) && moves[j] == Does(FlushSwap) && FlushUndisturbed(moves, j, n, x)
    requires WasPersisted(states, moves, j, n, x) && DayOf(x.t) !in states[n].used
    ensures var before := Tally(states[i].sys, k, x);
            && Late(states, moves, i, m, k, x) >= 0 && Late(states, moves, m + 1, j, k, x) >= 0
            && Tally(states[n].sys, k, x).disk ==
               before.disk + before.listed + 2 * before.mem + Late(states, moves, i, m, k, x) + Late(states, moves, m + 1, j, k, x)
  {
    hide Tally, Moves, Begins, Good, Loses, Happened;
    FlushMoves(states, moves, j, n, k, x);
    RunMove(states, moves, m);
    UnsavedFlush(states[m], moves[m].step, states[m + 1]);
    RestPhase(states, moves, m + 1, j, k, x);
    LateGrows(states, moves, m + 1, j, k, x);
    ManifestFailureDoubles(states, moves, i, m, k, x);
    FlushPhase(states, moves, j, n, k, x);
  }

  /** If the process ends first, nothing of what that flush took is left: the day's copies on disk are those
      that were there when the flush began. */
  lemma UnsavedIsLost(states: seq<State>, moves: seq<Move>, i: nat, n: nat, k: Str, x: Sample)
    requires IsRun(states, moves) && i <= n < |moves| && moves[n] == Does(Crash)
    requires NeverDropped(moves, i, n, DayOf(x.t)) && !ManifestSaved(states, moves, i, n, DayOf(x.t)) && DayOf(x.t) !in states[n].used
    ensures Tally(states[n + 1].sys, k, x) == Ledger(0, 0, 0, Tally(states[i].sys, k, x).disk)
  {
    hide Tally, Moves, Begins, Good, EventOfMove, Drops;
    DiskKept(states, moves, i, n, k, x);
    RunMove(states, moves, n);
    RunGood(states, moves, n);
    CrashMove(states[n], states[n + 1], DayOf(x.t));
    MoveTally(states[n], moves[n], states[n + 1], k, x);
  }

  lemma CrashMove(p: State, p': State, d: Day)
    requires Moves(p, Does(Crash), p')
    ensures p'.used == p.used && EventOfMove(p, Does(Crash)) == Crashed
  {
    hide NextCrash;
  }

  // ---------- retention ----------

  /** Moves i to n - 1 belong to one retention pass, begun at move i. */
  predicate InPass(moves: seq<Move>, i: nat, n: nat)
    requires n <= |moves|
  {
    forall j :: i < j < n ==> moves[j].Does? ==> !moves[j].step.RetentionStart? && !moves[j].step.Crash?
  }

  /** The partitions left, and those the pass has still to drop. */
  ghost predicate PassGoesOn(s: Sys, s': Sys) {
    && s'.partitions.Keys <= s.partitions.Keys
    && (s'.retention != RIdle && s.retention != RIdle ==>
          s'.retention.todo <= s.retention.todo && forall d :: d in s.retention.todo ==> d in s'.retention.todo || d !in s'.partitions)
    && (s'.retention == RIdle && s.retention != RIdle ==> s.retention.todo == {})
  }

  lemma PassMove(p: State, move: Move, p': State)
    requires Good(p) && Moves(p, move, p') && p.sys.retention != RIdle
    requires move.Does? ==> !move.step.RetentionStart? && !move.step.Crash?
    ensures PassGoesOn(p.sys, p'.sys)
  {
    PassExcludes(p);
    hide Good, Next, NextFlush, NextMerge, NextRetention, NextQuery, NextAppend, NextCrash, PassGoesOn, MovesStale;
    if move.Does? {
      var s, step, s' := p.sys, move.step, p'.sys;
      NextIs(s, step, s');
      if IsRetentionStep(step) {
        PassShrinks(s, step, s');
      } else if IsQueryStep(step) {
        QueryFrame(s, step, s');
        SamePass(s, s');
      } else if IsFlushStep(step) {
        GoodWork(p);
        FlushSide(s, step, s');
      } else if IsMergeStep(step) {
        GoodWork(p);
        MergeSide(s, step, s');
      } else {
        AppendFrame(s, step, s');
        SamePass(s, s');
      }
    } else {
      NotDuringPass(p, move, p');
    }
  }

  lemma PassExcludes(p: State)
    requires Good(p) && p.sys.retention != RIdle
    ensures p.sys.flush == FIdle && p.sys.merge == MIdle && p.stale == SIdle
  {
    hide Inv, AllDirsOk, ReadOk;
  }

  lemma SamePass(s: Sys, s': Sys)
    requires s'.partitions == s.partitions && s'.retention == s.retention
    ensures PassGoesOn(s, s') || s.retention == RIdle
  {
  }

  lemma NotDuringPass(p: State, move: Move, p': State)
    requires !move.Does? && p.sys.retention != RIdle && p.stale == SIdle
    ensures !MovesStale(p, move, p')
  {
  }

  lemma PassShrinks(s: Sys, step: Step, s': Sys)
    requires IsRetentionStep(step) && NextRetention(s, step, s') && !step.RetentionStart?
    ensures PassGoesOn(s, s')
  {
    hide S.Dropped;
  }

  lemma PassStarts(p: State, step: Step, p': State)
    requires step.RetentionStart? && Moves(p, Does(step), p')
    ensures p'.sys.retention == RRun(step.expired) && p'.sys.partitions == p.sys.partitions
  {
  }

  lemma {:induction false} PassProgress(states: seq<State>, moves: seq<Move>, i: nat, n: nat)
    requires IsRun(states, moves) && i < n <= |moves| && moves[i].Does? && moves[i].step.RetentionStart? && InPass(moves, i, n)
    requires forall j :: i < j < n ==> states[j].sys.retention != RIdle
    ensures var s := states[n].sys;
            && s.partitions.Keys <= states[i].sys.partitions.Keys
            && forall d :: d in s.partitions && d in moves[i].step.expired ==> s.retention != RIdle && d in s.retention.todo
    decreases n
  {
    hide Moves, Good, Begins;
    var p, move, p' := states[n - 1], moves[n - 1], states[n];
    RunGood(states, moves, n - 1);
    RunMove(states, moves, n - 1);
    if n - 1 > i {
      PassProgress(states, moves, i, n - 1);
      PassMove(p, move, p');
    } else {
      PassStarts(p, move.step, p');
    }
  }

  /** The move begins the pass of ApplyRetention: the partitions it is to drop are those whose names sort
      before that of the cutoff. */
  predicate BeginsPass(p: State, move: Move, retentionDays: Int64, now: Int64) {
    move.Does? && move.step.RetentionStart? && move.step.expired == ToDrop(p.sys.partitions.Keys, CutoffDay(retentionDays, now))
  }

  /** When a pass is over, no partition that was to expire is left: while the clock shows a year up to 9999,
      every flushed sample of the years 0000 to 9999 that is a day older than the retention period is gone,
      whatever ran alongside, if the cutoff is in range or wraps to the beginning of time. */
  lemma RetentionRemovesOld(states: seq<State>, moves: seq<Move>, i: nat, n: nat, retentionDays: Int64, now: Int64,
                            id: SeriesId, x: Sample)
    requires IsRun(states, moves) && i < n <= |moves| && InPass(moves, i, n)
    requires BeginsPass(states[i], moves[i], retentionDays, now) && states[n].sys.retention == RIdle
    requires forall j :: i < j < n ==> states[j].sys.retention != RIdle
    requires retentionDays > 0 && Nameable(DayOf(now)) && Nameable(DayOf(x.t))
    requires InRange(retentionDays, now) || CutoffDay(retentionDays, now) <= FIRST_DAY
    requires x.t <= Horizon(retentionDays, now) - DAY_MS
    ensures InParts(states[n].sys, id, x) == 0
  {
    hide Moves, Begins, Good, SumOver, CutoffDay, Nameable, InRange, Expires, Horizon;
    DropsRightlyIff(retentionDays, now);
    PassProgress(states, moves, i, n);
    RunGood(states, moves, n);
    GoodWork(states[n]);
  }

  /** And none within the retention period is dropped by it. */
  lemma RetentionSparesRecent(states: seq<State>, moves: seq<Move>, i: nat, n: nat, retentionDays: Int64, now: Int64, x: Sample)
    requires IsRun(states, moves) && i < n <= |moves| && InPass(moves, i, n)
    requires BeginsPass(states[i], moves[i], retentionDays, now)
    requires forall j :: i < j < n ==> states[j].sys.retention != RIdle
    requires retentionDays > 0 && Nameable(DayOf(now)) && Nameable(DayOf(x.t))
    requires InRange(retentionDays, now) || CutoffDay(retentionDays, now) <= FIRST_DAY
    requires x.t >= Horizon(retentionDays, now)
    ensures NeverDropped(moves, i, n, DayOf(x.t))
  {
    hide Moves, Begins, Good, CutoffDay, Nameable, InRange, Expires, Horizon, Drops;
    DropsRightlyIff(retentionDays, now);
    forall j | i <= j < n ensures !Drops(moves[j], DayOf(x.t)) {
      if j > i {
        PassTodo(states, moves, i, j);
        RunMove(states, moves, j);
        OnlyTodo(states[j], moves[j], states[j + 1], DayOf(x.t));
      } else {
        StartDropsNone(moves[i], DayOf(x.t));
      }
    }
  }

  lemma OnlyTodo(p: State, move: Move, p': State, d: Day)
    requires Moves(p, move, p') && p.sys.retention != RIdle && d !in p.sys.retention.todo
    ensures !Drops(move, d)
  {
  }

  lemma StartDropsNone(move: Move, d: Day)
    requires move.Does? && move.step.RetentionStart?
    ensures !Drops(move, d)
  {
  }

  /** A pass never turns to a day that was not to expire. */
  lemma {:induction false} PassTodo(states: seq<State>, moves: seq<Move>, i: nat, n: nat)
    requires IsRun(states, moves) && i < n <= |moves| && moves[i].Does? && moves[i].step.RetentionStart? && InPass(moves, i, n)
    requires forall j :: i < j <= n ==> states[j].sys.retention != RIdle
    ensures states[n].sys.retention.todo <= moves[i].step.expired
    decreases n
  {
    hide Moves, Good, Begins;
    var p, move, p' := states[n - 1], moves[n - 1], states[n];
    RunGood(states, moves, n - 1);
    RunMove(states, moves, n - 1);
    if n - 1 > i {
      PassTodo(states, moves, i, n - 1);
      PassMove(p, move, p');
    } else {
      PassStarts(p, move.step, p');
    }
  }

  /** Samples no older than the retention window of every pass stay on disk through any moves. */
  lemma {:induction false} RetentionKeepsRecent(states: seq<State>, moves: seq<Move>, i: nat, n: nat, k: Str, x: Sample)
    requires IsRun(states, moves) && i <= n <= |moves| && DayOf(x.t) >= states[n].sys.cutoff
    ensures states[i].sys.cutoff <= states[n].sys.cutoff
    ensures Tally(states[i].sys, k, x).disk <= Tally(states[n].sys, k, x).disk
    decreases n
  {
    hide Moves, Good, Begins, Tally, Drops, EventOfMove, Record;
    if i < n {
      RunGood(states, moves, n - 1);
      RunGood(states, moves, n);
      RunMove(states, moves, n - 1);
      CutoffGrows(states[n - 1], moves[n - 1], states[n]);
      UnusedRecent(states[n], x);
      UnusedMove(states, moves, n - 1, k, x);
      ExpiredOnly(states[n - 1], moves[n - 1], x);
      RecordGrows(Tally(states[n - 1].sys, k, x), EventOfMove(states[n - 1], moves[n - 1]), k, x);
      RetentionKeepsRecent(states, moves, i, n - 1, k, x);
    }
  }

  // ---------- identity ----------

  lemma ForwardMove(p: State, move: Move, p': State, id: SeriesId)
    requires Good(p) && Moves(p, move, p') && id in p.sys.disk.forward
    ensures id in p'.sys.disk.forward && p'.sys.disk.forward[id] == p.sys.disk.forward[id]
  {
    hide Good, Next, NextMerge, NextQuery, NextRetention, NextFlush, NextCrash, NextAppend;
    if move.Does? {
      var s, step, s' := p.sys, move.step, p'.sys;
      NextIs(s, step, s');
      if IsFlushStep(step) {
        FlushForward(p, step, s', id);
      } else if IsMergeStep(step) {
        MergeForward(s, step, s');
      } else if IsQueryStep(step) {
        QueryFrame(s, step, s');
      } else if IsRetentionStep(step) {
        RetentionFrame(s, step, s');
      } else if step.Crash? {
        CrashNames(s, s');
      } else {
        AppendFrame(s, step, s');
      }
    } else {
      StaleFrame(p, move, p');
    }
  }

  lemma MergeForward(s: Sys, step: Step, s': Sys)
    requires IsMergeStep(step) && NextMerge(s, step, s')
    ensures s'.disk.forward == s.disk.forward
  {
    hide MergesInto, Sorts, SmallParts, Readable, Renames;
  }

  lemma FlushForward(p: State, step: Step, s': Sys, id: SeriesId)
    requires Good(p) && IsFlushStep(step) && NextFlush(p.sys, step, s') && id in p.sys.disk.forward
    ensures id in s'.disk.forward && s'.disk.forward[id] == p.sys.disk.forward[id]
  {
    hide Good, NextFlush, RegistryOk;
    if step.FlushSaveRegistry? {
      GoodRegistry(p);
      SaveForward(p, s', id);
    } else {
      ForwardKept(p.sys, step, s');
    }
  }

  lemma SaveForward(p: State, s': Sys, id: SeriesId)
    requires NextFlush(p.sys, FlushSaveRegistry, s') && id in p.sys.disk.forward
    requires RegistryOk(p.sys.reg, p.sys.disk.forward, Without(p.sys, p.used).flush)
    ensures id in s'.disk.forward && s'.disk.forward[id] == p.sys.disk.forward[id]
  {
    hide S.Consistent, S.WellIndexed, DaysOf;
  }

  lemma ForwardKept(s: Sys, step: Step, s': Sys)
    requires IsFlushStep(step) && !step.FlushSaveRegistry? && NextFlush(s, step, s')
    ensures s'.disk.forward == s.disk.forward
  {
    hide *;
    if s.flush.FDay? {
      DayForward(s, step, s');
    } else {
      BatchForward(s, step, s');
    }
  }

  lemma DayForward(s: Sys, step: Step, s': Sys)
    requires s.flush.FDay? && IsFlushStep(step) && NextFlush(s, step, s')
    ensures s'.disk.forward == s.disk.forward
  {
    hide Sorts, Permutes, DayPart, Joined, OpensAs, Cleaned, Renames, DirOf, OpensItsDay;
    if step.FlushOpenDay? {
      hide NextFlush;
      OpenIs(s, step, s');
    } else if step.FlushStage? {
      hide NextFlush;
      StageIs(s, step, s');
    }
  }

  lemma BatchForward(s: Sys, step: Step, s': Sys)
    requires !s.flush.FDay? && IsFlushStep(step) && !step.FlushSaveRegistry? && NextFlush(s, step, s')
    ensures s'.disk.forward == s.disk.forward
  {
    hide Permutes, DayPart, Joined, EntriesFor, S.Unindexed, DaysOf, S.Marked, InvertedOf;
    if step.FlushIndexDay? {
      hide NextFlush;
      IndexDayFrame(s, step, s');
    }
  }

  lemma ForwardNamed(p: State, id: SeriesId)
    requires Good(p) && id in p.sys.disk.forward
    ensures id in p.sys.reg.names && p.sys.reg.names[id] == p.sys.disk.forward[id]
  {
    GoodRecords(p);
    hide Good;
  }

  /** A durable series keeps its labels for ever: no pass of retention, merge, crash or reopening
      changes or drops its forward record. */
  lemma {:induction false} IdentityIsPermanent(states: seq<State>, moves: seq<Move>, i: nat, n: nat, id: SeriesId)
    requires IsRun(states, moves) && i <= n <= |moves| && id in states[i].sys.disk.forward
    ensures id in states[n].sys.disk.forward && id in states[n].sys.reg.names
    ensures states[n].sys.reg.names[id] == states[n].sys.disk.forward[id] == states[i].sys.disk.forward[id]
    decreases n
  {
    hide Moves, Begins, Good;
    RunGood(states, moves, n);
    if i < n {
      IdentityIsPermanent(states, moves, i, n - 1, id);
      RunGood(states, moves, n - 1);
      RunMove(states, moves, n - 1);
      ForwardMove(states[n - 1], moves[n - 1], states[n], id);
    }
    ForwardNamed(states[n], id);
  }

  /** From the largest cutoff on, a series with a sample anywhere in the engine is found by every
      matcher list its labels satisfy, in any state of any run, after any reopening. */
  lemma AlwaysFindable(states: seq<State>, moves: seq<Move>, n: nat, matchers: seq<S.Matcher>, id: SeriesId, x: Sample)
    requires IsRun(states, moves) && n <= |moves| && matchers != []
    requires DayOf(x.t) >= states[n].sys.cutoff && Total(Held(states[n].sys, id, x)) > 0
    ensures var r := states[n].sys.reg;
            id in r.names && (S.Satisfies(r.names[id], matchers) ==> id in S.Matching(r.inverted, matchers))
  {
    hide Moves, Begins, Good, Held;
    RunGood(states, moves, n);
    StoredIsMatched(states[n], matchers, id, x);
  }

  // ---------- merging ----------

  /** Day d lists the output n in place of the inputs names and is otherwise as it was; n holds exactly what
      the inputs held of sample x of id, and so does the day as a whole. */
  ghost predicate Replaces(s: Sys, s': Sys, d: Day, names: set<PartId>, n: PartId, id: SeriesId, x: Sample) {
    && d in s.disk.days && d in s'.disk.days && d in s.partitions && d in s'.partitions
    && var dd, dd', parts := s.disk.days[d], s'.disk.days[d], s.partitions[d].parts;
       && names <= parts && n !in parts && n in dd.dirs
       && dd'.manifest == s'.partitions[d].parts == parts - names + {n} && dd'.dirs == dd.dirs
       && CountIn(dd.dirs[n].data, id, x) == SumOver(names, dd.dirs, id, x)
       && SumOver(dd'.manifest, dd.dirs, id, x) == SumOver(parts, dd.dirs, id, x)
  }

  /** The swap of a merge: the inputs give way to one new part holding all their samples, and every
      other part, listed before or since the inputs were chosen, stays. */
  lemma MergeSwapsExactly(states: seq<State>, moves: seq<Move>, n: nat, id: SeriesId, x: Sample)
    requires IsRun(states, moves) && n < |moves| && moves[n] == Does(MergeSwap)
    requires states[n].sys.merge != MIdle && states[n].sys.merge.day !in states[n].used
    ensures states[n].sys.merge.MRenamed?
    ensures var m := states[n].sys.merge; Replaces(states[n].sys, states[n + 1].sys, m.day, m.names, m.part, id, x)
  {
    hide *;
    GoodSwap(states, moves, n);
    SwapsExactly(states[n], states[n + 1], id, x);
  }

  lemma GoodSwap(states: seq<State>, moves: seq<Move>, n: nat)
    requires IsRun(states, moves) && n < |moves|
    ensures |states| == |moves| + 1 && Good(states[n]) && Moves(states[n], moves[n], states[n + 1])
  {
    hide Moves, Begins, Good;
    RunGood(states, moves, n);
    RunMove(states, moves, n);
  }

  lemma GoodMerge(p: State)
    requires Good(p) && p.sys.merge != MIdle && p.sys.merge.day !in p.used
    ensures var w := Without(p.sys, p.used); MergeOk(p.sys.merge, w.flush, w.disk.days, w.partitions)
    ensures KeysOk(p.sys)
  {
    hide TodoOk, RegistryOk, IdsOk, DurableOk, PersistedOk, FindableOk, DaysOk, FlushOk, RetentionOk, MergeOk, AllDirsOk, ReadOk;
  }

  lemma SwapsExactly(p: State, p': State, id: SeriesId, x: Sample)
    requires Good(p) && Moves(p, Does(MergeSwap), p') && p.sys.merge != MIdle && p.sys.merge.day !in p.used
    ensures p.sys.merge.MRenamed? && Replaces(p.sys, p'.sys, p.sys.merge.day, p.sys.merge.names, p.sys.merge.part, id, x)
  {
    hide *;
    var s, m := p.sys, p.sys.merge;
    GoodMerge(p);
    SwapIs(p, p');
    InputsOf(p, m.day, m.names, m.part);
    ReplacesOf(s, p'.sys, m.day, m.names, m.part, id, x);
  }

  /** The inputs of a merge about to swap are listed, and its output holds exactly their content. */
  lemma InputsOf(p: State, d: Day, names: set<PartId>, n: PartId)
    requires p.sys.merge == MRenamed(d, names, n) && d !in p.used && d in p.sys.disk.days && d in p.sys.partitions
    requires var w := Without(p.sys, p.used); MergeOk(p.sys.merge, w.flush, w.disk.days, w.partitions)
    ensures var dd, parts := p.sys.disk.days[d], p.sys.partitions[d].parts;
            && names <= parts && names <= dd.dirs.Keys && n !in parts && n in dd.dirs
            && SameCounts(dd.dirs[n].data, names, dd.dirs)
  {
    hide SameCounts, MergesInto, IsFlushPart;
    var w := Without(p.sys, p.used);
    assert w.disk.days[d] == p.sys.disk.days[d] && w.partitions[d] == p.sys.partitions[d];
  }

  lemma ReplacesOf(s: Sys, s': Sys, d: Day, names: set<PartId>, n: PartId, id: SeriesId, x: Sample)
    requires d in s.disk.days && d in s'.disk.days && d in s.partitions && d in s'.partitions
    requires var dd, dd', parts := s.disk.days[d], s'.disk.days[d], s.partitions[d].parts;
             && dd'.manifest == s'.partitions[d].parts == parts - names + {n} && dd'.dirs == dd.dirs
             && names <= parts && n !in parts && n in dd.dirs && SameCounts(dd.dirs[n].data, names, dd.dirs)
    ensures Replaces(s, s', d, names, n, id, x)
  {
    hide SumOver, CountIn;
    var dd, parts := s.disk.days[d], s.partitions[d].parts;
    SumMinus(parts, names, dd.dirs, id, x);
    SumWith(parts - names, dd.dirs, id, x, n);
  }

  lemma SwapIs(p: State, p': State)
    requires Moves(p, Does(MergeSwap), p') && KeysOk(p.sys)
    ensures var s, s', m := p.sys, p'.sys, p.sys.merge;
            && m.MRenamed? && m.day in s.disk.days && m.day in s'.disk.days && m.day in s.partitions && m.day in s'.partitions
            && var dd, dd', parts := s.disk.days[m.day], s'.disk.days[m.day], s.partitions[m.day].parts;
               dd'.manifest == s'.partitions[m.day].parts == parts - m.names + {m.part} && dd'.dirs == dd.dirs
  {
  }

  /** All samples of the named parts, with their series. */
  ghost function FlattenOver(names: set<PartId>, dirs: map<PartId, PartDir>): multiset<(SeriesId, Sample)>
    decreases names
  {
    if names == {} then multiset{}
    else
      var n := Least(names);
      (if n in dirs then Flatten(dirs[n].data) else multiset{}) + FlattenOver(names - {n}, dirs)
  }

  /** The sum of the sample counts in the meta files of the named parts. */
  ghost function SamplesOver(names: set<PartId>, dirs: map<PartId, PartDir>, e: Encoding): nat
    decreases names
  {
    if names == {} then 0
    else
      var n := Least(names);
      (if n in dirs then Layout(dirs[n].data, dirs[n].tier, e).meta.samplesCount else 0) + SamplesOver(names - {n}, dirs, e)
  }

  lemma {:induction false} FlattenOverCount(names: set<PartId>, dirs: map<PartId, PartDir>, id: SeriesId, x: Sample)
    ensures FlattenOver(names, dirs)[(id, x)] == SumOver(names, dirs, id, x)
    decreases names
  {
    hide Flatten;
    if names != {} {
      var n := Least(names);
      FlattenOverCount(names - {n}, dirs, id, x);
      if n in dirs {
        FlattenCount(dirs[n].data, id, x);
      }
    }
  }

  lemma {:induction false} SamplesOverSize(names: set<PartId>, dirs: map<PartId, PartDir>, e: Encoding)
    ensures SamplesOver(names, dirs, e) == |FlattenOver(names, dirs)|
    decreases names
  {
    hide Flatten, Layout;
    if names != {} {
      var n := Least(names);
      SamplesOverSize(names - {n}, dirs, e);
      if n in dirs {
        SamplesCounted(dirs[n].data, dirs[n].tier, e);
        assert |Flatten(dirs[n].data) + FlattenOver(names - {n}, dirs)| ==
               |Flatten(dirs[n].data)| + |FlattenOver(names - {n}, dirs)|;
      }
    }
  }

  lemma SamplesCounted(data: Series, tier: Tier, e: Encoding)
    ensures Layout(data, tier, e).meta.samplesCount == |Flatten(data)|
  {
    hide *;
    MetaOfLayout(data, tier, e);
  }

  lemma SameFlatten(data: Series, names: set<PartId>, dirs: map<PartId, PartDir>)
    requires forall id: SeriesId, x: Sample :: CountIn(data, id, x) == SumOver(names, dirs, id, x)
    ensures Flatten(data) == FlattenOver(names, dirs)
  {
    hide Flatten, FlattenOver, SumOver, CountIn;
    forall q: (SeriesId, Sample) ensures Flatten(data)[q] == FlattenOver(names, dirs)[q] {
      FlattenCount(data, q.0, q.1);
      FlattenOverCount(names, dirs, q.0, q.1);
    }
  }

  /** The sample count the big part records is the sum of those its inputs record. */
  lemma MergedSampleCount(p: State, e: Encoding)
    requires Good(p) && p.sys.merge.MRenamed? && p.sys.merge.day !in p.used
    ensures var m, dirs := p.sys.merge, DirOf(p.sys.disk, p.sys.merge.day).dirs;
            m.part in dirs &&
            Layout(dirs[m.part].data, dirs[m.part].tier, e).meta.samplesCount == SamplesOver(m.names, dirs, e)
  {
    MergedHolds(p);
    hide *;
    var m, dirs := p.sys.merge, DirOf(p.sys.disk, p.sys.merge.day).dirs;
    SamplesCounted(dirs[m.part].data, dirs[m.part].tier, e);
    SamplesOverSize(m.names, dirs, e);
    SameFlatten(dirs[m.part].data, m.names, dirs);
  }

  lemma MergedHolds(p: State)
    requires Good(p) && p.sys.merge.MRenamed? && p.sys.merge.day !in p.used
    ensures var m, dirs := p.sys.merge, DirOf(p.sys.disk, p.sys.merge.day).dirs;
            m.part in dirs && forall id: SeriesId, x: Sample :: CountIn(dirs[m.part].data, id, x) == SumOver(m.names, dirs, id, x)
  {
    GoodMerge(p);
    hide Good, SumOver, CountIn, MergesInto, IsFlushPart;
  }
}
