/** A run in which a merge of a dropped partition does harm, for every series and every sample: a forced
    merge that was waiting for the merge lock while retention dropped the day merges the parts of the
    partition made since. Samples flushed before are then lost by the next successful flush. */
module DroppedMerge {
  import opened Contents
  import opened Engine
  import opened EngineLedger
  import opened Labels
  import opened Part
  import opened Program
  import opened ProgramLedger
  import opened ProgramListed
  import opened SortedIds
  import opened Stretches

  // ---------- the merge of the dropped partition ----------

  const TWO := Partition({1, 2}, 3)

  function TwoDirs(id: SeriesId, x: Sample): map<PartId, PartDir> {
    map[1 := PartDir(One(id, x), Small), 2 := PartDir(One(id, x), Small)]
  }

  function Both(id: SeriesId, x: Sample): Series {
    map[id := [x, x]]
  }

  lemma TwoMerge(id: SeriesId, x: Sample)
    ensures SmallParts(DayDir(TwoDirs(id, x), map[], {1, 2}), TWO) == {1, 2} && |{1, 2}| == 2
    ensures MergesInto({1, 2}, TwoDirs(id, x), Both(id, x)) && Sorts(Both(id, x), Both(id, x))
  {
    var dirs := TwoDirs(id, x);
    forall i, y ensures CountIn(Both(id, x), i, y) == SumOver({1, 2}, dirs, i, y) {
      SumTwo(1, 2, dirs, i, y);
    }
    assert 1 in {1, 2} && id in dirs[1].data;
  }

  lemma SumTwo(a: PartId, b: PartId, dirs: map<PartId, PartDir>, id: SeriesId, x: Sample)
    requires a != b
    ensures SumOver({a, b}, dirs, id, x) == PartCount(dirs, a, id, x) + PartCount(dirs, b, id, x)
  {
    assert {a} + {b} == {a, b} && {} + {a} == {a};
    SumWith({a}, dirs, id, x, b);
    SumWith({}, dirs, id, x, a);
  }

  lemma DirTwice(s: Sys, d: Day, a: DayDir, b: DayDir)
    ensures WithDir(WithDir(s, d, a), d, b) == WithDir(s, d, b) && DirOf(WithDir(s, d, a).disk, d) == a
  {
  }

  /** The forced merge, on a partition that has been dropped, merges the parts of the one that is open. */
  lemma Merges(p0: State, p: State, day: Day, id: SeriesId, x: Sample, d: Day) returns (q: State)
    requires MovesTo(p0, p, d) && Rests(p, map[]) && p.handles == [Handle(day, TWO)] && p.used == {}
    requires DayHolds(p, day, TWO, DayDir(TwoDirs(id, x), map[], {1, 2}))
    ensures MovesTo(p0, q, d) && q.stale == SIdle
    ensures q.sys == WithDir(p.sys, day, DayDir(map[3 := PartDir(Both(id, x), Big)], map[], {3}))
  {
    hide MovesTo, Sorts, MergesInto, Drops;
    var s, dirs, big := p.sys, TwoDirs(id, x), PartDir(Both(id, x), Big);
    TwoMerge(id, x);
    hide One, Both;
    NotDrops(d);
    var p1 := p.(stale := SNames(0, day, {1, 2}));
    LeadsOn(p0, p, StaleSnapshot(0), p1, d);
    var p2 := p.(stale := SRead(0, day, {1, 2}, Both(id, x)));
    LeadsOn(p0, p1, StaleRead(Both(id, x)), p2, d);
    var h4 := [Handle(day, Partition({1, 2}, 4))];
    var d3 := DayDir(dirs, map[3 := big], {1, 2});
    var p3 := State(WithDir(s, day, d3), h4, SStaged(0, day, {1, 2}, 3), {day});
    LeadsOn(p0, p2, StaleStage(Both(id, x)), p3, d);
    var p4 := State(WithDir(s, day, DayDir(dirs[3 := big], map[], {1, 2})), h4, SRenamed(0, day, {1, 2}, 3), {day});
    StaleRenamed(s, day, dirs, big, h4, p3, p4);
    LeadsOn(p0, p3, StaleRename, p4, d);
    q := StaleEnds(p0, p4, s, day, dirs, big, d);
  }

  lemma NotDrops(d: Day)
    ensures forall move: Move :: !move.Does? ==> !Drops(move, d)
  {
  }

  lemma StaleRenamed(s: Sys, day: Day, dirs: map<PartId, PartDir>, big: PartDir, hs: seq<Handle>, p: State, q: State)
    requires 3 !in dirs
    requires p == State(WithDir(s, day, DayDir(dirs, map[3 := big], {1, 2})), hs, SStaged(0, day, {1, 2}, 3), {day})
    requires q == State(WithDir(s, day, DayDir(dirs[3 := big], map[], {1, 2})), hs, SRenamed(0, day, {1, 2}, 3), {day})
    ensures Moves(p, StaleRename, q)
  {
    DirTwice(s, day, DayDir(dirs, map[3 := big], {1, 2}), DayDir(dirs[3 := big], map[], {1, 2}));
    assert map[3 := big] - {3} == map[];
  }

  lemma StaleEnds(p0: State, p: State, s: Sys, day: Day, dirs: map<PartId, PartDir>, big: PartDir, d: Day) returns (q: State)
    requires MovesTo(p0, p, d) && dirs.Keys == {1, 2}
    requires p == State(WithDir(s, day, DayDir(dirs[3 := big], map[], {1, 2})), [Handle(day, Partition({1, 2}, 4))],
                        SRenamed(0, day, {1, 2}, 3), {day})
    ensures MovesTo(p0, q, d) && q.stale == SIdle && q.sys == WithDir(s, day, DayDir(map[3 := big], map[], {3}))
  {
    hide MovesTo, Drops, WithDir, DirOf;
    NotDrops(d);
    var all := dirs[3 := big];
    assert {1, 2} - {1, 2} + {3} == {3};
    DirTwice(s, day, DayDir(all, map[], {1, 2}), DayDir(all, map[], {3}));
    var p1 := State(WithDir(s, day, DayDir(all, map[], {3})), [Handle(day, Partition({3}, 4))], SDeleting(0, day, {1, 2}), {day});
    LeadsOn(p0, p, StaleSwap, p1, d);
    assert {1, 2} - {1} == {2} && {2} - {2} == {};
    var p2 := p1.(sys := WithDir(s, day, DayDir(all - {1}, map[], {3})), stale := SDeleting(0, day, {2}));
    Deletes(p0, p1, s, day, all, {1, 2}, 1, p2, d);
    var p3 := p2.(sys := WithDir(s, day, DayDir(all - {1} - {2}, map[], {3})), stale := SDeleting(0, day, {}));
    Deletes(p0, p2, s, day, all - {1}, {2}, 2, p3, d);
    assert all - {1} - {2} == map[3 := big];
    q := p3.(stale := SIdle);
    LeadsOn(p0, p3, StaleEnd, q, d);
  }

  lemma Deletes(p0: State, p: State, s: Sys, day: Day, dirs: map<PartId, PartDir>, names: set<PartId>, n: PartId, q: State, d: Day)
    requires MovesTo(p0, p, d) && n in names && p.sys == WithDir(s, day, DayDir(dirs, map[], {3})) && p.stale == SDeleting(0, day, names)
    requires q == p.(sys := WithDir(s, day, DayDir(dirs - {n}, map[], {3})), stale := SDeleting(0, day, names - {n}))
    ensures MovesTo(p0, q, d)
  {
    hide MovesTo, Drops, WithDir, DirOf;
    NotDrops(d);
    DirTwice(s, day, DayDir(dirs, map[], {3}), DayDir(dirs - {n}, map[], {3}));
    LeadsOn(p0, p, StaleDelete(n), q, d);
  }

  // ---------- the run ----------

  /** Two flushed samples, then retention, then the same two again: what the forced merge finds. */
  lemma Prepares(labels: seq<Label>, x: Sample) returns (p: State, id: SeriesId)
    ensures MovesTo(Fresh(0), p, DayOf(x.t) + 1) && Rests(p, map[]) && p.handles == [Handle(DayOf(x.t), TWO)] && p.used == {}
    ensures DayHolds(p, DayOf(x.t), TWO, DayDir(TwoDirs(id, x), map[], {1, 2})) && Knows(p, CanonicalKey(labels), id)
  {
    hide MovesTo, CanonicalKey, One;
    FreshBegins(0);
    var day, d := DayOf(x.t), DayOf(x.t) + 1;
    LeadsSelf(Fresh(0), d);
    var p1, i1 := TwoParts(Fresh(0), Fresh(0), labels, x, d);
    var p2 := DropsDay(Fresh(0), p1, map[], day, TWO, DayDir(TwoDirs(i1, x), map[], {1, 2}), if d > 0 then d else 0, d);
    p, id := TwoParts(Fresh(0), p2, labels, x, d);
  }

  lemma TwoParts(p0: State, p: State, labels: seq<Label>, x: Sample, d: Day) returns (q: State, id: SeriesId)
    requires MovesTo(p0, p, d) && Rests(p, map[]) && p.sys.partitions == map[] && p.sys.disk.days == map[]
    ensures MovesTo(p0, q, d) && Rests(q, map[]) && q == p.(sys := q.sys) && Knows(q, CanonicalKey(labels), id)
    ensures q.sys.cutoff == p.sys.cutoff
    ensures DayHolds(q, DayOf(x.t), TWO, DayDir(TwoDirs(id, x), map[], {1, 2}))
    ensures q.sys.partitions.Keys == {DayOf(x.t)} == q.sys.disk.days.Keys
  {
    hide MovesTo, CanonicalKey, One, Rests;
    var q1, i1 := AddsPart(p0, p, labels, x, FIRST, NEW_DIR, d);
    assert {} + {1} == {1} && {1} + {2} == {1, 2};
    var q2, i2 := AddsPart(p0, q1, labels, x, Partition({1}, 2), Grown(NEW_DIR, FIRST, i1, x), d);
    q, id := q2, i2;
    assert i1 == i2;
    assert Grown(Grown(NEW_DIR, FIRST, id, x), Partition({1}, 2), id, x).dirs == TwoDirs(id, x);
  }

  const BROKEN := Partition({1, 2, 4}, 5)

  /** After the merge a flush fails, and the one after it succeeds. */
  lemma Goes(p0: State, p: State, labels: seq<Label>, x: Sample, id: SeriesId, d: Day) returns (q: State)
    requires MovesTo(p0, p, d) && Rests(p, map[]) && Knows(p, CanonicalKey(labels), id)
    requires DayHolds(p, DayOf(x.t), TWO, DayDir(map[3 := PartDir(Both(id, x), Big)], map[], {3}))
    ensures MovesTo(p0, q, d) && Rests(q, map[]) && Knows(q, CanonicalKey(labels), id)
    ensures DayHolds(q, DayOf(x.t), BROKEN,
                  DayDir(map[3 := PartDir(Both(id, x), Big), 4 := PartDir(One(id, x), Small)], map[], {1, 2, 4}))
  {
    hide MovesTo, CanonicalKey, One, Both, Rests, AtDay;
    var dd := DayDir(map[3 := PartDir(Both(id, x), Big)], map[], {3});
    var p1, i := Buffers(p0, p, labels, x, d);
    assert i == id;
    var p2 := FlushToDay(p0, p1, id, x, d);
    var p3 := GivesUp(p0, p2, id, x, TWO, dd, d);
    var p4 := FlushToDay(p0, p3, id, x, d);
    q := Publishes(p0, p4, id, x, Partition({1, 2}, 4), dd, d);
    assert {1, 2} + {4} == {1, 2, 4};
    assert Grown(dd, Partition({1, 2}, 4), id, x).dirs == map[3 := PartDir(Both(id, x), Big), 4 := PartDir(One(id, x), Small)];
  }

  lemma Counts(p: State, k: Str, id: SeriesId, x: Sample, live: Partition, dd: DayDir)
    requires Rests(p, map[]) && Knows(p, k, id) && DayHolds(p, DayOf(x.t), live, dd) && dd.manifest == live.parts
    ensures Tally(p.sys, k, x) == Ledger(0, 0, 0, SumOver(live.parts, dd.dirs, id, x))
  {
    NoParts(live.parts, dd.dirs, id, x);
  }

  lemma BeforeAndAfter(id: SeriesId, x: Sample)
    ensures SumOver({1, 2}, TwoDirs(id, x), id, x) == 2
    ensures SumOver({1, 2, 4}, map[3 := PartDir(Both(id, x), Big), 4 := PartDir(One(id, x), Small)], id, x) == 1
  {
    SumTwo(1, 2, TwoDirs(id, x), id, x);
    var dirs := map[3 := PartDir(Both(id, x), Big), 4 := PartDir(One(id, x), Small)];
    SumTwo(1, 2, dirs, id, x);
    assert {1, 2} + {4} == {1, 2, 4};
    SumWith({1, 2}, dirs, id, x, 4);
  }

  /** What goes wrong: at point i two copies of x are on disk, at point j listed parts have lost their
      directories and the day can no longer be read, and at the end only the copy flushed last is left,
      although neither a crash nor retention has come between. */
  ghost predicate LosesFlushed(states: seq<State>, moves: seq<Move>, i: nat, j: nat, k: Str, x: Sample) {
    && IsRun(states, moves) && i <= j <= |moves| && NeverDropped(moves, i, |moves|, DayOf(x.t))
    && Tally(states[i].sys, k, x) == Ledger(0, 0, 0, 2)
    && !PartsListed(states[j].sys, DayOf(x.t)) && !Readable(states[j].sys, DayOf(x.t))
    && states[|moves|].sys.flush == FIdle && Tally(states[|moves|].sys, k, x) == Ledger(0, 0, 0, 1)
  }

  /** For every label list and every sample there is such a run. */
  lemma MergeOfDroppedLoses(labels: seq<Label>, x: Sample)
    returns (states: seq<State>, moves: seq<Move>, i: nat, j: nat)
    ensures LosesFlushed(states, moves, i, j, CanonicalKey(labels), x)
  {
    hide CanonicalKey, One, Both, Moves, Drops, MovesTo, Begins, Tally;
    var k, day := CanonicalKey(labels), DayOf(x.t);
    FreshBegins(0);
    var a, id := Prepares(labels, x);
    var none: seq<Move> := [];
    assert IsRun([Fresh(0)], none);
    var states1, moves1 := Continues([Fresh(0)], none, a, day + 1);
    LeadsSelf(a, day);
    var b := Merges(a, a, day, id, x, day);
    var states2, moves2 := Continues(states1, moves1, b, day);
    LeadsSelf(b, day);
    var c := Goes(b, b, labels, x, id, day);
    states, moves := Continues(states2, moves2, c, day);
    i, j := |moves1|, |moves2|;
    BeforeAndAfter(id, x);
    Counts(a, k, id, x, TWO, DayDir(TwoDirs(id, x), map[], {1, 2}));
    Counts(c, k, id, x, BROKEN, DayDir(map[3 := PartDir(Both(id, x), Big), 4 := PartDir(One(id, x), Small)], map[], {1, 2, 4}));
    assert states[i] == states2[i] == states1[i] == a;
    assert states[j] == states2[j] == b;
    forall m | i <= m < |moves| ensures !Drops(moves[m], day) {
      if m < j {
        assert moves[m] == moves2[m];
      }
    }
    assert !PartsListed(b.sys, day) && !Readable(b.sys, day) by {
      assert 1 in b.sys.partitions[day].parts && 1 !in b.sys.disk.days[day].dirs;
    }
  }
}
