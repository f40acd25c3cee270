/** Which samples a query can rely on: retention forgets the index of a day even while samples of that
    day are buffered. */
module LateSample {
  import opened Contents
  import opened Engine
  import opened EngineLedger
  import opened EngineTheorems
  import opened Labels
  import opened Part
  import opened Program
  import opened ProgramLedger
  import opened SortedIds
  import opened Stretches
  import S = Series

  // ---------- the run ----------

  /** The program holds x once, in the buffer, under the labels it was appended with, and no matcher
      list finds the series. */
  ghost predicate BufferedUnfound(s: Sys, labels: seq<Label>, id: SeriesId, x: Sample) {
    && Tally(s, CanonicalKey(labels), x) == Held(s, id, x) == Ledger(1, 0, 0, 0)
    && id in s.reg.names && s.reg.names[id] == SortedLabels(labels)
    && forall matchers :: matchers != [] ==> id !in S.Matching(s.reg.inverted, matchers)
  }

  /** The sample is appended, flushed and appended again, and then retention drops its day. */
  lemma LeavesBuffered(labels: seq<Label>, x: Sample, cutoff: Day) returns (p0: State, q: State, id: SeriesId)
    requires DayOf(x.t) < cutoff
    ensures Begins(p0) && MovesTo(p0, q, DayOf(x.t) + 1) && Rests(q, One(id, x)) && Knows(q, CanonicalKey(labels), id)
    ensures q.sys.cutoff == cutoff && q.sys.reg.inverted == map[] && q.sys.disk.days == map[] && q.sys.partitions == map[]
    ensures id in q.sys.reg.names && q.sys.reg.names[id] == SortedLabels(labels)
  {
    hide MovesTo, Rests, CanonicalKey, SortedLabels, One, Begins;
    var day, d := DayOf(x.t), DayOf(x.t) + 1;
    p0 := Fresh(day);
    FreshBegins(day);
    LeadsSelf(p0, d);
    var p1, i := AddsPart(p0, p0, labels, x, FIRST, NEW_DIR, d);
    var p2, j := Buffers(p0, p1, labels, x, d);
    id := j;
    q := DropsDay(p0, p2, One(id, x), day, Partition({1}, 2), Grown(NEW_DIR, FIRST, i, x), cutoff, d);
    assert q.sys.reg.inverted == map[];
  }

  lemma OneHeld(q: State, k: Str, id: SeriesId, x: Sample)
    requires Rests(q, One(id, x)) && Knows(q, k, id) && q.sys.disk.days == map[] && q.sys.partitions == map[]
    ensures Tally(q.sys, k, x) == Held(q.sys, id, x) == Ledger(1, 0, 0, 0)
  {
    assert multiset([x])[x] == 1;
  }

  lemma NoneFound(inverted: S.Inverted, matchers: seq<S.Matcher>, id: SeriesId)
    requires inverted == map[] && matchers != []
    ensures id !in S.Matching(inverted, matchers)
  {
    S.MatchingIn(inverted, matchers, id);
    assert matchers[0] in matchers;
  }

  /** For every label list, every sample and every later cutoff there is a run that ends with the sample
      buffered and found by nothing. */
  lemma LateSampleLost(labels: seq<Label>, x: Sample, cutoff: Day) returns (states: seq<State>, moves: seq<Move>, id: SeriesId)
    requires DayOf(x.t) < cutoff
    ensures IsRun(states, moves) && states[|moves|].sys.cutoff == cutoff
    ensures BufferedUnfound(states[|moves|].sys, labels, id, x)
  {
    hide CanonicalKey, SortedLabels, One, MovesTo, Rests, Begins, Moves, Tally, Held, S.Matching;
    var p0, q, i := LeavesBuffered(labels, x, cutoff);
    id := i;
    OneHeld(q, CanonicalKey(labels), id, x);
    var none: seq<Move> := [];
    assert IsRun([p0], none);
    states, moves := Continues([p0], none, q, DayOf(x.t) + 1);
    forall matchers: seq<S.Matcher> | matchers != [] ensures id !in S.Matching(q.sys.reg.inverted, matchers) {
      NoneFound(q.sys.reg.inverted, matchers, id);
    }
  }

  // ---------- the exact condition ----------

  /** Whatever series holds a copy of x, it is registered and found by every matcher list its labels satisfy. */
  ghost predicate Findable(s: Sys, x: Sample) {
    forall id :: Total(Held(s, id, x)) > 0 ==> id in s.reg.names && FoundByAll(s.reg, id)
  }

  ghost predicate FoundByAll(r: S.State, id: SeriesId)
    requires id in r.names
  {
    forall matchers :: matchers != [] && S.Satisfies(r.names[id], matchers) ==> id in S.Matching(r.inverted, matchers)
  }

  /** A sample is findable in every run that ends with that cutoff. */
  ghost predicate AlwaysFound(x: Sample, cutoff: Day) {
    forall states: seq<State>, moves: seq<Move> ::
      IsRun(states, moves) && states[|moves|].sys.cutoff == cutoff ==> Findable(states[|moves|].sys, x)
  }

  /** Exactly the samples that are not before the cutoff can be relied on. */
  lemma FindableIff(x: Sample, cutoff: Day)
    ensures AlwaysFound(x, cutoff) <==> DayOf(x.t) >= cutoff
  {
    hide Moves, Begins, Findable, FoundByAll;
    if DayOf(x.t) >= cutoff {
      forall states: seq<State>, moves: seq<Move> | IsRun(states, moves) && states[|moves|].sys.cutoff == cutoff
        ensures Findable(states[|moves|].sys, x)
      {
        RecentFindable(states, moves, x);
      }
    } else {
      var l := Label([], []);
      var states, moves, id := LateSampleLost([l], x, cutoff);
      UnfoundNotFindable(states[|moves|].sys, l, id, x);
    }
  }

  lemma RecentFindable(states: seq<State>, moves: seq<Move>, x: Sample)
    requires IsRun(states, moves) && DayOf(x.t) >= states[|moves|].sys.cutoff
    ensures Findable(states[|moves|].sys, x)
  {
    hide Moves, Begins, Held, S.Matching, S.Satisfies;
    var s := states[|moves|].sys;
    forall id | Total(Held(s, id, x)) > 0 ensures id in s.reg.names && FoundByAll(s.reg, id) {
      var m := S.Matcher([], []);
      AlwaysFindable(states, moves, |moves|, [m], id, x);
      forall matchers | matchers != [] && S.Satisfies(s.reg.names[id], matchers) ensures id in S.Matching(s.reg.inverted, matchers) {
        AlwaysFindable(states, moves, |moves|, matchers, id, x);
      }
    }
  }

  lemma UnfoundNotFindable(s: Sys, l: Label, id: SeriesId, x: Sample)
    requires BufferedUnfound(s, [l], id, x)
    ensures !Findable(s, x)
  {
    hide Tally, Held, CanonicalKey, S.Matching;
    SortedLabelsSorts([l]);
    var matchers := [S.Matcher(l.name, l.value)];
    assert SortedLabels([l]) == [l] by {
      assert multiset(SortedLabels([l])) == multiset([l]) && |SortedLabels([l])| == |multiset(SortedLabels([l]))|;
      assert SortedLabels([l])[0] in multiset([l]);
    }
    assert S.Satisfies([l], matchers);
    assert id !in S.Matching(s.reg.inverted, matchers);
  }
}
