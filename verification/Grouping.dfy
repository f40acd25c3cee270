/** The first loop of Flush in storage/storage.go: the buffer's samples grouped by day. */
module Grouping {
  import opened Contents
  import opened Part
  import P = Partitions
  import opened SortedIds

  ghost predicate Grouped(byDay: map<Day, Series>, batch: Series) {
    && byDay.Keys == DaysOf(batch)
    && forall d :: d in byDay ==> byDay[d] == DayPart(batch, d)
  }

  lemma OnDayLast(s: seq<Sample>, x: Sample, day: Day)
    ensures OnDay(s + [x], day) == OnDay(s, day) + if DayOf(x.t) == day then [x] else []
  {
    assert (s + [x])[..|s|] == s;
  }

  /** The series map with x appended to series id. */
  function Appended(c: Series, id: SeriesId, x: Sample): Series {
    c[id := SamplesOf(c, id) + [x]]
  }

  lemma DayPartSamples(b: Series, d: Day, id: SeriesId)
    ensures SamplesOf(DayPart(b, d), id) == OnDay(SamplesOf(b, id), d)
    ensures id in DayPart(b, d) <==> OnDay(SamplesOf(b, id), d) != []
  {
    OnDayNone(d);
  }

  lemma AppendedDay(b: Series, id: SeriesId, x: Sample, d: Day)
    ensures DayPart(Appended(b, id, x), d) ==
            if d == DayOf(x.t) then Appended(DayPart(b, d), id, x) else DayPart(b, d)
  {
    hide OnDay, DayPart, DayOf;
    OnDayLast(SamplesOf(b, id), x, d);
    var b' := Appended(b, id, x);
    var left, right := DayPart(b', d), if d == DayOf(x.t) then Appended(DayPart(b, d), id, x) else DayPart(b, d);
    forall i: SeriesId ensures (i in left <==> i in right) && SamplesOf(left, i) == SamplesOf(right, i) {
      DayPartSamples(b, d, i);
      DayPartSamples(b', d, i);
    }
    SameSamples(left, right);
  }

  lemma SameSamples(a: Series, b: Series)
    requires forall i: SeriesId :: (i in a <==> i in b) && SamplesOf(a, i) == SamplesOf(b, i)
    ensures a == b
  {
    assert a.Keys == b.Keys;
    forall i | i in a ensures a[i] == b[i] {
      assert SamplesOf(a, i) == SamplesOf(b, i);
    }
  }

  lemma OnDayNone(d: Day)
    ensures OnDay([], d) == []
  {
  }

  lemma AppendedDays(b: Series, id: SeriesId, x: Sample)
    ensures DaysOf(Appended(b, id, x)) == DaysOf(b) + {DayOf(x.t)}
  {
    var b' := Appended(b, id, x);
    forall d ensures d in DaysOf(b') <==> d in DaysOf(b) + {DayOf(x.t)} {
      if d in DaysOf(b) {
        var i, y :| i in b && y in b[i] && DayOf(y.t) == d;
        assert i in b' && y in b'[i];
      }
      if d == DayOf(x.t) {
        assert id in b' && x in b'[id];
      }
    }
  }

  lemma EmptyDay(b: Series, d: Day)
    requires d !in DaysOf(b)
    ensures DayPart(b, d) == map[]
  {
    forall id | id in b ensures OnDay(b[id], d) == [] {
      OnDayIn(b[id], d);
    }
  }

  lemma {:induction false} OnDayIn(s: seq<Sample>, day: Day)
    ensures OnDay(s, day) != [] ==> exists x :: x in s && DayOf(x.t) == day
  {
    if s != [] {
      OnDayIn(s[..|s| - 1], day);
      assert s == s[..|s| - 1] + [s[|s| - 1]];
      assert s[|s| - 1] in s;
    }
  }

  lemma GroupStep(byDay: map<Day, Series>, b: Series, id: SeriesId, x: Sample)
    requires Grouped(byDay, b)
    ensures var m := if DayOf(x.t) in byDay then byDay[DayOf(x.t)] else map[];
            Grouped(byDay[DayOf(x.t) := Appended(m, id, x)], Appended(b, id, x))
  {
    hide DayPart, DaysOf, Appended, DayOf;
    AppendedDays(b, id, x);
    if DayOf(x.t) !in byDay {
      EmptyDay(b, DayOf(x.t));
    }
    forall d ensures DayPart(Appended(b, id, x), d) ==
                     if d == DayOf(x.t) then Appended(DayPart(b, d), id, x) else DayPart(b, d)
    {
      AppendedDay(b, id, x, d);
    }
  }

  /** b holds the samples of the first i series. */
  ghost predicate Prefixed(b: Series, batch: Series, ids: seq<SeriesId>, i: nat)
    requires i <= |ids|
  {
    && (forall k :: k in b <==> k in ids[..i] && SamplesOf(batch, k) != [])
    && (forall k :: k in b ==> b[k] == SamplesOf(batch, k))
  }

  lemma PrefixedStep(b0: Series, batch: Series, ids: seq<SeriesId>, i: nat, b: Series)
    requires i < |ids| && ids[i] in batch && ids[i] !in ids[..i] && Prefixed(b0, batch, ids, i)
    requires b == if batch[ids[i]] == [] then b0 else b0[ids[i] := batch[ids[i]]]
    ensures Prefixed(b, batch, ids, i + 1)
  {
    assert ids[..i + 1] == ids[..i] + [ids[i]];
  }

  lemma PrefixedDone(byDay: map<Day, Series>, b: Series, batch: Series, ids: seq<SeriesId>)
    requires Prefixed(b, batch, ids, |ids|) && Grouped(byDay, b) && forall id :: id in ids <==> id in batch
    ensures Grouped(byDay, batch)
  {
    assert ids[..|ids|] == ids;
    forall d ensures DayPart(b, d) == DayPart(batch, d) {
      OnDayNone(d);
      assert DayPart(b, d).Keys == DayPart(batch, d).Keys;
    }
    forall d ensures d in DaysOf(b) <==> d in DaysOf(batch) {
      if d in DaysOf(batch) {
        var i, y :| i in batch && y in batch[i] && DayOf(y.t) == d;
        assert i in b && y in b[i];
      }
    }
  }

  lemma NotInPrefix(b: Series, batch: Series, ids: seq<SeriesId>, i: nat)
    requires i < |ids| && Prefixed(b, batch, ids, i) && ids[i] !in ids[..i]
    ensures ids[i] !in b
  {
  }

  lemma NothingGrouped(batch: Series, ids: seq<SeriesId>)
    ensures Grouped(map[], map[]) && Prefixed(map[], batch, ids, 0)
  {
  }

  /** The first loop of Flush. */
  method GroupByDay(batch: Series) returns (byDay: map<Day, Series>)
    ensures Grouped(byDay, batch)
  {
    hide *;
    byDay := map[];
    var ids := Keys(batch);
    KeysAre(batch);
    ghost var b: Series := map[];
    var i := 0;
    NothingGrouped(batch, ids);
    while i < |ids|
      invariant 0 <= i <= |ids| && Grouped(byDay, b) && Prefixed(b, batch, ids, i)
    {
      var id := ids[i];
      assert id in ids;
      P.NotBefore(ids, i);
      NotInPrefix(b, batch, ids, i);
      var samples := batch[id];
      ghost var b0 := b;
      var j := 0;
      while j < |samples|
        invariant 0 <= j <= |samples| && Grouped(byDay, b)
        invariant b == if j == 0 then b0 else b0[id := samples[..j]]
      {
        var sm := samples[j];
        var day := DayOf(sm.t);
        var m := if day in byDay then byDay[day] else map[];
        GroupStep(byDay, b, id, sm);
        AppendedIs(m, id, sm);
        AppendedIs(b, id, sm);
        m := m[id := (if id in m then m[id] else []) + [sm]];
        byDay := byDay[day := m];
        assert samples[..j + 1] == samples[..j] + [sm];
        b := b[id := (if id in b then b[id] else []) + [sm]];
        j := j + 1;
      }
      assert samples[..j] == samples;
      PrefixedStep(b0, batch, ids, i, b);
      i := i + 1;
    }
    PrefixedDone(byDay, b, batch, ids);
  }

  lemma AppendedIs(c: Series, id: SeriesId, x: Sample)
    ensures Appended(c, id, x) == c[id := (if id in c then c[id] else []) + [x]]
  {
  }
}
