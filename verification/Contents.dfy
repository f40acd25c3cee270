/** How often a sample occurs: in a series map, in a set of parts, on a day. */
module Contents {
  import opened Part
  import opened SortedIds
  import opened Varint

  type PartId = nat

  const DAY_MS := 86_400_000

  /** The UTC day of a millisecond timestamp; negative timestamps fall on days before 1970. */
  function DayOf(t: Int64): Day {
    t / DAY_MS
  }

  /** A published part: its content and its tier. */
  datatype PartDir = PartDir(data: Series, tier: Tier)

  // ---------- series maps ----------

  function SamplesOf(c: Series, id: SeriesId): seq<Sample> {
    if id in c then c[id] else []
  }

  /** restoreMem: the samples of b appended to the buffer a, series by series. */
  function Joined(a: Series, b: Series): Series {
    map id | id in a.Keys + b.Keys :: SamplesOf(a, id) + SamplesOf(b, id)
  }

  lemma JoinedCount(a: Series, b: Series, id: SeriesId, x: Sample)
    ensures CountIn(Joined(a, b), id, x) == CountIn(a, id, x) + CountIn(b, id, x)
  {
  }

  function OnDay(s: seq<Sample>, day: Day): (r: seq<Sample>) {
    if s == [] then []
    else if DayOf(s[|s| - 1].t) == day then OnDay(s[..|s| - 1], day) + [s[|s| - 1]]
    else OnDay(s[..|s| - 1], day)
  }

  lemma {:induction false} OnDayCount(s: seq<Sample>, day: Day, x: Sample)
    ensures multiset(OnDay(s, day))[x] == if DayOf(x.t) == day then multiset(s)[x] else 0
  {
    if s != [] {
      OnDayCount(s[..|s| - 1], day, x);
      assert s == s[..|s| - 1] + [s[|s| - 1]];
    }
  }

  /** byDay[day]: the samples of batch on that day. */
  function DayPart(batch: Series, day: Day): Series {
    map id | id in batch && OnDay(batch[id], day) != [] :: OnDay(batch[id], day)
  }

  lemma DayPartCount(batch: Series, day: Day, id: SeriesId, x: Sample)
    ensures CountIn(DayPart(batch, day), id, x) == if DayOf(x.t) == day then CountIn(batch, id, x) else 0
  {
    if id in batch {
      OnDayCount(batch[id], day, x);
    }
  }

  function DaysOf(c: Series): set<Day> {
    set id, x | id in c && x in c[id] :: DayOf(x.t)
  }

  lemma CountIsIn(c: Series, id: SeriesId, x: Sample)
    ensures CountIn(c, id, x) > 0 <==> id in c && x in c[id]
    ensures CountIn(c, id, x) > 0 ==> DayOf(x.t) in DaysOf(c)
  {
    if id in c {
      assert x in c[id] <==> x in multiset(c[id]);
    }
  }

  lemma SortsCount(sorted: Series, data: Series, id: SeriesId, x: Sample)
    requires Sorts(sorted, data)
    ensures CountIn(sorted, id, x) == CountIn(data, id, x)
  {
  }

  lemma PermutesCount(a: Series, b: Series, id: SeriesId, x: Sample)
    requires Permutes(a, b)
    ensures CountIn(a, id, x) == CountIn(b, id, x)
  {
  }

  // ---------- sets of parts ----------

  function PartCount(dirs: map<PartId, PartDir>, n: PartId, id: SeriesId, x: Sample): nat {
    if n in dirs then CountIn(dirs[n].data, id, x) else 0
  }

  ghost function Least(names: set<PartId>): (n: PartId)
    requires names != {}
    ensures n in names
  {
    LeastExists(names);
    var m :| m in names && forall y :: y in names ==> m <= y;
    m
  }

  /** The occurrences of x in series id over the parts of names. */
  ghost function SumOver(names: set<PartId>, dirs: map<PartId, PartDir>, id: SeriesId, x: Sample): nat
    decreases names
  {
    if names == {} then 0
    else PartCount(dirs, Least(names), id, x) + SumOver(names - {Least(names)}, dirs, id, x)
  }

  lemma {:induction false} SumWithout(names: set<PartId>, dirs: map<PartId, PartDir>, id: SeriesId, x: Sample, n: PartId)
    requires n in names
    ensures SumOver(names, dirs, id, x) == PartCount(dirs, n, id, x) + SumOver(names - {n}, dirs, id, x)
    decreases names
  {
    hide PartCount;
    var m := Least(names);
    if m != n {
      SumWithout(names - {m}, dirs, id, x, n);
      SumWithout(names - {n}, dirs, id, x, m);
      assert names - {m} - {n} == names - {n} - {m};
    }
  }

  lemma SumWith(names: set<PartId>, dirs: map<PartId, PartDir>, id: SeriesId, x: Sample, n: PartId)
    requires n !in names
    ensures SumOver(names + {n}, dirs, id, x) == PartCount(dirs, n, id, x) + SumOver(names, dirs, id, x)
  {
    SumWithout(names + {n}, dirs, id, x, n);
    assert names + {n} - {n} == names;
  }

  lemma {:induction false} SumMinus(names: set<PartId>, gone: set<PartId>, dirs: map<PartId, PartDir>, id: SeriesId, x: Sample)
    requires gone <= names
    ensures SumOver(names, dirs, id, x) == SumOver(gone, dirs, id, x) + SumOver(names - gone, dirs, id, x)
    decreases gone
  {
    if gone == {} {
      assert names - gone == names;
    } else {
      var n := Least(gone);
      SumWithout(names, dirs, id, x, n);
      SumMinus(names - {n}, gone - {n}, dirs, id, x);
      assert names - {n} - (gone - {n}) == names - gone;
    }
  }

  lemma {:induction false} SumFrame(names: set<PartId>, a: map<PartId, PartDir>, b: map<PartId, PartDir>, id: SeriesId, x: Sample)
    requires forall n :: n in names ==> n in a && n in b && a[n] == b[n]
    ensures SumOver(names, a, id, x) == SumOver(names, b, id, x)
    decreases names
  {
    if names != {} {
      SumFrame(names - {Least(names)}, a, b, id, x);
    }
  }

  lemma {:induction false} SumZero(names: set<PartId>, dirs: map<PartId, PartDir>, id: SeriesId, x: Sample)
    requires forall n :: n in dirs ==> CountIn(dirs[n].data, id, x) == 0
    ensures SumOver(names, dirs, id, x) == 0
    decreases names
  {
    hide CountIn;
    if names != {} {
      SumZero(names - {Least(names)}, dirs, id, x);
    }
  }

  lemma {:induction false} SumPositive(names: set<PartId>, dirs: map<PartId, PartDir>, id: SeriesId, x: Sample) returns (n: PartId)
    requires SumOver(names, dirs, id, x) > 0
    ensures n in names && n in dirs && CountIn(dirs[n].data, id, x) > 0
    decreases names
  {
    n := Least(names);
    if PartCount(dirs, n, id, x) == 0 {
      n := SumPositive(names - {n}, dirs, id, x);
    }
  }
}
