/** Which days ApplyRetention drops: the cutoff of storage/retention.go, in 64-bit arithmetic, and the
    comparison of day names. */
module Cutoffs {
  import opened Bits
  import opened Contents
  import opened DayNames
  import opened Labels
  import opened SortedIds
  import opened Varint

  /** The day of the cutoff. Product and difference are those of int64. */
  function CutoffDay(retentionDays: Int64, now: Int64): Day {
    DayOf(Sub64(now, Mul64(retentionDays, DAY_MS)))
  }

  /** A partition is dropped if its name sorts before that of the cutoff. */
  predicate Expires(d: Day, cutoff: Day) {
    StrLess(DayName(d), DayName(cutoff))
  }

  function ToDrop(days: set<Day>, cutoff: Day): set<Day> {
    set d | d in days && Expires(d, cutoff)
  }

  /** The time before which samples are to expire. */
  function Horizon(retentionDays: Int64, now: Int64): int {
    now - retentionDays * DAY_MS
  }

  /** The cutoff can be computed without overflow. */
  predicate InRange(retentionDays: Int64, now: Int64) {
    Horizon(retentionDays, now) >= MIN_INT64
  }

  lemma InRangeIff(retentionDays: Int64, now: Int64)
    ensures InRange(retentionDays, now) <==> retentionDays <= (now + TWO_63) / DAY_MS
    ensures now >= 0 && retentionDays <= 106_751_991_167 ==> InRange(retentionDays, now)
  {
  }

  lemma CutoffIs(retentionDays: Int64, now: Int64)
    requires retentionDays > 0 && InRange(retentionDays, now)
    ensures CutoffDay(retentionDays, now) == DayOf(Horizon(retentionDays, now))
  {
    WrapsBack(now, retentionDays * DAY_MS);
  }

  lemma WrapsBack(now: Int64, p: nat)
    requires now - p >= MIN_INT64
    ensures Sub64(now, (p + TWO_63) % TWO_64 - TWO_63) == now - p
  {
  }

  // ---------- on days ----------

  /** Samples no older than the horizon are at or after the cutoff day, those a day older before it. */
  ghost predicate Separates(retentionDays: Int64, now: Int64) {
    forall t: Int64 ::
      && (t >= Horizon(retentionDays, now) ==> DayOf(t) >= CutoffDay(retentionDays, now))
      && (t <= Horizon(retentionDays, now) - DAY_MS ==> DayOf(t) < CutoffDay(retentionDays, now))
  }

  /** That is so exactly when the cutoff is in range, or wraps to the very first day there is. */
  lemma CutoffSeparatesIff(retentionDays: Int64, now: Int64)
    requires retentionDays > 0
    ensures Separates(retentionDays, now) <==> InRange(retentionDays, now) || CutoffDay(retentionDays, now) == DayOf(MIN_INT64)
  {
    var c := CutoffDay(retentionDays, now);
    if InRange(retentionDays, now) {
      CutoffIs(retentionDays, now);
      forall t: Int64
        ensures t >= Horizon(retentionDays, now) ==> DayOf(t) >= c
        ensures t <= Horizon(retentionDays, now) - DAY_MS ==> DayOf(t) < c
      {
        DaysApart(t, Horizon(retentionDays, now));
      }
    } else {
      hide CutoffDay;
      assert MIN_INT64 >= Horizon(retentionDays, now);
      CutoffIsDay(retentionDays, now);
      forall t: Int64 ensures DayOf(t) >= DayOf(MIN_INT64) {
        DaysApart(t, MIN_INT64);
      }
      if Separates(retentionDays, now) {
        assert DayOf(MIN_INT64) >= c;
      }
    }
  }

  lemma CutoffIsDay(retentionDays: Int64, now: Int64)
    ensures DayOf(MIN_INT64) <= CutoffDay(retentionDays, now)
  {
    DaysApart(Sub64(now, Mul64(retentionDays, DAY_MS)), MIN_INT64);
  }

  lemma DaysApart(t: Int64, u: Int64)
    ensures t >= u ==> DayOf(t) >= DayOf(u)
    ensures t <= u - DAY_MS ==> DayOf(t) < DayOf(u)
  {
  }

  // ---------- on names ----------

  /** The same of what is dropped, for samples of the years 0000 to 9999: none within the retention period
      is, and every one a day older is. */
  ghost predicate DropsRightly(retentionDays: Int64, now: Int64) {
    forall t: Int64 :: Nameable(DayOf(t)) ==>
      && (t >= Horizon(retentionDays, now) ==> !Expires(DayOf(t), CutoffDay(retentionDays, now)))
      && (t <= Horizon(retentionDays, now) - DAY_MS ==> Expires(DayOf(t), CutoffDay(retentionDays, now)))
  }

  lemma ExpiresNameable(d: Day, c: Day)
    requires Nameable(d) && c <= LAST_DAY
    ensures Expires(d, c) <==> d < c
  {
    hide DayName, StrLess;
    if c < FIRST_DAY {
      NegativeSortsFirst(c, d);
      StrLessTotal(DayName(c), DayName(d));
    } else {
      NamesOrder(d, c);
    }
  }

  /** A name of more than four year digits sorts after that of the first day. */
  lemma LateSortsAfterFirst(c: Day)
    requires c > LAST_DAY
    ensures Nameable(FIRST_DAY) && Expires(FIRST_DAY, c)
  {
    hide DateOf, DayName, Digits, StrLess;
    NameHead(c);
    NameHead(FIRST_DAY);
    YearSigns(c);
    FirstYear();
    FourDigits(0);
    LeadingDigit(DateOf(c).y);
    HeadsOrder(DayName(FIRST_DAY), DayName(c));
  }

  lemma FirstYear()
    ensures DateOf(FIRST_DAY) == Date(0, 1, 1)
  {
    hide DateOf, DayNumber;
    LastNumber();
    DateRoundTrip(FIRST_DAY);
    NumberOrder(DateOf(FIRST_DAY), Date(0, 1, 1));
  }

  lemma LeadingDigit(n: nat)
    requires n >= 10_000
    ensures Digits(n, 4) != [] && Digits(n, 4)[0] > ZERO
  {
    Pow10s();
    LeadingFrom(n, 4);
  }

  lemma {:induction false} Pow10Grows(w: nat)
    ensures Pow10(w) >= 1 && (w > 0 ==> Pow10(w) == 10 * Pow10(w - 1) >= 10)
  {
    if w > 0 {
      Pow10Grows(w - 1);
    }
  }

  lemma {:induction false} LeadingFrom(n: nat, w: nat)
    requires n >= Pow10(w)
    ensures Digits(n, w) != [] && Digits(n, w)[0] > ZERO
    decreases n
  {
    var v := if w > 0 then w - 1 else 0;
    Pow10Grows(w);
    assert Digits(n, w) == Digits(n / 10, v) + [ZERO + n % 10];
    if n < 10 {
      assert w == 0 && n / 10 == 0 && Digits(0, 0) == [];
    } else {
      LeadingFrom(n / 10, v);
    }
  }

  /** While the clock shows a year up to 9999, the right days are dropped if and only if the cutoff is in
      range, or wraps to a time before the second day of the year 0000. */
  lemma DropsRightlyIff(retentionDays: Int64, now: Int64)
    requires retentionDays > 0 && Nameable(DayOf(now))
    ensures DropsRightly(retentionDays, now) <==> InRange(retentionDays, now) || CutoffDay(retentionDays, now) <= FIRST_DAY
  {
    var c := CutoffDay(retentionDays, now);
    hide DayName, StrLess, Expires;
    if InRange(retentionDays, now) {
      CutoffIs(retentionDays, now);
      DaysApart(now, Horizon(retentionDays, now));
      forall t: Int64 | Nameable(DayOf(t))
        ensures t >= Horizon(retentionDays, now) ==> !Expires(DayOf(t), c)
        ensures t <= Horizon(retentionDays, now) - DAY_MS ==> Expires(DayOf(t), c)
      {
        DaysApart(t, Horizon(retentionDays, now));
        ExpiresNameable(DayOf(t), c);
      }
    } else if c <= FIRST_DAY {
      forall t: Int64 | Nameable(DayOf(t)) ensures !Expires(DayOf(t), c) {
        ExpiresNameable(DayOf(t), c);
      }
    } else {
      var first: Int64 := FIRST_DAY * DAY_MS;
      assert DayOf(first) == FIRST_DAY;
      if c <= LAST_DAY {
        ExpiresNameable(FIRST_DAY, c);
      } else {
        LateSortsAfterFirst(c);
      }
    }
  }

  lemma YearsOfNineDigits()
    ensures DayNumber(Date(90_000_000, 1, 1)) == 32_871_105_472 && DayNumber(Date(100_000_000, 1, 1)) == 36_523_530_472
  {
    FirstMonth(90_000_000);
    FirstMonth(100_000_000);
    MultiplesAt(90_000_000, 4, 22_500_000, 3);
    MultiplesAt(90_000_000, 100, 900_000, 99);
    MultiplesAt(90_000_000, 400, 225_000, 399);
    MultiplesAt(100_000_000, 4, 25_000_000, 3);
    MultiplesAt(100_000_000, 100, 1_000_000, 99);
    MultiplesAt(100_000_000, 400, 250_000, 399);
    hide Multiples, MonthStart;
  }

  /** The year of a day this far off begins with a nine. */
  lemma FarYear(c: Day)
    requires 32_871_105_472 <= c < 36_523_530_472
    ensures DayName(c) != [] && DayName(c)[0] == ZERO + 9
  {
    hide DateOf, DayNumber, DayName, Digits, IsDate, Before;
    YearsOfNineDigits();
    DateRoundTrip(c);
    IsNewYear(90_000_000);
    IsNewYear(100_000_000);
    NumberOrder(DateOf(c), Date(90_000_000, 1, 1));
    NumberOrder(DateOf(c), Date(100_000_000, 1, 1));
    NameHead(c);
    TenMillion();
    FirstDigit(DateOf(c).y, 4, 7, 9);
  }

  lemma IsNewYear(y: int)
    ensures IsDate(Date(y, 1, 1))
    ensures forall x :: IsDate(x) ==> (Before(x, Date(y, 1, 1)) <==> x.y < y)
  {
  }

  lemma TenMillion()
    ensures Pow10(7) == 10_000_000
  {
    Pow10s();
    assert Pow10(7) == 10 * Pow10(6);
  }

  lemma EarlyYear(d: Day)
    requires FIRST_DAY <= d < DayNumber(Date(9000, 1, 1))
    ensures Nameable(d) && DayName(d) != [] && DayName(d)[0] < ZERO + 9
  {
    hide DateOf, DayNumber, DayName, Digits, IsDate, Before;
    DateRoundTrip(d);
    IsNewYear(9000);
    NumberOrder(DateOf(d), Date(9000, 1, 1));
    NameHead(d);
    NameableYears(d);
    FourDigits(DateOf(d).y);
  }

  /** With a retention of 180600000000 days, which the program accepts, the cutoff wraps to the year 90090070.
      On 21 September 2026 every partition before the year 9000 is dropped, that of the day itself included. */
  lemma WrappedCutoffDropsAll(t: Int64)
    requires FIRST_DAY <= DayOf(t) < DayNumber(Date(9000, 1, 1))
    ensures var r, now: Int64 := 180_600_000_000, 1_790_000_000_000;
            t >= Horizon(r, now) && Expires(DayOf(t), CutoffDay(r, now)) && !DropsRightly(r, now)
  {
    var r, now: Int64 := 180_600_000_000, 1_790_000_000_000;
    assert CutoffDay(r, now) == 32_904_003_052;
    hide CutoffDay, DayNumber, DayName, StrLess;
    EarlyYear(DayOf(t));
    FarYear(32_904_003_052);
    HeadsOrder(DayName(DayOf(t)), DayName(32_904_003_052));
  }
}
