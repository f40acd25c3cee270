/** Names of day partitions, parts and segments: dayString of storage/partition.go and the zero-padded
    numbers of storage/partition.go and storage/indexdb.go. */
module DayNames {
  import opened Bits
  import opened Contents
  import opened Labels
  import opened Part
  import opened SortedIds
  import opened Varint

  // ---------- decimal digits ----------

  const ZERO: Byte := 48
  const MINUS: Byte := 45

  /** fmt's %0wd on a number that is not negative: at least w digits. */
  function Digits(n: nat, w: nat): Str
    decreases n, w
  {
    if n == 0 && w == 0 then []
    else Digits(n / 10, if w > 0 then w - 1 else 0) + [ZERO + n % 10]
  }

  function Pow10(w: nat): nat {
    if w == 0 then 1 else 10 * Pow10(w - 1)
  }

  predicate AllDigits(s: Str) {
    forall i :: 0 <= i < |s| ==> ZERO <= s[i] <= ZERO + 9
  }

  /** strconv.Atoi on digits. */
  function Atoi(s: Str): (n: int) {
    if s == [] then 0 else 10 * Atoi(s[..|s| - 1]) + (s[|s| - 1] - ZERO)
  }

  lemma {:induction false} DigitsLength(n: nat, w: nat)
    ensures AllDigits(Digits(n, w))
    ensures if n < Pow10(w) then |Digits(n, w)| == w else |Digits(n, w)| > w
    decreases n, w
  {
    if n != 0 || w != 0 {
      DigitsLength(n / 10, if w > 0 then w - 1 else 0);
      assert n < Pow10(w) <==> if w > 0 then n / 10 < Pow10(w - 1) else n < 1;
    }
  }

  /** A padded number reads back, so a part or segment name stands for one number only. */
  lemma {:induction false} NameIsNumber(n: nat, w: nat)
    ensures Atoi(Digits(n, w)) == n
    decreases n, w
  {
    if n != 0 || w != 0 {
      var init := Digits(n / 10, if w > 0 then w - 1 else 0);
      NameIsNumber(n / 10, if w > 0 then w - 1 else 0);
      assert (init + [ZERO + n % 10])[..|init|] == init;
    }
  }

  lemma {:induction false} StrLessAppend(a: Str, b: Str, c: Str, d: Str)
    requires |a| == |b|
    ensures StrLess(a + c, b + d) <==> StrLess(a, b) || (a == b && StrLess(c, d))
  {
    if a == [] {
      assert a + c == c && b + d == d;
    } else {
      StrLessAppend(a[1..], b[1..], c, d);
      assert (a + c)[1..] == a[1..] + c && (b + d)[1..] == b[1..] + d;
      assert a[0] == b[0] && a[1..] == b[1..] ==> a == [a[0]] + a[1..] == b;
    }
  }

  lemma StrLessIrreflexive(a: Str)
    ensures !StrLess(a, a)
  {
    StrLessTotal(a, a);
  }

  /** Numbers that fit the width order as their names do. */
  lemma {:induction false} DigitsOrder(a: nat, b: nat, w: nat)
    requires a < Pow10(w) && b < Pow10(w)
    ensures StrLess(Digits(a, w), Digits(b, w)) <==> a < b
    decreases w
  {
    hide StrLess, Digits, Pow10, Atoi, AllDigits;
    if w > 0 {
      Tenth(a, w);
      Tenth(b, w);
      DigitsLength(a / 10, w - 1);
      DigitsLength(b / 10, w - 1);
      DigitsOrder(a / 10, b / 10, w - 1);
      NameIsNumber(a / 10, w - 1);
      NameIsNumber(b / 10, w - 1);
      LastDigit(a, w);
      LastDigit(b, w);
      TensOrder(a, b);
      StrLessAppend(Digits(a / 10, w - 1), Digits(b / 10, w - 1), [ZERO + a % 10], [ZERO + b % 10]);
      DigitLess(a % 10, b % 10);
    } else {
      NoDigits(a);
      NoDigits(b);
      StrLessIrreflexive([]);
    }
  }

  lemma NoDigits(n: nat)
    requires n < Pow10(0)
    ensures n == 0 && Digits(n, 0) == []
  {
  }

  lemma Tenth(n: nat, w: nat)
    requires w > 0 && n < Pow10(w)
    ensures n / 10 < Pow10(w - 1)
  {
  }

  lemma TensOrder(a: nat, b: nat)
    ensures a < b <==> a / 10 < b / 10 || (a / 10 == b / 10 && a % 10 < b % 10)
  {
  }

  lemma LastDigit(n: nat, w: nat)
    requires w > 0
    ensures Digits(n, w) == Digits(n / 10, w - 1) + [ZERO + n % 10]
  {
  }

  lemma DigitLess(a: nat, b: nat)
    requires a < 10 && b < 10
    ensures StrLess([ZERO + a], [ZERO + b]) <==> a < b
  {
  }

  // ---------- the calendar ----------

  /** A date of the proleptic Gregorian calendar. */
  datatype Date = Date(y: int, m: int, d: int)

  predicate IsLeap(y: int) {
    y % 4 == 0 && (y % 100 != 0 || y % 400 == 0)
  }

  function MonthLength(y: int, m: int): int {
    if m == 2 then if IsLeap(y) then 29 else 28
    else if m == 4 || m == 6 || m == 9 || m == 11 then 30
    else 31
  }

  predicate IsDate(x: Date) {
    1 <= x.m <= 12 && 1 <= x.d <= MonthLength(x.y, x.m)
  }

  function NextDate(x: Date): Date {
    if x.d < MonthLength(x.y, x.m) then x.(d := x.d + 1)
    else if x.m < 12 then Date(x.y, x.m + 1, 1)
    else Date(x.y + 1, 1, 1)
  }

  function PreviousDate(x: Date): Date {
    if x.d > 1 then x.(d := x.d - 1)
    else if x.m > 1 then Date(x.y, x.m - 1, MonthLength(x.y, x.m - 1))
    else Date(x.y - 1, 12, 31)
  }

  /** The date of a UTC day, counted out from 1 January 1970. */
  function DateOf(day: Day): Date
    decreases if day < 0 then -day else day
  {
    if day == 0 then Date(1970, 1, 1)
    else if day > 0 then NextDate(DateOf(day - 1))
    else PreviousDate(DateOf(day + 1))
  }

  /** The multiples of k from 0 to before y. */
  function Multiples(y: int, k: int): int
    requires k > 0
  {
    (y + k - 1) / k
  }

  /** Days from 1 January 0000 to the year, by the leap year rule. */
  function YearStart(y: int): int {
    365 * y + Multiples(y, 4) - Multiples(y, 100) + Multiples(y, 400)
  }

  function MonthStart(y: int, m: int): int
    decreases m
  {
    if m <= 1 then 0 else MonthStart(y, m - 1) + MonthLength(y, m - 1)
  }

  const EPOCH := 719_528

  /** The day of a date, in closed form. */
  function DayNumber(x: Date): Day {
    YearStart(x.y) + MonthStart(x.y, x.m) + x.d - 1 - EPOCH
  }

  lemma YearLength(y: int)
    ensures YearStart(y + 1) == YearStart(y) + if IsLeap(y) then 366 else 365
    ensures MonthStart(y, 12) == if IsLeap(y) then 335 else 334
  {
    hide Multiples, MonthStart;
    NextMultiple(y, 4);
    NextMultiple(y, 100);
    NextMultiple(y, 400);
    Hundreds(y);
    MonthsSum(y);
  }

  lemma Hundreds(y: int)
    ensures y % 400 == 0 ==> y % 100 == 0
    ensures y % 100 == 0 ==> y % 4 == 0
  {
    if y % 100 == 0 {
      FourDivides(y / 100);
    }
    if y % 400 == 0 {
      HundredDivides(y / 400);
    }
  }

  lemma FourDivides(q: int)
    ensures (100 * q) % 4 == 0
  {
  }

  lemma HundredDivides(q: int)
    ensures (400 * q) % 100 == 0
  {
  }

  lemma NextMultiple(y: int, k: int)
    requires k == 4 || k == 100 || k == 400
    ensures Multiples(y + 1, k) == Multiples(y, k) + if y % k == 0 then 1 else 0
  {
  }

  lemma MonthsSum(y: int)
    ensures MonthStart(y, 12) == if IsLeap(y) then 335 else 334
  {
    hide IsLeap;
    assert MonthStart(y, 3) == if IsLeap(y) then 60 else 59;
    assert MonthStart(y, 5) == MonthStart(y, 3) + 61;
    assert MonthStart(y, 7) == MonthStart(y, 5) + 61;
    assert MonthStart(y, 9) == MonthStart(y, 7) + 62;
    assert MonthStart(y, 11) == MonthStart(y, 9) + 61;
  }

  lemma YearEnd(y: int)
    ensures DayNumber(Date(y + 1, 1, 1)) == DayNumber(Date(y, 12, 31)) + 1
  {
    hide YearStart, IsLeap;
    YearLength(y);
    FirstMonth(y + 1);
  }

  lemma FirstMonth(y: int)
    ensures MonthStart(y, 1) == 0
  {
  }

  lemma NextNumber(x: Date)
    requires IsDate(x)
    ensures IsDate(NextDate(x)) && DayNumber(NextDate(x)) == DayNumber(x) + 1
  {
    hide YearStart, IsLeap;
    YearEnd(x.y);
  }

  lemma PreviousNumber(x: Date)
    requires IsDate(x)
    ensures IsDate(PreviousDate(x)) && DayNumber(PreviousDate(x)) == DayNumber(x) - 1
  {
    hide YearStart, IsLeap;
    YearEnd(x.y - 1);
  }

  /** Counting day by day agrees with the closed form. */
  lemma {:induction false} DateRoundTrip(day: Day)
    ensures IsDate(DateOf(day)) && DayNumber(DateOf(day)) == day
    decreases if day < 0 then -day else day
  {
    hide DayNumber, NextDate, PreviousDate, IsDate;
    if day > 0 {
      DateRoundTrip(day - 1);
      NextNumber(DateOf(day - 1));
    } else if day < 0 {
      DateRoundTrip(day + 1);
      PreviousNumber(DateOf(day + 1));
    } else {
      EpochNumber();
    }
  }

  lemma EpochNumber()
    ensures IsDate(Date(1970, 1, 1)) && DayNumber(Date(1970, 1, 1)) == 0
  {
  }

  predicate Before(a: Date, b: Date) {
    a.y < b.y || (a.y == b.y && (a.m < b.m || (a.m == b.m && a.d < b.d)))
  }

  lemma {:induction false} YearStartGrows(y: int, z: int)
    requires y <= z
    ensures YearStart(y) <= YearStart(z)
    decreases z - y
  {
    hide YearStart;
    if y < z {
      YearStartGrows(y, z - 1);
      YearLength(z - 1);
    }
  }

  lemma {:induction false} MonthStartGrows(y: int, m: int, n: int)
    requires 1 <= m < n
    ensures MonthStart(y, m) + MonthLength(y, m) <= MonthStart(y, n)
    decreases n
  {
    if m < n - 1 {
      MonthStartGrows(y, m, n - 1);
    }
  }

  lemma BeforeNumber(a: Date, b: Date)
    requires IsDate(a) && IsDate(b) && Before(a, b)
    ensures DayNumber(a) < DayNumber(b)
  {
    hide YearStart, MonthStart;
    FirstMonth(b.y);
    if b.m > 1 {
      MonthStartGrows(b.y, 1, b.m);
    }
    if a.y < b.y {
      YearLength(a.y);
      if a.m < 12 {
        MonthStartGrows(a.y, a.m, 12);
      }
      YearStartGrows(a.y + 1, b.y);
    } else if a.m < b.m {
      MonthStartGrows(a.y, a.m, b.m);
    }
  }

  lemma NumberOrder(a: Date, b: Date)
    requires IsDate(a) && IsDate(b)
    ensures Before(a, b) <==> DayNumber(a) < DayNumber(b)
    ensures a == b <==> DayNumber(a) == DayNumber(b)
  {
    hide DayNumber, IsDate;
    if Before(a, b) {
      BeforeNumber(a, b);
    } else if Before(b, a) {
      BeforeNumber(b, a);
    }
  }

  lemma DateOrder(a: Day, b: Day)
    ensures Before(DateOf(a), DateOf(b)) <==> a < b
  {
    hide *;
    DateRoundTrip(a);
    DateRoundTrip(b);
    NumberOrder(DateOf(a), DateOf(b));
  }

  // ---------- day names ----------

  /** Go prints years outside 0000 to 9999 with more digits or a sign. */
  function YearName(y: int): Str {
    if y < 0 then [MINUS] + Digits(-y, 4) else Digits(y, 4)
  }

  function DateName(x: Date): Str
    requires IsDate(x)
  {
    YearName(x.y) + Digits(x.m, 2) + Digits(x.d, 2)
  }

  function DayName(day: Day): Str {
    DateRoundTrip(day);
    DateName(DateOf(day))
  }

  function DayString(t: Int64): Str {
    DayName(DayOf(t))
  }

  const FIRST_DAY: Day := -719_528
  const LAST_DAY: Day := 2_932_896

  /** A day of the years 0000 to 9999. */
  predicate Nameable(day: Day) {
    FIRST_DAY <= day <= LAST_DAY
  }

  /** partitionNameRE: eight digits. */
  predicate IsPartitionName(s: Str) {
    |s| == 8 && AllDigits(s)
  }

  lemma NameableYears(day: Day)
    ensures Nameable(day) <==> 0 <= DateOf(day).y <= 9999
  {
    hide DateOf, DayNumber, IsDate, Before;
    DateRoundTrip(day);
    YearBounds(DateOf(day));
    NumberOrder(DateOf(day), Date(0, 1, 1));
    NumberOrder(Date(9999, 12, 31), DateOf(day));
    LastNumber();
  }

  lemma YearSigns(day: Day)
    ensures day < FIRST_DAY <==> DateOf(day).y < 0
    ensures day > LAST_DAY <==> DateOf(day).y > 9999
  {
    hide DateOf, DayNumber, IsDate, Before;
    DateRoundTrip(day);
    YearBounds(DateOf(day));
    NumberOrder(DateOf(day), Date(0, 1, 1));
    NumberOrder(Date(9999, 12, 31), DateOf(day));
    LastNumber();
  }

  lemma YearBounds(x: Date)
    requires IsDate(x)
    ensures IsDate(Date(0, 1, 1)) && IsDate(Date(9999, 12, 31))
    ensures Before(x, Date(0, 1, 1)) <==> x.y < 0
    ensures Before(Date(9999, 12, 31), x) <==> x.y > 9999
  {
  }

  lemma LastNumber()
    ensures DayNumber(Date(0, 1, 1)) == FIRST_DAY && DayNumber(Date(9999, 12, 31)) == LAST_DAY
  {
    FirstMonth(0);
    MonthsSum(9999);
    EndYears();
    hide YearStart, MonthStart;
  }

  lemma MultiplesAt(y: int, k: int, q: int, r: int)
    requires k == 4 || k == 100 || k == 400
    requires 0 <= r < k && y + k - 1 == k * q + r
    ensures Multiples(y, k) == q
  {
    if k == 4 {
      assert Multiples(y, 4) == q;
    } else if k == 100 {
      assert Multiples(y, 100) == q;
    }
  }

  lemma EndYears()
    ensures YearStart(0) == 0 && YearStart(9999) == 3_652_060 && !IsLeap(9999)
  {
    hide Multiples;
    MultiplesAt(0, 4, 0, 3);
    MultiplesAt(0, 100, 0, 99);
    MultiplesAt(0, 400, 0, 399);
    MultiplesAt(9999, 4, 2500, 2);
    MultiplesAt(9999, 100, 100, 98);
    MultiplesAt(9999, 400, 25, 398);
  }

  /** The boundary partition_test.go checks: midnight of 21 September 2026, and a millisecond before. */
  lemma KnownBoundary(t: Int64)
    requires t == 1_789_948_800_000
    ensures DateOf(DayOf(t)) == Date(2026, 9, 21) && DateOf(DayOf(t - 1)) == Date(2026, 9, 20)
    ensures DayString(t) == Ascii("20260921")
    ensures DayString(t - 1) == Ascii("20260920")
  {
    hide DateOf, DayOf, DayName, Digits, YearName, IsDate, Ascii;
    KnownDates(t);
    NameText2026();
    NameIs(DayOf(t));
    NameIs(DayOf(t - 1));
  }

  lemma NameIs(day: Day)
    ensures var x := DateOf(day); x.m > 0 && x.d > 0 && DayName(day) == YearName(x.y) + Digits(x.m, 2) + Digits(x.d, 2)
  {
    hide DateOf, Digits, YearName;
    DateRoundTrip(day);
  }

  lemma KnownDates(t: Int64)
    requires t == 1_789_948_800_000
    ensures DateOf(DayOf(t)) == Date(2026, 9, 21)
    ensures DateOf(DayOf(t - 1)) == Date(2026, 9, 20)
  {
    MultiplesAt(2026, 4, 507, 1);
    MultiplesAt(2026, 100, 21, 25);
    MultiplesAt(2026, 400, 6, 25);
    assert MonthStart(2026, 9) == 243 by {
      assert MonthStart(2026, 5) == 120;
    }
    assert DayOf(t) == 20717 && DayOf(t - 1) == 20716;
    hide Multiples, MonthStart, DateOf, DayOf;
    DateRoundTrip(20717);
    DateRoundTrip(20716);
    NumberOrder(DateOf(20717), Date(2026, 9, 21));
    NumberOrder(DateOf(20716), Date(2026, 9, 20));
  }

  lemma NameText2026()
    ensures YearName(2026) + Digits(9, 2) + Digits(21, 2) == Ascii("20260921")
    ensures YearName(2026) + Digits(9, 2) + Digits(20, 2) == Ascii("20260920")
  {
    YearText2026();
    MonthAndDays();
    hide Digits, YearName, Ascii;
    AsciiJoin("2026", "09");
    AsciiJoin("202609", "21");
    AsciiJoin("202609", "20");
    assert "2026" + "09" == "202609" && "202609" + "21" == "20260921" && "202609" + "20" == "20260920";
  }

  lemma YearText2026()
    ensures YearName(2026) == Ascii("2026")
  {
    assert Digits(202, 3) == Ascii("202") by { assert Digits(20, 2) == Ascii("20"); }
  }

  lemma MonthAndDays()
    ensures Digits(9, 2) == Ascii("09") && Digits(21, 2) == Ascii("21") && Digits(20, 2) == Ascii("20")
  {
  }

  lemma AsciiJoin(a: string, b: string)
    requires (forall i :: 0 <= i < |a| ==> a[i] as int < 128) && forall i :: 0 <= i < |b| ==> b[i] as int < 128
    ensures Ascii(a) + Ascii(b) == Ascii(a + b)
  {
  }

  lemma {:induction false} AtoiJoin(a: Str, b: Str)
    ensures Atoi(a + b) == Atoi(a) * Pow10(|b|) + Atoi(b)
  {
    if b == [] {
      assert a + b == a;
    } else {
      var init := b[..|b| - 1];
      assert (a + b)[..|a + b| - 1] == a + init;
      AtoiJoin(a, init);
      TenTimes(Atoi(a), Pow10(|init|));
    }
  }

  lemma TenTimes(n: int, p: int)
    ensures n * (10 * p) == 10 * (n * p)
  {
  }

  /** The name of a day is its year, month and day as eight digits. Go gives years past 9999 more digits,
      and those before the year 0 a minus sign. */
  lemma DayNameText(day: Day)
    ensures var x, s := DateOf(day), DayName(day);
            s != [] &&
            var digits := if x.y < 0 then s[1..] else s;
            && AllDigits(digits) && (if -9999 <= x.y <= 9999 then |digits| == 8 else |digits| > 8)
            && Atoi(digits) == 10_000 * (if x.y < 0 then -x.y else x.y) + 100 * x.m + x.d
            && (x.y < 0 ==> s[0] == 45)
  {
    hide DateOf, Digits, Atoi, AllDigits, DayName;
    DateBounds(day);
    NameIs(day);
    var x := DateOf(day);
    var y := if x.y < 0 then -x.y else x.y;
    DigitsText(y, x.m, x.d);
    if x.y < 0 {
      assert DayName(day) == [MINUS] + (Digits(y, 4) + Digits(x.m, 2) + Digits(x.d, 2));
    }
  }

  lemma DateBounds(day: Day)
    ensures var x := DateOf(day); 1 <= x.m <= 12 && 1 <= x.d <= 31
  {
    DateRoundTrip(day);
    hide DateOf, DayNumber;
  }

  lemma DigitsText(y: nat, m: nat, d: nat)
    requires m < 100 && d < 100
    ensures var s := Digits(y, 4) + Digits(m, 2) + Digits(d, 2);
            AllDigits(s) && Atoi(s) == 10_000 * y + 100 * m + d && (if y <= 9999 then |s| == 8 else |s| > 8)
  {
    Pow10s();
    DigitsLength(y, 4);
    DigitsLength(m, 2);
    DigitsLength(d, 2);
    NameIsNumber(y, 4);
    NameIsNumber(m, 2);
    NameIsNumber(d, 2);
    hide Digits, Atoi, Pow10;
    AtoiJoin(Digits(y, 4), Digits(m, 2));
    AtoiJoin(Digits(y, 4) + Digits(m, 2), Digits(d, 2));
  }

  /** The same of the name a timestamp falls under. */
  lemma DayStringText(t: Int64)
    requires Nameable(DayOf(t))
    ensures var x := DateOf(DayOf(t));
            && |DayString(t)| == 8 && AllDigits(DayString(t))
            && Atoi(DayString(t)) == 10_000 * x.y + 100 * x.m + x.d
  {
    hide DateOf, DayName, Nameable, AllDigits, Atoi, DayOf;
    NameableYears(DayOf(t));
    DayNameText(DayOf(t));
  }

  lemma Pow10s()
    ensures Pow10(2) == 100 && Pow10(4) == 10_000 && Pow10(6) == 1_000_000
  {
    assert Pow10(3) == 1000;
    assert Pow10(5) == 100_000;
  }

  /** Reopening finds exactly the partitions of the years 0000 to 9999. */
  lemma NameMatches(day: Day)
    ensures IsPartitionName(DayName(day)) <==> Nameable(day)
  {
    hide DateOf, Digits, Nameable;
    NameableYears(day);
    DateRoundTrip(day);
    var x := DateOf(day);
    Pow10s();
    DigitsLength(x.m, 2);
    DigitsLength(x.d, 2);
    if x.y >= 0 {
      DigitsLength(x.y, 4);
    } else {
      assert DayName(day)[0] == MINUS;
    }
  }

  lemma DateNameOrder(a: Date, b: Date)
    requires IsDate(a) && IsDate(b) && 0 <= a.y <= 9999 && 0 <= b.y <= 9999
    ensures StrLess(DateName(a), DateName(b)) <==> Before(a, b)
  {
    hide Digits, StrLess;
    Pow10s();
    DigitsLength(a.y, 4);
    DigitsLength(b.y, 4);
    DigitsLength(a.m, 2);
    DigitsLength(b.m, 2);
    DigitsOrder(a.y, b.y, 4);
    DigitsOrder(a.m, b.m, 2);
    DigitsOrder(a.d, b.d, 2);
    NameIsNumber(a.y, 4);
    NameIsNumber(b.y, 4);
    NameIsNumber(a.m, 2);
    NameIsNumber(b.m, 2);
    var ya, yb, ma, mb, da, db := Digits(a.y, 4), Digits(b.y, 4), Digits(a.m, 2), Digits(b.m, 2), Digits(a.d, 2), Digits(b.d, 2);
    StrLessAppend(ya, yb, ma, mb);
    StrLessAppend(ya + ma, yb + mb, da, db);
    assert ya + ma == yb + mb ==> ya == yb && ma == mb by {
      assert (ya + ma)[..4] == ya && (yb + mb)[..4] == yb;
      assert (ya + ma)[4..] == ma && (yb + mb)[4..] == mb;
    }
  }

  /** In the years 0000 to 9999 two timestamps have the same partition name exactly when they fall on the
      same UTC day, and the names compare as the days do. */
  lemma DayNamesOrder(t: Int64, u: Int64)
    requires Nameable(DayOf(t)) && Nameable(DayOf(u))
    ensures StrLess(DayString(t), DayString(u)) <==> DayOf(t) < DayOf(u)
    ensures DayString(t) == DayString(u) <==> DayOf(t) == DayOf(u)
  {
    hide DayName, DayOf, Nameable, StrLess;
    NamesOrder(DayOf(t), DayOf(u));
  }

  lemma NamesOrder(a: Day, b: Day)
    requires Nameable(a) && Nameable(b)
    ensures StrLess(DayName(a), DayName(b)) <==> a < b
    ensures DayName(a) == DayName(b) <==> a == b
  {
    hide DateOf, DateName, Nameable, StrLess;
    NameableYears(a);
    NameableYears(b);
    DateRoundTrip(a);
    DateRoundTrip(b);
    DateNameOrder(DateOf(a), DateOf(b));
    DateNameOrder(DateOf(b), DateOf(a));
    DateOrder(a, b);
    DateOrder(b, a);
    StrLessIrreflexive(DayName(a));
  }

  lemma NameHead(day: Day)
    ensures day < FIRST_DAY ==> DayName(day) != [] && DayName(day)[0] == MINUS
    ensures day >= FIRST_DAY ==> DateOf(day).y >= 0 && DayName(day) != [] && Digits(DateOf(day).y, 4) != []
                                 && DayName(day)[0] == Digits(DateOf(day).y, 4)[0]
  {
    hide DateOf, Digits;
    YearSigns(day);
    DateRoundTrip(day);
    Pow10s();
    if day >= FIRST_DAY {
      DigitsLength(DateOf(day).y, 4);
    }
  }

  lemma HeadsOrder(a: Str, b: Str)
    requires a != [] && b != [] && a[0] < b[0]
    ensures StrLess(a, b) && !StrLess(b, a)
  {
  }

  /** A day before the year 0000 sorts before every day of the years 0000 to 9999. */
  lemma NegativeSortsFirst(c: Day, d: Day)
    requires c < FIRST_DAY && Nameable(d)
    ensures StrLess(DayName(c), DayName(d))
  {
    hide DateOf, DayName, Digits, StrLess;
    NameHead(c);
    NameHead(d);
    NameableYears(d);
    FourDigits(DateOf(d).y);
    HeadsOrder(DayName(c), DayName(d));
  }

  /** A year of four digits begins with its thousands. */
  lemma FourDigits(n: nat)
    requires n < 10_000
    ensures Digits(n, 4) != [] && Digits(n, 4)[0] == ZERO + n / 1000
  {
    assert Digits(n / 1000, 1) == [ZERO + n / 1000] by {
      assert n / 1000 / 10 == 0 && Digits(0, 0) == [];
    }
    assert Digits(n / 100, 2) == Digits(n / 100 / 10, 1) + [ZERO + n / 100 % 10];
    assert Digits(n / 10, 3) == Digits(n / 10 / 10, 2) + [ZERO + n / 10 % 10];
    Thousands(n);
  }

  lemma Thousands(n: nat)
    ensures n / 10 / 10 == n / 100 && n / 100 / 10 == n / 1000
  {
  }

  /** A number with m digits after its first. */
  lemma {:induction false} FirstDigit(n: nat, w: nat, m: nat, k: nat)
    requires 1 <= k <= 9 && w <= m + 1 && k * Pow10(m) <= n < (k + 1) * Pow10(m)
    ensures Digits(n, w) != [] && Digits(n, w)[0] == ZERO + k
    decreases m
  {
    var v := if w > 0 then w - 1 else 0;
    if m == 0 {
      assert n == k && Digits(0, v) == [];
      assert Digits(n, w) == [ZERO + k];
    } else {
      Tens(n, k, Pow10(m - 1));
      FirstDigit(n / 10, v, m - 1, k);
      assert Digits(n, w) == Digits(n / 10, v) + [ZERO + n % 10];
    }
  }

  lemma Tens(n: nat, k: nat, p: nat)
    requires k * (10 * p) <= n < (k + 1) * (10 * p)
    ensures k * p <= n / 10 < (k + 1) * p
  {
    assert k * (10 * p) == 10 * (k * p) && (k + 1) * (10 * p) == 10 * ((k + 1) * p);
  }

  /** Past year 9999 they do not: the first name of year 10000 sorts before the last of year 9999. */
  lemma Year10000SortsFirst()
    ensures StrLess(DayName(LAST_DAY + 1), DayName(LAST_DAY)) && !Nameable(LAST_DAY + 1)
  {
    NewYear10000();
    DateRoundTrip(LAST_DAY);
    DateRoundTrip(LAST_DAY + 1);
    YearDigits();
    hide DateOf, StrLess, Digits;
    var a, b := DayName(LAST_DAY + 1), DayName(LAST_DAY);
    assert a == [ZERO + 1] + a[1..] && b == [ZERO + 9] + b[1..];
    StrLessAppend([ZERO + 1], [ZERO + 9], a[1..], b[1..]);
    DigitLess(1, 9);
  }

  lemma NewYear10000()
    ensures DateOf(LAST_DAY) == Date(9999, 12, 31) && DateOf(LAST_DAY + 1) == Date(10000, 1, 1)
  {
    hide DateOf, DayNumber;
    LastNumber();
    YearEnd(9999);
    DateRoundTrip(LAST_DAY);
    DateRoundTrip(LAST_DAY + 1);
    NumberOrder(DateOf(LAST_DAY), Date(9999, 12, 31));
    NumberOrder(DateOf(LAST_DAY + 1), Date(10000, 1, 1));
  }

  lemma YearDigits()
    ensures Digits(10000, 4) != [] && Digits(10000, 4)[0] == ZERO + 1
    ensures Digits(9999, 4) != [] && Digits(9999, 4)[0] == ZERO + 9
  {
    assert Digits(1, 0) == [ZERO + 1] by { assert Digits(0, 0) == []; }
    assert Digits(10, 1)[0] == ZERO + 1;
    assert Digits(100, 2)[0] == ZERO + 1;
    assert Digits(1000, 3)[0] == ZERO + 1;
    assert Digits(9, 1) == [ZERO + 9] by { assert Digits(0, 0) == []; }
    assert Digits(99, 2)[0] == ZERO + 9;
    assert Digits(999, 3)[0] == ZERO + 9;
  }

  // ---------- the partitions of a window ----------

  /** What partitionsInRange compares: the name of d lies between those of start and end. */
  predicate NamedBetween(d: Day, start: Int64, end: Int64) {
    !StrLess(DayName(d), DayString(start)) && !StrLess(DayString(end), DayName(d))
  }

  ghost predicate NamesAscend(days: seq<Day>) {
    forall i, j :: 0 <= i < j < |days| ==> !StrLess(DayName(days[j]), DayName(days[i]))
  }

  ghost predicate NoneTwice(days: seq<Day>) {
    forall i, j :: 0 <= i < j < |days| ==> days[i] != days[j]
  }

  /** d put in its place by name. */
  function Placed(d: Day, days: seq<Day>): seq<Day> {
    if days == [] || StrLess(DayName(d), DayName(days[0])) then [d] + days
    else [days[0]] + Placed(d, days[1..])
  }

  lemma {:induction false} PlacedHas(d: Day, days: seq<Day>, e: Day)
    ensures e in Placed(d, days) <==> e == d || e in days
  {
    hide DayName, StrLess;
    if days != [] {
      PlacedHas(d, days[1..], e);
      assert days == [days[0]] + days[1..];
    }
  }

  lemma NotLessTransitive(a: Str, b: Str, c: Str)
    requires !StrLess(b, a) && !StrLess(c, b)
    ensures !StrLess(c, a)
  {
    hide StrLess;
    StrLessTotal(a, b);
    StrLessTotal(b, c);
    StrLessTotal(a, c);
    if StrLess(a, b) && StrLess(b, c) {
      StrLessTransitive(a, b, c);
    }
  }

  lemma {:induction false} PlacedAscends(d: Day, days: seq<Day>)
    requires NamesAscend(days) && NoneTwice(days) && d !in days
    ensures NamesAscend(Placed(d, days)) && NoneTwice(Placed(d, days))
  {
    hide DayName, StrLess;
    if days == [] {
    } else if StrLess(DayName(d), DayName(days[0])) {
      StrLessTotal(DayName(d), DayName(days[0]));
      forall j | 0 <= j < |days| ensures !StrLess(DayName(days[j]), DayName(d)) {
        StrLessIrreflexive(DayName(days[0]));
        NotLessTransitive(DayName(d), DayName(days[0]), DayName(days[j]));
      }
    } else {
      var rest := Placed(d, days[1..]);
      PlacedAscends(d, days[1..]);
      forall j | 0 <= j < |rest| ensures !StrLess(DayName(rest[j]), DayName(days[0])) && rest[j] != days[0] {
        PlacedHas(d, days[1..], rest[j]);
        assert rest[j] in rest;
      }
    }
  }

  /** out holds the days of all[..i] named in the window, in the order of their names. */
  ghost predicate InRangeUpTo(out: seq<Day>, all: seq<Day>, i: nat, start: Int64, end: Int64)
    requires i <= |all|
  {
    && (forall d :: d in out <==> d in all[..i] && NamedBetween(d, start, end))
    && NamesAscend(out) && NoneTwice(out)
  }

  lemma InRangeStep(out: seq<Day>, all: seq<Day>, i: nat, start: Int64, end: Int64)
    requires i < |all| && InRangeUpTo(out, all, i, start, end)
    requires forall j, k :: 0 <= j < k < |all| ==> all[j] < all[k]
    ensures InRangeUpTo(if NamedBetween(all[i], start, end) then Placed(all[i], out) else out, all, i + 1, start, end)
  {
    hide NamesAscend, NoneTwice, NamedBetween, Placed;
    assert all[..i + 1] == all[..i] + [all[i]];
    assert all[i] !in all[..i];
    PlacedAscends(all[i], out);
    forall d {
      PlacedHas(all[i], out, d);
    }
  }

  /** partitionsInRange: the partitions whose names lie between those of the window's ends, in the order of
      their names. In the years 0000 to 9999 these are the days of the window in ascending order, so no
      partition that holds a sample of the window is left out. */
  method PartitionsInRange(days: set<Day>, start: Int64, end: Int64) returns (out: seq<Day>)
    ensures forall d :: d in out <==> d in days && NamedBetween(d, start, end)
    ensures NamesAscend(out) && NoneTwice(out)
    ensures NameableWindow(days, start, end) ==> forall d :: d in out <==> d in days && DayOf(start) <= d <= DayOf(end)
    ensures NameableWindow(days, start, end) ==> forall i, j :: 0 <= i < j < |out| ==> out[i] < out[j]
    ensures NameableWindow(days, start, end) ==>
              forall x: Sample :: DayOf(x.t) in days && InWindow(x, start, end) ==> DayOf(x.t) in out
  {
    hide DayName, DayOf, Nameable, InRangeUpTo, StrLess, NamesAscend, NoneTwice, NameableWindow, Placed;
    var lo, hi := DayString(start), DayString(end);
    var all := Ascending(days);
    out := [];
    var i := 0;
    InRangeNone(all, start, end);
    while i < |all|
      invariant 0 <= i <= |all|
      invariant InRangeUpTo(out, all, i, start, end)
    {
      var d := all[i];
      InRangeStep(out, all, i, start, end);
      if !StrLess(DayName(d), lo) && !StrLess(hi, DayName(d)) {
        out := Placed(d, out);
      }
      i := i + 1;
    }
    InRangeDone(out, all, start, end);
    if NameableWindow(days, start, end) {
      WindowIsDays(days, start, end, out);
    }
  }

  ghost predicate NameableWindow(days: set<Day>, start: Int64, end: Int64) {
    Nameable(DayOf(start)) && Nameable(DayOf(end)) && forall d :: d in days ==> Nameable(d)
  }

  lemma InRangeNone(all: seq<Day>, start: Int64, end: Int64)
    ensures InRangeUpTo([], all, 0, start, end)
  {
    hide DayName, StrLess;
  }

  lemma InRangeDone(out: seq<Day>, all: seq<Day>, start: Int64, end: Int64)
    requires InRangeUpTo(out, all, |all|, start, end)
    ensures forall d :: d in out <==> d in all && NamedBetween(d, start, end)
    ensures NamesAscend(out) && NoneTwice(out)
  {
    hide NamedBetween, NamesAscend, NoneTwice;
    assert all[..|all|] == all;
  }

  lemma WindowIsDays(days: set<Day>, start: Int64, end: Int64, out: seq<Day>)
    requires NameableWindow(days, start, end) && NamesAscend(out) && NoneTwice(out)
    requires forall d :: d in out <==> d in days && NamedBetween(d, start, end)
    ensures forall d :: d in out <==> d in days && DayOf(start) <= d <= DayOf(end)
    ensures forall i, j :: 0 <= i < j < |out| ==> out[i] < out[j]
    ensures forall x: Sample :: DayOf(x.t) in days && InWindow(x, start, end) ==> DayOf(x.t) in out
  {
    hide DayName, DayOf, Nameable, StrLess;
    forall d | d in days ensures NamedBetween(d, start, end) <==> DayOf(start) <= d <= DayOf(end) {
      NamesOrder(d, DayOf(start));
      NamesOrder(DayOf(end), d);
    }
    forall i, j | 0 <= i < j < |out| ensures out[i] < out[j] {
      assert out[i] in out && out[j] in out;
      NamesOrder(out[j], out[i]);
    }
    forall x: Sample | DayOf(x.t) in days && InWindow(x, start, end) ensures DayOf(x.t) in out {
      DaysAscend(start, x.t);
      DaysAscend(x.t, end);
    }
  }

  lemma DaysAscend(t: Int64, u: Int64)
    requires t <= u
    ensures DayOf(t) <= DayOf(u)
  {
  }

  // ---------- segment names ----------

  const SEG: Str := [46, 115, 101, 103]

  /** NNNNNN.seg */
  function SegmentName(n: nat): Str {
    Digits(n, 6) + SEG
  }

  /** The segment numbers a directory holds, listed by name. */
  ghost predicate ListsSegments(names: seq<Str>, numbers: set<nat>) {
    && (forall i, j :: 0 <= i < j < |names| ==> StrLess(names[i], names[j]))
    && (forall s :: s in names <==> exists n :: n in numbers && s == SegmentName(n))
  }

  /** Segments that fit six digits sort by number. */
  lemma SegmentOrder(a: nat, b: nat)
    requires a < 1_000_000 && b < 1_000_000
    ensures StrLess(SegmentName(a), SegmentName(b)) <==> a < b
  {
    hide Digits, StrLess;
    Pow10s();
    DigitsLength(a, 6);
    DigitsLength(b, 6);
    DigitsOrder(a, b, 6);
    StrLessAppend(Digits(a, 6), Digits(b, 6), SEG, SEG);
    StrLessIrreflexive(SEG);
  }

  lemma SegmentNumber(n: nat)
    ensures var s := SegmentName(n); |s| >= 4 && Atoi(s[..|s| - 4]) == n
  {
    NameIsNumber(n, 6);
    assert SegmentName(n)[..|SegmentName(n)| - 4] == Digits(n, 6);
  }

  /** The segment whose name sorts last. */
  ghost predicate ListedLast(numbers: set<nat>, m: nat) {
    m in numbers && forall n :: n in numbers && n != m ==> StrLess(SegmentName(n), SegmentName(m))
  }

  /** The number given out next: one past that of the segment listed last. */
  ghost predicate IsNextSegment(numbers: set<nat>, next: nat) {
    if numbers == {} then next == 1 else next > 0 && ListedLast(numbers, next - 1)
  }

  /** nextIndexSegmentSeq. */
  method NextIndexSegmentSeq(names: seq<Str>, ghost numbers: set<nat>) returns (next: nat)
    requires ListsSegments(names, numbers)
    ensures IsNextSegment(numbers, next)
  {
    hide SegmentName, StrLess, Atoi, Digits;
    if |names| == 0 {
      NoSegments(names, numbers);
      return 1;
    }
    var last := names[|names| - 1];
    ghost var m := LastListed(names, numbers);
    SegmentNumber(m);
    next := Atoi(last[..|last| - 4]) + 1;
  }

  lemma LastListed(names: seq<Str>, numbers: set<nat>) returns (m: nat)
    requires ListsSegments(names, numbers) && names != []
    ensures names[|names| - 1] == SegmentName(m) && ListedLast(numbers, m)
  {
    hide SegmentName, StrLess, Atoi, Digits;
    var last := names[|names| - 1];
    assert last in names;
    m :| m in numbers && last == SegmentName(m);
    SegmentNumber(m);
    forall n | n in numbers && n != m ensures StrLess(SegmentName(n), last) {
      SegmentNumber(n);
      assert SegmentName(n) in names;
    }
  }

  lemma NoSegments(names: seq<Str>, numbers: set<nat>)
    requires ListsSegments(names, numbers) && names == []
    ensures numbers == {}
  {
    hide SegmentName;
    forall n | n in numbers ensures SegmentName(n) in names {
    }
  }

  /** The segments numbered 1 to k. */
  function FirstSegments(k: nat): (numbers: set<nat>)
    ensures forall n: nat :: n in numbers <==> 1 <= n <= k
  {
    if k == 0 then {} else FirstSegments(k - 1) + {k}
  }

  /** The segments a directory holds after each of a number of appends: each takes the number given out next,
      and replaces the segment that has it already, if one has. */
  ghost predicate AppendsSegments(dirs: seq<set<nat>>) {
    && dirs != [] && dirs[0] == {}
    && forall i :: 0 <= i < |dirs| - 1 ==> AppendsSegment(dirs[i], dirs[i + 1])
  }

  ghost predicate AppendsSegment(numbers: set<nat>, numbers': set<nat>) {
    exists next :: IsNextSegment(numbers, next) && numbers' == numbers + {next}
  }

  const MILLION: nat := 1_000_000

  lemma LastOfFirst(k: nat, next: nat)
    requires k <= MILLION && IsNextSegment(FirstSegments(k), next)
    ensures next == if k == MILLION then MILLION else k + 1
  {
    hide SegmentName, StrLess;
    if k > 0 {
      var m := next - 1;
      assert m in FirstSegments(k) && k in FirstSegments(k);
      if k < MILLION {
        SegmentOrder(k, m);
      } else {
        MillionthSegmentHidden();
        assert MILLION - 1 in FirstSegments(k);
        StrLessTotal(SegmentName(MILLION), SegmentName(MILLION - 1));
        if m < MILLION {
          SegmentOrder(MILLION - 1, m);
        }
      }
    } else {
      assert FirstSegments(k) == {};
    }
  }

  lemma {:induction false} SegmentsWritten(dirs: seq<set<nat>>, i: nat)
    requires AppendsSegments(dirs) && i < |dirs|
    ensures dirs[i] == FirstSegments(if i < MILLION then i else MILLION)
  {
    hide IsNextSegment;
    if i > 0 {
      SegmentsWritten(dirs, i - 1);
      assert AppendsSegment(dirs[i - 1], dirs[i]);
      var next :| IsNextSegment(dirs[i - 1], next) && dirs[i] == dirs[i - 1] + {next};
      LastOfFirst(if i - 1 < MILLION then i - 1 else MILLION, next);
    }
  }

  /** A directory to which i segments have been appended gives out a number no segment has if and only if i
      is less than a million; from then on every append is numbered 1000000 and replaces the one before. */
  lemma FreshSegmentIff(dirs: seq<set<nat>>, i: nat, next: nat)
    requires AppendsSegments(dirs) && i < |dirs| && IsNextSegment(dirs[i], next)
    ensures next !in dirs[i] <==> i < 1_000_000
    ensures i >= 1_000_000 ==> next == 1_000_000
  {
    hide IsNextSegment, AppendsSegments;
    SegmentsWritten(dirs, i);
    LastOfFirst(if i < MILLION then i else MILLION, next);
  }

  /** The first names of parts and segments, as partition_test.go and indexdb_test.go have them. */
  lemma KnownNames()
    ensures Digits(1, 6) == Ascii("000001") && Digits(2, 6) == Ascii("000002")
    ensures SegmentName(1) == Ascii("000001.seg") && SegmentName(2) == Ascii("000002.seg")
  {
    FirstDigits();
    assert SEG == Ascii(".seg");
    hide Digits, Ascii;
    AsciiJoin("000001", ".seg");
    AsciiJoin("000002", ".seg");
    assert "000001" + ".seg" == "000001.seg" && "000002" + ".seg" == "000002.seg";
  }

  lemma FirstDigits()
    ensures Digits(1, 6) == Ascii("000001") && Digits(2, 6) == Ascii("000002")
  {
    ZerosText(5);
    LastDigit(1, 6);
    LastDigit(2, 6);
    hide Digits;
  }

  lemma {:induction false} ZerosText(w: nat)
    ensures Digits(0, w) == seq(w, i => ZERO)
  {
    if w > 0 {
      ZerosText(w - 1);
      LastDigit(0, w);
    }
  }

  /** The millionth segment sorts before the one before it. */
  lemma MillionthSegmentHidden()
    ensures StrLess(SegmentName(1_000_000), SegmentName(999_999))
  {
    MillionDigits();
    hide Digits, StrLess;
    var a, b := SegmentName(1_000_000), SegmentName(999_999);
    assert a == [ZERO + 1] + a[1..] && b == [ZERO + 9] + b[1..];
    StrLessAppend([ZERO + 1], [ZERO + 9], a[1..], b[1..]);
    DigitLess(1, 9);
  }

  lemma MillionDigits()
    ensures Digits(1_000_000, 6) != [] && Digits(1_000_000, 6)[0] == ZERO + 1
    ensures Digits(999_999, 6) != [] && Digits(999_999, 6)[0] == ZERO + 9
  {
    YearDigits();
    assert Digits(100_000, 5)[0] == ZERO + 1 by { assert Digits(10_000, 4)[0] == ZERO + 1; }
    assert Digits(99_999, 5)[0] == ZERO + 9 by { assert Digits(9_999, 4)[0] == ZERO + 9; }
  }
}
