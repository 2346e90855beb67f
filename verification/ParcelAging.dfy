/** Parcel aging: elapsed days with Sundays removed, rounded to three decimals.

    A moment is the local wall-clock time in milliseconds since Thursday 1970-01-01 00:00,
    with 24-hour days. Days are rationals, modelled as `real`. */
module ParcelAging {
  import opened Options

  const DAY: int := 86_400_000
  /** Half of the last kept decimal: 0.0005 day, in milliseconds. */
  const HALF_UNIT: int := 43_200

  function DayOf(t: int): int { t / DAY }

  /** Day 0 is a Thursday. */
  predicate IsSunday(day: int) { (day + 4) % 7 == 0 }

  /** Any seven days in a row have exactly one Sunday, and 4 January 1970 is one. */
  lemma OneSundayAWeek(day: int)
    ensures exists d :: day <= d < day + 7 && IsSunday(d) && forall e :: day <= e < day + 7 && IsSunday(e) ==> e == d
    ensures IsSunday(3)
  {
    var weeks := (3 - day) / 7;
    var d := 3 - 7 * weeks;
    assert d + 4 == 7 * (1 - weeks) && day <= d < day + 7;
    assert IsSunday(d);
    forall e | day <= e < day + 7 && IsSunday(e) ensures e == d {
      var w := (e + 4) / 7;
      assert e + 4 == 7 * w;
    }
  }

  predicate JudgeHolidays(t: int) { IsSunday(DayOf(t)) }

  /** A moment is on a Sunday exactly when it lies in the first day of a week counted from 4 January 1970, in
      milliseconds. */
  lemma SundayMoments(t: int)
    ensures JudgeHolidays(t) <==> (t - 259_200_000) % 604_800_000 < 86_400_000
  {
    var day, ms := t / DAY, t % DAY;
    var week, rest := (day + 4) / 7, (day + 4) % 7;
    assert t == DAY * day + ms && day + 4 == 7 * week + rest;
    assert t - 259_200_000 == 604_800_000 * (week - 1) + (DAY * rest + ms);
    assert 0 <= DAY * rest + ms < 604_800_000;
  }

  function StartOfDay(t: int): int { DayOf(t) * DAY }

  function EndOfDay(t: int): int { DayOf(t) * DAY + DAY - 1 }

  /** `_.round(x, 3)`: halves go up. */
  function Round3(x: real): real { (x * 1000.0 + 0.5).Floor as real / 1000.0 }

  function InDays(ms: int): real { ms as real / DAY as real }

  function GetTimeDiffAsDay(start: int, end: int): real { Round3(InDays(end - start)) }

  // ---------------------------------------------------------------- reference: the integral

  /** The number of milliseconds of [a, b) that do not lie on a Sunday, counted one by one. */
  ghost function NonSundayMs(a: int, b: int): nat
    decreases b - a
  {
    if a >= b then 0 else (if JudgeHolidays(a) then 0 else 1) + NonSundayMs(a + 1, b)
  }

  /** Leaving a Sunday costs one millisecond: `endOf('day')` is the day's last millisecond. */
  ghost function SundayCarry(a: int, b: int): nat {
    if JudgeHolidays(a) && DayOf(a) < DayOf(b) then 1 else 0
  }

  ghost function WorkingMs(a: int, b: int): nat { NonSundayMs(a, b) + SundayCarry(a, b) }

  /** What the aging computation promises, without day lists, clamps or Sunday counts. */
  ghost function Aging(a: int, b: int): Option<real> {
    if DayOf(a) > DayOf(b) then None else Some(Round3(InDays(WorkingMs(a, b))))
  }

  // ---------------------------------------------------------------- the computation

  /** `getDateRange(startDate, endDate, 'day')`. */
  method GetDateRange(startDate: int, endDate: int) returns (range: seq<int>)
    ensures |range| == if DayOf(startDate) <= DayOf(endDate) then DayOf(endDate) - DayOf(startDate) + 1 else 0
    ensures forall i :: 0 <= i < |range| ==> DayOf(range[i]) == DayOf(startDate) + i
  {
    var start := startDate;
    range := [];
    while DayOf(start) <= DayOf(endDate)
      invariant start == startDate + |range| * DAY
      invariant |range| > 0 ==> DayOf(start) <= DayOf(endDate) + 1
      invariant forall i :: 0 <= i < |range| ==> DayOf(range[i]) == DayOf(startDate) + i
      decreases DayOf(endDate) - DayOf(start) + 1
    {
      range := range + [start];
      start := start + DAY;
    }
  }

  function CountTrue(s: seq<bool>): nat {
    if s == [] then 0 else (if s[0] then 1 else 0) + CountTrue(s[1..])
  }

  /** `computeTimeDiffExcludeHoliday`: `None` is the undefined result of an empty day range. */
  method ComputeTimeDiffExcludeHoliday(earlierTime: int, laterTime: int) returns (aging: Option<real>)
    ensures aging == Aging(earlierTime, laterTime)
  {
    var range := GetDateRange(earlierTime, laterTime);
    var holidayList := seq(|range|, i requires 0 <= i < |range| => JudgeHolidays(range[i]));
    if |holidayList| == 0 {
      return None;
    }
    var earlierMoment, laterMoment := earlierTime, laterTime;
    if holidayList[0] {
      earlierMoment := EndOfDay(earlierMoment);
    }
    if holidayList[|holidayList| - 1] {
      laterMoment := StartOfDay(laterMoment);
    }
    var day := GetTimeDiffAsDay(earlierMoment, laterMoment);
    var hd := if |holidayList| <= 1 then [] else holidayList[1..|holidayList| - 1];
    var sundayNumber := CountTrue(hd);
    aging := Some(if day - sundayNumber as real > 0.0 then day - sundayNumber as real else 0.0);

    CountTrueIsSundays(hd, DayOf(earlierTime) + 1);
    ComputedIsAging(earlierTime, laterTime, sundayNumber);
  }

  datatype AgingResult = AgingResult(
    transferredAging: Option<real>, arrivedAging: Option<real>, transferredAtIsSunday: bool, arrivedAtIsSunday: bool)

  method ComputeAging(declaredAt: int, transferredAt: int, arrivedAt: int) returns (r: AgingResult)
    ensures r.transferredAging == Aging(declaredAt, transferredAt)
    ensures r.arrivedAging == Aging(transferredAt, arrivedAt)
    ensures r.transferredAtIsSunday == IsSunday(DayOf(transferredAt))
    ensures r.arrivedAtIsSunday == IsSunday(DayOf(arrivedAt))
  {
    var transferredAging := ComputeTimeDiffExcludeHoliday(declaredAt, transferredAt);
    var arrivedAging := ComputeTimeDiffExcludeHoliday(transferredAt, arrivedAt);
    r := AgingResult(transferredAging, arrivedAging, JudgeHolidays(transferredAt), JudgeHolidays(arrivedAt));
  }

  /** The stored field, `_.round(aging, 3) || null`: undefined and zero both become null. */
  function Stored(aging: Option<real>): Option<real> {
    if aging.None? || Round3(aging.value) == 0.0 then None else Some(Round3(aging.value))
  }

  // ---------------------------------------------------------------- the day list is the integral

  ghost function Sundays(first: int, last: int): nat
    decreases last - first
  {
    if first >= last then 0 else (if IsSunday(first) then 1 else 0) + Sundays(first + 1, last)
  }

  lemma {:induction false} CountTrueIsSundays(s: seq<bool>, from: int)
    requires forall i :: 0 <= i < |s| ==> s[i] == IsSunday(from + i)
    ensures CountTrue(s) == Sundays(from, from + |s|)
  {
    if s != [] {
      assert s[0] == IsSunday(from + 0);
      forall i | 0 <= i < |s[1..]| ensures s[1..][i] == IsSunday(from + 1 + i) {
        assert s[1..][i] == s[i + 1] == IsSunday(from + (i + 1));
      }
      CountTrueIsSundays(s[1..], from + 1);
    }
  }

  lemma {:induction false} NonSundayAdditive(a: int, b: int, c: int)
    requires a <= b <= c
    ensures NonSundayMs(a, c) == NonSundayMs(a, b) + NonSundayMs(b, c)
    decreases b - a
  {
    if a < b { NonSundayAdditive(a + 1, b, c); }
  }

  lemma {:induction false} NonSundayWithinDay(a: int, b: int)
    requires a <= b <= DayOf(a) * DAY + DAY
    ensures NonSundayMs(a, b) == if JudgeHolidays(a) then 0 else b - a
    decreases b - a
  {
    if a + 1 < b {
      assert DayOf(a + 1) == DayOf(a);
      NonSundayWithinDay(a + 1, b);
    }
  }

  lemma {:induction false} NonSundayWholeDays(first: int, last: int)
    requires first <= last
    ensures NonSundayMs(first * DAY, last * DAY) == (last - first - Sundays(first, last)) * DAY
    decreases last - first
  {
    if first < last {
      NonSundayWithinDay(first * DAY, (first + 1) * DAY);
      NonSundayWholeDays(first + 1, last);
      NonSundayAdditive(first * DAY, (first + 1) * DAY, last * DAY);
    }
  }

  lemma DifferenceAcrossDays(a: int, b: int)
    requires DayOf(a) < DayOf(b)
    ensures NonSundayMs(a, b) == (if JudgeHolidays(a) then 0 else (DayOf(a) + 1) * DAY - a)
                                 + (DayOf(b) - DayOf(a) - 1 - Sundays(DayOf(a) + 1, DayOf(b))) * DAY
                                 + (if JudgeHolidays(b) then 0 else b - DayOf(b) * DAY)
  {
    var m, n := (DayOf(a) + 1) * DAY, DayOf(b) * DAY;
    NonSundayWithinDay(a, m);
    NonSundayWholeDays(DayOf(a) + 1, DayOf(b));
    NonSundayWithinDay(n, b);
    NonSundayAdditive(a, m, b);
    NonSundayAdditive(m, n, b);
  }

  /** The two clamped moments are apart by the working time plus the Sundays strictly between. */
  lemma ClampedDifference(a: int, b: int)
    requires DayOf(a) <= DayOf(b)
    ensures var earlier := if JudgeHolidays(a) then EndOfDay(a) else a;
            var later := if JudgeHolidays(b) then StartOfDay(b) else b;
            if DayOf(a) < DayOf(b) then later - earlier == WorkingMs(a, b) + DAY * Sundays(DayOf(a) + 1, DayOf(b))
            else if a <= b && !JudgeHolidays(a) then later - earlier == WorkingMs(a, b)
            else later - earlier <= 0 && WorkingMs(a, b) == 0
  {
    if DayOf(a) < DayOf(b) {
      DifferenceAcrossDays(a, b);
    } else if a <= b {
      NonSundayWithinDay(a, b);
    }
  }

  // ---------------------------------------------------------------- rounding

  lemma FloorShift(x: real, k: int)
    ensures (x - k as real).Floor == x.Floor - k
  {
  }

  /** Rounding before whole days are subtracted equals rounding afterwards. */
  lemma RoundShift(x: real, k: int)
    ensures Round3(x) - k as real == Round3(x - k as real)
  {
    FloorShift(x * 1000.0 + 0.5, 1000 * k);
    assert (x - k as real) * 1000.0 + 0.5 == x * 1000.0 + 0.5 - (1000 * k) as real;
  }

  lemma RoundMonotone(x: real, y: real)
    requires x <= y
    ensures Round3(x) <= Round3(y)
  {
    assert (x * 1000.0 + 0.5).Floor <= (y * 1000.0 + 0.5).Floor;
  }

  lemma ClampRounded(diff: int, sundays: nat, a: int, b: int)
    requires diff - sundays * DAY == WorkingMs(a, b) || (sundays == 0 && diff <= 0 && WorkingMs(a, b) == 0)
    ensures var r := Round3(InDays(diff) - sundays as real);
            (if r > 0.0 then r else 0.0) == Round3(InDays(WorkingMs(a, b)))
  {
    assert InDays(diff) - sundays as real == InDays(diff - sundays * DAY);
    assert Round3(0.0) == 0.0;
    RoundMonotone(0.0, InDays(WorkingMs(a, b)));
    if sundays == 0 && diff <= 0 {
      RoundMonotone(InDays(diff), 0.0);
    }
  }

  /** Clamping, rounding, subtracting the Sundays between and clamping at zero give the aging. */
  lemma ComputedIsAging(a: int, b: int, sundays: nat)
    requires DayOf(a) <= DayOf(b)
    requires sundays == if DayOf(a) == DayOf(b) then 0 else Sundays(DayOf(a) + 1, DayOf(b))
    ensures var earlier := if JudgeHolidays(a) then EndOfDay(a) else a;
            var later := if JudgeHolidays(b) then StartOfDay(b) else b;
            var r := GetTimeDiffAsDay(earlier, later) - sundays as real;
            Aging(a, b) == Some(if r > 0.0 then r else 0.0)
  {
    var earlier := if JudgeHolidays(a) then EndOfDay(a) else a;
    var later := if JudgeHolidays(b) then StartOfDay(b) else b;
    ClampedDifference(a, b);
    RoundShift(InDays(later - earlier), sundays);
    ClampRounded(later - earlier, sundays, a, b);
  }

  lemma RoundError(x: real)
    ensures -0.0005 < Round3(x) - x <= 0.0005
  {
  }

  /** The outer `_.round(…, 3)` of the stored record changes nothing. */
  lemma OuterRoundChangesNothing(a: int, b: int)
    ensures Aging(a, b).Some? ==> Round3(Aging(a, b).value) == Aging(a, b).value
  {
    if Aging(a, b).Some? {
      var n := (InDays(WorkingMs(a, b)) * 1000.0 + 0.5).Floor;
      assert Aging(a, b).value * 1000.0 == n as real;
      assert (n as real + 0.5).Floor == n;
    }
  }

  // ---------------------------------------------------------------- what the result means

  /** The aging, turned back into milliseconds, is within half a unit and one millisecond of the truth. */
  lemma AgingErrorBound(a: int, b: int)
    requires a <= b
    ensures Aging(a, b).Some?
    ensures -(HALF_UNIT as real) <= Aging(a, b).value * DAY as real - NonSundayMs(a, b) as real
            <= (HALF_UNIT + 1) as real
  {
    RoundError(InDays(WorkingMs(a, b)));
    assert InDays(WorkingMs(a, b)) * DAY as real == WorkingMs(a, b) as real;
  }

  /** A positive stored value needs at least half a unit of working time; null hides everything below. */
  lemma StoredNullExactly(a: int, b: int)
    ensures Stored(Aging(a, b)).None? <==> DayOf(a) > DayOf(b) || WorkingMs(a, b) < HALF_UNIT
    ensures Stored(Aging(a, b)).Some? ==> Stored(Aging(a, b)) == Aging(a, b)
  {
    OuterRoundChangesNothing(a, b);
    var x := InDays(WorkingMs(a, b)) * 1000.0 + 0.5;
    assert x == (WorkingMs(a, b) + HALF_UNIT) as real / 86400.0;
    assert x.Floor == 0 <==> x < 1.0;
  }

  /** Splitting at b counts b's own Sunday-end millisecond once more, and nothing else. */
  lemma SplitWorking(a: int, b: int, c: int)
    requires a <= b <= c
    ensures WorkingMs(a, b) + WorkingMs(b, c) ==
            WorkingMs(a, c) + (if DayOf(a) < DayOf(b) then SundayCarry(b, c) else 0)
  {
    NonSundayAdditive(a, b, c);
  }

  /** From the last millisecond of a Saturday over a Sunday to Monday: one millisecond counts twice. */
  lemma SundayEndCountsAgain()
    ensures var a, b, c := 3 * DAY - 1, 3 * DAY, 4 * DAY;
            JudgeHolidays(b) && WorkingMs(a, b) + WorkingMs(b, c) == 2 && WorkingMs(a, c) == 1
  {
    var a, b, c := 3 * DAY - 1, 3 * DAY, 4 * DAY;
    NonSundayWithinDay(a, b);
    NonSundayWithinDay(b, c);
    SplitWorking(a, b, c);
  }

  /** On one Thursday: two agings of 0.0005 day are each rounded up, and the whole is 0.001 day. */
  lemma RoundedTwice()
    ensures Aging(0, HALF_UNIT) == Aging(HALF_UNIT, 2 * HALF_UNIT) == Aging(0, 2 * HALF_UNIT) == Some(0.001)
  {
    NonSundayWithinDay(0, HALF_UNIT);
    NonSundayWithinDay(HALF_UNIT, 2 * HALF_UNIT);
    NonSundayWithinDay(0, 2 * HALF_UNIT);
    assert InDays(HALF_UNIT) == 0.0005 && InDays(2 * HALF_UNIT) == 0.001;
  }

  /** One unit of the last kept decimal, in milliseconds, and how many of them n milliseconds round to. */
  const UNIT: int := 2 * HALF_UNIT

  function Units(n: int): int { (n + HALF_UNIT) / UNIT }

  /** What rounding takes away from n milliseconds. */
  function Rem(n: int): int { n - UNIT * Units(n) }

  lemma RoundIsUnits(n: int)
    ensures Round3(InDays(n)) == Units(n) as real / 1000.0
    ensures -HALF_UNIT <= Rem(n) < HALF_UNIT
  {
    assert InDays(n) * 1000.0 + 0.5 == (n + HALF_UNIT) as real / UNIT as real;
    FloorIsDivision(n + HALF_UNIT, UNIT);
  }

  lemma FloorIsDivision(n: int, d: int)
    requires d > 0
    ensures (n as real / d as real).Floor == n / d
  {
    var q, r := n / d, n % d;
    assert n as real / d as real == q as real + r as real / d as real;
    assert 0.0 <= r as real / d as real < 1.0;
  }

  /** Two agings in a row differ from the aging of the whole by at most one unit of the last decimal, and add
      up to it exactly when what rounding took from the two, less the millisecond that counts again, would
      itself round to nothing. */
  lemma SplitAging(a: int, b: int, c: int)
    requires a <= b <= c
    ensures var sum := Aging(a, b).value + Aging(b, c).value;
            var carry := if DayOf(a) < DayOf(b) then SundayCarry(b, c) else 0;
            && -0.001 <= sum - Aging(a, c).value <= 0.001
            && (sum == Aging(a, c).value <==>
                  -HALF_UNIT <= Rem(WorkingMs(a, b)) + Rem(WorkingMs(b, c)) - carry < HALF_UNIT)
  {
    SplitWorking(a, b, c);
    var x, y, z := WorkingMs(a, b), WorkingMs(b, c), WorkingMs(a, c);
    RoundIsUnits(x);
    RoundIsUnits(y);
    RoundIsUnits(z);
    UnitsAddUp(x, y, z, x + y - z);
  }

  lemma UnitsAddUp(x: int, y: int, z: int, carry: int)
    requires x + y == z + carry && 0 <= carry <= 1
    ensures -1 <= Units(x) + Units(y) - Units(z) <= 1
    ensures Units(x) + Units(y) == Units(z) <==> -HALF_UNIT <= Rem(x) + Rem(y) - carry < HALF_UNIT
  {
    assert Rem(x) + Rem(y) - carry == z - UNIT * (Units(x) + Units(y));
  }
}
