/** Days held, as the time stop counts them live (tick_loop.py:473-490) and in the simulator. */
module Calendar {

  /** Days are numbered from 1 January 1970, a Thursday; Monday is 0. */
  function Weekday(day: int): int {
    (day + 3) % 7
  }

  predicate IsBusinessDay(day: int) {
    Weekday(day) < 5
  }

  /** Business days after `from`, up to and including `to`. */
  function BusinessDays(from: int, to: int): (n: nat)
    decreases to - from
    ensures to > from ==> n <= to - from
  {
    if to <= from then 0
    else BusinessDays(from, to - 1) + (if IsBusinessDay(to) then 1 else 0)
  }

  /** The source walks through the days one by one. */
  method BusinessDaysSince(entered: int, now: int) returns (count: nat)
    ensures count == BusinessDays(entered, now)
  {
    count := 0;
    if now <= entered {
      return;
    }
    var d := entered + 1;
    while d <= now
      invariant entered < d <= now + 1
      invariant count == BusinessDays(entered, d - 1)
    {
      if Weekday(d) < 5 {
        count := count + 1;
      }
      d := d + 1;
    }
  }

  /** Counting is additive. */
  lemma {:induction false} Additive(a: int, b: int, c: int)
    requires a <= b <= c
    ensures BusinessDays(a, c) == BusinessDays(a, b) + BusinessDays(b, c)
    decreases c - b
  {
    if b < c {
      Additive(a, b, c - 1);
    }
  }

  /** The first of January 1970 was a Thursday, weeks have seven days, and all but Saturday and Sunday are business
      days. */
  lemma WeekMeaning(week: int)
    ensures IsBusinessDay(7 * week) && IsBusinessDay(7 * week + 1)
    ensures !IsBusinessDay(7 * week + 2) && !IsBusinessDay(7 * week + 3)
    ensures IsBusinessDay(7 * week + 4) && IsBusinessDay(7 * week + 5) && IsBusinessDay(7 * week + 6)
  {
  }

  function One(day: int): nat {
    if IsBusinessDay(day) then 1 else 0
  }

  lemma WeekdayAfter(a: int, k: nat)
    ensures Weekday(a + k) == (a % 7 + k + 3) % 7
  {
  }

  lemma AnySevenDays(a: int)
    ensures One(a + 1) + One(a + 2) + One(a + 3) + One(a + 4) + One(a + 5) + One(a + 6) + One(a + 7) == 5
  {
    var r := a % 7;
    WeekdayAfter(a, 1);
    WeekdayAfter(a, 2);
    WeekdayAfter(a, 3);
    WeekdayAfter(a, 4);
    WeekdayAfter(a, 5);
    WeekdayAfter(a, 6);
    WeekdayAfter(a, 7);
    hide Weekday;
    assert r == 0 || r == 1 || r == 2 || r == 3 || r == 4 || r == 5 || r == 6;
  }

  lemma NextDay(a: int, k: nat)
    ensures BusinessDays(a, a + k + 1) == BusinessDays(a, a + k) + One(a + k + 1)
  {
  }

  lemma OneWeek(a: int)
    ensures BusinessDays(a, a + 7) == 5
  {
    AnySevenDays(a);
    NextDay(a, 6);
    NextDay(a, 5);
    NextDay(a, 4);
    NextDay(a, 3);
    NextDay(a, 2);
    NextDay(a, 1);
    NextDay(a, 0);
    assert BusinessDays(a, a) == 0;
    hide One, BusinessDays;
  }

  /** Whole weeks need no counting: five business days each, whatever the day of entry. */
  lemma {:induction false} WholeWeeks(a: int, weeks: nat, days: nat)
    ensures BusinessDays(a, a + 7 * weeks + days) == 5 * weeks + BusinessDays(a + 7 * weeks, a + 7 * weeks + days)
    decreases weeks
  {
    if weeks > 0 {
      OneWeek(a);
      WholeWeeks(a + 7, weeks - 1, days);
      Additive(a, a + 7, a + 7 * weeks + days);
    }
  }

  // ---------------------------------------------------------------- against the simulator's bar count

  /** The trading days of a bar sequence: business days, each later than the one before. */
  ghost predicate TradingDays(days: seq<int>) {
    && (forall k :: 0 <= k < |days| ==> IsBusinessDay(days[k]))
    && (forall k :: 0 < k < |days| ==> days[k - 1] < days[k])
  }

  /** No business day is missing between bar k - 1 and bar k. */
  ghost predicate Adjacent(days: seq<int>, k: nat)
    requires 0 < k < |days|
  {
    forall d :: days[k - 1] < d < days[k] ==> !IsBusinessDay(d)
  }

  lemma {:induction false} CountBetween(a: int, b: int)
    requires a < b && IsBusinessDay(b)
    ensures BusinessDays(a, b) >= 1
    ensures BusinessDays(a, b) == 1 <==> forall d :: a < d < b ==> !IsBusinessDay(d)
  {
    NoneBetween(a, b - 1);
  }

  lemma {:induction false} NoneBetween(a: int, b: int)
    requires a <= b
    ensures BusinessDays(a, b) == 0 <==> forall d :: a < d <= b ==> !IsBusinessDay(d)
    decreases b - a
  {
    if a < b {
      NoneBetween(a, b - 1);
      hide Weekday;
    }
  }

  /** The live time stop counts business days, the simulator counts bars. Live never counts fewer, and both
      agree exactly while no business day is missing from the bars: a holiday makes the live stop early. */
  lemma {:induction false} LiveCountsNoFewer(days: seq<int>, i: nat)
    requires TradingDays(days) && i < |days|
    ensures BusinessDays(days[0], days[i]) >= i
    ensures BusinessDays(days[0], days[i]) == i <==> forall k :: 0 < k <= i ==> Adjacent(days, k)
    ensures days[0] <= days[i]
  {
    if i > 0 {
      LiveCountsNoFewer(days, i - 1);
      CountBetween(days[i - 1], days[i]);
      Additive(days[0], days[i - 1], days[i]);
      assert Adjacent(days, i) <==> BusinessDays(days[i - 1], days[i]) == 1;
    }
  }
}
