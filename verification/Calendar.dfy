/**
 Calendar months in UTC (ECMA-262, section 21.4.1) and the months a subscription is extended by
 (src/services/subscription/renew-subscription-from-payment.service.ts:11-25).
 A month is named by its index, twelve times the year plus the month number from 0.
 */
module Calendar {
  import opened Common

  const MS_PER_DAY := 86400000

  function Day(t: Time): int { t / MS_PER_DAY }

  function TimeWithinDay(t: Time): (r: int)
    ensures 0 <= r < MS_PER_DAY
  {
    t % MS_PER_DAY
  }

  predicate Leap(year: int) { year % 4 == 0 && (year % 100 != 0 || year % 400 == 0) }

  /** The day number of the first of January. */
  function DayFromYear(year: int): int {
    365 * (year - 1970) + (year - 1969) / 4 - (year - 1901) / 100 + (year - 1601) / 400
  }

  function MonthLength(month: int): (n: int)
    ensures 28 <= n <= 31
  {
    var m := month % 12;
    if m == 1 then (if Leap(month / 12) then 29 else 28)
    else if m == 3 || m == 5 || m == 8 || m == 10 then 30
    else 31
  }

  /** January 1970. */
  const EPOCH_MONTH := 23640

  /** The day number of the first of a month, counted from 1 January 1970. */
  function MonthStart(month: int): int
    decreases if month < EPOCH_MONTH then EPOCH_MONTH - month else month - EPOCH_MONTH
  {
    if month == EPOCH_MONTH then 0
    else if month > EPOCH_MONTH then MonthStart(month - 1) + MonthLength(month - 1)
    else MonthStart(month + 1) - MonthLength(month)
  }

  /** Days of a year of 365 before a month. */
  function DaysBefore(m: int): int {
    match m
    case 0 => 0 case 1 => 31 case 2 => 59 case 3 => 90 case 4 => 120 case 5 => 151
    case 6 => 181 case 7 => 212 case 8 => 243 case 9 => 273 case 10 => 304 case _ => 334
  }

  /** The day number of the first of a month, by the formulas of ECMA-262. */
  function EcmaMonthStart(month: int): int {
    DayFromYear(month / 12) + DaysBefore(month % 12) + (if month % 12 >= 2 && Leap(month / 12) then 1 else 0)
  }

  lemma FourthYear(year: int)
    ensures (year - 1968) / 4 == (year - 1969) / 4 + (if year % 4 == 0 then 1 else 0)
  {
  }

  lemma HundredthYear(year: int)
    ensures (year - 1900) / 100 == (year - 1901) / 100 + (if year % 100 == 0 then 1 else 0)
  {
  }

  lemma FourHundredthYear(year: int)
    ensures (year - 1600) / 400 == (year - 1601) / 400 + (if year % 400 == 0 then 1 else 0)
  {
  }

  lemma CenturiesAreFourths(year: int)
    ensures (year % 400 == 0 ==> year % 100 == 0) && (year % 100 == 0 ==> year % 4 == 0)
  {
  }

  lemma YearLength(year: int)
    ensures DayFromYear(year + 1) == DayFromYear(year) + (if Leap(year) then 366 else 365)
  {
    FourthYear(year);
    HundredthYear(year);
    FourHundredthYear(year);
    CenturiesAreFourths(year);
  }

  lemma EcmaFollows(month: int)
    ensures EcmaMonthStart(month + 1) == EcmaMonthStart(month) + MonthLength(month)
  {
    if month % 12 == 11 {
      YearLength(month / 12);
    } else {
      assert (month + 1) / 12 == month / 12;
    }
  }

  lemma EpochStart()
    ensures EcmaMonthStart(EPOCH_MONTH) == 0
  {
    assert EPOCH_MONTH / 12 == 1970 && EPOCH_MONTH % 12 == 0;
  }

  /** Counting month by month from 1970 agrees with the formulas. */
  lemma {:induction false} MonthStartIsEcma(month: int)
    ensures MonthStart(month) == EcmaMonthStart(month)
    decreases if month < EPOCH_MONTH then EPOCH_MONTH - month else month - EPOCH_MONTH
  {
    hide EcmaMonthStart, MonthLength;
    if month > EPOCH_MONTH {
      MonthStartIsEcma(month - 1);
      EcmaFollows(month - 1);
    } else if month < EPOCH_MONTH {
      MonthStartIsEcma(month + 1);
      EcmaFollows(month);
    } else {
      EpochStart();
    }
  }

  lemma MonthFollows(month: int)
    ensures MonthStart(month + 1) == MonthStart(month) + MonthLength(month)
  {
  }

  lemma {:induction false} MonthsApart(a: int, b: int)
    requires a <= b
    ensures MonthStart(a) + 28 * (b - a) <= MonthStart(b)
    decreases b - a
  {
    if a < b {
      MonthsApart(a, b - 1);
      MonthFollows(b - 1);
    }
  }

  ghost predicate InMonth(day: int, month: int) {
    MonthStart(month) <= day < MonthStart(month) + MonthLength(month)
  }

  function FindMonth(day: int, guess: int): (month: int)
    ensures InMonth(day, month)
    decreases if day < MonthStart(guess) then MonthStart(guess) - day + 31 else day - MonthStart(guess)
  {
    MonthFollows(guess);
    MonthFollows(guess - 1);
    if day < MonthStart(guess) then FindMonth(day, guess - 1)
    else if day >= MonthStart(guess + 1) then FindMonth(day, guess + 1)
    else guess
  }

  /** The month a day falls in. */
  function MonthOf(day: int): (month: int)
    ensures InMonth(day, month)
  {
    FindMonth(day, EPOCH_MONTH)
  }

  lemma MonthUnique(day: int, a: int, b: int)
    requires InMonth(day, a) && InMonth(day, b)
    ensures a == b
  {
    if a < b {
      MonthFollows(a);
      MonthsApart(a + 1, b);
    } else if b < a {
      MonthFollows(b);
      MonthsApart(b + 1, a);
    }
  }

  /** The day of the month, from 1. */
  function DateOf(t: Time): (d: int)
    ensures 1 <= d <= MonthLength(MonthOf(Day(t)))
  {
    Day(t) - MonthStart(MonthOf(Day(t))) + 1
  }

  // ---------- the setters of Date ----------

  function MakeDate(day: int, time: int): Time { day * MS_PER_DAY + time }

  function SetUTCDate(t: Time, date: int): Time {
    MakeDate(MonthStart(MonthOf(Day(t))) + date - 1, TimeWithinDay(t))
  }

  /** `month` counts from January of the year of `t`. */
  function SetUTCMonth(t: Time, month: int): Time {
    MakeDate(MonthStart(MonthOf(Day(t)) / 12 * 12 + month) + DateOf(t) - 1, TimeWithinDay(t))
  }

  function UTC(year: int, month: int, date: int): Time {
    MakeDate(MonthStart(year * 12 + month) + date - 1, 0)
  }

  lemma DateFields(month: int, date: int, time: int, t: Time)
    requires 1 <= date <= MonthLength(month) && 0 <= time < MS_PER_DAY
               && t == MakeDate(MonthStart(month) + date - 1, time)
    ensures Day(t) == MonthStart(month) + date - 1 && TimeWithinDay(t) == time
    ensures MonthOf(Day(t)) == month && DateOf(t) == date
  {
    MonthUnique(Day(t), MonthOf(Day(t)), month);
  }

  lemma DateParts(t: Time)
    ensures t == MakeDate(MonthStart(MonthOf(Day(t))) + DateOf(t) - 1, TimeWithinDay(t))
  {
  }

  // ---------- addSubscriptionValidityMonths ----------

  function Min(a: int, b: int): int { if a <= b then a else b }

  /** The same day of a later month, or the last one if that month is shorter. */
  function AddMonths(t: Time, months: int): Time {
    var month := MonthOf(Day(t)) + months;
    MakeDate(MonthStart(month) + Min(DateOf(t), MonthLength(month)) - 1, TimeWithinDay(t))
  }

  lemma AddedFields(t: Time, months: int)
    ensures MonthOf(Day(AddMonths(t, months))) == MonthOf(Day(t)) + months
    ensures DateOf(AddMonths(t, months)) == Min(DateOf(t), MonthLength(MonthOf(Day(t)) + months))
    ensures TimeWithinDay(AddMonths(t, months)) == TimeWithinDay(t)
  {
    var month := MonthOf(Day(t)) + months;
    DateFields(month, Min(DateOf(t), MonthLength(month)), TimeWithinDay(t), AddMonths(t, months));
  }

  /** Day 1 first, then the month, then the day clamped to the month's last. */
  method AddSubscriptionValidityMonths(date: Time, months: int) returns (result: Time)
    ensures result == AddMonths(date, months)
  {
    result := date;
    var originalDay, from := DateOf(result), MonthOf(Day(result));
    result := SetUTCDate(result, 1);
    DateFields(from, 1, TimeWithinDay(date), result);
    result := SetUTCMonth(result, from % 12 + months);
    DateFields(from + months, 1, TimeWithinDay(date), result);
    var year, month := MonthOf(Day(result)) / 12, MonthOf(Day(result)) % 12;
    var last := UTC(year, month + 1, 0);
    MonthFollows(from + months);
    DateFields(from + months, MonthLength(from + months), 0, last);
    var lastDay := DateOf(last);
    result := SetUTCDate(result, Min(originalDay, lastDay));
  }

  function AddedDay(t: Time, months: int): int {
    MonthStart(MonthOf(Day(t)) + months) + Min(DateOf(t), MonthLength(MonthOf(Day(t)) + months)) - 1
  }

  lemma DayOrder(s: Time, t: Time)
    requires s <= t
    ensures Day(s) < Day(t) || (Day(s) == Day(t) && TimeWithinDay(s) <= TimeWithinDay(t))
    ensures MonthOf(Day(s)) <= MonthOf(Day(t))
  {
    var a, b := MonthOf(Day(s)), MonthOf(Day(t));
    if a > b {
      MonthFollows(b);
      MonthsApart(b + 1, a);
    }
  }

  /** Days keep their order: strictly, unless the target month cuts both to its last day. */
  lemma AddMonthsKeepsDays(s: Time, t: Time, months: int)
    requires s <= t
    ensures AddedDay(s, months) <= AddedDay(t, months)
    ensures AddedDay(s, months) == AddedDay(t, months) && Day(s) != Day(t) <==>
              Day(s) != Day(t) && MonthOf(Day(s)) == MonthOf(Day(t))
                && DateOf(s) >= MonthLength(MonthOf(Day(s)) + months)
  {
    var a, b := MonthOf(Day(s)), MonthOf(Day(t));
    DayOrder(s, t);
    if a < b {
      MonthFollows(a + months);
      MonthsApart(a + months + 1, b + months);
    }
  }

  /** Both days are cut to the last of the target month, and the earlier instant is later in its day. */
  predicate CutOutOfOrder(s: Time, t: Time, months: int) {
    && MonthOf(Day(s)) == MonthOf(Day(t)) && Day(s) != Day(t)
    && DateOf(s) >= MonthLength(MonthOf(Day(s)) + months)
    && TimeWithinDay(s) > TimeWithinDay(t)
  }

  /** Of two instants the later one stays later exactly unless the cut puts them out of order. */
  lemma AddMonthsMonotoneExactly(s: Time, t: Time, months: int)
    requires s <= t
    ensures AddMonths(s, months) <= AddMonths(t, months) <==> !CutOutOfOrder(s, t, months)
  {
    DayOrder(s, t);
    AddMonthsKeepsDays(s, t, months);
  }

  const JANUARY_2026 := 24312

  lemma EarlyIn2026()
    ensures MonthLength(JANUARY_2026) == 31 && MonthLength(JANUARY_2026 + 1) == 28
              && MonthLength(JANUARY_2026 + 2) == 31
  {
    assert (JANUARY_2026 + 1) / 12 == 2026 && (JANUARY_2026 + 2) / 12 == 2026;
  }

  /** From 30 January at 23:00 and 31 January at 1:00 of 2026, one month leads to 28 February at 23:00 and at 1:00. */
  lemma AddMonthsReorders()
    ensures var s := MakeDate(MonthStart(JANUARY_2026) + 29, 23 * 3600000);
            var t := MakeDate(MonthStart(JANUARY_2026) + 30, 3600000);
            && s < t && AddMonths(s, 1) > AddMonths(t, 1)
            && AddMonths(t, 1) == MakeDate(MonthStart(JANUARY_2026 + 1) + 27, 3600000)
  {
    var s := MakeDate(MonthStart(JANUARY_2026) + 29, 23 * 3600000);
    var t := MakeDate(MonthStart(JANUARY_2026) + 30, 3600000);
    EarlyIn2026();
    DateFields(JANUARY_2026, 30, 23 * 3600000, s);
    DateFields(JANUARY_2026, 31, 3600000, t);
    assert CutOutOfOrder(s, t, 1);
    AddMonthsMonotoneExactly(s, t, 1);
  }

  /** At least a month makes an instant strictly later. */
  lemma AddMonthsLater(t: Time, months: int)
    requires months >= 1
    ensures AddMonths(t, months) > t
  {
    var month := MonthOf(Day(t));
    MonthFollows(month);
    MonthsApart(month + 1, month + months);
    assert AddedDay(t, months) > Day(t);
  }

  /** Two extensions equal one of both lengths exactly when the first does not cut the day the second would keep. */
  lemma AddMonthsTwice(t: Time, a: int, b: int)
    ensures AddMonths(AddMonths(t, a), b) == AddMonths(t, a + b) <==>
              DateOf(t) <= MonthLength(MonthOf(Day(t)) + a)
              || MonthLength(MonthOf(Day(t)) + a + b) <= MonthLength(MonthOf(Day(t)) + a)
  {
    AddedFields(t, a);
    AddedFields(t, a + b);
    AddedFields(AddMonths(t, a), b);
  }

  /** Renewals bought one after another: the month index advances by exactly the months bought. */
  function Extended(t: Time, bought: seq<int>): Time {
    if |bought| == 0 then t else AddMonths(Extended(t, bought[..|bought| - 1]), bought[|bought| - 1])
  }

  lemma {:induction false} MonthsAreExact(t: Time, bought: seq<int>)
    ensures MonthOf(Day(Extended(t, bought))) == MonthOf(Day(t)) + SumInt(bought)
    ensures TimeWithinDay(Extended(t, bought)) == TimeWithinDay(t)
    ensures DateOf(Extended(t, bought)) <= DateOf(t)
  {
    if |bought| > 0 {
      MonthsAreExact(t, bought[..|bought| - 1]);
      AddedFields(Extended(t, bought[..|bought| - 1]), bought[|bought| - 1]);
    }
  }

  /** The day only ever drops, to the length of a month on the way; up to the 28th it never does. */
  lemma {:induction false} EarlyDaysKept(t: Time, bought: seq<int>)
    requires DateOf(t) <= 28
    ensures DateOf(Extended(t, bought)) == DateOf(t)
  {
    if |bought| > 0 {
      EarlyDaysKept(t, bought[..|bought| - 1]);
      AddedFields(Extended(t, bought[..|bought| - 1]), bought[|bought| - 1]);
    }
  }

  /** From 31 January 2026 one month and one more lead to 28 March, two months at once to 31 March. */
  lemma ClampDrifts()
    ensures var t := MakeDate(MonthStart(JANUARY_2026) + 30, 0);
            && AddMonths(AddMonths(t, 1), 1) == MakeDate(MonthStart(JANUARY_2026 + 2) + 27, 0)
            && AddMonths(t, 2) == MakeDate(MonthStart(JANUARY_2026 + 2) + 30, 0)
  {
    var t := MakeDate(MonthStart(JANUARY_2026) + 30, 0);
    EarlyIn2026();
    DateFields(JANUARY_2026, 31, 0, t);
    AddedFields(t, 1);
  }
}
