/**
 Local months (src/services/time/sao-paulo-period.service.ts) for any zone, given by its offset
 from UTC at every instant: the search for the instant a local reading stands for, and the
 months it cuts time into.
 */
module SaoPauloPeriod {
  import opened Common
  import opened Calendar

  /** Milliseconds by which local clocks are ahead of UTC. */
  type Zone = Time -> int

  /** A local reading, to the second. */
  datatype LocalDateTime = LocalDateTime(month: int, day: int, second: int)

  function LocalReading(zone: Zone, t: Time): Time { t + zone(t) }

  function Parts(zone: Zone, t: Time): LocalDateTime {
    var local := LocalReading(zone, t);
    LocalDateTime(MonthOf(Day(local)), DateOf(local), TimeWithinDay(local) / 1000)
  }

  /** The reading taken as if it were UTC. */
  function AsUTC(p: LocalDateTime): Time {
    MakeDate(MonthStart(p.month) + p.day - 1, p.second * 1000)
  }

  lemma PartsTruncate(local: Time)
    ensures AsUTC(LocalDateTime(MonthOf(Day(local)), DateOf(local), TimeWithinDay(local) / 1000)) ==
              local - local % 1000
  {
    DateParts(local);
    SecondsOfDay(local, TimeWithinDay(local));
  }

  lemma SecondsOfDay(local: Time, time: int)
    requires time == local % MS_PER_DAY
    ensures time / 1000 * 1000 == time - local % 1000
  {
    var q, k := local / MS_PER_DAY, time / 1000;
    assert local == 1000 * (86400 * q + k) + time % 1000;
    RemainderOf(local, 86400 * q + k, time % 1000);
  }

  lemma RemainderOf(x: int, m: int, r: int)
    requires x == 1000 * m + r && 0 <= r < 1000
    ensures x % 1000 == r
  {
  }

  lemma WholeSum(a: int, b: int)
    requires a % 1000 == 0 && b % 1000 == 0
    ensures (a + b) % 1000 == 0 && (a - b) % 1000 == 0
  {
    var m, n := a / 1000, b / 1000;
    RemainderOf(a + b, m + n, 0);
    RemainderOf(a - b, m - n, 0);
  }

  /** What a candidate reads as, to the second. */
  function Represented(zone: Zone, t: Time): (r: Time)
    ensures r == LocalReading(zone, t) - LocalReading(zone, t) % 1000
  {
    PartsTruncate(LocalReading(zone, t));
    AsUTC(Parts(zone, t))
  }

  /** The candidate after `n` corrections. */
  function Candidate(zone: Zone, wanted: Time, n: nat): Time {
    if n == 0 then wanted
    else
      var c := Candidate(zone, wanted, n - 1);
      c + wanted - Represented(zone, c)
  }

  method FromLocal(zone: Zone, parts: LocalDateTime) returns (instant: Time)
    ensures instant == Candidate(zone, AsUTC(parts), 3)
  {
    var wanted := AsUTC(parts);
    var candidate := wanted;
    for attempt := 0 to 3
      invariant candidate == Candidate(zone, wanted, attempt)
    {
      var represented := Represented(zone, candidate);
      candidate := candidate + wanted - represented;
    }
    instant := candidate;
  }

  // ---------- inversion ----------

  const DAY_BOUND := 86400000

  /** Offsets are whole seconds and below a day. */
  ghost predicate Bounded(zone: Zone) {
    forall t :: zone(t) % 1000 == 0 && -DAY_BOUND < zone(t) < DAY_BOUND
  }

  /** Near a reading the zone changes its offset once at most: `before` until `at`, `after` from then on. */
  ghost predicate OneTransition(zone: Zone, wanted: Time, at: Time, before: int, after: int) {
    forall t | wanted - DAY_BOUND <= t <= wanted + DAY_BOUND :: zone(t) == if t < at then before else after
  }

  lemma OneCorrection(zone: Zone, wanted: Time, c: Time)
    requires zone(c) % 1000 == 0 && c % 1000 == 0 && wanted % 1000 == 0
    ensures c + wanted - Represented(zone, c) == wanted - zone(c) && (wanted - zone(c)) % 1000 == 0
  {
    WholeSum(c, zone(c));
    WholeSum(wanted, zone(c));
  }

  /** One correction replaces the offset by the one at the candidate. */
  lemma {:induction false} Corrected(zone: Zone, wanted: Time, n: nat)
    requires Bounded(zone) && wanted % 1000 == 0
    ensures Candidate(zone, wanted, n) % 1000 == 0
    ensures n > 0 ==> Candidate(zone, wanted, n) == wanted - zone(Candidate(zone, wanted, n - 1))
  {
    hide Represented;
    if n > 0 {
      var c := Candidate(zone, wanted, n - 1);
      Corrected(zone, wanted, n - 1);
      assert zone(c) % 1000 == 0;
      OneCorrection(zone, wanted, c);
      assert Candidate(zone, wanted, n) == c + wanted - Represented(zone, c);
    }
  }

  /** Whenever some instant reads as wanted, two corrections already reach one, and a third stays there. */
  lemma CorrectionsMeet(zone: Zone, wanted: Time, at: Time, before: int, after: int, t: Time)
    requires Bounded(zone) && wanted % 1000 == 0 && OneTransition(zone, wanted, at, before, after)
    requires LocalReading(zone, t) == wanted
    ensures LocalReading(zone, Candidate(zone, wanted, 2)) == wanted
    ensures Candidate(zone, wanted, 3) == Candidate(zone, wanted, 2)
  {
    Corrected(zone, wanted, 1);
    Corrected(zone, wanted, 2);
    Corrected(zone, wanted, 3);
    assert -DAY_BOUND < zone(t) < DAY_BOUND;
    assert -DAY_BOUND < zone(wanted) < DAY_BOUND;
    var c1 := Candidate(zone, wanted, 1);
    assert -DAY_BOUND < zone(c1) < DAY_BOUND;
  }

  /** Three corrections find the wanted reading exactly when some instant has it. */
  lemma FromLocalInverts(zone: Zone, wanted: Time, at: Time, before: int, after: int)
    requires Bounded(zone) && wanted % 1000 == 0 && OneTransition(zone, wanted, at, before, after)
    ensures LocalReading(zone, Candidate(zone, wanted, 3)) == wanted <==> exists t :: LocalReading(zone, t) == wanted
  {
    if exists t :: LocalReading(zone, t) == wanted {
      var t :| LocalReading(zone, t) == wanted;
      CorrectionsMeet(zone, wanted, at, before, after, t);
    }
  }

  /** Clocks set forward skip readings: an hour after midnight 0 to 1 does not exist, and the search lands elsewhere. */
  lemma SkippedReading(zone: Zone, at: Time)
    requires Bounded(zone) && at % 1000 == 0 && forall t :: zone(t) == if t < at then 0 else 3600000
    ensures LocalReading(zone, Candidate(zone, at, 3)) != at
    ensures forall t :: LocalReading(zone, t) != at
  {
    assert OneTransition(zone, at, at, 0, 3600000);
    assert forall t :: LocalReading(zone, t) != at by {
      forall t ensures LocalReading(zone, t) != at {
        assert zone(t) == if t < at then 0 else 3600000;
      }
    }
  }

  // ---------- months ----------

  datatype Period = Period(start: Time, end: Time)

  datatype PeriodError = InvalidMonth

  /** The month the local reading of an instant falls in. */
  function PeriodRef(zone: Zone, t: Time): int { MonthOf(Day(LocalReading(zone, t))) }

  function FirstOf(month: int): LocalDateTime { LocalDateTime(month, 1, 0) }

  function PeriodOf(zone: Zone, month: int): Period {
    Period(Candidate(zone, AsUTC(FirstOf(month)), 3), Candidate(zone, AsUTC(FirstOf(month + 1)), 3))
  }

  /** `month` counts from 1, as in the written form. */
  method Parse(zone: Zone, year: int, month: int) returns (r: Result<Period, PeriodError>)
    ensures r == if 1 <= month <= 12 then Ok(PeriodOf(zone, year * 12 + month - 1)) else Err(InvalidMonth)
  {
    if month < 1 || month > 12 {
      return Err(InvalidMonth);
    }
    var nextYear := if month == 12 then year + 1 else year;
    var nextMonth := if month == 12 then 1 else month + 1;
    var start := FromLocal(zone, FirstOf(year * 12 + month - 1));
    var end := FromLocal(zone, FirstOf(nextYear * 12 + nextMonth - 1));
    r := Ok(Period(start, end));
  }

  /** No clock change within a day of a reading. */
  ghost predicate Calm(zone: Zone, wanted: Time) {
    forall t | wanted - DAY_BOUND <= t <= wanted + DAY_BOUND :: zone(t) == zone(wanted)
  }

  ghost predicate CalmBoundary(zone: Zone, month: int) { Calm(zone, AsUTC(FirstOf(month))) }

  /** Where clocks are calm an instant is at or past the one found exactly when it reads at or past the reading. */
  lemma CalmStart(zone: Zone, wanted: Time, t: Time)
    requires Bounded(zone) && Calm(zone, wanted) && wanted % 1000 == 0
    ensures t >= Candidate(zone, wanted, 3) <==> LocalReading(zone, t) >= wanted
  {
    hide Candidate;
    Corrected(zone, wanted, 1);
    Corrected(zone, wanted, 2);
    Corrected(zone, wanted, 3);
    assert -DAY_BOUND < zone(wanted) < DAY_BOUND;
    assert zone(Candidate(zone, wanted, 1)) == zone(wanted);
    assert zone(Candidate(zone, wanted, 2)) == zone(wanted);
    assert -DAY_BOUND < zone(t) < DAY_BOUND;
    if wanted - DAY_BOUND <= t <= wanted + DAY_BOUND {
      assert zone(t) == zone(wanted);
    }
  }

  lemma WholeSeconds(month: int)
    ensures AsUTC(FirstOf(month)) % 1000 == 0
  {
    hide MonthStart;
    WholeDays(MonthStart(month));
  }

  lemma WholeDays(day: int)
    ensures (day * MS_PER_DAY) % 1000 == 0
  {
    assert day * MS_PER_DAY == 1000 * (day * 86400);
  }

  lemma BoundaryStart(zone: Zone, month: int, t: Time)
    requires Bounded(zone) && CalmBoundary(zone, month)
    ensures t >= Candidate(zone, AsUTC(FirstOf(month)), 3) <==> LocalReading(zone, t) >= AsUTC(FirstOf(month))
  {
    WholeSeconds(month);
    CalmStart(zone, AsUTC(FirstOf(month)), t);
  }

  lemma FirstReading(month: int, local: Time)
    ensures AsUTC(FirstOf(month)) <= local < AsUTC(FirstOf(month + 1)) <==> MonthOf(Day(local)) == month
  {
    MonthFollows(month);
    if AsUTC(FirstOf(month)) <= local < AsUTC(FirstOf(month + 1)) {
      MonthUnique(Day(local), MonthOf(Day(local)), month);
    }
  }

  /** An instant belongs to a month exactly when it lies between the month's parsed bounds. */
  lemma PeriodsPartitionTime(zone: Zone, month: int, t: Time)
    requires Bounded(zone) && CalmBoundary(zone, month) && CalmBoundary(zone, month + 1)
    ensures PeriodRef(zone, t) == month <==> PeriodOf(zone, month).start <= t < PeriodOf(zone, month).end
  {
    BoundaryStart(zone, month, t);
    BoundaryStart(zone, month + 1, t);
    FirstReading(month, LocalReading(zone, t));
  }
}
