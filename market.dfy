/** The market-open decision of mobell/core.py: a New York civil-time reading is
    sorted into exactly one of Weekend, Holiday(name), NotOpening or MarketOpen,
    checking the weekend first, then the exchange holiday calendar, then the
    exact opening minute 09:30. */
module MarketCheck {

  /** A calendar date in exchange-local civil time. */
  datatype Date = Date(year: int, month: int, day: int)

  /** A clock reading already converted to America/New_York civil time.
      The weekday counts from Monday = 0 to Sunday = 6. */
  datatype Reading = Reading(year: int, month: int, day: int, weekday: int, hour: int, minute: int)
  {
    /** The reading's local date. */
    function Today(): Date { Date(year, month, day) }
  }

  /** The holiday-calendar collaborator: for a year, the exchange holidays of
      that year, each date mapped to its label. It is trusted as given. */
  type HolidayCalendar = int -> map<Date, string>

  /** The outcome of one market check. */
  datatype CheckResult = Weekend | Holiday(name: string) | NotOpening | MarketOpen

  const SATURDAY := 5
  const OPEN_HOUR := 9
  const OPEN_MINUTE := 30

  /** Saturday or Sunday. */
  predicate IsWeekend(r: Reading)
  {
    r.weekday >= SATURDAY
  }

  /** A trading day is a date that is neither a weekend day nor a listed
      holiday of its own year. */
  predicate IsTradingDay(r: Reading, calendar: HolidayCalendar)
  {
    !IsWeekend(r) && r.Today() !in calendar(r.year)
  }

  /** The opening instant, matched to the exact minute. */
  predicate IsOpeningMinute(r: Reading)
  {
    r.hour == OPEN_HOUR && r.minute == OPEN_MINUTE
  }

  /** The classification of run_market_check, with its early returns. */
  function Classify(r: Reading, calendar: HolidayCalendar): (c: CheckResult)
    ensures c == Weekend <==> IsWeekend(r)
    ensures c.Holiday? <==> !IsWeekend(r) && r.Today() in calendar(r.year)
    ensures c.Holiday? ==> c.name == calendar(r.year)[r.Today()]
    ensures c == MarketOpen <==> IsTradingDay(r, calendar) && IsOpeningMinute(r)
    ensures c == NotOpening <==> IsTradingDay(r, calendar) && !IsOpeningMinute(r)
  {
    if r.weekday >= SATURDAY then
      Weekend
    else
      var holidays := calendar(r.year);
      if r.Today() in holidays then
        Holiday(holidays[r.Today()])
      else if r.hour == OPEN_HOUR && r.minute == OPEN_MINUTE then
        MarketOpen
      else
        NotOpening
  }

  /** Only the calendar of the reading's own year is consulted: two calendars
      that agree on that year classify the reading alike. */
  lemma OnlyOwnYearConsulted(r: Reading, c1: HolidayCalendar, c2: HolidayCalendar)
    requires c1(r.year) == c2(r.year)
    ensures Classify(r, c1) == Classify(r, c2)
  {
  }

  /** A holiday on a weekday is reported as that holiday even at 09:30. */
  lemma HolidayBeatsOpening(r: Reading, calendar: HolidayCalendar)
    requires !IsWeekend(r) && IsOpeningMinute(r)
    requires r.Today() in calendar(r.year)
    ensures Classify(r, calendar) == Holiday(calendar(r.year)[r.Today()])
  {
  }

  /** A weekend day that the calendar also lists is reported as a weekend. */
  lemma WeekendBeatsHoliday(r: Reading, calendar: HolidayCalendar)
    requires IsWeekend(r) && r.Today() in calendar(r.year)
    ensures Classify(r, calendar) == Weekend
  {
  }

  /** Day of the week of a proleptic Gregorian date, Monday = 0, as
      datetime.date.weekday() gives it (Sakamoto's method). */
  function CivilWeekday(year: int, month: int, day: int): (wd: int)
    requires 1 <= month <= 12
    ensures 0 <= wd < 7
  {
    var offsets := [0, 3, 2, 5, 0, 3, 5, 1, 4, 6, 2, 4];
    var y := if month < 3 then year - 1 else year;
    var sundayBased := (y + y / 4 - y / 100 + y / 400 + offsets[month - 1] + day) % 7;
    (sundayBased + 6) % 7
  }

  /** A reading whose weekday agrees with its date. */
  predicate Consistent(r: Reading)
  {
    1 <= r.month <= 12 && r.weekday == CivilWeekday(r.year, r.month, r.day)
  }

  /** The two January 2026 exchange holidays, as the calendar collaborator
      labels them. */
  function January2026(year: int): map<Date, string>
  {
    if year == 2026 then
      map[Date(2026, 1, 1) := "New Year's Day", Date(2026, 1, 19) := "Martin Luther King Jr. Day"]
    else
      map[]
  }

  /** Wednesday 2026-01-07 09:30, an ordinary trading day, is the market
      opening. */
  lemma ScenarioOpening()
    ensures var r := Reading(2026, 1, 7, 2, 9, 30);
            Consistent(r) && Classify(r, January2026) == MarketOpen
  {
    assert CivilWeekday(2026, 1, 7) == 2;
    assert Date(2026, 1, 7) !in January2026(2026);
  }

  /** 09:31 on the same Wednesday is not the opening. */
  lemma ScenarioOneMinuteLate()
    ensures var r := Reading(2026, 1, 7, 2, 9, 31);
            Consistent(r) && Classify(r, January2026) == NotOpening
  {
    assert CivilWeekday(2026, 1, 7) == 2;
    assert Date(2026, 1, 7) !in January2026(2026);
  }

  /** Saturday 2026-01-10 09:30 is a weekend. */
  lemma ScenarioSaturday()
    ensures var r := Reading(2026, 1, 10, 5, 9, 30);
            Consistent(r) && Classify(r, January2026) == Weekend
  {
    assert CivilWeekday(2026, 1, 10) == 5;
  }

  /** Monday 2026-01-19 09:30 is Martin Luther King Jr. Day. */
  lemma ScenarioHoliday()
    ensures var r := Reading(2026, 1, 19, 0, 9, 30);
            Consistent(r) && Classify(r, January2026) == Holiday("Martin Luther King Jr. Day")
  {
    assert CivilWeekday(2026, 1, 19) == 0;
    assert January2026(2026)[Date(2026, 1, 19)] == "Martin Luther King Jr. Day";
  }

  /** Number of readings in rs classified MarketOpen. */
  function OpeningCount(rs: seq<Reading>, calendar: HolidayCalendar): nat
  {
    if rs == [] then 0
    else (if Classify(rs[0], calendar) == MarketOpen then 1 else 0) + OpeningCount(rs[1..], calendar)
  }

  /** No two readings share an (hour, minute) pair, as the readings of one day
      taken by an invoker that fires at most once a minute. */
  predicate DistinctMinutes(rs: seq<Reading>)
  {
    forall i, j :: 0 <= i < j < |rs| ==> (rs[i].hour, rs[i].minute) != (rs[j].hour, rs[j].minute)
  }

  /** Exact-minute matching fires at most once for readings at distinct
      minutes: once if some reading is the opening of a trading day, never
      otherwise. */
  lemma {:induction false} OpensAtMostOnce(rs: seq<Reading>, calendar: HolidayCalendar)
    requires DistinctMinutes(rs)
    ensures OpeningCount(rs, calendar) == if exists i :: 0 <= i < |rs| && Classify(rs[i], calendar) == MarketOpen then 1 else 0
  {
    if rs != [] {
      var tail := rs[1..];
      assert forall i :: 0 <= i < |tail| ==> tail[i] == rs[i + 1];
      assert DistinctMinutes(tail);
      OpensAtMostOnce(tail, calendar);
      if Classify(rs[0], calendar) == MarketOpen {
        forall i | 0 <= i < |tail|
          ensures Classify(tail[i], calendar) != MarketOpen
        {
          assert (rs[0].hour, rs[0].minute) != (rs[i + 1].hour, rs[i + 1].minute);
        }
      } else {
        if exists i :: 0 <= i < |rs| && Classify(rs[i], calendar) == MarketOpen {
          var i :| 0 <= i < |rs| && Classify(rs[i], calendar) == MarketOpen;
          assert Classify(tail[i - 1], calendar) == MarketOpen;
        }
      }
    }
  }
}
