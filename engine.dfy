/** run_market_check of mobell/core.py as a whole: classify the reading and call
    play_bell exactly when the result is MarketOpen. */
module Engine {
  import opened MarketCheck
  import opened Bell

  datatype Option<T> = None | Some(value: T)

  /** One invocation by the external scheduler: the clock reading, and what
      the network, the file write and the player would do if the bell rang. */
  datatype Invocation = Invocation(reading: Reading, attempt: Attempt)

  /** What one market check did: the classification, how play_bell ended
      when it was called, and the host afterwards. */
  datatype Check = Check(result: CheckResult, bell: Option<Outcome>, world: World)

  /** One run_market_check on the configured sound path. */
  function CheckStep(w: World, inv: Invocation, calendar: HolidayCalendar, path: Path): (c: Check)
    ensures c.result == Classify(inv.reading, calendar)
    // play_bell is called iff the day is a trading day and it is 09:30
    ensures c.bell.Some? <==> IsTradingDay(inv.reading, calendar) && IsOpeningMinute(inv.reading)
    // off the opening minute the host is untouched: no request, no playback
    ensures c.bell.None? ==> c.world == w
    ensures c.bell.Some? ==>
              var s := PlayBellStep(w, path, inv.attempt.http, inv.attempt.write, inv.attempt.play);
              c.world == s.world && c.bell.value == s.outcome
    // at most one request and at most one playback per check
    ensures c.world.networkCalls <= w.networkCalls + 1
    ensures |c.world.playbacks| <= |w.playbacks| + 1 && w.playbacks <= c.world.playbacks
  {
    var result := Classify(inv.reading, calendar);
    if result == MarketOpen then
      var a := inv.attempt;
      var s := PlayBellStep(w, path, a.http, a.write, a.play);
      Check(result, Some(s.outcome), s.world)
    else
      Check(result, None, w)
  }

  /** Wednesday 2026-01-07 09:30 rings the bell: play_bell is called. */
  lemma ScenarioOpeningCallsBell(w: World, attempt: Attempt, path: Path)
    ensures CheckStep(w, Invocation(Reading(2026, 1, 7, 2, 9, 30), attempt), January2026, path).bell.Some?
  {
    ScenarioOpening();
  }

  /** The readings of a series of invocations. */
  function Readings(invs: seq<Invocation>): seq<Reading>
  {
    seq(|invs|, i requires 0 <= i < |invs| => invs[i].reading)
  }

  /** The host after a series of market checks, one per invocation. */
  function RunChecks(w: World, invs: seq<Invocation>, calendar: HolidayCalendar, path: Path): World
    decreases |invs|
  {
    if invs == [] then w
    else RunChecks(CheckStep(w, invs[0], calendar, path).world, invs[1..], calendar, path)
  }

  /** Requests and playbacks are bounded by the number of checks that found
      the market opening. */
  lemma {:induction false} EffectsBoundedByOpenings(w: World, invs: seq<Invocation>, calendar: HolidayCalendar, path: Path)
    ensures var w' := RunChecks(w, invs, calendar, path);
            var n := OpeningCount(Readings(invs), calendar);
            w'.networkCalls <= w.networkCalls + n &&
            |w'.playbacks| <= |w.playbacks| + n && w.playbacks <= w'.playbacks
    decreases |invs|
  {
    if invs != [] {
      var c := CheckStep(w, invs[0], calendar, path);
      EffectsBoundedByOpenings(c.world, invs[1..], calendar, path);
      assert Readings(invs)[1..] == Readings(invs[1..]);
      assert Readings(invs)[0] == invs[0].reading;
      if Classify(invs[0].reading, calendar) != MarketOpen {
        assert c.world == w;
      }
    }
  }

  /** Single firing: over invocations at distinct minutes (one day of an
      invoker that fires at most once a minute) the default sound is
      requested at most once and the player is started at most once. */
  lemma BellAtMostOncePerDay(w: World, invs: seq<Invocation>, calendar: HolidayCalendar, path: Path)
    requires DistinctMinutes(Readings(invs))
    ensures var w' := RunChecks(w, invs, calendar, path);
            w'.networkCalls <= w.networkCalls + 1 &&
            |w'.playbacks| <= |w.playbacks| + 1 && w.playbacks <= w'.playbacks
  {
    EffectsBoundedByOpenings(w, invs, calendar, path);
    OpensAtMostOnce(Readings(invs), calendar);
  }

  /** run_market_check with the host's filesystem, network and player. */
  method RunMarketCheck(host: Host, reading: Reading, calendar: HolidayCalendar, path: Path, attempt: Attempt)
    returns (result: CheckResult, bell: Option<Outcome>)
    modifies host
    ensures Check(result, bell, host.State()) == CheckStep(old(host.State()), Invocation(reading, attempt), calendar, path)
  {
    result := Classify(reading, calendar);
    if result == MarketOpen {
      var outcome := host.PlayBell(path, attempt.http, attempt.write, attempt.play);
      bell := Some(outcome);
    } else {
      bell := None;
    }
  }
}
