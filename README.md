# NYSE opening bell — a Dafny model

The program plays a bell sound when the New York Stock Exchange opens. An
external scheduler starts it at fixed times. Each run takes the current time
in America/New_York and classifies it as `Weekend`, `Holiday(name)`,
`NotOpening` or `MarketOpen`, in that order of checks. Only `MarketOpen` calls
`play_bell`. `play_bell` makes sure the sound file's directory exists and
downloads a default sound when the file is missing, keeping it only on
HTTP 200. It then starts the player once and swallows the player's errors.

The model has three modules:

- `MarketCheck` (`market.dfy`) models the classification of
  `run_market_check` as the pure function `Classify`. Its input is a reading
  already converted to New York civil fields (year, month, day, weekday with
  Monday = 0, hour, minute) plus a holiday-calendar collaborator: a function
  from a year to that year's map of date to holiday label. The calendar is
  trusted as given.
- `Bell` (`bell.dfy`) models `play_bell`. The host's filesystem, the network
  and the player are a `World` value: a set of directories, a map from path
  to bytes, a count of network requests and the list of paths handed to the
  player. `PlayBellStep` is the specification of one call. The class `Host`
  holds the same four things as fields, and its method `PlayBell` performs
  the call step by step, with the source's early returns. It is proved to
  end in the state and the outcome that `PlayBellStep` gives. The HTTP
  response, the outcome of the file write and the outcome of the player are
  inputs that the environment chooses.
- `Engine` (`engine.dfy`) composes the two. `RunMarketCheck` classifies the
  reading and calls `PlayBell` only on `MarketOpen`. `CheckStep` is its
  specification.

Beyond single calls, the model proves properties of a series of calls:

- A file that is present is never fetched again.
- A failed download leaves the file missing, so the next call retries it.
- Invocations at distinct minutes ring the bell at most once.

Three facts about the code shape the model:

- The downloaded sound is not written atomically. `play_bell` opens the
  target with `"wb"` and writes into it (mobell/utils.py:28-29), so a write
  that raises part way leaves a truncated file. Later calls find that file
  present and never fetch again. `WriteRaised` models this case.
- The exception from `os.makedirs` (mobell/utils.py:19) is not caught.
  `os.makedirs` raises when the configured path has no directory part (its
  dirname is empty) or when the parent name is taken by a regular file.
  Neither `play_bell` nor `run_market_check` (mobell/core.py:37) nor its
  caller (cli.py:89) catches the exception, so the run ends with it. This is
  the outcome `MakedirsRaised`.
- Failed downloads and failed playback are only log lines, and `play_bell`
  returns nothing. The model's `Outcome` records which branch was taken.

## Model

| member | source | states |
|---|---|---|
| `MarketCheck.Classify` | mobell/core.py:19-39 | Weekend iff the weekday is 5 or more, at any hour. Holiday iff it is a weekday whose date is in that year's calendar, and the label is the calendar's. MarketOpen iff it is a trading day at exactly 09:30. NotOpening iff it is a trading day at any other minute. Exactly one outcome. |
| `MarketCheck.OnlyOwnYearConsulted` | mobell/core.py:25-28 | Only the calendar for the reading's own year matters: two calendars that agree on that year give the same result. |
| `MarketCheck.HolidayBeatsOpening` | mobell/core.py:24-37 | A listed weekday holiday at 09:30 is `Holiday(label)`, not MarketOpen. |
| `MarketCheck.WeekendBeatsHoliday` | mobell/core.py:19-31 | A weekend date that the calendar also lists is Weekend, not Holiday. |
| `MarketCheck.CivilWeekday` | test_simulation.py:11-16 | The Monday-based weekday of a Gregorian date lies in 0..6. It is used to check that the scenario readings carry the right weekday. |
| `MarketCheck.ScenarioOpening` | test_simulation.py:11-34 | Wednesday 2026-01-07 09:30 is a Wednesday, and with no holiday that day it is MarketOpen. |
| `MarketCheck.ScenarioOneMinuteLate` | mobell/core.py:35-39 | 09:31 on that Wednesday is NotOpening. |
| `MarketCheck.ScenarioSaturday` | mobell/core.py:19-22 | Saturday 2026-01-10 09:30 is Weekend. |
| `MarketCheck.ScenarioHoliday` | mobell/core.py:24-31 | Monday 2026-01-19 09:30 is `Holiday("Martin Luther King Jr. Day")`. |
| `MarketCheck.OpensAtMostOnce` | mobell/core.py:33-37 | Among readings at pairwise distinct (hour, minute), exactly one is MarketOpen if some reading is a trading-day 09:30, and none otherwise. |
| `Bell.AfterLastSep` | mobell/utils.py:19 | The position just after the last '/' of a path, or 0 when there is none: no '/' follows it. |
| `Bell.RStripSep` | mobell/utils.py:19 | Stripping trailing '/' gives a prefix that does not end in '/', and only '/' was removed. |
| `Bell.Dirname` | mobell/utils.py:19 | `os.path.dirname` gives a prefix of the path that stops before the last component: only '/' lies between its end and the last '/'. It is empty iff the path has no '/'. It ends in '/' only when it is all '/', and then it is the whole head up to the last '/'. It is shorter than a path that does not end in '/'. |
| `Bell.PlayBellStep` | mobell/utils.py:15-47 | If makedirs raises (empty dirname, or the dirname is a file), nothing changes. Otherwise the parent directory exists afterwards, even if it existed before. One request is made iff the file is missing. A present file is not changed. Only the configured path's file can change. HTTP 200 with a successful write stores exactly the body and plays it. Any other status, or a request that raises, stores nothing and plays nothing. HTTP 200 with an open that raises stores nothing. HTTP 200 with a write that raises leaves a prefix of the body at the path. In both cases nothing is played. Playback is tried at most once, only on the configured path, and only on a path that exists (a file, or a directory when the path names one). The outcome reports the player's result: Rang when it played, PlaybackUnavailable when the player is not installed, PlaybackFailed on any other failure. Directories and files stay disjoint. |
| `Bell.SecondCallIsOffline` | mobell/utils.py:19-22 | After a call that left the file present, a second call makes no request and leaves directories and files unchanged. |
| `Bell.ProvisionedIsNeverRefetched` | mobell/utils.py:21-22 | Once the file is present, any series of calls makes no request and changes no file. |
| `Bell.TruncatedFileIsNeverRepaired` | mobell/utils.py:21-38 | A write that raises after HTTP 200 plays nothing and leaves a prefix of the body at the path. No later call fetches it again or changes it. |
| `Bell.FailedDownloadIsRetried` | mobell/utils.py:21-38 | While every response is non-200 or raises, each call makes exactly one request. The file stays missing, no file changes and the player is never started. |
| `Bell.Host.MakeDirs` | mobell/utils.py:19 | `os.makedirs(d, exist_ok=True)` raises iff d is empty or names a file. Otherwise d is added to the directories, with no error if it was already there. |
| `Bell.Host.Fetch` | mobell/utils.py:25-26 | Each GET adds one to the request count and returns the environment's response. |
| `Bell.Host.WriteFile` | mobell/utils.py:28-29 | Writing the body stores it entirely. If open raises, nothing is stored. If write raises, the created file holds a prefix of the body. |
| `Bell.Host.Play` | mobell/utils.py:40-47 | Appends the path to the playback log exactly once. A missing player or a failing player is reported and swallowed. |
| `Bell.Host.PlayBell` | mobell/utils.py:10-47 | The step-by-step call, with its early returns, ends in the new host state and the outcome that `PlayBellStep` gives. |
| `Engine.CheckStep` | mobell/core.py:11-39 | play_bell runs iff the reading is a trading day at 09:30. Otherwise the host is unchanged: no request and no playback. Each check makes at most one request and at most one playback attempt. |
| `Engine.ScenarioOpeningCallsBell` | test_simulation.py:14-34 | The 2026-01-07 09:30 check calls play_bell. |
| `Engine.EffectsBoundedByOpenings` | mobell/core.py:33-37 | Over a series of checks, requests and playback attempts are bounded by the number of checks classified MarketOpen. |
| `Engine.BellAtMostOncePerDay` | mobell/core.py:33-37 | Over checks at pairwise distinct minutes, at most one request and at most one playback attempt happen. |
| `Engine.RunMarketCheck` | mobell/core.py:11-39 | The method returns the classification, calls `PlayBell` only on MarketOpen, and ends in the state that `CheckStep` gives. |

## Left out

- Time-zone conversion (`pytz`, mobell/core.py:12-13) and the system clock: the reading arrives as New York civil fields, and nothing checks that they form a real date or time.
- Holiday generation (`holidays.NYSE`, mobell/core.py:25): the calendar is an input, and observance rules are not derived. `January2026` holds only the two January 2026 holidays used by the scenarios.
- `requests.get` and `subprocess.run(["afplay", ...])` (mobell/utils.py:26, 43): these are foreign I/O, so only their results are modelled, as inputs. The download URL and the 10-second timeout have no other effect in the model.
- Configuration (`get_path`, `os.path.expanduser`, mobell/config.py): the sound path is a parameter. The TOML loading and the module-level settings singleton are not part of this model.
- Logging throughout. cli.py (argparse, exit codes, cron lines), mobell/logger.py, tools/edit_sound.py (floating-point audio processing) and the patching harness of test_simulation.py are not part of this model.
- Bell.Host.MakeDirs: adds only the parent directory itself. The intermediate directories that `os.makedirs` also creates are not tracked. Failures from permissions, or from an ancestor that is a regular file, are not modelled either.
- Paths are compared as strings. There is no normalisation, so `/a` and `/a/` are different paths.
- Exceptions outside the cases above are not modelled, for example a failure while reading the response body, or a KeyboardInterrupt.
- Concurrency and overlapping invocations: each run is a single pass.
