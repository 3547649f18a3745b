/** The bell of mobell/utils.py (play_bell): make sure the sound file's parent
    directory exists, download the default sound when the file is missing and
    keep it only on HTTP 200, then try the player once and swallow its errors.

    The host's filesystem, the network and the player are modelled as a World
    value: the directories, the files (path to bytes), the number of network
    requests made and the list of playback attempts. The HTTP response, the
    outcome of writing the file and the outcome of playing are inputs chosen
    by the environment. */
module Bell {

  newtype byte = x: int | 0 <= x < 256

  type Path = string
  type Bytes = seq<byte>

  /** What the environment does to the host: directories, files, network
      requests made so far and every path handed to the player, in order. */
  datatype World = World(dirs: set<Path>, files: map<Path, Bytes>, networkCalls: nat, playbacks: seq<Path>)

  /** A path names a directory or a regular file, never both. */
  predicate Valid(w: World)
  {
    w.dirs !! w.files.Keys
  }

  /** os.path.exists: the path names a directory or a file. */
  predicate Exists(w: World, p: Path)
  {
    p in w.dirs || p in w.files
  }

  /** The GET of the default sound: a response, or an exception raised by the
      request (timeout, connection failure). */
  datatype HttpResult = Response(status: int, body: Bytes) | RequestRaised

  /** Writing the downloaded body: done, open() raised, or write() raised
      after the file was created and `kept` bytes of the body had reached it. */
  datatype WriteResult = Written | OpenRaised | WriteRaised(kept: nat)

  /** Running the player: it played, it is not installed, or it failed. */
  datatype PlayResult = Played | PlayerMissing | PlayerFailed

  /** Which way play_bell ended, after the log line it writes. MakedirsRaised
      is the one exception that is not caught: it leaves play_bell. */
  datatype Outcome =
    | Rang
    | PlaybackUnavailable
    | PlaybackFailed
    | DownloadRejected(status: int)
    | DownloadError
    | MakedirsRaised

  /** The outcomes after which the player was started. */
  predicate PlaybackAttempted(o: Outcome)
  {
    o.Rang? || o.PlaybackUnavailable? || o.PlaybackFailed?
  }

  /** One past the last '/' of p, or 0 when p has none (p.rfind('/') + 1). */
  function AfterLastSep(p: Path): (i: nat)
    ensures i <= |p|
    ensures i > 0 ==> p[i - 1] == '/'
    ensures forall k :: i <= k < |p| ==> p[k] != '/'
  {
    if p == [] then 0
    else if p[|p| - 1] == '/' then |p|
    else AfterLastSep(p[..|p| - 1])
  }

  predicate AllSep(s: Path)
  {
    forall k :: 0 <= k < |s| ==> s[k] == '/'
  }

  /** s.rstrip('/'). */
  function RStripSep(s: Path): (r: Path)
    ensures |r| <= |s| && r == s[..|r|]
    ensures forall k :: |r| <= k < |s| ==> s[k] == '/'
    ensures r == [] || r[|r| - 1] != '/'
  {
    if s == [] || s[|s| - 1] != '/' then s
    else RStripSep(s[..|s| - 1])
  }

  /** os.path.dirname on POSIX: everything up to the last '/', with trailing
      slashes removed unless the head is made of slashes only. */
  function Dirname(p: Path): (d: Path)
    ensures |d| <= |p| && d == p[..|d|]
    ensures d == [] <==> forall k :: 0 <= k < |p| ==> p[k] != '/'
    ensures p != [] && p[|p| - 1] != '/' ==> |d| < |p|
    // the head of os.path.split: the last component and the separators
    // before it are excluded, and trailing separators are stripped unless
    // the head is only separators
    ensures |d| <= AfterLastSep(p)
    ensures forall j :: |d| <= j < AfterLastSep(p) ==> p[j] == '/'
    ensures d == [] || d[|d| - 1] != '/' || AllSep(d)
    ensures AllSep(p[..AfterLastSep(p)]) ==> |d| == AfterLastSep(p)
  {
    var head := p[..AfterLastSep(p)];
    if head != [] && !AllSep(head) then
      var d := RStripSep(head);
      assert d != [] by {
        var k :| 0 <= k < |head| && head[k] != '/';
        assert k < |d|;
      }
      d
    else
      head
  }

  /** The sound file still has to be fetched once its parent directory
      exists: it is not there, and it is not that directory itself. */
  predicate Missing(w: World, path: Path)
  {
    !Exists(w, path) && path != Dirname(path)
  }

  /** Ends one call of play_bell. */
  datatype Step = Step(world: World, outcome: Outcome)

  /** The player is started once, on path; its failure is logged and
      swallowed. */
  function Playback(w: World, path: Path, play: PlayResult): Step
  {
    var after := w.(playbacks := w.playbacks + [path]);
    match play
    case Played => Step(after, Rang)
    case PlayerMissing => Step(after, PlaybackUnavailable)
    case PlayerFailed => Step(after, PlaybackFailed)
  }

  /** The whole of one play_bell call on the configured path, given what the
      network, the file write and the player do. */
  function PlayBellStep(w: World, path: Path, http: HttpResult, write: WriteResult, play: PlayResult): (s: Step)
    // os.makedirs(dirname, exist_ok=True) raises on an empty name or on a
    // name taken by a file, and nothing catches it; then nothing else happens
    ensures s.outcome == MakedirsRaised <==> Dirname(path) == [] || Dirname(path) in w.files
    ensures s.outcome == MakedirsRaised ==> s.world == w
    // otherwise the parent directory exists afterwards, whether or not it did before
    ensures s.outcome != MakedirsRaised ==> s.world.dirs == w.dirs + {Dirname(path)}
    ensures Valid(w) ==> Valid(s.world)
    // a request is made exactly when the file is missing
    ensures s.world.networkCalls == w.networkCalls + (if s.outcome != MakedirsRaised && Missing(w, path) then 1 else 0)
    // a present file is left alone
    ensures Exists(w, path) ==> s.world.files == w.files
    // only the configured path's file can change
    ensures s.world.files - {path} == w.files - {path}
    // the player is started at most once, on the configured path
    ensures s.world.playbacks == w.playbacks + (if PlaybackAttempted(s.outcome) then [path] else [])
    // file present (or the path is its own parent directory): play it
    ensures s.outcome != MakedirsRaised && !Missing(w, path) ==> PlaybackAttempted(s.outcome)
    // missing file, HTTP 200, written: the file holds the body and is played
    ensures s.outcome != MakedirsRaised && Missing(w, path) && http.Response? && http.status == 200 && write == Written ==>
              s.world.files == w.files[path := http.body] && PlaybackAttempted(s.outcome)
    // missing file, any other status: nothing written, nothing played
    ensures s.outcome != MakedirsRaised && Missing(w, path) && http.Response? && http.status != 200 ==>
              s.outcome == DownloadRejected(http.status) && s.world.files == w.files
    // missing file, the request raised: caught, nothing written, nothing played
    ensures s.outcome != MakedirsRaised && Missing(w, path) && http.RequestRaised? ==>
              s.outcome == DownloadError && s.world.files == w.files
    // missing file, HTTP 200, but open or write raised: caught, nothing
    // played; a raising write leaves a truncated prefix of the body behind
    ensures s.outcome != MakedirsRaised && Missing(w, path) && http.Response? && http.status == 200 && !write.Written? ==>
              s.outcome == DownloadError &&
              (write.OpenRaised? ==> s.world.files == w.files) &&
              (write.WriteRaised? ==> path in s.world.files && s.world.files[path] <= http.body)
    // the player runs only on a path that exists by then
    ensures PlaybackAttempted(s.outcome) ==> Exists(s.world, path)
    // a started player reports its own result: played, not installed
    // (FileNotFoundError) or any other failure
    ensures PlaybackAttempted(s.outcome) ==>
              (s.outcome == Rang <==> play == Played) &&
              (s.outcome == PlaybackUnavailable <==> play == PlayerMissing) &&
              (s.outcome == PlaybackFailed <==> play == PlayerFailed)
  {
    var parent := Dirname(path);
    if parent == [] || parent in w.files then
      Step(w, MakedirsRaised)
    else
      var w1 := w.(dirs := w.dirs + {parent});
      if Exists(w1, path) then
        Playback(w1, path, play)
      else
        var w2 := w1.(networkCalls := w1.networkCalls + 1);
        match http
        case RequestRaised => Step(w2, DownloadError)
        case Response(status, body) =>
          if status != 200 then
            Step(w2, DownloadRejected(status))
          else
            match write
            case OpenRaised => Step(w2, DownloadError)
            case WriteRaised(kept) =>
              var n := if kept < |body| then kept else |body|;
              Step(w2.(files := w2.files[path := body[..n]]), DownloadError)
            case Written =>
              Playback(w2.(files := w2.files[path := body]), path, play)
  }

  /** Idempotence: once a call has left the file in place, the next call
      makes no request and leaves the directories and files as they were. */
  lemma SecondCallIsOffline(w: World, path: Path, first: Attempt, second: Attempt)
    ensures var s1 := PlayBellStep(w, path, first.http, first.write, first.play);
            var s2 := PlayBellStep(s1.world, path, second.http, second.write, second.play);
            path in s1.world.files ==>
              s2.world.networkCalls == s1.world.networkCalls &&
              s2.world.files == s1.world.files &&
              s2.world.dirs == s1.world.dirs
  {
  }

  /** What the environment does in one call. */
  datatype Attempt = Attempt(http: HttpResult, write: WriteResult, play: PlayResult)

  /** The state after a series of calls of play_bell on the same path, one per
      attempt. */
  function RunAll(w: World, path: Path, attempts: seq<Attempt>): World
    decreases |attempts|
  {
    if attempts == [] then w
    else
      var a := attempts[0];
      RunAll(PlayBellStep(w, path, a.http, a.write, a.play).world, path, attempts[1..])
  }

  /** Once the sound file is in place, no later call downloads it again or
      changes any file. */
  lemma {:induction false} ProvisionedIsNeverRefetched(w: World, path: Path, attempts: seq<Attempt>)
    requires path in w.files
    ensures RunAll(w, path, attempts).files == w.files
    ensures RunAll(w, path, attempts).networkCalls == w.networkCalls
    decreases |attempts|
  {
    if attempts != [] {
      var a := attempts[0];
      var s := PlayBellStep(w, path, a.http, a.write, a.play);
      assert s.world.files == w.files;
      ProvisionedIsNeverRefetched(s.world, path, attempts[1..]);
    }
  }

  /** A write that raises part way leaves a truncated file: that call plays
      nothing, and every later call finds the file present, so none of them
      fetches it again or repairs it. */
  lemma TruncatedFileIsNeverRepaired(w: World, path: Path, http: HttpResult, kept: nat, play: PlayResult, later: seq<Attempt>)
    requires Missing(w, path)
    requires Dirname(path) != [] && Dirname(path) !in w.files
    requires http.Response? && http.status == 200
    ensures var s := PlayBellStep(w, path, http, WriteRaised(kept), play);
            var w' := RunAll(s.world, path, later);
            s.outcome == DownloadError && s.world.playbacks == w.playbacks &&
            path in s.world.files && s.world.files[path] <= http.body &&
            w'.files == s.world.files && w'.networkCalls == s.world.networkCalls
  {
    var s := PlayBellStep(w, path, http, WriteRaised(kept), play);
    ProvisionedIsNeverRefetched(s.world, path, later);
  }

  /** The response did not carry the sound. */
  predicate Rejected(http: HttpResult)
  {
    http.RequestRaised? || http.status != 200
  }

  /** A failed download is recoverable: while every response is rejected, each
      call makes one request, the file stays missing, no file changes and the
      player is never started, so the next call tries again. */
  lemma {:induction false} FailedDownloadIsRetried(w: World, path: Path, attempts: seq<Attempt>)
    requires Missing(w, path)
    requires Dirname(path) != [] && Dirname(path) !in w.files
    requires forall i :: 0 <= i < |attempts| ==> Rejected(attempts[i].http)
    ensures var w' := RunAll(w, path, attempts);
            Missing(w', path) && w'.files == w.files && w'.playbacks == w.playbacks &&
            w'.networkCalls == w.networkCalls + |attempts|
    decreases |attempts|
  {
    if attempts != [] {
      var a := attempts[0];
      var s := PlayBellStep(w, path, a.http, a.write, a.play);
      assert Rejected(a.http);
      assert Missing(s.world, path);
      FailedDownloadIsRetried(s.world, path, attempts[1..]);
    }
  }

  /** The host's filesystem, network counter and playback log, which play_bell
      changes step by step. */
  class Host {
    var dirs: set<Path>
    var files: map<Path, Bytes>
    var networkCalls: nat
    var playbacks: seq<Path>

    /** The host as a value. */
    function State(): World
      reads this
    {
      World(dirs, files, networkCalls, playbacks)
    }

    constructor (initialDirs: set<Path>, initialFiles: map<Path, Bytes>)
      ensures State() == World(initialDirs, initialFiles, 0, [])
    {
      dirs, files := initialDirs, initialFiles;
      networkCalls, playbacks := 0, [];
    }

    /** os.makedirs(d, exist_ok=True), which raises on an empty name or a
        name taken by a file. */
    method MakeDirs(d: Path) returns (raised: bool)
      modifies this`dirs
      ensures raised <==> d == [] || d in files
      ensures dirs == if raised then old(dirs) else old(dirs) + {d}
    {
      raised := d == [] || d in files;
      if !raised {
        dirs := dirs + {d};
      }
    }

    /** requests.get on the default sound's address, with a 10-second timeout. */
    method Fetch(http: HttpResult) returns (r: HttpResult)
      modifies this`networkCalls
      ensures networkCalls == old(networkCalls) + 1 && r == http
    {
      networkCalls := networkCalls + 1;
      r := http;
    }

    /** open(path, "wb").write(body); returns whether it raised. */
    method WriteFile(path: Path, body: Bytes, write: WriteResult) returns (raised: bool)
      modifies this`files
      ensures raised <==> !write.Written?
      ensures files == match write
                       case Written => old(files)[path := body]
                       case OpenRaised => old(files)
                       case WriteRaised(kept) => old(files)[path := body[..if kept < |body| then kept else |body|]]
    {
      raised := !write.Written?;
      match write
      case Written =>
        files := files[path := body];
      case OpenRaised =>
      case WriteRaised(kept) =>
        files := files[path := body[..if kept < |body| then kept else |body|]];
    }

    /** subprocess.run(["afplay", path], check=True), errors caught. */
    method Play(path: Path, play: PlayResult) returns (outcome: Outcome)
      modifies this`playbacks
      ensures playbacks == old(playbacks) + [path]
      ensures outcome == Playback(old(State()), path, play).outcome
    {
      playbacks := playbacks + [path];
      match play
      case Played => outcome := Rang;
      case PlayerMissing => outcome := PlaybackUnavailable;
      case PlayerFailed => outcome := PlaybackFailed;
    }

    /** play_bell on the configured sound path. */
    method PlayBell(path: Path, http: HttpResult, write: WriteResult, play: PlayResult) returns (outcome: Outcome)
      modifies this
      ensures var s := PlayBellStep(old(State()), path, http, write, play);
              State() == s.world && outcome == s.outcome
    {
      var raised := MakeDirs(Dirname(path));
      if raised {
        return MakedirsRaised;
      }
      if path !in dirs && path !in files {
        var response := Fetch(http);
        if response.RequestRaised? {
          return DownloadError;
        }
        if response.status != 200 {
          return DownloadRejected(response.status);
        }
        raised := WriteFile(path, response.body, write);
        if raised {
          return DownloadError;
        }
      }
      outcome := Play(path, play);
    }
  }
}
