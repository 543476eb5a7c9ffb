/**
  The relay server for the React app (my-rtmp-server/react-to-youtube-server.js):
  one relay to YouTube, started at most once at a time, scheduled by every
  prePublish (after 2 s for a recognised path, after 5 s otherwise), stopped
  by every donePublish, plus a 30 s fallback start that the first prePublish
  cancels.  ffmpeg's authentication errors are reported, never acted on.

  The server exits at start-up without a stream key, so the key is a
  non-empty constant.  Each pending `setTimeout` is an element of `pending`
  (its delay) that the environment fires with `FireStart`.
*/
module ReactRelay {
  import opened Wrappers
  import opened Text
  import opened Proc
  import opened Ingest
  import opened SingleSlot

  /** The ffmpeg argument vector of the relay. */
  function RelayArgs(youtubeKey: string): (args: seq<string>)
    ensures |args| == 16
    ensures args[0] == "-i" && args[1] == IngestUrl && args[|args| - 1] == YouTubeBase + youtubeKey
  {
    ["-i", IngestUrl, "-c:v", "copy", "-c:a", "aac", "-b:a", "128k", "-ar", "44100", "-ac", "2",
     "-f", "flv", "-y", YouTubeBase + youtubeKey]
  }

  /** What the stderr handler makes of one trimmed chunk: whether it is
      echoed, whether it reports the connection, whether it reports an
      authentication error.  The tests are independent. */
  datatype StderrReport = StderrReport(shown: bool, connected: bool, authError: bool)

  function ClassifyStderr(output: string): (r: StderrReport)
    ensures r.connected ==> r.shown
    ensures r.authError <==> Contains(output, "403 Forbidden") || Contains(output, "Authentication failed") || Contains(output, "Invalid stream key")
  {
    StderrReport(
      Contains(output, "Stream mapping:") || Contains(output, "Opening") || Contains(output, "frame=")
        || Contains(output, "fps=") || Contains(output, "error") || Contains(output, "Error"),
      Contains(output, "Stream mapping:"),
      Contains(output, "403 Forbidden") || Contains(output, "Authentication failed") || Contains(output, "Invalid stream key"))
  }

  /** The path test of the prePublish handler. */
  predicate IsTargetStream(streamPath: Option<string>) {
    PathUndefined(streamPath) || IsTargetPath(streamPath.value)
  }

  /** The delay of the start a prePublish on `streamPath` schedules. */
  function StartDelay(streamPath: Option<string>): nat {
    if IsTargetStream(streamPath) then 2000 else 5000
  }

  /** Every prePublish schedules a start; the short delay goes exactly to a
      missing path and to paths ending in "my-stream-key". */
  lemma StartDelayMeaning(streamPath: Option<string>)
    ensures StartDelay(streamPath) == 2000 <==> PathUndefined(streamPath) || EndsWith(streamPath.value, StreamName)
    ensures StartDelay(streamPath) in {2000, 5000}
  {
    if !PathUndefined(streamPath) {
      TargetPathIffSuffix(streamPath.value);
    }
  }

  /** startYouTubeRelay: a no-op while a relay is referenced. */
  function Start(s: Single, youtubeKey: string, outcome: SpawnOutcome): (r: Single)
    ensures s.slot.Some? ==> r == s
    ensures s.slot == None ==> r == Assign(s, RelayArgs(youtubeKey), outcome)
    ensures SlotWellFormed(s) ==> SlotWellFormed(r)
    ensures SlotWellFormed(s) && Supervised(s) ==> Supervised(r)
  {
    if s.slot.Some? then s else Assign(s, RelayArgs(youtubeKey), outcome)
  }

  /** Starting twice in a row is starting once. */
  lemma StartIdempotent(s: Single, youtubeKey: string, outcome: SpawnOutcome, again: SpawnOutcome)
    requires outcome != SpawnThrew
    ensures Start(Start(s, youtubeKey, outcome), youtubeKey, again) == Start(s, youtubeKey, outcome)
  {
  }

  class ReactServer {
    const youtubeKey: string
    var ffmpegProcess: Option<ProcId>
    var os: OsView<Child>
    /** Delays of the scheduled `startYouTubeRelay` calls not yet fired. */
    var pending: multiset<nat>
    /** The 30 s fallback has neither fired nor been cleared. */
    var fallbackArmed: bool
    /** `noStreamTimer` still holds the fallback's handle. */
    var noStreamTimer: bool

    function State(): Single
      reads this
    {
      Single(ffmpegProcess, os)
    }

    /** The slot bookkeeping holds, and the fallback can fire only while
        its handle is kept. */
    ghost predicate Valid()
      reads this
    {
      SlotWellFormed(State()) && (fallbackArmed ==> noStreamTimer)
    }

    ghost predicate NoOrphans()
      reads this
    {
      Supervised(State())
    }

    constructor (youtubeKey: string)
      requires youtubeKey != ""
      ensures Valid() && NoOrphans()
      ensures this.youtubeKey == youtubeKey && State() == Initial()
      ensures pending == multiset{} && fallbackArmed && noStreamTimer
    {
      this.youtubeKey := youtubeKey;
      ffmpegProcess := None;
      os := Empty();
      pending := multiset{};
      fallbackArmed := true;
      noStreamTimer := true;
    }

    method StartYouTubeRelay(outcome: SpawnOutcome)
      requires Valid()
      modifies this
      ensures Valid()
      ensures State() == Start(old(State()), youtubeKey, outcome)
      ensures pending == old(pending) && fallbackArmed == old(fallbackArmed) && noStreamTimer == old(noStreamTimer)
      ensures old(NoOrphans()) ==> NoOrphans()
    {
      if ffmpegProcess.Some? {
        return;
      }
      var args := RelayArgs(youtubeKey);
      if outcome != SpawnThrew {
        ffmpegProcess, os := Some(os.nextPid), Spawn(os, Child(args, outcome == Launched));
      }
    }

    method StopYouTubeRelay(killThrows: bool)
      requires Valid()
      modifies this
      ensures Valid()
      ensures State() == Stop(old(State()), SIGTERM, killThrows)
      ensures pending == old(pending) && fallbackArmed == old(fallbackArmed) && noStreamTimer == old(noStreamTimer)
      ensures old(NoOrphans()) ==> NoOrphans()
    {
      if ffmpegProcess.Some? {
        var p := ffmpegProcess.value;
        os := Release(os, p, if killThrows then None else Some(SIGTERM));
        ffmpegProcess := None;
      }
    }

    /** A stderr chunk of child `p` is only classified and reported. */
    method OnStderr(p: ProcId, chunk: string) returns (report: StderrReport)
      requires p in os.live
      ensures report == ClassifyStderr(Trim(chunk))
    {
      report := ClassifyStderr(Trim(chunk));
    }

    /** The close or error event of child `p`, as written. */
    method OnExit(p: ProcId)
      requires Valid() && p in os.live
      modifies this
      ensures Valid()
      ensures State() == Exit(old(State()), p)
      ensures pending == old(pending) && fallbackArmed == old(fallbackArmed) && noStreamTimer == old(noStreamTimer)
    {
      ffmpegProcess, os := None, Exited(os, p);
    }

    /** The close or error event of child `p`, with the identity test. */
    method OnExitGuarded(p: ProcId)
      requires Valid() && p in os.live
      modifies this
      ensures Valid()
      ensures State() == ExitGuarded(old(State()), p)
      ensures pending == old(pending) && fallbackArmed == old(fallbackArmed) && noStreamTimer == old(noStreamTimer)
      ensures old(NoOrphans()) ==> NoOrphans()
    {
      if ffmpegProcess == Some(p) {
        ffmpegProcess := None;
      }
      os := Exited(os, p);
    }

    /** Both prePublish listeners: the path test schedules one start, and the
        fallback timer is cleared. */
    method PrePublish(streamPath: Option<string>)
      requires Valid()
      modifies this
      ensures Valid()
      ensures pending == old(pending) + multiset{StartDelay(streamPath)}
      ensures !fallbackArmed && !noStreamTimer
      ensures State() == old(State())
    {
      var isTargetStream := false;
      if PathUndefined(streamPath) {
        isTargetStream := true;
      } else {
        isTargetStream := MatchTarget(streamPath.value);
      }
      if isTargetStream {
        pending := pending + multiset{2000};
      } else {
        pending := pending + multiset{5000};
      }
      if noStreamTimer {
        fallbackArmed, noStreamTimer := false, false;
      }
    }

    /** A scheduled start fires. */
    method FireStart(delay: nat, outcome: SpawnOutcome)
      requires Valid() && delay in pending
      modifies this
      ensures Valid()
      ensures pending == old(pending) - multiset{delay}
      ensures State() == Start(old(State()), youtubeKey, outcome)
      ensures old(NoOrphans()) ==> NoOrphans()
    {
      pending := pending - multiset{delay};
      StartYouTubeRelay(outcome);
    }

    /** The 30 s fallback fires: a relay is started only if none is
        referenced. */
    method FireFallback(outcome: SpawnOutcome)
      requires Valid() && fallbackArmed
      modifies this
      ensures Valid()
      ensures !fallbackArmed && pending == old(pending)
      ensures State() == Start(old(State()), youtubeKey, outcome)
      ensures old(NoOrphans()) ==> NoOrphans()
    {
      fallbackArmed := false;
      if ffmpegProcess == None {
        StartYouTubeRelay(outcome);
      }
    }

    method DonePublish(killThrows: bool)
      requires Valid()
      modifies this
      ensures Valid()
      ensures State() == Stop(old(State()), SIGTERM, killThrows)
      ensures pending == old(pending)
      ensures old(NoOrphans()) ==> NoOrphans()
    {
      StopYouTubeRelay(killThrows);
    }
  }

  /** A publish that ends and restarts before the first relay has exited:
      the old relay's close nulls the slot, the next start spawns a third
      relay, and two relays run at once, one of them unsupervised. */
  method TwoRelaysAfterStaleClose() returns (s: ReactServer, older: ProcId, newer: ProcId)
    ensures s.Valid()
    ensures older != newer && older in s.os.live && newer in s.os.live
    ensures older !in s.os.released && !s.NoOrphans()
  {
    s := new ReactServer("abcd-1234");
    assert MatchesVariant(Target, TargetPaths[0]);
    s.PrePublish(Some(Target));
    s.FireStart(2000, Launched);
    var first := s.ffmpegProcess.value;
    s.DonePublish(false);
    s.PrePublish(Some(Target));
    s.FireStart(2000, Launched);
    older := s.ffmpegProcess.value;
    StaleExitOrphans(s.State(), first);
    s.OnExit(first);
    s.PrePublish(Some(Target));
    s.FireStart(2000, Launched);
    newer := s.ffmpegProcess.value;
  }
}
