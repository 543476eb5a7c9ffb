/**
  The simplified relay server (my-rtmp-server/simple-rtmp-server.js): one
  relay to YouTube, skipped while one is referenced, scheduled 3 s after every
  prePublish whatever the path, stopped by every donePublish and by any
  stderr chunk reporting an authentication failure.

  The server exits at start-up without a stream key, so the key is a
  non-empty constant; the scheduled starts not yet fired are counted by
  `pending`.
*/
module SimpleRtmp {
  import opened Wrappers
  import opened Text
  import opened Proc
  import opened Ingest
  import opened SingleSlot

  /** The ffmpeg argument vector of the relay. */
  function RelayArgs(youtubeKey: string): (args: seq<string>)
    ensures |args| == 26
    ensures args[0] == "-i" && args[1] == IngestUrl && args[|args| - 1] == YouTubeBase + youtubeKey
  {
    ["-i", IngestUrl, "-loglevel", "info", "-c:v", "copy", "-c:a", "aac", "-b:a", "128k",
     "-ar", "44100", "-ac", "2", "-f", "flv", "-reconnect", "1", "-reconnect_at_eof", "1",
     "-reconnect_streamed", "1", "-reconnect_delay_max", "5", "-y", YouTubeBase + youtubeKey]
  }

  /** What the stderr handler makes of one trimmed chunk. */
  datatype StderrReport = StderrReport(started: bool, critical: bool)

  /** The four patterns that make the handler stop the relay. */
  predicate Critical(output: string) {
    Contains(output, "403 Forbidden") || Contains(output, "404 Not Found")
    || Contains(output, "Authentication failed") || Contains(output, "Invalid stream key")
  }

  function ClassifyStderr(output: string): (r: StderrReport)
    ensures r.critical <==> Critical(output)
    ensures r.started <==> Contains(output, "Stream mapping:") || (Contains(output, "Opening") && Contains(output, "rtmp://a.rtmp.youtube.com"))
  {
    StderrReport(
      Contains(output, "Stream mapping:") || (Contains(output, "Opening") && Contains(output, "rtmp://a.rtmp.youtube.com")),
      Critical(output))
  }

  /** startYouTubeRelay: skipped while a relay is referenced. */
  function Start(s: Single, youtubeKey: string, outcome: SpawnOutcome): (r: Single)
    ensures s.slot.Some? ==> r == s
    ensures s.slot == None ==> r == Assign(s, RelayArgs(youtubeKey), outcome)
    ensures SlotWellFormed(s) ==> SlotWellFormed(r)
    ensures SlotWellFormed(s) && Supervised(s) ==> Supervised(r)
  {
    if s.slot.Some? then s else Assign(s, RelayArgs(youtubeKey), outcome)
  }

  /** The stderr handler: the relay is stopped exactly when the chunk holds a
      critical pattern. */
  function AfterStderr(s: Single, chunk: string, killThrows: bool): (r: Single)
    ensures Critical(Trim(chunk)) ==> r == Stop(s, SIGTERM, killThrows) && r.slot == None
    ensures !Critical(Trim(chunk)) ==> r == s
  {
    if ClassifyStderr(Trim(chunk)).critical then Stop(s, SIGTERM, killThrows) else s
  }

  class SimpleRtmpServer {
    const youtubeKey: string
    var ffmpegProcess: Option<ProcId>
    var os: OsView<Child>
    /** Scheduled `startYouTubeRelay` calls not yet fired. */
    var pending: nat

    function State(): Single
      reads this
    {
      Single(ffmpegProcess, os)
    }

    ghost predicate Valid()
      reads this
    {
      SlotWellFormed(State())
    }

    ghost predicate NoOrphans()
      reads this
    {
      Supervised(State())
    }

    constructor (youtubeKey: string)
      requires youtubeKey != ""
      ensures Valid() && NoOrphans()
      ensures this.youtubeKey == youtubeKey && State() == Initial() && pending == 0
    {
      this.youtubeKey := youtubeKey;
      ffmpegProcess := None;
      os := Empty();
      pending := 0;
    }

    method StartYouTubeRelay(outcome: SpawnOutcome)
      requires Valid()
      modifies this
      ensures Valid()
      ensures State() == Start(old(State()), youtubeKey, outcome)
      ensures pending == old(pending)
      ensures old(NoOrphans()) ==> NoOrphans()
    {
      if ffmpegProcess.Some? {
        return;
      }
      var args := RelayArgs(youtubeKey);
      if outcome != SpawnThrew {
        ffmpegProcess, os := Some(os.nextPid), Spawn(os, Child(args, outcome == Launched));
      }
    }

    method StopYouTubeRelay(killThrows: bool)
      requires Valid()
      modifies this
      ensures Valid()
      ensures State() == Stop(old(State()), SIGTERM, killThrows)
      ensures pending == old(pending)
      ensures old(NoOrphans()) ==> NoOrphans()
    {
      if ffmpegProcess.Some? {
        var p := ffmpegProcess.value;
        os := Release(os, p, if killThrows then None else Some(SIGTERM));
        ffmpegProcess := None;
      }
    }

    /** A stderr chunk of child `p`; a critical one stops whichever relay the
        slot holds. */
    method OnStderr(p: ProcId, chunk: string, killThrows: bool) returns (report: StderrReport)
      requires Valid() && p in os.live
      modifies this
      ensures Valid()
      ensures report == ClassifyStderr(Trim(chunk))
      ensures State() == AfterStderr(old(State()), chunk, killThrows)
      ensures pending == old(pending)
      ensures old(NoOrphans()) ==> NoOrphans()
    {
      var output := Trim(chunk);
      report := ClassifyStderr(output);
      if Contains(output, "403 Forbidden") || Contains(output, "404 Not Found")
        || Contains(output, "Authentication failed") || Contains(output, "Invalid stream key") {
        StopYouTubeRelay(killThrows);
      }
    }

    /** The close event of child `p`, as written; the exit code is reported
        as a normal exit exactly when it is 0. */
    method OnClose(p: ProcId, code: Option<int>) returns (kind: ExitKind)
      requires Valid() && p in os.live
      modifies this
      ensures Valid()
      ensures kind == NormalExit <==> code == Some(0)
      ensures State() == Exit(old(State()), p)
      ensures pending == old(pending)
    {
      ffmpegProcess, os := None, Exited(os, p);
      kind := ClassifyExit(code);
    }

    /** The error event of child `p`, as written. */
    method OnError(p: ProcId)
      requires Valid() && p in os.live
      modifies this
      ensures Valid()
      ensures State() == Exit(old(State()), p)
      ensures pending == old(pending)
    {
      ffmpegProcess, os := None, Exited(os, p);
    }

    /** The close or error event of child `p`, with the identity test. */
    method OnExitGuarded(p: ProcId)
      requires Valid() && p in os.live
      modifies this
      ensures Valid()
      ensures State() == ExitGuarded(old(State()), p)
      ensures pending == old(pending)
      ensures old(NoOrphans()) ==> NoOrphans()
    {
      if ffmpegProcess == Some(p) {
        ffmpegProcess := None;
      }
      os := Exited(os, p);
    }

    /** prePublish schedules a start for every path. */
    method PrePublish(streamPath: Option<string>)
      modifies this
      ensures pending == old(pending) + 1
      ensures State() == old(State())
    {
      pending := pending + 1;
    }

    method FireStart(outcome: SpawnOutcome)
      requires Valid() && pending > 0
      modifies this
      ensures Valid()
      ensures pending == old(pending) - 1
      ensures State() == Start(old(State()), youtubeKey, outcome)
      ensures old(NoOrphans()) ==> NoOrphans()
    {
      pending := pending - 1;
      StartYouTubeRelay(outcome);
    }

    /** donePublish stops the relay whatever the path. */
    method DonePublish(streamPath: Option<string>, killThrows: bool)
      requires Valid()
      modifies this
      ensures Valid()
      ensures State() == Stop(old(State()), SIGTERM, killThrows)
      ensures pending == old(pending)
      ensures old(NoOrphans()) ==> NoOrphans()
    {
      StopYouTubeRelay(killThrows);
    }
  }

  /** A relay stopped by donePublish that closes only after the next
      publish's relay has started nulls the slot: the newer relay runs with
      nothing referring to it. */
  method StaleCloseOrphansRelay() returns (s: SimpleRtmpServer, orphan: ProcId)
    ensures s.Valid()
    ensures orphan in s.os.live && orphan !in s.os.released && s.ffmpegProcess == None
    ensures !s.NoOrphans()
  {
    s := new SimpleRtmpServer("abcd-1234");
    s.PrePublish(Some(Target));
    s.FireStart(Launched);
    var first := s.ffmpegProcess.value;
    s.DonePublish(Some(Target), false);
    s.PrePublish(Some(Target));
    s.FireStart(Launched);
    orphan := s.ffmpegProcess.value;
    StaleExitOrphans(s.State(), first);
    var _ := s.OnClose(first, None);
  }
}
