/**
  The debugging relay server (my-rtmp-server/debug-simple-server.js): one
  relay to YouTube, skipped while one is referenced, scheduled 3 s after a
  prePublish on exactly the target path (a missing path counts as the
  target), stopped by every donePublish.  Its stderr handler only reports.

  The server exits at start-up without a stream key, so the key is a
  non-empty constant; the scheduled starts not yet fired are counted by
  `pending`.
*/
module DebugSimple {
  import opened Wrappers
  import opened Text
  import opened Proc
  import opened Ingest
  import opened SingleSlot

  /** The ffmpeg argument vector of the relay. */
  function RelayArgs(youtubeKey: string): (args: seq<string>)
    ensures |args| == 24
    ensures args[0] == "-i" && args[1] == IngestUrl && args[|args| - 1] == YouTubeBase + youtubeKey
  {
    ["-i", IngestUrl, "-c:v", "copy", "-c:a", "aac", "-b:a", "128k", "-ar", "44100", "-ac", "2",
     "-f", "flv", "-reconnect", "1", "-reconnect_at_eof", "1", "-reconnect_streamed", "1",
     "-reconnect_delay_max", "5", "-y", YouTubeBase + youtubeKey]
  }

  /** What the stderr handler reports about one trimmed chunk. */
  datatype StderrReport = StderrReport(connected: bool, authError: bool, connectionIssue: bool)

  function ClassifyStderr(output: string): (r: StderrReport)
    ensures r.connected <==> Contains(output, "Stream mapping:") || (Contains(output, "Opening") && Contains(output, "rtmp://a.rtmp.youtube.com"))
    ensures r.authError <==> Contains(output, "403 Forbidden") || Contains(output, "Authentication failed") || Contains(output, "Invalid stream key")
    ensures r.connectionIssue <==> Contains(output, "Connection refused") || Contains(output, "Cannot open connection")
  {
    StderrReport(
      Contains(output, "Stream mapping:") || (Contains(output, "Opening") && Contains(output, "rtmp://a.rtmp.youtube.com")),
      Contains(output, "403 Forbidden") || Contains(output, "Authentication failed") || Contains(output, "Invalid stream key"),
      Contains(output, "Connection refused") || Contains(output, "Cannot open connection"))
  }

  /** `StreamPath || targetPath`: only a missing or empty path is replaced. */
  function ActualPath(streamPath: Option<string>): string {
    if streamPath == None || streamPath == Some("") then Target else streamPath.value
  }

  /** prePublish schedules a start exactly for a missing or empty path and
      for the target path itself; any other spelling, the string
      "undefined" included, schedules nothing. */
  lemma SchedulesExactly(streamPath: Option<string>)
    ensures ActualPath(streamPath) == Target <==> streamPath == None || streamPath == Some("") || streamPath == Some(Target)
    ensures ActualPath(Some("undefined")) != Target
    ensures ActualPath(Some("live/" + StreamName)) != Target
  {
    assert Target[0] == '/';
    assert ("live/" + StreamName)[0] == 'l';
  }

  /** startYouTubeRelay: skipped while a relay is referenced. */
  function Start(s: Single, youtubeKey: string, outcome: SpawnOutcome): (r: Single)
    ensures s.slot.Some? ==> r == s
    ensures s.slot == None ==> r == Assign(s, RelayArgs(youtubeKey), outcome)
    ensures SlotWellFormed(s) ==> SlotWellFormed(r)
    ensures SlotWellFormed(s) && Supervised(s) ==> Supervised(r)
  {
    if s.slot.Some? then s else Assign(s, RelayArgs(youtubeKey), outcome)
  }

  class DebugServer {
    const youtubeKey: string
    var ffmpegProcess: Option<ProcId>
    var os: OsView<Child>
    /** Scheduled `startYouTubeRelay` calls not yet fired. */
    var pending: nat

    function State(): Single
      reads this
    {
      Single(ffmpegProcess, os)
    }

    ghost predicate Valid()
      reads this
    {
      SlotWellFormed(State())
    }

    ghost predicate NoOrphans()
      reads this
    {
      Supervised(State())
    }

    constructor (youtubeKey: string)
      requires youtubeKey != ""
      ensures Valid() && NoOrphans()
      ensures this.youtubeKey == youtubeKey && State() == Initial() && pending == 0
    {
      this.youtubeKey := youtubeKey;
      ffmpegProcess := None;
      os := Empty();
      pending := 0;
    }

    method StartYouTubeRelay(outcome: SpawnOutcome)
      requires Valid()
      modifies this
      ensures Valid()
      ensures State() == Start(old(State()), youtubeKey, outcome)
      ensures pending == old(pending)
      ensures old(NoOrphans()) ==> NoOrphans()
    {
      if ffmpegProcess.Some? {
        return;
      }
      var args := RelayArgs(youtubeKey);
      if outcome != SpawnThrew {
        ffmpegProcess, os := Some(os.nextPid), Spawn(os, Child(args, outcome == Launched));
      }
    }

    method StopYouTubeRelay(killThrows: bool)
      requires Valid()
      modifies this
      ensures Valid()
      ensures State() == Stop(old(State()), SIGTERM, killThrows)
      ensures pending == old(pending)
      ensures old(NoOrphans()) ==> NoOrphans()
    {
      if ffmpegProcess.Some? {
        var p := ffmpegProcess.value;
        os := Release(os, p, if killThrows then None else Some(SIGTERM));
        ffmpegProcess := None;
      }
    }

    /** A stderr chunk of child `p` is only classified and reported. */
    method OnStderr(p: ProcId, chunk: string) returns (report: StderrReport)
      requires p in os.live
      ensures report == ClassifyStderr(Trim(chunk))
    {
      report := ClassifyStderr(Trim(chunk));
    }

    /** The close or error event of child `p`, as written. */
    method OnExit(p: ProcId)
      requires Valid() && p in os.live
      modifies this
      ensures Valid()
      ensures State() == Exit(old(State()), p)
      ensures pending == old(pending)
    {
      ffmpegProcess, os := None, Exited(os, p);
    }

    /** The close or error event of child `p`, with the identity test. */
    method OnExitGuarded(p: ProcId)
      requires Valid() && p in os.live
      modifies this
      ensures Valid()
      ensures State() == ExitGuarded(old(State()), p)
      ensures pending == old(pending)
      ensures old(NoOrphans()) ==> NoOrphans()
    {
      if ffmpegProcess == Some(p) {
        ffmpegProcess := None;
      }
      os := Exited(os, p);
    }

    /** prePublish: a start is scheduled only for the exact target path. */
    method PrePublish(streamPath: Option<string>) returns (scheduled: bool)
      modifies this
      ensures scheduled <==> ActualPath(streamPath) == Target
      ensures pending == old(pending) + (if scheduled then 1 else 0)
      ensures State() == old(State())
    {
      var actualPath := if streamPath == None || streamPath == Some("") then Target else streamPath.value;
      scheduled := actualPath == Target;
      if scheduled {
        pending := pending + 1;
      }
    }

    method FireStart(outcome: SpawnOutcome)
      requires Valid() && pending > 0
      modifies this
      ensures Valid()
      ensures pending == old(pending) - 1
      ensures State() == Start(old(State()), youtubeKey, outcome)
      ensures old(NoOrphans()) ==> NoOrphans()
    {
      pending := pending - 1;
      StartYouTubeRelay(outcome);
    }

    /** donePublish stops the relay whatever the path. */
    method DonePublish(streamPath: Option<string>, killThrows: bool)
      requires Valid()
      modifies this
      ensures Valid()
      ensures State() == Stop(old(State()), SIGTERM, killThrows)
      ensures pending == old(pending)
      ensures old(NoOrphans()) ==> NoOrphans()
    {
      StopYouTubeRelay(killThrows);
    }
  }

  /** A relay stopped by donePublish that closes only after the next
      publish's relay has started nulls the slot: the newer relay runs with
      nothing referring to it. */
  method StaleCloseOrphansRelay() returns (s: DebugServer, orphan: ProcId)
    ensures s.Valid()
    ensures orphan in s.os.live && orphan !in s.os.released && s.ffmpegProcess == None
    ensures !s.NoOrphans()
  {
    s := new DebugServer("abcd-1234");
    var _ := s.PrePublish(None);
    s.FireStart(Launched);
    var first := s.ffmpegProcess.value;
    s.DonePublish(None, false);
    var _ := s.PrePublish(None);
    s.FireStart(Launched);
    orphan := s.ffmpegProcess.value;
    StaleExitOrphans(s.State(), first);
    s.OnExit(first);
  }
}
