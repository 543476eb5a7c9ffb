/**
  The minimal relay (my-rtmp-server/simple-server.js): ffmpeg itself listens
  for the encoder and pushes to YouTube.  Two globals, `ffmpegProcess` and
  `isStreamActive`, are updated together; starting while a relay is
  referenced stops it first (with SIGINT), and a stop whose kill throws
  changes nothing.  The relay is started once when the script loads.

  The script exits at start-up without a stream key, so the key is a
  non-empty constant.
*/
module SimpleServer {
  import opened Wrappers
  import opened Proc
  import opened Ingest
  import opened SingleSlot

  /** The ffmpeg argument vector: listen on the ingest URL, push to YouTube. */
  function RelayArgs(youtubeKey: string): (args: seq<string>)
    ensures |args| == 17
    ensures args[4] == "-i" && args[5] == IngestUrl && args[|args| - 1] == YouTubeBase + youtubeKey
  {
    ["-f", "flv", "-listen", "1", "-i", IngestUrl, "-c:v", "copy", "-c:a", "aac", "-b:a", "128k",
     "-ar", "44100", "-f", "flv", YouTubeBase + youtubeKey]
  }

  /** The two globals and the children spawned so far. */
  datatype Globals = Globals(ffmpegProcess: Option<ProcId>, isStreamActive: bool, os: OsView<Child>)

  function Core(g: Globals): Single {
    Single(g.ffmpegProcess, g.os)
  }

  /** The flag says whether a relay is referenced. */
  predicate InStep(g: Globals) {
    g.isStreamActive <==> g.ffmpegProcess.Some?
  }

  /** stopYouTubeRelay: SIGINT and reset both globals; if the kill throws,
      nothing changes. */
  function StopRelay(g: Globals, killThrows: bool): (r: Globals)
    ensures InStep(g) ==> InStep(r)
    ensures SlotWellFormed(Core(g)) ==> SlotWellFormed(Core(r))
    ensures Supervised(Core(g)) ==> Supervised(Core(r))
    ensures g.ffmpegProcess.Some? && !killThrows ==>
      r.ffmpegProcess == None && !r.isStreamActive && r.os.signals == g.os.signals + [SignalSent(g.ffmpegProcess.value, SIGINT)]
    ensures g.ffmpegProcess == None || killThrows ==> r == g
  {
    match g.ffmpegProcess
    case None => g
    case Some(p) =>
      if killThrows then g else Globals(None, false, Release(g.os, p, Some(SIGINT)))
  }

  /** startYouTubeRelay: stop the referenced relay, then spawn; a spawn that
      throws leaves both globals as the stop left them. */
  function Start(g: Globals, youtubeKey: string, stopThrows: bool, outcome: SpawnOutcome): (r: Globals)
    ensures InStep(g) ==> InStep(r)
    ensures SlotWellFormed(Core(g)) ==> SlotWellFormed(Core(r))
    ensures outcome != SpawnThrew ==> r.ffmpegProcess == Some(g.os.nextPid) && r.isStreamActive
    ensures outcome != SpawnThrew ==> r.os.spawned == g.os.spawned[g.os.nextPid := Child(RelayArgs(youtubeKey), outcome == Launched)]
    ensures g.ffmpegProcess.Some? && !stopThrows ==>
      r.os.released == g.os.released + {g.ffmpegProcess.value}
      && r.os.signals == g.os.signals + [SignalSent(g.ffmpegProcess.value, SIGINT)]
    ensures g.ffmpegProcess.Some? && stopThrows ==> r.os.released == g.os.released && r.os.signals == g.os.signals
    ensures g.ffmpegProcess == None ==> r.os.released == g.os.released && r.os.signals == g.os.signals
    ensures outcome == SpawnThrew && g.ffmpegProcess.Some? && !stopThrows ==> r.ffmpegProcess == None && !r.isStreamActive
    ensures outcome == SpawnThrew && (g.ffmpegProcess == None || stopThrows) ==> r == g
  {
    var h := if g.ffmpegProcess.Some? then StopRelay(g, stopThrows) else g;
    if outcome == SpawnThrew then h
    else Globals(Some(h.os.nextPid), true, Spawn(h.os, Child(RelayArgs(youtubeKey), outcome == Launched)))
  }

  /** A restart whose stop succeeds keeps every child supervised. */
  lemma RestartSupervises(g: Globals, youtubeKey: string, stopThrows: bool, outcome: SpawnOutcome)
    requires SlotWellFormed(Core(g)) && Supervised(Core(g))
    requires g.ffmpegProcess == None || !stopThrows
    ensures Supervised(Core(Start(g, youtubeKey, stopThrows, outcome)))
  {
    var h := if g.ffmpegProcess.Some? then StopRelay(g, stopThrows) else g;
    assert Core(Start(g, youtubeKey, stopThrows, outcome)) == Assign(Core(h), RelayArgs(youtubeKey), outcome);
  }

  /** A restart whose stop throws overwrites the reference to the old relay,
      which keeps running with nothing referring to it.  The script starts
      the relay only once, at load, so this restart path is latent. */
  lemma RestartOverUnkillableOrphans(g: Globals, youtubeKey: string, outcome: SpawnOutcome)
    requires SlotWellFormed(Core(g)) && g.ffmpegProcess.Some? && g.ffmpegProcess.value in g.os.live
    requires outcome != SpawnThrew
    ensures !Supervised(Core(Start(g, youtubeKey, true, outcome)))
  {
    assert Core(Start(g, youtubeKey, true, outcome)) == Assign(Core(g), RelayArgs(youtubeKey), outcome);
    AssignOverOccupiedOrphans(Core(g), RelayArgs(youtubeKey), outcome);
  }

  /** The close and error handlers: both globals reset, whichever child the
      slot holds by then. */
  function ExitRelay(g: Globals, p: ProcId): (r: Globals)
    ensures InStep(r)
    ensures Core(r) == SingleSlot.Exit(Core(g), p)
  {
    Globals(None, false, Exited(g.os, p))
  }

  /** A restart followed by the old child's close: the new relay runs,
      while the slot is empty and the flag says no stream is active.  The
      script starts the relay only once, at load, so no run of it reaches
      this restart: the defect is latent. */
  lemma StaleExitAfterRestart(g: Globals, youtubeKey: string)
    requires InStep(g) && SlotWellFormed(Core(g)) && Supervised(Core(g)) && g.ffmpegProcess.Some?
    ensures var p := g.ffmpegProcess.value;
      var h := Start(g, youtubeKey, false, Launched);
      var r := ExitRelay(h, p);
      && h.ffmpegProcess.value in r.os.live && !r.isStreamActive && r.ffmpegProcess == None
      && !Supervised(Core(r))
      && Supervised(Core(ExitRelayGuarded(h, p)))
  {
    var p := g.ffmpegProcess.value;
    var h := Start(g, youtubeKey, false, Launched);
    assert h.ffmpegProcess.value != p;
    RestartSupervises(g, youtubeKey, false, Launched);
    StaleExitOrphans(Core(h), p);
  }

  /** The close and error handlers with an identity test. */
  function ExitRelayGuarded(g: Globals, p: ProcId): (r: Globals)
    ensures InStep(g) ==> InStep(r)
    ensures Core(r) == SingleSlot.ExitGuarded(Core(g), p)
  {
    if g.ffmpegProcess == Some(p) then Globals(None, false, Exited(g.os, p))
    else Globals(g.ffmpegProcess, g.isStreamActive, Exited(g.os, p))
  }

  class SimpleRelay {
    const youtubeKey: string
    var ffmpegProcess: Option<ProcId>
    var isStreamActive: bool
    var os: OsView<Child>

    function State(): Globals
      reads this
    {
      Globals(ffmpegProcess, isStreamActive, os)
    }

    /** The slot bookkeeping holds and the flag is in step with the slot. */
    ghost predicate Valid()
      reads this
    {
      SlotWellFormed(Core(State())) && InStep(State())
    }

    ghost predicate NoOrphans()
      reads this
    {
      Supervised(Core(State()))
    }

    /** Loading the script: the globals start empty and the relay is started
        once. */
    constructor (youtubeKey: string, outcome: SpawnOutcome)
      requires youtubeKey != ""
      ensures Valid() && NoOrphans()
      ensures this.youtubeKey == youtubeKey
      ensures State() == Start(Globals(None, false, Empty()), youtubeKey, false, outcome)
    {
      this.youtubeKey := youtubeKey;
      ffmpegProcess, isStreamActive, os := None, false, Empty();
      new;
      StartYouTubeRelay(false, outcome);
    }

    method StartYouTubeRelay(stopThrows: bool, outcome: SpawnOutcome)
      requires Valid()
      modifies this
      ensures Valid()
      ensures State() == Start(old(State()), youtubeKey, stopThrows, outcome)
      ensures old(NoOrphans()) && (old(ffmpegProcess) == None || !stopThrows) ==> NoOrphans()
    {
      if old(NoOrphans()) && (ffmpegProcess == None || !stopThrows) {
        RestartSupervises(State(), youtubeKey, stopThrows, outcome);
      }
      if ffmpegProcess.Some? {
        StopYouTubeRelay(stopThrows);
      }
      var args := RelayArgs(youtubeKey);
      if outcome != SpawnThrew {
        ffmpegProcess, os := Some(os.nextPid), Spawn(os, Child(args, outcome == Launched));
        isStreamActive := true;
      }
    }

    method StopYouTubeRelay(killThrows: bool)
      requires Valid()
      modifies this
      ensures Valid()
      ensures State() == StopRelay(old(State()), killThrows)
      ensures old(NoOrphans()) ==> NoOrphans()
    {
      if ffmpegProcess.Some? {
        if !killThrows {
          var p := ffmpegProcess.value;
          os := Release(os, p, Some(SIGINT));
          ffmpegProcess := None;
          isStreamActive := false;
        }
      }
    }

    /** The close or error event of child `p`, as written. */
    method OnExit(p: ProcId)
      requires Valid() && p in os.live
      modifies this
      ensures Valid()
      ensures State() == ExitRelay(old(State()), p)
    {
      ffmpegProcess := None;
      isStreamActive := false;
      os := Exited(os, p);
    }

    /** The close or error event of child `p`, with the identity test. */
    method OnExitGuarded(p: ProcId)
      requires Valid() && p in os.live
      modifies this
      ensures Valid()
      ensures State() == ExitRelayGuarded(old(State()), p)
      ensures old(NoOrphans()) ==> NoOrphans()
    {
      if ffmpegProcess == Some(p) {
        ffmpegProcess := None;
        isStreamActive := false;
      }
      os := Exited(os, p);
    }
  }
}
