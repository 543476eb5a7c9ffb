/**
  The YouTube relay with a health monitor (my-rtmp-server/server.js).

  One global slot `ffmpegProcess` holds the current ffmpeg child.  Every
  child owns the closure variables `lastFrameTime` and `hasReceivedFrames`
  and a 20 s frame-check interval; its stderr chunks are classified and
  one carrying an authentication or connection failure stops the relay;
  `stopYouTubeRelay` sends SIGTERM, nulls the slot at once and schedules a
  SIGKILL 3 s later.  prePublish on the target path schedules a start after
  3 s, postPublish starts at once, a one-shot auto-trigger after 15 s and a
  10 s polling interval start a relay when a publishing session exists, and
  donePublish on the target path stops the relay and clears the polling.

  `Date.now()` is the `now` parameter of each event; every timer is an
  explicit step the environment takes.  The stream key
  (`process.env.YOUTUBE_STREAM_KEY`) is a constant that may be missing.

  The close/error handlers, the stop calls of the stderr handler and of the
  frame check, and the deferred SIGKILL all act on the global slot rather
  than on their own child.  Each is modelled as written, next to a version
  that acts on its own child only.
*/
module HealthRelay {
  import opened Wrappers
  import opened Text
  import opened Proc
  import opened Ingest
  import opened SingleSlot

  const FrameTimeoutMs: int := 120000
  const StartupTimeoutMs: int := 300000

  /** `youtubeKey` is truthy. */
  predicate KeySet(key: Option<string>) {
    key.Some? && key.value != ""
  }

  /** The encoder, muxer and reconnection options between input and
      output. */
  const RelayOptions: seq<string> :=
    ["-loglevel", "info", "-fps_mode", "cfr", "-async", "1",
     "-c:v", "copy", "-c:a", "aac", "-b:a", "128k", "-ar", "44100", "-ac", "2",
     "-avoid_negative_ts", "make_zero", "-fflags", "+genpts+igndts", "-max_muxing_queue_size", "4096",
     "-reconnect", "1", "-reconnect_at_eof", "1", "-reconnect_streamed", "1", "-reconnect_delay_max", "5",
     "-timeout", "30000000", "-bufsize", "8000k", "-maxrate", "8000k", "-rtmp_live", "live", "-y"]

  /** The ffmpeg argument vector of the relay. */
  function RelayArgs(youtubeKey: string): (args: seq<string>)
    ensures |args| == 44
    ensures args[0] == "-i" && args[1] == IngestUrl
    ensures args[41] == "-f" && args[42] == "flv" && args[43] == YouTubeBase + youtubeKey
  {
    assert |RelayOptions| == 39;
    ["-i", IngestUrl] + RelayOptions + ["-f", "flv", YouTubeBase + youtubeKey]
  }

  // ---------------------------------------------------------------------
  // The stderr classifier and the frame check.

  /** The eight patterns after which the stderr handler stops the relay. */
  predicate Critical(output: string) {
    || Contains(output, "Server returned 403") || Contains(output, "Server returned 404")
    || Contains(output, "Authentication failed") || Contains(output, "Invalid stream key")
    || Contains(output, "403 Forbidden") || Contains(output, "Error number -10049")
    || Contains(output, "Cannot open connection") || Contains(output, "Unauthorized")
  }

  /** The messages reported as a successful start. */
  predicate Success(output: string) {
    || Contains(output, "Stream publish started")
    || (Contains(output, "Opening") && Contains(output, "rtmp://a.rtmp.youtube.com"))
    || Contains(output, "Stream mapping:")
  }

  /** The four connection problems that are only reported, ffmpeg being left
      to retry. */
  predicate Transient(output: string) {
    || Contains(output, "Connection refused") || Contains(output, "Connection timed out")
    || Contains(output, "I/O error") || Contains(output, "Resource temporarily unavailable")
  }

  /** The four independent tests the stderr handler makes on one chunk; one
      chunk may pass several. */
  datatype ChunkClass = ChunkClass(frame: bool, critical: bool, success: bool, transient: bool)

  function ClassifyChunk(output: string): (c: ChunkClass)
    ensures c.frame <==> Contains(output, "frame=")
    ensures c.critical <==> Critical(output)
    ensures c.success <==> Success(output)
    ensures c.transient <==> Transient(output)
  {
    ChunkClass(Contains(output, "frame="), Critical(output), Success(output), Transient(output))
  }

  /** What one frame-check tick decides. */
  datatype TickVerdict = Healthy | Waiting | FrameTimeout | StartupTimeout

  predicate StopsRelay(v: TickVerdict) {
    v == FrameTimeout || v == StartupTimeout
  }

  /** The tick's two independent tests; at most one can hold, since they
      disagree on `hasReceivedFrames`. */
  function Tick(now: int, lastFrameTime: int, hasReceivedFrames: bool): (v: TickVerdict)
    ensures StopsRelay(v) <==>
      (hasReceivedFrames && now - lastFrameTime > FrameTimeoutMs) || (!hasReceivedFrames && now - lastFrameTime > StartupTimeoutMs)
    ensures v == FrameTimeout ==> hasReceivedFrames
    ensures v == StartupTimeout || v == Waiting ==> !hasReceivedFrames
  {
    var elapsed := now - lastFrameTime;
    if hasReceivedFrames && elapsed > FrameTimeoutMs then FrameTimeout
    else if !hasReceivedFrames && elapsed > StartupTimeoutMs then StartupTimeout
    else if !hasReceivedFrames then Waiting
    else Healthy
  }

  /** The thresholds are strict: a relay that never produced a frame gets
      exactly 300 s from its spawn, one that did gets exactly 120 s from its
      last frame. */
  lemma TickBoundaries(spawnTime: int, lastFrame: int)
    ensures !StopsRelay(Tick(spawnTime + StartupTimeoutMs, spawnTime, false))
    ensures StopsRelay(Tick(spawnTime + StartupTimeoutMs + 1, spawnTime, false))
    ensures !StopsRelay(Tick(lastFrame + FrameTimeoutMs, lastFrame, true))
    ensures StopsRelay(Tick(lastFrame + FrameTimeoutMs + 1, lastFrame, true))
  {
  }

  // ---------------------------------------------------------------------
  // The state and its operations.

  /** The closure variables of one child and whether its frame check still
      runs. */
  datatype Monitor = Monitor(lastFrameTime: int, hasReceivedFrames: bool, ticking: bool)

  /** The slot and the children; the closures of every child spawned; the
      children whose stop scheduled a SIGKILL that has not fired yet; the
      scheduled starts; whether the polling interval runs. */
  datatype Relay = Relay(core: Single, monitors: map<ProcId, Monitor>, kills: multiset<ProcId>, starts: nat, polling: bool)

  /** The slot bookkeeping holds, every spawned child has its closure, and a
      pending SIGKILL belongs to a child that was sent SIGTERM. */
  ghost predicate RelayWellFormed(r: Relay) {
    && SlotWellFormed(r.core)
    && (forall p :: p in r.monitors <==> p in r.core.os.spawned)
    && (forall p | p in r.kills :: SignalSent(p, SIGTERM) in r.core.os.signals)
  }

  function InitialRelay(polling: bool): (r: Relay)
    ensures RelayWellFormed(r) && Supervised(r.core)
  {
    Relay(SingleSlot.Initial(), map[], multiset{}, 0, polling)
  }

  /** stopYouTubeRelay: the slot is emptied even if the kill throws; a
      successful SIGTERM schedules the deferred SIGKILL. */
  function StopRelay(r: Relay, killThrows: bool): (r': Relay)
    ensures r'.core == Stop(r.core, SIGTERM, killThrows) && r'.core.slot == None
    ensures r'.kills == r.kills + (if r.core.slot.Some? && !killThrows then multiset{r.core.slot.value} else multiset{})
    ensures r'.monitors == r.monitors && r'.starts == r.starts && r'.polling == r.polling
    ensures RelayWellFormed(r) ==> RelayWellFormed(r')
    ensures Supervised(r.core) ==> Supervised(r'.core)
  {
    match r.core.slot
    case None => r
    case Some(p) =>
      r.(core := Stop(r.core, SIGTERM, killThrows), kills := if killThrows then r.kills else r.kills + multiset{p})
  }

  /** startYouTubeRelay: without a key nothing happens; a referenced relay is
      stopped first, so a start is a restart; a new child starts with no
      frames seen, its last frame time its spawn time, its frame check
      running. */
  function StartRelay(r: Relay, key: Option<string>, outcome: SpawnOutcome, now: int, stopThrows: bool): (r': Relay)
    requires RelayWellFormed(r)
    ensures RelayWellFormed(r')
    ensures !KeySet(key) ==> r' == r
    ensures KeySet(key) && outcome != SpawnThrew ==>
      && r'.core.slot == Some(r.core.os.nextPid) && r.core.os.nextPid !in r.core.os.spawned
      && r'.core.os.spawned[r.core.os.nextPid] == Child(RelayArgs(key.value), outcome == Launched)
      && r'.monitors[r.core.os.nextPid] == Monitor(now, false, true)
    ensures KeySet(key) && outcome == SpawnThrew ==> r'.core.slot == None
    ensures KeySet(key) && r.core.slot.Some? ==> r.core.slot.value in r'.core.os.released
    ensures KeySet(key) && r.core.slot.Some? && !stopThrows ==>
      r.core.slot.value in r'.kills && SignalSent(r.core.slot.value, SIGTERM) in r'.core.os.signals
    ensures Supervised(r.core) ==> Supervised(r'.core)
  {
    if !KeySet(key) then r
    else
      var s := StopRelay(r, stopThrows);
      if outcome == SpawnThrew then s
      else s.(core := Assign(s.core, RelayArgs(key.value), outcome),
              monitors := s.monitors[s.core.os.nextPid := Monitor(now, false, true)])
  }

  /** The stdout handler of child `p`. */
  function AfterStdout(r: Relay, p: ProcId, now: int): (r': Relay)
    requires p in r.monitors
    ensures r'.monitors == r.monitors[p := r.monitors[p].(lastFrameTime := now, hasReceivedFrames := true)]
    ensures r'.core == r.core && r'.kills == r.kills
    ensures RelayWellFormed(r) ==> RelayWellFormed(r')
  {
    r.(monitors := r.monitors[p := r.monitors[p].(lastFrameTime := now, hasReceivedFrames := true)])
  }

  /** The closure update a stderr chunk of child `p` makes. */
  function SeeChunk(r: Relay, p: ProcId, output: string, now: int): (r': Relay)
    requires p in r.monitors
    ensures r'.core == r.core && r'.kills == r.kills && r'.monitors.Keys == r.monitors.Keys
    ensures Contains(output, "frame=") ==> r'.monitors[p] == r.monitors[p].(lastFrameTime := now, hasReceivedFrames := true)
    ensures !Contains(output, "frame=") ==> r' == r
    ensures forall q | q in r.monitors && q != p :: r'.monitors[q] == r.monitors[q]
  {
    if Contains(output, "frame=") then r.(monitors := r.monitors[p := r.monitors[p].(lastFrameTime := now, hasReceivedFrames := true)])
    else r
  }

  /** The stderr handler of child `p` as written: a critical chunk stops
      whichever relay the slot holds. */
  function AfterStderr(r: Relay, p: ProcId, output: string, now: int, killThrows: bool): (r': Relay)
    requires p in r.monitors
    ensures Critical(output) ==> r' == StopRelay(SeeChunk(r, p, output, now), killThrows)
    ensures !Critical(output) ==> r' == SeeChunk(r, p, output, now)
    ensures RelayWellFormed(r) ==> RelayWellFormed(r')
  {
    var s := SeeChunk(r, p, output, now);
    if ClassifyChunk(output).critical then StopRelay(s, killThrows) else s
  }

  /** The stderr handler that stops only its own child. */
  function AfterStderrGuarded(r: Relay, p: ProcId, output: string, now: int, killThrows: bool): (r': Relay)
    requires p in r.monitors
    ensures Critical(output) && r.core.slot == Some(p) ==> r' == StopRelay(SeeChunk(r, p, output, now), killThrows)
    ensures !(Critical(output) && r.core.slot == Some(p)) ==> r' == SeeChunk(r, p, output, now)
    ensures r'.core.os.released <= r.core.os.released + {p}
    ensures RelayWellFormed(r) ==> RelayWellFormed(r')
  {
    var s := SeeChunk(r, p, output, now);
    if ClassifyChunk(output).critical && r.core.slot == Some(p) then StopRelay(s, killThrows) else s
  }

  /** A chunk that passes none of the critical tests never touches the slot,
      whatever transient problem it reports. */
  lemma TransientOnlyReports(r: Relay, p: ProcId, output: string, now: int, killThrows: bool)
    requires p in r.monitors && !Critical(output)
    ensures AfterStderr(r, p, output, now, killThrows).core == r.core
    ensures AfterStderr(r, p, output, now, killThrows).kills == r.kills
  {
  }

  /** A critical chunk from an older child, arriving while a newer child is
      in the slot, stops the newer child. */
  lemma StaleChunkStopsNewerRelay(r: Relay, p: ProcId, output: string, now: int, killThrows: bool)
    requires RelayWellFormed(r) && p in r.monitors && Critical(output)
    requires r.core.slot.Some? && r.core.slot.value != p
    ensures var q := r.core.slot.value;
      q in AfterStderr(r, p, output, now, killThrows).core.os.released && q !in r.core.os.released
    ensures AfterStderr(r, p, output, now, killThrows).core.slot == None
  {
  }

  /** One frame-check tick of child `p` as written: on a timeout its own
      interval is cleared and whichever relay the slot holds is stopped. */
  function AfterTick(r: Relay, p: ProcId, now: int, killThrows: bool): (r': Relay)
    requires p in r.monitors
    ensures var m := r.monitors[p];
      StopsRelay(Tick(now, m.lastFrameTime, m.hasReceivedFrames)) ==>
        r'.core == Stop(r.core, SIGTERM, killThrows) && r'.monitors == r.monitors[p := m.(ticking := false)]
    ensures var m := r.monitors[p]; !StopsRelay(Tick(now, m.lastFrameTime, m.hasReceivedFrames)) ==> r' == r
    ensures RelayWellFormed(r) ==> RelayWellFormed(r')
  {
    var m := r.monitors[p];
    if StopsRelay(Tick(now, m.lastFrameTime, m.hasReceivedFrames)) then
      StopRelay(r.(monitors := r.monitors[p := m.(ticking := false)]), killThrows)
    else r
  }

  /** The tick that stops only its own child. */
  function AfterTickGuarded(r: Relay, p: ProcId, now: int, killThrows: bool): (r': Relay)
    requires p in r.monitors
    ensures var m := r.monitors[p];
      StopsRelay(Tick(now, m.lastFrameTime, m.hasReceivedFrames)) && r.core.slot == Some(p) ==>
        r'.core == Stop(r.core, SIGTERM, killThrows)
    ensures r.core.slot != Some(p) ==> r'.core == r.core
    ensures r'.core.os.released <= r.core.os.released + {p}
    ensures RelayWellFormed(r) ==> RelayWellFormed(r')
  {
    var m := r.monitors[p];
    if StopsRelay(Tick(now, m.lastFrameTime, m.hasReceivedFrames)) then
      var s := r.(monitors := r.monitors[p := m.(ticking := false)]);
      if r.core.slot == Some(p) then StopRelay(s, killThrows) else s
    else r
  }

  /** The close and error handlers as written: the child's own interval is
      cleared and the slot nulled, whichever child it holds. */
  function AfterExit(r: Relay, p: ProcId): (r': Relay)
    requires p in r.monitors
    ensures r'.core == Exit(r.core, p) && r'.monitors == r.monitors[p := r.monitors[p].(ticking := false)]
    ensures RelayWellFormed(r) ==> RelayWellFormed(r')
  {
    r.(core := Exit(r.core, p), monitors := r.monitors[p := r.monitors[p].(ticking := false)])
  }

  /** The close and error handlers with the identity test. */
  function AfterExitGuarded(r: Relay, p: ProcId): (r': Relay)
    requires p in r.monitors
    ensures r'.core == ExitGuarded(r.core, p) && r'.monitors == r.monitors[p := r.monitors[p].(ticking := false)]
    ensures RelayWellFormed(r) ==> RelayWellFormed(r')
    ensures Supervised(r.core) ==> Supervised(r'.core)
  {
    r.(core := ExitGuarded(r.core, p), monitors := r.monitors[p := r.monitors[p].(ticking := false)])
  }

  /** The deferred SIGKILL scheduled by the stop of child `p`, as written: it
      re-reads the slot, and if that holds a child with a pid, SIGKILLs it
      and nulls the slot. */
  function ForceKill(r: Relay, p: ProcId, killThrows: bool): (r': Relay)
    requires RelayWellFormed(r) && p in r.kills
    ensures r'.kills == r.kills - multiset{p}
    ensures RelayWellFormed(r')
    ensures Supervised(r.core) ==> Supervised(r'.core)
  {
    var s := r.(kills := r.kills - multiset{p});
    match r.core.slot
    case Some(q) =>
      if r.core.os.spawned[q].hasPid then
        s.(core := Single(None, Release(r.core.os, q, if killThrows then None else Some(SIGKILL))))
      else s
    case None => s
  }

  /** The deferred SIGKILL as written never reaches the child whose stop
      scheduled it: whatever it kills is a child that was never sent
      SIGTERM. */
  lemma ForceKillMissesStoppedChild(r: Relay, p: ProcId, killThrows: bool)
    requires RelayWellFormed(r) && p in r.kills
    ensures var sig := ForceKill(r, p, killThrows).core.os.signals;
      |sig| > |r.core.os.signals| ==>
        && sig == r.core.os.signals + [SignalSent(r.core.slot.value, SIGKILL)]
        && r.core.slot.value != p
        && SignalSent(r.core.slot.value, SIGTERM) !in r.core.os.signals
  {
    var sig := r.core.os.signals;
    if r.core.slot.Some? {
      var q := r.core.slot.value;
      forall i | 0 <= i < |sig|
        ensures sig[i] != SignalSent(q, SIGTERM)
      {
        assert sig[i].target in r.core.os.released;
      }
      var j :| 0 <= j < |sig| && sig[j] == SignalSent(p, SIGTERM);
      assert sig[j].target in r.core.os.released;
    }
  }

  /** The deferred SIGKILL bound to the child that was stopped: it is sent
      only while that child still runs and has a pid, and only ever
      escalates a SIGTERM. */
  function ForceKillOwn(r: Relay, p: ProcId, killThrows: bool): (r': Relay)
    requires RelayWellFormed(r) && p in r.kills
    ensures r'.kills == r.kills - multiset{p} && r'.core.slot == r.core.slot
    ensures var sig := r'.core.os.signals;
      sig == r.core.os.signals ||
        (sig == r.core.os.signals + [SignalSent(p, SIGKILL)] && SignalSent(p, SIGTERM) in r.core.os.signals && p in r.core.os.live)
    ensures RelayWellFormed(r')
    ensures Supervised(r.core) ==> Supervised(r'.core)
  {
    var s := r.(kills := r.kills - multiset{p});
    if p in r.core.os.live && r.core.os.spawned[p].hasPid && !killThrows then
      assert SignalSent(p, SIGTERM) in r.core.os.signals;
      var i :| 0 <= i < |r.core.os.signals| && r.core.os.signals[i] == SignalSent(p, SIGTERM);
      assert r.core.os.signals[i].target in r.core.os.released;
      s.(core := r.core.(os := Signalled(r.core.os, p, SIGKILL)))
    else s
  }

  /** `!actualPath || actualPath === 'undefined'` replaced by the target. */
  function ActualPath(streamPath: Option<string>): string {
    if PathUndefined(streamPath) then Target else streamPath.value
  }

  /** The path test of prePublish, postPublish and donePublish: exactly the
      target, a missing path counting as the target. */
  lemma ActualPathIsTarget(streamPath: Option<string>)
    ensures ActualPath(streamPath) == Target <==> PathUndefined(streamPath) || streamPath == Some(Target)
  {
  }

  /** prePublish schedules a start only for the target path. */
  function AfterPrePublish(r: Relay, streamPath: Option<string>): (r': Relay)
    ensures r'.starts == r.starts + (if ActualPath(streamPath) == Target then 1 else 0)
    ensures r'.core == r.core && r'.monitors == r.monitors && r'.kills == r.kills && r'.polling == r.polling
  {
    if ActualPath(streamPath) == Target then r.(starts := r.starts + 1) else r
  }

  /** A start scheduled by prePublish fires: it starts only into an empty
      slot. */
  function AfterFireStart(r: Relay, key: Option<string>, outcome: SpawnOutcome, now: int): (r': Relay)
    requires RelayWellFormed(r) && r.starts > 0
    ensures r.core.slot.Some? ==> r' == r.(starts := r.starts - 1)
    ensures r.core.slot == None ==> r' == StartRelay(r.(starts := r.starts - 1), key, outcome, now, false)
    ensures RelayWellFormed(r')
    ensures Supervised(r.core) ==> Supervised(r'.core)
  {
    var s := r.(starts := r.starts - 1);
    if r.core.slot == None then StartRelay(s, key, outcome, now, false) else s
  }

  /** postPublish starts at once on the target path into an empty slot. */
  function AfterPostPublish(r: Relay, streamPath: Option<string>, key: Option<string>, outcome: SpawnOutcome, now: int): (r': Relay)
    requires RelayWellFormed(r)
    ensures ActualPath(streamPath) == Target && r.core.slot == None ==> r' == StartRelay(r, key, outcome, now, false)
    ensures !(ActualPath(streamPath) == Target && r.core.slot == None) ==> r' == r
    ensures RelayWellFormed(r')
  {
    if ActualPath(streamPath) == Target && r.core.slot == None then StartRelay(r, key, outcome, now, false) else r
  }

  /** Some session publishes on the target path; `None` when the session
      table cannot be read. */
  predicate HasTargetSession(sessions: Option<seq<Option<string>>>) {
    sessions.Some? && exists i | 0 <= i < |sessions.value| :: sessions.value[i] == Some(Target)
  }

  /** The one-shot auto-trigger: a publishing session starts (or restarts)
      the relay, whatever the slot holds. */
  function AutoTrigger(r: Relay, sessions: Option<seq<Option<string>>>, key: Option<string>, outcome: SpawnOutcome, now: int, stopThrows: bool): (r': Relay)
    requires RelayWellFormed(r)
    ensures HasTargetSession(sessions) ==> r' == StartRelay(r, key, outcome, now, stopThrows)
    ensures !HasTargetSession(sessions) ==> r' == r
    ensures RelayWellFormed(r')
  {
    if HasTargetSession(sessions) then StartRelay(r, key, outcome, now, stopThrows) else r
  }

  /** The polling guard: all three conditions must hold. */
  predicate PollStarts(r: Relay, sessions: Option<seq<Option<string>>>, key: Option<string>) {
    r.core.slot == None && HasTargetSession(sessions) && KeySet(key) && key.value != "test123"
  }

  /** One tick of the polling interval. */
  function PollTick(r: Relay, sessions: Option<seq<Option<string>>>, key: Option<string>, outcome: SpawnOutcome, now: int): (r': Relay)
    requires RelayWellFormed(r)
    ensures PollStarts(r, sessions, key) ==> r' == StartRelay(r, key, outcome, now, false)
    ensures !PollStarts(r, sessions, key) ==> r' == r
    ensures RelayWellFormed(r')
    ensures Supervised(r.core) ==> Supervised(r'.core)
  {
    if PollStarts(r, sessions, key) then StartRelay(r, key, outcome, now, false) else r
  }

  /** donePublish on the target path stops the relay and clears the polling;
      any other path changes nothing. */
  function AfterDonePublish(r: Relay, streamPath: Option<string>, killThrows: bool): (r': Relay)
    ensures ActualPath(streamPath) == Target ==> r' == StopRelay(r, killThrows).(polling := false)
    ensures ActualPath(streamPath) != Target ==> r' == r
    ensures RelayWellFormed(r) ==> RelayWellFormed(r')
    ensures Supervised(r.core) ==> Supervised(r'.core)
  {
    if ActualPath(streamPath) == Target then StopRelay(r, killThrows).(polling := false) else r
  }

  /** A close of an older child while a newer one is referenced leaves the
      newer child running with nothing referring to it. */
  lemma StaleCloseOrphans(r: Relay, p: ProcId)
    requires RelayWellFormed(r) && p in r.monitors
    requires r.core.slot.Some? && r.core.slot.value in r.core.os.live && r.core.slot.value != p
    ensures !Supervised(AfterExit(r, p).core)
  {
    StaleExitOrphans(r.core, p);
  }

  class HealthServer {
    /** `process.env.YOUTUBE_STREAM_KEY`, read at each start. */
    const youtubeKey: Option<string>
    var ffmpegProcess: Option<ProcId>
    var os: OsView<Child>
    var monitors: map<ProcId, Monitor>
    var kills: multiset<ProcId>
    var starts: nat
    /** `streamCheckInterval` still runs. */
    var polling: bool
    /** The one-shot auto-trigger has not fired yet. */
    var autoTriggerArmed: bool

    function State(): Relay
      reads this
    {
      Relay(Single(ffmpegProcess, os), monitors, kills, starts, polling)
    }

    ghost predicate Valid()
      reads this
    {
      RelayWellFormed(State())
    }

    ghost predicate NoOrphans()
      reads this
    {
      Supervised(State().core)
    }

    /** Loading the server: no relay, the polling interval and the
        auto-trigger armed. */
    constructor (youtubeKey: Option<string>)
      ensures Valid() && NoOrphans()
      ensures this.youtubeKey == youtubeKey && State() == InitialRelay(true) && autoTriggerArmed
    {
      this.youtubeKey := youtubeKey;
      ffmpegProcess, os := None, Empty();
      monitors, kills, starts := map[], multiset{}, 0;
      polling, autoTriggerArmed := true, true;
    }

    method StopYouTubeRelay(killThrows: bool)
      requires Valid()
      modifies this
      ensures Valid()
      ensures State() == StopRelay(old(State()), killThrows) && autoTriggerArmed == old(autoTriggerArmed)
      ensures old(NoOrphans()) ==> NoOrphans()
    {
      if ffmpegProcess.Some? {
        var p := ffmpegProcess.value;
        if killThrows {
          os := Release(os, p, None);
        } else {
          os := Release(os, p, Some(SIGTERM));
          kills := kills + multiset{p};
        }
        ffmpegProcess := None;
      }
    }

    method StartYouTubeRelay(outcome: SpawnOutcome, now: int, stopThrows: bool)
      requires Valid()
      modifies this
      ensures Valid()
      ensures State() == StartRelay(old(State()), youtubeKey, outcome, now, stopThrows) && autoTriggerArmed == old(autoTriggerArmed)
      ensures old(NoOrphans()) ==> NoOrphans()
    {
      if !(youtubeKey.Some? && youtubeKey.value != "") {
        return;
      }
      if ffmpegProcess.Some? {
        StopYouTubeRelay(stopThrows);
      }
      var args := RelayArgs(youtubeKey.value);
      if outcome != SpawnThrew {
        var pid := os.nextPid;
        ffmpegProcess, os := Some(pid), Spawn(os, Child(args, outcome == Launched));
        monitors := monitors[pid := Monitor(now, false, true)];
      }
    }

    method OnStdout(p: ProcId, now: int)
      requires Valid() && p in monitors
      modifies this
      ensures Valid()
      ensures State() == AfterStdout(old(State()), p, now) && autoTriggerArmed == old(autoTriggerArmed)
    {
      monitors := monitors[p := monitors[p].(lastFrameTime := now, hasReceivedFrames := true)];
    }

    /** A stderr chunk of child `p`, as written. */
    method OnStderr(p: ProcId, output: string, now: int, killThrows: bool) returns (c: ChunkClass)
      requires Valid() && p in monitors
      modifies this
      ensures Valid()
      ensures c == ClassifyChunk(output)
      ensures State() == AfterStderr(old(State()), p, output, now, killThrows) && autoTriggerArmed == old(autoTriggerArmed)
      ensures old(NoOrphans()) ==> NoOrphans()
    {
      c := ClassifyChunk(output);
      if c.frame {
        monitors := monitors[p := monitors[p].(lastFrameTime := now, hasReceivedFrames := true)];
      }
      if c.critical {
        StopYouTubeRelay(killThrows);
      }
    }

    /** One tick of child `p`'s frame check, as written. */
    method OnTick(p: ProcId, now: int, killThrows: bool) returns (v: TickVerdict)
      requires Valid() && p in monitors && monitors[p].ticking
      modifies this
      ensures Valid()
      ensures v == Tick(now, old(monitors[p]).lastFrameTime, old(monitors[p]).hasReceivedFrames)
      ensures State() == AfterTick(old(State()), p, now, killThrows) && autoTriggerArmed == old(autoTriggerArmed)
      ensures old(NoOrphans()) ==> NoOrphans()
    {
      var m := monitors[p];
      v := Tick(now, m.lastFrameTime, m.hasReceivedFrames);
      if v == FrameTimeout || v == StartupTimeout {
        monitors := monitors[p := m.(ticking := false)];
        StopYouTubeRelay(killThrows);
      }
    }

    /** The close or error event of child `p`, as written; the exit code is
        reported as a normal exit exactly when it is 0. */
    method OnClose(p: ProcId, code: Option<int>) returns (kind: ExitKind)
      requires Valid() && p in monitors
      modifies this
      ensures Valid()
      ensures kind == NormalExit <==> code == Some(0)
      ensures State() == AfterExit(old(State()), p) && autoTriggerArmed == old(autoTriggerArmed)
    {
      monitors := monitors[p := monitors[p].(ticking := false)];
      ffmpegProcess, os := None, Exited(os, p);
      kind := ClassifyExit(code);
    }

    /** The close or error event of child `p`, with the identity test. */
    method OnCloseGuarded(p: ProcId)
      requires Valid() && p in monitors
      modifies this
      ensures Valid()
      ensures State() == AfterExitGuarded(old(State()), p) && autoTriggerArmed == old(autoTriggerArmed)
      ensures old(NoOrphans()) ==> NoOrphans()
    {
      monitors := monitors[p := monitors[p].(ticking := false)];
      if ffmpegProcess == Some(p) {
        ffmpegProcess := None;
      }
      os := Exited(os, p);
    }

    /** The deferred SIGKILL scheduled by the stop of child `p`, as written. */
    method FireForceKill(p: ProcId, killThrows: bool)
      requires Valid() && p in kills
      modifies this
      ensures Valid()
      ensures State() == ForceKill(old(State()), p, killThrows) && autoTriggerArmed == old(autoTriggerArmed)
      ensures old(NoOrphans()) ==> NoOrphans()
    {
      kills := kills - multiset{p};
      if ffmpegProcess.Some? && os.spawned[ffmpegProcess.value].hasPid {
        os := Release(os, ffmpegProcess.value, if killThrows then None else Some(SIGKILL));
        ffmpegProcess := None;
      }
    }

    /** The deferred SIGKILL bound to the child it was scheduled for. */
    method FireForceKillOwn(p: ProcId, killThrows: bool)
      requires Valid() && p in kills
      modifies this
      ensures Valid()
      ensures State() == ForceKillOwn(old(State()), p, killThrows) && autoTriggerArmed == old(autoTriggerArmed)
      ensures old(NoOrphans()) ==> NoOrphans()
    {
      kills := kills - multiset{p};
      if p in os.live && os.spawned[p].hasPid && !killThrows {
        os := Signalled(os, p, SIGKILL);
      }
    }

    method PrePublish(streamPath: Option<string>) returns (scheduled: bool)
      modifies this
      ensures scheduled <==> ActualPath(streamPath) == Target
      ensures State() == AfterPrePublish(old(State()), streamPath) && autoTriggerArmed == old(autoTriggerArmed)
    {
      var actualPath := if PathUndefined(streamPath) then Target else streamPath.value;
      scheduled := actualPath == Target;
      if scheduled {
        starts := starts + 1;
      }
    }

    method FireStart(outcome: SpawnOutcome, now: int)
      requires Valid() && starts > 0
      modifies this
      ensures Valid()
      ensures State() == AfterFireStart(old(State()), youtubeKey, outcome, now) && autoTriggerArmed == old(autoTriggerArmed)
      ensures old(NoOrphans()) ==> NoOrphans()
    {
      starts := starts - 1;
      if ffmpegProcess == None {
        StartYouTubeRelay(outcome, now, false);
      }
    }

    method PostPublish(streamPath: Option<string>, outcome: SpawnOutcome, now: int)
      requires Valid()
      modifies this
      ensures Valid()
      ensures State() == AfterPostPublish(old(State()), streamPath, youtubeKey, outcome, now) && autoTriggerArmed == old(autoTriggerArmed)
      ensures old(NoOrphans()) ==> NoOrphans()
    {
      var actualPath := if PathUndefined(streamPath) then Target else streamPath.value;
      if actualPath == Target && ffmpegProcess == None {
        StartYouTubeRelay(outcome, now, false);
      }
    }

    /** The auto-trigger fires once, 15 s after start-up. */
    method FireAutoTrigger(sessions: Option<seq<Option<string>>>, outcome: SpawnOutcome, now: int, stopThrows: bool)
      requires Valid() && autoTriggerArmed
      modifies this
      ensures Valid() && !autoTriggerArmed
      ensures State() == AutoTrigger(old(State()), sessions, youtubeKey, outcome, now, stopThrows)
    {
      autoTriggerArmed := false;
      if HasTargetSession(sessions) {
        StartYouTubeRelay(outcome, now, stopThrows);
      }
    }

    method FirePoll(sessions: Option<seq<Option<string>>>, outcome: SpawnOutcome, now: int)
      requires Valid() && polling
      modifies this
      ensures Valid()
      ensures State() == PollTick(old(State()), sessions, youtubeKey, outcome, now) && autoTriggerArmed == old(autoTriggerArmed)
      ensures old(NoOrphans()) ==> NoOrphans()
    {
      if ffmpegProcess == None {
        var hasActiveStream := HasTargetSession(sessions);
        if hasActiveStream && youtubeKey.Some? && youtubeKey.value != "" && youtubeKey.value != "test123" {
          StartYouTubeRelay(outcome, now, false);
        }
      }
    }

    method DonePublish(streamPath: Option<string>, killThrows: bool)
      requires Valid()
      modifies this
      ensures Valid()
      ensures State() == AfterDonePublish(old(State()), streamPath, killThrows) && autoTriggerArmed == old(autoTriggerArmed)
      ensures old(NoOrphans()) ==> NoOrphans()
    {
      var actualPath := if PathUndefined(streamPath) then Target else streamPath.value;
      if actualPath == Target {
        StopYouTubeRelay(killThrows);
        polling := false;
      }
    }
  }

  /** The auto-trigger finds the publishing session 2 s after prePublish's
      start has spawned a relay and restarts it; 3 s later the SIGKILL
      scheduled for the first relay kills the second one, which was never
      asked to stop, and the slot is emptied. */
  method AutoTriggerRestartKillsNewRelay() returns (s: HealthServer, first: ProcId, second: ProcId)
    ensures s.Valid() && first != second
    ensures SignalSent(first, SIGTERM) in s.os.signals
    ensures SignalSent(second, SIGKILL) in s.os.signals && SignalSent(second, SIGTERM) !in s.os.signals
    ensures s.ffmpegProcess == None
  {
    s := new HealthServer(Some("abcd-1234"));
    var _ := s.PrePublish(Some(Target));
    s.FireStart(Launched, 13000);
    first := s.ffmpegProcess.value;
    var sessions := [Some(Target)];
    assert sessions[0] == Some(Target);
    s.FireAutoTrigger(Some(sessions), Launched, 15000, false);
    second := s.ffmpegProcess.value;
    assert first in s.kills && SignalSent(first, SIGTERM) in s.os.signals;
    assert s.os.spawned[second].hasPid;
    ForceKillMissesStoppedChild(s.State(), first, false);
    s.FireForceKill(first, false);
  }
}
