/**
  The desktop fan-out launchers: one ffmpeg that copies an SRT input to any
  number of FLV destinations.  The Electron main process (src/electron.cjs)
  keeps one global `ffmpegProcess`, replacing it on every start; the Tauri
  backend (src-tauri/src/main.rs) spawns a child per call, forwards its
  stderr line by line and keeps no reference to it.  Both build the same
  argument vector.
*/
module Fanout {
  import opened Wrappers
  import opened Proc
  import opened SingleSlot

  // ---------------------------------------------------------------------
  // The argument vector.

  /** `-f flv <dest>` for every destination, in order. */
  function Outputs(destinations: seq<string>): (out: seq<string>)
    ensures |out| == 3 * |destinations|
  {
    if destinations == [] then []
    else Outputs(destinations[..|destinations| - 1]) + ["-f", "flv", destinations[|destinations| - 1]]
  }

  /** The full argument vector: the input copied without re-encoding, then
      one output per destination. */
  function FanoutArgs(srtInput: string, destinations: seq<string>): (args: seq<string>)
    ensures |args| == 4 + 3 * |destinations|
  {
    ["-i", srtInput, "-c", "copy"] + Outputs(destinations)
  }

  /** The `i`-th output triple names the `i`-th destination. */
  lemma {:induction false} OutputsAt(destinations: seq<string>, i: nat)
    requires i < |destinations|
    ensures Outputs(destinations)[3 * i] == "-f"
    ensures Outputs(destinations)[3 * i + 1] == "flv"
    ensures Outputs(destinations)[3 * i + 2] == destinations[i]
  {
    var init := destinations[..|destinations| - 1];
    if i < |destinations| - 1 {
      OutputsAt(init, i);
    }
  }

  /** The layout of the argument vector, position by position. */
  lemma FanoutArgsLayout(srtInput: string, destinations: seq<string>)
    ensures var args := FanoutArgs(srtInput, destinations);
      && args[..4] == ["-i", srtInput, "-c", "copy"]
      && forall i | 0 <= i < |destinations| ::
           args[4 + 3 * i] == "-f" && args[4 + 3 * i + 1] == "flv" && args[4 + 3 * i + 2] == destinations[i]
  {
    forall i | 0 <= i < |destinations|
      ensures FanoutArgs(srtInput, destinations)[4 + 3 * i] == "-f"
      ensures FanoutArgs(srtInput, destinations)[4 + 3 * i + 1] == "flv"
      ensures FanoutArgs(srtInput, destinations)[4 + 3 * i + 2] == destinations[i]
    {
      OutputsAt(destinations, i);
    }
  }

  /** The builder loop: the four fixed arguments, then three pushes per
      destination. */
  method BuildArgs(srtInput: string, destinations: seq<string>) returns (args: seq<string>)
    ensures args == FanoutArgs(srtInput, destinations)
  {
    args := ["-i", srtInput, "-c", "copy"];
    for i := 0 to |destinations|
      invariant args == FanoutArgs(srtInput, destinations[..i])
    {
      assert destinations[..i + 1][..i] == destinations[..i];
      args := args + ["-f", "flv", destinations[i]];
    }
    assert destinations[..|destinations|] == destinations;
  }

  // ---------------------------------------------------------------------
  // The Electron main process.

  /** The slot holds a spawned child the bridge has not let go of.  Unlike
      the relay servers, `stopStreaming` signals the child in the slot
      without letting go of it. */
  ghost predicate BridgeWellFormed(s: Single) {
    WellFormed(s.os) && (s.slot.Some? ==> s.slot.value in s.os.spawned && s.slot.value !in s.os.released)
  }

  /** manageFFmpegProcess: a referenced child is sent SIGINT and let go of,
      then the new child takes the slot; a spawn that throws leaves the slot
      empty. */
  function Manage(s: Single, commandArgs: seq<string>, outcome: SpawnOutcome): (r: Single)
    ensures outcome != SpawnThrew ==>
      r.slot == Some(s.os.nextPid) && r.os.spawned == s.os.spawned[s.os.nextPid := Child(commandArgs, outcome == Launched)]
    ensures outcome == SpawnThrew ==> r.slot == None
    ensures s.slot.Some? ==> r.os.released == s.os.released + {s.slot.value} && r.os.signals == s.os.signals + [SignalSent(s.slot.value, SIGINT)]
    ensures s.slot == None ==> r.os.released == s.os.released && r.os.signals == s.os.signals
    ensures BridgeWellFormed(s) ==> BridgeWellFormed(r)
    ensures Supervised(s) ==> Supervised(r)
  {
    Assign(Stop(s, SIGINT, false), commandArgs, outcome)
  }

  /** stopStreaming: SIGINT to the referenced child, which stays referenced
      until its close or error event. */
  function Interrupt(s: Single): (r: Single)
    ensures r.slot == s.slot && r.os.live == s.os.live && r.os.released == s.os.released
    ensures r.os.signals == s.os.signals + (if s.slot.Some? then [SignalSent(s.slot.value, SIGINT)] else [])
    ensures BridgeWellFormed(s) ==> BridgeWellFormed(r)
    ensures Supervised(s) ==> Supervised(r)
  {
    match s.slot
    case None => s
    case Some(p) => s.(os := Signalled(s.os, p, SIGINT))
  }

  /** The close and error handlers keep the bridge well formed; only the
      guarded one keeps every child supervised. */
  lemma BridgeExitKeeps(s: Single, p: ProcId)
    requires BridgeWellFormed(s)
    ensures BridgeWellFormed(Exit(s, p)) && BridgeWellFormed(ExitGuarded(s, p))
    ensures Supervised(s) ==> Supervised(ExitGuarded(s, p))
  {
  }

  /** A close of an older child while a newer one is referenced leaves the
      newer child running with nothing referring to it. */
  lemma BridgeStaleExitOrphans(s: Single, p: ProcId)
    requires BridgeWellFormed(s) && s.slot.Some? && s.slot.value in s.os.live && s.slot.value != p
    ensures !Supervised(Exit(s, p))
  {
    assert s.slot.value in Exit(s, p).os.live;
  }

  class ElectronBridge {
    var ffmpegProcess: Option<ProcId>
    var os: OsView<Child>

    function State(): Single
      reads this
    {
      Single(ffmpegProcess, os)
    }

    ghost predicate Valid()
      reads this
    {
      BridgeWellFormed(State())
    }

    ghost predicate NoOrphans()
      reads this
    {
      Supervised(State())
    }

    constructor ()
      ensures Valid() && NoOrphans() && State() == Initial()
    {
      ffmpegProcess, os := None, Empty();
    }

    method ManageFFmpegProcess(commandArgs: seq<string>, outcome: SpawnOutcome)
      requires Valid()
      modifies this
      ensures Valid()
      ensures State() == Manage(old(State()), commandArgs, outcome)
      ensures old(NoOrphans()) ==> NoOrphans()
    {
      if ffmpegProcess.Some? {
        os := Release(os, ffmpegProcess.value, Some(SIGINT));
        ffmpegProcess := None;
      }
      if outcome != SpawnThrew {
        ffmpegProcess, os := Some(os.nextPid), Spawn(os, Child(commandArgs, outcome == Launched));
      }
    }

    method StopStreaming()
      requires Valid()
      modifies this
      ensures Valid()
      ensures State() == Interrupt(old(State()))
      ensures old(NoOrphans()) ==> NoOrphans()
    {
      if ffmpegProcess.Some? {
        os := Signalled(os, ffmpegProcess.value, SIGINT);
      }
    }

    /** The close or error event of child `p`, as written. */
    method OnExit(p: ProcId)
      requires Valid() && p in os.live
      modifies this
      ensures Valid()
      ensures State() == Exit(old(State()), p)
    {
      ffmpegProcess, os := None, Exited(os, p);
    }

    /** The close or error event of child `p`, with the identity test. */
    method OnExitGuarded(p: ProcId)
      requires Valid() && p in os.live
      modifies this
      ensures Valid()
      ensures State() == ExitGuarded(old(State()), p)
      ensures old(NoOrphans()) ==> NoOrphans()
    {
      if ffmpegProcess == Some(p) {
        ffmpegProcess := None;
      }
      os := Exited(os, p);
    }

    /** The `ffmpeg-start` IPC handler: build the arguments, (re)start, and
        report success whatever happened. */
    method HandleStart(destinations: seq<string>, srtInput: string, outcome: SpawnOutcome) returns (success: bool)
      requires Valid()
      modifies this
      ensures Valid() && success
      ensures State() == Manage(old(State()), FanoutArgs(srtInput, destinations), outcome)
      ensures old(NoOrphans()) ==> NoOrphans()
    {
      var commandArgs := BuildArgs(srtInput, destinations);
      ManageFFmpegProcess(commandArgs, outcome);
      success := true;
    }

    /** The `ffmpeg-stop` IPC handler. */
    method HandleStop() returns (success: bool)
      requires Valid()
      modifies this
      ensures Valid() && success
      ensures State() == Interrupt(old(State()))
      ensures old(NoOrphans()) ==> NoOrphans()
    {
      StopStreaming();
      success := true;
    }
  }

  /** Stop, then start again before the interrupted ffmpeg has finished: its
      close event nulls the slot, and the new ffmpeg runs with nothing
      referring to it, out of reach of the next stop. */
  method StopRestartOrphans() returns (b: ElectronBridge, orphan: ProcId)
    ensures b.Valid() && b.ffmpegProcess == None
    ensures orphan in b.os.live && orphan !in b.os.released
    ensures !b.NoOrphans()
  {
    b := new ElectronBridge();
    var _ := b.HandleStart(["rtmp://a.rtmp.youtube.com/live2/abcd"], "srt://127.0.0.1:9000", Launched);
    var first := b.ffmpegProcess.value;
    var _ := b.HandleStop();
    var _ := b.HandleStart(["rtmp://a.rtmp.youtube.com/live2/abcd"], "srt://127.0.0.1:9000", Launched);
    orphan := b.ffmpegProcess.value;
    BridgeStaleExitOrphans(b.State(), first);
    b.OnExit(first);
  }

  // ---------------------------------------------------------------------
  // The Tauri command.

  /** `Result<String, String>` of a Tauri command. */
  datatype CommandResult = Ok(message: string) | Err(message: string)

  /** What `ffmpeg_start` reports: a spawn error first, then a missing
      stderr pipe; otherwise success, without waiting for the child. */
  function StartReply(spawnError: Option<string>, stderrPiped: bool): (r: CommandResult)
    ensures r.Ok? <==> spawnError == None && stderrPiped
    ensures r.Ok? ==> r.message == "FFmpeg process started successfully."
    ensures spawnError.Some? ==> r == Err("Failed to spawn FFmpeg: " + spawnError.value)
    ensures spawnError == None && !stderrPiped ==> r == Err("Failed to get stderr")
  {
    match spawnError
    case Some(e) => Err("Failed to spawn FFmpeg: " + e)
    case None => if stderrPiped then Ok("FFmpeg process started successfully.") else Err("Failed to get stderr")
  }

  /** `ffmpeg_start`: the argument vector it passes to the command, and its
      reply.  The spawn error text and whether stderr was piped come from the
      OS. */
  method FfmpegStart(srtInput: string, destinations: seq<string>, spawnError: Option<string>, stderrPiped: bool)
    returns (commandArgs: seq<string>, result: CommandResult)
    ensures commandArgs == FanoutArgs(srtInput, destinations)
    ensures result == StartReply(spawnError, stderrPiped)
  {
    commandArgs := ["-i", srtInput, "-c", "copy"];
    for i := 0 to |destinations|
      invariant commandArgs == FanoutArgs(srtInput, destinations[..i])
    {
      assert destinations[..i + 1][..i] == destinations[..i];
      commandArgs := commandArgs + ["-f", "flv", destinations[i]];
    }
    assert destinations[..|destinations|] == destinations;
    if spawnError.Some? {
      return commandArgs, Err("Failed to spawn FFmpeg: " + spawnError.value);
    }
    if !stderrPiped {
      return commandArgs, Err("Failed to get stderr");
    }
    result := Ok("FFmpeg process started successfully.");
  }

  /** One `read_line` call on the child's stderr: `Ok` with the text read
      (empty at end of stream), or an error. */
  datatype LineRead = Read(text: string) | ReadError

  /** The events the forwarder emits for a sequence of lines: one per read,
      each carrying exactly the text of that read, up to the first read that
      fails or returns nothing. */
  function Forwarded(lines: seq<LineRead>): (events: seq<string>)
  {
    if lines == [] then []
    else match lines[0]
      case ReadError => []
      case Read(text) => if text == "" then [] else [text] + Forwarded(lines[1..])
  }

  /** The events are the texts of the leading successful, non-empty reads,
      and forwarding stops exactly at the first failed or empty read. */
  lemma {:induction false} ForwardedShape(lines: seq<LineRead>)
    ensures var events := Forwarded(lines);
      |events| <= |lines|
      && (forall i | 0 <= i < |events| :: lines[i] == Read(events[i]) && events[i] != "")
      && (|events| < |lines| ==> lines[|events|] == ReadError || lines[|events|] == Read(""))
  {
    if lines != [] && lines[0].Read? && lines[0].text != "" {
      ForwardedShape(lines[1..]);
      var events := Forwarded(lines);
      assert events == [lines[0].text] + Forwarded(lines[1..]);
      forall i | 0 < i < |events| ensures lines[i] == Read(events[i]) {
        assert lines[1..][i - 1] == lines[i];
      }
    }
  }

  /** The forwarding loop: `line` is appended to by each read and cleared
      after each event, so every event is the text of one read. */
  method ForwardLines(lines: seq<LineRead>) returns (events: seq<string>)
    ensures events == Forwarded(lines)
  {
    events := [];
    var line := "";
    var i := 0;
    while i < |lines|
      invariant 0 <= i <= |lines| && line == ""
      invariant Forwarded(lines) == events + Forwarded(lines[i..])
    {
      assert lines[i..][0] == lines[i] && lines[i..][1..] == lines[i + 1..];
      match lines[i]
      case ReadError =>
        break;
      case Read(text) =>
        if |text| == 0 {
          break;
        }
        line := line + text;
        assert line == text;
        assert Forwarded(lines[i..]) == [text] + Forwarded(lines[i + 1..]);
        events := events + [line];
        line := "";
      i := i + 1;
    }
  }
}
