/**
  The dynamic multi-platform relay server (my-rtmp-server/multi-platform-server.js):
  one ffmpeg relay slot per platform id, guarded start and stop of a single
  platform, start/stop of all platforms, and the prePublish/donePublish
  handlers of the RTMP ingest.

  The platform table and the current user's stream keys are read once at
  start-up and never change; they are constant fields.  Each `setTimeout`
  scheduled by prePublish is an element of `pending` that the environment
  fires later with `FireStartTimer`; close and error events of a child are
  `OnExit` calls.
*/
module MultiPlatform {
  import opened Wrappers
  import opened Text
  import opened Proc
  import opened Ingest

  datatype PlatformConfig = PlatformConfig(name: string, rtmpUrl: string, enabled: bool)

  /** A `setTimeout(() => startAllRelays(path), delayMs)` that has not fired yet. */
  datatype StartTimer = StartTimer(path: string, delayMs: nat)


  /** The template value the key file ships with, refused as a key. */
  function Placeholder(platformKey: string): string {
    "your-" + platformKey + "-key-here"
  }

  /** The stream-key guard of startPlatformRelay: a missing, empty or blank
      key, or the template placeholder, is refused. */
  predicate KeyUsable(platformKey: string, streamKey: Option<string>) {
    match streamKey
    case None => false
    case Some(k) => !(k == "" || Trim(k) == "" || k == Placeholder(platformKey))
  }

  /** The guard accepts exactly the present keys that are not all whitespace
      and are not the placeholder. */
  lemma KeyUsableMeaning(platformKey: string, streamKey: Option<string>)
    ensures KeyUsable(platformKey, streamKey) <==>
      streamKey.Some? && !AllWhitespace(streamKey.value) && streamKey.value != Placeholder(platformKey)
  {
    if streamKey.Some? {
      TrimEmptyIffBlank(streamKey.value);
    }
  }

  /** The ffmpeg argument vector for one platform relay. */
  function RelayArgs(streamPath: string, egress: string): (args: seq<string>)
    ensures |args| == 16
    ensures args[0] == "-i" && args[1] == IngestBase + streamPath
    ensures args[|args| - 1] == egress
  {
    ["-i", IngestBase + streamPath, "-c:v", "copy", "-c:a", "aac", "-b:a", "128k",
     "-ar", "44100", "-ac", "2", "-f", "flv", "-y", egress]
  }

  function LeadingSlash(path: string): (r: string)
    ensures StartsWith(r, "/")
    ensures EndsWith(r, path)
    ensures StartsWith(path, "/") ==> r == path
  {
    if StartsWith(path, "/") then path else "/" + path
  }

  /** The start a prePublish on `streamPath` schedules. */
  function ScheduledStart(streamPath: Option<string>): StartTimer {
    if PathUndefined(streamPath) then StartTimer(Target, 2000)
    else if IsTargetPath(streamPath.value) then StartTimer(LeadingSlash(streamPath.value), 2000)
    else StartTimer(Target, 5000)
  }

  /** Every prePublish schedules a start: after 2 s for a path classified as
      the target, after 5 s (on the target path) for anything else; the path
      handed to startAllRelays always begins with "/" and ends with
      "my-stream-key". */
  lemma ScheduledStartShape(streamPath: Option<string>)
    ensures var t := ScheduledStart(streamPath);
      && StartsWith(t.path, "/") && EndsWith(t.path, StreamName)
      && (t.delayMs == 2000 <==> PathUndefined(streamPath) || EndsWith(streamPath.value, StreamName))
      && (t.delayMs == 2000 || t.delayMs == 5000)
      && (t.delayMs == 5000 ==> t.path == Target)
  {
    if !PathUndefined(streamPath) {
      var p := streamPath.value;
      TargetPathIffSuffix(p);
      if IsTargetPath(p) {
        EndsWithTrans(LeadingSlash(p), p, StreamName);
      }
    }
    EndsWithConcat("/live/", StreamName);
  }


  // ---------------------------------------------------------------------
  // The relay table and its operations, as functions of the state.

  /** What a child of this server was spawned for. */
  datatype Launch = Launch(platformKey: string, args: seq<string>)

  type Slots = map<string, Option<ProcId>>

  /** The start-up tables: `platformConfigs` and `currentUser`. */
  datatype Tables = Tables(platforms: map<string, PlatformConfig>, user: map<string, string>)

  /** `ffmpegProcesses` with its key order, and the children spawned so far. */
  datatype Relays = Relays(processes: Slots, slotKeys: seq<string>, os: OsView<Launch>)

  /** `ffmpegProcesses[key]` is truthy. */
  predicate Occupied(processes: Slots, key: string) {
    key in processes && processes[key].Some?
  }

  predicate Holds(processes: Slots, key: string, p: ProcId) {
    key in processes && processes[key] == Some(p)
  }

  /** Bookkeeping every operation keeps: `slotKeys` lists the slot table's
      keys once each, slots exist only for configured platforms, and a slot
      only ever holds a child that was spawned. */
  ghost predicate RelaysWellFormed(t: Tables, r: Relays) {
    && Distinct(r.slotKeys)
    && (forall k :: k in r.processes <==> k in r.slotKeys)
    && (forall k | k in r.processes :: k in t.platforms)
    && WellFormed(r.os)
    && (forall p | p in r.os.spawned :: r.os.spawned[p].platformKey in r.processes)
    && (forall k | Occupied(r.processes, k) :: r.processes[k].value in r.os.spawned)
  }

  /** Every live child is either held by its platform's slot or was stopped
      on purpose: no relay runs unsupervised. */
  ghost predicate Supervised(r: Relays) {
    forall p | p in r.os.live :: p in r.os.released || (p in r.os.spawned && Holds(r.processes, r.os.spawned[p].platformKey, p))
  }

  /** All guards of startPlatformRelay pass for `key`. */
  predicate CanStart(t: Tables, r: Relays, key: string) {
    key in t.platforms && t.platforms[key].enabled && KeyUsable(key, Lookup(t.user, key)) && !Occupied(r.processes, key)
  }

  /** The child startPlatformRelay spawns for `key`. */
  function LaunchFor(t: Tables, key: string, streamPath: string): Launch
    requires key in t.platforms && key in t.user
  {
    Launch(key, RelayArgs(streamPath, t.platforms[key].rtmpUrl + t.user[key]))
  }

  /** startPlatformRelay (the state it leaves). */
  function Start(t: Tables, r: Relays, key: string, streamPath: string, spawnThrows: bool): Relays {
    if !CanStart(t, r, key) || spawnThrows then r
    else Relays(r.processes[key := Some(r.os.nextPid)],
                if key in r.processes then r.slotKeys else r.slotKeys + [key],
                Spawn(r.os, LaunchFor(t, key, streamPath)))
  }

  /** stopPlatformRelay (the state it leaves). */
  function Stop(r: Relays, key: string, killThrows: bool): Relays {
    if Occupied(r.processes, key) then
      Relays(r.processes[key := None], r.slotKeys,
             Release(r.os, r.processes[key].value, if killThrows then None else Some(SIGTERM)))
    else r
  }

  /** The forEach of startAllRelays over `keys`. */
  function StartAll(t: Tables, r: Relays, keys: seq<string>, streamPath: string, spawnThrows: set<string>): Relays
    decreases |keys|
  {
    if keys == [] then r
    else
      var before := StartAll(t, r, keys[..|keys| - 1], streamPath, spawnThrows);
      var k := keys[|keys| - 1];
      if k in t.platforms && t.platforms[k].enabled then Start(t, before, k, streamPath, k in spawnThrows) else before
  }

  /** Splitting off the forEach's next key: the loop's step. */
  lemma StartAllStep(t: Tables, r: Relays, keys: seq<string>, i: nat, streamPath: string, spawnThrows: set<string>)
    requires i < |keys|
    ensures var before := StartAll(t, r, keys[..i], streamPath, spawnThrows); var k := keys[i];
      var enabled := k in t.platforms && t.platforms[k].enabled;
      && StartAll(t, r, keys[..i + 1], streamPath, spawnThrows)
         == (if enabled then Start(t, before, k, streamPath, k in spawnThrows) else before)
      && StartCount(t, r, keys[..i + 1], streamPath, spawnThrows)
         == StartCount(t, r, keys[..i], streamPath, spawnThrows)
            + (if enabled && CanStart(t, before, k) && k !in spawnThrows then 1 else 0)
  {
    assert keys[..i + 1][..i] == keys[..i];
  }

  /** `startedCount` after the forEach over `keys`. */
  function StartCount(t: Tables, r: Relays, keys: seq<string>, streamPath: string, spawnThrows: set<string>): nat
    decreases |keys|
  {
    if keys == [] then 0
    else
      var before := StartAll(t, r, keys[..|keys| - 1], streamPath, spawnThrows);
      var k := keys[|keys| - 1];
      StartCount(t, r, keys[..|keys| - 1], streamPath, spawnThrows)
      + (if k in t.platforms && t.platforms[k].enabled && CanStart(t, before, k) && k !in spawnThrows then 1 else 0)
  }

  /** The forEach of stopAllRelays over `keys`. */
  function StopAll(r: Relays, keys: seq<string>, killThrows: set<string>): Relays
    decreases |keys|
  {
    if keys == [] then r
    else
      var k := keys[|keys| - 1];
      Stop(StopAll(r, keys[..|keys| - 1], killThrows), k, k in killThrows)
  }

  /** The close and error handlers as written: the slot of the platform the
      child was spawned for is nulled, whichever child it holds by now. */
  function Exit(r: Relays, pid: ProcId): Relays
    requires pid in r.os.spawned
  {
    Relays(r.processes[r.os.spawned[pid].platformKey := None], r.slotKeys, Exited(r.os, pid))
  }

  /** The close and error handlers guarded by identity: the slot is nulled
      only while it still holds the exiting child. */
  function ExitGuarded(r: Relays, pid: ProcId): Relays
    requires pid in r.os.spawned
  {
    var key := r.os.spawned[pid].platformKey;
    Relays(if Holds(r.processes, key, pid) then r.processes[key := None] else r.processes, r.slotKeys, Exited(r.os, pid))
  }

  /** Platforms startAllRelays starts, judged on the state before it runs. */
  predicate StartedBy(t: Tables, r: Relays, k: string, spawnThrows: set<string>) {
    CanStart(t, r, k) && k !in spawnThrows
  }

  /** SIGTERMs stopAllRelays sends while walking `keys`, a kill that throws
      sending nothing. */
  function StopSignals(keys: seq<string>, procs: Slots, killThrows: set<string>): seq<SignalSent>
    decreases |keys|
  {
    if keys == [] then []
    else
      var k := keys[|keys| - 1];
      StopSignals(keys[..|keys| - 1], procs, killThrows)
      + (if Occupied(procs, k) && k !in killThrows then [SignalSent(procs[k].value, SIGTERM)] else [])
  }

  /** Children held by the slots named in `keys`. */
  function HeldBy(keys: seq<string>, procs: Slots): set<ProcId>
    decreases |keys|
  {
    if keys == [] then {}
    else
      var k := keys[|keys| - 1];
      HeldBy(keys[..|keys| - 1], procs) + (if Occupied(procs, k) then {procs[k].value} else {})
  }

  lemma {:induction false} HeldByMeaning(keys: seq<string>, procs: Slots, p: ProcId)
    ensures p in HeldBy(keys, procs) <==> exists j | 0 <= j < |keys| :: Holds(procs, keys[j], p)
    decreases |keys|
  {
    if keys != [] {
      var init := keys[..|keys| - 1];
      HeldByMeaning(init, procs, p);
      if exists j | 0 <= j < |init| :: Holds(procs, init[j], p) {
        var j :| 0 <= j < |init| && Holds(procs, init[j], p);
        assert keys[j] == init[j];
      }
      if exists j | 0 <= j < |keys| :: Holds(procs, keys[j], p) {
        var j :| 0 <= j < |keys| && Holds(procs, keys[j], p);
        if j < |init| {
          assert init[j] == keys[j];
        }
      }
    }
  }

  // ---------------------------------------------------------------------
  // Properties of the operations.

  /** Keeping a key list in step with a map when a new key is added. */
  lemma AppendKey<V>(keys: seq<string>, m: map<string, V>, key: string, v: V)
    requires Distinct(keys) && (forall k :: k in m <==> k in keys) && key !in m
    ensures Distinct(keys + [key]) && (forall k :: k in m[key := v] <==> k in keys + [key])
  {
  }

  /** Splitting a list of distinct keys into its last key and the rest. */
  lemma SplitLast(keys: seq<string>)
    requires keys != [] && Distinct(keys)
    ensures var init := keys[..|keys| - 1]; var k := keys[|keys| - 1];
      Distinct(init) && k !in init && forall j | j in keys :: j in init || j == k
  {
    var init := keys[..|keys| - 1];
    forall j | j in keys
      ensures j in init || j == keys[|keys| - 1]
    {
      var i :| 0 <= i < |keys| && keys[i] == j;
      if i < |init| { assert init[i] == j; }
    }
  }

  /** startPlatformRelay changes nothing when a guard fails or spawn throws;
      otherwise only the platform's slot changes, to a new live child that
      relays to the platform's URL and key. */
  lemma StartFacts(t: Tables, r: Relays, key: string, streamPath: string, spawnThrows: bool)
    requires RelaysWellFormed(t, r)
    ensures var r' := Start(t, r, key, streamPath, spawnThrows);
      && (!CanStart(t, r, key) || spawnThrows ==> r' == r)
      && (CanStart(t, r, key) && !spawnThrows ==>
            && Holds(r'.processes, key, r.os.nextPid) && r.os.nextPid !in r.os.spawned
            && r'.os.spawned == r.os.spawned[r.os.nextPid := LaunchFor(t, key, streamPath)]
            && r'.os.live == r.os.live + {r.os.nextPid})
      && (forall j | j != key :: Lookup(r'.processes, j) == Lookup(r.processes, j))
      && r'.os.released == r.os.released && r'.os.signals == r.os.signals
      && r.os.nextPid <= r'.os.nextPid
  {
  }

  /** startPlatformRelay keeps the bookkeeping and leaves no child
      unsupervised. */
  lemma StartKeeps(t: Tables, r: Relays, key: string, streamPath: string, spawnThrows: bool)
    requires RelaysWellFormed(t, r)
    ensures RelaysWellFormed(t, Start(t, r, key, streamPath, spawnThrows))
    ensures Supervised(r) ==> Supervised(Start(t, r, key, streamPath, spawnThrows))
  {
    if CanStart(t, r, key) && !spawnThrows && key !in r.processes {
      AppendKey(r.slotKeys, r.processes, key, Some(r.os.nextPid));
    }
  }

  /** stopPlatformRelay: afterwards the slot is empty; a child it held is
      released, and SIGTERMed unless kill throws; nothing else changes. */
  lemma StopFacts(r: Relays, key: string, killThrows: bool)
    ensures var r' := Stop(r, key, killThrows);
      && !Occupied(r'.processes, key)
      && (Occupied(r.processes, key) ==>
            && r'.os.released == r.os.released + {r.processes[key].value}
            && r'.os.signals == r.os.signals + (if killThrows then [] else [SignalSent(r.processes[key].value, SIGTERM)]))
      && (!Occupied(r.processes, key) ==> r' == r)
      && (forall j | j != key :: Lookup(r'.processes, j) == Lookup(r.processes, j))
      && r'.processes.Keys == r.processes.Keys && r'.slotKeys == r.slotKeys
      && r'.os.spawned == r.os.spawned && r'.os.live == r.os.live && r'.os.nextPid == r.os.nextPid
  {
  }

  /** stopPlatformRelay keeps the bookkeeping and leaves no child
      unsupervised. */
  lemma StopKeeps(t: Tables, r: Relays, key: string, killThrows: bool)
    requires RelaysWellFormed(t, r)
    ensures RelaysWellFormed(t, Stop(r, key, killThrows))
    ensures Supervised(r) ==> Supervised(Stop(r, key, killThrows))
  {
  }

  /** startAllRelays keeps the bookkeeping and leaves no child unsupervised. */
  lemma {:induction false} StartAllKeeps(t: Tables, r: Relays, keys: seq<string>, streamPath: string, spawnThrows: set<string>)
    requires RelaysWellFormed(t, r)
    ensures RelaysWellFormed(t, StartAll(t, r, keys, streamPath, spawnThrows))
    ensures Supervised(r) ==> Supervised(StartAll(t, r, keys, streamPath, spawnThrows))
    decreases |keys|
  {
    if keys != [] {
      var init := keys[..|keys| - 1];
      var k := keys[|keys| - 1];
      StartAllKeeps(t, r, init, streamPath, spawnThrows);
      StartKeeps(t, StartAll(t, r, init, streamPath, spawnThrows), k, streamPath, k in spawnThrows);
    }
  }

  /** startAllRelays only adds children: earlier children keep their
      launch, none is released or signalled. */
  lemma {:induction false} StartAllOs(t: Tables, r: Relays, keys: seq<string>, streamPath: string, spawnThrows: set<string>)
    requires RelaysWellFormed(t, r)
    ensures var r' := StartAll(t, r, keys, streamPath, spawnThrows);
      && (forall p | p in r.os.spawned :: p in r'.os.spawned && r'.os.spawned[p] == r.os.spawned[p])
      && r.os.live <= r'.os.live && r'.os.released == r.os.released && r'.os.signals == r.os.signals
    decreases |keys|
  {
    if keys != [] {
      var init := keys[..|keys| - 1];
      var k := keys[|keys| - 1];
      StartAllOs(t, r, init, streamPath, spawnThrows);
      StartAllKeeps(t, r, init, streamPath, spawnThrows);
      StartFacts(t, StartAll(t, r, init, streamPath, spawnThrows), k, streamPath, k in spawnThrows);
    }
  }

  /** startAllRelays over distinct keys: every key whose guards pass on the
      state it starts from gets a new live child relaying to its platform;
      every other slot is left as it was. */
  lemma {:induction false} StartAllSlots(t: Tables, r: Relays, keys: seq<string>, streamPath: string, spawnThrows: set<string>)
    requires RelaysWellFormed(t, r) && Distinct(keys)
    ensures var r' := StartAll(t, r, keys, streamPath, spawnThrows);
      && (forall k | k in keys && StartedBy(t, r, k, spawnThrows) ::
            && Occupied(r'.processes, k) && r'.processes[k].value in r'.os.live
            && r'.processes[k].value !in r.os.spawned && r'.processes[k].value in r'.os.spawned
            && r'.os.spawned[r'.processes[k].value] == LaunchFor(t, k, streamPath))
      && (forall k | !(k in keys && StartedBy(t, r, k, spawnThrows)) :: Lookup(r'.processes, k) == Lookup(r.processes, k))
    decreases |keys|
  {
    if keys != [] {
      var init := keys[..|keys| - 1];
      var k := keys[|keys| - 1];
      SplitLast(keys);
      StartAllSlots(t, r, init, streamPath, spawnThrows);
      StartAllOs(t, r, init, streamPath, spawnThrows);
      StartAllKeeps(t, r, init, streamPath, spawnThrows);
      StartAllUntouched(t, r, init, streamPath, spawnThrows, k);
      var before := StartAll(t, r, init, streamPath, spawnThrows);
      assert CanStart(t, before, k) == CanStart(t, r, k);
      StartFacts(t, before, k, streamPath, k in spawnThrows);
    }
  }

  /** The slot of a key the forEach does not visit is left as it was. */
  lemma {:induction false} StartAllUntouched(t: Tables, r: Relays, keys: seq<string>, streamPath: string, spawnThrows: set<string>, k: string)
    requires k !in keys
    ensures Lookup(StartAll(t, r, keys, streamPath, spawnThrows).processes, k) == Lookup(r.processes, k)
    decreases |keys|
  {
    if keys != [] {
      var init := keys[..|keys| - 1];
      assert k !in init && k != keys[|keys| - 1] by {
        assert keys == init + [keys[|keys| - 1]];
      }
      StartAllUntouched(t, r, init, streamPath, spawnThrows, k);
    }
  }

  /** startAllRelays counts a start for some key iff some key's guards pass. */
  lemma {:induction false} StartAllCount(t: Tables, r: Relays, keys: seq<string>, streamPath: string, spawnThrows: set<string>)
    requires RelaysWellFormed(t, r) && Distinct(keys)
    ensures StartCount(t, r, keys, streamPath, spawnThrows) > 0 <==> exists k | k in keys :: StartedBy(t, r, k, spawnThrows)
    decreases |keys|
  {
    if keys != [] {
      var init := keys[..|keys| - 1];
      var k := keys[|keys| - 1];
      SplitLast(keys);
      StartAllCount(t, r, init, streamPath, spawnThrows);
      StartAllUntouched(t, r, init, streamPath, spawnThrows, k);
      var before := StartAll(t, r, init, streamPath, spawnThrows);
      assert CanStart(t, before, k) == CanStart(t, r, k);
      assert StartCount(t, r, keys, streamPath, spawnThrows)
        == StartCount(t, r, init, streamPath, spawnThrows) + (if StartedBy(t, r, k, spawnThrows) then 1 else 0);
      if StartCount(t, r, init, streamPath, spawnThrows) > 0 {
        var j :| j in init && StartedBy(t, r, j, spawnThrows);
        assert keys == init + [k];
        assert j in keys;
      } else if StartedBy(t, r, k, spawnThrows) {
        assert k in keys;
      }
    }
  }

  /** stopAllRelays keeps the bookkeeping and leaves no child unsupervised. */
  lemma {:induction false} StopAllKeeps(t: Tables, r: Relays, keys: seq<string>, killThrows: set<string>)
    requires RelaysWellFormed(t, r)
    ensures RelaysWellFormed(t, StopAll(r, keys, killThrows))
    ensures Supervised(r) ==> Supervised(StopAll(r, keys, killThrows))
    decreases |keys|
  {
    if keys != [] {
      var init := keys[..|keys| - 1];
      var k := keys[|keys| - 1];
      StopAllKeeps(t, r, init, killThrows);
      StopKeeps(t, StopAll(r, init, killThrows), k, k in killThrows);
    }
  }

  /** stopAllRelays empties every slot it walks and no other. */
  lemma {:induction false} StopAllSlots(r: Relays, keys: seq<string>, killThrows: set<string>)
    ensures var r' := StopAll(r, keys, killThrows);
      && (forall k | k in keys :: !Occupied(r'.processes, k))
      && (forall k | k !in keys :: Lookup(r'.processes, k) == Lookup(r.processes, k))
      && r'.processes.Keys == r.processes.Keys && r'.slotKeys == r.slotKeys
      && r'.os.spawned == r.os.spawned && r'.os.live == r.os.live && r'.os.nextPid == r.os.nextPid
    decreases |keys|
  {
    if keys != [] {
      var init := keys[..|keys| - 1];
      var k := keys[|keys| - 1];
      StopAllSlots(r, init, killThrows);
      StopFacts(StopAll(r, init, killThrows), k, k in killThrows);
      forall j | j in keys
        ensures j in init || j == k
      {
        var i :| 0 <= i < |keys| && keys[i] == j;
        if i < |init| { assert init[i] == j; }
      }
    }
  }

  /** stopAllRelays over distinct keys releases exactly the children those
      slots held and sends their SIGTERMs in key order. */
  lemma {:induction false} StopAllLog(r: Relays, keys: seq<string>, killThrows: set<string>)
    requires Distinct(keys)
    ensures var r' := StopAll(r, keys, killThrows);
      && r'.os.released == r.os.released + HeldBy(keys, r.processes)
      && r'.os.signals == r.os.signals + StopSignals(keys, r.processes, killThrows)
    decreases |keys|
  {
    if keys != [] {
      var init := keys[..|keys| - 1];
      var k := keys[|keys| - 1];
      SplitLast(keys);
      StopAllLog(r, init, killThrows);
      StopAllSlots(r, init, killThrows);
      var before := StopAll(r, init, killThrows);
      assert Lookup(before.processes, k) == Lookup(r.processes, k);
      StopFacts(before, k, k in killThrows);
    }
  }

  /** The guarded handler keeps every live child supervised. */
  lemma ExitGuardedSupervises(t: Tables, r: Relays, pid: ProcId)
    requires RelaysWellFormed(t, r) && pid in r.os.spawned
    ensures RelaysWellFormed(t, ExitGuarded(r, pid))
    ensures Supervised(r) ==> Supervised(ExitGuarded(r, pid))
  {
  }

  /** The as-written handler keeps the bookkeeping but not supervision: a
      relay for "youtube" is started, stopped and started again, and the
      first child's late close event empties the slot of the second, which
      is still live and was never stopped. */
  lemma StaleExitOrphansNewerRelay()
    ensures var t := Tables(map["youtube" := PlatformConfig("YouTube", "rtmp://a.rtmp.youtube.com/live2/", true)],
                            map["youtube" := "abcd-1234"]);
      var r0 := Relays(map[], [], Empty());
      var r1 := Start(t, Stop(Start(t, r0, "youtube", Target, false), "youtube", false), "youtube", Target, false);
      && Supervised(r1)
      && 0 in r1.os.spawned && 1 in r1.os.live && 1 !in r1.os.released
      && !Supervised(Exit(r1, 0))
  {
    var t := Tables(map["youtube" := PlatformConfig("YouTube", "rtmp://a.rtmp.youtube.com/live2/", true)],
                    map["youtube" := "abcd-1234"]);
    TrimNoPadding("abcd-1234");
    var r0 := Relays(map[], [], Empty());
    assert CanStart(t, r0, "youtube");
    var a := Start(t, r0, "youtube", Target, false);
    assert Holds(a.processes, "youtube", 0);
    var b := Stop(a, "youtube", false);
    assert CanStart(t, b, "youtube");
    var r1 := Start(t, b, "youtube", Target, false);
    assert Holds(r1.processes, "youtube", 1);
    assert r1.os.spawned[1].platformKey == "youtube";
    var r2 := Exit(r1, 0);
    assert 1 in r2.os.live && !Holds(r2.processes, "youtube", 1);
  }

  // ---------------------------------------------------------------------
  // The server, with the stateful handlers.

  class Supervisor {
    /** `platformConfigs`, with `order` its `Object.keys` order, and `currentUser`. */
    const tables: Tables
    const order: seq<string>

    /** `ffmpegProcesses`: a key is added by the first start for that platform
        and stays, holding null, afterwards; `slotKeys` is its key order. */
    var processes: Slots
    var slotKeys: seq<string>
    var pending: multiset<StartTimer>
    var os: OsView<Launch>

    function State(): Relays
      reads this
    {
      Relays(processes, slotKeys, os)
    }

    ghost predicate Valid()
      reads this
    {
      RelaysWellFormed(tables, State())
    }

    ghost predicate NoOrphans()
      reads this
    {
      Supervised(State())
    }

    /** `order` lists the platform table's keys, once each. */
    ghost predicate TableOrdered() {
      Distinct(order) && forall k :: k in tables.platforms <==> k in order
    }

    constructor (tables: Tables, order: seq<string>)
      requires Distinct(order)
      requires forall k :: k in tables.platforms <==> k in order
      ensures Valid() && NoOrphans() && TableOrdered()
      ensures this.tables == tables && this.order == order
      ensures State() == Relays(map[], [], Empty()) && pending == multiset{}
    {
      this.tables := tables;
      this.order := order;
      processes := map[];
      slotKeys := [];
      pending := multiset{};
      os := Empty();
    }

    /** startPlatformRelay. */
    method StartPlatformRelay(key: string, streamPath: string, spawnThrows: bool) returns (ok: bool)
      requires Valid()
      modifies this
      ensures Valid()
      ensures ok <==> CanStart(tables, old(State()), key) && !spawnThrows
      ensures State() == Start(tables, old(State()), key, streamPath, spawnThrows)
      ensures pending == old(pending)
      ensures old(NoOrphans()) ==> NoOrphans()
    {
      StartKeeps(tables, State(), key, streamPath, spawnThrows);
      // the four guards of the source, each returning false, then the spawn that throws
      if !(key in tables.platforms) || !tables.platforms[key].enabled { return false; }
      if !KeyUsable(key, Lookup(tables.user, key)) { return false; }
      if key in processes && processes[key].Some? { return false; }
      if spawnThrows { return false; }
      var launch := LaunchFor(tables, key, streamPath);
      var pid := os.nextPid;
      if key !in processes {
        slotKeys := slotKeys + [key];
      }
      processes, os := processes[key := Some(pid)], Spawn(os, launch);
      ok := true;
    }

    /** stopPlatformRelay. */
    method StopPlatformRelay(key: string, killThrows: bool)
      requires Valid()
      modifies this
      ensures Valid()
      ensures State() == Stop(old(State()), key, killThrows)
      ensures pending == old(pending)
      ensures old(NoOrphans()) ==> NoOrphans()
    {
      StopKeeps(tables, State(), key, killThrows);
      if key in processes && processes[key].Some? {
        var p := processes[key].value;
        processes, os := processes[key := None], Release(os, p, if killThrows then None else Some(SIGTERM));
      }
    }

    /** startAllRelays: every platform whose guards pass and whose spawn does
        not throw is started; true iff at least one started. */
    method StartAllRelays(streamPath: string, spawnThrows: set<string>) returns (ok: bool)
      requires Valid() && TableOrdered()
      modifies this
      ensures Valid()
      ensures State() == StartAll(tables, old(State()), order, streamPath, spawnThrows)
      ensures ok <==> exists k | k in tables.platforms :: StartedBy(tables, old(State()), k, spawnThrows)
      ensures pending == old(pending)
      ensures old(NoOrphans()) ==> NoOrphans()
    {
      ghost var before := State();
      StartAllKeeps(tables, before, order, streamPath, spawnThrows);
      StartAllCount(tables, before, order, streamPath, spawnThrows);
      var count := 0;
      var i := 0;
      while i < |order|
        invariant 0 <= i <= |order|
        invariant Valid()
        invariant State() == StartAll(tables, before, order[..i], streamPath, spawnThrows)
        invariant count == StartCount(tables, before, order[..i], streamPath, spawnThrows)
        invariant pending == old(pending)
      {
        var k := order[i];
        StartAllStep(tables, before, order, i, streamPath, spawnThrows);
        if k in tables.platforms && tables.platforms[k].enabled {
          var started := StartPlatformRelay(k, streamPath, k in spawnThrows);
          if started {
            count := count + 1;
          }
        }
        i := i + 1;
      }
      assert order[..i] == order;
      ok := count > 0;
    }

    /** stopAllRelays: stops every slot, in key order. */
    method StopAllRelays(killThrows: set<string>)
      requires Valid()
      modifies this
      ensures Valid()
      ensures State() == StopAll(old(State()), old(slotKeys), killThrows)
      ensures pending == old(pending)
      ensures old(NoOrphans()) ==> NoOrphans()
    {
      StopAllKeeps(tables, State(), slotKeys, killThrows);
      var keys := slotKeys;
      var i := 0;
      while i < |keys|
        invariant 0 <= i <= |keys|
        invariant RelaysWellFormed(tables, State())
        invariant State() == StopAll(old(State()), keys[..i], killThrows)
        invariant pending == old(pending)
      {
        assert keys[..i + 1][..i] == keys[..i];
        StopPlatformRelay(keys[i], keys[i] in killThrows);
        i := i + 1;
      }
      assert keys[..i] == keys;
    }

    /** The prePublish handler: classifies the path and schedules one start. */
    method PrePublish(streamPath: Option<string>)
      modifies this
      ensures pending == old(pending) + multiset{ScheduledStart(streamPath)}
      ensures State() == old(State())
    {
      var isTarget := false;
      var actualPath := if streamPath.None? || streamPath.value == "" then "undefined" else streamPath.value;
      if streamPath.None? || streamPath.value == "" || streamPath.value == "undefined" {
        isTarget := true;
        actualPath := Target;
      } else {
        isTarget := MatchTarget(actualPath);
      }
      if isTarget {
        var path := if StartsWith(actualPath, "/") then actualPath else "/" + actualPath;
        pending := pending + multiset{StartTimer(path, 2000)};
      } else {
        pending := pending + multiset{StartTimer(Target, 5000)};
      }
    }

    /** A scheduled start fires: startAllRelays on its path. */
    method FireStartTimer(t: StartTimer, spawnThrows: set<string>) returns (ok: bool)
      requires Valid() && TableOrdered()
      requires t in pending
      modifies this
      ensures Valid()
      ensures pending == old(pending) - multiset{t}
      ensures State() == StartAll(tables, old(State()), order, t.path, spawnThrows)
      ensures ok <==> exists k | k in tables.platforms :: StartedBy(tables, old(State()), k, spawnThrows)
      ensures old(NoOrphans()) ==> NoOrphans()
    {
      pending := pending - multiset{t};
      ok := StartAllRelays(t.path, spawnThrows);
    }

    /** The donePublish handler: stops every relay whatever the path.  Starts
        still pending from an earlier prePublish are not cancelled. */
    method DonePublish(killThrows: set<string>)
      requires Valid()
      modifies this
      ensures Valid()
      ensures State() == StopAll(old(State()), old(slotKeys), killThrows)
      ensures pending == old(pending)
      ensures old(NoOrphans()) ==> NoOrphans()
    {
      StopAllRelays(killThrows);
    }

    /** A child's close or error event, handled as written. */
    method OnExit(pid: ProcId)
      requires Valid()
      requires pid in os.spawned
      modifies this
      ensures Valid()
      ensures State() == Exit(old(State()), pid)
      ensures pending == old(pending)
    {
      processes, os := processes[os.spawned[pid].platformKey := None], Exited(os, pid);
    }

    /** A child's close or error event, handled with the identity guard. */
    method OnExitGuarded(pid: ProcId)
      requires Valid()
      requires pid in os.spawned
      modifies this
      ensures Valid()
      ensures State() == ExitGuarded(old(State()), pid)
      ensures pending == old(pending)
      ensures old(NoOrphans()) ==> NoOrphans()
    {
      ExitGuardedSupervises(tables, State(), pid);
      var key := os.spawned[pid].platformKey;
      processes := if Holds(processes, key, pid) then processes[key := None] else processes;
      os := Exited(os, pid);
    }
  }

  /** A publish that ends before its scheduled start fires still gets its
      relays started afterwards: donePublish leaves the timer pending. */
  method StartAfterDonePublish() returns (s: Supervisor, ok: bool)
    ensures s.Valid()
    ensures ok && Occupied(s.processes, "youtube")
  {
    var t := Tables(map["youtube" := PlatformConfig("YouTube", "rtmp://a.rtmp.youtube.com/live2/", true)],
                    map["youtube" := "abcd-1234"]);
    TrimNoPadding("abcd-1234");
    s := new Supervisor(t, ["youtube"]);
    s.PrePublish(Some(Target));
    var timer := ScheduledStart(Some(Target));
    s.DonePublish({});
    assert timer in s.pending;
    ghost var before := s.State();
    assert StartedBy(t, before, "youtube", {});
    ok := s.FireStartTimer(timer, {});
    StartAllSlots(t, before, ["youtube"], timer.path, {});
  }
}
