/**
  The relay slot of the single-destination relay servers (server.js,
  react-to-youtube-server.js, simple-rtmp-server.js, debug-simple-server.js
  and simple-server.js under my-rtmp-server/): one global `ffmpegProcess`
  that holds the current ffmpeg child or null, next to the children the
  server has spawned.  The operations here are the steps those servers share;
  each server composes them in its own order.
*/
module SingleSlot {
  import opened Wrappers
  import opened Proc

  /** What a child was spawned with: its argument vector, and whether the OS
      gave it a pid (a spawn that fails asynchronously leaves `pid`
      undefined and delivers an `error` event instead). */
  datatype Child = Child(args: seq<string>, hasPid: bool)

  /** `ffmpegProcess` and the children spawned so far. */
  datatype Single = Single(slot: Option<ProcId>, os: OsView<Child>)

  function Initial(): (s: Single)
    ensures s.slot == None && s.os.live == {} && s.os.signals == []
  {
    Single(None, Empty())
  }

  /** The slot holds a spawned child that has not been let go of, and every
      signal went to a child the server let go of. */
  ghost predicate SlotWellFormed(s: Single) {
    && WellFormed(s.os)
    && (s.slot.Some? ==> s.slot.value in s.os.spawned && s.slot.value !in s.os.released)
    && (forall i | 0 <= i < |s.os.signals| :: s.os.signals[i].target in s.os.released)
  }

  /** Every live child is the one in the slot or was stopped on purpose. */
  ghost predicate Supervised(s: Single) {
    forall p | p in s.os.live :: p in s.os.released || s.slot == Some(p)
  }

  /** `ffmpegProcess.kill(signal); ffmpegProcess = null`, the slot being
      nulled in the catch branch as well: afterwards the slot is empty; a
      child it held is let go of, and signalled unless the kill threw. */
  function Stop(s: Single, signal: Signal, killThrows: bool): (r: Single)
    ensures r.slot == None
    ensures s.slot == None ==> r == s
    ensures s.slot.Some? ==> r.os.released == s.os.released + {s.slot.value}
    ensures s.slot.Some? ==> r.os.signals == s.os.signals + (if killThrows then [] else [SignalSent(s.slot.value, signal)])
    ensures r.os.spawned == s.os.spawned && r.os.live == s.os.live && r.os.nextPid == s.os.nextPid
    ensures SlotWellFormed(s) ==> SlotWellFormed(r)
    ensures Supervised(s) ==> Supervised(r)
  {
    match s.slot
    case None => s
    case Some(p) => Single(None, Release(s.os, p, if killThrows then None else Some(signal)))
  }

  /** `ffmpegProcess = spawn(ffmpegPath, args)`: a spawn that throws assigns
      nothing; otherwise the slot holds a new child.  Into an empty slot this
      keeps every child supervised. */
  function Assign(s: Single, args: seq<string>, outcome: SpawnOutcome): (r: Single)
    ensures outcome == SpawnThrew ==> r == s
    ensures outcome != SpawnThrew ==>
      && r.slot == Some(s.os.nextPid) && r.os.spawned == s.os.spawned[s.os.nextPid := Child(args, outcome == Launched)]
      && r.os.live == s.os.live + {s.os.nextPid}
    ensures r.os.released == s.os.released && r.os.signals == s.os.signals
    ensures SlotWellFormed(s) ==> SlotWellFormed(r)
    ensures SlotWellFormed(s) && Supervised(s) && s.slot == None ==> Supervised(r)
  {
    if outcome == SpawnThrew then s
    else Single(Some(s.os.nextPid), Spawn(s.os, Child(args, outcome == Launched)))
  }

  /** Assigning over an occupied slot loses the child it held: that child
      keeps running with nothing referring to it. */
  lemma AssignOverOccupiedOrphans(s: Single, args: seq<string>, outcome: SpawnOutcome)
    requires SlotWellFormed(s) && s.slot.Some? && s.slot.value in s.os.live
    requires outcome != SpawnThrew
    ensures !Supervised(Assign(s, args, outcome))
  {
    var q := s.slot.value;
    assert q in Assign(s, args, outcome).os.live;
  }

  /** A close or error handler as the servers write it: `ffmpegProcess =
      null`, whichever child the slot holds by then. */
  function Exit(s: Single, p: ProcId): (r: Single)
    ensures r.slot == None && r.os.live == s.os.live - {p}
    ensures r.os.spawned == s.os.spawned && r.os.released == s.os.released && r.os.signals == s.os.signals
    ensures SlotWellFormed(s) ==> SlotWellFormed(r)
  {
    Single(None, Exited(s.os, p))
  }

  /** The close or error handler with an identity test: the slot is nulled
      only while it holds the exiting child. */
  function ExitGuarded(s: Single, p: ProcId): (r: Single)
    ensures r.slot == (if s.slot == Some(p) then None else s.slot)
    ensures r.os.live == s.os.live - {p}
    ensures r.os.spawned == s.os.spawned && r.os.released == s.os.released && r.os.signals == s.os.signals
    ensures SlotWellFormed(s) ==> SlotWellFormed(r)
    ensures Supervised(s) ==> Supervised(r)
  {
    Single(if s.slot == Some(p) then None else s.slot, Exited(s.os, p))
  }

  /** The close event of an older child, arriving while the slot holds a
      newer running one, leaves the newer child running unsupervised. */
  lemma StaleExitOrphans(s: Single, p: ProcId)
    requires SlotWellFormed(s) && s.slot.Some? && s.slot.value in s.os.live && s.slot.value != p
    ensures !Supervised(Exit(s, p))
  {
    var q := s.slot.value;
    assert q in Exit(s, p).os.live;
  }

  /** The unguarded handler and the guarded one agree exactly when the
      exiting child is the one in the slot or the slot is empty. */
  lemma ExitAgreement(s: Single, p: ProcId)
    ensures Exit(s, p) == ExitGuarded(s, p) <==> s.slot == None || s.slot == Some(p)
  {
  }
}
