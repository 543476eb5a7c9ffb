/**
  The operating-system side of a relay server, reduced to what the
  supervisors observe.  Every `spawn` call that does not throw yields a child
  with a fresh identity; the child stays live until its close or error event
  has been delivered; a supervisor may let go of a child on purpose (stop it),
  and every successful `kill` is logged.
*/
module Proc {
  import opened Wrappers

  /** Identity of one spawned child process (one `spawn` call). */
  type ProcId = nat

  datatype Signal = SIGTERM | SIGKILL | SIGINT

  /** One successful `child.kill(signal)` call. */
  datatype SignalSent = SignalSent(target: ProcId, signal: Signal)

  /** What a `spawn` call does: start a child with an OS pid, return a child
      object whose start failed (an `error` event follows and `pid` is
      undefined), or throw synchronously. */
  datatype SpawnOutcome = Launched | LaunchFailed | SpawnThrew

  /** The children a server has spawned, each with a tag saying what it was
      spawned for. */
  datatype OsView<Tag> = OsView(
    nextPid: ProcId,
    spawned: map<ProcId, Tag>,
    live: set<ProcId>,
    released: set<ProcId>,
    signals: seq<SignalSent>)

  function Empty<Tag>(): OsView<Tag> {
    OsView(0, map[], {}, {}, [])
  }

  predicate WellFormed<Tag>(v: OsView<Tag>) {
    && (forall p | p in v.spawned :: p < v.nextPid)
    && v.live <= v.spawned.Keys
    && v.released <= v.spawned.Keys
  }

  /** A new child, tagged `tag`, with the next identity. */
  function Spawn<Tag>(v: OsView<Tag>, tag: Tag): (w: OsView<Tag>)
    ensures WellFormed(v) ==> WellFormed(w) && v.nextPid !in v.spawned
    ensures w.spawned == v.spawned[v.nextPid := tag] && w.nextPid > v.nextPid
    ensures w.live == v.live + {v.nextPid} && w.released == v.released && w.signals == v.signals
  {
    v.(nextPid := v.nextPid + 1, spawned := v.spawned[v.nextPid := tag], live := v.live + {v.nextPid})
  }

  /** The supervisor lets go of child `p`, having sent it `sent` (None when
      the kill threw or was not attempted). */
  function Release<Tag>(v: OsView<Tag>, p: ProcId, sent: Option<Signal>): (w: OsView<Tag>)
    ensures WellFormed(v) && p in v.spawned ==> WellFormed(w)
    ensures w.released == v.released + {p}
    ensures w.signals == v.signals + (if sent.Some? then [SignalSent(p, sent.value)] else [])
    ensures w.nextPid == v.nextPid && w.spawned == v.spawned && w.live == v.live
  {
    v.(released := v.released + {p},
       signals := v.signals + (if sent.Some? then [SignalSent(p, sent.value)] else []))
  }

  /** A signal sent to `p` without letting go of it. */
  function Signalled<Tag>(v: OsView<Tag>, p: ProcId, s: Signal): (w: OsView<Tag>)
    ensures WellFormed(v) ==> WellFormed(w)
    ensures w.signals == v.signals + [SignalSent(p, s)]
    ensures w.nextPid == v.nextPid && w.spawned == v.spawned && w.live == v.live && w.released == v.released
  {
    v.(signals := v.signals + [SignalSent(p, s)])
  }

  /** The close or error event of child `p` has been delivered. */
  function Exited<Tag>(v: OsView<Tag>, p: ProcId): (w: OsView<Tag>)
    ensures WellFormed(v) ==> WellFormed(w)
    ensures w.live == v.live - {p}
    ensures w.nextPid == v.nextPid && w.spawned == v.spawned && w.released == v.released && w.signals == v.signals
  {
    v.(live := v.live - {p})
  }

  datatype ExitKind = NormalExit | ErrorExit

  /** How a close handler reports the exit code it receives; a child killed
      by a signal reports a null code. */
  function ClassifyExit(code: Option<int>): (k: ExitKind)
    ensures k == NormalExit <==> code == Some(0)
  {
    if code == Some(0) then NormalExit else ErrorExit
  }
}
