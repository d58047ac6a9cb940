/**
 The persistence protocol of `RuntimeExecutor` (src/aruba_session_tracker/runtime.py).

 `Exec` holds the fields that describe the current monitor.  Every block that runtime.py executes
 under `self._lock` and that touches those fields is one function from `Exec` to `Exec`; the class
 `RuntimeExecutor` performs the same blocks on mutable fields and is proved equal to them.  The
 transition system of module `RuntimeSystem` interleaves these blocks with store and engine calls.
 */
module Runtime {
  import opened Wrappers

  type CallId = nat
  type RunId = nat
  type PollId = nat
  type EngineId = nat

  /** What `execute` compares to decide whether a monitor can be reused. */
  datatype Identity = Identity(signature: string, credentials: string)

  /** The value handed to `record_poll_batch`.  A monitor poll is identified by the engine that
      prepared it and by its prepare generation, a one-shot result by its run. */
  datatype Payload =
    | MonitorPoll(engine: EngineId, gen: nat, epoch: nat, outcome: Outcome)
    | OneShot(run: RunId, outcome: Outcome)

  /** The parts of a query outcome that decide the final status of a one-shot run. */
  datatype Outcome = Outcome(content: int, cancelled: bool, authoritative: bool, observed: bool)

  /** `_ActiveMonitorPoll` without its cancel token; the object identity is the owning call. */
  datatype Lease = Lease(poll: PollId, generation: nat, run: Option<RunId>)

  /** `_PendingMonitorPersistence`. */
  datatype Pending = Pending(poll: PollId, generation: nat, run: RunId, monitor: EngineId, prepared: Payload)

  datatype Exec = Exec(
    monitor: Option<EngineId>,
    identity: Option<Identity>,
    run: Option<RunId>,
    generation: nat,
    active: Option<CallId>,
    pending: Option<Pending>,
    stop: bool)

  datatype Begin =
    | Busy
    | Mismatch
    | RetryPending(lease: Lease, pending: Pending)
    | Proceed(lease: Lease, restarted: Option<RunId>)

  datatype StopBegin =
    | StopBusy
    | StopMismatch
    | StopPending(lease: Lease, pending: Pending)
    | StopDetached(run: Option<RunId>)

  /** `_lease_owns_monitor_locked`. */
  predicate Owns(x: Exec, l: Lease) {
    l.generation == x.generation && l.run.Some? && l.run == x.run
  }

  /** The negation of the three mismatch checks on a pending persistence. */
  predicate Current(x: Exec, p: Pending) {
    x.monitor == Some(p.monitor) && p.generation == x.generation && x.run == Some(p.run)
  }

  function LeaseOf(p: Pending): Lease {
    Lease(p.poll, p.generation, Some(p.run))
  }

  /** `_detach_monitor_locked`; the detached run is `x.run`. */
  function DetachBlock(x: Exec, resetStop: bool): Exec {
    x.(monitor := None, identity := None, run := None, generation := x.generation + 1,
       stop := if resetStop then false else x.stop)
  }

  /** First block of `_execute_monitor_poll`. */
  function BeginBlock(x: Exec, c: CallId, newPoll: PollId, id: Identity): (Exec, Begin) {
    if x.active.Some? then (x, Busy)
    else if x.pending.Some? then
      var p := x.pending.value;
      if !Current(x, p) then (x, Mismatch) else (x.(active := Some(c)), RetryPending(LeaseOf(p), p))
    else
      var l := Lease(newPoll, x.generation, x.run);
      var y := x.(active := Some(c));
      if x.monitor.Some? && x.identity != Some(id) then (DetachBlock(y, false), Proceed(l, x.run))
      else (y, Proceed(l, None))
  }

  /** After a confirmed retry: clear the pending record; the result tells whether to return. */
  function ClearBlock(x: Exec, p: Pending, id: Identity): (Exec, bool) {
    (if x.pending == Some(p) then x.(pending := None) else x, x.identity == Some(id) || x.stop)
  }

  /** After a confirmed retry for a changed identity: detach; None is the ownership error. */
  function RestartBlock(x: Exec, l: Lease, newPoll: PollId): (Exec, Option<(Lease, Option<RunId>)>) {
    if !Owns(x, l) then (x, None)
    else (DetachBlock(x, false), Some((Lease(newPoll, x.generation + 1, None), x.run)))
  }

  /** Attach a freshly started run and its engine; None is the ownership error. */
  function AttachBlock(x: Exec, c: CallId, l: Lease, e: EngineId, id: Identity, r: RunId): (Exec, Option<Lease>) {
    if x.active != Some(c) then (x, None)
    else
      (x.(generation := x.generation + 1, monitor := Some(e), identity := Some(id), run := Some(r)),
       Some(l.(generation := x.generation + 1, run := Some(r))))
  }

  /** Keep an indeterminate poll; None is the ownership error. */
  function KeepBlock(x: Exec, l: Lease, r: RunId, e: EngineId, prepared: Payload): Option<Exec> {
    if Owns(x, l) then Some(x.(pending := Some(Pending(l.poll, l.generation, r, e, prepared)))) else None
  }

  /** `if self._active_monitor_poll is lease: self._active_monitor_poll = None`. */
  function ReleaseBlock(x: Exec, c: CallId): Exec {
    if x.active == Some(c) then x.(active := None) else x
  }

  /** Locked block of the failure handler.  The second component is the detached run, if the lease
      owned the monitor; the third is whether the run counts as stopped rather than failed. */
  function FailBlock(x: Exec, l: Lease, prepared: Option<Payload>, cancelled: bool): (Exec, Option<RunId>, bool) {
    var y := if x.pending.Some? && Some(x.pending.value.prepared) == prepared then x.(pending := None) else x;
    var stopped := x.stop || cancelled;
    if Owns(y, l) then (DetachBlock(y, true), y.run, stopped)
    else if y.stop && y.monitor.None? then (y.(stop := false), None, stopped)
    else (y, None, stopped)
  }

  /** Locked block of the `finally` clause: the detached run, if a stop was consumed. */
  function FinallyBlock(x: Exec, c: CallId, l: Lease, keep: bool): (Exec, Option<RunId>) {
    if keep then (ReleaseBlock(x, c), None)
    else if x.stop && Owns(x, l) then (DetachBlock(x, true), x.run)
    else if x.stop && x.monitor.None? then (ReleaseBlock(x.(stop := false), c), None)
    else (ReleaseBlock(x, c), None)
  }

  /** First block of `stop_monitor`. */
  function StopBlock(x: Exec, c: CallId): (Exec, StopBegin) {
    var y := x.(stop := true);
    if y.active.Some? then (y, StopBusy)
    else if y.pending.Some? then
      var p := y.pending.value;
      if !Current(y, p) then (y, StopMismatch) else (y.(active := Some(c)), StopPending(LeaseOf(p), p))
    else (DetachBlock(y, true), StopDetached(y.run))
  }

  /** First block of `_recover_stopped_monitor_after_indeterminate`; StopBusy means "nothing to do". */
  function RecoverBlock(x: Exec, c: CallId): (Exec, StopBegin) {
    if !x.stop || x.active.Some? || x.pending.None? then (x, StopBusy)
    else
      var p := x.pending.value;
      if !Current(x, p) then (x, StopMismatch) else (x.(active := Some(c)), StopPending(LeaseOf(p), p))
  }

  /** Last block of `_resolve_pending_monitor_stop`: the detached run. */
  function ResolveBlock(x: Exec, c: CallId, l: Lease, p: Pending): (Exec, Option<RunId>) {
    var y := if x.pending == Some(p) then x.(pending := None) else x;
    if Owns(y, l) then (ReleaseBlock(DetachBlock(y, true), c), y.run) else (ReleaseBlock(y, c), None)
  }

  /** The monitor fields of `RuntimeExecutor` and its locked blocks, updated in place. */
  class RuntimeExecutor {
    var monitor: Option<EngineId>
    var identity: Option<Identity>
    var run: Option<RunId>
    var generation: nat
    var active: Option<CallId>
    var pending: Option<Pending>
    var stop: bool

    ghost function View(): Exec
      reads this
    {
      Exec(monitor, identity, run, generation, active, pending, stop)
    }

    constructor ()
      ensures View() == Exec(None, None, None, 0, None, None, false)
    {
      monitor, identity, run, generation := None, None, None, 0;
      active, pending, stop := None, None, false;
    }

    method DetachMonitor(resetStop: bool) returns (detached: Option<RunId>)
      modifies this
      ensures View() == DetachBlock(old(View()), resetStop) && detached == old(run)
    {
      detached := run;
      monitor, identity, run := None, None, None;
      generation := generation + 1;
      if resetStop {
        stop := false;
      }
    }

    method BeginPoll(c: CallId, newPoll: PollId, id: Identity) returns (b: Begin)
      modifies this
      ensures (View(), b) == BeginBlock(old(View()), c, newPoll, id)
    {
      if active.Some? {
        return Busy;
      }
      if pending.Some? {
        var p := pending.value;
        if monitor != Some(p.monitor) || p.generation != generation || run != Some(p.run) {
          return Mismatch;
        }
        active := Some(c);
        return RetryPending(LeaseOf(p), p);
      }
      var lease := Lease(newPoll, generation, run);
      active := Some(c);
      var restarted := None;
      if monitor.Some? && identity != Some(id) {
        restarted := DetachMonitor(false);
      }
      return Proceed(lease, restarted);
    }

    method ClearRetried(p: Pending, id: Identity) returns (done: bool)
      modifies this
      ensures (View(), done) == ClearBlock(old(View()), p, id)
    {
      if pending == Some(p) {
        pending := None;
      }
      var sameIdentity := identity == Some(id);
      return sameIdentity || stop;
    }

    method DetachRetried(lease: Lease, newPoll: PollId) returns (d: Option<(Lease, Option<RunId>)>)
      modifies this
      ensures (View(), d) == RestartBlock(old(View()), lease, newPoll)
    {
      if lease.generation != generation || lease.run.None? || lease.run != run {
        return None;
      }
      var restarted := DetachMonitor(false);
      return Some((Lease(newPoll, generation, None), restarted));
    }

    method Attach(c: CallId, lease: Lease, e: EngineId, id: Identity, r: RunId) returns (l: Option<Lease>)
      modifies this
      ensures (View(), l) == AttachBlock(old(View()), c, lease, e, id, r)
    {
      if active != Some(c) {
        return None;
      }
      generation := generation + 1;
      monitor, identity, run := Some(e), Some(id), Some(r);
      return Some(Lease(lease.poll, generation, run));
    }

    method KeepIndeterminate(lease: Lease, r: RunId, e: EngineId, prepared: Payload) returns (owned: bool)
      modifies this
      ensures owned == Owns(old(View()), lease)
      ensures if owned then Some(View()) == KeepBlock(old(View()), lease, r, e, prepared) else View() == old(View())
    {
      owned := lease.generation == generation && lease.run.Some? && lease.run == run;
      if owned {
        pending := Some(Pending(lease.poll, lease.generation, r, e, prepared));
      }
    }

    method ReleaseLease(c: CallId)
      modifies this
      ensures View() == ReleaseBlock(old(View()), c)
    {
      if active == Some(c) {
        active := None;
      }
    }

    method FailPoll(lease: Lease, prepared: Option<Payload>, cancelled: bool)
      returns (detached: Option<RunId>, stopped: bool)
      modifies this
      ensures (View(), detached, stopped) == FailBlock(old(View()), lease, prepared, cancelled)
    {
      detached := None;
      if pending.Some? && Some(pending.value.prepared) == prepared {
        pending := None;
      }
      stopped := stop || cancelled;
      if lease.generation == generation && lease.run.Some? && lease.run == run {
        detached := DetachMonitor(true);
      } else if stop && monitor.None? {
        stop := false;
      }
    }

    method FinallyPoll(c: CallId, lease: Lease, keep: bool) returns (detached: Option<RunId>)
      modifies this
      ensures (View(), detached) == FinallyBlock(old(View()), c, lease, keep)
    {
      detached := None;
      var owned := lease.generation == generation && lease.run.Some? && lease.run == run;
      if keep {
        ReleaseLease(c);
      } else if stop && owned {
        detached := DetachMonitor(true);
      } else if stop && monitor.None? {
        stop := false;
      }
      if detached.None? {
        ReleaseLease(c);
      }
    }

    method RequestStop(c: CallId) returns (b: StopBegin)
      modifies this
      ensures (View(), b) == StopBlock(old(View()), c)
    {
      stop := true;
      if active.Some? {
        return StopBusy;
      }
      if pending.Some? {
        var p := pending.value;
        if monitor != Some(p.monitor) || p.generation != generation || run != Some(p.run) {
          return StopMismatch;
        }
        active := Some(c);
        return StopPending(LeaseOf(p), p);
      }
      var detached := DetachMonitor(true);
      return StopDetached(detached);
    }

    method RecoverStopped(c: CallId) returns (b: StopBegin)
      modifies this
      ensures (View(), b) == RecoverBlock(old(View()), c)
    {
      if !stop || active.Some? || pending.None? {
        return StopBusy;
      }
      var p := pending.value;
      if monitor != Some(p.monitor) || p.generation != generation || run != Some(p.run) {
        return StopMismatch;
      }
      active := Some(c);
      return StopPending(LeaseOf(p), p);
    }

    method ResolveStopped(c: CallId, lease: Lease, p: Pending) returns (detached: Option<RunId>)
      modifies this
      ensures (View(), detached) == ResolveBlock(old(View()), c, lease, p)
    {
      detached := None;
      if pending == Some(p) {
        pending := None;
      }
      if lease.generation == generation && lease.run.Some? && lease.run == run {
        detached := DetachMonitor(true);
      }
      ReleaseLease(c);
    }
  }
}
