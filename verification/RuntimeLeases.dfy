/**
 First layer of the protocol proof: who holds the lease, and what the monitor fields look like while
 a call is at each program point.  Nothing here mentions the store.
 */
module RuntimeLeases {
  import opened Wrappers
  import opened Runtime
  import opened RuntimeSystem

  predicate Holder(l: Local) {
    l.Polling? || l.Resolving?
  }

  /** The lease can never again pass the ownership check. */
  predicate NeverOwns(x: Exec, l: Lease) {
    l.generation <= x.generation && !Owns(x, l)
  }

  ghost predicate Shape(x: Exec) {
    && (x.monitor.Some? <==> x.run.Some?)
    && (x.monitor.Some? <==> x.identity.Some?)
  }

  predicate Attached(x: Exec, l: Lease, e: EngineId, r: RunId) {
    x.monitor == Some(e) && x.run == Some(r) && l.generation == x.generation && l.run == Some(r)
  }

  predicate PendingIs(x: Exec, l: Lease, p: Pending) {
    x.pending == Some(p) && Current(x, p) && l == LeaseOf(p)
  }

  /** The monitor fields while the lease holder is at `at`. */
  predicate PollPoint(x: Exec, l: Lease, at: PollAt) {
    l.generation <= x.generation &&
    match at
    case PendingRecord(p, _) => PendingIs(x, l, p)
    case PendingCommit(p, _) => PendingIs(x, l, p)
    case PendingClear(p, _) => PendingIs(x, l, p)
    case PendingRestart(_) => x.pending.None? && Owns(x, l)
    case FinishRestarted(_, _) => x.pending.None? && x.monitor.None?
    case Ensure(_) => x.pending.None?
    case StartRun(_) => x.pending.None? && x.monitor.None?
    case AttachRun(_, _, _) => x.pending.None? && x.monitor.None?
    case Adopt => x.pending.None? && x.monitor.Some?
    case Prepare(e, r) => x.pending.None? && Attached(x, l, e, r)
    case Query(e, r, _, _) => x.pending.None? && Attached(x, l, e, r)
    case Record(e, r, _) => x.pending.None? && Attached(x, l, e, r)
    case Commit(e, r, _) => x.pending.None? && Attached(x, l, e, r)
    case Keep(e, r, y) =>
      Attached(x, l, e, r) && (x.pending.None? || x.pending == Some(Pending(l.poll, l.generation, r, e, y)))
    case Discard(e, r, _) => x.pending.None? && Attached(x, l, e, r)
    case FailPoll(_) => x.pending.None?
    case FinishFailed(_, _) => x.pending.None? && NeverOwns(x, l)
    case ReleaseFailed => x.pending.None? && NeverOwns(x, l)
    case ReleaseRetry => x.pending.Some? && PendingIs(x, l, x.pending.value)
    case Final(keep) =>
      if keep then x.pending.Some? && PendingIs(x, l, x.pending.value) else x.pending.None? && Owns(x, l)
    case FinishStopped(_) => x.pending.None?
    case ReleaseStopped => x.pending.None?
  }

  /** What a call may rely on about the monitor fields; `Faulted` may not occur. */
  predicate LocalPoint(x: Exec, l: Local) {
    match l
    case Polling(lease, at) => PollPoint(x, lease, at)
    case Tail(lease, keep) => keep || NeverOwns(x, lease)
    case Resolving(lease, p, _) => lease.generation <= x.generation && PendingIs(x, lease, p)
    case Faulted => false
    case _ => true
  }

  ghost predicate LeaseInv(s: State) {
    && Shape(s.exec)
    && (forall c :: c in s.calls && Holder(s.calls[c]) ==> s.exec.active == Some(c))
    && (s.exec.active.Some? ==> s.exec.active.value in s.calls && Holder(s.calls[s.exec.active.value]))
    && (forall c :: c in s.calls ==> LocalPoint(s.exec, s.calls[c]))
    && (s.exec.active.None? && s.exec.pending.Some? ==> Current(s.exec, s.exec.pending.value))
  }

  /** How the monitor fields may change under a call `d` that is not taking the step. */
  ghost predicate Rely(x: Exec, x': Exec, held: bool) {
    && x.generation <= x'.generation
    && (x.generation == x'.generation ==> x.run == x'.run)
    && (held ==> x' == x.(stop := x'.stop))
  }

  lemma RelyKeepsPoint(x: Exec, x': Exec, l: Local)
    requires LocalPoint(x, l) && Rely(x, x', Holder(l))
    ensures LocalPoint(x', l)
  {
  }

  /** A block of call `c` fits when it relates the fields by `Rely` for everybody else, leaves `c` at a
      point that holds (or ended), and hands the lease over correctly. */
  ghost predicate Fits(x: Exec, x': Exec, c: CallId, next: Option<Local>) {
    && Shape(x')
    && (next.Some? ==> LocalPoint(x', next.value))
    && Rely(x, x', x.active.Some? && x.active != Some(c))
    && (if next.Some? && Holder(next.value) then x'.active == Some(c) && (x.active.None? || x.active == Some(c))
        else x'.active == if x.active == Some(c) then None else x.active)
    && (x'.active.None? && x'.pending.Some? ==> Current(x', x'.pending.value))
  }

  ghost predicate Sound(s: State, e: Effect, c: CallId) {
    e.state.calls == s.calls && Fits(s.exec, e.state.exec, c, e.next)
  }

  lemma SoundKeepsLeases(s: State, e: Effect, c: CallId)
    requires LeaseInv(s) && Sound(s, e, c)
    ensures LeaseInv(Install(e, c))
  {
    var s' := Install(e, c);
    forall d | d in s'.calls ensures LocalPoint(s'.exec, s'.calls[d]) {
      if d != c {
        RelyKeepsPoint(s.exec, s'.exec, s.calls[d]);
      }
    }
  }

  /** The part of the invariant that a block of call `c` itself needs. */
  ghost predicate Here(s: State, c: CallId) {
    && c in s.calls
    && Shape(s.exec)
    && LocalPoint(s.exec, s.calls[c])
    && (Holder(s.calls[c]) <==> s.exec.active == Some(c))
    && (s.exec.active.None? && s.exec.pending.Some? ==> Current(s.exec, s.exec.pending.value))
  }

  lemma HereHolds(s: State, c: CallId)
    requires LeaseInv(s) && c in s.calls
    ensures Here(s, c)
  {
  }

  /** The engine accepts what the call is about to do; shown by the second layer. */
  predicate EngineReady(s: State, l: Local) {
    match l
    case Polling(_, PendingCommit(p, _)) =>
      p.monitor < |s.engines| && Prepared(p.monitor, s.engines[p.monitor], p.prepared)
    case Polling(_, Prepare(e, _)) => e < |s.engines| && s.engines[e].outstanding.None?
    case Polling(_, Commit(e, _, y)) => e < |s.engines| && Prepared(e, s.engines[e], y)
    case Resolving(_, p, ResolveCommit) =>
      p.monitor < |s.engines| && Prepared(p.monitor, s.engines[p.monitor], p.prepared)
    case _ => true
  }

  lemma PendingStepSound(s: State, c: CallId, l: Lease, at: PollAt, pick: Pick)
    requires Here(s, c) && s.calls[c] == Polling(l, at) && EngineReady(s, s.calls[c])
    requires PendingAt(at)
    ensures Sound(s, PendingStep(s, l, at, pick), c)
  {
  }

  lemma AttachStepSound(s: State, c: CallId, l: Lease, at: PollAt, pick: Pick)
    requires Here(s, c) && s.calls[c] == Polling(l, at)
    requires AttachAt(at)
    ensures Sound(s, AttachStep(s, c, l, at, pick), c)
  {
  }

  lemma RecordStepSound(s: State, c: CallId, l: Lease, at: PollAt, pick: Pick)
    requires Here(s, c) && s.calls[c] == Polling(l, at)
    requires at.Query? || at.Record?
    ensures Sound(s, RecordStep(s, l, at, pick), c)
  {
  }

  lemma KeepStepSound(s: State, c: CallId, l: Lease, at: PollAt, pick: Pick)
    requires Here(s, c) && s.calls[c] == Polling(l, at)
    requires at.Keep? || at.Discard?
    ensures Sound(s, RecordStep(s, l, at, pick), c)
  {
  }

  lemma EngineStepSound(s: State, c: CallId, l: Lease, at: PollAt, pick: Pick)
    requires Here(s, c) && s.calls[c] == Polling(l, at) && EngineReady(s, s.calls[c])
    requires at.Prepare? || at.Commit?
    ensures Sound(s, RecordStep(s, l, at, pick), c)
  {
  }

  lemma HandlerStepSound(s: State, c: CallId, l: Lease, at: PollAt, pick: Pick)
    requires Here(s, c) && s.calls[c] == Polling(l, at)
    requires HandlerAt(at)
    ensures Sound(s, CloseStep(s, c, l, at, pick), c)
  {
  }

  lemma FinallyFields(x: Exec, c: CallId, l: Lease, keep: bool)
    requires Shape(x) && x.active == Some(c) && PollPoint(x, l, Final(keep))
    ensures var (y, r) := FinallyBlock(x, c, l, keep);
            && Shape(y) && Rely(x, y, false) && l.generation <= y.generation
            && y.active == (if r.Some? then Some(c) else None)
            && (r.Some? ==> y.pending.None?)
            && (r.None? && y.pending.Some? ==> Current(y, y.pending.value))
  {
  }

  lemma FinallyStepSound(s: State, c: CallId, l: Lease, at: PollAt, pick: Pick)
    requires Here(s, c) && s.calls[c] == Polling(l, at)
    requires at.Final?
    ensures Sound(s, CloseStep(s, c, l, at, pick), c)
  {
    FinallyFields(s.exec, c, l, at.keep);
  }

  lemma StoppedStepSound(s: State, c: CallId, l: Lease, at: PollAt, pick: Pick)
    requires Here(s, c) && s.calls[c] == Polling(l, at)
    requires at.FinishStopped? || at.ReleaseStopped?
    ensures Sound(s, CloseStep(s, c, l, at, pick), c)
  {
  }

  lemma BeginStepSound(s: State, c: CallId, pick: Pick)
    requires Here(s, c) && (s.calls[c].PollReady? || s.calls[c].Tail?)
    ensures Sound(s, CallStep(s, c, pick), c)
  {
  }

  lemma StopStepSound(s: State, c: CallId, pick: Pick)
    requires Here(s, c) && (s.calls[c].Recovering? || s.calls[c].StopReady?)
    ensures Sound(s, CallStep(s, c, pick), c)
  {
  }

  lemma ResolveStepSound(s: State, c: CallId, pick: Pick)
    requires Here(s, c) && s.calls[c].Resolving? && EngineReady(s, s.calls[c])
    ensures Sound(s, CallStep(s, c, pick), c)
  {
  }

  lemma SoloStepSound(s: State, c: CallId, pick: Pick)
    requires Here(s, c) && (s.calls[c].SoloReady? || s.calls[c].Single? || s.calls[c].Finishing?)
    ensures Sound(s, CallStep(s, c, pick), c)
  {
  }

  lemma EnterStepSound(s: State, c: CallId, pick: Pick)
    requires Here(s, c) && (s.calls[c].Entering? || s.calls[c].Retrying?)
    ensures Sound(s, CallStep(s, c, pick), c)
  {
  }

  lemma CallStepSound(s: State, c: CallId, pick: Pick)
    requires LeaseInv(s) && c in s.calls && EngineReady(s, s.calls[c])
    ensures Sound(s, CallStep(s, c, pick), c)
  {
    HereHolds(s, c);
    match s.calls[c]
    case Polling(l, at) =>
      if PendingAt(at) {
        PendingStepSound(s, c, l, at, pick);
      } else if AttachAt(at) {
        AttachStepSound(s, c, l, at, pick);
      } else if at.Query? || at.Record? {
        RecordStepSound(s, c, l, at, pick);
      } else if at.Keep? || at.Discard? {
        KeepStepSound(s, c, l, at, pick);
      } else if at.Prepare? || at.Commit? {
        EngineStepSound(s, c, l, at, pick);
      } else if HandlerAt(at) {
        HandlerStepSound(s, c, l, at, pick);
      } else if at.Final? {
        FinallyStepSound(s, c, l, at, pick);
      } else {
        StoppedStepSound(s, c, l, at, pick);
      }
    case PollReady(_) => BeginStepSound(s, c, pick);
    case Tail(_, _) => BeginStepSound(s, c, pick);
    case Recovering => StopStepSound(s, c, pick);
    case StopReady => StopStepSound(s, c, pick);
    case Resolving(_, _, _) => ResolveStepSound(s, c, pick);
    case Entering(_) => EnterStepSound(s, c, pick);
    case Retrying(_, _, _) => EnterStepSound(s, c, pick);
    case _ => SoloStepSound(s, c, pick);
  }
}
