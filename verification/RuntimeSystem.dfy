/**
 Every interleaving of `execute`, `stop_monitor`, `invalidate_monitor_location` and the retry of
 queued finishes, with a store whose answers are chosen by the environment.

 One step is one block under `self._lock`, one engine call or one store call.  The program counter
 of a call in progress is a `Local`.  Errors that the code raises when its own bookkeeping looks
 inconsistent are the terminal local `Faulted`; module RuntimeInvariants proves it unreachable.
 */
module RuntimeSystem {
  import opened Wrappers
  import opened Runtime

  // ----- the environment -----

  datatype Receipt = Receipt(poll: PollId, run: RunId, payload: Payload)

  /** `commits` lists the rows of `poll_commits` in commit order, `finishes` the runs whose
      `finish_run` returned. */
  datatype Store = Store(commits: seq<Receipt>, finishes: seq<(RunId, string)>, nextRun: nat)

  /** The answer of `record_poll_batch` as classified by `_remember_persistence`. */
  datatype Answer = Confirmed | Failed | Indeterminate(wrote: bool)

  datatype Pick = Pick(answer: Answer, ok: bool, extra: bool, outcome: Outcome)

  ghost predicate Recorded(commits: seq<Receipt>, p: PollId) {
    exists i :: 0 <= i < |commits| && commits[i].poll == p
  }

  ghost predicate Conflicts(commits: seq<Receipt>, entry: Receipt) {
    exists i :: 0 <= i < |commits| && commits[i].poll == entry.poll && commits[i] != entry
  }

  /** A poll ID that was used for another run or another content is refused. */
  ghost function AnswerOf(commits: seq<Receipt>, entry: Receipt, a: Answer): Answer {
    if Conflicts(commits, entry) then Failed else a
  }

  ghost function Commits(commits: seq<Receipt>, entry: Receipt, a: Answer): seq<Receipt> {
    if a.Failed? || a == Indeterminate(false) || Recorded(commits, entry.poll) then commits
    else commits + [entry]
  }

  ghost function Log(commits: seq<Receipt>, r: RunId): seq<Payload> {
    if commits == [] then []
    else
      var rest := Log(commits[..|commits| - 1], r);
      var last := commits[|commits| - 1];
      if last.run == r then rest + [last.payload] else rest
  }

  // ----- engines, reduced to what persistence depends on -----

  /** `location` is the epoch under which the cached location was obtained. */
  datatype Engine = Engine(next: nat, outstanding: Option<nat>, epoch: nat, location: Option<nat>,
                           committed: seq<Payload>)

  const NEW_ENGINE := Engine(0, None, 0, None, [])

  predicate Prepared(e: EngineId, g: Engine, y: Payload) {
    y.MonitorPoll? && y.engine == e && g.outstanding == Some(y.gen)
  }

  function CommitPrepared(g: Engine, y: Payload): Engine
    requires y.MonitorPoll?
  {
    g.(outstanding := None, committed := g.committed + [y],
       location := if y.epoch == g.epoch then Some(y.epoch) else g.location)
  }

  // ----- calls in progress -----

  datatype Kind = Monitoring(identity: Identity) | OneTime(identity: Identity)

  /** `_PendingOneShotPersistence`; signature and request are one identity. */
  datatype PendingSolo = PendingSolo(poll: PollId, run: RunId, identity: Identity, outcome: Outcome)

  datatype RetryAt = RetryRecord | RetryClear | RetryFinish | RetryRelease(next: Option<Kind>)

  datatype SoloAt =
    | SoloStart
    | SoloQuery(run: RunId, poll: PollId)
    | SoloRecord(run: RunId, poll: PollId, outcome: Outcome)
    | SoloHold(run: RunId, poll: PollId, outcome: Outcome)
    | SoloFinish(run: RunId, status: string)
    | SoloEnd

  datatype PollAt =
    | PendingRecord(p: Pending, id: Identity)
    | PendingCommit(p: Pending, id: Identity)
    | PendingClear(p: Pending, id: Identity)
    | PendingRestart(id: Identity)
    | FinishRestarted(run: RunId, id: Identity)
    | Ensure(id: Identity)
    | StartRun(id: Identity)
    | AttachRun(id: Identity, engine: EngineId, run: RunId)
    | Adopt
    | Prepare(engine: EngineId, run: RunId)
    | Query(engine: EngineId, run: RunId, gen: nat, epoch: nat)
    | Record(engine: EngineId, run: RunId, y: Payload)
    | Commit(engine: EngineId, run: RunId, y: Payload)
    | Keep(engine: EngineId, run: RunId, y: Payload)
    | Discard(engine: EngineId, run: RunId, y: Payload)
    | FailPoll(prepared: Option<Payload>)
    | FinishFailed(run: RunId, status: string)
    | ReleaseFailed
    | ReleaseRetry
    | Final(keep: bool)
    | FinishStopped(run: RunId)
    | ReleaseStopped

  /** Retrying an indeterminate poll. */
  predicate PendingAt(at: PollAt) {
    at.PendingRecord? || at.PendingCommit? || at.PendingClear? || at.PendingRestart?
  }

  /** Obtaining the monitor and its run. */
  predicate AttachAt(at: PollAt) {
    at.FinishRestarted? || at.Ensure? || at.StartRun? || at.AttachRun? || at.Adopt?
  }

  /** Preparing, recording and committing a new poll. */
  predicate RecordAt(at: PollAt) {
    at.Prepare? || at.Query? || at.Record? || at.Commit? || at.Keep? || at.Discard?
  }

  /** The exception handlers. */
  predicate HandlerAt(at: PollAt) {
    at.FailPoll? || at.FinishFailed? || at.ReleaseFailed? || at.ReleaseRetry?
  }

  /** The `finally` clause while the lease is still held. */
  predicate FinallyAt(at: PollAt) {
    at.Final? || at.FinishStopped? || at.ReleaseStopped?
  }

  datatype ResolveAt = ResolveRecord | ResolveCommit | ResolveClear | ResolveRelease

  datatype Local =
    | Entering(kind: Kind)
    | Retrying(kind: Kind, solo: PendingSolo, retryAt: RetryAt)
    | SoloReady(identity: Identity)
    | Single(identity: Identity, soloAt: SoloAt)
    | PollReady(identity: Identity)
    | Polling(lease: Lease, at: PollAt)
    | Tail(lease: Lease, keep: bool)
    | Recovering
    | StopReady
    | Resolving(lease: Lease, pending: Pending, resolveAt: ResolveAt)
    | Finishing(run: RunId, status: string)
    | Faulted

  datatype Solo = Solo(pending: Option<PendingSolo>, retrying: bool, busy: bool)

  /** One pass of `_retry_pending_finishes`, serialised by `_finish_retry_lock`. */
  datatype Pass = NoPass | Pass(todo: map<RunId, string>) | Popping(run: RunId, todo: map<RunId, string>)

  datatype State = State(
    exec: Exec,
    solo: Solo,
    queue: map<RunId, string>,
    pass: Pass,
    store: Store,
    engines: seq<Engine>,
    home: map<RunId, EngineId>,
    nextPoll: nat,
    calls: map<CallId, Local>)

  /** The state after a block and the caller's next program point; None ends the call. */
  datatype Effect = Effect(state: State, next: Option<Local>)

  function Go(s: State, l: Local): Effect {
    Effect(s, Some(l))
  }

  function End(s: State): Effect {
    Effect(s, None)
  }

  function Install(e: Effect, c: CallId): State {
    e.state.(calls := match e.next case Some(l) => e.state.calls[c := l] case None => e.state.calls - {c})
  }

  ghost function Recording(s: State, entry: Receipt, a: Answer): State {
    s.(store := s.store.(commits := Commits(s.store.commits, entry, AnswerOf(s.store.commits, entry, a))))
  }

  /** `_finish_or_queue` for a run that the call holds: the store finishes it or it is queued. */
  function FinishOrQueue(s: State, r: RunId, status: string, ok: bool): State {
    if ok then s.(store := s.store.(finishes := s.store.finishes + [(r, status)]), queue := s.queue - {r})
    else s.(queue := s.queue[r := status])
  }

  function OneShotStatus(y: Outcome): string {
    if y.cancelled then "CANCELLED"
    else if y.authoritative then "COMPLETED"
    else if y.observed then "PARTIAL"
    else "FAILED"
  }

  function Start(s: State, k: Kind): Effect {
    Go(s, if k.Monitoring? then PollReady(k.identity) else SoloReady(k.identity))
  }

  // ----- one-shot steps -----

  function EnterStep(s: State, k: Kind): Effect {
    if s.solo.pending.None? then Start(s, k)
    else if s.solo.busy || s.solo.retrying then End(s)
    else Go(s.(solo := s.solo.(retrying := true)), Retrying(k, s.solo.pending.value, RetryRecord))
  }

  ghost function RetryStep(s: State, k: Kind, p: PendingSolo, at: RetryAt, pick: Pick): Effect {
    match at
    case RetryRecord =>
      var entry := Receipt(p.poll, p.run, OneShot(p.run, p.outcome));
      var a := AnswerOf(s.store.commits, entry, pick.answer);
      Go(Recording(s, entry, pick.answer),
         Retrying(k, p, if a.Confirmed? then RetryClear else RetryRelease(None)))
    case RetryClear =>
      var t := if s.solo.pending == Some(p) then s.(solo := s.solo.(pending := None)) else s;
      Go(t, Retrying(k, p, RetryFinish))
    case RetryFinish =>
      var same := k.OneTime? && k.identity == p.identity;
      Go(FinishOrQueue(s, p.run, OneShotStatus(p.outcome), pick.ok),
         Retrying(k, p, RetryRelease(if !pick.ok || same then None else Some(k))))
    case RetryRelease(next) =>
      var t := s.(solo := s.solo.(retrying := false));
      if next.None? then End(t) else Start(t, next.value)
  }

  ghost function SoloStep(s: State, id: Identity, at: SoloAt, pick: Pick): Effect {
    match at
    case SoloStart =>
      if pick.ok then
        Go(s.(store := s.store.(nextRun := s.store.nextRun + 1), nextPoll := s.nextPoll + 1),
           Single(id, SoloQuery(s.store.nextRun, s.nextPoll)))
      else Go(s, Single(id, SoloEnd))
    case SoloQuery(r, q) =>
      Go(s, Single(id, if pick.ok then SoloRecord(r, q, pick.outcome) else SoloFinish(r, "FAILED")))
    case SoloRecord(r, q, y) =>
      var entry := Receipt(q, r, OneShot(r, y));
      var a := AnswerOf(s.store.commits, entry, pick.answer);
      Go(Recording(s, entry, pick.answer),
         Single(id, if a.Confirmed? then SoloFinish(r, OneShotStatus(y))
                    else if a.Failed? then SoloFinish(r, "FAILED") else SoloHold(r, q, y)))
    case SoloHold(r, q, y) =>
      Go(s.(solo := s.solo.(pending := Some(PendingSolo(q, r, id, y)))), Single(id, SoloEnd))
    case SoloFinish(r, status) =>
      Go(FinishOrQueue(s, r, status, pick.ok), Single(id, SoloEnd))
    case SoloEnd =>
      End(s.(solo := s.solo.(busy := false)))
  }

  // ----- monitor poll steps -----

  function PollStep0(s: State, c: CallId, id: Identity): Effect {
    var (x, b) := BeginBlock(s.exec, c, s.nextPoll, id);
    var t := s.(exec := x, nextPoll := s.nextPoll + 1);
    match b
    case Busy => End(t)
    case Mismatch => Go(t, Faulted)
    case RetryPending(l, p) => Go(t, Polling(l, PendingRecord(p, id)))
    case Proceed(l, restarted) =>
      Go(t, Polling(l, if restarted.Some? then FinishRestarted(restarted.value, id) else Ensure(id)))
  }

  /** Retry of an indeterminate poll at the start of `_execute_monitor_poll`. */
  ghost function PendingStep(s: State, l: Lease, at: PollAt, pick: Pick): Effect
    requires PendingAt(at)
  {
    match at
    case PendingRecord(p, id) =>
      var entry := Receipt(p.poll, p.run, p.prepared);
      var a := AnswerOf(s.store.commits, entry, pick.answer);
      Go(Recording(s, entry, pick.answer),
         Polling(l, if a.Confirmed? then PendingCommit(p, id)
                    else if a.Failed? then ReleaseRetry else Keep(p.monitor, p.run, p.prepared)))
    case PendingCommit(p, id) => CommitStep(s, p.monitor, p.prepared, Polling(l, PendingClear(p, id)))
    case PendingClear(p, id) =>
      var (x, done) := ClearBlock(s.exec, p, id);
      Go(s.(exec := x), Polling(l, if done then Final(false) else PendingRestart(id)))
    case PendingRestart(id) =>
      var (x, d) := RestartBlock(s.exec, l, s.nextPoll);
      var t := s.(exec := x, nextPoll := s.nextPoll + 1);
      if d.None? then Go(t, Faulted)
      else
        var (l', r) := d.value;
        Go(t, Polling(l', if r.Some? then FinishRestarted(r.value, id) else Ensure(id)))
  }

  /** `_commit_prepared`: refused unless the engine still holds exactly this prepared poll. */
  function CommitStep(s: State, e: EngineId, y: Payload, next: Local): Effect {
    if e < |s.engines| && Prepared(e, s.engines[e], y) then
      Go(s.(engines := s.engines[e := CommitPrepared(s.engines[e], y)]), next)
    else Go(s, Faulted)
  }

  /** Obtaining the monitor and its run. */
  function AttachStep(s: State, c: CallId, l: Lease, at: PollAt, pick: Pick): Effect
    requires AttachAt(at)
  {
    match at
    case FinishRestarted(r, id) =>
      Go(FinishOrQueue(s, r, "RESTARTED", pick.ok), Polling(l, if pick.ok then Ensure(id) else FailPoll(None)))
    case Ensure(id) =>
      Go(s, Polling(l, if s.exec.monitor.None? then StartRun(id) else Adopt))
    case StartRun(id) =>
      if pick.ok then
        Go(s.(store := s.store.(nextRun := s.store.nextRun + 1), engines := s.engines + [NEW_ENGINE]),
           Polling(l, AttachRun(id, |s.engines|, s.store.nextRun)))
      else Go(s, Polling(l, FailPoll(None)))
    case AttachRun(id, e, r) =>
      var (x, l') := AttachBlock(s.exec, c, l, e, id, r);
      if l'.None? then Go(s, Faulted)
      else Go(s.(exec := x, home := s.home[r := e]), Polling(l'.value, Prepare(e, r)))
    case Adopt =>
      if s.exec.monitor.None? || s.exec.run.None? then Go(s, Faulted)
      else
        Go(s, Polling(l.(generation := s.exec.generation, run := s.exec.run),
                         Prepare(s.exec.monitor.value, s.exec.run.value)))
  }

  /** Preparing, recording and committing a new poll. */
  ghost function RecordStep(s: State, l: Lease, at: PollAt, pick: Pick): Effect
    requires RecordAt(at)
  {
    match at
    case Prepare(e, r) =>
      if e < |s.engines| && s.engines[e].outstanding.None? then
        var g := s.engines[e];
        Go(s.(engines := s.engines[e := g.(next := g.next + 1, outstanding := Some(g.next + 1))]),
           Polling(l, Query(e, r, g.next + 1, g.epoch)))
      else Go(s, Faulted)
    case Query(e, r, gen, epoch) =>
      if pick.ok then Go(s, Polling(l, Record(e, r, MonitorPoll(e, gen, epoch, pick.outcome))))
      else if e < |s.engines| && s.engines[e].outstanding == Some(gen) then
        Go(s.(engines := s.engines[e := s.engines[e].(outstanding := None)]), Polling(l, FailPoll(None)))
      else Go(s, Polling(l, FailPoll(None)))
    case Record(e, r, y) =>
      var entry := Receipt(l.poll, r, y);
      var a := AnswerOf(s.store.commits, entry, pick.answer);
      Go(Recording(s, entry, pick.answer),
         Polling(l, if a.Confirmed? then Commit(e, r, y)
                    else if a.Failed? then Discard(e, r, y) else Keep(e, r, y)))
    case Commit(e, r, y) => CommitStep(s, e, y, Polling(l, Final(false)))
    case Keep(e, r, y) =>
      var x := KeepBlock(s.exec, l, r, e, y);
      if x.None? then Go(s, Faulted) else Go(s.(exec := x.value), Polling(l, Final(true)))
    case Discard(e, r, y) =>
      if e < |s.engines| && Prepared(e, s.engines[e], y) then
        Go(s.(engines := s.engines[e := s.engines[e].(outstanding := None)]), Polling(l, FailPoll(Some(y))))
      else Go(s, Polling(l, FailPoll(Some(y))))
  }

  /** The exception handlers and the `finally` clause. */
  function CloseStep(s: State, c: CallId, l: Lease, at: PollAt, pick: Pick): Effect
    requires HandlerAt(at) || FinallyAt(at)
  {
    match at
    case FailPoll(prepared) =>
      var (x, r, stopped) := FailBlock(s.exec, l, prepared, pick.extra);
      Go(s.(exec := x),
         Polling(l, if r.Some? then FinishFailed(r.value, if stopped then "STOPPED" else "FAILED")
                    else ReleaseFailed))
    case FinishFailed(r, status) =>
      Go(FinishOrQueue(s, r, status, pick.ok), Polling(l, ReleaseFailed))
    case ReleaseFailed => Go(s.(exec := ReleaseBlock(s.exec, c)), Tail(l, false))
    case ReleaseRetry => Go(s.(exec := ReleaseBlock(s.exec, c)), Tail(l, true))
    case Final(keep) =>
      var (x, r) := FinallyBlock(s.exec, c, l, keep);
      var t := s.(exec := x);
      if r.Some? then Go(t, Polling(l, FinishStopped(r.value)))
      else if keep && pick.extra then Go(t, Recovering)
      else End(t)
    case FinishStopped(r) =>
      Go(FinishOrQueue(s, r, "STOPPED", pick.ok), Polling(l, ReleaseStopped))
    case ReleaseStopped => End(s.(exec := ReleaseBlock(s.exec, c)))
  }

  /** The `finally` clause of a poll whose failure handler already released the lease. */
  function TailStep(s: State, c: CallId, l: Lease, keep: bool): Effect {
    var (x, r) := FinallyBlock(s.exec, c, l, keep);
    var t := s.(exec := x);
    if r.Some? then Go(t, Finishing(r.value, "STOPPED")) else End(t)
  }

  // ----- stopping -----

  function StopStep(s: State, c: CallId): Effect {
    var (x, b) := StopBlock(s.exec, c);
    StopNext(s.(exec := x), b)
  }

  function RecoverStep(s: State, c: CallId): Effect {
    var (x, b) := RecoverBlock(s.exec, c);
    StopNext(s.(exec := x), b)
  }

  function StopNext(t: State, b: StopBegin): Effect {
    match b
    case StopBusy => End(t)
    case StopMismatch => Go(t, Faulted)
    case StopPending(l, p) => Go(t, Resolving(l, p, ResolveRecord))
    case StopDetached(r) => if r.Some? then Go(t, Finishing(r.value, "STOPPED")) else End(t)
  }

  ghost function ResolveStep(s: State, c: CallId, l: Lease, p: Pending, at: ResolveAt, pick: Pick): Effect {
    match at
    case ResolveRecord =>
      var entry := Receipt(p.poll, p.run, p.prepared);
      var a := AnswerOf(s.store.commits, entry, pick.answer);
      Go(Recording(s, entry, pick.answer),
         Resolving(l, p, if a.Confirmed? then ResolveCommit else ResolveRelease))
    case ResolveCommit => CommitStep(s, p.monitor, p.prepared, Resolving(l, p, ResolveClear))
    case ResolveClear =>
      var (x, r) := ResolveBlock(s.exec, c, l, p);
      var t := s.(exec := x);
      if r.Some? then Go(t, Finishing(r.value, "STOPPED")) else End(t)
    case ResolveRelease => End(s.(exec := ReleaseBlock(s.exec, c)))
  }

  // ----- runs of the system -----

  ghost function CallStep(s: State, c: CallId, pick: Pick): Effect
    requires c in s.calls
  {
    match s.calls[c]
    case Entering(k) => EnterStep(s, k)
    case Retrying(k, p, at) => RetryStep(s, k, p, at, pick)
    case SoloReady(id) =>
      if s.solo.busy then End(s)
      else Go(s.(solo := s.solo.(busy := true)), Single(id, SoloStart))
    case Single(id, at) => SoloStep(s, id, at, pick)
    case PollReady(id) => PollStep0(s, c, id)
    case Polling(l, at) =>
      if PendingAt(at) then
        PendingStep(s, l, at, pick)
      else if AttachAt(at) then
        AttachStep(s, c, l, at, pick)
      else if RecordAt(at) then
        RecordStep(s, l, at, pick)
      else CloseStep(s, c, l, at, pick)
    case Tail(l, keep) => TailStep(s, c, l, keep)
    case Recovering => RecoverStep(s, c)
    case StopReady => StopStep(s, c)
    case Resolving(l, p, at) => ResolveStep(s, c, l, p, at, pick)
    case Finishing(r, status) => End(FinishOrQueue(s, r, status, pick.ok))
    case Faulted => Go(s, Faulted)
  }

  datatype Event =
    | CallExecute(c: CallId, kind: Kind)
    | CallStop(c: CallId)
    | StepCall(c: CallId, pick: Pick)
    | Invalidate
    | BeginPass
    | RetryFinishRun(run: RunId, ok: bool)
    | PopFinished
    | EndPass

  /** The step that puts an indeterminate one-shot result into a slot that is already taken. */
  predicate Clobbers(s: State, e: Event) {
    e.StepCall? && e.c in s.calls && s.calls[e.c].Single? && s.calls[e.c].soloAt.SoloHold? && s.solo.pending.Some?
  }

  /** What may happen: a new call may start at any time, and every call may go on. */
  ghost predicate Possible(s: State, e: Event) {
    match e
    case CallExecute(c, _) => c !in s.calls
    case CallStop(c) => c !in s.calls
    case StepCall(c, _) => c in s.calls
    case Invalidate => true
    case BeginPass => s.pass.NoPass?
    case RetryFinishRun(r, _) => s.pass.Pass? && r in s.pass.todo
    case PopFinished => s.pass.Popping?
    case EndPass => s.pass == Pass(map[])
  }

  /** The runs of the system are those in which no one-shot result overwrites another. */
  ghost predicate Enabled(s: State, e: Event) {
    Possible(s, e) && !Clobbers(s, e)
  }

  ghost function Apply(s: State, e: Event): State
    requires Possible(s, e)
  {
    match e
    case CallExecute(c, k) => Install(Go(s, Entering(k)), c)
    case CallStop(c) => Install(Go(s, StopReady), c)
    case StepCall(c, pick) => Install(CallStep(s, c, pick), c)
    case Invalidate =>
      if s.exec.monitor.Some? && s.exec.monitor.value < |s.engines| then
        var e := s.exec.monitor.value;
        var g := s.engines[e];
        s.(engines := s.engines[e := g.(epoch := g.epoch + 1, location := None)])
      else s
    case BeginPass => s.(pass := Pass(s.queue))
    case RetryFinishRun(r, ok) =>
      if ok then
        s.(store := s.store.(finishes := s.store.finishes + [(r, s.pass.todo[r])]),
           pass := Popping(r, s.pass.todo - {r}))
      else s.(queue := s.queue[r := s.pass.todo[r]], pass := Pass(s.pass.todo - {r}))
    case PopFinished => s.(queue := s.queue - {s.pass.run}, pass := Pass(s.pass.todo))
    case EndPass => s.(pass := NoPass)
  }

  const INITIAL := State(
    Exec(None, None, None, 0, None, None, false), Solo(None, false, false), map[], NoPass,
    Store([], [], 0), [], map[], 0, map[])

  ghost predicate Legal(s: State, run: seq<Event>)
    decreases |run|
  {
    run == [] || (Enabled(s, run[0]) && Legal(Apply(s, run[0]), run[1..]))
  }

  ghost function Execute(s: State, run: seq<Event>): State
    requires Legal(s, run)
    decreases |run|
  {
    if run == [] then s else Execute(Apply(s, run[0]), run[1..])
  }
}
