/**
 Third layer: receipts, engines and the poll that is between them.  The phase of the current monitor
 is read off the program point of the lease holder or, when nobody holds the lease, off the pending
 record.
 */
module RuntimeData {
  import opened Wrappers
  import opened Runtime
  import opened RuntimeSystem
  import opened RuntimeLeases
  import opened RuntimeRuns

  datatype Phase = Quiet | Querying(gen: nat) | Open(poll: PollId, y: Payload) | Dropping(y: Payload)

  function HolderOf(s: State): Option<Local> {
    if s.exec.active.Some? && s.exec.active.value in s.calls then Some(s.calls[s.exec.active.value]) else None
  }

  function PendingPhase(x: Exec): Phase {
    if x.pending.Some? then Open(x.pending.value.poll, x.pending.value.prepared) else Quiet
  }

  function PhaseAt(x: Exec, holder: Option<Local>): Phase {
    match holder
    case Some(Polling(_, PendingRecord(p, _))) => Open(p.poll, p.prepared)
    case Some(Polling(_, PendingCommit(p, _))) => Open(p.poll, p.prepared)
    case Some(Polling(_, Query(_, _, gen, _))) => Querying(gen)
    case Some(Polling(l, Record(_, _, y))) => Open(l.poll, y)
    case Some(Polling(l, Commit(_, _, y))) => Open(l.poll, y)
    case Some(Polling(l, Keep(_, _, y))) => Open(l.poll, y)
    case Some(Polling(_, Discard(_, _, y))) => Dropping(y)
    case Some(Polling(_, ReleaseRetry)) => PendingPhase(x)
    case Some(Polling(_, Final(true))) => PendingPhase(x)
    case Some(Resolving(_, _, ResolveClear)) => Quiet
    case Some(Resolving(_, p, _)) => Open(p.poll, p.prepared)
    case Some(_) => Quiet
    case None => PendingPhase(x)
  }

  function PhaseOf(s: State): Phase {
    PhaseAt(s.exec, HolderOf(s))
  }

  /** The poll ID that the monitor side has reserved or recorded last. */
  function MonitorPollId(x: Exec, holder: Option<Local>): Option<PollId> {
    match holder
    case Some(Polling(l, _)) => Some(l.poll)
    case Some(Resolving(l, _, _)) => Some(l.poll)
    case Some(_) => None
    case None => if x.pending.Some? then Some(x.pending.value.poll) else None
  }

  ghost predicate Homes(home: map<RunId, EngineId>, engines: seq<Engine>, nextRun: nat, x: Exec) {
    && (forall r :: r in home ==> r < nextRun && home[r] < |engines|)
    && (forall r, q :: r in home && q in home && home[r] == home[q] ==> r == q)
    && (x.run.Some? ==> x.run.value in home && x.monitor == Some(home[x.run.value]))
  }

  ghost predicate ReceiptOk(home: map<RunId, EngineId>, engines: seq<Engine>, nextRun: nat, nextPoll: nat, c: Receipt) {
    && c.poll < nextPoll
    && match c.payload
       case MonitorPoll(e, gen, _, _) =>
         c.run in home && home[c.run] == e && e < |engines| && gen <= engines[e].next
       case OneShot(r, _) => r == c.run && r !in home && r < nextRun
  }

  ghost predicate Receipts(s: State) {
    var commits := s.store.commits;
    && (forall i :: 0 <= i < |commits| ==>
         ReceiptOk(s.home, s.engines, s.store.nextRun, s.nextPoll, commits[i]))
    && (forall i, j :: 0 <= i < j < |commits| ==> commits[i].poll != commits[j].poll)
    && (forall i, j :: 0 <= i < j < |commits| ==> commits[i].payload != commits[j].payload)
    && (forall i, j :: 0 <= i < j < |commits| && commits[i].payload.OneShot? ==> commits[i].run != commits[j].run)
  }

  /** Runs that are not attached: their log is exactly what their engine committed. */
  ghost predicate SettledLogs(s: State) {
    forall r :: r in s.home && s.exec.run != Some(r) && s.home[r] < |s.engines| ==>
      Log(s.store.commits, r) == s.engines[s.home[r]].committed
  }

  ghost predicate OnlyReceipt(commits: seq<Receipt>, c: Receipt) {
    forall i :: 0 <= i < |commits| && (commits[i].payload == c.payload || commits[i].poll == c.poll) ==> commits[i] == c
  }

  /** The attached run: its log is what the engine committed, plus the open poll if it is durable. */
  ghost predicate PhaseData(commits: seq<Receipt>, g: Engine, e: EngineId, r: RunId, ph: Phase) {
    match ph
    case Quiet => g.outstanding.None? && Log(commits, r) == g.committed
    case Querying(gen) =>
      && g.outstanding == Some(gen) && gen == g.next && Log(commits, r) == g.committed
      && forall i :: 0 <= i < |commits| && commits[i].payload.MonitorPoll? && commits[i].payload.engine == e ==>
           commits[i].payload.gen < gen
    case Open(p, y) =>
      && Prepared(e, g, y) && y.gen <= g.next && OnlyReceipt(commits, Receipt(p, r, y))
      && Log(commits, r) == g.committed + (if Recorded(commits, p) then [y] else [])
    case Dropping(y) => Prepared(e, g, y) && Log(commits, r) == g.committed
  }

  ghost predicate MonitorData(s: State) {
    s.exec.monitor.Some? && s.exec.run.Some? ==>
      var e, r := s.exec.monitor.value, s.exec.run.value;
      e < |s.engines| && PhaseData(s.store.commits, s.engines[e], e, r, PhaseOf(s))
  }

  ghost predicate NewRun(s: State, e: EngineId, r: RunId) {
    && e < |s.engines| && s.engines[e] == NEW_ENGINE && (forall q :: q in s.home ==> s.home[q] != e)
    && r !in s.home && r < s.store.nextRun
    && (forall i :: 0 <= i < |s.store.commits| ==> s.store.commits[i].run != r)
  }

  /** Program points at which the poll ID of the lease was not yet handed to the store. */
  predicate Unrecorded(at: PollAt) {
    || at.FinishRestarted? || at.Ensure? || at.StartRun? || at.AttachRun? || at.Adopt?
    || at.Prepare? || at.Query? || at.Record?
  }

  ghost predicate HolderData(s: State, l: Local) {
    match l
    case Polling(lease, at) =>
      && lease.poll < s.nextPoll
      && (Unrecorded(at) ==> !Recorded(s.store.commits, lease.poll))
      && (at.Commit? ==> Recorded(s.store.commits, lease.poll))
      && (at.PendingCommit? ==> Recorded(s.store.commits, at.p.poll))
      && (at.AttachRun? ==> NewRun(s, at.engine, at.run))
    case Resolving(lease, p, at) =>
      lease.poll < s.nextPoll && (at.ResolveCommit? ==> Recorded(s.store.commits, p.poll))
    case _ => true
  }

  ghost predicate SoloReserved(s: State, r: RunId, q: PollId) {
    && r < s.store.nextRun && q < s.nextPoll && r !in s.home
    && MonitorPollId(s.exec, HolderOf(s)) != Some(q)
  }

  ghost predicate SoloUnused(s: State, r: RunId, q: PollId) {
    && SoloReserved(s, r, q)
    && forall i :: 0 <= i < |s.store.commits| ==> s.store.commits[i].run != r && s.store.commits[i].poll != q
  }

  ghost predicate SoloOpen(s: State, r: RunId, q: PollId, y: Outcome) {
    && SoloReserved(s, r, q)
    && forall i :: 0 <= i < |s.store.commits| && (s.store.commits[i].run == r || s.store.commits[i].poll == q) ==>
         s.store.commits[i] == Receipt(q, r, OneShot(r, y))
  }

  ghost predicate SoloData(s: State, l: Local) {
    match l
    case Single(_, SoloQuery(r, q)) => SoloUnused(s, r, q)
    case Single(_, SoloRecord(r, q, _)) => SoloUnused(s, r, q)
    case Single(_, SoloHold(r, q, y)) => SoloOpen(s, r, q, y)
    case _ => true
  }

  ghost predicate WaitingData(s: State) {
    s.solo.pending.Some? ==>
      var p := s.solo.pending.value;
      SoloOpen(s, p.run, p.poll, p.outcome)
  }

  ghost predicate DataInv(s: State) {
    && Homes(s.home, s.engines, s.store.nextRun, s.exec)
    && Receipts(s)
    && SettledLogs(s)
    && MonitorData(s)
    && (HolderOf(s).Some? ==> HolderData(s, HolderOf(s).value))
    && (s.exec.pending.Some? ==> s.exec.pending.value.poll < s.nextPoll)
    && (forall c :: c in s.calls ==> SoloData(s, s.calls[c]))
    && WaitingData(s)
  }

  // ----- receipts are appended -----

  lemma LogAppend(commits: seq<Receipt>, c: Receipt, r: RunId)
    ensures Log(commits + [c], r) == if c.run == r then Log(commits, r) + [c.payload] else Log(commits, r)
  {
    assert (commits + [c])[..|commits|] == commits;
  }

  lemma RecordedAppend(commits: seq<Receipt>, c: Receipt, p: PollId)
    ensures Recorded(commits + [c], p) <==> Recorded(commits, p) || c.poll == p
  {
    if Recorded(commits, p) {
      var i :| 0 <= i < |commits| && commits[i].poll == p;
      assert (commits + [c])[i].poll == p;
    }
    if c.poll == p {
      assert (commits + [c])[|commits|].poll == p;
    }
  }

  /** With the invariant, the store never sees a conflicting reuse of a poll ID, and afterwards a
      confirmed poll is durable, a failed first attempt is not. */
  lemma RecordingOutcome(commits: seq<Receipt>, c: Receipt, a: Answer)
    requires OnlyReceipt(commits, c)
    ensures AnswerOf(commits, c, a) == a
    ensures a.Confirmed? ==> Recorded(Commits(commits, c, a), c.poll)
    ensures Commits(commits, c, a) == commits || (Commits(commits, c, a) == commits + [c] && !Recorded(commits, c.poll))
    ensures a.Failed? ==> Commits(commits, c, a) == commits
  {
    RecordedAppend(commits, c, c.poll);
  }

  lemma PhaseDataRecording(commits: seq<Receipt>, g: Engine, e: EngineId, r: RunId, p: PollId, y: Payload)
    requires PhaseData(commits, g, e, r, Open(p, y)) && !Recorded(commits, p)
    ensures PhaseData(commits + [Receipt(p, r, y)], g, e, r, Open(p, y))
  {
    LogAppend(commits, Receipt(p, r, y), r);
    RecordedAppend(commits, Receipt(p, r, y), p);
  }

  lemma PhaseDataForeign(commits: seq<Receipt>, c: Receipt, g: Engine, e: EngineId, r: RunId, ph: Phase)
    requires PhaseData(commits, g, e, r, ph) && c.run != r && c.payload.OneShot?
    requires ph.Open? ==> c.poll != ph.poll
    ensures PhaseData(commits + [c], g, e, r, ph)
  {
    LogAppend(commits, c, r);
    if ph.Open? {
      RecordedAppend(commits, c, ph.poll);
    }
  }

  lemma PhaseDataCommit(commits: seq<Receipt>, g: Engine, e: EngineId, r: RunId, p: PollId, y: Payload)
    requires PhaseData(commits, g, e, r, Open(p, y)) && Recorded(commits, p)
    ensures PhaseData(commits, CommitPrepared(g, y), e, r, Quiet)
  {
  }

  // ----- blocks that touch neither receipts nor engines -----

  function HolderAfter(s: State, e: Effect, c: CallId): Option<Local> {
    if e.next.Some? && Holder(e.next.value) then e.next
    else if s.exec.active == Some(c) then None
    else HolderOf(s)
  }

  lemma HolderAfterInstall(s: State, e: Effect, c: CallId)
    requires LeaseInv(s) && c in s.calls && Sound(s, e, c)
    ensures HolderOf(Install(e, c)) == HolderAfter(s, e, c)
  {
  }

  /** The reserved poll ID stays, disappears, or is a new one. */
  ghost predicate PollIdMoves(s: State, e: Effect, c: CallId) {
    var p' := MonitorPollId(e.state.exec, HolderAfter(s, e, c));
    p'.None? || p' == MonitorPollId(s.exec, HolderOf(s)) || p'.value >= s.nextPoll
  }

  ghost predicate Untouched(s: State, e: Effect, c: CallId) {
    var t := e.state;
    && t.store.commits == s.store.commits && t.store.nextRun == s.store.nextRun
    && t.engines == s.engines && t.home == s.home && s.nextPoll <= t.nextPoll
    && ((t.exec.monitor == s.exec.monitor && t.exec.run == s.exec.run
         && (s.exec.monitor.Some? ==> PhaseAt(t.exec, HolderAfter(s, e, c)) == PhaseOf(s)))
        || (t.exec.monitor.None? && t.exec.run.None? && PhaseOf(s).Quiet?))
    && PollIdMoves(s, e, c)
    && (t.exec.pending.Some? ==> t.exec.pending.value.poll < t.nextPoll)
  }

  /** The data that belongs to the stepping call itself and to the one-shot slot. */
  ghost predicate OwnData(s: State, e: Effect, c: CallId) {
    && (e.next.Some? && Holder(e.next.value) ==> HolderData(e.state, e.next.value))
    && (e.next.Some? ==> SoloData(Install(e, c), e.next.value))
    && (e.state.solo.pending == s.solo.pending || WaitingData(Install(e, c)))
  }

  lemma UntouchedKeepsSolo(s: State, e: Effect, c: CallId, l: Local)
    requires LeaseInv(s) && c in s.calls && Sound(s, e, c) && Untouched(s, e, c) && SoloData(s, l)
    ensures SoloData(Install(e, c), l)
  {
    HolderAfterInstall(s, e, c);
  }

  lemma UntouchedKeepsMonitor(s: State, e: Effect, c: CallId)
    requires LeaseInv(s) && DataInv(s) && c in s.calls && Sound(s, e, c) && Untouched(s, e, c)
    ensures var s' := Install(e, c);
            Homes(s'.home, s'.engines, s'.store.nextRun, s'.exec) && Receipts(s') && SettledLogs(s') && MonitorData(s')
  {
    HolderAfterInstall(s, e, c);
    var s' := Install(e, c);
    assert Homes(s'.home, s'.engines, s'.store.nextRun, s'.exec);
    assert Receipts(s');
    assert SettledLogs(s');
    assert MonitorData(s');
  }

  lemma UntouchedKeepsData(s: State, e: Effect, c: CallId)
    requires LeaseInv(s) && DataInv(s) && c in s.calls && Sound(s, e, c) && Untouched(s, e, c) && OwnData(s, e, c)
    ensures DataInv(Install(e, c))
  {
    HolderAfterInstall(s, e, c);
    var s' := Install(e, c);
    UntouchedKeepsMonitor(s, e, c);
    forall d | d in s'.calls ensures SoloData(s', s'.calls[d]) {
      if d != c {
        UntouchedKeepsSolo(s, e, c, s.calls[d]);
      }
    }
    if s'.solo.pending == s.solo.pending {
      assert WaitingData(s);
    }
    if HolderOf(s').Some? && !(e.next.Some? && Holder(e.next.value)) {
      assert HolderData(s, HolderOf(s).value);
    }
  }

  /** What a block of call `c` may use. */
  ghost predicate DataHere(s: State, c: CallId) {
    && Here(s, c)
    && (Holder(s.calls[c]) ==> HolderOf(s) == Some(s.calls[c]) && HolderData(s, s.calls[c]))
    && (s.exec.pending.Some? ==> s.exec.pending.value.poll < s.nextPoll)
    && SoloData(s, s.calls[c])
    && !Recorded(s.store.commits, s.nextPoll)
    && (s.exec.active.None? ==> HolderOf(s).None?)
    && SoloPoint(s.solo, s.calls[c])
  }

  lemma DataHereHolds(s: State, c: CallId)
    requires LeaseInv(s) && SoloInv(s) && DataInv(s) && c in s.calls
    ensures DataHere(s, c)
  {
    HereHolds(s, c);
    assert SoloPoint(s.solo, s.calls[c]) && SoloData(s, s.calls[c]);
  }

  lemma AttachUntouched(s: State, c: CallId, l: Lease, at: PollAt, pick: Pick)
    requires DataHere(s, c) && s.calls[c] == Polling(l, at)
    requires at.FinishRestarted? || at.Ensure? || at.Adopt? || (at.StartRun? && !pick.ok)
    ensures var e := AttachStep(s, c, l, at, pick); Untouched(s, e, c) && OwnData(s, e, c)
  {
  }

  lemma PendingUntouched(s: State, c: CallId, l: Lease, at: PollAt, pick: Pick)
    requires DataHere(s, c) && s.calls[c] == Polling(l, at)
    requires at.PendingClear? || at.PendingRestart?
    ensures var e := PendingStep(s, l, at, pick); Untouched(s, e, c) && OwnData(s, e, c)
  {
  }

  lemma KeepUntouched(s: State, c: CallId, l: Lease, at: PollAt, pick: Pick)
    requires DataHere(s, c) && s.calls[c] == Polling(l, at) && at.Keep?
    ensures var e := RecordStep(s, l, at, pick); Untouched(s, e, c) && OwnData(s, e, c)
  {
  }

  lemma HandlerUntouched(s: State, c: CallId, l: Lease, at: PollAt, pick: Pick)
    requires DataHere(s, c) && s.calls[c] == Polling(l, at)
    requires HandlerAt(at)
    ensures var e := CloseStep(s, c, l, at, pick); Untouched(s, e, c) && OwnData(s, e, c)
  {
  }

  lemma FinallyUntouched(s: State, c: CallId, l: Lease, at: PollAt, pick: Pick)
    requires DataHere(s, c) && s.calls[c] == Polling(l, at)
    requires FinallyAt(at)
    ensures var e := CloseStep(s, c, l, at, pick); Untouched(s, e, c) && OwnData(s, e, c)
  {
    if at.Final? {
      FinallyFields(s.exec, c, l, at.keep);
    }
  }

  lemma BeginUntouched(s: State, c: CallId, pick: Pick)
    requires DataHere(s, c) && s.calls[c].PollReady?
    ensures var e := CallStep(s, c, pick); Untouched(s, e, c) && OwnData(s, e, c)
  {
  }

  lemma TailUntouched(s: State, c: CallId, pick: Pick)
    requires DataHere(s, c) && s.calls[c].Tail?
    ensures var e := CallStep(s, c, pick); Untouched(s, e, c) && OwnData(s, e, c)
  {
  }

  lemma StopUntouched(s: State, c: CallId, pick: Pick)
    requires DataHere(s, c) && (s.calls[c].Recovering? || s.calls[c].StopReady?)
    ensures var e := CallStep(s, c, pick); Untouched(s, e, c) && OwnData(s, e, c)
  {
  }

  lemma ResolveUntouched(s: State, c: CallId, pick: Pick)
    requires DataHere(s, c) && s.calls[c].Resolving?
    requires s.calls[c].resolveAt.ResolveClear? || s.calls[c].resolveAt.ResolveRelease?
    ensures var e := CallStep(s, c, pick); Untouched(s, e, c) && OwnData(s, e, c)
  {
  }

  lemma EnterUntouched(s: State, c: CallId, pick: Pick)
    requires DataHere(s, c) && s.calls[c].Entering?
    ensures var e := CallStep(s, c, pick); Untouched(s, e, c) && OwnData(s, e, c)
  {
  }

  lemma RetryEndUntouched(s: State, c: CallId, pick: Pick)
    requires DataHere(s, c) && s.calls[c].Retrying? && s.calls[c].retryAt.RetryRelease?
    ensures var e := CallStep(s, c, pick); Untouched(s, e, c) && OwnData(s, e, c)
  {
  }

  lemma RetryUntouched(s: State, c: CallId, pick: Pick)
    requires DataHere(s, c) && s.calls[c].Retrying? && !s.calls[c].retryAt.RetryRecord?
    ensures var e := CallStep(s, c, pick); Untouched(s, e, c) && OwnData(s, e, c)
  {
    if s.calls[c].retryAt.RetryRelease? {
      RetryEndUntouched(s, c, pick);
    }
  }

  lemma SingleQueryUntouched(s: State, c: CallId, pick: Pick)
    requires DataHere(s, c) && s.calls[c].Single?
    requires s.calls[c].soloAt.SoloQuery? || s.calls[c].soloAt.SoloHold?
    ensures var e := CallStep(s, c, pick); Untouched(s, e, c) && OwnData(s, e, c)
  {
  }

  lemma SingleEndUntouched(s: State, c: CallId, pick: Pick)
    requires DataHere(s, c) && s.calls[c].Single?
    requires s.calls[c].soloAt.SoloFinish? || s.calls[c].soloAt.SoloEnd? || (s.calls[c].soloAt.SoloStart? && !pick.ok)
    ensures var e := CallStep(s, c, pick); Untouched(s, e, c) && OwnData(s, e, c)
  {
  }

  lemma SingleUntouched(s: State, c: CallId, pick: Pick)
    requires DataHere(s, c) && s.calls[c].Single?
    requires !s.calls[c].soloAt.SoloRecord? && (s.calls[c].soloAt.SoloStart? ==> !pick.ok)
    ensures var e := CallStep(s, c, pick); Untouched(s, e, c) && OwnData(s, e, c)
  {
    if s.calls[c].soloAt.SoloQuery? || s.calls[c].soloAt.SoloHold? {
      SingleQueryUntouched(s, c, pick);
    } else {
      SingleEndUntouched(s, c, pick);
    }
  }

  lemma FinishingUntouched(s: State, c: CallId, pick: Pick)
    requires DataHere(s, c) && (s.calls[c].SoloReady? || s.calls[c].Finishing?)
    ensures var e := CallStep(s, c, pick); Untouched(s, e, c) && OwnData(s, e, c)
  {
  }

  // ----- blocks that append a receipt -----

  /** Only receipts grow, by a receipt that fits; everything that reads them is re-established. */
  lemma AppendKeepsReceipts(s: State, t: State, x: Receipt)
    requires Receipts(s) && t.store.commits == s.store.commits + [x]
    requires t.home == s.home && t.engines == s.engines
    requires t.store.nextRun == s.store.nextRun && t.nextPoll == s.nextPoll
    requires ReceiptOk(s.home, s.engines, s.store.nextRun, s.nextPoll, x) && OnlyReceipt(s.store.commits, x)
    requires !Recorded(s.store.commits, x.poll)
    requires x.payload.OneShot? ==> forall i :: 0 <= i < |s.store.commits| ==> s.store.commits[i].run != x.run
    ensures Receipts(t)
  {
    var commits := s.store.commits;
    forall i | 0 <= i < |commits|
      ensures commits[i].poll != x.poll && commits[i].payload != x.payload
              && (commits[i].payload.OneShot? ==> commits[i].run != x.run)
    {
      assert ReceiptOk(s.home, s.engines, s.store.nextRun, s.nextPoll, commits[i]);
    }
  }

  lemma AppendKeepsSettled(s: State, t: State, x: Receipt)
    requires SettledLogs(s) && t.store.commits == s.store.commits + [x]
    requires t.home == s.home && t.engines == s.engines && t.exec.run == s.exec.run
    requires x.run !in s.home || s.exec.run == Some(x.run)
    ensures SettledLogs(t)
  {
    forall r | r in t.home && t.exec.run != Some(r) && t.home[r] < |t.engines|
      ensures Log(t.store.commits, r) == t.engines[t.home[r]].committed
    {
      LogAppend(s.store.commits, x, r);
    }
  }

  /** A one-shot slot that does not belong to the appended receipt is untouched by it. */
  lemma AppendKeepsSolo(s: State, t: State, x: Receipt, l: Local)
    requires SoloData(s, l)
    requires t.store == s.store.(commits := s.store.commits + [x]) && t.home == s.home && t.nextPoll == s.nextPoll
    requires MonitorPollId(t.exec, HolderOf(t)) == MonitorPollId(s.exec, HolderOf(s)) == Some(x.poll)
    requires x.run in s.home
    ensures SoloData(t, l)
  {
  }

  /** The receipts and the logs when the receipt of the open monitor poll is written. */
  lemma MonitorAppendKeepsLogs(s: State, t: State, r: RunId, p: PollId, y: Payload)
    requires DataInv(s) && s.exec.run == Some(r) && s.exec.monitor.Some? && PhaseOf(s) == Open(p, y)
    requires t.store == s.store.(commits := s.store.commits + [Receipt(p, r, y)])
    requires t.home == s.home && t.engines == s.engines && t.nextPoll == s.nextPoll
    requires t.exec.run == s.exec.run && t.exec.monitor == s.exec.monitor && PhaseOf(t) == Open(p, y)
    requires !Recorded(s.store.commits, p) && p < s.nextPoll
    ensures Receipts(t) && SettledLogs(t) && MonitorData(t)
  {
    var x, eng := Receipt(p, r, y), s.exec.monitor.value;
    assert PhaseData(s.store.commits, s.engines[eng], eng, r, Open(p, y));
    AppendKeepsReceipts(s, t, x);
    AppendKeepsSettled(s, t, x);
    PhaseDataRecording(s.store.commits, s.engines[eng], eng, r, p, y);
  }

  /** `record_poll_batch` for the open monitor poll, when it writes the receipt. */
  lemma MonitorAppendKeepsData(s: State, e: Effect, c: CallId, r: RunId, p: PollId, y: Payload)
    requires LeaseInv(s) && DataInv(s) && c in s.calls && Sound(s, e, c) && s.exec.active == Some(c)
    requires s.exec.run == Some(r) && s.exec.monitor.Some? && PhaseOf(s) == Open(p, y)
    requires e.state == s.(store := s.store.(commits := s.store.commits + [Receipt(p, r, y)]))
    requires !Recorded(s.store.commits, p) && p < s.nextPoll
    requires e.next.Some? && Holder(e.next.value) && HolderData(e.state, e.next.value)
    requires MonitorPollId(s.exec, e.next) == MonitorPollId(s.exec, HolderOf(s)) == Some(p)
    requires PhaseAt(s.exec, e.next) == Open(p, y)
    ensures DataInv(Install(e, c))
  {
    HolderAfterInstall(s, e, c);
    var s' := Install(e, c);
    var x := Receipt(p, r, y);
    MonitorAppendKeepsLogs(s, s', r, p, y);
    assert WaitingData(s');
    forall d | d in s'.calls ensures SoloData(s', s'.calls[d]) {
      if d != c {
        AppendKeepsSolo(s, s', x, s.calls[d]);
      }
    }
  }

  /** A call of the attached engine, or a mere change of phase when `g'` is the old engine. */
  ghost predicate EngineStep(s: State, e: Effect, c: CallId, g': Engine) {
    && s.exec.active == Some(c) && s.exec.monitor.Some? && s.exec.run.Some? && s.exec.monitor.value < |s.engines|
    && e.state == s.(engines := s.engines[s.exec.monitor.value := g'])
    && s.engines[s.exec.monitor.value].next <= g'.next
    && e.next.Some? && Holder(e.next.value)
    && MonitorPollId(s.exec, e.next) == MonitorPollId(s.exec, HolderOf(s))
    && PhaseData(s.store.commits, g', s.exec.monitor.value, s.exec.run.value, PhaseAt(s.exec, e.next))
  }

  lemma EngineStepKeepsData(s: State, e: Effect, c: CallId, g': Engine)
    requires LeaseInv(s) && DataInv(s) && c in s.calls && Sound(s, e, c) && EngineStep(s, e, c, g')
    requires HolderData(e.state, e.next.value)
    ensures DataInv(Install(e, c))
  {
    HolderAfterInstall(s, e, c);
    var s' := Install(e, c);
    forall i | 0 <= i < |s'.store.commits|
      ensures ReceiptOk(s'.home, s'.engines, s'.store.nextRun, s'.nextPoll, s'.store.commits[i])
    {
      assert ReceiptOk(s.home, s.engines, s.store.nextRun, s.nextPoll, s.store.commits[i]);
    }
    forall r | r in s'.home && s'.exec.run != Some(r) && s'.home[r] < |s'.engines|
      ensures Log(s'.store.commits, r) == s'.engines[s'.home[r]].committed
    {
      assert s.home[r] != s.home[s.exec.run.value];
    }
    forall d | d in s'.calls ensures SoloData(s', s'.calls[d]) {
      if d != c {
        assert SoloData(s, s.calls[d]);
      }
    }
  }
}
