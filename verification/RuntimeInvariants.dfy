/**
 Fourth layer: every event keeps the three invariants, so they hold in every reachable state.
 */
module RuntimeInvariants {
  import opened Wrappers
  import opened Runtime
  import opened RuntimeSystem
  import opened RuntimeLeases
  import opened RuntimeRuns
  import opened RuntimeData

  ghost predicate Inv(s: State) {
    LeaseInv(s) && RunsInv(s) && DataInv(s)
  }

  /** The engine is never found in an unexpected state. */
  lemma EngineIsReady(s: State, c: CallId)
    requires LeaseInv(s) && DataInv(s) && c in s.calls
    ensures EngineReady(s, s.calls[c])
  {
    HereHolds(s, c);
  }

  // ----- recording the open monitor poll -----

  lemma RecordAnswered(s: State, e: Effect, c: CallId, r: RunId, p: PollId, y: Payload, a: Answer)
    requires LeaseInv(s) && DataInv(s) && c in s.calls && Sound(s, e, c) && s.exec.active == Some(c)
    requires s.exec.run == Some(r) && s.exec.monitor.Some? && PhaseOf(s) == Open(p, y)
    requires e.state == Recording(s, Receipt(p, r, y), a) && p < s.nextPoll
    requires e.next.Some? && Holder(e.next.value) && HolderData(e.state, e.next.value)
    requires MonitorPollId(s.exec, e.next) == MonitorPollId(s.exec, HolderOf(s)) == Some(p)
    requires PhaseAt(s.exec, e.next) == Open(p, y)
             || (a.Failed? && PhaseAt(s.exec, e.next) == Dropping(y) && !Recorded(s.store.commits, p))
    ensures DataInv(Install(e, c))
  {
    var g := s.engines[s.exec.monitor.value];
    RecordingOutcome(s.store.commits, Receipt(p, r, y), a);
    if e.state.store.commits == s.store.commits {
      assert s.engines[s.exec.monitor.value := g] == s.engines;
      EngineStepKeepsData(s, e, c, g);
    } else {
      MonitorAppendKeepsData(s, e, c, r, p, y);
    }
  }

  lemma PendingRecordKeepsData(s: State, c: CallId, l: Lease, at: PollAt, pick: Pick)
    requires LeaseInv(s) && DataInv(s) && DataHere(s, c) && s.calls[c] == Polling(l, at) && at.PendingRecord?
    ensures DataInv(Install(PendingStep(s, l, at, pick), c))
  {
    var e := PendingStep(s, l, at, pick);
    PendingStepSound(s, c, l, at, pick);
    var p := at.p;
    RecordingOutcome(s.store.commits, Receipt(p.poll, p.run, p.prepared), pick.answer);
    RecordAnswered(s, e, c, p.run, p.poll, p.prepared, pick.answer);
  }

  lemma ResolveRecordKeepsData(s: State, c: CallId, l: Lease, p: Pending, pick: Pick)
    requires LeaseInv(s) && DataInv(s) && DataHere(s, c) && s.calls[c] == Resolving(l, p, ResolveRecord)
    ensures DataInv(Install(ResolveStep(s, c, l, p, ResolveRecord, pick), c))
  {
    var e := ResolveStep(s, c, l, p, ResolveRecord, pick);
    ResolveStepSound(s, c, pick);
    RecordingOutcome(s.store.commits, Receipt(p.poll, p.run, p.prepared), pick.answer);
    RecordAnswered(s, e, c, p.run, p.poll, p.prepared, pick.answer);
  }

  lemma FirstRecordKeepsData(s: State, c: CallId, l: Lease, at: PollAt, pick: Pick)
    requires LeaseInv(s) && DataInv(s) && DataHere(s, c) && s.calls[c] == Polling(l, at) && at.Record?
    ensures DataInv(Install(RecordStep(s, l, at, pick), c))
  {
    var e := RecordStep(s, l, at, pick);
    RecordStepSound(s, c, l, at, pick);
    RecordingOutcome(s.store.commits, Receipt(l.poll, at.run, at.y), pick.answer);
    RecordAnswered(s, e, c, at.run, l.poll, at.y, pick.answer);
  }

  // ----- engine calls -----

  lemma PendingCommitKeepsData(s: State, c: CallId, l: Lease, at: PollAt, pick: Pick)
    requires LeaseInv(s) && DataInv(s) && DataHere(s, c) && s.calls[c] == Polling(l, at) && at.PendingCommit?
    ensures DataInv(Install(PendingStep(s, l, at, pick), c))
  {
    EngineIsReady(s, c);
    PendingStepSound(s, c, l, at, pick);
    var p := at.p;
    PhaseDataCommit(s.store.commits, s.engines[p.monitor], p.monitor, p.run, p.poll, p.prepared);
    EngineStepKeepsData(s, PendingStep(s, l, at, pick), c, CommitPrepared(s.engines[p.monitor], p.prepared));
  }

  lemma ResolveCommitKeepsData(s: State, c: CallId, l: Lease, p: Pending, pick: Pick)
    requires LeaseInv(s) && DataInv(s) && DataHere(s, c) && s.calls[c] == Resolving(l, p, ResolveCommit)
    ensures DataInv(Install(ResolveStep(s, c, l, p, ResolveCommit, pick), c))
  {
    EngineIsReady(s, c);
    ResolveStepSound(s, c, pick);
    PhaseDataCommit(s.store.commits, s.engines[p.monitor], p.monitor, p.run, p.poll, p.prepared);
    EngineStepKeepsData(s, ResolveStep(s, c, l, p, ResolveCommit, pick), c,
                        CommitPrepared(s.engines[p.monitor], p.prepared));
  }

  lemma FirstCommitKeepsData(s: State, c: CallId, l: Lease, at: PollAt, pick: Pick)
    requires LeaseInv(s) && DataInv(s) && DataHere(s, c) && s.calls[c] == Polling(l, at) && at.Commit?
    ensures DataInv(Install(RecordStep(s, l, at, pick), c))
  {
    EngineIsReady(s, c);
    EngineStepSound(s, c, l, at, pick);
    PhaseDataCommit(s.store.commits, s.engines[at.engine], at.engine, at.run, l.poll, at.y);
    EngineStepKeepsData(s, RecordStep(s, l, at, pick), c, CommitPrepared(s.engines[at.engine], at.y));
  }

  lemma PrepareKeepsData(s: State, c: CallId, l: Lease, at: PollAt, pick: Pick)
    requires LeaseInv(s) && DataInv(s) && DataHere(s, c) && s.calls[c] == Polling(l, at) && at.Prepare?
    ensures DataInv(Install(RecordStep(s, l, at, pick), c))
  {
    EngineIsReady(s, c);
    EngineStepSound(s, c, l, at, pick);
    var g := s.engines[at.engine];
    forall i | 0 <= i < |s.store.commits| && s.store.commits[i].payload.MonitorPoll?
               && s.store.commits[i].payload.engine == at.engine
      ensures s.store.commits[i].payload.gen < g.next + 1
    {
      assert ReceiptOk(s.home, s.engines, s.store.nextRun, s.nextPoll, s.store.commits[i]);
    }
    EngineStepKeepsData(s, RecordStep(s, l, at, pick), c, g.(next := g.next + 1, outstanding := Some(g.next + 1)));
  }

  lemma QueryDoneKeepsData(s: State, c: CallId, l: Lease, at: PollAt, pick: Pick)
    requires LeaseInv(s) && DataInv(s) && DataHere(s, c) && s.calls[c] == Polling(l, at) && at.Query? && pick.ok
    ensures DataInv(Install(RecordStep(s, l, at, pick), c))
  {
    RecordStepSound(s, c, l, at, pick);
    var g := s.engines[at.engine];
    assert s.engines[at.engine := g] == s.engines;
    EngineStepKeepsData(s, RecordStep(s, l, at, pick), c, g);
  }

  lemma QueryKeepsData(s: State, c: CallId, l: Lease, at: PollAt, pick: Pick)
    requires LeaseInv(s) && DataInv(s) && DataHere(s, c) && s.calls[c] == Polling(l, at) && at.Query?
    ensures DataInv(Install(RecordStep(s, l, at, pick), c))
  {
    if pick.ok {
      QueryDoneKeepsData(s, c, l, at, pick);
    } else {
      QueryFailedKeepsData(s, c, l, at, pick);
    }
  }

  lemma QueryFailedKeepsData(s: State, c: CallId, l: Lease, at: PollAt, pick: Pick)
    requires LeaseInv(s) && DataInv(s) && DataHere(s, c) && s.calls[c] == Polling(l, at) && at.Query? && !pick.ok
    ensures DataInv(Install(RecordStep(s, l, at, pick), c))
  {
    RecordStepSound(s, c, l, at, pick);
    EngineStepKeepsData(s, RecordStep(s, l, at, pick), c, s.engines[at.engine].(outstanding := None));
  }

  lemma DiscardKeepsData(s: State, c: CallId, l: Lease, at: PollAt, pick: Pick)
    requires LeaseInv(s) && DataInv(s) && DataHere(s, c) && s.calls[c] == Polling(l, at) && at.Discard?
    ensures DataInv(Install(RecordStep(s, l, at, pick), c))
  {
    KeepStepSound(s, c, l, at, pick);
    EngineStepKeepsData(s, RecordStep(s, l, at, pick), c, s.engines[at.engine].(outstanding := None));
  }

  // ----- new runs -----

  lemma StartRunKeepsData(s: State, c: CallId, l: Lease, at: PollAt, pick: Pick)
    requires LeaseInv(s) && DataInv(s) && DataHere(s, c) && s.calls[c] == Polling(l, at) && at.StartRun? && pick.ok
    ensures DataInv(Install(AttachStep(s, c, l, at, pick), c))
  {
    var e := AttachStep(s, c, l, at, pick);
    AttachStepSound(s, c, l, at, pick);
    HolderAfterInstall(s, e, c);
    var s' := Install(e, c);
    forall i | 0 <= i < |s.store.commits|
      ensures ReceiptOk(s'.home, s'.engines, s'.store.nextRun, s'.nextPoll, s.store.commits[i])
              && s.store.commits[i].run != s.store.nextRun
    {
      assert ReceiptOk(s.home, s.engines, s.store.nextRun, s.nextPoll, s.store.commits[i]);
    }
    forall d | d in s'.calls ensures SoloData(s', s'.calls[d]) {
      if d != c {
        assert SoloData(s, s.calls[d]);
      }
    }
  }

  lemma LogEmpty(commits: seq<Receipt>, r: RunId)
    requires forall i :: 0 <= i < |commits| ==> commits[i].run != r
    ensures Log(commits, r) == []
  {
  }

  /** The run being attached is in nobody else's hands. */
  lemma AttachedRunIsForeign(s: State, c: CallId, r: RunId)
    requires Conserved(s) && Holds(s, r, Held(c))
    ensures forall d :: d in s.calls && d != c ==> HeldRun(s.calls[d]) != Some(r)
    ensures s.solo.pending.Some? ==> s.solo.pending.value.run != r
  {
    forall d | d in s.calls && d != c ensures HeldRun(s.calls[d]) != Some(r) {
      if HeldRun(s.calls[d]) == Some(r) {
        OnePlace(s, r, Held(c), Held(d));
      }
    }
    if s.solo.pending.Some? && s.solo.pending.value.run == r {
      OnePlace(s, r, Held(c), Waiting);
    }
  }

  lemma AttachKeepsReceipts(s: State, t: State, e: EngineId, r: RunId)
    requires Receipts(s) && NewRun(s, e, r) && t.home == s.home[r := e]
    requires t.store == s.store && t.engines == s.engines && t.nextPoll == s.nextPoll
    ensures Receipts(t)
  {
    forall i | 0 <= i < |s.store.commits|
      ensures ReceiptOk(t.home, t.engines, t.store.nextRun, t.nextPoll, s.store.commits[i])
    {
      assert ReceiptOk(s.home, s.engines, s.store.nextRun, s.nextPoll, s.store.commits[i]);
    }
  }

  lemma AttachKeepsSolo(s: State, c: CallId, l: Lease, at: PollAt, pick: Pick, d: CallId)
    requires LeaseInv(s) && Conserved(s) && DataInv(s) && DataHere(s, c)
    requires s.calls[c] == Polling(l, at) && at.AttachRun? && Sound(s, AttachStep(s, c, l, at, pick), c)
    requires d in s.calls && d != c && HeldRun(s.calls[d]) != Some(at.run)
    ensures SoloData(Install(AttachStep(s, c, l, at, pick), c), s.calls[d])
  {
    HolderAfterInstall(s, AttachStep(s, c, l, at, pick), c);
    assert SoloData(s, s.calls[d]);
  }

  lemma AttachKeepsMonitor(s: State, c: CallId, l: Lease, at: PollAt, pick: Pick)
    requires LeaseInv(s) && DataInv(s) && DataHere(s, c)
    requires s.calls[c] == Polling(l, at) && at.AttachRun? && Sound(s, AttachStep(s, c, l, at, pick), c)
    ensures var s' := Install(AttachStep(s, c, l, at, pick), c);
            && HolderOf(s').Some? && HolderData(s', HolderOf(s').value)
            && Receipts(s') && SettledLogs(s') && MonitorData(s')
  {
    var e := AttachStep(s, c, l, at, pick);
    HolderAfterInstall(s, e, c);
    var s' := Install(e, c);
    AttachKeepsReceipts(s, s', at.engine, at.run);
    LogEmpty(s.store.commits, at.run);
    assert HolderOf(s').Some? && HolderData(s', HolderOf(s').value);
    assert SettledLogs(s');
    assert MonitorData(s');
  }

  lemma AttachKeepsRest(s: State, c: CallId, l: Lease, at: PollAt, pick: Pick)
    requires LeaseInv(s) && DataInv(s) && DataHere(s, c)
    requires s.calls[c] == Polling(l, at) && at.AttachRun? && Sound(s, AttachStep(s, c, l, at, pick), c)
    requires s.solo.pending.Some? ==> s.solo.pending.value.run != at.run
    ensures var s' := Install(AttachStep(s, c, l, at, pick), c);
            Homes(s'.home, s'.engines, s'.store.nextRun, s'.exec) && WaitingData(s')
            && (s'.exec.pending.Some? ==> s'.exec.pending.value.poll < s'.nextPoll)
  {
    HolderAfterInstall(s, AttachStep(s, c, l, at, pick), c);
  }

  lemma AttachRunKeepsData(s: State, c: CallId, l: Lease, at: PollAt, pick: Pick)
    requires LeaseInv(s) && Conserved(s) && DataInv(s) && DataHere(s, c)
    requires s.calls[c] == Polling(l, at) && at.AttachRun?
    ensures DataInv(Install(AttachStep(s, c, l, at, pick), c))
  {
    AttachStepSound(s, c, l, at, pick);
    assert Holds(s, at.run, Held(c));
    AttachedRunIsForeign(s, c, at.run);
    AttachKeepsMonitor(s, c, l, at, pick);
    AttachKeepsSolos(s, c, l, at, pick);
    AttachKeepsRest(s, c, l, at, pick);
  }

  lemma AttachKeepsSolos(s: State, c: CallId, l: Lease, at: PollAt, pick: Pick)
    requires LeaseInv(s) && Conserved(s) && DataInv(s) && DataHere(s, c)
    requires s.calls[c] == Polling(l, at) && at.AttachRun?
    requires forall d :: d in s.calls && d != c ==> HeldRun(s.calls[d]) != Some(at.run)
    ensures var s' := Install(AttachStep(s, c, l, at, pick), c);
            forall d :: d in s'.calls ==> SoloData(s', s'.calls[d])
  {
    var s' := Install(AttachStep(s, c, l, at, pick), c);
    forall d | d in s'.calls ensures SoloData(s', s'.calls[d]) {
      if d != c {
        AttachKeepsSolo(s, c, l, at, pick, d);
      }
    }
  }

  lemma SoloStartKeepsData(s: State, c: CallId, pick: Pick)
    requires LeaseInv(s) && DataInv(s) && DataHere(s, c)
    requires s.calls[c].Single? && s.calls[c].soloAt.SoloStart? && pick.ok
    ensures DataInv(Install(CallStep(s, c, pick), c))
  {
    var e := CallStep(s, c, pick);
    SoloStepSound(s, c, pick);
    HolderAfterInstall(s, e, c);
    var s' := Install(e, c);
    forall i | 0 <= i < |s.store.commits|
      ensures ReceiptOk(s'.home, s'.engines, s'.store.nextRun, s'.nextPoll, s.store.commits[i])
              && s.store.commits[i].run != s.store.nextRun && s.store.commits[i].poll != s.nextPoll
    {
      assert ReceiptOk(s.home, s.engines, s.store.nextRun, s.nextPoll, s.store.commits[i]);
    }
    forall d | d in s'.calls ensures SoloData(s', s'.calls[d]) {
      if d != c {
        assert SoloData(s, s.calls[d]);
      }
    }
  }

  // ----- recording a one-shot result -----

  ghost predicate SoloAppend(s: State, e: Effect, c: CallId, x: Receipt) {
    && c in s.calls && Sound(s, e, c) && !Holder(s.calls[c])
    && x.payload.OneShot? && x.payload.run == x.run && SoloOpen(s, x.run, x.poll, x.payload.outcome)
    && !Recorded(s.store.commits, x.poll)
    && e.state == s.(store := s.store.(commits := s.store.commits + [x]))
    && e.next.Some? && !Holder(e.next.value) && SoloData(Install(e, c), e.next.value)
    && (forall d :: d in s.calls && d != c ==>
         HeldRun(s.calls[d]) != Some(x.run) && SoloPoll(s.calls[d]) != Some(x.poll))
    && (s.solo.pending.Some? ==>
          var p := s.solo.pending.value;
          x == Receipt(p.poll, p.run, OneShot(p.run, p.outcome)) || (x.run != p.run && x.poll != p.poll))
  }

  lemma SoloAppendKeepsMonitor(s: State, e: Effect, c: CallId, x: Receipt)
    requires LeaseInv(s) && DataInv(s) && SoloAppend(s, e, c, x)
    ensures var s' := Install(e, c); Receipts(s') && SettledLogs(s') && MonitorData(s')
  {
    HolderAfterInstall(s, e, c);
    var s' := Install(e, c);
    forall i | 0 <= i < |s.store.commits|
      ensures s.store.commits[i].payload != x.payload && s.store.commits[i].run != x.run
    {
      assert ReceiptOk(s.home, s.engines, s.store.nextRun, s.nextPoll, s.store.commits[i]);
    }
    AppendKeepsReceipts(s, s', x);
    AppendKeepsSettled(s, s', x);
    if s.exec.monitor.Some? && s.exec.run.Some? {
      var eng := s.exec.monitor.value;
      HereOpenPoll(s);
      PhaseDataForeign(s.store.commits, x, s.engines[eng], eng, s.exec.run.value, PhaseOf(s));
    }
  }

  /** The poll ID of the open phase is the reserved monitor poll ID. */
  lemma HereOpenPoll(s: State)
    requires LeaseInv(s)
    ensures PhaseOf(s).Open? ==> MonitorPollId(s.exec, HolderOf(s)) == Some(PhaseOf(s).poll)
  {
    if s.exec.active.Some? {
      HereHolds(s, s.exec.active.value);
    }
  }

  lemma SoloAppendKeepsHolder(s: State, e: Effect, c: CallId, x: Receipt)
    requires LeaseInv(s) && DataInv(s) && SoloAppend(s, e, c, x)
    ensures HolderOf(Install(e, c)) == HolderOf(s)
    ensures HolderOf(s).Some? ==> HolderData(Install(e, c), HolderOf(s).value)
  {
    HolderAfterInstall(s, e, c);
    if HolderOf(s).Some? {
      var l := HolderOf(s).value;
      assert HolderData(s, l);
      HereHolds(s, s.exec.active.value);
      if l.Polling? {
        RecordedAppend(s.store.commits, x, l.lease.poll);
        if l.at.PendingCommit? {
          RecordedAppend(s.store.commits, x, l.at.p.poll);
        }
      } else {
        RecordedAppend(s.store.commits, x, l.pending.poll);
      }
    }
  }

  lemma SoloAppendKeepsData(s: State, e: Effect, c: CallId, x: Receipt)
    requires LeaseInv(s) && DataInv(s) && SoloAppend(s, e, c, x)
    ensures DataInv(Install(e, c))
  {
    SoloAppendKeepsMonitor(s, e, c, x);
    SoloAppendKeepsHolder(s, e, c, x);
    var s' := Install(e, c);
    forall d | d in s'.calls ensures SoloData(s', s'.calls[d]) {
      if d != c {
        assert SoloData(s, s.calls[d]);
      }
    }
  }

  lemma SoloReceiptIsNew(s: State, c: CallId)
    requires DataInv(s) && DataHere(s, c)
    requires s.calls[c].Single? && s.calls[c].soloAt.SoloRecord?
    ensures var at := s.calls[c].soloAt;
            SoloUnused(s, at.run, at.poll)
            && OnlyReceipt(s.store.commits, Receipt(at.poll, at.run, OneShot(at.run, at.outcome)))
  {
    var at := s.calls[c].soloAt;
    assert SoloUnused(s, at.run, at.poll);
    forall i | 0 <= i < |s.store.commits| ensures s.store.commits[i].payload != OneShot(at.run, at.outcome) {
      assert ReceiptOk(s.home, s.engines, s.store.nextRun, s.nextPoll, s.store.commits[i]);
    }
  }

  lemma SoloRecordUntouched(s: State, c: CallId, pick: Pick)
    requires DataHere(s, c) && s.calls[c].Single? && s.calls[c].soloAt.SoloRecord?
    requires var at := s.calls[c].soloAt;
             OnlyReceipt(s.store.commits, Receipt(at.poll, at.run, OneShot(at.run, at.outcome)))
    requires CallStep(s, c, pick).state.store.commits == s.store.commits
    ensures var e := CallStep(s, c, pick); Untouched(s, e, c) && OwnData(s, e, c)
  {
    var at := s.calls[c].soloAt;
    RecordingOutcome(s.store.commits, Receipt(at.poll, at.run, OneShot(at.run, at.outcome)), pick.answer);
  }

  lemma SoloRecordKeepsData(s: State, c: CallId, pick: Pick)
    requires LeaseInv(s) && RunsInv(s) && DataInv(s) && DataHere(s, c)
    requires s.calls[c].Single? && s.calls[c].soloAt.SoloRecord?
    ensures DataInv(Install(CallStep(s, c, pick), c))
  {
    var e := CallStep(s, c, pick);
    if e.state.store.commits == s.store.commits {
      SoloStepSound(s, c, pick);
      SoloRecordUntouched(s, c, pick);
      UntouchedKeepsData(s, e, c);
    } else {
      SoloWriteKeepsData(s, c, pick);
    }
  }

  lemma SoloWriteKeepsData(s: State, c: CallId, pick: Pick)
    requires LeaseInv(s) && RunsInv(s) && DataInv(s) && DataHere(s, c)
    requires s.calls[c].Single? && s.calls[c].soloAt.SoloRecord?
    requires CallStep(s, c, pick).state.store.commits != s.store.commits
    ensures DataInv(Install(CallStep(s, c, pick), c))
  {
    var at := s.calls[c].soloAt;
    var x := Receipt(at.poll, at.run, OneShot(at.run, at.outcome));
    SoloWriteIsForeign(s, c);
    SoloStepSound(s, c, pick);
    SoloReceiptIsNew(s, c);
    SoloWriteAppends(s, c, pick);
    SoloAppendKeepsData(s, CallStep(s, c, pick), c, x);
  }

  /** The step that writes the receipt of a one-shot result, and nothing else. */
  lemma SoloWriteAppends(s: State, c: CallId, pick: Pick)
    requires c in s.calls && s.calls[c].Single? && s.calls[c].soloAt.SoloRecord?
    requires var at := s.calls[c].soloAt;
             && SoloUnused(s, at.run, at.poll)
             && OnlyReceipt(s.store.commits, Receipt(at.poll, at.run, OneShot(at.run, at.outcome)))
    requires CallStep(s, c, pick).state.store.commits != s.store.commits
    ensures var at, e := s.calls[c].soloAt, CallStep(s, c, pick);
            var x := Receipt(at.poll, at.run, OneShot(at.run, at.outcome));
            && !Recorded(s.store.commits, x.poll) && SoloOpen(s, x.run, x.poll, x.payload.outcome)
            && e.state == s.(store := s.store.(commits := s.store.commits + [x]))
            && e.next.Some? && !Holder(e.next.value) && SoloData(Install(e, c), e.next.value)
  {
    var at := s.calls[c].soloAt;
    RecordingOutcome(s.store.commits, Receipt(at.poll, at.run, OneShot(at.run, at.outcome)), pick.answer);
  }

  /** The run and the poll ID of a one-shot result concern no other call and no waiting result. */
  lemma SoloWriteIsForeign(s: State, c: CallId)
    requires RunsInv(s) && c in s.calls && s.calls[c].Single? && s.calls[c].soloAt.SoloRecord?
    ensures var at := s.calls[c].soloAt;
            && (forall d :: d in s.calls && d != c ==>
                 HeldRun(s.calls[d]) != Some(at.run) && SoloPoll(s.calls[d]) != Some(at.poll))
            && (s.solo.pending.Some? ==> s.solo.pending.value.run != at.run && s.solo.pending.value.poll != at.poll)
  {
    var at := s.calls[c].soloAt;
    assert Holds(s, at.run, Held(c));
    AttachedRunIsForeign(s, c, at.run);
    assert SoloApart(s.solo, s.nextPoll, s.calls[c]);
    forall d | d in s.calls && d != c ensures SoloPoll(s.calls[d]) != Some(at.poll) {
      assert !s.calls[d].Single?;
    }
  }

  lemma RetryRecordKeepsData(s: State, c: CallId, pick: Pick)
    requires LeaseInv(s) && RunsInv(s) && DataInv(s) && DataHere(s, c)
    requires s.calls[c].Retrying? && s.calls[c].retryAt.RetryRecord?
    ensures DataInv(Install(CallStep(s, c, pick), c))
  {
    var e := CallStep(s, c, pick);
    var p := s.calls[c].solo;
    var x := Receipt(p.poll, p.run, OneShot(p.run, p.outcome));
    EnterStepSound(s, c, pick);
    assert SoloPoint(s.solo, s.calls[c]);
    forall i | 0 <= i < |s.store.commits| && s.store.commits[i].payload == x.payload
      ensures s.store.commits[i] == x
    {
      assert ReceiptOk(s.home, s.engines, s.store.nextRun, s.nextPoll, s.store.commits[i]);
    }
    RecordingOutcome(s.store.commits, x, pick.answer);
    if e.state.store.commits == s.store.commits {
      assert Untouched(s, e, c) && OwnData(s, e, c);
      UntouchedKeepsData(s, e, c);
    } else {
      forall d | d in s.calls && d != c
        ensures HeldRun(s.calls[d]) != Some(p.run) && SoloPoll(s.calls[d]) != Some(p.poll)
      {
        assert SoloApart(s.solo, s.nextPoll, s.calls[d]);
        if HeldRun(s.calls[d]) == Some(p.run) {
          assert Holds(s, p.run, Waiting);
          OnePlace(s, p.run, Held(d), Waiting);
        }
      }
      SoloAppendKeepsData(s, e, c, x);
    }
  }

  // ----- every block of every call -----

  lemma UntouchedPollingKeepsData(s: State, c: CallId, l: Lease, at: PollAt, pick: Pick)
    requires LeaseInv(s) && DataInv(s) && DataHere(s, c)
    requires s.calls[c] == Polling(l, at) && Sound(s, CallStep(s, c, pick), c)
    requires at.PendingClear? || at.PendingRestart? || at.FinishRestarted? || at.Ensure? || at.Adopt? || at.Keep?
             || (at.StartRun? && !pick.ok)
    ensures DataInv(Install(CallStep(s, c, pick), c))
  {
    if at.PendingClear? || at.PendingRestart? {
      PendingUntouched(s, c, l, at, pick);
    } else if at.Keep? {
      KeepUntouched(s, c, l, at, pick);
    } else {
      AttachUntouched(s, c, l, at, pick);
    }
    UntouchedKeepsData(s, CallStep(s, c, pick), c);
  }

  lemma HandlerPollingKeepsData(s: State, c: CallId, l: Lease, at: PollAt, pick: Pick)
    requires LeaseInv(s) && DataInv(s) && DataHere(s, c)
    requires s.calls[c] == Polling(l, at) && HandlerAt(at) && Sound(s, CloseStep(s, c, l, at, pick), c)
    ensures DataInv(Install(CloseStep(s, c, l, at, pick), c))
  {
    HandlerUntouched(s, c, l, at, pick);
    UntouchedKeepsData(s, CloseStep(s, c, l, at, pick), c);
  }

  lemma FinallyPollingKeepsData(s: State, c: CallId, l: Lease, at: PollAt, pick: Pick)
    requires LeaseInv(s) && DataInv(s) && DataHere(s, c)
    requires s.calls[c] == Polling(l, at) && FinallyAt(at) && Sound(s, CloseStep(s, c, l, at, pick), c)
    ensures DataInv(Install(CloseStep(s, c, l, at, pick), c))
  {
    FinallyUntouched(s, c, l, at, pick);
    UntouchedKeepsData(s, CloseStep(s, c, l, at, pick), c);
  }

  lemma EnginePollingKeepsData(s: State, c: CallId, l: Lease, at: PollAt, pick: Pick)
    requires LeaseInv(s) && DataInv(s) && DataHere(s, c) && s.calls[c] == Polling(l, at)
    requires at.Prepare? || at.Query? || at.Record? || at.Commit? || at.Discard?
    ensures DataInv(Install(RecordStep(s, l, at, pick), c))
  {
    match at
    case Prepare(_, _) => PrepareKeepsData(s, c, l, at, pick);
    case Query(_, _, _, _) => QueryKeepsData(s, c, l, at, pick);
    case Record(_, _, _) => FirstRecordKeepsData(s, c, l, at, pick);
    case Commit(_, _, _) => FirstCommitKeepsData(s, c, l, at, pick);
    case Discard(_, _, _) => DiscardKeepsData(s, c, l, at, pick);
  }

  /** Blocks that touch a receipt, a run or the engine. */
  predicate Essential(at: PollAt, pick: Pick) {
    at.PendingRecord? || at.PendingCommit? || (at.StartRun? && pick.ok) || at.AttachRun? || at.Prepare? || at.Query?
    || at.Record? || at.Commit? || at.Discard?
  }

  lemma RetryPollingKeepsData(s: State, c: CallId, l: Lease, at: PollAt, pick: Pick)
    requires LeaseInv(s) && DataInv(s) && DataHere(s, c) && s.calls[c] == Polling(l, at)
    requires at.PendingRecord? || at.PendingCommit?
    ensures DataInv(Install(PendingStep(s, l, at, pick), c))
  {
    if at.PendingRecord? {
      PendingRecordKeepsData(s, c, l, at, pick);
    } else {
      PendingCommitKeepsData(s, c, l, at, pick);
    }
  }

  lemma NewRunPollingKeepsData(s: State, c: CallId, l: Lease, at: PollAt, pick: Pick)
    requires LeaseInv(s) && Conserved(s) && DataInv(s) && DataHere(s, c) && s.calls[c] == Polling(l, at)
    requires (at.StartRun? && pick.ok) || at.AttachRun?
    ensures DataInv(Install(AttachStep(s, c, l, at, pick), c))
  {
    if at.StartRun? {
      StartRunKeepsData(s, c, l, at, pick);
    } else {
      AttachRunKeepsData(s, c, l, at, pick);
    }
  }

  lemma EssentialPollingKeepsData(s: State, c: CallId, l: Lease, at: PollAt, pick: Pick)
    requires LeaseInv(s) && Conserved(s) && DataInv(s) && DataHere(s, c)
    requires s.calls[c] == Polling(l, at) && Essential(at, pick)
    ensures DataInv(Install(CallStep(s, c, pick), c))
  {
    if PendingAt(at) {
      RetryPollingKeepsData(s, c, l, at, pick);
    } else if AttachAt(at) {
      NewRunPollingKeepsData(s, c, l, at, pick);
    } else {
      EnginePollingKeepsData(s, c, l, at, pick);
    }
  }

  lemma PollingKeepsData(s: State, c: CallId, l: Lease, at: PollAt, pick: Pick)
    requires LeaseInv(s) && Conserved(s) && DataInv(s) && DataHere(s, c)
    requires s.calls[c] == Polling(l, at) && Sound(s, CallStep(s, c, pick), c)
    ensures DataInv(Install(CallStep(s, c, pick), c))
  {
    if Essential(at, pick) {
      EssentialPollingKeepsData(s, c, l, at, pick);
    } else if HandlerAt(at) {
      HandlerPollingKeepsData(s, c, l, at, pick);
    } else if FinallyAt(at) {
      FinallyPollingKeepsData(s, c, l, at, pick);
    } else {
      UntouchedPollingKeepsData(s, c, l, at, pick);
    }
  }

  lemma ResolvingKeepsData(s: State, c: CallId, l: Lease, p: Pending, at: ResolveAt, pick: Pick)
    requires LeaseInv(s) && DataInv(s) && DataHere(s, c)
    requires s.calls[c] == Resolving(l, p, at) && Sound(s, CallStep(s, c, pick), c)
    ensures DataInv(Install(CallStep(s, c, pick), c))
  {
    if at.ResolveRecord? {
      ResolveRecordKeepsData(s, c, l, p, pick);
    } else if at.ResolveCommit? {
      ResolveCommitKeepsData(s, c, l, p, pick);
    } else {
      ResolveUntouched(s, c, pick);
      UntouchedKeepsData(s, CallStep(s, c, pick), c);
    }
  }

  lemma ControlKeepsData(s: State, c: CallId, pick: Pick)
    requires LeaseInv(s) && DataInv(s) && DataHere(s, c) && Sound(s, CallStep(s, c, pick), c)
    requires s.calls[c].PollReady? || s.calls[c].Tail? || s.calls[c].Recovering? || s.calls[c].StopReady?
    ensures DataInv(Install(CallStep(s, c, pick), c))
  {
    if s.calls[c].PollReady? {
      BeginUntouched(s, c, pick);
    } else if s.calls[c].Tail? {
      TailUntouched(s, c, pick);
    } else {
      StopUntouched(s, c, pick);
    }
    UntouchedKeepsData(s, CallStep(s, c, pick), c);
  }

  lemma RetryingKeepsData(s: State, c: CallId, pick: Pick)
    requires Inv(s) && DataHere(s, c) && Sound(s, CallStep(s, c, pick), c)
    requires s.calls[c].Entering? || s.calls[c].Retrying?
    ensures DataInv(Install(CallStep(s, c, pick), c))
  {
    if s.calls[c].Retrying? && s.calls[c].retryAt.RetryRecord? {
      RetryRecordKeepsData(s, c, pick);
    } else {
      if s.calls[c].Entering? {
        EnterUntouched(s, c, pick);
      } else {
        RetryUntouched(s, c, pick);
      }
      UntouchedKeepsData(s, CallStep(s, c, pick), c);
    }
  }

  lemma OneShotKeepsData(s: State, c: CallId, pick: Pick)
    requires Inv(s) && DataHere(s, c) && Sound(s, CallStep(s, c, pick), c)
    requires s.calls[c].SoloReady? || s.calls[c].Single? || s.calls[c].Finishing?
    ensures DataInv(Install(CallStep(s, c, pick), c))
  {
    if s.calls[c].Single? && s.calls[c].soloAt.SoloRecord? {
      SoloRecordKeepsData(s, c, pick);
    } else if s.calls[c].Single? && s.calls[c].soloAt.SoloStart? && pick.ok {
      SoloStartKeepsData(s, c, pick);
    } else {
      if s.calls[c].Single? {
        SingleUntouched(s, c, pick);
      } else {
        FinishingUntouched(s, c, pick);
      }
      UntouchedKeepsData(s, CallStep(s, c, pick), c);
    }
  }

  lemma CallStepKeepsData(s: State, c: CallId, pick: Pick)
    requires Inv(s) && DataHere(s, c) && Sound(s, CallStep(s, c, pick), c) && !s.calls[c].Faulted?
    ensures DataInv(Install(CallStep(s, c, pick), c))
  {
    match s.calls[c]
    case Entering(_) => RetryingKeepsData(s, c, pick);
    case Retrying(_, _, _) => RetryingKeepsData(s, c, pick);
    case SoloReady(_) => OneShotKeepsData(s, c, pick);
    case Single(_, _) => OneShotKeepsData(s, c, pick);
    case Finishing(_, _) => OneShotKeepsData(s, c, pick);
    case Polling(_, _) => HolderKeepsData(s, c, pick);
    case Resolving(_, _, _) => HolderKeepsData(s, c, pick);
    case _ => ControlKeepsData(s, c, pick);
  }

  lemma HolderKeepsData(s: State, c: CallId, pick: Pick)
    requires LeaseInv(s) && Conserved(s) && DataInv(s) && DataHere(s, c) && Sound(s, CallStep(s, c, pick), c)
    requires Holder(s.calls[c])
    ensures DataInv(Install(CallStep(s, c, pick), c))
  {
    match s.calls[c]
    case Polling(l, at) => PollingKeepsData(s, c, l, at, pick);
    case Resolving(l, p, at) => ResolvingKeepsData(s, c, l, p, at, pick);
  }

  lemma CallStepKeepsInv(s: State, c: CallId, pick: Pick)
    requires Inv(s) && Enabled(s, StepCall(c, pick))
    ensures Inv(Install(CallStep(s, c, pick), c))
  {
    EngineIsReady(s, c);
    CallStepSound(s, c, pick);
    SoundKeepsLeases(s, CallStep(s, c, pick), c);
    CallStepKeepsRuns(s, c, pick);
    DataHereHolds(s, c);
    HereHolds(s, c);
    CallStepKeepsData(s, c, pick);
  }

  // ----- the other events -----

  lemma NewCallKeepsLeases(s: State, c: CallId, l: Local)
    requires LeaseInv(s) && c !in s.calls && (l.Entering? || l.StopReady?)
    ensures LeaseInv(Install(Go(s, l), c))
  {
  }

  lemma NewCallKeepsData(s: State, c: CallId, l: Local)
    requires LeaseInv(s) && DataInv(s) && c !in s.calls && (l.Entering? || l.StopReady?)
    ensures DataInv(Install(Go(s, l), c))
  {
    var s' := Install(Go(s, l), c);
    assert HolderOf(s') == HolderOf(s);
    forall d | d in s'.calls ensures SoloData(s', s'.calls[d]) {
      if d != c {
        assert SoloData(s, s.calls[d]);
      }
    }
  }

  lemma NewCallKeepsInv(s: State, c: CallId, l: Local)
    requires Inv(s) && c !in s.calls && (l.Entering? || l.StopReady?)
    ensures Inv(Install(Go(s, l), c))
  {
    NewCallKeepsLeases(s, c, l);
    NewCallKeepsData(s, c, l);
    NewCallKeepsSolo(s, c, l);
    NewCallConserves(s, c, l);
  }

  lemma NewCallConserves(s: State, c: CallId, l: Local)
    requires Conserved(s) && PassInv(s) && c !in s.calls && (l.Entering? || l.StopReady?)
    ensures Conserved(Install(Go(s, l), c)) && PassInv(Install(Go(s, l), c))
  {
    SameHoldsConserved(s, Install(Go(s, l), c));
  }

  lemma NewCallKeepsSolo(s: State, c: CallId, l: Local)
    requires SoloInv(s) && c !in s.calls && (l.Entering? || l.StopReady?)
    ensures SoloInv(Install(Go(s, l), c))
  {
    var s' := Install(Go(s, l), c);
    forall d | d in s'.calls
      ensures SoloPoint(s'.solo, s'.calls[d]) && SoloApart(s'.solo, s'.nextPoll, s'.calls[d])
    {
      if d != c {
        assert SoloPoint(s.solo, s.calls[d]) && SoloApart(s.solo, s.nextPoll, s.calls[d]);
      }
    }
  }

  lemma SameHoldsConserved(s: State, s': State)
    requires Conserved(s) && s'.store == s.store
    requires forall r: RunId, p :: Holds(s', r, p) <==> Holds(s, r, p)
    ensures Conserved(s')
  {
    forall r: RunId | r < s'.store.nextRun ensures Placed(s', r) {
      assert Placed(s, r);
      var p :| OnlyAt(s, r, p);
      assert OnlyAt(s', r, p);
    }
    forall r: RunId | s'.store.nextRun <= r ensures Nowhere(s', r) {
      assert Nowhere(s, r);
    }
  }

  lemma InvalidateKeepsLeases(s: State)
    requires LeaseInv(s)
    ensures LeaseInv(Apply(s, Invalidate)) && HolderOf(Apply(s, Invalidate)) == HolderOf(s)
  {
  }

  lemma InvalidateKeepsReceipts(s: State)
    requires LeaseInv(s) && DataInv(s)
    ensures var s' := Apply(s, Invalidate); Receipts(s') && SettledLogs(s') && MonitorData(s')
  {
    var s' := Apply(s, Invalidate);
    forall i | 0 <= i < |s.store.commits|
      ensures ReceiptOk(s'.home, s'.engines, s'.store.nextRun, s'.nextPoll, s.store.commits[i])
    {
      assert ReceiptOk(s.home, s.engines, s.store.nextRun, s.nextPoll, s.store.commits[i]);
    }
  }

  lemma InvalidateKeepsHolder(s: State)
    requires LeaseInv(s) && DataInv(s) && HolderOf(s).Some?
    ensures HolderData(Apply(s, Invalidate), HolderOf(s).value)
  {
    HereHolds(s, s.exec.active.value);
  }

  lemma InvalidateKeepsData(s: State)
    requires LeaseInv(s) && DataInv(s)
    ensures DataInv(Apply(s, Invalidate))
  {
    var s' := Apply(s, Invalidate);
    InvalidateKeepsLeases(s);
    InvalidateKeepsReceipts(s);
    if HolderOf(s).Some? {
      InvalidateKeepsHolder(s);
    }
    forall d | d in s'.calls ensures SoloData(s', s'.calls[d]) {
      assert SoloData(s, s.calls[d]);
    }
  }

  lemma InvalidateKeepsInv(s: State)
    requires Inv(s)
    ensures Inv(Apply(s, Invalidate))
  {
    var s' := Apply(s, Invalidate);
    InvalidateKeepsLeases(s);
    InvalidateKeepsData(s);
    SameHoldsConserved(s, s');
    forall d | d in s'.calls
      ensures SoloPoint(s'.solo, s'.calls[d]) && SoloApart(s'.solo, s'.nextPoll, s'.calls[d])
    {
      assert SoloPoint(s.solo, s.calls[d]) && SoloApart(s.solo, s.nextPoll, s.calls[d]);
    }
  }

  lemma PassKeepsInv(s: State, e: Event)
    requires Inv(s) && Enabled(s, e)
    requires e.BeginPass? || e.RetryFinishRun? || e.PopFinished? || e.EndPass?
    ensures Inv(Apply(s, e))
  {
    PassConserves(s, e);
    SameFieldsKeepInv(s, Apply(s, e));
  }

  /** Finishing runs concerns nothing that leases and data depend on. */
  lemma SameFieldsKeepInv(s: State, s': State)
    requires LeaseInv(s) && SoloInv(s) && DataInv(s)
    requires s' == s.(queue := s'.queue, pass := s'.pass, store := s.store.(finishes := s'.store.finishes))
    ensures LeaseInv(s') && SoloInv(s') && DataInv(s')
  {
    assert HolderOf(s') == HolderOf(s);
    forall d | d in s'.calls ensures SoloData(s', s'.calls[d]) {
      assert SoloData(s, s.calls[d]);
    }
  }

  lemma PassConserves(s: State, e: Event)
    requires Conserved(s) && PassInv(s) && Enabled(s, e)
    requires e.BeginPass? || e.RetryFinishRun? || e.PopFinished? || e.EndPass?
    ensures Conserved(Apply(s, e)) && PassInv(Apply(s, e))
  {
    var s' := Apply(s, e);
    if e.RetryFinishRun? && e.ok {
      FinishQueuedConserves(s, e.run);
    } else {
      SameHoldsConserved(s, s');
    }
  }

  /** A queued run that the store finishes moves to the finished runs, once. */
  lemma FinishQueuedConserves(s: State, r: RunId)
    requires Conserved(s) && PassInv(s) && s.pass.Pass? && r in s.pass.todo
    ensures Conserved(Apply(s, RetryFinishRun(r, true))) && PassInv(Apply(s, RetryFinishRun(r, true)))
  {
    var s' := Apply(s, RetryFinishRun(r, true));
    assert Holds(s, r, Queued);
    OnePlace(s, r, Queued, Queued);
    FinishedAppend(s.store.finishes, (r, s.pass.todo[r]), r);
    forall i | 0 <= i < |s.store.finishes| ensures s.store.finishes[i].0 != r {
      if s.store.finishes[i].0 == r {
        assert Holds(s, r, Finished);
        OnePlace(s, r, Queued, Finished);
      }
    }
    forall q: RunId | q < s'.store.nextRun ensures Placed(s', q) {
      assert Placed(s, q);
      var p :| OnlyAt(s, q, p);
      forall p' ensures Holds(s', q, p') <==> p' == if q == r then Finished else p {
        FinishQueuedHolds(s, r, q, p');
        if q == r && Holds(s, r, p') {
          OnePlace(s, r, Queued, p');
        }
      }
      assert OnlyAt(s', q, if q == r then Finished else p);
    }
    forall q: RunId | s'.store.nextRun <= q ensures Nowhere(s', q) {
      assert Nowhere(s, q);
      forall p ensures !Holds(s', q, p) {
        FinishQueuedHolds(s, r, q, p);
      }
    }
  }

  lemma FinishQueuedHolds(s: State, r: RunId, q: RunId, p: Place)
    requires s.pass.Pass? && r in s.pass.todo
    ensures Holds(Apply(s, RetryFinishRun(r, true)), q, p)
            <==> (Holds(s, q, p) && !(q == r && p == Queued)) || (q == r && p == Finished)
  {
    FinishedAppend(s.store.finishes, (r, s.pass.todo[r]), q);
  }

  lemma EventKeepsInv(s: State, e: Event)
    requires Inv(s) && Enabled(s, e)
    ensures Inv(Apply(s, e))
  {
    match e
    case CallExecute(c, k) => NewCallKeepsInv(s, c, Entering(k));
    case CallStop(c) => NewCallKeepsInv(s, c, StopReady);
    case StepCall(c, pick) => CallStepKeepsInv(s, c, pick);
    case Invalidate => InvalidateKeepsInv(s);
    case _ => PassKeepsInv(s, e);
  }

  lemma {:induction false} RunKeepsInv(s: State, run: seq<Event>)
    requires Inv(s) && Legal(s, run)
    ensures Inv(Execute(s, run))
    decreases |run|
  {
    if run != [] {
      EventKeepsInv(s, run[0]);
      RunKeepsInv(Apply(s, run[0]), run[1..]);
    }
  }

  lemma InitialInv()
    ensures Inv(INITIAL)
  {
  }

  lemma ReachableInv(run: seq<Event>)
    requires Legal(INITIAL, run)
    ensures Inv(Execute(INITIAL, run))
  {
    InitialInv();
    RunKeepsInv(INITIAL, run);
  }
}
