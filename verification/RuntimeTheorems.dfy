/**
 What the protocol guarantees in every reachable state, for every interleaving of calls and every
 sequence of store answers.
 */
module RuntimeTheorems {
  import opened Wrappers
  import opened Runtime
  import opened RuntimeSystem
  import opened RuntimeLeases
  import opened RuntimeRuns
  import opened RuntimeData
  import opened RuntimeInvariants

  ghost predicate Reachable(s: State) {
    exists run :: Legal(INITIAL, run) && Execute(INITIAL, run) == s
  }

  lemma ReachableHasInv(s: State)
    requires Reachable(s)
    ensures Inv(s)
  {
    var run :| Legal(INITIAL, run) && Execute(INITIAL, run) == s;
    ReachableInv(run);
  }

  /** The receipts of a monitor run are exactly the polls that its engine committed, in order, plus at
      most the one poll that is open: held as pending, or in the hands of the lease holder. */
  lemma ExactlyOnce(s: State, r: RunId)
    requires Reachable(s) && r in s.home
    ensures s.home[r] < |s.engines|
    ensures var log, committed := Log(s.store.commits, r), s.engines[s.home[r]].committed;
            || log == committed
            || (s.exec.run == Some(r) && PhaseOf(s).Open? && log == committed + [PhaseOf(s).y])
  {
    ReachableHasInv(s);
  }

  /** No poll ID is used twice, and no prepared poll or one-shot result is recorded under two IDs. */
  lemma NoDuplicateReceipts(s: State, i: nat, j: nat)
    requires Reachable(s) && i < j < |s.store.commits|
    ensures s.store.commits[i].poll != s.store.commits[j].poll
    ensures s.store.commits[i].payload != s.store.commits[j].payload
    ensures s.store.commits[i].payload.OneShot? ==> s.store.commits[i].run != s.store.commits[j].run
  {
    ReachableHasInv(s);
  }

  /** At rest - no call holds the lease - an open poll can only be the pending one. */
  lemma SettledAtRest(s: State, r: RunId)
    requires Reachable(s) && r in s.home && s.exec.active.None?
    ensures s.home[r] < |s.engines|
    ensures var log, committed := Log(s.store.commits, r), s.engines[s.home[r]].committed;
            || log == committed
            || (s.exec.pending.Some? && s.exec.pending.value.run == r
                && log == committed + [s.exec.pending.value.prepared])
  {
    ReachableHasInv(s);
  }

  /** A detached run is settled for good: nothing recorded without being committed, and vice versa. */
  lemma DetachedRunSettled(s: State, r: RunId)
    requires Reachable(s) && r in s.home && s.exec.run != Some(r)
    ensures s.home[r] < |s.engines| && Log(s.store.commits, r) == s.engines[s.home[r]].committed
  {
    ReachableHasInv(s);
  }

  /** Between a confirmed retry and the block that clears the record, the record is already spent. */
  predicate Spent(l: Local) {
    (l.Polling? && l.at.PendingClear?) || (l.Resolving? && l.resolveAt.ResolveClear?)
  }

  /** A pending record always names the current monitor, generation and run, and the engine holds
      exactly its prepared poll until a retry of it was confirmed. */
  lemma PendingIsCurrent(s: State)
    requires Reachable(s) && s.exec.pending.Some?
    ensures Current(s.exec, s.exec.pending.value)
    ensures var p := s.exec.pending.value;
            || (p.monitor < |s.engines| && Prepared(p.monitor, s.engines[p.monitor], p.prepared))
            || (exists c :: c in s.calls && s.exec.active == Some(c) && Spent(s.calls[c]))
  {
    ReachableHasInv(s);
    if s.exec.active.Some? {
      var c := s.exec.active.value;
      HereHolds(s, c);
      assert Spent(s.calls[c]) || PhaseOf(s) == Open(s.exec.pending.value.poll, s.exec.pending.value.prepared);
    }
  }

  /** The mismatch, ownership and stale-result errors are never raised. */
  lemma NoOwnershipErrors(s: State, c: CallId)
    requires Reachable(s) && c in s.calls
    ensures !s.calls[c].Faulted?
  {
    ReachableHasInv(s);
    HereHolds(s, c);
  }

  /** Every started run is in exactly one place. */
  lemma RunConservation(s: State, r: RunId)
    requires Reachable(s)
    ensures r < s.store.nextRun ==> Placed(s, r)
    ensures r >= s.store.nextRun ==> Nowhere(s, r)
  {
    ReachableHasInv(s);
    if r >= s.store.nextRun {
      assert Nowhere(s, r);
    }
  }

  lemma FinishedOnce(s: State, i: nat, j: nat)
    requires Reachable(s) && i < j < |s.store.finishes|
    ensures s.store.finishes[i].0 != s.store.finishes[j].0
  {
    ReachableHasInv(s);
  }

  /** When nothing is in progress, every run is attached, waiting for a one-shot retry, queued or
      finished: none is lost. */
  lemma NoRunLostAtRest(s: State, r: RunId)
    requires Reachable(s) && s.calls == map[] && s.pass.NoPass? && r < s.store.nextRun
    ensures || s.exec.run == Some(r)
            || (s.solo.pending.Some? && s.solo.pending.value.run == r)
            || r in s.queue
            || FinishedIn(s.store.finishes, r)
  {
    RunConservation(s, r);
    var p :| OnlyAt(s, r, p);
  }

  // ----- stops -----

  /** The late `finally` of a poll that already released its lease, while no monitor is attached. */
  ghost predicate LateFinally(s: State, e: Event) {
    e.StepCall? && e.c in s.calls && s.calls[e.c].Tail? && !s.calls[e.c].keep && s.exec.monitor.None?
  }

  /** While a poll holds the lease, a stop request survives every step that is not the poll's own,
      except exactly the late `finally` of an earlier failed poll. */
  lemma StopSurvives(s: State, e: Event, c: CallId)
    requires Reachable(s) && Enabled(s, e) && s.exec.active == Some(c) && s.exec.stop
    requires e.StepCall? ==> e.c != c
    ensures Apply(s, e).exec.active == Some(c)
    ensures Apply(s, e).exec.stop <==> !LateFinally(s, e)
  {
    ReachableHasInv(s);
    if e.StepCall? {
      HereHolds(s, e.c);
      EngineIsReady(s, e.c);
      CallStepSound(s, e.c, e.pick);
      OutsiderStop(s, e.c, e.pick);
    }
  }

  lemma OutsiderStop(s: State, d: CallId, pick: Pick)
    requires Here(s, d) && s.exec.active.Some? && s.exec.active != Some(d) && s.exec.stop
    ensures CallStep(s, d, pick).state.exec.stop <==> !(s.calls[d].Tail? && !s.calls[d].keep && s.exec.monitor.None?)
  {
  }

  /** A stop request that reaches the end of a successful poll detaches the monitor. */
  lemma StopHonoured(s: State, c: CallId, pick: Pick)
    requires Reachable(s) && c in s.calls && s.calls[c].Polling? && s.calls[c].at == Final(false) && s.exec.stop
    ensures var s' := Apply(s, StepCall(c, pick));
            && s'.exec.monitor.None? && s'.exec.run.None? && !s'.exec.stop
            && c in s'.calls && HeldRun(s'.calls[c]) == s.exec.run
  {
    ReachableHasInv(s);
    HereHolds(s, c);
  }
}
