/**
 Overlapping one-shot calls: exactly when a run is lost, and why calls that take turns never lose one
 (src/aruba_session_tracker/runtime.py:119-160 and 191-204).
 */
module RuntimeOverlap {
  import opened Wrappers
  import opened Runtime
  import opened RuntimeSystem
  import opened RuntimeRuns
  import opened RuntimeInvariants
  import opened RuntimeTheorems

  // ----- exactly when a run is lost -----

  /** A result put into a full slot pushes the run out that was waiting there. */
  lemma HoldConservesIff(s: State, c: CallId, pick: Pick)
    requires Conserved(s) && PassInv(s) && c in s.calls && s.calls[c].Single? && s.calls[c].soloAt.SoloHold?
    ensures Conserved(Install(CallStep(s, c, pick), c)) <==> s.solo.pending.None?
  {
    var e, r := CallStep(s, c, pick), s.calls[c].soloAt.run;
    if s.solo.pending.None? {
      MovesConserve(s, e, c, Wait);
    } else {
      var lost := s.solo.pending.value.run;
      assert Holds(s, lost, Waiting) && Holds(s, r, Held(c));
      WaitingIsLost(s, c, pick, lost);
      OnePlace(s, lost, Waiting, Waiting);
      assert !Placed(Install(e, c), lost);
    }
  }

  lemma WaitingIsLost(s: State, c: CallId, pick: Pick, lost: RunId)
    requires Conserved(s) && c in s.calls && s.calls[c].Single? && s.calls[c].soloAt.SoloHold?
    requires Holds(s, lost, Waiting)
    ensures Nowhere(Install(CallStep(s, c, pick), c), lost)
  {
    var t := Install(CallStep(s, c, pick), c);
    assert Holds(s, s.calls[c].soloAt.run, Held(c));
    if lost == s.calls[c].soloAt.run {
      OnePlace(s, lost, Waiting, Held(c));
    }
    forall q ensures !Holds(t, lost, q) {
      if Holds(s, lost, q) {
        OnePlace(s, lost, Waiting, q);
      }
    }
  }

  /** In every reachable state and for every step that is possible there, with one-shot calls overlapping freely:
      a run is lost if and only if the step overwrites a one-shot result that waits for its retry. */
  lemma RunLostIff(s: State, e: Event)
    requires Reachable(s) && Possible(s, e)
    ensures Conserved(Apply(s, e)) <==> !Clobbers(s, e)
  {
    ReachableHasInv(s);
    if Clobbers(s, e) {
      HoldConservesIff(s, e.c, e.pick);
    } else {
      EventKeepsInv(s, e);
    }
  }

  // ----- one-shot calls that take turns -----

  predicate OneTimeCall(l: Local) {
    (l.Entering? && l.kind.OneTime?) || (l.Retrying? && l.kind.OneTime?) || l.SoloReady? || l.Single?
  }

  /** A one-shot call starts only when no other one is in progress. */
  ghost predicate TakesTurn(s: State, e: Event) {
    e.CallExecute? && e.kind.OneTime? ==> forall d :: d in s.calls ==> !OneTimeCall(s.calls[d])
  }

  /** A run of the system in which one-shot calls take turns; it need not look at the slot. */
  ghost predicate InTurn(s: State, run: seq<Event>)
    decreases |run|
  {
    run == [] || (Possible(s, run[0]) && TakesTurn(s, run[0]) && InTurn(Apply(s, run[0]), run[1..]))
  }

  /** A one-shot call that is past its check finds the slot empty. */
  predicate TurnPoint(solo: Solo, l: Local) {
    match l
    case Retrying(k, p, at) =>
      && solo.retrying
      && (at.RetryRecord? || at.RetryClear? ==> solo.pending == Some(p))
      && (at.RetryFinish? && k.OneTime? ==> solo.pending.None?)
      && (at.RetryRelease? && at.next.Some? ==> at.next.value == k && (k.OneTime? ==> solo.pending.None?))
    case SoloReady(_) => solo.pending.None?
    case Single(_, at) => at.SoloFinish? || at.SoloEnd? || solo.pending.None?
    case _ => true
  }

  ghost predicate TurnInv(s: State) {
    && (forall c :: c in s.calls ==> TurnPoint(s.solo, s.calls[c]))
    && (forall c, d :: c in s.calls && d in s.calls && s.calls[c].Retrying? && s.calls[d].Retrying? ==> c == d)
    && (forall c, d :: c in s.calls && d in s.calls && OneTimeCall(s.calls[c]) && OneTimeCall(s.calls[d]) ==> c == d)
  }

  /** How a step of call `c` may change the slot under the others. */
  ghost predicate TurnFits(s: State, e: Effect, c: CallId)
    requires c in s.calls
  {
    && e.state.calls == s.calls
    && (e.next.Some? ==> TurnPoint(e.state.solo, e.next.value))
    && (e.next.Some? && e.next.value.Retrying? ==> s.calls[c].Retrying? || !s.solo.retrying)
    && (e.next.Some? && OneTimeCall(e.next.value) ==> OneTimeCall(s.calls[c]))
    && (e.state.solo == s.solo.(busy := e.state.solo.busy)
        || (s.calls[c].Retrying? && e.state.solo == s.solo.(pending := None))
        || (s.calls[c].Retrying? && e.state.solo == s.solo.(retrying := false))
        || (!s.solo.retrying && e.state.solo == s.solo.(retrying := true))
        || (s.calls[c].Single? && s.solo.pending.None? && e.state.solo == s.solo.(pending := e.state.solo.pending)))
  }

  lemma TurnFitsKeeps(s: State, e: Effect, c: CallId)
    requires TurnInv(s) && c in s.calls && TurnFits(s, e, c)
    ensures TurnInv(Install(e, c))
  {
    var t := Install(e, c);
    forall d | d in t.calls ensures TurnPoint(t.solo, t.calls[d]) {
      if d != c {
        assert TurnPoint(s.solo, s.calls[d]) && TurnPoint(s.solo, s.calls[c]);
      }
    }
  }

  lemma PollTurn(s: State, c: CallId, l: Lease, at: PollAt, pick: Pick)
    requires c in s.calls && s.calls[c] == Polling(l, at)
    ensures TurnFits(s, CallStep(s, c, pick), c)
  {
    if PendingAt(at) {
    } else if AttachAt(at) {
    } else if RecordAt(at) {
      RecordStepSolo(s, l, at, pick);
    } else {
      CloseStepSolo(s, c, l, at, pick);
    }
  }

  lemma ControlTurn(s: State, c: CallId, pick: Pick)
    requires c in s.calls && (MonitorCall(s.calls[c]) || s.calls[c].Faulted?) && !s.calls[c].Polling?
    ensures TurnFits(s, CallStep(s, c, pick), c)
  {
    var e := CallStep(s, c, pick);
    assert e.state.solo == s.solo && e.state.calls == s.calls;
    assert e.next.Some? ==> MonitorCall(e.next.value) || e.next.value.Faulted?;
  }

  lemma SingleTurn(s: State, c: CallId, pick: Pick)
    requires c in s.calls && (s.calls[c].SoloReady? || s.calls[c].Single?) && TurnPoint(s.solo, s.calls[c])
    ensures TurnFits(s, CallStep(s, c, pick), c)
  {
  }

  lemma EnterTurn(s: State, c: CallId, pick: Pick)
    requires c in s.calls && (s.calls[c].Entering? || s.calls[c].Retrying?) && TurnPoint(s.solo, s.calls[c])
    ensures TurnFits(s, CallStep(s, c, pick), c)
  {
  }

  lemma CallTurn(s: State, c: CallId, pick: Pick)
    requires TurnInv(s) && c in s.calls
    ensures TurnFits(s, CallStep(s, c, pick), c)
  {
    assert TurnPoint(s.solo, s.calls[c]);
    match s.calls[c]
    case Polling(l, at) => PollTurn(s, c, l, at, pick);
    case SoloReady(_) => SingleTurn(s, c, pick);
    case Single(_, _) => SingleTurn(s, c, pick);
    case Entering(_) => EnterTurn(s, c, pick);
    case Retrying(_, _, _) => EnterTurn(s, c, pick);
    case _ => ControlTurn(s, c, pick);
  }

  lemma EventTurn(s: State, e: Event)
    requires TurnInv(s) && Possible(s, e) && TakesTurn(s, e)
    ensures TurnInv(Apply(s, e)) && Enabled(s, e)
  {
    if e.StepCall? {
      assert TurnPoint(s.solo, s.calls[e.c]);
      CallTurn(s, e.c, e.pick);
      TurnFitsKeeps(s, CallStep(s, e.c, e.pick), e.c);
    } else {
      var t := Apply(s, e);
      forall d | d in t.calls ensures TurnPoint(t.solo, t.calls[d]) {
        assert d in s.calls ==> TurnPoint(s.solo, s.calls[d]);
      }
    }
  }

  /** When one-shot calls take turns, no step ever overwrites a waiting result, so all guarantees hold. */
  lemma {:induction false} TurnsLoseNothing(s: State, run: seq<Event>)
    requires TurnInv(s) && InTurn(s, run)
    ensures Legal(s, run)
    decreases |run|
  {
    if run != [] {
      EventTurn(s, run[0]);
      TurnsLoseNothing(Apply(s, run[0]), run[1..]);
    }
  }

  lemma InTurnIsLegal(run: seq<Event>)
    requires InTurn(INITIAL, run)
    ensures Legal(INITIAL, run)
  {
    TurnsLoseNothing(INITIAL, run);
  }
}
