/**
 Two interleavings that mark the limits of the guarantees of RuntimeTheorems.
 */
module RuntimeScenarios {
  import opened Wrappers
  import opened Runtime
  import opened RuntimeSystem
  import opened RuntimeRuns
  import opened RuntimeTheorems

  lemma {:induction false} RunSnoc(s: State, run: seq<Event>, e: Event)
    requires Legal(s, run) && Enabled(Execute(s, run), e)
    ensures Legal(s, run + [e]) && Execute(s, run + [e]) == Apply(Execute(s, run), e)
    decreases |run|
  {
    if run == [] {
      assert run + [e] == [e] && [e][1..] == [];
    } else {
      var next := Apply(s, run[0]);
      RunSnoc(next, run[1..], e);
      assert (run + [e])[0] == run[0] && (run + [e])[1..] == run[1..] + [e];
    }
  }

  /** One more enabled event leads to a reachable state. */
  lemma ReachableNext(s: State, e: Event)
    requires Reachable(s) && Enabled(s, e)
    ensures Reachable(Apply(s, e))
  {
    var run :| Legal(INITIAL, run) && Execute(INITIAL, run) == s;
    RunSnoc(INITIAL, run, e);
    assert Execute(INITIAL, run + [e]) == Apply(s, e);
  }

  lemma ReachableStart()
    ensures Reachable(INITIAL)
  {
    assert Legal(INITIAL, []) && Execute(INITIAL, []) == INITIAL;
  }

  const ID := Identity("s", "c")
  const DONE := Outcome(0, false, true, true)
  const YES := Pick(Confirmed, true, false, DONE)
  const NO := Pick(Failed, false, false, DONE)

  /** A state in which nothing was started yet. */
  ghost function Idle(active: Option<CallId>, stop: bool, nextPoll: nat, calls: map<CallId, Local>): State {
    INITIAL.(exec := Exec(None, None, None, 0, active, None, stop), nextPoll := nextPoll, calls := calls)
  }

  ghost function ToStart(c: CallId, n: nat): Local {
    Polling(Lease(n, 0, None), StartRun(ID))
  }

  ghost function At(c: CallId, n: nat, at: PollAt): map<CallId, Local> {
    map[c := Polling(Lease(n, 0, None), at)]
  }

  /** One step of call `c` from one idle state to another. */
  lemma IdleStep(s: State, c: CallId, pick: Pick, t: State)
    requires Reachable(s) && Enabled(s, StepCall(c, pick)) && Install(CallStep(s, c, pick), c) == t
    ensures Reachable(t)
  {
    ReachableNext(s, StepCall(c, pick));
  }

  lemma PollEnters(s: State, c: CallId, n: nat)
    requires Reachable(s) && s == Idle(None, false, n, s.calls) && c !in s.calls
    ensures Reachable(Idle(None, false, n, s.calls[c := PollReady(ID)]))
  {
    ReachableNext(s, CallExecute(c, Monitoring(ID)));
    var s1 := Idle(None, false, n, s.calls[c := Entering(Monitoring(ID))]);
    assert s1 == Apply(s, CallExecute(c, Monitoring(ID)));
    IdleStep(s1, c, YES, Idle(None, false, n, s.calls[c := PollReady(ID)]));
  }

  lemma PollTakesLease(s: State, c: CallId, n: nat)
    requires Reachable(s) && s == Idle(None, false, n, s.calls) && c !in s.calls
    ensures Reachable(Idle(Some(c), false, n + 1, s.calls[c := Polling(Lease(n, 0, None), Ensure(ID))]))
  {
    PollEnters(s, c, n);
    IdleStep(Idle(None, false, n, s.calls[c := PollReady(ID)]), c, YES,
             Idle(Some(c), false, n + 1, s.calls[c := Polling(Lease(n, 0, None), Ensure(ID))]));
  }

  /** A poll that finds no monitor gets as far as starting a run. */
  lemma PollBegins(s: State, c: CallId, n: nat)
    requires Reachable(s) && s == Idle(None, false, n, s.calls) && c !in s.calls
    ensures Reachable(Idle(Some(c), false, n + 1, s.calls[c := ToStart(c, n)]))
  {
    PollTakesLease(s, c, n);
    IdleStep(Idle(Some(c), false, n + 1, s.calls[c := Polling(Lease(n, 0, None), Ensure(ID))]), c, YES,
             Idle(Some(c), false, n + 1, s.calls[c := ToStart(c, n)]));
  }

  lemma PollGivesUp(c: CallId, n: nat)
    requires Reachable(Idle(Some(c), false, n + 1, map[c := ToStart(c, n)]))
    ensures Reachable(Idle(Some(c), false, n + 1, At(c, n, ReleaseFailed)))
  {
    var s1 := Idle(Some(c), false, n + 1, At(c, n, FailPoll(None)));
    IdleStep(Idle(Some(c), false, n + 1, map[c := ToStart(c, n)]), c, NO, s1);
    IdleStep(s1, c, NO, Idle(Some(c), false, n + 1, At(c, n, ReleaseFailed)));
  }

  /** When the run cannot be started, the poll releases its lease; its `finally` is still to come. */
  lemma PollFails(c: CallId, n: nat)
    requires Reachable(Idle(Some(c), false, n + 1, map[c := ToStart(c, n)]))
    ensures Reachable(Idle(None, false, n + 1, map[c := Tail(Lease(n, 0, None), false)]))
  {
    PollGivesUp(c, n);
    IdleStep(Idle(Some(c), false, n + 1, At(c, n, ReleaseFailed)), c, NO,
             Idle(None, false, n + 1, map[c := Tail(Lease(n, 0, None), false)]));
  }

  /** A stop that meets a poll in progress only leaves its request. */
  lemma StopDuringPoll(c: CallId, n: nat, calls: map<CallId, Local>, d: CallId)
    requires Reachable(Idle(Some(c), false, n, calls)) && d !in calls
    ensures Reachable(Idle(Some(c), true, n, calls))
  {
    var s := Idle(Some(c), false, n, calls);
    ReachableNext(s, CallStop(d));
    var t := Idle(Some(c), false, n, calls[d := StopReady]);
    assert t == Apply(s, CallStop(d));
    assert t.calls - {d} == calls;
    IdleStep(t, d, YES, Idle(Some(c), true, n, calls));
  }

  /** Poll 1 fails before a run exists and releases its lease; poll 2 begins; a stop is requested and
      returns; only then does poll 1 execute its `finally`, which clears the request.  Poll 2 goes on to
      start its run: the flag is gone, and with it the detaching at the end of the poll. What remains of the
      stop is the cancel token of poll 2, which this model does not have. */
  lemma LateFinallyDropsStop()
    ensures exists s, e ::
      && Reachable(s) && Enabled(s, e) && s.exec.active == Some(2) && s.exec.stop
      && LateFinally(s, e) && Apply(s, e) == Idle(Some(2), false, 2, map[2 := ToStart(2, 1)])
  {
    ReachableStart();
    assert INITIAL == Idle(None, false, 0, map[]);
    PollBegins(INITIAL, 1, 0);
    assert INITIAL.calls[1 := ToStart(1, 0)] == map[1 := ToStart(1, 0)];
    PollFails(1, 0);
    var tail := map[1 := Tail(Lease(0, 0, None), false)];
    PollBegins(Idle(None, false, 1, tail), 2, 1);
    StopDuringPoll(2, 2, tail[2 := ToStart(2, 1)], 3);
    LateFinallyStep(Idle(Some(2), true, 2, tail[2 := ToStart(2, 1)]));
  }

  lemma LateFinallyStep(s: State)
    requires s == Idle(Some(2), true, 2, map[1 := Tail(Lease(0, 0, None), false)][2 := ToStart(2, 1)])
    ensures var e := StepCall(1, YES);
            Enabled(s, e) && LateFinally(s, e) && Apply(s, e) == Idle(Some(2), false, 2, map[2 := ToStart(2, 1)])
  {
    assert s.calls - {1} == map[2 := ToStart(2, 1)];
  }

  // ----- overlapping one-shot calls -----

  const UNSURE := Pick(Indeterminate(false), true, false, DONE)

  /** A state in which only one-shot calls are in progress; `n` runs were started. */
  ghost function Shots(pending: Option<PendingSolo>, busy: bool, n: nat, calls: map<CallId, Local>): State {
    INITIAL.(solo := Solo(pending, false, busy), store := Store([], [], n), nextPoll := n, calls := calls)
  }

  lemma ShotStep(pending: Option<PendingSolo>, busy: bool, n: nat, rest: map<CallId, Local>, c: CallId, l: Local,
                 t: State)
    requires Reachable(Shots(pending, busy, n, rest[c := l]))
    requires Enabled(Shots(pending, busy, n, rest[c := l]), StepCall(c, UNSURE))
    requires Install(CallStep(Shots(pending, busy, n, rest[c := l]), c, UNSURE), c) == t
    ensures Reachable(t)
  {
    ReachableNext(Shots(pending, busy, n, rest[c := l]), StepCall(c, UNSURE));
  }

  lemma ShotQueries(pending: Option<PendingSolo>, n: nat, rest: map<CallId, Local>, c: CallId)
    requires Reachable(Shots(pending, false, n, rest[c := SoloReady(ID)]))
    ensures Reachable(Shots(pending, true, n + 1, rest[c := Single(ID, SoloQuery(n, n))]))
  {
    ShotStep(pending, false, n, rest, c, SoloReady(ID), Shots(pending, true, n, rest[c := Single(ID, SoloStart)]));
    ShotStep(pending, true, n, rest, c, Single(ID, SoloStart),
             Shots(pending, true, n + 1, rest[c := Single(ID, SoloQuery(n, n))]));
  }

  /** A one-shot call that is past its check gets as far as an indeterminate result. */
  lemma ShotHolds(pending: Option<PendingSolo>, n: nat, rest: map<CallId, Local>, c: CallId)
    requires Reachable(Shots(pending, false, n, rest[c := SoloReady(ID)]))
    ensures Reachable(Shots(pending, true, n + 1, rest[c := Single(ID, SoloHold(n, n, DONE))]))
  {
    ShotQueries(pending, n, rest, c);
    ShotStep(pending, true, n + 1, rest, c, Single(ID, SoloQuery(n, n)),
             Shots(pending, true, n + 1, rest[c := Single(ID, SoloRecord(n, n, DONE))]));
    ShotStep(pending, true, n + 1, rest, c, Single(ID, SoloRecord(n, n, DONE)),
             Shots(pending, true, n + 1, rest[c := Single(ID, SoloHold(n, n, DONE))]));
  }

  /** It leaves the result in the empty slot and ends. */
  lemma ShotLeaves(n: nat, rest: map<CallId, Local>, c: CallId)
    requires c !in rest && Reachable(Shots(None, true, n + 1, rest[c := Single(ID, SoloHold(n, n, DONE))]))
    ensures Reachable(Shots(Some(PendingSolo(n, n, ID, DONE)), false, n + 1, rest))
  {
    var full := Some(PendingSolo(n, n, ID, DONE));
    ShotStep(None, true, n + 1, rest, c, Single(ID, SoloHold(n, n, DONE)),
             Shots(full, true, n + 1, rest[c := Single(ID, SoloEnd)]));
    assert rest[c := Single(ID, SoloEnd)] - {c} == rest;
    ShotStep(full, true, n + 1, rest, c, Single(ID, SoloEnd), Shots(full, false, n + 1, rest));
  }

  lemma BothEnter()
    ensures Reachable(Shots(None, false, 0, map[2 := Entering(OneTime(ID))][1 := Entering(OneTime(ID))]))
  {
    ReachableStart();
    ReachableNext(INITIAL, CallExecute(2, OneTime(ID)));
    var s := Shots(None, false, 0, map[2 := Entering(OneTime(ID))]);
    assert s == Apply(INITIAL, CallExecute(2, OneTime(ID)));
    ReachableNext(s, CallExecute(1, OneTime(ID)));
  }

  lemma BothPassTheCheck()
    ensures Reachable(Shots(None, false, 0, map[2 := SoloReady(ID)][1 := SoloReady(ID)]))
  {
    BothEnter();
    var first := map[2 := Entering(OneTime(ID))];
    ShotStep(None, false, 0, first, 1, Entering(OneTime(ID)), Shots(None, false, 0, first[1 := SoloReady(ID)]));
    assert first[1 := SoloReady(ID)] == map[1 := SoloReady(ID)][2 := Entering(OneTime(ID))];
    var second := map[1 := SoloReady(ID)];
    assert second[2 := SoloReady(ID)] == map[2 := SoloReady(ID)][1 := SoloReady(ID)];
    ShotStep(None, false, 0, second, 2, Entering(OneTime(ID)), Shots(None, false, 0, second[2 := SoloReady(ID)]));
  }

  /** Two overlapping one-shot calls both pass the check of the empty slot. The first leaves its result there;
      the second is about to overwrite it, and then run 0 is nowhere. */
  lemma OverlappingOneShotsLoseARun()
    ensures exists s, e :: Reachable(s) && Possible(s, e) && Clobbers(s, e)
                           && 0 < s.store.nextRun && Nowhere(Apply(s, e), 0)
  {
    BothPassTheCheck();
    ShotHolds(None, 0, map[2 := SoloReady(ID)], 1);
    ShotLeaves(0, map[2 := SoloReady(ID)], 1);
    var full := Some(PendingSolo(0, 0, ID, DONE));
    assert map[2 := SoloReady(ID)] == map[][2 := SoloReady(ID)];
    ShotHolds(full, 1, map[], 2);
    var s := Shots(full, true, 2, map[][2 := Single(ID, SoloHold(1, 1, DONE))]);
    assert Clobbers(s, StepCall(2, UNSURE)) && Nowhere(Apply(s, StepCall(2, UNSURE)), 0);
  }
}
