/**
 Second layer: the one-shot slot, and the conservation of runs.  Every started run is in exactly one
 place, and every block moves at most one run.
 */
module RuntimeRuns {
  import opened Wrappers
  import opened Runtime
  import opened RuntimeSystem
  import opened RuntimeLeases

  datatype Place = Attached | Waiting | Queued | Held(c: CallId) | Finished

  /** The run that a call still has to attach, hand over or finish. */
  function HeldRun(l: Local): Option<RunId> {
    match l
    case Retrying(_, p, RetryFinish) => Some(p.run)
    case Single(_, SoloQuery(r, _)) => Some(r)
    case Single(_, SoloRecord(r, _, _)) => Some(r)
    case Single(_, SoloHold(r, _, _)) => Some(r)
    case Single(_, SoloFinish(r, _)) => Some(r)
    case Polling(_, FinishRestarted(r, _)) => Some(r)
    case Polling(_, AttachRun(_, _, r)) => Some(r)
    case Polling(_, FinishFailed(r, _)) => Some(r)
    case Polling(_, FinishStopped(r)) => Some(r)
    case Finishing(r, _) => Some(r)
    case _ => None
  }

  ghost predicate FinishedIn(finishes: seq<(RunId, string)>, r: RunId) {
    exists i :: 0 <= i < |finishes| && finishes[i].0 == r
  }

  ghost predicate Holds(s: State, r: RunId, p: Place) {
    match p
    case Attached => s.exec.run == Some(r)
    case Waiting => s.solo.pending.Some? && s.solo.pending.value.run == r
    case Queued => r in s.queue && !(s.pass.Popping? && s.pass.run == r)
    case Held(c) => c in s.calls && HeldRun(s.calls[c]) == Some(r)
    case Finished => FinishedIn(s.store.finishes, r)
  }

  /** `p` is the one place of run `r`. */
  ghost predicate OnlyAt(s: State, r: RunId, p: Place) {
    Holds(s, r, p) && forall q :: Holds(s, r, q) ==> q == p
  }

  ghost predicate Placed(s: State, r: RunId) {
    exists p :: OnlyAt(s, r, p)
  }

  ghost predicate Nowhere(s: State, r: RunId) {
    forall q :: !Holds(s, r, q)
  }

  ghost predicate Conserved(s: State) {
    && (forall r: RunId :: r < s.store.nextRun ==> Placed(s, r))
    && (forall r: RunId :: s.store.nextRun <= r ==> Nowhere(s, r))
    && (forall i, j :: 0 <= i < j < |s.store.finishes| ==> s.store.finishes[i].0 != s.store.finishes[j].0)
  }

  lemma OnePlace(s: State, r: RunId, p: Place, q: Place)
    requires Conserved(s) && Holds(s, r, p) && Holds(s, r, q)
    ensures p == q && r < s.store.nextRun
  {
    assert !Nowhere(s, r);
    assert Placed(s, r);
  }

  /** The retry pass works on queued runs; a run between its finish and its removal is finished. */
  ghost predicate PassInv(s: State) {
    match s.pass
    case NoPass => true
    case Pass(todo) => todo.Keys <= s.queue.Keys
    case Popping(r, todo) => todo.Keys <= s.queue.Keys && r !in todo && FinishedIn(s.store.finishes, r)
  }

  // ----- the one-shot slot -----

  predicate SoloPoint(solo: Solo, l: Local) {
    match l
    case Retrying(_, p, at) => solo.retrying && (at.RetryRecord? || at.RetryClear? ==> solo.pending == Some(p))
    case Single(_, _) => solo.busy
    case _ => true
  }

  /** The poll ID that a one-shot call in progress has reserved. */
  function SoloPoll(l: Local): Option<PollId> {
    match l
    case Single(_, SoloQuery(_, q)) => Some(q)
    case Single(_, SoloRecord(_, q, _)) => Some(q)
    case Single(_, SoloHold(_, q, _)) => Some(q)
    case _ => None
  }

  /** It was issued before, and it is not the poll ID of the result in the slot. */
  predicate SoloApart(solo: Solo, nextPoll: nat, l: Local) {
    SoloPoll(l).Some? ==>
      SoloPoll(l).value < nextPoll && (solo.pending.Some? ==> SoloPoll(l).value != solo.pending.value.poll)
  }

  predicate SlotKnown(solo: Solo, nextPoll: nat) {
    solo.pending.Some? ==> solo.pending.value.poll < nextPoll
  }

  ghost predicate SoloInv(s: State) {
    && (forall c :: c in s.calls ==> SoloPoint(s.solo, s.calls[c]) && SoloApart(s.solo, s.nextPoll, s.calls[c]))
    && (forall c, d :: c in s.calls && d in s.calls && s.calls[c].Retrying? && s.calls[d].Retrying? ==> c == d)
    && (forall c, d :: c in s.calls && d in s.calls && s.calls[c].Single? && s.calls[d].Single? ==> c == d)
    && SlotKnown(s.solo, s.nextPoll)
  }

  /** What a step of call `c` may use of it. */
  predicate SoloHere(s: State, c: CallId) {
    && c in s.calls && SoloPoint(s.solo, s.calls[c]) && SoloApart(s.solo, s.nextPoll, s.calls[c])
    && SlotKnown(s.solo, s.nextPoll)
    && (s.calls[c].Single? && s.calls[c].soloAt.SoloHold? ==> s.solo.pending.None?)
  }

  ghost predicate RunsInv(s: State) {
    Conserved(s) && PassInv(s) && SoloInv(s)
  }

  // ----- SoloInv -----

  /** How the one-shot slot may change under everybody else. */
  ghost predicate SoloFits(s: State, e: Effect, c: CallId)
    requires c in s.calls
  {
    && e.state.calls == s.calls && s.nextPoll <= e.state.nextPoll
    && (e.next.Some? ==>
         SoloPoint(e.state.solo, e.next.value) && SoloApart(e.state.solo, e.state.nextPoll, e.next.value))
    && (e.next.Some? && e.next.value.Retrying? ==> s.calls[c].Retrying? || !s.solo.retrying)
    && (e.next.Some? && e.next.value.Single? ==> s.calls[c].Single? || !s.solo.busy)
    && (e.state.solo == s.solo
        || (s.calls[c].Retrying? && e.state.solo == s.solo.(pending := None))
        || (s.calls[c].Retrying? && e.state.solo == s.solo.(retrying := false))
        || (!s.solo.retrying && e.state.solo == s.solo.(retrying := true))
        || (s.calls[c].Single? && e.state.solo == s.solo.(busy := false))
        || (!s.solo.busy && e.state.solo == s.solo.(busy := true))
        || (s.calls[c].Single? && s.solo.pending.None? && e.state.solo == s.solo.(pending := e.state.solo.pending)
            && e.state.solo.pending.Some? && SoloPoll(s.calls[c]) == Some(e.state.solo.pending.value.poll)
            && e.state.solo.pending.value.poll < s.nextPoll))
  }

  lemma SoloFitsKeeps(s: State, e: Effect, c: CallId)
    requires SoloInv(s) && c in s.calls && SoloFits(s, e, c)
    ensures SoloInv(Install(e, c))
  {
    var s' := Install(e, c);
    forall d | d in s'.calls
      ensures SoloPoint(s'.solo, s'.calls[d]) && SoloApart(s'.solo, s'.nextPoll, s'.calls[d])
    {
      if d != c {
        assert SoloPoint(s.solo, s.calls[d]) && SoloApart(s.solo, s.nextPoll, s.calls[d]);
        assert SoloPoint(s.solo, s.calls[c]);
      }
    }
  }

  predicate MonitorCall(l: Local) {
    l.PollReady? || l.Polling? || l.Tail? || l.Recovering? || l.StopReady? || l.Resolving? || l.Finishing?
  }

  predicate SoloUntouched(s: State, e: Effect) {
    e.state.calls == s.calls && e.state.solo == s.solo && s.nextPoll <= e.state.nextPoll
    && (e.next.Some? ==> MonitorCall(e.next.value) || e.next.value.Faulted?)
  }

  lemma CloseStepSolo(s: State, c: CallId, l: Lease, at: PollAt, pick: Pick)
    requires HandlerAt(at) || FinallyAt(at)
    ensures SoloUntouched(s, CloseStep(s, c, l, at, pick))
  {
  }

  lemma RecordStepSolo(s: State, l: Lease, at: PollAt, pick: Pick)
    requires RecordAt(at)
    ensures SoloUntouched(s, RecordStep(s, l, at, pick))
  {
  }

  lemma PollStepSolo(s: State, c: CallId, l: Lease, at: PollAt, pick: Pick)
    requires c in s.calls && s.calls[c] == Polling(l, at)
    ensures SoloFits(s, CallStep(s, c, pick), c)
  {
    if PendingAt(at) {
    } else if AttachAt(at) {
    } else if RecordAt(at) {
      RecordStepSolo(s, l, at, pick);
    } else {
      CloseStepSolo(s, c, l, at, pick);
    }
  }

  lemma ControlStepSolo(s: State, c: CallId, pick: Pick)
    requires c in s.calls && (MonitorCall(s.calls[c]) || s.calls[c].Faulted?) && !s.calls[c].Polling?
    ensures SoloFits(s, CallStep(s, c, pick), c)
  {
    var e := CallStep(s, c, pick);
    assert e.state.solo == s.solo && e.state.calls == s.calls;
    assert e.next.Some? ==> MonitorCall(e.next.value) || e.next.value.Faulted?;
  }

  lemma SingleStepSolo(s: State, c: CallId, pick: Pick)
    requires SoloHere(s, c) && (s.calls[c].SoloReady? || s.calls[c].Single?)
    ensures SoloFits(s, CallStep(s, c, pick), c)
  {
  }

  lemma EnterStepSolo(s: State, c: CallId, pick: Pick)
    requires SoloHere(s, c) && (s.calls[c].Entering? || s.calls[c].Retrying?)
    ensures SoloFits(s, CallStep(s, c, pick), c)
  {
  }

  // ----- Conserved and PassInv -----

  datatype Move =
    | Stay | TakeAttached | Attach | Finish(status: string) | Enqueue(status: string) | TakeWaiting | Wait | Born

  /** The one run, if any, that block `e` of call `c` moves, and from where to where. */
  ghost predicate Moves(s: State, e: Effect, held: Option<RunId>, m: Move) {
    var t := e.state;
    var held' := if e.next.Some? then HeldRun(e.next.value) else None;
    && t.calls == s.calls && t.pass == s.pass
    && (m.TakeAttached? || m.Attach? || t.exec.run == s.exec.run)
    && (m.TakeWaiting? || m.Wait? || t.solo.pending == s.solo.pending)
    && (m.Finish? || m.Enqueue? || t.queue == s.queue)
    && (m.Finish? || t.store.finishes == s.store.finishes)
    && t.store.nextRun == s.store.nextRun + (if m.Born? then 1 else 0)
    && match m
       case Stay => held' == held
       case TakeAttached => held.None? && s.exec.run.Some? && held' == s.exec.run && t.exec.run.None?
       case Attach => held.Some? && t.exec.run == held && held'.None? && s.exec.run.None?
       case Finish(st) => held.Some? && held'.None? && t.queue == s.queue - {held.value}
                          && t.store.finishes == s.store.finishes + [(held.value, st)]
       case Enqueue(st) => held.Some? && held'.None? && t.queue == s.queue[held.value := st]
       case TakeWaiting => held.None? && s.solo.pending.Some? && t.solo.pending.None?
                           && held' == Some(s.solo.pending.value.run)
       case Wait => held.Some? && held'.None? && s.solo.pending.None? && t.solo.pending.Some?
                    && t.solo.pending.value.run == held.value
       case Born => held.None? && held' == Some(s.store.nextRun)
  }

  ghost function NewPlace(e: Effect, c: CallId, r: RunId, p: Place): Place {
    if e.next.Some? && HeldRun(e.next.value) == Some(r) then Held(c)
    else if e.state.exec.run == Some(r) then Attached
    else if e.state.solo.pending.Some? && e.state.solo.pending.value.run == r then Waiting
    else if FinishedIn(e.state.store.finishes, r) then Finished
    else if r in e.state.queue then Queued
    else p
  }

  lemma FinishedAppend(finishes: seq<(RunId, string)>, f: (RunId, string), r: RunId)
    ensures FinishedIn(finishes + [f], r) <==> FinishedIn(finishes, r) || f.0 == r
  {
    if FinishedIn(finishes, r) {
      var i :| 0 <= i < |finishes| && finishes[i].0 == r;
      assert (finishes + [f])[i].0 == r;
    }
    if f.0 == r {
      assert (finishes + [f])[|finishes|].0 == r;
    }
  }

  lemma MovedRunPlaced(s: State, e: Effect, c: CallId, m: Move, r: RunId, p: Place)
    requires c in s.calls && PassInv(s) && Moves(s, e, HeldRun(s.calls[c]), m)
    requires OnlyAt(s, r, p) && r < s.store.nextRun
    ensures OnlyAt(Install(e, c), r, NewPlace(e, c, r, p))
  {
    var held := HeldRun(s.calls[c]);
    assert held == Some(r) <==> p == Held(c) by {
      if held == Some(r) {
        assert Holds(s, r, Held(c));
      }
    }
    assert Holds(s, r, Attached) <==> p == Attached;
    assert Holds(s, r, Waiting) <==> p == Waiting;
    assert Holds(s, r, Queued) <==> p == Queued;
    assert Holds(s, r, Finished) <==> p == Finished;
    if m.Finish? {
      FinishedAppend(s.store.finishes, (held.value, m.status), r);
    }
    var s' := Install(e, c);
    forall q | Holds(s', r, q) ensures q == NewPlace(e, c, r, p) {
      if q.Held? && q.c != c {
        assert Holds(s, r, q);
      }
    }
  }

  lemma MovesConserve(s: State, e: Effect, c: CallId, m: Move)
    requires c in s.calls && Conserved(s) && PassInv(s) && Moves(s, e, HeldRun(s.calls[c]), m)
    ensures Conserved(Install(e, c)) && PassInv(Install(e, c))
  {
    var s' := Install(e, c);
    var held := HeldRun(s.calls[c]);
    if held.Some? {
      assert Holds(s, held.value, Held(c));
      assert !Nowhere(s, held.value);
      assert Placed(s, held.value);
      assert !Holds(s, held.value, Finished) && !Holds(s, held.value, Queued);
    }
    forall r: RunId | r < s'.store.nextRun ensures Placed(s', r) {
      if r < s.store.nextRun {
        assert Placed(s, r);
        var p :| OnlyAt(s, r, p);
        MovedRunPlaced(s, e, c, m, r, p);
      } else {
        BornRunPlaced(s, e, c);
      }
    }
    forall r: RunId | s'.store.nextRun <= r ensures Nowhere(s', r) {
      UnbornRunNowhere(s, e, c, m, r);
    }
    if m.Finish? {
      forall i | 0 <= i < |s.store.finishes| ensures s.store.finishes[i].0 != held.value {
      }
    }
    if s.pass.Popping? && m.Finish? {
      FinishedAppend(s.store.finishes, (held.value, m.status), s.pass.run);
    }
  }

  lemma BornRunPlaced(s: State, e: Effect, c: CallId)
    requires c in s.calls && PassInv(s) && Moves(s, e, HeldRun(s.calls[c]), Born)
    requires Nowhere(s, s.store.nextRun)
    ensures Placed(Install(e, c), s.store.nextRun)
  {
    var r := s.store.nextRun;
    var s' := Install(e, c);
    assert !Holds(s, r, Attached) && !Holds(s, r, Waiting) && !Holds(s, r, Queued) && !Holds(s, r, Finished);
    forall q | Holds(s', r, q) ensures q == Held(c) {
      if q.Held? && q.c != c {
        assert Holds(s, r, q);
      }
    }
    assert OnlyAt(s', r, Held(c));
  }

  lemma UnbornRunNowhere(s: State, e: Effect, c: CallId, m: Move, r: RunId)
    requires c in s.calls && PassInv(s) && Moves(s, e, HeldRun(s.calls[c]), m)
    requires Nowhere(s, r) && r >= e.state.store.nextRun
    ensures Nowhere(Install(e, c), r)
  {
    var s' := Install(e, c);
    assert !Holds(s, r, Attached) && !Holds(s, r, Waiting) && !Holds(s, r, Queued) && !Holds(s, r, Finished)
           && !Holds(s, r, Held(c));
    if m.Finish? {
      FinishedAppend(s.store.finishes, (HeldRun(s.calls[c]).value, m.status), r);
    }
    forall q | Holds(s', r, q) ensures false {
      if q.Held? && q.c != c {
        assert Holds(s, r, q);
      }
    }
  }

  function FinishMove(status: string, ok: bool): Move {
    if ok then Finish(status) else Enqueue(status)
  }

  lemma PendingStepMoves(s: State, c: CallId, l: Lease, at: PollAt, pick: Pick) returns (m: Move)
    requires Here(s, c) && s.calls[c] == Polling(l, at)
    requires PendingAt(at)
    ensures Moves(s, PendingStep(s, l, at, pick), None, m)
  {
    m := if at.PendingRestart? && s.exec.run.Some? then TakeAttached else Stay;
  }

  lemma AttachStepMoves(s: State, c: CallId, l: Lease, at: PollAt, pick: Pick) returns (m: Move)
    requires Here(s, c) && s.calls[c] == Polling(l, at)
    requires AttachAt(at)
    ensures Moves(s, AttachStep(s, c, l, at, pick), HeldRun(s.calls[c]), m)
  {
    m := match at
      case FinishRestarted(_, _) => FinishMove("RESTARTED", pick.ok)
      case StartRun(_) => if pick.ok then Born else Stay
      case AttachRun(_, _, _) => Attach
      case _ => Stay;
  }

  lemma EngineStepMoves(s: State, c: CallId, l: Lease, at: PollAt, pick: Pick)
    requires Here(s, c) && s.calls[c] == Polling(l, at)
    requires at.Prepare? || at.Query? || at.Commit?
    ensures Moves(s, RecordStep(s, l, at, pick), None, Stay)
  {
  }

  lemma RecordStepMoves(s: State, c: CallId, l: Lease, at: PollAt, pick: Pick) returns (m: Move)
    requires Here(s, c) && s.calls[c] == Polling(l, at)
    requires RecordAt(at)
    ensures Moves(s, RecordStep(s, l, at, pick), None, m)
  {
    m := Stay;
    if at.Prepare? || at.Query? || at.Commit? {
      EngineStepMoves(s, c, l, at, pick);
    }
  }

  lemma HandlerStepMoves(s: State, c: CallId, l: Lease, at: PollAt, pick: Pick) returns (m: Move)
    requires Here(s, c) && s.calls[c] == Polling(l, at)
    requires HandlerAt(at)
    ensures Moves(s, CloseStep(s, c, l, at, pick), HeldRun(s.calls[c]), m)
  {
    m := match at
      case FailPoll(p) => if FailBlock(s.exec, l, p, pick.extra).1.Some? then TakeAttached else Stay
      case FinishFailed(_, status) => FinishMove(status, pick.ok)
      case _ => Stay;
  }

  lemma FinallyStepMoves(s: State, c: CallId, l: Lease, at: PollAt, pick: Pick) returns (m: Move)
    requires Here(s, c) && s.calls[c] == Polling(l, at)
    requires FinallyAt(at)
    ensures Moves(s, CloseStep(s, c, l, at, pick), HeldRun(s.calls[c]), m)
  {
    m := match at
      case Final(keep) => if FinallyBlock(s.exec, c, l, keep).1.Some? then TakeAttached else Stay
      case FinishStopped(_) => FinishMove("STOPPED", pick.ok)
      case _ => Stay;
  }

  lemma BeginStepMoves(s: State, c: CallId, pick: Pick) returns (m: Move)
    requires Here(s, c) && (s.calls[c].PollReady? || s.calls[c].Tail?)
    ensures Moves(s, CallStep(s, c, pick), None, m)
  {
    m := if s.exec.run.Some? && CallStep(s, c, pick).state.exec.run.None? then TakeAttached else Stay;
  }

  lemma StopStepMoves(s: State, c: CallId, pick: Pick) returns (m: Move)
    requires Here(s, c) && (s.calls[c].Recovering? || s.calls[c].StopReady?)
    ensures Moves(s, CallStep(s, c, pick), None, m)
  {
    m := if s.exec.run.Some? && CallStep(s, c, pick).state.exec.run.None? then TakeAttached else Stay;
  }

  lemma ResolveStepMoves(s: State, c: CallId, pick: Pick) returns (m: Move)
    requires Here(s, c) && s.calls[c].Resolving?
    ensures Moves(s, CallStep(s, c, pick), None, m)
  {
    m := if s.exec.run.Some? && CallStep(s, c, pick).state.exec.run.None? then TakeAttached else Stay;
  }

  lemma SoloStepMoves(s: State, c: CallId, pick: Pick) returns (m: Move)
    requires Here(s, c) && SoloHere(s, c)
    requires s.calls[c].SoloReady? || s.calls[c].Single? || s.calls[c].Finishing?
    ensures Moves(s, CallStep(s, c, pick), HeldRun(s.calls[c]), m)
  {
    m := match s.calls[c]
      case Single(_, SoloStart) => if pick.ok then Born else Stay
      case Single(_, SoloHold(_, _, _)) => Wait
      case Single(_, SoloFinish(_, status)) => FinishMove(status, pick.ok)
      case Finishing(_, status) => FinishMove(status, pick.ok)
      case _ => Stay;
  }

  lemma EnterStepMoves(s: State, c: CallId, pick: Pick) returns (m: Move)
    requires Here(s, c) && SoloHere(s, c)
    requires s.calls[c].Entering? || s.calls[c].Retrying?
    ensures Moves(s, CallStep(s, c, pick), HeldRun(s.calls[c]), m)
  {
    m := match s.calls[c]
      case Retrying(_, _, RetryClear) => TakeWaiting
      case Retrying(_, p, RetryFinish) => FinishMove(OneShotStatus(p.outcome), pick.ok)
      case _ => Stay;
  }

  lemma CallStepMoves(s: State, c: CallId, pick: Pick) returns (m: Move)
    requires Here(s, c) && SoloHere(s, c)
    ensures Moves(s, CallStep(s, c, pick), HeldRun(s.calls[c]), m)
  {
    match s.calls[c]
    case Polling(l, at) =>
      if PendingAt(at) {
        m := PendingStepMoves(s, c, l, at, pick);
      } else if AttachAt(at) {
        m := AttachStepMoves(s, c, l, at, pick);
      } else if RecordAt(at) {
        m := RecordStepMoves(s, c, l, at, pick);
      } else if HandlerAt(at) {
        m := HandlerStepMoves(s, c, l, at, pick);
      } else {
        m := FinallyStepMoves(s, c, l, at, pick);
      }
    case PollReady(_) => m := BeginStepMoves(s, c, pick);
    case Tail(_, _) => m := BeginStepMoves(s, c, pick);
    case Recovering => m := StopStepMoves(s, c, pick);
    case StopReady => m := StopStepMoves(s, c, pick);
    case Resolving(_, _, _) => m := ResolveStepMoves(s, c, pick);
    case Entering(_) => m := EnterStepMoves(s, c, pick);
    case Retrying(_, _, _) => m := EnterStepMoves(s, c, pick);
    case _ => m := SoloStepMoves(s, c, pick);
  }

  lemma CallStepSolo(s: State, c: CallId, pick: Pick)
    requires SoloInv(s) && SoloHere(s, c)
    ensures SoloFits(s, CallStep(s, c, pick), c)
  {
    match s.calls[c]
    case Polling(l, at) => PollStepSolo(s, c, l, at, pick);
    case SoloReady(_) => SingleStepSolo(s, c, pick);
    case Single(_, _) => SingleStepSolo(s, c, pick);
    case Entering(_) => EnterStepSolo(s, c, pick);
    case Retrying(_, _, _) => EnterStepSolo(s, c, pick);
    case _ => ControlStepSolo(s, c, pick);
  }

  lemma CallStepKeepsRuns(s: State, c: CallId, pick: Pick)
    requires LeaseInv(s) && RunsInv(s) && Enabled(s, StepCall(c, pick))
    ensures RunsInv(Install(CallStep(s, c, pick), c))
  {
    HereHolds(s, c);
    assert SoloHere(s, c);
    var m := CallStepMoves(s, c, pick);
    MovesConserve(s, CallStep(s, c, pick), c, m);
    CallStepSolo(s, c, pick);
    SoloFitsKeeps(s, CallStep(s, c, pick), c);
  }
}
