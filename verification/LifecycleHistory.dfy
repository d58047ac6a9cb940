/**
 What the session lifecycle means over a whole history of committed polls
 (src/aruba_session_tracker/services/monitoring.py:316-390 and 564-720).
 */
module LifecycleHistory {
  import opened Wrappers
  import opened Outcomes
  import opened Lifecycle
  import opened Sessions
  import opened MonitorEngines

  function TableAfter(h: seq<Poll>, limit: nat): Table {
    if h == [] then Table([], map[]) else AfterPoll(TableAfter(h[..|h| - 1], limit), h[|h| - 1], limit)
  }

  /** Every event of the history, in order. */
  function Emitted(h: seq<Poll>, limit: nat): seq<LifecycleEvent> {
    if h == [] then []
    else Emitted(h[..|h| - 1], limit) + PollEvents(TableAfter(h[..|h| - 1], limit), h[|h| - 1], limit)
  }

  // ----- a declarative reading of "active" -----

  predicate Sighted(p: Poll, f: Flow) {
    f in FlowsOf(p.outcome.observations)
  }

  /** The last poll that saw the flow, or -1. */
  function LastSeen(h: seq<Poll>, f: Flow): (i: int)
    ensures -1 <= i < |h|
  {
    if h == [] then -1
    else if Sighted(h[|h| - 1], f) then |h| - 1
    else LastSeen(h[..|h| - 1], f)
  }

  lemma {:induction false} LastSeenSound(h: seq<Poll>, f: Flow)
    ensures LastSeen(h, f) >= 0 ==> Sighted(h[LastSeen(h, f)], f)
    ensures forall j :: LastSeen(h, f) < j < |h| ==> !Sighted(h[j], f)
  {
    if h != [] {
      LastSeenSound(h[..|h| - 1], f);
    }
  }

  /** How many of the polls from position `from` on were authoritative. */
  function AuthoritativeFrom(h: seq<Poll>, from: nat): nat {
    if |h| <= from then 0
    else AuthoritativeFrom(h[..|h| - 1], from) + if h[|h| - 1].outcome.authoritative then 1 else 0
  }

  function EverSeen(h: seq<Poll>): set<Flow> {
    set i, f | 0 <= i < |h| && f in FlowsOf(h[i].outcome.observations) :: f
  }

  predicate NoneAfter(flags: seq<bool>, i: int) {
    forall j :: 0 <= j < |flags| && i < j ==> !flags[j]
  }

  /** The flow was seen, no later poll overflowed, and too few later polls could have missed it. */
  predicate AliveGiven(h: seq<Poll>, limit: nat, f: Flow, overflowed: seq<bool>) {
    LastSeen(h, f) >= 0 && NoneAfter(overflowed, LastSeen(h, f)) && AuthoritativeFrom(h, LastSeen(h, f) + 1) < limit
  }

  function AliveFlows(h: seq<Poll>, limit: nat, overflowed: seq<bool>): set<Flow> {
    set f | f in EverSeen(h) && AliveGiven(h, limit, f, overflowed)
  }

  /** Which polls overflowed: the flows alive before the poll, together with those that it saw, are too many. */
  function Overflowed(h: seq<Poll>, limit: nat): (r: seq<bool>)
    ensures |r| == |h|
  {
    if h == [] then []
    else
      var before := Overflowed(h[..|h| - 1], limit);
      var alive := AliveFlows(h[..|h| - 1], limit, before);
      before + [|alive + FlowsOf(h[|h| - 1].outcome.observations)| > MAX_POLL_OBSERVATIONS]
  }

  predicate Alive(h: seq<Poll>, limit: nat, f: Flow) {
    AliveGiven(h, limit, f, Overflowed(h, limit))
  }

  lemma SeenBefore(h: seq<Poll>, f: Flow)
    ensures LastSeen(h, f) >= 0 ==> f in EverSeen(h)
  {
    LastSeenSound(h, f);
  }

  lemma AuthoritativeStep(h: seq<Poll>, from: nat)
    requires from < |h|
    ensures AuthoritativeFrom(h, from)
            == AuthoritativeFrom(h[..|h| - 1], from) + if h[|h| - 1].outcome.authoritative then 1 else 0
  {
  }

  lemma LastSeenStep(h: seq<Poll>, f: Flow)
    requires h != []
    ensures LastSeen(h, f) == if Sighted(h[|h| - 1], f) then |h| - 1 else LastSeen(h[..|h| - 1], f)
  {
  }

  /** Whether a flow is alive, and how many authoritative polls came after it was last seen. */
  datatype Liveness = Liveness(alive: bool, since: nat)

  function LivenessOf(h: seq<Poll>, limit: nat, f: Flow): Liveness {
    Liveness(Alive(h, limit, f), AuthoritativeFrom(h, LastSeen(h, f) + 1))
  }

  predicate Matches(s: Option<Session>, l: Liveness) {
    (s.Some? <==> l.alive) && (s.Some? ==> s.value.misses == l.since)
  }

  predicate Refined(h: seq<Poll>, limit: nat, f: Flow) {
    Matches(Get(TableAfter(h, limit).at, f), LivenessOf(h, limit, f))
  }

  ghost predicate AllRefined(h: seq<Poll>, limit: nat) {
    forall f :: Refined(h, limit, f)
  }

  lemma OverflowAgrees(h: seq<Poll>, limit: nat)
    requires h != [] && AllRefined(h[..|h| - 1], limit)
    ensures Overflowed(h, limit)[|h| - 1] <==> Overflows(TableAfter(h[..|h| - 1], limit).at, h[|h| - 1].outcome)
  {
    var init := h[..|h| - 1];
    var alive := AliveFlows(init, limit, Overflowed(init, limit));
    forall f ensures f in alive <==> f in TableAfter(init, limit).at {
      assert Refined(init, limit, f);
      SeenBefore(init, f);
    }
    assert alive == TableAfter(init, limit).at.Keys;
  }

  /** What one poll does to a flow: as a session, and in the declarative reading. */
  ghost predicate SessionStepped(before: Option<Session>, after: Option<Session>, p: Poll, overflow: bool,
                                 limit: nat, sighted: bool) {
    if sighted then after.Some? && after.value.misses == 0
    else
      after == if before.None? || overflow then None
               else if !p.outcome.authoritative then before
               else if before.value.misses + 1 >= limit then None
               else Some(before.value.(misses := before.value.misses + 1))
  }

  ghost predicate LivenessStepped(was: Liveness, now: Liveness, p: Poll, overflow: bool, limit: nat, sighted: bool) {
    && (was.alive ==> was.since < limit)
    && if sighted then now == Liveness(true, 0)
       else now.since == was.since + (if p.outcome.authoritative then 1 else 0)
            && (now.alive <==> was.alive && !overflow && now.since < limit)
  }

  lemma MatchStep(before: Option<Session>, after: Option<Session>, was: Liveness, now: Liveness, p: Poll,
                  overflow: bool, limit: nat, sighted: bool)
    requires Matches(before, was) && SessionStepped(before, after, p, overflow, limit, sighted)
    requires LivenessStepped(was, now, p, overflow, limit, sighted)
    ensures Matches(after, now)
  {
  }

  lemma NoneAfterStep(flags: seq<bool>, flag: bool, i: int)
    requires i < |flags|
    ensures NoneAfter(flags + [flag], i) <==> NoneAfter(flags, i) && !flag
  {
    var more := flags + [flag];
    assert more[|flags|] == flag;
    assert forall j :: 0 <= j < |flags| ==> more[j] == flags[j];
  }

  lemma OverflowedStep(h: seq<Poll>, limit: nat)
    requires h != []
    ensures Overflowed(h, limit) == Overflowed(h[..|h| - 1], limit) + [Overflowed(h, limit)[|h| - 1]]
  {
  }

  lemma LivenessStep(h: seq<Poll>, limit: nat, f: Flow)
    requires h != [] && limit >= 1
    ensures LivenessStepped(LivenessOf(h[..|h| - 1], limit, f), LivenessOf(h, limit, f),
                            h[|h| - 1], Overflowed(h, limit)[|h| - 1], limit, Sighted(h[|h| - 1], f))
  {
    LastSeenStep(h, f);
    if !Sighted(h[|h| - 1], f) {
      OverflowedStep(h, limit);
      NoneAfterStep(Overflowed(h[..|h| - 1], limit), Overflowed(h, limit)[|h| - 1], LastSeen(h, f));
      AuthoritativeStep(h, LastSeen(h, f) + 1);
    }
  }

  lemma SessionStep(t: Table, p: Poll, limit: nat, f: Flow)
    requires limit >= 1
    ensures SessionStepped(Get(t.at, f), Get(AfterPoll(t, p, limit).at, f), p, Overflows(t.at, p.outcome),
                           limit, Sighted(p, f))
  {
    ControllersSound(p.outcome.observations, f);
    var w := SweepOf(t.at, p, limit);
    assert Get(Swept(t.at, w), f) == SessionAfter(t.at, w, f);
  }

  lemma SessionStepOf(h: seq<Poll>, limit: nat, f: Flow)
    requires h != [] && limit >= 1
    ensures SessionStepped(Get(TableAfter(h[..|h| - 1], limit).at, f), Get(TableAfter(h, limit).at, f), h[|h| - 1],
                           Overflows(TableAfter(h[..|h| - 1], limit).at, h[|h| - 1].outcome),
                           limit, Sighted(h[|h| - 1], f))
  {
    SessionStep(TableAfter(h[..|h| - 1], limit), h[|h| - 1], limit, f);
  }

  lemma RefinedStep(h: seq<Poll>, limit: nat, f: Flow, before: Option<Session>, after: Option<Session>,
                    was: Liveness, now: Liveness)
    requires h != [] && limit >= 1
    requires was == LivenessOf(h[..|h| - 1], limit, f) && now == LivenessOf(h, limit, f)
    requires Matches(before, was)
    requires SessionStepped(before, after, h[|h| - 1], Overflowed(h, limit)[|h| - 1], limit, Sighted(h[|h| - 1], f))
    ensures Matches(after, now)
  {
    assert LivenessStepped(was, now, h[|h| - 1], Overflowed(h, limit)[|h| - 1], limit, Sighted(h[|h| - 1], f)) by {
      LivenessStep(h, limit, f);
    }
    MatchStep(before, after, was, now, h[|h| - 1], Overflowed(h, limit)[|h| - 1], limit, Sighted(h[|h| - 1], f));
  }

  lemma {:induction false} ActiveIffAlive(h: seq<Poll>, limit: nat)
    requires limit >= 1
    ensures AllRefined(h, limit)
  {
    if h == [] {
      forall f ensures Refined(h, limit, f) {
        assert LastSeen(h, f) == -1;
      }
    } else {
      ActiveIffAlive(h[..|h| - 1], limit);
      OverflowAgrees(h, limit);
      forall f ensures Refined(h, limit, f) {
        assert Refined(h[..|h| - 1], limit, f);
        SessionStepOf(h, limit, f);
        RefinedStep(h, limit, f, Get(TableAfter(h[..|h| - 1], limit).at, f), Get(TableAfter(h, limit).at, f),
                    LivenessOf(h[..|h| - 1], limit, f), LivenessOf(h, limit, f));
      }
    }
  }

  // ----- the map never exceeds its limit -----

  lemma {:induction false} FlowsAreFewer(s: seq<Observation>)
    ensures |FlowsOf(s)| <= |s|
  {
    if s != [] {
      FlowsOfPrefix(s);
      FlowsAreFewer(s[..|s| - 1]);
    }
  }

  lemma SubsetSize<T>(a: set<T>, b: set<T>)
    requires a <= b
    ensures |a| <= |b|
    decreases |a|
  {
    if a != {} {
      var x :| x in a;
      SubsetSize(a - {x}, b - {x});
    }
  }

  lemma {:induction false} ActiveIsBounded(h: seq<Poll>, limit: nat)
    requires forall i :: 0 <= i < |h| ==> |h[i].outcome.observations| <= MAX_POLL_OBSERVATIONS
    ensures |TableAfter(h, limit).at| <= MAX_POLL_OBSERVATIONS
  {
    if h != [] {
      var init, last := h[..|h| - 1], h[|h| - 1];
      ActiveIsBounded(init, limit);
      var before, after := TableAfter(init, limit).at, TableAfter(h, limit).at;
      var seen := FlowsOf(last.outcome.observations);
      FlowsAreFewer(last.outcome.observations);
      SubsetSize(after.Keys, if Overflows(before, last.outcome) then seen else before.Keys + seen);
    }
  }

  /** The active map refines the history: a flow is active exactly when it is alive, and its miss count is
      the number of authoritative polls since it was last seen. */
  lemma ActiveMapRefinesHistory(h: seq<Poll>, limit: nat, f: Flow)
    requires limit >= 1
    ensures f in TableAfter(h, limit).at <==> LivenessOf(h, limit, f).alive
    ensures f in TableAfter(h, limit).at ==>
              TableAfter(h, limit).at[f].misses == LivenessOf(h, limit, f).since < limit
  {
    assert Matches(Get(TableAfter(h, limit).at, f), LivenessOf(h, limit, f)) by {
      ActiveIffAlive(h, limit);
      assert Refined(h, limit, f);
    }
    AliveBelow(h, limit, f);
  }

  lemma AliveBelow(h: seq<Poll>, limit: nat, f: Flow)
    ensures LivenessOf(h, limit, f).alive ==> LivenessOf(h, limit, f).since < limit
  {
  }

  lemma {:induction false} HistoryCoherent(h: seq<Poll>, limit: nat)
    ensures Coherent(TableAfter(h, limit))
  {
    if h != [] {
      var init, last := h[..|h| - 1], h[|h| - 1];
      HistoryCoherent(init, limit);
      var t := TableAfter(init, limit);
      SweptCoherent(t, SweepOf(t.at, last, limit));
      PrunedCoherent(SweptTable(t, SweepOf(t.at, last, limit)), FlowsOf(last.outcome.observations));
    }
  }

  // ----- where an event comes from -----

  lemma {:induction false} AllEventsMembers(at: map<Flow, Session>, w: Sweep, flows: seq<Flow>, e: LifecycleEvent)
    ensures e in AllEvents(at, w, flows) <==> exists f :: f in flows && e in EventsAfter(at, w, f)
  {
    if flows != [] {
      var init, last := flows[..|flows| - 1], flows[|flows| - 1];
      AllEventsMembers(at, w, init, e);
      assert flows == init + [last];
      assert last in flows;
    }
  }

  lemma EventSource(t: Table, w: Sweep, e: LifecycleEvent)
    requires Coherent(t)
    ensures e in SweepEvents(t.order, t.at, w) <==> exists f :: e in EventsAfter(t.at, w, f)
  {
    var unseen := Restrict(t.order, t.at.Keys - FlowsOf(w.observations));
    AllEventsMembers(t.at, w, FlowOrder(w.observations), e);
    AllEventsMembers(t.at, w, unseen, e);
    FlowOrderSound(w.observations);
    RestrictSound(t.order, t.at.Keys - FlowsOf(w.observations));
    forall f | e in EventsAfter(t.at, w, f) ensures f in FlowOrder(w.observations) || f in unseen {
      ControllersSound(w.observations, f);
    }
  }

  /** The event of an absence. */
  function AbsenceEvent(s: Session, limit: nat, now: int): LifecycleEvent {
    LifecycleEvent(if s.misses + 1 >= limit then CLOSED else MISSED, s.id, s.observation, None, s.misses + 1, now)
  }

  lemma AbsenceOfFlow(at: map<Flow, Session>, w: Sweep, f: Flow, e: LifecycleEvent)
    ensures e in EventsAfter(at, w, f) && (e.kind == MISSED || e.kind == CLOSED) <==>
            w.authoritative && f in at && f !in FlowsOf(w.observations) && e == AbsenceEvent(at[f], w.limit, w.now)
    ensures e in EventsAfter(at, w, f) && e.misses > 0 ==> e.kind == MISSED || e.kind == CLOSED
  {
    ControllersSound(w.observations, f);
  }

  /** MISSED and CLOSED come from the conclusive polls, one for every active flow that such a poll did not see. */
  lemma AbsenceEvents(t: Table, p: Poll, limit: nat, e: LifecycleEvent)
    requires Coherent(t)
    ensures e in PollEvents(t, p, limit) && (e.kind == MISSED || e.kind == CLOSED) <==>
            Conclusive(t.at, p.outcome)
            && exists f :: f in t.at && !Sighted(p, f) && e == AbsenceEvent(t.at[f], limit, p.now)
    ensures e in PollEvents(t, p, limit) && e.misses > 0 ==> e.kind == MISSED || e.kind == CLOSED
  {
    var w := SweepOf(t.at, p, limit);
    EventSource(t, w, e);
    forall f {
      AbsenceOfFlow(t.at, w, f, e);
    }
  }

  /** No absence is counted by a poll that was reported as not authoritative. */
  lemma QuietWhenPartial(owner: nat, config: Config, base: Base, probe: Probe, e: LifecycleEvent)
    requires Coherent(base.table)
    requires e in Calculated(owner, config, base, probe).result.events && (e.kind == MISSED || e.kind == CLOSED)
    ensures Calculated(owner, config, base, probe).result.outcome.authoritative
  {
    AbsenceEvents(base.table, PollOf(config, base, probe), config.closeAfterMisses, e);
  }

  /** A second MISS is only ever counted by a poll that refreshed the MM location. */
  lemma SecondMissRefreshes(owner: nat, config: Config, base: Base, probe: Probe, e: LifecycleEvent)
    requires Coherent(base.table)
    requires e in Calculated(owner, config, base, probe).result.events && e.misses == 2
    ensures Calculated(owner, config, base, probe).result.refreshed
  {
    var p, at := PollOf(config, base, probe), base.table.at;
    AbsenceEvents(base.table, p, config.closeAfterMisses, e);
    var f :| f in at && !Sighted(p, f) && e == AbsenceEvent(at[f], config.closeAfterMisses, p.now);
    SecondMissAsks(config, base, probe, f);
  }

  lemma SecondMissAsks(config: Config, base: Base, probe: Probe, f: Flow)
    requires f in base.table.at && base.table.at[f].misses == 1
    requires f !in FlowsOf(Concluded(config, base, probe).observations)
    requires Concluded(config, base, probe).authoritative
    ensures Refreshes(config, base, probe) || AsksTwice(config, base, probe)
  {
    if !AsksTwice(config, base, probe) {
      assert Concluded(config, base, probe).observations == probe.first.observations;
      assert SecondMissPending(base.table.at, probe.first);
    }
  }

  // ----- the event grammar of one instance -----

  /** `owner` is the host of the last confirmed move, if there was one. */
  datatype Life = Unborn | Running(misses: nat, owner: Option<string>) | Ended | Broken

  /** The grammar: STARTED first; MISSED 1, 2, ... without gaps until OBSERVED, or CLOSED at the limit; nothing
      after CLOSED; and every confirmed move starts where the preceding one ended. */
  function Accept(life: Life, e: LifecycleEvent, limit: nat): Life {
    match e.kind
    case STARTED => if life.Unborn? && e.misses == 0 then Running(0, None) else Broken
    case OBSERVED => if life.Running? && life.misses > 0 && e.misses == 0 then life.(misses := 0) else Broken
    case MISSED =>
      if life.Running? && e.misses == life.misses + 1 < limit then life.(misses := e.misses) else Broken
    case CLOSED => if life.Running? && e.misses == life.misses + 1 == limit then Ended else Broken
    case CONTROLLER_CHANGED =>
      if life.Running? && life.misses == 0 && e.previous.Some? && e.previous.value.host != e.observation.host
         && (life.owner.Some? ==> life.owner.value == e.previous.value.host)
      then Running(0, Some(e.observation.host)) else Broken
    case FLAGS_CHANGED => if life.Running? && life.misses == 0 then life else Broken
    case COUNTERS_CHANGED => if life.Running? && life.misses == 0 then life else Broken
  }

  /** The life of one instance after a list of events. */
  function LifeAfter(life: Life, id: Instance, events: seq<LifecycleEvent>, limit: nat): Life {
    if events == [] then life
    else
      var before := LifeAfter(life, id, events[..|events| - 1], limit);
      if events[|events| - 1].id == id then Accept(before, events[|events| - 1], limit) else before
  }

  lemma {:induction false} LifeConcat(life: Life, id: Instance, a: seq<LifecycleEvent>, b: seq<LifecycleEvent>,
                                      limit: nat)
    ensures LifeAfter(life, id, a + b, limit) == LifeAfter(LifeAfter(life, id, a, limit), id, b, limit)
  {
    if b == [] {
      assert a + b == a;
    } else {
      assert (a + b)[..|a + b| - 1] == a + b[..|b| - 1];
      LifeConcat(life, id, a, b[..|b| - 1], limit);
    }
  }

  lemma {:induction false} OthersIgnored(life: Life, id: Instance, events: seq<LifecycleEvent>, limit: nat)
    requires forall e :: e in events ==> e.id != id
    ensures LifeAfter(life, id, events, limit) == life
  {
    if events != [] {
      OthersIgnored(life, id, events[..|events| - 1], limit);
    }
  }

  ghost predicate OwnIds(at: map<Flow, Session>) {
    forall f :: f in at ==> at[f].id.flow == f
  }

  lemma EventsOwnFlow(at: map<Flow, Session>, w: Sweep, f: Flow, e: LifecycleEvent)
    requires OwnIds(at) && e in EventsAfter(at, w, f)
    ensures e.id.flow == f
  {
  }

  lemma {:induction false} LifeOfFlows(life: Life, id: Instance, at: map<Flow, Session>, w: Sweep, flows: seq<Flow>)
    requires OwnIds(at) && DistinctFlows(flows)
    ensures LifeAfter(life, id, AllEvents(at, w, flows), w.limit)
            == if id.flow in flows then LifeAfter(life, id, EventsAfter(at, w, id.flow), w.limit) else life
  {
    if flows != [] {
      var init, last := flows[..|flows| - 1], flows[|flows| - 1];
      LifeOfFlows(life, id, at, w, init);
      LifeConcat(life, id, AllEvents(at, w, init), EventsAfter(at, w, last), w.limit);
      assert flows == init + [last];
      if last != id.flow {
        forall e | e in EventsAfter(at, w, last) ensures e.id != id {
          EventsOwnFlow(at, w, last, e);
        }
        OthersIgnored(LifeAfter(life, id, AllEvents(at, w, init), w.limit), id, EventsAfter(at, w, last), w.limit);
      }
    }
  }

  /** Of all the events of a poll, an instance only sees those of its own flow. */
  lemma LifeOfPoll(life: Life, id: Instance, t: Table, w: Sweep)
    requires OwnIds(t.at) && Coherent(t)
    ensures LifeAfter(life, id, SweepEvents(t.order, t.at, w), w.limit)
            == LifeAfter(life, id, EventsAfter(t.at, w, id.flow), w.limit)
  {
    var seen, unseen := FlowOrder(w.observations), Restrict(t.order, t.at.Keys - FlowsOf(w.observations));
    FlowOrderSound(w.observations);
    RestrictSound(t.order, t.at.Keys - FlowsOf(w.observations));
    ControllersSound(w.observations, id.flow);
    LifeConcat(life, id, AllEvents(t.at, w, seen), AllEvents(t.at, w, unseen), w.limit);
    LifeOfFlows(life, id, t.at, w, seen);
    LifeOfFlows(LifeAfter(life, id, AllEvents(t.at, w, seen), w.limit), id, t.at, w, unseen);
  }

  /** How the life of an instance and the session in the map belong together. */
  ghost predicate Tracks(life: Life, s: Option<Session>, id: Instance, limit: nat) {
    if s.Some? && s.value.id == id then
      && life.Running? && life.misses == s.value.misses < limit
      && (life.owner.Some? ==> s.value.confirmed.Some? && s.value.confirmed.value.host == life.owner.value)
    else !life.Broken?
  }

  ghost predicate HostsMatch(group: Group) {
    forall h :: h in group ==> group[h].host == h
  }

  lemma SoleHost(group: Group, preferred: Option<string>)
    requires |group| == 1 && HostsMatch(group)
    ensures group.Keys == {LeastHost(group.Keys)}
    ensures Representative(group, preferred).host == LeastHost(group.Keys)
  {
    var h := LeastHost(group.Keys);
    var rest := group.Keys - {h};
    assert group.Keys == rest + {h};
    assert |group.Keys| == 1;
    assert |rest| == 0;
    if preferred.Some? && preferred.value in group {
      assert preferred.value in group.Keys;
    }
  }

  /** A list that holds one event or none. */
  function Maybe(present: bool, e: LifecycleEvent): seq<LifecycleEvent> {
    if present then [e] else []
  }

  lemma LifeOfMaybe(life: Life, id: Instance, present: bool, e: LifecycleEvent, limit: nat)
    ensures LifeAfter(life, id, Maybe(present, e), limit)
            == if present && e.id == id then Accept(life, e, limit) else life
  {
    assert [e][..0] == [];
  }

  /** FLAGS_CHANGED and COUNTERS_CHANGED do not move the automaton; CONTROLLER_CHANGED moves the owner. */
  lemma LifeOfChanges(life: Life, id: Instance, before: Observation, o: Observation, now: int, limit: nat)
    requires life.Running? && life.misses == 0
    requires life.owner.Some? ==> before.host == life.owner.value
    ensures LifeAfter(life, id, Changes(id, before, o, now), limit)
            == if before.host != o.host then Running(0, Some(o.host)) else life
  {
    var event := LifecycleEvent(CONTROLLER_CHANGED, id, o, Some(before), 0, now);
    var moved := Maybe(before.host != o.host, event);
    var flagged := Maybe(before.flags != o.flags, event.(kind := FLAGS_CHANGED));
    var reset := Maybe(CountersReset(before, o), event.(kind := COUNTERS_CHANGED));
    assert Changes(id, before, o, now) == moved + flagged + reset;
    LifeConcat(life, id, moved + flagged, reset, limit);
    LifeConcat(life, id, moved, flagged, limit);
    LifeOfMaybe(life, id, before.host != o.host, event, limit);
    var life1 := LifeAfter(life, id, moved, limit);
    LifeOfMaybe(life1, id, before.flags != o.flags, event.(kind := FLAGS_CHANGED), limit);
    LifeOfMaybe(life1, id, CountersReset(before, o), event.(kind := COUNTERS_CHANGED), limit);
  }

  lemma ResightTracks(life: Life, s: Session, group: Group, authoritative: bool, limit: nat, now: int)
    requires Tracks(life, Some(s), s.id, limit) && group != map[] && HostsMatch(group) && limit >= 1
    ensures Tracks(LifeAfter(life, s.id, ResightEvents(s, group, authoritative, now), limit),
                   Some(Resight(s, group, authoritative, now)), s.id, limit)
  {
    var o := Representative(group, Preferred(s, group));
    var event := LifecycleEvent(OBSERVED, s.id, o, Some(s.observation), 0, now);
    var seen := Maybe(s.misses > 0, event);
    var compares := authoritative && |group| == 1 && s.confirmed.Some?;
    var changes := if compares then Changes(s.id, s.confirmed.value, o, now) else [];
    assert ResightEvents(s, group, authoritative, now) == seen + changes;
    LifeConcat(life, s.id, seen, changes, limit);
    LifeOfMaybe(life, s.id, s.misses > 0, event, limit);
    var life1 := life.(misses := 0);
    assert LifeAfter(life, s.id, seen, limit) == life1;
    if compares {
      LifeOfChanges(life1, s.id, s.confirmed.value, o, now, limit);
    }
  }

  /** One poll keeps the life of an instance and its session together. */
  lemma FlowTracks(life: Life, s: Option<Session>, group: Group, authoritative: bool, limit: nat,
                   newId: Instance, id: Instance, now: int)
    requires Tracks(life, s, id, limit) && HostsMatch(group) && limit >= 1
    requires newId == id ==> life.Unborn? && (s.Some? ==> s.value.id != id)
    ensures Tracks(LifeAfter(life, id, FlowEvents(s, group, authoritative, limit, newId, now), limit),
                   NextSession(s, group, authoritative, limit, newId, now), id, limit)
  {
    var events := FlowEvents(s, group, authoritative, limit, newId, now);
    if s.Some? && s.value.id == id && group != map[] {
      ResightTracks(life, s.value, group, authoritative, limit, now);
    } else if s.Some? && s.value.id != id && group != map[] {
      OthersIgnored(life, id, events, limit);
    } else if events != [] {
      LifeOfMaybe(life, id, true, events[0], limit);
    }
  }

  /** Prepare generations only grow, so no two polls share one. */
  predicate Increasing(h: seq<Poll>) {
    forall i, j :: 0 <= i < j < |h| ==> h[i].generation < h[j].generation
  }

  ghost predicate UsedGeneration(h: seq<Poll>, g: nat) {
    exists i :: 0 <= i < |h| && h[i].generation == g
  }

  ghost predicate KnownIds(h: seq<Poll>, limit: nat) {
    var at := TableAfter(h, limit).at;
    forall f :: f in at ==> at[f].id.flow == f && UsedGeneration(h, at[f].id.generation)
  }

  lemma IdStep(t: Table, p: Poll, limit: nat, f: Flow)
    requires f in AfterPoll(t, p, limit).at
    ensures AfterPoll(t, p, limit).at[f].id == if f in t.at then t.at[f].id else Instance(p.generation, f)
  {
  }

  lemma {:induction false} IdsAreKnown(h: seq<Poll>, limit: nat)
    ensures KnownIds(h, limit)
  {
    if h != [] {
      var init, last := h[..|h| - 1], h[|h| - 1];
      IdsAreKnown(init, limit);
      var before, after := TableAfter(init, limit).at, TableAfter(h, limit).at;
      assert h[|h| - 1].generation == last.generation;
      forall f | f in after ensures after[f].id.flow == f && UsedGeneration(h, after[f].id.generation) {
        IdStep(TableAfter(init, limit), last, limit, f);
        if f in before {
          var i :| 0 <= i < |init| && init[i].generation == before[f].id.generation;
          assert h[i].generation == before[f].id.generation;
        }
      }
    }
  }

  lemma FreshGeneration(h: seq<Poll>)
    requires h != [] && Increasing(h)
    ensures !UsedGeneration(h[..|h| - 1], h[|h| - 1].generation)
    ensures forall g :: UsedGeneration(h, g) <==> UsedGeneration(h[..|h| - 1], g) || g == h[|h| - 1].generation
  {
    var init := h[..|h| - 1];
    assert forall i :: 0 <= i < |init| ==> init[i] == h[i];
    forall g | UsedGeneration(init, g) ensures UsedGeneration(h, g) {
      var i :| 0 <= i < |init| && init[i].generation == g;
      assert h[i].generation == g;
    }
    forall g | UsedGeneration(h, g) ensures UsedGeneration(init, g) || g == h[|h| - 1].generation {
      var i :| 0 <= i < |h| && h[i].generation == g;
      assert i < |init| ==> init[i].generation == g;
    }
  }

  ghost predicate LifeFits(h: seq<Poll>, limit: nat, id: Instance) {
    var life := LifeAfter(Unborn, id, Emitted(h, limit), limit);
    && Tracks(life, Get(TableAfter(h, limit).at, id.flow), id, limit)
    && (!UsedGeneration(h, id.generation) ==> life.Unborn?)
  }

  /** What a poll does to the session of the flow of an instance, and to its life. */
  lemma PollTracks(t: Table, p: Poll, limit: nat, id: Instance, life: Life)
    requires Coherent(t) && OwnIds(t.at) && limit >= 1
    requires Tracks(life, Get(t.at, id.flow), id, limit)
    requires p.generation == id.generation ==> life.Unborn? && (id.flow in t.at ==> t.at[id.flow].id != id)
    ensures Tracks(LifeAfter(life, id, PollEvents(t, p, limit), limit), Get(AfterPoll(t, p, limit).at, id.flow), id,
                   limit)
    ensures p.generation != id.generation && life.Unborn? ==>
              LifeAfter(life, id, PollEvents(t, p, limit), limit) == life
  {
    var w, f := SweepOf(t.at, p, limit), id.flow;
    LifeOfPoll(life, id, t, w);
    FlowAfterPoll(t, p, limit, f);
    SweepTracks(t.at, w, id, life);
  }

  lemma SweepTracks(at: map<Flow, Session>, w: Sweep, id: Instance, life: Life)
    requires w.limit >= 1 && Tracks(life, Get(at, id.flow), id, w.limit) && OwnIds(at)
    requires w.generation == id.generation ==> life.Unborn? && (id.flow in at ==> at[id.flow].id != id)
    ensures var after := LifeAfter(life, id, EventsAfter(at, w, id.flow), w.limit);
            && Tracks(after, SessionAfter(at, w, id.flow), id, w.limit) && Tracks(after, None, id, w.limit)
            && (w.generation != id.generation && life.Unborn? ==> after == life)
  {
    var group := Controllers(w.observations, id.flow);
    ControllersSound(w.observations, id.flow);
    FlowTracks(life, Get(at, id.flow), group, w.authoritative, w.limit, Instance(w.generation, id.flow), id, w.now);
    if w.generation != id.generation && life.Unborn? {
      OthersIgnored(life, id, EventsAfter(at, w, id.flow), w.limit);
    }
  }

  lemma FlowAfterPoll(t: Table, p: Poll, limit: nat, f: Flow)
    ensures var after := Get(AfterPoll(t, p, limit).at, f);
            after.None? || after == SessionAfter(t.at, SweepOf(t.at, p, limit), f)
    ensures var after := Get(AfterPoll(t, p, limit).at, f);
            !Overflows(t.at, p.outcome) ==> after == SessionAfter(t.at, SweepOf(t.at, p, limit), f)
  {
    ControllersSound(p.outcome.observations, f);
    var w := SweepOf(t.at, p, limit);
    assert Get(Swept(t.at, w), f) == SessionAfter(t.at, w, f);
  }

  lemma LifeStep(h: seq<Poll>, limit: nat, id: Instance)
    requires h != [] && Increasing(h) && limit >= 1 && LifeFits(h[..|h| - 1], limit, id)
    ensures LifeFits(h, limit, id)
  {
    var init, last := h[..|h| - 1], h[|h| - 1];
    var t, life := TableAfter(init, limit), LifeAfter(Unborn, id, Emitted(init, limit), limit);
    HistoryCoherent(init, limit);
    IdsAreKnown(init, limit);
    FreshGeneration(h);
    LifeConcat(Unborn, id, Emitted(init, limit), PollEvents(t, last, limit), limit);
    PollTracks(t, last, limit, id, life);
  }

  lemma {:induction false} HistoryTracks(h: seq<Poll>, limit: nat, id: Instance)
    requires Increasing(h) && limit >= 1
    ensures LifeFits(h, limit, id)
  {
    if h == [] {
    } else {
      HistoryTracks(h[..|h| - 1], limit, id);
      LifeStep(h, limit, id);
    }
  }

  /** Over every history the events of every instance follow the grammar, and an active session agrees with it. */
  lemma EventGrammar(h: seq<Poll>, limit: nat, id: Instance)
    requires Increasing(h) && limit >= 1
    ensures var life := LifeAfter(Unborn, id, Emitted(h, limit), limit);
            !life.Broken?
            && (id.flow in TableAfter(h, limit).at && TableAfter(h, limit).at[id.flow].id == id
                ==> life.Running? && life.misses == TableAfter(h, limit).at[id.flow].misses < limit)
  {
    HistoryTracks(h, limit, id);
  }

  // ----- the confirmed controller -----

  /** The controller of the latest conclusive poll since the flow started that saw it on one controller only. */
  function ConfirmedBy(h: seq<Poll>, limit: nat, f: Flow): Option<string> {
    if h == [] || f !in TableAfter(h, limit).at then None
    else
      var before, last := TableAfter(h[..|h| - 1], limit).at, h[|h| - 1];
      var group := Controllers(last.outcome.observations, f);
      if Conclusive(before, last.outcome) && |group| == 1 then
        assert |group.Keys| == |group|;
        Some(LeastHost(group.Keys))
      else ConfirmedBy(h[..|h| - 1], limit, f)
  }

  function HostOf(o: Option<Observation>): Option<string> {
    if o.Some? then Some(o.value.host) else None
  }

  /** What one poll does to the confirmed controller of a flow that stays active. */
  lemma ConfirmedStep(t: Table, p: Poll, limit: nat, f: Flow)
    requires f in AfterPoll(t, p, limit).at
    ensures var group, after := Controllers(p.outcome.observations, f), AfterPoll(t, p, limit).at[f];
            if Conclusive(t.at, p.outcome) && |group| == 1 then HostOf(after.confirmed) == Some(LeastHost(group.Keys))
            else HostOf(after.confirmed) == if f in t.at then HostOf(t.at[f].confirmed) else None
  {
    var group := Controllers(p.outcome.observations, f);
    FlowAfterPoll(t, p, limit, f);
    ControllersSound(p.outcome.observations, f);
    var after := SessionAfter(t.at, SweepOf(t.at, p, limit), f).value;
    assert AfterPoll(t, p, limit).at[f] == after;
    if f in t.at {
      ConfirmedOf(t.at[f], group, Conclusive(t.at, p.outcome), p.now);
    } else if |group| == 1 {
      SoleHost(group, None);
    }
  }

  lemma ConfirmedOf(s: Session, group: Group, authoritative: bool, now: int)
    requires HostsMatch(group)
    ensures group != map[] ==>
              HostOf(Resight(s, group, authoritative, now).confirmed)
              == if authoritative && |group| == 1 then Some(LeastHost(group.Keys)) else HostOf(s.confirmed)
  {
    if |group| == 1 {
      SoleHost(group, Preferred(s, group));
    }
  }

  lemma {:induction false} ConfirmedAgrees(h: seq<Poll>, limit: nat, f: Flow)
    ensures f in TableAfter(h, limit).at ==> HostOf(TableAfter(h, limit).at[f].confirmed) == ConfirmedBy(h, limit, f)
  {
    if h != [] && f in TableAfter(h, limit).at {
      ConfirmedAgrees(h[..|h| - 1], limit, f);
      ConfirmedStep(TableAfter(h[..|h| - 1], limit), h[|h| - 1], limit, f);
    }
  }

  /** A conclusive poll sees the flow on one controller only, and it is not the confirmed one. */
  predicate Moved(h: seq<Poll>, p: Poll, limit: nat, f: Flow, host: string) {
    && f in TableAfter(h, limit).at && Conclusive(TableAfter(h, limit).at, p.outcome)
    && Controllers(p.outcome.observations, f).Keys == {host}
    && ConfirmedBy(h, limit, f).Some? && ConfirmedBy(h, limit, f).value != host
  }

  lemma ChangesAre(s: Session, o: Observation, now: int, e: LifecycleEvent)
    requires s.confirmed.Some?
    ensures e in Changes(s.id, s.confirmed.value, o, now) && e.kind == CONTROLLER_CHANGED <==>
            s.confirmed.value.host != o.host && e == LifecycleEvent(CONTROLLER_CHANGED, s.id, o, s.confirmed, 0, now)
  {
  }

  lemma MoveOfFlow(h: seq<Poll>, p: Poll, limit: nat, f: Flow, host: string, e: LifecycleEvent)
    ensures var t := TableAfter(h, limit);
            (e in EventsAfter(t.at, SweepOf(t.at, p, limit), f) && e.kind == CONTROLLER_CHANGED
             && e.observation.host == host)
            <==> Moved(h, p, limit, f, host)
                 && e == LifecycleEvent(CONTROLLER_CHANGED, t.at[f].id, Controllers(p.outcome.observations, f)[host],
                                        t.at[f].confirmed, 0, p.now)
  {
    var t, group := TableAfter(h, limit), Controllers(p.outcome.observations, f);
    ConfirmedAgrees(h, limit, f);
    ControllersSound(p.outcome.observations, f);
    assert group.Keys == {host} ==> |group| == |group.Keys| == 1;
    if f in t.at && group != map[] {
      ResightMoves(t.at[f], group, Conclusive(t.at, p.outcome), p.now, host, e);
    }
  }

  /** CONTROLLER_CHANGED among the events of a repeated sighting. */
  lemma ResightMoves(s: Session, group: Group, authoritative: bool, now: int, host: string, e: LifecycleEvent)
    requires group != map[] && HostsMatch(group)
    ensures e in ResightEvents(s, group, authoritative, now) && e.kind == CONTROLLER_CHANGED
            && e.observation.host == host
            <==>
            authoritative && group.Keys == {host} && s.confirmed.Some? && s.confirmed.value.host != host
            && e == LifecycleEvent(CONTROLLER_CHANGED, s.id, group[host], s.confirmed, 0, now)
  {
    if |group| == 1 {
      SoleHost(group, Preferred(s, group));
      if s.confirmed.Some? {
        ChangesAre(s, Representative(group, Preferred(s, group)), now, e);
      }
    } else {
      assert group.Keys == {host} ==> |group.Keys| == 1;
    }
  }

  /** CONTROLLER_CHANGED is emitted exactly for a move, and it names the confirmed controller as the previous one. */
  lemma ControllerChangeIff(h: seq<Poll>, p: Poll, limit: nat, f: Flow, host: string)
    ensures (exists e :: e in PollEvents(TableAfter(h, limit), p, limit)
                         && e.kind == CONTROLLER_CHANGED && e.id.flow == f && e.observation.host == host)
            <==> Moved(h, p, limit, f, host)
    ensures forall e :: e in PollEvents(TableAfter(h, limit), p, limit)
                        && e.kind == CONTROLLER_CHANGED && e.id.flow == f
                        ==> HostOf(e.previous) == ConfirmedBy(h, limit, f)
  {
    var t := TableAfter(h, limit);
    var w := SweepOf(t.at, p, limit);
    HistoryCoherent(h, limit);
    IdsAreKnown(h, limit);
    forall e | e in PollEvents(t, p, limit) && e.kind == CONTROLLER_CHANGED && e.id.flow == f
      ensures Moved(h, p, limit, f, e.observation.host) && HostOf(e.previous) == ConfirmedBy(h, limit, f)
    {
      EventSource(t, w, e);
      var g :| e in EventsAfter(t.at, w, g);
      EventsOwnFlow(t.at, w, g, e);
      MoveOfFlow(h, p, limit, f, e.observation.host, e);
      ConfirmedAgrees(h, limit, f);
    }
    if Moved(h, p, limit, f, host) {
      assert host in Controllers(p.outcome.observations, f);
      var e := LifecycleEvent(CONTROLLER_CHANGED, t.at[f].id, Controllers(p.outcome.observations, f)[host],
                              t.at[f].confirmed, 0, p.now);
      ControllersSound(p.outcome.observations, f);
      MoveOfFlow(h, p, limit, f, host, e);
      EventSource(t, w, e);
    }
  }
}
