/**
 The limits that the store puts on one poll: its observations, its events, its snapshots and the bytes of these
 (`_validate_poll_batch_limits` in src/aruba_session_tracker/storage/session_store.py:1470-1512).
 */
module BatchLimits {
  import opened Outcomes
  import opened RawBundle
  import opened Topology
  import opened Lifecycle
  import opened Sessions
  import opened Tracker
  import opened TrackerServices
  import opened EngineRuns
  import opened PollAnswers
  import opened RawLimits
  import opened RawScenario
  import LifecycleHistory
  import Monitoring = MonitorEngines

  const MAX_POLL_EVENTS: nat := 4 * MAX_POLL_OBSERVATIONS

  /** `_validate_poll_batch_limits`. */
  predicate StoreAccepts(e: Encoding, r: Monitoring.PollResult) {
    && |r.outcome.observations| <= MAX_POLL_OBSERVATIONS && |r.events| <= MAX_POLL_EVENTS
    && |r.outcome.raw| <= MAX_POLL_OBSERVATIONS && PersistedSize(e, r.outcome.raw) <= MAX_POLL_RAW_BYTES
  }

  // ----- the events of a poll -----

  lemma FewEvents(at: map<Flow, Session>, w: Sweep, f: Flow)
    ensures |EventsAfter(at, w, f)| <= 4
    ensures !w.authoritative ==> |EventsAfter(at, w, f)| <= if f in FlowsOf(w.observations) then 1 else 0
  {
    ControllersSound(w.observations, f);
  }

  lemma AllEventsLast(at: map<Flow, Session>, w: Sweep, flows: seq<Flow>)
    requires flows != []
    ensures |AllEvents(at, w, flows)|
            == |AllEvents(at, w, flows[..|flows| - 1])| + |EventsAfter(at, w, flows[|flows| - 1])|
  {
  }

  ghost predicate EachHas(at: map<Flow, Session>, w: Sweep, flows: seq<Flow>, each: nat) {
    forall i :: 0 <= i < |flows| ==> |EventsAfter(at, w, flows[i])| <= each
  }

  lemma EachInit(at: map<Flow, Session>, w: Sweep, flows: seq<Flow>, each: nat)
    requires flows != [] && EachHas(at, w, flows, each)
    ensures EachHas(at, w, flows[..|flows| - 1], each) && |EventsAfter(at, w, flows[|flows| - 1])| <= each
  {
  }

  lemma {:induction false} EventsOfFlows(at: map<Flow, Session>, w: Sweep, flows: seq<Flow>, each: nat)
    requires EachHas(at, w, flows, each)
    ensures |AllEvents(at, w, flows)| <= each * |flows|
  {
    if flows != [] {
      EachInit(at, w, flows, each);
      AllEventsLast(at, w, flows);
      EventsOfFlows(at, w, flows[..|flows| - 1], each);
      assert each * |flows| == each * (|flows| - 1) + each;
    }
  }

  lemma {:induction false} DistinctSize(flows: seq<Flow>)
    requires DistinctFlows(flows)
    ensures |set f | f in flows| == |flows|
  {
    if flows != [] {
      var init, last := flows[..|flows| - 1], flows[|flows| - 1];
      assert flows == init + [last];
      DistinctSize(init);
      assert (set f | f in flows) == (set f | f in init) + {last};
    }
  }

  lemma SizeOfAll(flows: seq<Flow>, all: set<Flow>)
    requires DistinctFlows(flows) && forall f :: f in flows <==> f in all
    ensures |flows| == |all|
  {
    DistinctSize(flows);
    assert (set f | f in flows) == all;
  }

  lemma UnseenFlows(t: Table, rest: set<Flow>)
    requires Coherent(t) && rest <= t.at.Keys
    ensures |Restrict(t.order, rest)| == |rest| && forall f :: f in Restrict(t.order, rest) ==> f in rest
  {
    RestrictSound(t.order, rest);
    SizeOfAll(Restrict(t.order, rest), rest);
  }

  lemma SeenFlows(observations: seq<Observation>)
    ensures |FlowOrder(observations)| == |FlowsOf(observations)|
  {
    FlowOrderSound(observations);
    SizeOfAll(FlowOrder(observations), FlowsOf(observations));
  }

  /** How many flows the two loops of a sweep visit. */
  lemma VisitedFlows(t: Table, observations: seq<Observation>)
    requires Coherent(t)
    ensures var unseen := Restrict(t.order, t.at.Keys - FlowsOf(observations));
            && |FlowOrder(observations)| == |FlowsOf(observations)|
            && |FlowOrder(observations)| + |unseen| == |t.at.Keys + FlowsOf(observations)|
            && forall f :: f in unseen ==> f !in FlowsOf(observations)
  {
    var seen, rest := FlowsOf(observations), t.at.Keys - FlowsOf(observations);
    SeenFlows(observations);
    UnseenFlows(t, rest);
    assert t.at.Keys + seen == seen + rest;
  }

  lemma EachIsBounded(at: map<Flow, Session>, w: Sweep, seen: seq<Flow>, unseen: seq<Flow>)
    requires forall f :: f in unseen ==> f !in FlowsOf(w.observations)
    ensures EachHas(at, w, seen, 4) && EachHas(at, w, unseen, 4)
    ensures !w.authoritative ==> EachHas(at, w, seen, 1) && EachHas(at, w, unseen, 0)
  {
    forall f {
      FewEvents(at, w, f);
    }
  }

  /** A poll within the limit of the observations is within that of the events, whether or not it overflows the
      table. */
  lemma EventsStayBounded(t: Table, p: Monitoring.Poll, limit: nat)
    requires Coherent(t) && |p.outcome.observations| <= MAX_POLL_OBSERVATIONS
    ensures |Monitoring.PollEvents(t, p, limit)| <= MAX_POLL_EVENTS
  {
    var w := Monitoring.SweepOf(t.at, p, limit);
    var seen, unseen := FlowOrder(w.observations), Restrict(t.order, t.at.Keys - FlowsOf(w.observations));
    VisitedFlows(t, w.observations);
    EachIsBounded(t.at, w, seen, unseen);
    if Monitoring.Overflows(t.at, p.outcome) {
      LifecycleHistory.FlowsAreFewer(w.observations);
      EventsOfFlows(t.at, w, seen, 1);
      EventsOfFlows(t.at, w, unseen, 0);
    } else {
      EventsOfFlows(t.at, w, seen, 4);
      EventsOfFlows(t.at, w, unseen, 4);
    }
  }

  // ----- the snapshots of a poll -----

  lemma {:induction false} ReadingCounts(ips: seq<string>, mm: Master, b: Budget)
    ensures |ReadIps(ips, mm, b).raw| <= |ips|
  {
    if ips != [] {
      ReadingCounts(ips[..|ips| - 1], mm, b);
    }
  }

  lemma {:induction false} GatheringCounts(request: Request, candidates: seq<Candidate>, network: Network,
                                           earlier: seq<Raw>, b: Budget)
    ensures |Gather(request, candidates, network, earlier, b).raw| <= |earlier| + |candidates|
  {
    if candidates != [] {
      var init, c := candidates[..|candidates| - 1], candidates[|candidates| - 1];
      GatheringCounts(request, init, network, earlier, b);
      NextGrows(Gather(request, init, network, earlier, b), request, c, network(c));
    }
  }

  lemma {:induction false} SizeAtMost(s: seq<Device>)
    ensures |set d | d in s| <= |s|
  {
    if s != [] {
      var init, last := s[..|s| - 1], s[|s| - 1];
      assert s == init + [last];
      SizeAtMost(init);
      assert (set d | d in s) == (set d | d in init) + {last};
    }
  }

  lemma SubsetSize(a: set<Device>, b: set<Device>)
    requires a <= b
    ensures |a| <= |b|
  {
    assert b == a + (b - a);
  }

  lemma NoMoreThan(devices: seq<Device>, all: seq<Device>)
    requires DistinctDevices(devices) && AllIn(devices, all)
    ensures |devices| <= |all|
  {
    SizeOfDistinct(devices);
    SizeAtMost(all);
    SubsetSize(set d | d in devices, set d | d in all);
  }

  /** How many addresses a master is asked for. */
  function Located(q: Query): nat {
    if !q.refresh && q.cached.Some? then 0 else |ClientIps(q.request)|
  }

  /** A query keeps no more than one snapshot of each enabled device, and one of each address that it located. */
  lemma FewSnapshots(site: Site, q: Query, replies: Replies, b: Budget, cursor: nat)
    requires Configured(site) && Askable(q, replies)
    ensures |Queried(site, q, replies, b, cursor).outcome.raw| <= Located(q) + |EnabledOf(site.devices)|
  {
    var w, selected := LocatedBy(site, q, replies, b), MmSelection(site.primary, site.standby, replies.mms);
    if selected.Some? {
      ReadingCounts(ClientIps(q.request), MasterOf(site, selected.value, replies.mms[selected.value]), b);
    }
    if w.location.Some? {
      var r := RouteOf(site, q, w.location.value, replies.approval, cursor);
      if r.route.Ok? {
        RouteSound(site, q, w.location.value, replies.approval, cursor);
        NoMoreThan(DevicesOf(r.route.value), EnabledOf(site.devices));
        GatheringCounts(q.request, r.route.value, replies.network, w.raw, w.budget);
      }
    }
  }

  /** A poll of two passes locates the clients once. */
  function SnapshotLimit(s: Setting, config: Monitoring.Config, base: Monitoring.Base, probe: Monitoring.Probe): nat {
    |ClientIps(s.request)|
    + (if Monitoring.AsksTwice(config, base, probe) then 2 else 1) * |EnabledOf(s.site.devices)|
  }

  lemma SnapshotsStayBounded(s: Setting, config: Monitoring.Config, base: Monitoring.Base, probe: Monitoring.Probe)
    requires Configured(s.site) && Answered(s, config, base, probe)
    ensures |Monitoring.Concluded(config, base, probe).raw| <= SnapshotLimit(s, config, base, probe)
  {
    var x, y :| BothAnswered(s, config, base, probe, x, y);
    FewSnapshots(s.site, QueryOf(s, FirstQuery(config, base, probe), x.hosts), x.replies, NewBudget(s), x.cursor);
    if Monitoring.AsksTwice(config, base, probe) {
      var again := QueryOf(s, SecondQuery(base), y.hosts);
      FewSnapshots(s.site, again, y.replies, Left(s, config, base, probe, x), y.cursor);
      AttributeLength(probe.first.raw, PutAll([], probe.first.observations));
    }
  }

  // ----- the whole poll -----

  /** Among the polls of a site with fewer than 10,000 devices, only the bytes of the snapshots can exceed a limit of
      the store. */
  lemma OnlyRawCanExceed(s: Setting, owner: nat, config: Monitoring.Config, base: Monitoring.Base,
                         probe: Monitoring.Probe)
    requires Configured(s.site) && Coherent(base.table) && Answered(s, config, base, probe)
    requires SnapshotLimit(s, config, base, probe) <= MAX_POLL_OBSERVATIONS
    ensures var r := Monitoring.Calculated(owner, config, base, probe).result;
            StoreAccepts(s.encoding, r) <==> PersistedSize(s.encoding, r.outcome.raw) <= MAX_POLL_RAW_BYTES
  {
    SnapshotsStayBounded(s, config, base, probe);
    ConcludedStaysSmall(s, config, base, probe);
    EventsStayBounded(base.table, Monitoring.PollOf(config, base, probe), config.closeAfterMisses);
  }

  /** A poll that asks once is always accepted. */
  lemma OnePassIsAccepted(s: Setting, owner: nat, config: Monitoring.Config, base: Monitoring.Base,
                          probe: Monitoring.Probe)
    requires Configured(s.site) && Coherent(base.table) && Answered(s, config, base, probe)
    requires SnapshotLimit(s, config, base, probe) <= MAX_POLL_OBSERVATIONS
    requires !Monitoring.AsksTwice(config, base, probe)
    ensures StoreAccepts(s.encoding, Monitoring.Calculated(owner, config, base, probe).result)
  {
    var x, y :| BothAnswered(s, config, base, probe, x, y);
    OnePassFits(s, config, base, probe, x);
    OnlyRawCanExceed(s, owner, config, base, probe);
  }

  lemma HeldFromCoherent(owner: nat, config: Monitoring.Config, w: World, c: nat)
    requires Reachable(owner, config, w) && c in w.callers && w.callers[c].Holding?
    ensures w.callers[c].p == Monitoring.Calculated(owner, config, w.callers[c].p.base, w.callers[c].probe)
    ensures Coherent(w.callers[c].p.base.table)
  {
    ReachableInv(owner, config, w);
    assert CallerFits(owner, config, w.engine, w.callers[c]);
    CommittedStateIsHistory(owner, config, w);
    LifecycleHistory.HistoryCoherent(PollsOf(config, w.log), config.closeAfterMisses);
  }

  /** In every run, whatever the devices answer, the store accepts a prepared poll exactly when its snapshots can be
      stored; after a single pass they always can. The site has fewer than 10,000 devices. */
  lemma HeldPollsAreStored(s: Setting, owner: nat, config: Monitoring.Config, w: World, c: nat)
    requires Configured(s.site) && ReachedByAnswers(s, owner, config, w) && c in w.callers && w.callers[c].Holding?
    requires SnapshotLimit(s, config, w.callers[c].p.base, w.callers[c].probe) <= MAX_POLL_OBSERVATIONS
    ensures var r := w.callers[c].p.result;
            && (StoreAccepts(s.encoding, r) <==> PersistedSize(s.encoding, r.outcome.raw) <= MAX_POLL_RAW_BYTES)
            && (!Monitoring.AsksTwice(config, w.callers[c].p.base, w.callers[c].probe) ==> StoreAccepts(s.encoding, r))
  {
    var base, probe := w.callers[c].p.base, w.callers[c].probe;
    var run :| Legal(owner, config, EMPTY, run) && AllAnswered(s, owner, config, EMPTY, run)
               && Execute(owner, config, EMPTY, run) == w;
    RunKeepsAnswered(s, owner, config, EMPTY, run);
    HeldFromCoherent(owner, config, w, c);
    OnlyRawCanExceed(s, owner, config, base, probe);
    if !Monitoring.AsksTwice(config, base, probe) {
      OnePassIsAccepted(s, owner, config, base, probe);
    }
  }
}
