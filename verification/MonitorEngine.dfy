/**
 One poll of the monitor: prepare, calculate, then commit or discard
 (`MonitorEngine` in src/aruba_session_tracker/services/monitoring.py).

 The two queries of a poll and the clocks are inputs: a `Probe` holds what they answer. What an engine and a poll
 are worth is said by values (`Engine`, `Base`, `Prepared`); the class `MonitorEngine` works on the objects of the
 heap, where a poll changes sessions in place and is kept apart from the committed ones by a copy.
 */
module MonitorEngines {
  import opened Wrappers
  import opened Outcomes
  import opened Lifecycle
  import opened Sessions

  datatype Config = Config(devices: seq<Device>, locationInterval: int, closeAfterMisses: nat)

  datatype Query = Query(refresh: bool, location: Option<Location>, fallback: seq<Device>, required: set<string>)

  /** `second` is what a second pass would answer, should the poll ask for one. */
  datatype Probe = Probe(startedAt: int, first: Outcome, firstAt: int, second: Outcome, secondAt: int, now: int)

  /** The committed state that `_prepare_for_persistence` copies under the lock. */
  datatype Base = Base(
    generation: nat, epoch: nat, location: Option<Location>, lastRefresh: Option<int>,
    misses: nat, transient: nat, table: Table, fallback: seq<Device>)

  datatype PollResult = PollResult(
    outcome: Outcome, events: seq<LifecycleEvent>, misses: nat, refreshed: bool, transient: nat)

  datatype Prepared = Prepared(owner: nat, base: Base, location: Option<Location>, lastRefresh: Option<int>,
                               fallback: seq<Device>, table: Table, result: PollResult)

  datatype EngineError = AlreadyPreparing | NotCurrentPoll | ForeignPoll

  // ----- the sweep of one concluded outcome -----

  /** A concluded outcome and the clock and generation with which it is applied. */
  datatype Poll = Poll(generation: nat, outcome: Outcome, now: int)

  predicate Overflows(at: map<Flow, Session>, o: Outcome) {
    |at.Keys + FlowsOf(o.observations)| > MAX_POLL_OBSERVATIONS
  }

  /** Only these polls may count absences. */
  predicate Conclusive(at: map<Flow, Session>, o: Outcome) {
    o.authoritative && !Overflows(at, o)
  }

  function SweepOf(at: map<Flow, Session>, p: Poll, limit: nat): Sweep {
    Sweep(p.outcome.observations, Conclusive(at, p.outcome), limit, p.generation, p.now)
  }

  function AfterPoll(t: Table, p: Poll, limit: nat): Table {
    var swept := SweptTable(t, SweepOf(t.at, p, limit));
    if Overflows(t.at, p.outcome) then Pruned(swept, FlowsOf(p.outcome.observations)) else swept
  }

  function PollEvents(t: Table, p: Poll, limit: nat): seq<LifecycleEvent> {
    SweepEvents(t.order, t.at, SweepOf(t.at, p, limit))
  }

  // ----- what one poll calculates -----

  predicate Refreshes(config: Config, base: Base, probe: Probe) {
    base.location.None? || base.lastRefresh.None?
    || probe.startedAt - base.lastRefresh.value >= config.locationInterval
  }

  predicate SecondMissPending(at: map<Flow, Session>, o: Outcome) {
    exists f :: f in at && f !in FlowsOf(o.observations) && at[f].misses + 1 == 2
  }

  predicate AsksTwice(config: Config, base: Base, probe: Probe) {
    probe.first.authoritative && SecondMissPending(base.table.at, probe.first) && !Refreshes(config, base, probe)
  }

  predicate Overlaps(observations: seq<Observation>) {
    exists f :: f in FlowsOf(observations) && |Controllers(observations, f)| > 1
  }

  function WithOverlap(o: Outcome): Outcome {
    if Overlaps(o.observations) && !exists i :: 0 <= i < |o.diagnostics| && o.diagnostics[i].code == DuplicateFlow
    then o.(diagnostics := o.diagnostics + [Diagnostic("MONITOR_STATE", DuplicateFlow, false, false)])
    else o
  }

  function Concluded(config: Config, base: Base, probe: Probe): Outcome {
    WithOverlap(if AsksTwice(config, base, probe) then Merge(probe.first, probe.second) else probe.first)
  }

  function PollOf(config: Config, base: Base, probe: Probe): Poll {
    Poll(base.generation, Concluded(config, base, probe), probe.now)
  }

  function Reported(at: map<Flow, Session>, o: Outcome): Outcome {
    if Overflows(at, o)
    then o.(diagnostics := o.diagnostics + [Diagnostic("MONITOR_STATE", OutputLimitExceeded, false, false)],
            authoritative := false)
    else o
  }

  function MatchedFallback(config: Config, o: Outcome): seq<Device> {
    if o.fullScan then MatchedDevices(config.devices, o.observations) else []
  }

  function MatchedDevices(devices: seq<Device>, observations: seq<Observation>): seq<Device> {
    if devices == [] then []
    else
      var last := devices[|devices| - 1];
      MatchedDevices(devices[..|devices| - 1], observations)
      + if last.enabled && exists i :: 0 <= i < |observations| && observations[i].host == last.host then [last] else []
  }

  /** The routing cache: the location, when it was refreshed, and the devices of the last full scan. */
  datatype Cache = Cache(location: Option<Location>, lastRefresh: Option<int>, fallback: seq<Device>)

  function CacheAfter(config: Config, base: Base, probe: Probe): Cache {
    if AsksTwice(config, base, probe) && probe.second.usedMm.Some?
    then Cache(Some(LocationOf(probe.second)), Some(probe.secondAt), MatchedFallback(config, probe.second))
    else if Refreshes(config, base, probe) && probe.first.usedMm.Some?
    then Cache(Some(LocationOf(probe.first)), Some(probe.firstAt), MatchedFallback(config, probe.first))
    else Cache(base.location, base.lastRefresh, base.fallback)
  }

  predicate TransientFailure(o: Outcome) {
    exists i :: 0 <= i < |o.diagnostics| && o.diagnostics[i].transient && !o.diagnostics[i].recovered
  }

  /** A transient failure of the first pass is forgiven exactly when the second pass is authoritative. */
  lemma MergedFailureIff(first: Outcome, second: Outcome)
    ensures TransientFailure(Merge(first, second)) <==>
            TransientFailure(second) || (!second.authoritative && TransientFailure(first))
  {
    var all, n := Merge(first, second).diagnostics, |first.diagnostics|;
    assert |all| == n + |second.diagnostics|;
    forall i | 0 <= i < n
      ensures all[i].transient && !all[i].recovered <==>
              !second.authoritative && first.diagnostics[i].transient && !first.diagnostics[i].recovered
    {
    }
    assert forall i :: 0 <= i < |second.diagnostics| ==> all[n + i] == second.diagnostics[i];
    assert forall i :: n <= i < |all| ==> all[i] == second.diagnostics[i - n];
    if !second.authoritative && TransientFailure(first) {
      var i :| 0 <= i < n && first.diagnostics[i].transient && !first.diagnostics[i].recovered;
      assert all[i].transient && !all[i].recovered;
    }
  }

  function Calculated(owner: nat, config: Config, base: Base, probe: Probe): Prepared {
    var poll, at := PollOf(config, base, probe), base.table.at;
    var o, cache := Reported(at, poll.outcome), CacheAfter(config, base, probe);
    Prepared(
      owner, base, cache.location, cache.lastRefresh, cache.fallback,
      AfterPoll(base.table, poll, config.closeAfterMisses),
      PollResult(
        o, PollEvents(base.table, poll, config.closeAfterMisses),
        if o.observations != [] then 0 else if o.authoritative then base.misses + 1 else base.misses,
        Refreshes(config, base, probe) || AsksTwice(config, base, probe),
        if TransientFailure(o) then base.transient + 1 else 0))
  }

  lemma CalculatedIs(owner: nat, config: Config, base: Base, probe: Probe, cache: Cache, table: Table, r: PollResult)
    requires cache == CacheAfter(config, base, probe)
    requires table == AfterPoll(base.table, PollOf(config, base, probe), config.closeAfterMisses)
    requires r.outcome == Reported(base.table.at, Concluded(config, base, probe))
    requires r.events == PollEvents(base.table, PollOf(config, base, probe), config.closeAfterMisses)
    requires r.misses == if r.outcome.observations != [] then 0
                         else if r.outcome.authoritative then base.misses + 1 else base.misses
    requires r.refreshed == (Refreshes(config, base, probe) || AsksTwice(config, base, probe))
    requires r.transient == if TransientFailure(r.outcome) then base.transient + 1 else 0
    ensures Calculated(owner, config, base, probe)
            == Prepared(owner, base, cache.location, cache.lastRefresh, cache.fallback, table, r)
  {
  }

  /** Every controller on which an active session was last seen. */
  function RequiredHosts(at: map<Flow, Session>): set<string> {
    set f, h | f in at && h in at[f].controllers :: h
  }

  function Asked(config: Config, base: Base, probe: Probe): seq<Query> {
    var required := RequiredHosts(base.table.at);
    [Query(Refreshes(config, base, probe), base.location,
           if Refreshes(config, base, probe) then [] else base.fallback, required)]
    + if AsksTwice(config, base, probe) then [Query(true, base.location, [], required)] else []
  }

  // ----- the engine object -----

  datatype Engine = Engine(
    location: Option<Location>, lastRefresh: Option<int>, fallback: seq<Device>, epoch: nat,
    misses: nat, transient: nat, table: Table, lastResult: Option<PollResult>,
    prepareGeneration: nat, prepared: Option<nat>)

  const NEW_ENGINE := Engine(None, None, [], 0, 0, 0, Table([], map[]), None, 0, None)

  function BaseOf(e: Engine): Base {
    Base(e.prepareGeneration, e.epoch, e.location, e.lastRefresh, e.misses, e.transient, e.table, e.fallback)
  }

  function Invalidated(e: Engine): Engine {
    e.(epoch := e.epoch + 1, location := None, lastRefresh := None, fallback := [])
  }

  function Reserved(e: Engine): Engine {
    e.(prepareGeneration := e.prepareGeneration + 1, prepared := Some(e.prepareGeneration + 1))
  }

  /** The routing cache of a poll is kept unless the location was invalidated meanwhile. */
  function Recached(e: Engine, p: Prepared): Engine {
    if p.base.epoch == e.epoch then e.(location := p.location, lastRefresh := p.lastRefresh, fallback := p.fallback)
    else e
  }

  function Installed(e: Engine, p: Prepared): Engine {
    Recached(e, p).(misses := p.result.misses, transient := p.result.transient, table := p.table,
                    lastResult := Some(p.result))
  }

  function Released(e: Engine, generation: nat): Engine {
    if e.prepared == Some(generation) then e.(prepared := None) else e
  }

  // ----- the objects -----

  /** What `_prepare_for_persistence` takes over under the lock: `active` is a copy. */
  datatype Reservation = Reservation(
    generation: nat, epoch: nat, location: Option<Location>, lastRefresh: Option<int>,
    misses: nat, transient: nat, active: SessionTable, fallback: seq<Device>)

  ghost function StateOf(r: Reservation): Base
    requires r.active.Valid()
    reads r.active, r.active.Repr
  {
    Base(r.generation, r.epoch, r.location, r.lastRefresh, r.misses, r.transient, r.active.View(), r.fallback)
  }

  /** `_PreparedMonitorPoll`. */
  datatype PreparedPoll = PreparedPoll(
    owner: nat, generation: nat, epoch: nat, location: Option<Location>, lastRefresh: Option<int>,
    fallback: seq<Device>, active: SessionTable, result: PollResult)

  ghost predicate Shows(p: PreparedPoll, q: Prepared)
    reads p.active, p.active.Repr
  {
    && p.active.Valid() && p.active.View() == q.table
    && p.owner == q.owner && p.generation == q.base.generation && p.epoch == q.base.epoch
    && p.location == q.location && p.lastRefresh == q.lastRefresh && p.fallback == q.fallback && p.result == q.result
  }

  class MonitorEngine {
    const owner: nat
    const config: Config
    var location: Option<Location>
    var lastRefresh: Option<int>
    var fallback: seq<Device>
    var epoch: nat
    var misses: nat
    var transient: nat
    var active: SessionTable
    var lastResult: Option<PollResult>
    var prepareGeneration: nat
    var prepared: Option<nat>

    ghost predicate Valid()
      reads this, active, active.Repr
    {
      active.Valid() && this !in active.Repr
    }

    ghost function View(): Engine
      requires Valid()
      reads this, active, active.Repr
    {
      Engine(location, lastRefresh, fallback, epoch, misses, transient, active.View(), lastResult,
             prepareGeneration, prepared)
    }

    constructor (owner: nat, config: Config)
      ensures Valid() && this.owner == owner && this.config == config && View() == NEW_ENGINE
    {
      this.owner, this.config := owner, config;
      location, lastRefresh, fallback, epoch := None, None, [], 0;
      misses, transient, lastResult := 0, 0, None;
      prepareGeneration, prepared := 0, None;
      active := new SessionTable();
    }

    /** `invalidate_location`. */
    method InvalidateLocation()
      requires Valid()
      modifies this`epoch, this`location, this`lastRefresh, this`fallback
      ensures Valid() && View() == Invalidated(old(View()))
    {
      epoch := epoch + 1;
      location := None;
      lastRefresh := None;
      fallback := [];
    }

    /** The lock block of `_prepare_for_persistence`: a second prepare is refused. */
    method BeginPrepare() returns (r: Result<Reservation, EngineError>)
      requires Valid()
      modifies this`prepareGeneration, this`prepared
      ensures Valid()
      ensures old(prepared).Some? ==> r == Err(AlreadyPreparing) && View() == old(View())
      ensures old(prepared).None? ==>
                && r.Ok? && r.value.active.Valid() && fresh(r.value.active.Repr)
                && View() == Reserved(old(View())) && StateOf(r.value) == BaseOf(View())
    {
      if prepared.Some? {
        return Err(AlreadyPreparing);
      }
      prepareGeneration := prepareGeneration + 1;
      prepared := Some(prepareGeneration);
      var copy := active.Clone();
      r := Ok(Reservation(prepareGeneration, epoch, location, lastRefresh, misses, transient, copy, fallback));
    }

    /** The first half of `_calculate_prepared_poll`: one query, or two when a second MISS is pending. */
    method ConcludeQueries(r: Reservation, ghost base: Base, probe: Probe)
      returns (outcome: Outcome, cache: Cache, refresh: bool, queries: seq<Query>)
      requires r.active.Valid() && base == StateOf(r)
      ensures outcome == Concluded(config, base, probe) && cache == CacheAfter(config, base, probe)
      ensures refresh == (Refreshes(config, base, probe) || AsksTwice(config, base, probe))
      ensures queries == Asked(config, base, probe)
    {
      cache := Cache(r.location, r.lastRefresh, r.fallback);
      refresh := r.location.None? || r.lastRefresh.None?
                 || probe.startedAt - r.lastRefresh.value >= config.locationInterval;
      var required := HostsIn(r.active);
      queries := [Query(refresh, cache.location, if refresh then [] else cache.fallback, required)];
      outcome := probe.first;
      if refresh && outcome.usedMm.Some? {
        cache := Cache(Some(LocationOf(outcome)), Some(probe.firstAt), MatchedFallback(config, outcome));
      }
      if outcome.authoritative {
        if MissesTwice(r.active, outcome) && !refresh {
          queries := queries + [Query(true, cache.location, [], required)];
          outcome := Merge(outcome, probe.second);
          refresh := true;
          if probe.second.usedMm.Some? {
            cache := Cache(Some(LocationOf(probe.second)), Some(probe.secondAt), MatchedFallback(config, probe.second));
          }
        }
      }
      outcome := WithOverlap(outcome);
    }

    /** The second half: the outcome is applied to the sessions of the reservation, in place. */
    method ApplyOutcome(r: Reservation, ghost base: Base, concluded: Outcome, now: int)
      returns (events: seq<LifecycleEvent>, outcome: Outcome, consecutive: nat)
      requires r.active.Valid() && base == StateOf(r)
      modifies r.active.Repr
      ensures r.active.Valid() && fresh(r.active.Repr - old(r.active.Repr))
      ensures var p := Poll(r.generation, concluded, now);
              && r.active.View() == AfterPoll(base.table, p, config.closeAfterMisses)
              && events == PollEvents(base.table, p, config.closeAfterMisses)
      ensures outcome == Reported(base.table.at, concluded)
      ensures consecutive == if outcome.observations != [] then 0
                             else if outcome.authoritative then r.misses + 1 else r.misses
    {
      r.active.ViewKeys();
      outcome, consecutive := concluded, r.misses;
      var observed := FlowsOf(outcome.observations);
      if |r.active.at.Keys + observed| > MAX_POLL_OBSERVATIONS {
        outcome := outcome.(
          diagnostics := outcome.diagnostics + [Diagnostic("MONITOR_STATE", OutputLimitExceeded, false, false)],
          authoritative := false);
        events := r.active.ApplyObservations(outcome.observations, false, config.closeAfterMisses, r.generation, now);
        r.active.DropUnobserved(observed);
        if outcome.observations != [] {
          consecutive := 0;
        }
      } else {
        if outcome.observations != [] {
          consecutive := 0;
        } else if outcome.authoritative {
          consecutive := consecutive + 1;
        }
        events := r.active.ApplyObservations(outcome.observations, outcome.authoritative, config.closeAfterMisses,
                                             r.generation, now);
      }
    }

    /** `_calculate_prepared_poll`: it changes the sessions that it was given, and nothing else. */
    method CalculatePoll(r: Reservation, ghost base: Base, probe: Probe) returns (p: PreparedPoll, queries: seq<Query>)
      requires r.active.Valid() && base == StateOf(r)
      modifies r.active.Repr
      ensures p.active == r.active && fresh(p.active.Repr - old(r.active.Repr))
      ensures Shows(p, Calculated(owner, config, base, probe)) && queries == Asked(config, base, probe)
    {
      var concluded, cache, refresh, asked := ConcludeQueries(r, base, probe);
      var events, outcome, consecutive := ApplyOutcome(r, base, concluded, probe.now);
      var failures := if TransientFailure(outcome) then r.transient + 1 else 0;
      queries := asked;
      var result := PollResult(outcome, events, consecutive, refresh, failures);
      p := PreparedPoll(owner, r.generation, r.epoch, cache.location, cache.lastRefresh, cache.fallback, r.active,
                        result);
      CalculatedIs(owner, config, base, probe, cache, r.active.View(), result);
    }

    /** A reservation, and the poll that is calculated from it. */
    method ReserveAndCalculate(probe: Probe) returns (r: Result<PreparedPoll, EngineError>, queries: seq<Query>)
      requires Valid()
      modifies this`prepareGeneration, this`prepared
      ensures Valid()
      ensures old(prepared).Some? ==> r == Err(AlreadyPreparing) && View() == old(View())
      ensures old(prepared).None? ==>
                && View() == Reserved(old(View()))
                && r.Ok? && fresh(r.value.active.Repr)
                && Shows(r.value, Calculated(owner, config, BaseOf(View()), probe))
                && queries == Asked(config, BaseOf(View()), probe)
    {
      queries := [];
      var reserved := BeginPrepare();
      if reserved.Err? {
        return Err(reserved.error), [];
      }
      assert reserved.value.active.Repr !! active.Repr + {this};
      label Reserved:
      var p;
      ghost var base := BaseOf(View());
      p, queries := CalculatePoll(reserved.value, base, probe);
      active.Untouched@Reserved();
      r := Ok(p);
    }

    /** `_prepare_for_persistence`: it calculates the poll and leaves every committed session and its dictionary of
        controllers as they were; whatever the poll changed was made for it. */
    method PrepareForPersistence(probe: Probe) returns (r: Result<PreparedPoll, EngineError>, queries: seq<Query>)
      requires Valid()
      modifies this`prepareGeneration, this`prepared
      ensures Valid() && active == old(active) && active.at == old(active.at)
      ensures forall f :: f in active.at ==>
                && active.at[f].controllers == old(active.at[f].controllers)
                && active.at[f].controllers.at == old(active.at[f].controllers.at)
                && active.at[f].View() == old(active.at[f].View())
      ensures old(prepared).Some? ==> r == Err(AlreadyPreparing) && View() == old(View())
      ensures old(prepared).None? ==>
                && View() == Reserved(old(View()))
                && r.Ok? && fresh(r.value.active.Repr)
                && Shows(r.value, Calculated(owner, config, BaseOf(View()), probe))
                && queries == Asked(config, BaseOf(View()), probe)
    {
      r, queries := ReserveAndCalculate(probe);
      active.Untouched();
    }

    /** The first lock block of `_commit_prepared`: the sessions of the poll become the committed ones. */
    method InstallPrepared(p: PreparedPoll, ghost q: Prepared) returns (r: Result<PollResult, EngineError>)
      requires Valid() && Shows(p, q) && this !in p.active.Repr
      modifies this
      ensures Valid()
      ensures if p.owner == owner && old(prepared) == Some(p.generation)
              then r == Ok(p.result) && active == p.active && View() == Installed(old(View()), q)
              else r == Err(NotCurrentPoll) && View() == old(View())
    {
      if p.owner != owner || prepared != Some(p.generation) {
        return Err(NotCurrentPoll);
      }
      KeepCache(p, q);
      label Kept:
      misses := p.result.misses;
      transient := p.result.transient;
      active := p.active;
      lastResult := Some(p.result);
      p.active.Untouched@Kept();
      r := Ok(p.result);
    }

    method KeepCache(p: PreparedPoll, ghost q: Prepared)
      requires Valid() && Shows(p, q)
      modifies this`location, this`lastRefresh, this`fallback
      ensures Valid() && View() == Recached(old(View()), q)
    {
      if p.epoch == epoch {
        location := p.location;
        lastRefresh := p.lastRefresh;
        fallback := p.fallback;
      }
    }

    /** The second lock block of `_commit_prepared`, and the failure path of `_prepare_for_persistence`. */
    method Release(generation: nat)
      requires Valid()
      modifies this`prepared
      ensures Valid() && View() == Released(old(View()), generation)
    {
      if prepared == Some(generation) {
        prepared := None;
      }
    }

    /** `poll_once`: the poll is committed as it was calculated. */
    method PollOnce(probe: Probe) returns (r: Result<PollResult, EngineError>)
      requires Valid()
      modifies this
      ensures Valid()
      ensures old(prepared).Some? ==> r == Err(AlreadyPreparing) && View() == old(View())
      ensures old(prepared).None? ==>
                var reserved := Reserved(old(View()));
                var q := Calculated(owner, config, BaseOf(reserved), probe);
                r == Ok(q.result) && View() == Released(Installed(reserved, q), q.base.generation)
    {
      var poll, _ := PrepareForPersistence(probe);
      if poll.Err? {
        return Err(poll.error);
      }
      ghost var q := Calculated(owner, config, BaseOf(View()), probe);
      r := InstallPrepared(poll.value, q);
      Release(poll.value.generation);
    }

    /** `_discard_prepared`. */
    method DiscardPrepared(p: PreparedPoll) returns (r: Result<(), EngineError>)
      requires Valid()
      modifies this`prepared
      ensures Valid()
      ensures if p.owner == owner then r == Ok(()) && View() == Released(old(View()), p.generation)
              else r == Err(ForeignPoll) && View() == old(View())
    {
      if p.owner != owner {
        return Err(ForeignPoll);
      }
      Release(p.generation);
      r := Ok(());
    }
  }

  /** `required_controller_hosts`, read from the objects. */
  function HostsIn(t: SessionTable): (hosts: set<string>)
    requires t.Valid()
    reads t, t.Repr
    ensures hosts == RequiredHosts(t.View().at)
  {
    assert forall f :: f in t.at ==> t.View().at[f].controllers == t.at[f].controllers.at;
    set f, h | f in t.at && h in t.at[f].controllers.at :: h
  }

  predicate MissesTwice(t: SessionTable, o: Outcome)
    requires t.Valid()
    reads t, t.Repr
    ensures MissesTwice(t, o) == SecondMissPending(t.View().at, o)
  {
    exists f :: f in t.at && f !in FlowsOf(o.observations) && t.at[f].misses + 1 == 2
  }
}
