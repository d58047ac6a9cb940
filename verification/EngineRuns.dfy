/**
 Runs of the engine: any number of callers prepare, commit and discard polls while the location cache is
 invalidated from outside (src/aruba_session_tracker/services/monitoring.py:216-270, 423-465 and 729-742).
 One event is one lock block, or one calculation outside the lock.
 */
module EngineRuns {
  import opened Wrappers
  import opened Outcomes
  import opened Lifecycle
  import opened Sessions
  import opened MonitorEngines
  import opened LifecycleHistory

  /** How far a caller of the engine has come. */
  datatype Caller = Calculating(base: Base) | Holding(p: Prepared, probe: Probe) | Delivering(p: Prepared)

  /** What the history keeps of a run. */
  datatype Happening = Began(generation: nat) | Committed(p: Prepared, probe: Probe) | LocationInvalidated

  datatype World = World(engine: Engine, callers: map<nat, Caller>, log: seq<Happening>)

  datatype Event =
    | Begin(c: nat) | Calculate(c: nat, probe: Probe) | Fail(c: nat)
    | Install(c: nat) | Deliver(c: nat) | Discard(c: nat) | Invalidate

  const EMPTY := World(NEW_ENGINE, map[], [])

  function GenerationOf(caller: Caller): nat {
    match caller
    case Calculating(base) => base.generation
    case Holding(p, _) => p.base.generation
    case Delivering(p) => p.base.generation
  }

  predicate Enabled(w: World, e: Event) {
    match e
    case Begin(c) => c !in w.callers
    case Calculate(c, _) => c in w.callers && w.callers[c].Calculating?
    case Fail(c) => c in w.callers && w.callers[c].Calculating?
    case Install(c) => c in w.callers && w.callers[c].Holding?
    case Deliver(c) => c in w.callers && w.callers[c].Delivering?
    case Discard(c) => c in w.callers && w.callers[c].Holding?
    case Invalidate => true
  }

  function Apply(owner: nat, config: Config, w: World, e: Event): World
    requires Enabled(w, e)
  {
    match e
    case Begin(c) =>
      if w.engine.prepared.Some? then w
      else
        var engine := Reserved(w.engine);
        World(engine, w.callers[c := Calculating(BaseOf(engine))], w.log + [Began(engine.prepareGeneration)])
    case Calculate(c, probe) =>
      w.(callers := w.callers[c := Holding(Calculated(owner, config, w.callers[c].base, probe), probe)])
    case Install(c) =>
      var p := w.callers[c].p;
      if w.engine.prepared == Some(p.base.generation)
      then World(Installed(w.engine, p), w.callers[c := Delivering(p)], w.log + [Committed(p, w.callers[c].probe)])
      else World(Released(w.engine, p.base.generation), w.callers - {c}, w.log)
    case Fail(c) => World(Released(w.engine, GenerationOf(w.callers[c])), w.callers - {c}, w.log)
    case Deliver(c) => World(Released(w.engine, GenerationOf(w.callers[c])), w.callers - {c}, w.log)
    case Discard(c) => World(Released(w.engine, GenerationOf(w.callers[c])), w.callers - {c}, w.log)
    case Invalidate => World(Invalidated(w.engine), w.callers, w.log + [LocationInvalidated])
  }

  predicate Legal(owner: nat, config: Config, w: World, run: seq<Event>)
    decreases |run|
  {
    run == [] || (Enabled(w, run[0]) && Legal(owner, config, Apply(owner, config, w, run[0]), run[1..]))
  }

  function Execute(owner: nat, config: Config, w: World, run: seq<Event>): World
    requires Legal(owner, config, w, run)
    decreases |run|
  {
    if run == [] then w else Execute(owner, config, Apply(owner, config, w, run[0]), run[1..])
  }

  /** The committed polls of a run. */
  function PollsOf(config: Config, log: seq<Happening>): seq<Poll> {
    if log == [] then []
    else
      var last := log[|log| - 1];
      var before := PollsOf(config, log[..|log| - 1]);
      if last.Committed? then before + [PollOf(config, last.p.base, last.probe)] else before
  }

  /** The events that the committed polls reported, in the order of the log. */
  function EventsOf(log: seq<Happening>): seq<LifecycleEvent> {
    if log == [] then []
    else
      var last := log[|log| - 1];
      EventsOf(log[..|log| - 1]) + if last.Committed? then last.p.result.events else []
  }

  // ----- the invariant -----

  /** At most one poll is outstanding, and the engine knows which. */
  ghost predicate OneOutstanding(w: World) {
    && (w.engine.prepared.None? ==> w.callers == map[])
    && (w.engine.prepared.Some? ==>
         && w.engine.prepared.value == w.engine.prepareGeneration
         && exists c :: w.callers.Keys == {c} && GenerationOf(w.callers[c]) == w.engine.prepareGeneration)
  }

  /** What a caller holds was calculated from the state that is still committed. */
  ghost predicate CallerFits(owner: nat, config: Config, e: Engine, caller: Caller) {
    match caller
    case Calculating(base) => base.table == e.table && base.misses == e.misses && base.transient == e.transient
    case Holding(p, probe) =>
      p == Calculated(owner, config, p.base, probe) && p.base.table == e.table
      && p.base.misses == e.misses && p.base.transient == e.transient
    case Delivering(p) => e.lastResult == Some(p.result)
  }

  /** The table and the events of these polls, which are older than the generation `g`. */
  ghost predicate Tells(polls: seq<Poll>, limit: nat, t: Table, events: seq<LifecycleEvent>, g: nat) {
    && t == TableAfter(polls, limit) && events == Emitted(polls, limit)
    && Increasing(polls) && forall i :: 0 <= i < |polls| ==> polls[i].generation < g
  }

  ghost predicate HistoryIs(config: Config, t: Table, log: seq<Happening>, g: nat) {
    Tells(PollsOf(config, log), config.closeAfterMisses, t, EventsOf(log), g)
  }

  ghost predicate HistoryFits(config: Config, w: World) {
    && HistoryIs(config, w.engine.table, w.log, w.engine.prepareGeneration + 1)
    && (forall c :: c in w.callers && !w.callers[c].Delivering? ==>
         HistoryIs(config, w.engine.table, w.log, GenerationOf(w.callers[c])))
  }

  /** No invalidation since the poll of this generation began. */
  ghost predicate BeganSince(log: seq<Happening>, g: nat) {
    exists j :: 0 <= j < |log| && log[j] == Began(g) && forall k :: j < k < |log| ==> !log[k].LocationInvalidated?
  }

  /** The location was committed by a poll that began after the last invalidation. */
  ghost predicate FreshLocation(log: seq<Happening>, location: Location) {
    exists i :: 0 <= i < |log| && log[i].Committed? && log[i].p.location == Some(location)
                && BeganSince(log, log[i].p.base.generation)
  }

  ghost predicate LocationFits(w: World) {
    && (w.engine.location.Some? ==> FreshLocation(w.log, w.engine.location.value))
    && (forall c :: c in w.callers && !w.callers[c].Delivering? ==>
         && BaseIn(w.callers[c]).epoch <= w.engine.epoch
         && (BaseIn(w.callers[c]).epoch == w.engine.epoch ==> BeganSince(w.log, GenerationOf(w.callers[c]))))
  }

  function BaseIn(caller: Caller): Base {
    match caller
    case Calculating(base) => base
    case Holding(p, _) => p.base
    case Delivering(p) => p.base
  }

  ghost predicate Inv(owner: nat, config: Config, w: World) {
    && OneOutstanding(w)
    && (forall c :: c in w.callers ==> CallerFits(owner, config, w.engine, w.callers[c]))
    && HistoryFits(config, w)
    && LocationFits(w)
  }

  lemma BeganSnoc(log: seq<Happening>, h: Happening, g: nat)
    requires BeganSince(log, g) && !h.LocationInvalidated?
    ensures BeganSince(log + [h], g)
  {
    var j :| 0 <= j < |log| && log[j] == Began(g) && forall k :: j < k < |log| ==> !log[k].LocationInvalidated?;
    assert (log + [h])[j] == Began(g);
  }

  lemma FreshSnoc(log: seq<Happening>, h: Happening, location: Location)
    requires FreshLocation(log, location) && !h.LocationInvalidated?
    ensures FreshLocation(log + [h], location)
  {
    var i :| 0 <= i < |log| && log[i].Committed? && log[i].p.location == Some(location)
             && BeganSince(log, log[i].p.base.generation);
    BeganSnoc(log, h, log[i].p.base.generation);
    assert (log + [h])[i] == log[i];
  }

  lemma PollsSnoc(config: Config, log: seq<Happening>, h: Happening)
    ensures PollsOf(config, log + [h])
            == if h.Committed? then PollsOf(config, log) + [PollOf(config, h.p.base, h.probe)] else PollsOf(config, log)
  {
    assert (log + [h])[..|log|] == log;
  }

  lemma EventsOfSnoc(log: seq<Happening>, h: Happening)
    ensures EventsOf(log + [h]) == EventsOf(log) + if h.Committed? then h.p.result.events else []
  {
    assert (log + [h])[..|log|] == log;
  }

  lemma BegunHistory(config: Config, w: World, c: nat)
    requires HistoryFits(config, w) && w.callers == map[]
    ensures var engine := Reserved(w.engine);
            HistoryFits(config, World(engine, map[c := Calculating(BaseOf(engine))],
                                      w.log + [Began(engine.prepareGeneration)]))
  {
    PollsSnoc(config, w.log, Began(Reserved(w.engine).prepareGeneration));
    EventsOfSnoc(w.log, Began(Reserved(w.engine).prepareGeneration));
  }

  lemma BegunLocation(w: World, c: nat)
    requires LocationFits(w) && w.callers == map[]
    ensures var engine := Reserved(w.engine);
            LocationFits(World(engine, map[c := Calculating(BaseOf(engine))],
                               w.log + [Began(engine.prepareGeneration)]))
  {
    var h := Began(Reserved(w.engine).prepareGeneration);
    assert (w.log + [h])[|w.log|] == h;
    assert BeganSince(w.log + [h], h.generation);
    if w.engine.location.Some? {
      FreshSnoc(w.log, h, w.engine.location.value);
    }
  }

  lemma BeginKeepsInv(owner: nat, config: Config, w: World, c: nat)
    requires Inv(owner, config, w) && Enabled(w, Begin(c))
    ensures Inv(owner, config, Apply(owner, config, w, Begin(c)))
  {
    if w.engine.prepared.None? {
      var next := Apply(owner, config, w, Begin(c));
      BegunHistory(config, w, c);
      BegunLocation(w, c);
      assert next.callers == map[c := Calculating(BaseOf(next.engine))];
      assert next.callers.Keys == {c};
      PartsMakeInv(owner, config, next);
    }
  }

  lemma SoleCaller(w: World, c: nat)
    requires OneOutstanding(w) && c in w.callers
    ensures w.engine.prepared == Some(GenerationOf(w.callers[c])) && w.callers.Keys == {c}
    ensures w.callers - {c} == map[]
  {
  }

  lemma CalculateKeepsInv(owner: nat, config: Config, w: World, c: nat, probe: Probe)
    requires Inv(owner, config, w) && Enabled(w, Calculate(c, probe))
    ensures Inv(owner, config, Apply(owner, config, w, Calculate(c, probe)))
  {
    SoleCaller(w, c);
    var next := Apply(owner, config, w, Calculate(c, probe));
    assert next.callers.Keys == {c};
    assert CallerFits(owner, config, w.engine, w.callers[c]);
    assert CallerFits(owner, config, next.engine, next.callers[c]);
  }

  lemma LeaveKeepsInv(owner: nat, config: Config, w: World, c: nat)
    requires Inv(owner, config, w) && c in w.callers
    ensures Inv(owner, config, World(Released(w.engine, GenerationOf(w.callers[c])), w.callers - {c}, w.log))
  {
    SoleCaller(w, c);
  }

  lemma InvalidateKeepsInv(owner: nat, config: Config, w: World)
    requires Inv(owner, config, w)
    ensures Inv(owner, config, Apply(owner, config, w, Invalidate))
  {
    PollsSnoc(config, w.log, LocationInvalidated);
    EventsOfSnoc(w.log, LocationInvalidated);
    var next := Apply(owner, config, w, Invalidate);
    assert OneOutstanding(next);
    forall c | c in next.callers ensures CallerFits(owner, config, next.engine, next.callers[c]) {
      assert CallerFits(owner, config, w.engine, w.callers[c]);
    }
  }

  lemma TableSnoc(polls: seq<Poll>, p: Poll, limit: nat)
    ensures TableAfter(polls + [p], limit) == AfterPoll(TableAfter(polls, limit), p, limit)
    ensures Emitted(polls + [p], limit) == Emitted(polls, limit) + PollEvents(TableAfter(polls, limit), p, limit)
  {
    assert (polls + [p])[..|polls|] == polls;
  }

  lemma IncreasingSnoc(polls: seq<Poll>, p: Poll)
    requires Increasing(polls) && forall i :: 0 <= i < |polls| ==> polls[i].generation < p.generation
    ensures Increasing(polls + [p])
    ensures forall i :: 0 <= i <= |polls| ==> (polls + [p])[i].generation <= p.generation
  {
  }

  lemma HeldFromCommitted(owner: nat, config: Config, w: World, c: nat)
    requires Inv(owner, config, w) && Enabled(w, Install(c))
    ensures var p, poll := w.callers[c].p, PollOf(config, w.callers[c].p.base, w.callers[c].probe);
            && p.table == AfterPoll(w.engine.table, poll, config.closeAfterMisses)
            && p.result.events == PollEvents(w.engine.table, poll, config.closeAfterMisses)
  {
    assert CallerFits(owner, config, w.engine, w.callers[c]);
  }

  lemma TellsSnoc(polls: seq<Poll>, limit: nat, t: Table, events: seq<LifecycleEvent>, poll: Poll)
    requires Tells(polls, limit, t, events, poll.generation)
    ensures Tells(polls + [poll], limit, AfterPoll(t, poll, limit), events + PollEvents(t, poll, limit),
                  poll.generation + 1)
  {
    IncreasingSnoc(polls, poll);
    TableSnoc(polls, poll, limit);
  }

  /** One more commit: the history grows by its poll. */
  lemma CommittedSnoc(config: Config, log: seq<Happening>, t: Table, p: Prepared, probe: Probe)
    requires HistoryIs(config, t, log, p.base.generation)
    requires p.table == AfterPoll(t, PollOf(config, p.base, probe), config.closeAfterMisses)
    requires p.result.events == PollEvents(t, PollOf(config, p.base, probe), config.closeAfterMisses)
    ensures HistoryIs(config, p.table, log + [Committed(p, probe)], p.base.generation + 1)
  {
    PollsSnoc(config, log, Committed(p, probe));
    EventsOfSnoc(log, Committed(p, probe));
    TellsSnoc(PollsOf(config, log), config.closeAfterMisses, t, EventsOf(log), PollOf(config, p.base, probe));
  }

  lemma InstallHistory(config: Config, w: World, next: World, p: Prepared, probe: Probe)
    requires HistoryIs(config, w.engine.table, w.log, p.base.generation)
    requires p.table == AfterPoll(w.engine.table, PollOf(config, p.base, probe), config.closeAfterMisses)
    requires p.result.events == PollEvents(w.engine.table, PollOf(config, p.base, probe), config.closeAfterMisses)
    requires next.engine.table == p.table && next.engine.prepareGeneration == p.base.generation
    requires next.log == w.log + [Committed(p, probe)] && forall c :: c in next.callers ==> next.callers[c].Delivering?
    ensures HistoryFits(config, next)
  {
    CommittedSnoc(config, w.log, w.engine.table, p, probe);
  }

  lemma InstalledWorld(owner: nat, config: Config, w: World, c: nat)
    requires OneOutstanding(w) && Enabled(w, Install(c))
    ensures var next, p := Apply(owner, config, w, Install(c)), w.callers[c].p;
            && next.engine == Installed(w.engine, p) && next.callers == map[c := Delivering(p)]
            && next.log == w.log + [Committed(p, w.callers[c].probe)]
            && next.engine.prepareGeneration == p.base.generation
  {
    SoleCaller(w, c);
    assert Apply(owner, config, w, Install(c)).callers.Keys == {c};
  }

  lemma InstallLocation(owner: nat, config: Config, w: World, c: nat)
    requires OneOutstanding(w) && LocationFits(w) && Enabled(w, Install(c))
    ensures LocationFits(Apply(owner, config, w, Install(c)))
  {
    SoleCaller(w, c);
    var next, p := Apply(owner, config, w, Install(c)), w.callers[c].p;
    var h := Committed(p, w.callers[c].probe);
    assert next.callers.Keys == {c};
    assert next.log[|w.log|] == h;
    if next.engine.location.Some? {
      if p.base.epoch == w.engine.epoch {
        BeganSnoc(w.log, h, p.base.generation);
      } else {
        FreshSnoc(w.log, h, w.engine.location.value);
      }
    }
  }

  lemma InstallKeepsHistory(owner: nat, config: Config, w: World, c: nat)
    requires Inv(owner, config, w) && Enabled(w, Install(c))
    ensures HistoryFits(config, Apply(owner, config, w, Install(c)))
  {
    InstalledWorld(owner, config, w, c);
    HeldFromCommitted(owner, config, w, c);
    InstallHistory(config, w, Apply(owner, config, w, Install(c)), w.callers[c].p, w.callers[c].probe);
  }

  lemma InstallKeepsCallers(owner: nat, config: Config, w: World, c: nat)
    requires OneOutstanding(w) && Enabled(w, Install(c))
    ensures var next := Apply(owner, config, w, Install(c));
            && OneOutstanding(next)
            && forall d :: d in next.callers ==> CallerFits(owner, config, next.engine, next.callers[d])
  {
    InstalledWorld(owner, config, w, c);
    SoleCaller(w, c);
    assert Apply(owner, config, w, Install(c)).callers.Keys == {c};
  }

  lemma InstallKeepsInv(owner: nat, config: Config, w: World, c: nat)
    requires Inv(owner, config, w) && Enabled(w, Install(c))
    ensures Inv(owner, config, Apply(owner, config, w, Install(c)))
  {
    InstallKeepsCallers(owner, config, w, c);
    InstallKeepsHistory(owner, config, w, c);
    InstallLocation(owner, config, w, c);
    PartsMakeInv(owner, config, Apply(owner, config, w, Install(c)));
  }

  lemma PartsMakeInv(owner: nat, config: Config, w: World)
    requires OneOutstanding(w) && HistoryFits(config, w) && LocationFits(w)
    requires forall c :: c in w.callers ==> CallerFits(owner, config, w.engine, w.callers[c])
    ensures Inv(owner, config, w)
  {
  }

  lemma StepKeepsInv(owner: nat, config: Config, w: World, e: Event)
    requires Inv(owner, config, w) && Enabled(w, e)
    ensures Inv(owner, config, Apply(owner, config, w, e))
  {
    match e
    case Begin(c) => BeginKeepsInv(owner, config, w, c);
    case Calculate(c, probe) => CalculateKeepsInv(owner, config, w, c, probe);
    case Install(c) => InstallKeepsInv(owner, config, w, c);
    case Fail(c) => LeaveKeepsInv(owner, config, w, c);
    case Deliver(c) => LeaveKeepsInv(owner, config, w, c);
    case Discard(c) => LeaveKeepsInv(owner, config, w, c);
    case Invalidate => InvalidateKeepsInv(owner, config, w);
  }

  lemma {:induction false} RunKeepsInv(owner: nat, config: Config, w: World, run: seq<Event>)
    requires Inv(owner, config, w) && Legal(owner, config, w, run)
    ensures Inv(owner, config, Execute(owner, config, w, run))
    decreases |run|
  {
    if run != [] {
      StepKeepsInv(owner, config, w, run[0]);
      RunKeepsInv(owner, config, Apply(owner, config, w, run[0]), run[1..]);
    }
  }

  // ----- what every run keeps -----

  ghost predicate Reachable(owner: nat, config: Config, w: World) {
    exists run :: Legal(owner, config, EMPTY, run) && Execute(owner, config, EMPTY, run) == w
  }

  lemma ReachableInv(owner: nat, config: Config, w: World)
    requires Reachable(owner, config, w)
    ensures Inv(owner, config, w)
  {
    var run :| Legal(owner, config, EMPTY, run) && Execute(owner, config, EMPTY, run) == w;
    RunKeepsInv(owner, config, EMPTY, run);
  }

  /** At most one prepared poll is outstanding, and while it is, another prepare is refused. */
  lemma OnlyOneOutstanding(owner: nat, config: Config, w: World, c: nat, d: nat)
    requires Reachable(owner, config, w) && c in w.callers
    ensures d in w.callers ==> d == c
    ensures d !in w.callers ==> Apply(owner, config, w, Begin(d)) == w
  {
    ReachableInv(owner, config, w);
    SoleCaller(w, c);
  }

  /** The committed sessions are those of the history of committed polls, the events that were reported are those of
      that history, and it is a proper one. */
  lemma CommittedStateIsHistory(owner: nat, config: Config, w: World)
    requires Reachable(owner, config, w)
    ensures w.engine.table == TableAfter(PollsOf(config, w.log), config.closeAfterMisses)
    ensures EventsOf(w.log) == Emitted(PollsOf(config, w.log), config.closeAfterMisses)
    ensures Increasing(PollsOf(config, w.log))
  {
    ReachableInv(owner, config, w);
  }

  predicate NoInstall(run: seq<Event>) {
    forall i :: 0 <= i < |run| ==> !run[i].Install?
  }

  /** However many callers prepare, calculate, fail and discard, the committed state stays as it was. */
  lemma {:induction false} OnlyCommitsChange(owner: nat, config: Config, w: World, run: seq<Event>)
    requires Legal(owner, config, w, run) && NoInstall(run)
    ensures var later := Execute(owner, config, w, run).engine;
            && later.table == w.engine.table && later.misses == w.engine.misses
            && later.transient == w.engine.transient && later.lastResult == w.engine.lastResult
            && PollsOf(config, Execute(owner, config, w, run).log) == PollsOf(config, w.log)
    decreases |run|
  {
    if run != [] {
      var next := Apply(owner, config, w, run[0]);
      OnlyCommitsChange(owner, config, next, run[1..]);
      if next.log != w.log {
        assert next.log[..|w.log|] == w.log;
      }
    }
  }

  /** No commit loses an earlier one: the poll was calculated from the very state that it replaces, whoever else
      came and went since it was prepared. */
  lemma CommitsBuildOnCommitted(owner: nat, config: Config, w: World, c: nat)
    requires Reachable(owner, config, w) && Enabled(w, Install(c))
    ensures var next := Apply(owner, config, w, Install(c)).engine;
            var poll := PollOf(config, w.callers[c].p.base, w.callers[c].probe);
            var o := Reported(w.engine.table.at, poll.outcome);
            && next.table == AfterPoll(w.engine.table, poll, config.closeAfterMisses)
            && next.misses == (if o.observations != [] then 0
                               else if o.authoritative then w.engine.misses + 1 else w.engine.misses)
            && next.transient == (if TransientFailure(o) then w.engine.transient + 1 else 0)
            && next.lastResult.Some? && next.lastResult.value.outcome == o
            && next.lastResult.value.events == PollEvents(w.engine.table, poll, config.closeAfterMisses)
  {
    ReachableInv(owner, config, w);
    SoleCaller(w, c);
    assert CallerFits(owner, config, w.engine, w.callers[c]);
  }

  /** Discarding a poll restores the state from which it was prepared, and the next prepare succeeds. */
  lemma DiscardRestores(owner: nat, config: Config, w: World, c: nat, d: nat)
    requires Reachable(owner, config, w) && Enabled(w, Discard(c))
    ensures var base, next := w.callers[c].p.base, Apply(owner, config, w, Discard(c));
            && next.engine.table == base.table && next.engine.misses == base.misses
            && next.engine.transient == base.transient
            && next.callers == map[]
            && Apply(owner, config, next, Begin(d)).callers.Keys == {d}
  {
    ReachableInv(owner, config, w);
    SoleCaller(w, c);
    assert CallerFits(owner, config, w.engine, w.callers[c]);
  }

  /** A cached location always comes from a poll that began after the last invalidation. */
  lemma NoStaleLocation(owner: nat, config: Config, w: World)
    requires Reachable(owner, config, w) && w.engine.location.Some?
    ensures FreshLocation(w.log, w.engine.location.value)
  {
    ReachableInv(owner, config, w);
  }
}
