/**
 The polls of a monitor, answered by the tracker: both passes of a poll are queries under one budget
 (src/aruba_session_tracker/services/monitoring.py:281-347 and 541-566, services/tracker.py:171-557).
 */
module PollAnswers {
  import opened Outcomes
  import opened RawBundle
  import opened Topology
  import opened Tracker
  import opened EngineRuns
  import LifecycleHistory
  import Monitoring = MonitorEngines
  import Tracking = TrackerServices

  /** `MAX_PERSISTED_RAW_BYTES`, 32 MiB. */
  const MAX_POLL_RAW_BYTES: nat := 33_554_432

  /** What a monitor is started with. */
  datatype Setting = Setting(site: Tracking.Site, request: Request, encoding: Encoding)

  /** What one pass meets: the order in which the required controllers are named, the replies, and the cursor of the
      tracker, which other queries move as well. */
  datatype Exchange = Exchange(hosts: seq<string>, replies: Tracking.Replies, cursor: nat)

  /** `PollBudget()`. */
  function NewBudget(s: Setting): Budget {
    Budget(s.encoding, MAX_POLL_RAW_BYTES, MAX_POLL_OBSERVATIONS, 0, 0)
  }

  /** `_query`: a full scan may be approved only when the location is refreshed. */
  function QueryOf(s: Setting, q: Monitoring.Query, hosts: seq<string>): Tracking.Query {
    Tracking.Query(s.request, q.location, q.refresh, q.refresh, q.fallback, hosts)
  }

  ghost predicate Meets(s: Setting, q: Monitoring.Query, x: Exchange) {
    Tracking.Askable(QueryOf(s, q, x.hosts), x.replies) && forall h :: h in x.hosts <==> h in q.required
  }

  function Pass(s: Setting, q: Monitoring.Query, x: Exchange, b: Budget): Tracking.Reply
    requires Tracking.Askable(QueryOf(s, q, x.hosts), x.replies)
  {
    Tracking.Queried(s.site, QueryOf(s, q, x.hosts), x.replies, b, x.cursor)
  }

  function FirstQuery(config: Monitoring.Config, base: Monitoring.Base, probe: Monitoring.Probe): Monitoring.Query {
    Monitoring.Asked(config, base, probe)[0]
  }

  function SecondQuery(base: Monitoring.Base): Monitoring.Query {
    Monitoring.Query(true, base.location, [], Monitoring.RequiredHosts(base.table.at))
  }

  /** The first pass of the poll is the answer of the tracker. */
  ghost predicate FirstAnswered(s: Setting, config: Monitoring.Config, base: Monitoring.Base, probe: Monitoring.Probe,
                                x: Exchange) {
    var q := FirstQuery(config, base, probe);
    Meets(s, q, x) && probe.first == Pass(s, q, x, NewBudget(s)).outcome
  }

  /** So is the second, should there be one, under what the first pass left of the budget. */
  ghost predicate BothAnswered(s: Setting, config: Monitoring.Config, base: Monitoring.Base, probe: Monitoring.Probe,
                               x: Exchange, y: Exchange) {
    && FirstAnswered(s, config, base, probe, x)
    && (Monitoring.AsksTwice(config, base, probe) ==>
         var left := Pass(s, FirstQuery(config, base, probe), x, NewBudget(s)).budget;
         Meets(s, SecondQuery(base), y) && probe.second == Pass(s, SecondQuery(base), y, left).outcome)
  }

  ghost predicate Answered(s: Setting, config: Monitoring.Config, base: Monitoring.Base, probe: Monitoring.Probe) {
    exists x, y :: BothAnswered(s, config, base, probe, x, y)
  }

  /** Whatever the devices answer, in one pass or two, a concluded poll has no more than 20,000 observations. */
  lemma ConcludedStaysSmall(s: Setting, config: Monitoring.Config, base: Monitoring.Base, probe: Monitoring.Probe)
    requires Answered(s, config, base, probe)
    ensures |Monitoring.Concluded(config, base, probe).observations| <= MAX_POLL_OBSERVATIONS
  {
    var x, y :| BothAnswered(s, config, base, probe, x, y);
    var q, again := QueryOf(s, FirstQuery(config, base, probe), x.hosts), QueryOf(s, SecondQuery(base), y.hosts);
    if Monitoring.AsksTwice(config, base, probe) {
      Tracking.TwoPassesShareBudget(s.site, q, x.replies, again, y.replies, NewBudget(s), x.cursor, y.cursor);
    } else {
      Tracking.QueryWithinBudget(s.site, q, x.replies, NewBudget(s), x.cursor);
    }
  }

  // ----- runs of the engine whose polls are answered by the tracker -----

  ghost predicate AllAnswered(s: Setting, owner: nat, config: Monitoring.Config, w: World, run: seq<Event>)
    requires Legal(owner, config, w, run)
    decreases |run|
  {
    run == []
    || ((run[0].Calculate? ==> Answered(s, config, w.callers[run[0].c].base, run[0].probe))
        && AllAnswered(s, owner, config, Apply(owner, config, w, run[0]), run[1..]))
  }

  ghost predicate ReachedByAnswers(s: Setting, owner: nat, config: Monitoring.Config, w: World) {
    exists run :: Legal(owner, config, EMPTY, run) && AllAnswered(s, owner, config, EMPTY, run)
                  && Execute(owner, config, EMPTY, run) == w
  }

  lemma {:induction false} RunSnoc(s: Setting, owner: nat, config: Monitoring.Config, w: World, run: seq<Event>,
                                   e: Event)
    requires Legal(owner, config, w, run) && AllAnswered(s, owner, config, w, run)
    requires var last := Execute(owner, config, w, run);
             Enabled(last, e) && (e.Calculate? ==> Answered(s, config, last.callers[e.c].base, e.probe))
    ensures Legal(owner, config, w, run + [e]) && AllAnswered(s, owner, config, w, run + [e])
    ensures Execute(owner, config, w, run + [e]) == Apply(owner, config, Execute(owner, config, w, run), e)
    decreases |run|
  {
    if run == [] {
      assert [] + [e] == [e] && [e][1..] == [];
    } else {
      RunSnoc(s, owner, config, Apply(owner, config, w, run[0]), run[1..], e);
      assert (run + [e])[1..] == run[1..] + [e];
    }
  }

  lemma StepIsReached(s: Setting, owner: nat, config: Monitoring.Config, w: World, e: Event)
    requires ReachedByAnswers(s, owner, config, w) && Enabled(w, e)
    requires e.Calculate? ==> Answered(s, config, w.callers[e.c].base, e.probe)
    ensures ReachedByAnswers(s, owner, config, Apply(owner, config, w, e))
  {
    var run :| Legal(owner, config, EMPTY, run) && AllAnswered(s, owner, config, EMPTY, run)
               && Execute(owner, config, EMPTY, run) == w;
    RunSnoc(s, owner, config, EMPTY, run, e);
  }

  /** One whole poll, from its reservation to its delivery. */
  function Polled(owner: nat, config: Monitoring.Config, w: World, probe: Monitoring.Probe): World {
    var engine := Monitoring.Reserved(w.engine);
    var p := Monitoring.Calculated(owner, config, Monitoring.BaseOf(engine), probe);
    World(Monitoring.Released(Monitoring.Installed(engine, p), p.base.generation), map[],
          w.log + [Began(p.base.generation), Committed(p, probe)])
  }

  predicate Idle(w: World) {
    w.callers == map[] && w.engine.prepared.None?
  }

  /** The four steps of such a poll, taken by one caller. */
  lemma PolledBySteps(owner: nat, config: Monitoring.Config, w: World, probe: Monitoring.Probe)
    requires Idle(w)
    ensures Enabled(w, Begin(0))
    ensures var begun := Apply(owner, config, w, Begin(0));
            && Enabled(begun, Calculate(0, probe))
            && begun.callers[0].base == Monitoring.BaseOf(Monitoring.Reserved(w.engine))
            && var calculated := Apply(owner, config, begun, Calculate(0, probe));
               && Enabled(calculated, Install(0))
               && var installed := Apply(owner, config, calculated, Install(0));
                  && Enabled(installed, Deliver(0))
                  && Apply(owner, config, installed, Deliver(0)) == Polled(owner, config, w, probe)
  {
    var begun := Apply(owner, config, w, Begin(0));
    var calculated := Apply(owner, config, begun, Calculate(0, probe));
    var installed := Apply(owner, config, calculated, Install(0));
    assert installed.callers - {0} == map[];
  }

  lemma PolledIsReached(s: Setting, owner: nat, config: Monitoring.Config, w: World, probe: Monitoring.Probe)
    requires ReachedByAnswers(s, owner, config, w) && Idle(w)
    requires Answered(s, config, Monitoring.BaseOf(Monitoring.Reserved(w.engine)), probe)
    ensures ReachedByAnswers(s, owner, config, Polled(owner, config, w, probe))
  {
    PolledBySteps(owner, config, w, probe);
    var begun := Apply(owner, config, w, Begin(0));
    StepIsReached(s, owner, config, w, Begin(0));
    PollIsFinished(s, owner, config, begun, Apply(owner, config, begun, Calculate(0, probe)), probe);
  }

  lemma PollIsFinished(s: Setting, owner: nat, config: Monitoring.Config, begun: World, calculated: World,
                       probe: Monitoring.Probe)
    requires ReachedByAnswers(s, owner, config, begun) && Enabled(begun, Calculate(0, probe))
    requires Answered(s, config, begun.callers[0].base, probe)
    requires calculated == Apply(owner, config, begun, Calculate(0, probe)) && Enabled(calculated, Install(0))
    requires Enabled(Apply(owner, config, calculated, Install(0)), Deliver(0))
    ensures ReachedByAnswers(s, owner, config,
                             Apply(owner, config, Apply(owner, config, calculated, Install(0)), Deliver(0)))
  {
    StepIsReached(s, owner, config, begun, Calculate(0, probe));
    StepIsReached(s, owner, config, calculated, Install(0));
    StepIsReached(s, owner, config, Apply(owner, config, calculated, Install(0)), Deliver(0));
  }

  /** Every poll that is held or committed was answered. */
  ghost predicate HeldAnswered(s: Setting, config: Monitoring.Config, w: World) {
    && (forall c :: c in w.callers && w.callers[c].Holding? ==>
         Answered(s, config, w.callers[c].p.base, w.callers[c].probe))
    && (forall i :: 0 <= i < |w.log| && w.log[i].Committed? ==> Answered(s, config, w.log[i].p.base, w.log[i].probe))
  }

  lemma {:induction false} RunKeepsAnswered(s: Setting, owner: nat, config: Monitoring.Config, w: World,
                                            run: seq<Event>)
    requires HeldAnswered(s, config, w) && Legal(owner, config, w, run) && AllAnswered(s, owner, config, w, run)
    ensures HeldAnswered(s, config, Execute(owner, config, w, run))
    decreases |run|
  {
    if run != [] {
      StepKeepsAnswered(s, owner, config, w, run[0]);
      RunKeepsAnswered(s, owner, config, Apply(owner, config, w, run[0]), run[1..]);
    }
  }

  lemma StepKeepsAnswered(s: Setting, owner: nat, config: Monitoring.Config, w: World, e: Event)
    requires HeldAnswered(s, config, w) && Enabled(w, e)
    requires e.Calculate? ==> Answered(s, config, w.callers[e.c].base, e.probe)
    ensures HeldAnswered(s, config, Apply(owner, config, w, e))
  {
    var next := Apply(owner, config, w, e);
    forall i | 0 <= i < |next.log| && next.log[i].Committed?
      ensures Answered(s, config, next.log[i].p.base, next.log[i].probe)
    {
      if i < |w.log| {
        assert next.log[i] == w.log[i];
      }
    }
  }

  lemma {:induction false} PollsStaySmall(s: Setting, config: Monitoring.Config, log: seq<Happening>)
    requires forall i :: 0 <= i < |log| && log[i].Committed? ==> Answered(s, config, log[i].p.base, log[i].probe)
    ensures forall i :: 0 <= i < |PollsOf(config, log)| ==>
              |PollsOf(config, log)[i].outcome.observations| <= MAX_POLL_OBSERVATIONS
  {
    if log != [] {
      var init, last := log[..|log| - 1], log[|log| - 1];
      assert forall i :: 0 <= i < |init| ==> init[i] == log[i];
      PollsStaySmall(s, config, init);
      if last.Committed? {
        ConcludedStaysSmall(s, config, last.p.base, last.probe);
      }
    }
  }

  /** In every run whose polls the tracker answers, no more than 20,000 sessions are ever active. */
  lemma ActiveStaysBounded(s: Setting, owner: nat, config: Monitoring.Config, w: World)
    requires ReachedByAnswers(s, owner, config, w)
    ensures |w.engine.table.at| <= MAX_POLL_OBSERVATIONS
  {
    var run :| Legal(owner, config, EMPTY, run) && AllAnswered(s, owner, config, EMPTY, run)
               && Execute(owner, config, EMPTY, run) == w;
    RunKeepsAnswered(s, owner, config, EMPTY, run);
    PollsStaySmall(s, config, w.log);
    CommittedStateIsHistory(owner, config, w);
    LifecycleHistory.ActiveIsBounded(PollsOf(config, w.log), config.closeAfterMisses);
  }
}
