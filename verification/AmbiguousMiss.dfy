/**
 An ambiguous answer of a mobility master, and the absence that is counted two polls later although the answer had
 named a device that nobody asked (src/aruba_session_tracker/services/monitoring.py:281-340 and
 src/aruba_session_tracker/services/tracker.py:214-278).
 */
module AmbiguousMiss {
  import opened Wrappers
  import opened Addresses
  import opened Outcomes
  import opened RawBundle
  import opened Topology
  import opened Lifecycle
  import opened Sessions
  import opened Tracker
  import opened TrackerServices
  import opened PollAnswers
  import opened EngineRuns
  import opened ReusedLocation
  import opened RawScenario
  import Digits
  import LifecycleHistory
  import Monitoring = MonitorEngines

  // ----- what an absence proves when the location was reused -----

  /** A poll of one pass that reuses a location counts the absence of a session only if no named device shows a row of
      it, provided that every named device is asked. */
  lemma MissProvesAbsence(s: Setting, owner: nat, config: Monitoring.Config, base: Monitoring.Base,
                          probe: Monitoring.Probe, x: Exchange, mm: Master, e: LifecycleEvent,
                          tables: Device -> seq<Observation>, d: Device, o: Observation)
    requires Configured(s.site) && FirstAnswered(s, config, base, probe, x)
    requires !Monitoring.AsksTwice(config, base, probe)
    requires var q := QueryOf(s, FirstQuery(config, base, probe), x.hosts);
             && Reuses(q, mm) && NamedAreAsked(s.site, q, mm)
             && AllFaithful(Queried(s.site, q, x.replies, NewBudget(s), x.cursor).asked, x.replies.network, tables)
    requires Coherent(base.table) && LifecycleHistory.OwnIds(base.table.at)
    requires e in Monitoring.Calculated(owner, config, base, probe).result.events
    requires e.kind == MISSED || e.kind == CLOSED
    requires d in EnabledOf(s.site.devices) && NamedDevice(s.site, s.request, mm, d)
    requires o in tables(d) && Matches(s.request, o)
    ensures o.flow != e.id.flow
  {
    var q := QueryOf(s, FirstQuery(config, base, probe), x.hosts);
    var p := Monitoring.PollOf(config, base, probe);
    LifecycleHistory.AbsenceEvents(base.table, p, config.closeAfterMisses, e);
    AbsenceProvesIff(s.site, q, x.replies, NewBudget(s), x.cursor, mm, tables);
    assert o in p.outcome.observations;
  }

  // ----- the network of the scenario -----

  const HERE := Ipv4(10, 0, 1, 1)
  const THERE := Ipv4(10, 0, 1, 2)
  const CLIENT := "10.9.0.1"
  const MOVED := ROW.(name := "md2", host := "10.0.1.2")

  /** A master that gives this answer for every address. */
  function Told(l: Lookup): MmAnswer {
    MmAnswered(_ => l, _ => 0)
  }

  function Says(l: Lookup, rows: Device -> seq<Observation>): Replies {
    Replies([Told(l), Told(l)], Declined, (c: Candidate) => Output(Ok(rows(c.device)), 0))
  }

  function FirstMaster(l: Lookup): Master {
    MasterOf(FOUR_MDS, 0, Told(l))
  }

  const CLEAR := Lookup(FOUND, [HERE])
  const DOUBTFUL := Lookup(AMBIGUOUS, [HERE, THERE])

  function FirstRows(d: Device): seq<Observation> {
    if d == Md('1') then [ROW] else []
  }

  /** The session has moved to the second device. */
  function LaterRows(d: Device): seq<Observation> {
    if d == Md('2') then [MOVED] else []
  }

  lemma SwitchTexts()
    ensures Text(HERE) == "10.0.1.1" && Text(THERE) == "10.0.1.2"
  {
    assert Digits.Decimal(10) == Digits.Decimal(1) + Digits.Decimal(0) == "10";
    assert Digits.Decimal(1) == "1" && Digits.Decimal(2) == "2" && Digits.Decimal(0) == "0";
  }

  lemma SwitchNames()
    ensures FOUR_MDS.norm(Text(HERE)) == "10.0.1." + ['1'] && FOUR_MDS.norm(Text(THERE)) == "10.0.1." + ['2']
  {
    SwitchTexts();
    SwitchTextKept(PLAIN, HERE);
    SwitchTextKept(PLAIN, THERE);
  }

  /** A device serves exactly the switch that has its address. */
  lemma ServesMd(d: char, e: char, switch: Ipv4)
    requires Digits.IsDigit(d) && FOUR_MDS.norm(Text(switch)) == "10.0.1." + [e]
    ensures Serves(FOUR_MDS, Md(d), switch) <==> d == e
  {
    TokensOfMd(d);
    if d != e {
      NamesApart(d, e);
    }
  }

  // ----- one pass over one device -----

  /** A query of the monitor that leads to the first device only: the answer names it, or the session was seen there. */
  predicate Leads(q: Query, l: Lookup) {
    && q.request == SETTING.request
    && (q.refresh || q.cached == Some(LocationBy(q.request, FirstMaster(l))))
    && ((l == CLEAR && q.required == []) || (l == DOUBTFUL && q.required == ["10.0.1.1"]))
  }

  lemma OnlyFirst(q: Query, l: Lookup, d: Device)
    requires Leads(q, l)
    ensures AskedFor(FOUR_MDS, q, FirstMaster(l), d) <==> d == Md('1')
  {
    FourMdsEnabled();
    SwitchNames();
    MdAt(0);
    LeadsBy(q, l, d);
    if d in DEVICES {
      var i :| 0 <= i < |DEVICES| && DEVICES[i] == d;
      MdAt(i);
      ServesMd(DIGITS[i], '1', HERE);
      if DIGITS[i] != '1' {
        NamesApart(DIGITS[i], '1');
      }
    }
  }

  lemma LeadsBy(q: Query, l: Lookup, d: Device)
    requires Leads(q, l)
    ensures ClearlyOn(FOUR_MDS, q.request, FirstMaster(l), d) <==> l == CLEAR && Serves(FOUR_MDS, d, HERE)
    ensures d.host in q.required <==> l == DOUBTFUL && d.host == "10.0.1." + ['1']
  {
    assert ClientIps(q.request) == [CLIENT] && CLIENT in ClientIps(q.request);
    assert FirstMaster(l).lookup(CLIENT) == l;
    assert "10.0.1.1" == "10.0.1." + ['1'];
  }

  /** A short snapshot, with one key at most. */
  predicate Slight(r: Raw) {
    |r.device| <= 20 && |r.command| <= 60 && r.output == 0 && |KeysIn(r)| <= 1
  }

  lemma SlightSection(r: Raw, index: nat)
    requires Slight(r) && index <= 2
    ensures SectionBytes(SETTING.encoding, r, index) <= 10_000
  {
    DecimalIsShort(r.output);
    DecimalIsShort(index);
  }

  /** Two such snapshots can be stored. */
  lemma SlightStored(raw: seq<Raw>)
    requires |raw| <= 2 && forall i :: 0 <= i < |raw| ==> Slight(raw[i])
    ensures PersistedSize(SETTING.encoding, raw) <= MAX_POLL_RAW_BYTES
  {
    if |raw| == 2 {
      var e := SETTING.encoding;
      assert raw == ([] + [raw[0]]) + [raw[1]];
      SectionsSnoc(e, [], raw[0]);
      SectionsSnoc(e, [raw[0]], raw[1]);
      SlightSection(raw[0], 1);
      SlightSection(raw[1], 2);
      PrefixIsSmall(2);
    }
  }

  ghost predicate Fresh(b: Budget) {
    Tracker.WithinLimits(b) && b.encoding == SETTING.encoding && b.maxRaw == MAX_POLL_RAW_BYTES
    && b.observations == 0 && b.maxObservations == MAX_POLL_OBSERVATIONS
  }

  function MasterSays(q: Query, l: Lookup): seq<Raw> {
    if q.refresh then [MmSnapshot(FirstMaster(l), CLIENT)] else []
  }

  lemma ReadOnce(l: Lookup, b: Budget)
    requires Fresh(b) && (l == CLEAR || l == DOUBTFUL)
    ensures var r := ReadIps([CLIENT], FirstMaster(l), b);
            && r.ok && r.raw == [MmSnapshot(FirstMaster(l), CLIENT)] && (RoutingDoubt(r.diagnostics) <==> l == DOUBTFUL)
  {
    var mm := FirstMaster(l);
    MasterSnapshot(mm, CLIENT);
    SlightStored([MmSnapshot(mm, CLIENT)]);
    ReadingOkIff([CLIENT], mm, b);
    ReadingOwns([CLIENT], mm, b);
    ReadingDoubts([CLIENT], mm, b);
    assert mm.lookup([CLIENT][0]) == l;
  }

  lemma LocatedIs(q: Query, l: Lookup, rows: Device -> seq<Observation>, b: Budget)
    requires Leads(q, l) && Fresh(b)
    ensures var w := LocatedBy(FOUR_MDS, q, Says(l, rows), b);
            && w.location == Some(LocationBy(q.request, FirstMaster(l))) && w.raw == MasterSays(q, l)
            && (RoutingDoubt(w.diagnostics) <==> q.refresh && l == DOUBTFUL)
            && Fresh(w.budget) && Stores(w.budget, w.raw)
  {
    var replies := Says(l, rows);
    LocatedStores(FOUR_MDS, q, replies, b);
    if q.refresh {
      assert ClientIps(q.request) == [CLIENT];
      ReadOnce(l, b);
      assert MmSelection(FOUR_MDS.primary, FOUR_MDS.standby, replies.mms) == Some(0);
      assert MmDiagnostics(FOUR_MDS.primary, FOUR_MDS.standby, replies.mms) == [];
      var r := ReadIps([CLIENT], FirstMaster(l), b);
      assert [] + r.diagnostics == r.diagnostics;
    }
  }

  /** The place that the answer tells, and what it says about it. */
  lemma PlaceTold(q: Query, l: Lookup)
    requires Leads(q, l)
    ensures LocationBy(q.request, FirstMaster(l))
            == Location(if l == CLEAR then Some(HERE) else None, None, Some("mm1"), false)
    ensures q.request.sourceIp == CLIENT && q.request.destinationIp == "" && ClientIps(q.request) == [CLIENT]
  {
    assert ClientIps(q.request)[0] == CLIENT && FirstMaster(l).lookup(CLIENT) == l;
  }

  lemma HereIsKnown()
    ensures MappedTo(Some(HERE), DEVICES, FOUR_MDS.norm)
  {
    MdAt(0);
    SwitchNames();
    ServesMd('1', '1', HERE);
    assert Serves(FOUR_MDS, DEVICES[0], HERE);
  }

  lemma RequiredThere(q: Query, l: Lookup)
    requires Leads(q, l)
    ensures forall h :: h in q.required ==> HasHost(EnabledOf(FOUR_MDS.devices), h)
    ensures q.required != [] || l == CLEAR
  {
    FourMdsEnabled();
    FirstMdThere();
  }

  lemma PlaceKnown(l: Lookup)
    ensures Known(FOUR_MDS, CLIENT, if l == CLEAR then Some(HERE) else None) && Known(FOUR_MDS, "", None)
  {
    FourMdsEnabled();
    HereIsKnown();
  }

  lemma LeadsSomewhere(q: Query, l: Lookup)
    requires Leads(q, l)
    ensures WellRouted(FOUR_MDS, q, LocationBy(q.request, FirstMaster(l)), Declined)
  {
    PlaceTold(q, l);
    RequiredThere(q, l);
    PlaceKnown(l);
  }

  lemma RouteIsFound(q: Query, l: Lookup, cursor: nat)
    requires Leads(q, l)
    ensures var r := RouteOf(FOUR_MDS, q, LocationBy(q.request, FirstMaster(l)), Declined, cursor);
            && r.route.Ok? && !RoutingDoubt(r.doubts)
            && DistinctDevices(DevicesOf(r.route.value)) && FiltersFit(r.route.value, q.request)
  {
    var place := LocationBy(q.request, FirstMaster(l));
    FourMdsSmall();
    LeadsSomewhere(q, l);
    RouteFoundIff(FOUR_MDS, q, place, Declined, cursor);
    RouteSound(FOUR_MDS, q, place, Declined, cursor);
  }

  lemma RoutedIs(q: Query, l: Lookup, cursor: nat)
    requires Leads(q, l)
    ensures var r := RouteOf(FOUR_MDS, q, LocationBy(q.request, FirstMaster(l)), Declined, cursor);
            r.route == Ok([Candidate(Md('1'), CLIENT)]) && !RoutingDoubt(r.doubts)
  {
    RouteIsFound(q, l, cursor);
    PlaceTold(q, l);
    FourMdsSmall();
    var asked := RouteOf(FOUR_MDS, q, LocationBy(q.request, FirstMaster(l)), Declined, cursor).route.value;
    forall d ensures d in DevicesOf(asked) <==> d == Md('1') {
      TargetedAsks(FOUR_MDS, q, FirstMaster(l), Declined, cursor, d);
      OnlyFirst(q, l, d);
    }
    SingleCandidate(asked, Md('1'), q.request, CLIENT);
  }

  lemma SingleCandidate(asked: seq<Candidate>, only: Device, request: Request, ip: string)
    requires DistinctDevices(DevicesOf(asked)) && forall d :: d in DevicesOf(asked) <==> d == only
    requires FiltersFit(asked, request) && ClientIps(request) == [ip]
    ensures asked == [Candidate(only, ip)]
  {
    var devices := DevicesOf(asked);
    assert only in devices;
    forall i | 0 <= i < |asked| ensures asked[i] == Candidate(only, ip) {
      assert devices[i] in devices && asked[i].filterIp in ClientIps(request);
    }
    SizeOfDistinct(devices);
    assert (set d | d in devices) == {only};
  }

  // ----- what the pass answers -----

  /** The rows that the first device shows: none, or the one of the session. */
  predicate Shows(rows: seq<Observation>) {
    rows == [] || rows == [ROW]
  }

  lemma RowsMatch(rows: seq<Observation>)
    requires Shows(rows)
    ensures NewRows([], rows, SETTING.request) == rows
  {
    if rows == [ROW] {
      assert rows[..0] == [] && Matches(SETTING.request, ROW);
      assert NewRows([], rows[..0], SETTING.request) == [];
    }
  }

  lemma GatheredOnce(c: Candidate, rows: seq<Observation>, network: Network, raw: seq<Raw>, b: Budget)
    requires c == Candidate(Md('1'), CLIENT) && Shows(rows) && network(c) == Output(Ok(rows), 0)
    requires Fresh(b) && Stores(b, raw) && |raw| <= 1 && forall i :: 0 <= i < |raw| ==> Slight(raw[i])
    ensures var g := Gather(SETTING.request, [c], network, raw, b); g.complete && g.observations == rows
  {
    var snapshot := MdSnapshot(c, 0, KeysOf(rows));
    RowsMatch(rows);
    assert [c][..0] == [];
    assert FullRows(SETTING.request, [c], network) == [] + rows == rows;
    assert FullRaw(SETTING.request, [c], network, raw) == raw + [snapshot];
    assert Slight(snapshot);
    SlightStored(raw + [snapshot]);
    assert RowCount([c], network) == |rows|;
    GatheredCompleteIff(SETTING.request, [c], network, raw, b);
  }

  /** What a query answers once it has a route. */
  lemma QueriedIs(site: Site, q: Query, replies: Replies, b: Budget, cursor: nat, asked: seq<Candidate>)
    requires Askable(q, replies) && LocatedBy(site, q, replies, b).location.Some?
    requires RouteOf(site, q, LocatedBy(site, q, replies, b).location.value, replies.approval, cursor).route
             == Ok(asked)
    ensures var o, w := Queried(site, q, replies, b, cursor).outcome, LocatedBy(site, q, replies, b);
            var r := RouteOf(site, q, w.location.value, replies.approval, cursor);
            var g := Gather(q.request, asked, replies.network, w.raw, w.budget);
            && o.observations == g.observations && LocationOf(o) == w.location.value
            && (o.authoritative <==> !RoutingDoubt(w.diagnostics) && !RoutingDoubt(r.doubts) && g.complete)
  {
    var w := LocatedBy(site, q, replies, b);
    DoubtConcat(w.diagnostics, RouteOf(site, q, w.location.value, replies.approval, cursor).doubts);
  }

  /** The pass sees what the first device shows, and doubts only when it hears the ambiguous answer itself. */
  lemma PassIs(q: Query, l: Lookup, rows: Device -> seq<Observation>, b: Budget, cursor: nat)
    requires Leads(q, l) && Fresh(b) && Shows(rows(Md('1')))
    ensures var o := Queried(FOUR_MDS, q, Says(l, rows), b, cursor).outcome;
            && o.observations == rows(Md('1')) && (o.authoritative <==> !(q.refresh && l == DOUBTFUL))
            && LocationOf(o) == LocationBy(q.request, FirstMaster(l))
  {
    LocatedIs(q, l, rows, b);
    RoutedIs(q, l, cursor);
    MasterIsSlight(q, l);
    var w, c := LocatedBy(FOUR_MDS, q, Says(l, rows), b), Candidate(Md('1'), CLIENT);
    GatheredOnce(c, rows(Md('1')), Says(l, rows).network, w.raw, w.budget);
    QueriedIs(FOUR_MDS, q, Says(l, rows), b, cursor, [c]);
  }

  lemma MasterIsSlight(q: Query, l: Lookup)
    ensures var raw := MasterSays(q, l); |raw| <= 1 && forall i :: 0 <= i < |raw| ==> Slight(raw[i])
  {
  }

  // ----- one poll of the monitor -----

  /** A poll that begins at `t` and meets `x`. */
  function ProbeOf(base: Monitoring.Base, t: int, x: Exchange): Monitoring.Probe
    requires |x.replies.mms| == 2
  {
    var nothing := Stopped(None, [], []);
    var start := Monitoring.Probe(t, nothing, t, nothing, t, t);
    start.(first := Pass(SETTING, FirstQuery(CONFIG, base, start), x, NewBudget(SETTING)).outcome)
  }

  function AskedAt(base: Monitoring.Base, t: int, x: Exchange): Query
    requires |x.replies.mms| == 2
  {
    QueryOf(SETTING, FirstQuery(CONFIG, base, ProbeOf(base, t, x)), x.hosts)
  }

  /** What the poll meets is said by this answer and these rows. */
  ghost predicate MetBy(base: Monitoring.Base, t: int, x: Exchange, l: Lookup, rows: Device -> seq<Observation>) {
    && x.replies == Says(l, rows) && Leads(AskedAt(base, t, x), l) && Shows(rows(Md('1')))
    && forall h :: h in x.hosts <==> h in Monitoring.RequiredHosts(base.table.at)
  }

  lemma FirstPassIs(base: Monitoring.Base, t: int, x: Exchange, l: Lookup, rows: Device -> seq<Observation>)
    requires MetBy(base, t, x, l, rows)
    ensures var probe, q := ProbeOf(base, t, x), AskedAt(base, t, x);
            && FirstAnswered(SETTING, CONFIG, base, probe, x)
            && probe.first.observations == rows(Md('1'))
            && (probe.first.authoritative <==> !(q.refresh && l == DOUBTFUL))
            && LocationOf(probe.first) == LocationBy(q.request, FirstMaster(l))
  {
    var probe := ProbeOf(base, t, x);
    assert FirstQuery(CONFIG, base, probe) == FirstQuery(CONFIG, base, probe.(first := Stopped(None, [], [])));
    PassIs(AskedAt(base, t, x), l, rows, NewBudget(SETTING), x.cursor);
  }

  lemma PollIs(base: Monitoring.Base, t: int, x: Exchange, l: Lookup, rows: Device -> seq<Observation>)
    requires MetBy(base, t, x, l, rows)
    requires !Monitoring.AsksTwice(CONFIG, base, ProbeOf(base, t, x))
    ensures var probe, q := ProbeOf(base, t, x), AskedAt(base, t, x);
            var o, cache := Monitoring.Concluded(CONFIG, base, probe), Monitoring.CacheAfter(CONFIG, base, probe);
            && Answered(SETTING, CONFIG, base, probe)
            && o.observations == rows(Md('1')) && (o.authoritative <==> !(q.refresh && l == DOUBTFUL))
            && (q.refresh <==> Monitoring.Refreshes(CONFIG, base, probe))
            && if q.refresh then cache == Monitoring.Cache(Some(LocationBy(q.request, FirstMaster(l))), Some(t), [])
               else cache == Monitoring.Cache(base.location, base.lastRefresh, base.fallback)
  {
    FirstPassIs(base, t, x, l, rows);
    PlaceTold(AskedAt(base, t, x), l);
    assert BothAnswered(SETTING, CONFIG, base, ProbeOf(base, t, x), x, x);
  }

  /** One session, seen on the first device. */
  predicate Watches(t: Table, misses: nat) {
    && t.at.Keys == {FLOW} && t.at[FLOW].id.flow == FLOW
    && t.at[FLOW].controllers == map["10.0.1.1" := ROW] && t.at[FLOW].misses == misses
  }

  lemma FirstTable(p: Monitoring.Poll)
    requires p.outcome.observations == [ROW] && p.outcome.authoritative
    ensures Watches(Monitoring.AfterPoll(Table([], map[]), p, 3), 0)
  {
    assert FlowsOf([ROW]) == {FLOW} by {
      assert [ROW][0].flow == FLOW;
    }
    assert [ROW][..0] == [] && Controllers([ROW][..0], FLOW) == map[];
    assert Controllers([ROW], FLOW) == map["10.0.1.1" := ROW];
  }

  lemma QuietTable(t: Table, p: Monitoring.Poll)
    requires Watches(t, 0) && p.outcome.observations == []
    ensures Watches(Monitoring.AfterPoll(t, p, 3), if p.outcome.authoritative then 1 else 0)
    ensures Monitoring.Conclusive(t.at, p.outcome) <==> p.outcome.authoritative
  {
    assert t.at.Keys + FlowsOf([]) == {FLOW};
  }

  // ----- the three polls -----

  /** The monitor is idle, has this routing, and watches the one session. */
  ghost predicate At(w: World, place: Location, refreshed: int, misses: nat) {
    && ReachedByAnswers(SETTING, 0, CONFIG, w) && Idle(w) && Watches(w.engine.table, misses)
    && w.engine.location == Some(place) && w.engine.lastRefresh == Some(refreshed)
  }

  function NextBase(w: World): Monitoring.Base {
    Monitoring.BaseOf(Monitoring.Reserved(w.engine))
  }

  function NextWorld(w: World, t: int, x: Exchange): World
    requires |x.replies.mms| == 2
  {
    Polled(0, CONFIG, w, ProbeOf(NextBase(w), t, x))
  }

  /** What such a poll does to the world. */
  lemma Advances(w: World, t: int, x: Exchange, l: Lookup, rows: Device -> seq<Observation>)
    requires ReachedByAnswers(SETTING, 0, CONFIG, w) && Idle(w) && MetBy(NextBase(w), t, x, l, rows)
    requires !Monitoring.AsksTwice(CONFIG, NextBase(w), ProbeOf(NextBase(w), t, x))
    ensures var next, probe := NextWorld(w, t, x), ProbeOf(NextBase(w), t, x);
            && ReachedByAnswers(SETTING, 0, CONFIG, next) && Idle(next)
            && next.engine.table
               == Monitoring.AfterPoll(w.engine.table, Monitoring.PollOf(CONFIG, NextBase(w), probe), 3)
            && Monitoring.CacheAfter(CONFIG, NextBase(w), probe).location == next.engine.location
            && Monitoring.CacheAfter(CONFIG, NextBase(w), probe).lastRefresh == next.engine.lastRefresh
  {
    PollIs(NextBase(w), t, x, l, rows);
    PolledIsReached(SETTING, 0, CONFIG, w, ProbeOf(NextBase(w), t, x));
  }

  const NOBODY: seq<string> := []
  const FIRST_HOST := ["10.0.1.1"]

  function MeetsFirst(): Exchange {
    Exchange(NOBODY, Says(CLEAR, FirstRows), 0)
  }

  /** The master now names both devices. */
  function MeetsLater(): Exchange {
    Exchange(FIRST_HOST, Says(DOUBTFUL, LaterRows), 0)
  }

  const FOUND_PLACE := Location(Some(HERE), None, Some("mm1"), false)
  const NO_PLACE := Location(None, None, Some("mm1"), false)

  lemma EmptyIsReached()
    ensures ReachedByAnswers(SETTING, 0, CONFIG, EMPTY)
  {
    assert Legal(0, CONFIG, EMPTY, []) && AllAnswered(SETTING, 0, CONFIG, EMPTY, [])
           && Execute(0, CONFIG, EMPTY, []) == EMPTY;
  }

  /** The first poll finds the session on the first device. */
  lemma FirstPoll()
    ensures At(NextWorld(EMPTY, 0, MeetsFirst()), FOUND_PLACE, 0, 0)
  {
    var base := NextBase(EMPTY);
    EmptyIsReached();
    assert MetBy(base, 0, MeetsFirst(), CLEAR, FirstRows);
    PollIs(base, 0, MeetsFirst(), CLEAR, FirstRows);
    Advances(EMPTY, 0, MeetsFirst(), CLEAR, FirstRows);
    PlaceTold(AskedAt(base, 0, MeetsFirst()), CLEAR);
    FirstTable(Monitoring.PollOf(CONFIG, base, ProbeOf(base, 0, MeetsFirst())));
  }

  lemma WatchesFirstHost(t: Table, misses: nat)
    requires Watches(t, misses)
    ensures forall h :: h in FIRST_HOST <==> h in Monitoring.RequiredHosts(t.at)
  {
    assert FLOW in t.at && "10.0.1.1" in t.at[FLOW].controllers;
  }

  lemma DoubtPlace()
    ensures LocationBy(SETTING.request, FirstMaster(DOUBTFUL)) == NO_PLACE
  {
    assert ClientIps(SETTING.request)[0] == CLIENT && FirstMaster(DOUBTFUL).lookup(CLIENT) == DOUBTFUL;
  }

  /** What a poll of this monitor meets when the answer is doubtful. */
  lemma LaterMet(w: World, place: Location, refreshed: int, t: int)
    requires At(w, place, refreshed, 0)
    requires t - refreshed >= 30 || place == NO_PLACE
    ensures MetBy(NextBase(w), t, MeetsLater(), DOUBTFUL, LaterRows)
    ensures AskedAt(NextBase(w), t, MeetsLater()).refresh <==> t - refreshed >= 30
    ensures !Monitoring.AsksTwice(CONFIG, NextBase(w), ProbeOf(NextBase(w), t, MeetsLater()))
  {
    WatchesFirstHost(w.engine.table, 0);
    NoRowsOnFirst();
    DoubtPlace();
    NoSecondMiss(w.engine.table, ProbeOf(NextBase(w), t, MeetsLater()).first);
  }

  lemma NoSecondMiss(t: Table, o: Outcome)
    requires Watches(t, 0)
    ensures !Monitoring.SecondMissPending(t.at, o)
  {
  }

  /** A poll that the later answers meet sees nothing; it hears of the ambiguity only when it refreshes the location. */
  lemma LaterPoll(w: World, place: Location, refreshed: int, t: int)
    requires At(w, place, refreshed, 0)
    requires t - refreshed >= 30 || place == NO_PLACE
    ensures var next := NextWorld(w, t, MeetsLater());
            var o := Monitoring.Concluded(CONFIG, NextBase(w), ProbeOf(NextBase(w), t, MeetsLater()));
            && (o.authoritative <==> t - refreshed < 30) && o.observations == []
            && At(next, NO_PLACE, if t - refreshed >= 30 then t else refreshed, if o.authoritative then 1 else 0)
  {
    var base, x := NextBase(w), MeetsLater();
    LaterMet(w, place, refreshed, t);
    NoRowsOnFirst();
    PollIs(base, t, x, DOUBTFUL, LaterRows);
    Advances(w, t, x, DOUBTFUL, LaterRows);
    PlaceTold(AskedAt(base, t, x), DOUBTFUL);
    QuietTable(w.engine.table, Monitoring.PollOf(CONFIG, base, ProbeOf(base, t, x)));
  }

  lemma NoRowsOnFirst()
    ensures LaterRows(Md('1')) == []
  {
    NamesApart('1', '2');
  }

  // ----- the absence that is counted -----

  /** The last lookup that was committed is unclear and names the device; the poll reports the doubt. */
  ghost predicate Doubted(s: Setting, config: Monitoring.Config, h: Happening, x: Exchange, d: Device) {
    && h.Committed? && FirstAnswered(s, config, h.p.base, h.probe, x)
    && !Monitoring.AsksTwice(config, h.p.base, h.probe)
    && h.p.result.refreshed && !h.p.result.outcome.authoritative
    && var selected := MmSelection(s.site.primary, s.site.standby, x.replies.mms);
       selected.Some?
       && var mm := MasterOf(s.site, selected.value, x.replies.mms[selected.value]);
          && h.p.location == Some(LocationBy(s.request, mm))
          && Unclear(mm.lookup(s.request.sourceIp)) && NamedDevice(s.site, s.request, mm, d)
  }

  /** A poll that reuses its location counts the absence of a session, and the device shows a row of it to everybody
      who asks. */
  ghost predicate Missed(s: Setting, config: Monitoring.Config, h: Happening, y: Exchange, d: Device, o: Observation) {
    && h.Committed? && FirstAnswered(s, config, h.p.base, h.probe, y) && !h.p.result.refreshed
    && h.p.result.outcome.authoritative
    && (exists e :: e in h.p.result.events && e.kind == MISSED && e.id.flow == o.flow)
    && y.replies.network(Candidate(d, s.request.sourceIp)).Output?
    && y.replies.network(Candidate(d, s.request.sourceIp)).parsed == Ok([o]) && Matches(s.request, o)
  }

  /** A run of the monitor in which the poll after an ambiguous lookup counts the absence of an active session,
      although that lookup had named a device that shows it. */
  ghost predicate FalselyMissed(s: Setting, owner: nat, config: Monitoring.Config, w: World, x: Exchange, y: Exchange,
                                d: Device, o: Observation) {
    && Configured(s.site) && ReachedByAnswers(s, owner, config, w) && d in EnabledOf(s.site.devices)
    && |w.log| >= 4 && w.log[|w.log| - 2].Began?
    && Doubted(s, config, w.log[|w.log| - 3], x, d) && Missed(s, config, w.log[|w.log| - 1], y, d, o)
    && w.log[|w.log| - 1].p.base.location == w.log[|w.log| - 3].p.location
    && o.flow in w.engine.table.at && w.engine.table.at[o.flow].misses == 1
  }

  /** What such a poll adds to the history. */
  lemma NextLog(w: World, t: int, x: Exchange)
    requires |x.replies.mms| == 2
    ensures var base, probe := NextBase(w), ProbeOf(NextBase(w), t, x);
            NextWorld(w, t, x).log
            == w.log + [Began(base.generation), Committed(Monitoring.Calculated(0, CONFIG, base, probe), probe)]
  {
  }

  lemma NamedAt(site: Site, request: Request, mm: Master, d: Device, ip: string, i: nat)
    requires ip in ClientIps(request) && i < |NamedBy(mm.lookup(ip))| && Serves(site, d, NamedBy(mm.lookup(ip))[i])
    ensures NamedDevice(site, request, mm, d)
  {
  }

  lemma NamedThere(d: Device)
    requires Serves(FOUR_MDS, d, THERE)
    ensures FirstMaster(DOUBTFUL).lookup(CLIENT) == DOUBTFUL
    ensures NamedDevice(FOUR_MDS, SETTING.request, FirstMaster(DOUBTFUL), d)
  {
    assert ClientIps(SETTING.request)[0] == CLIENT;
    NamedAt(FOUR_MDS, SETTING.request, FirstMaster(DOUBTFUL), d, CLIENT, 1);
  }

  lemma SecondIsNamed()
    ensures FirstMaster(DOUBTFUL).lookup(CLIENT) == DOUBTFUL
    ensures NamedDevice(FOUR_MDS, SETTING.request, FirstMaster(DOUBTFUL), Md('2'))
  {
    SwitchNames();
    ServesMd('2', '2', THERE);
    NamedThere(Md('2'));
  }

  lemma DoubtHeard()
    ensures MmSelection(FOUR_MDS.primary, FOUR_MDS.standby, MeetsLater().replies.mms) == Some(0)
    ensures FirstMaster(DOUBTFUL) == MasterOf(FOUR_MDS, 0, MeetsLater().replies.mms[0])
    ensures Unclear(DOUBTFUL)
  {
  }

  lemma SecondShows()
    ensures MeetsLater().replies.network(Candidate(Md('2'), CLIENT)) == Output(Ok([MOVED]), 0)
    ensures Matches(SETTING.request, MOVED) && MOVED.flow == FLOW
  {
    assert LaterRows(Md('2')) == [MOVED];
    ShownBy(DOUBTFUL, LaterRows, Candidate(Md('2'), CLIENT));
  }

  lemma ShownBy(l: Lookup, rows: Device -> seq<Observation>, c: Candidate)
    ensures Says(l, rows).network(c) == Output(Ok(rows(c.device)), 0)
  {
  }

  lemma DoubtedThen(w: World)
    requires At(w, FOUND_PLACE, 0, 0)
    ensures var next := NextWorld(w, 30, MeetsLater());
            |next.log| >= 2 && Doubted(SETTING, CONFIG, next.log[|next.log| - 1], MeetsLater(), Md('2'))
  {
    var base, x := NextBase(w), MeetsLater();
    NextLog(w, 30, x);
    LaterMet(w, FOUND_PLACE, 0, 30);
    LaterPoll(w, FOUND_PLACE, 0, 30);
    FirstPassIs(base, 30, x, DOUBTFUL, LaterRows);
    LaterResult(w, FOUND_PLACE, 0, 30);
    DoubtHeard();
    SecondIsNamed();
  }

  /** The result that such a poll reports. */
  lemma LaterResult(w: World, place: Location, refreshed: int, t: int)
    requires At(w, place, refreshed, 0)
    requires t - refreshed >= 30 || place == NO_PLACE
    ensures var p := Monitoring.Calculated(0, CONFIG, NextBase(w), ProbeOf(NextBase(w), t, MeetsLater()));
            && (p.result.refreshed <==> t - refreshed >= 30)
            && (p.result.outcome.authoritative <==> t - refreshed < 30)
            && p.location == Some(LocationBy(SETTING.request, FirstMaster(DOUBTFUL)))
  {
    LaterMet(w, place, refreshed, t);
    LaterPoll(w, place, refreshed, t);
    NextLog(w, t, MeetsLater());
    PollIs(NextBase(w), t, MeetsLater(), DOUBTFUL, LaterRows);
    DoubtPlace();
    QuietTable(w.engine.table, Monitoring.PollOf(CONFIG, NextBase(w), ProbeOf(NextBase(w), t, MeetsLater())));
  }

  lemma MissedThen(w: World)
    requires At(w, NO_PLACE, 30, 0)
    ensures var next := NextWorld(w, 31, MeetsLater());
            |next.log| >= 2 && Missed(SETTING, CONFIG, next.log[|next.log| - 1], MeetsLater(), Md('2'), MOVED)
  {
    var base, x := NextBase(w), MeetsLater();
    NextLog(w, 31, x);
    LaterMet(w, NO_PLACE, 30, 31);
    FirstPassIs(base, 31, x, DOUBTFUL, LaterRows);
    LaterResult(w, NO_PLACE, 30, 31);
    AbsenceCounted(w);
    SecondShows();
  }

  lemma AbsenceCounted(w: World)
    requires At(w, NO_PLACE, 30, 0)
    ensures var p := Monitoring.Calculated(0, CONFIG, NextBase(w), ProbeOf(NextBase(w), 31, MeetsLater()));
            exists e :: e in p.result.events && e.kind == MISSED && e.id.flow == FLOW
  {
    var poll := Monitoring.PollOf(CONFIG, NextBase(w), ProbeOf(NextBase(w), 31, MeetsLater()));
    var t := w.engine.table;
    LaterPoll(w, NO_PLACE, 30, 31);
    QuietTable(t, poll);
    ReachedCoherent(w);
    var e := LifecycleHistory.AbsenceEvent(t.at[FLOW], 3, poll.now);
    assert FLOW in t.at && !LifecycleHistory.Sighted(poll, FLOW);
    LifecycleHistory.AbsenceEvents(t, poll, 3, e);
    assert e in Monitoring.PollEvents(t, poll, 3) && e.kind == MISSED;
  }

  lemma ReachedCoherent(w: World)
    requires ReachedByAnswers(SETTING, 0, CONFIG, w)
    ensures Coherent(w.engine.table)
  {
    var run :| Legal(0, CONFIG, EMPTY, run) && AllAnswered(SETTING, 0, CONFIG, EMPTY, run)
               && Execute(0, CONFIG, EMPTY, run) == w;
    CommittedStateIsHistory(0, CONFIG, w);
    LifecycleHistory.HistoryCoherent(PollsOf(CONFIG, w.log), 3);
  }

  /** The entries that two more polls add, seen from the end. */
  lemma LogAfterTwo(first: World, x: Exchange)
    requires |x.replies.mms| == 2
    ensures var second := NextWorld(first, 30, x);
            var third := NextWorld(second, 31, x);
            && |third.log| == |first.log| + 4 && |second.log| == |first.log| + 2
            && third.log[|third.log| - 3] == second.log[|second.log| - 1]
            && third.log[|third.log| - 2].Began? && third.log[|third.log| - 1].Committed?
            && third.log[|third.log| - 1].p.base.location == second.engine.location
  {
    NextLog(first, 30, x);
    NextLog(NextWorld(first, 30, x), 31, x);
  }

  /** Two polls after the first one. */
  lemma TwoMorePolls(first: World)
    requires At(first, FOUND_PLACE, 0, 0)
    ensures var second := NextWorld(first, 30, MeetsLater());
            var third := NextWorld(second, 31, MeetsLater());
            && ReachedByAnswers(SETTING, 0, CONFIG, third) && Watches(third.engine.table, 1)
            && second.engine.location == Some(NO_PLACE) && second.log != [] && third.log != []
            && Doubted(SETTING, CONFIG, second.log[|second.log| - 1], MeetsLater(), Md('2'))
            && second.log[|second.log| - 1].p.location == Some(NO_PLACE)
            && Missed(SETTING, CONFIG, third.log[|third.log| - 1], MeetsLater(), Md('2'), MOVED)
  {
    LaterPoll(first, FOUND_PLACE, 0, 30);
    DoubtedThen(first);
    DoubtKept(first);
    ThirdPoll(NextWorld(first, 30, MeetsLater()));
  }

  lemma DoubtKept(first: World)
    requires At(first, FOUND_PLACE, 0, 0)
    ensures var second := NextWorld(first, 30, MeetsLater());
            second.log != [] && second.log[|second.log| - 1].Committed?
            && second.log[|second.log| - 1].p.location == Some(NO_PLACE)
  {
    NextLog(first, 30, MeetsLater());
    LaterResult(first, FOUND_PLACE, 0, 30);
    DoubtPlace();
  }

  lemma ThirdPoll(second: World)
    requires At(second, NO_PLACE, 30, 0)
    ensures var third := NextWorld(second, 31, MeetsLater());
            && ReachedByAnswers(SETTING, 0, CONFIG, third) && Watches(third.engine.table, 1) && third.log != []
            && Missed(SETTING, CONFIG, third.log[|third.log| - 1], MeetsLater(), Md('2'), MOVED)
  {
    LaterPoll(second, NO_PLACE, 30, 31);
    MissedThen(second);
  }

  lemma SecondIsEnabled()
    ensures Configured(FOUR_MDS) && Md('2') in EnabledOf(FOUR_MDS.devices)
  {
    FourMdsSmall();
    MdAt(1);
    assert DEVICES[1] in DEVICES;
  }

  /** Such a run exists: the session is found on one device, an ambiguous answer names that one and another, and the
      poll after it counts the absence of the session, which the other device shows. */
  lemma ReusedDoubtMisses()
    ensures exists w, x, y, d, o :: FalselyMissed(SETTING, 0, CONFIG, w, x, y, d, o)
  {
    var x := MeetsLater();
    FirstPoll();
    TwoMorePolls(NextWorld(EMPTY, 0, MeetsFirst()));
    LogAfterTwo(NextWorld(EMPTY, 0, MeetsFirst()), x);
    SecondIsEnabled();
    SecondShows();
    var third := NextWorld(NextWorld(NextWorld(EMPTY, 0, MeetsFirst()), 30, x), 31, x);
    assert FalselyMissed(SETTING, 0, CONFIG, third, x, x, Md('2'), MOVED);
  }
}
