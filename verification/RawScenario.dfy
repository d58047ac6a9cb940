/**
 A poll of two passes whose answers are all within the limit of the SSH collector (4 MiB, see
 src/aruba_session_tracker/collectors/ssh.py:55), and which still cannot be stored.
 */
module RawScenario {
  import opened Wrappers
  import opened Addresses
  import opened Outcomes
  import opened RawBundle
  import opened Topology
  import opened Lifecycle
  import opened Sessions
  import opened Tracker
  import opened TrackerServices
  import opened PollAnswers
  import opened OutputLimits
  import opened RawLimits
  import opened Digits
  import Monitoring = MonitorEngines

  // ----- the sizes of snapshots that own nothing -----

  /** JSON spends at most twelve bytes on a character. */
  ghost predicate Json(e: Encoding) {
    forall s :: e.quoted(s) <= 12 * |s| + 2
  }

  function OutputBytes(raw: seq<Raw>): nat {
    if raw == [] then 0 else OutputBytes(raw[..|raw| - 1]) + raw[|raw| - 1].output
  }

  lemma {:induction false} SizeCoversOutputs(e: Encoding, raw: seq<Raw>)
    ensures PersistedSize(e, raw) >= OutputBytes(raw)
  {
    if raw != [] {
      SizeCoversOutputs(e, raw[..|raw| - 1]);
      SizeGrows(e, raw[..|raw| - 1], raw[|raw| - 1]);
      assert raw == raw[..|raw| - 1] + [raw[|raw| - 1]];
    }
  }

  lemma {:induction false} OutputsConcat(a: seq<Raw>, b: seq<Raw>)
    ensures OutputBytes(a + b) == OutputBytes(a) + OutputBytes(b)
  {
    if b == [] {
      assert a + b == a;
    } else {
      assert (a + b)[..|a + b| - 1] == a + b[..|b| - 1];
      OutputsConcat(a, b[..|b| - 1]);
    }
  }

  /** A snapshot of a full answer, with short names and no keys. */
  predicate Long(r: Raw) {
    |r.device| <= 20 && |r.command| <= 60 && r.output == MAX_OUTPUT_BYTES && r.keys == Some([])
  }

  predicate AllLong(raw: seq<Raw>) {
    forall i :: 0 <= i < |raw| ==> Long(raw[i])
  }

  lemma {:induction false} LongOutputs(raw: seq<Raw>)
    requires AllLong(raw)
    ensures OutputBytes(raw) == MAX_OUTPUT_BYTES * |raw|
  {
    if raw != [] {
      LongOutputs(raw[..|raw| - 1]);
    }
  }

  lemma {:induction false} DecimalIsShort(n: nat)
    ensures |Decimal(n)| <= 1 + n / 10
  {
    if n >= 10 {
      DecimalIsShort(n / 10);
    }
  }

  lemma SectionIsSmall(e: Encoding, r: Raw, index: nat)
    requires Json(e) && Long(r) && index <= 5
    ensures SectionBytes(e, r, index) <= 5_242_880
  {
    DecimalIsShort(r.output);
    DecimalIsShort(index);
  }

  lemma {:induction false} SectionsAreSmall(e: Encoding, raw: seq<Raw>)
    requires Json(e) && AllLong(raw) && |raw| <= 5
    ensures SectionsBytes(e, raw) <= 5_242_880 * |raw|
  {
    if raw != [] {
      var init, last := raw[..|raw| - 1], raw[|raw| - 1];
      SectionsAreSmall(e, init);
      SectionIsSmall(e, last, |raw|);
      assert SectionsBytes(e, raw) == SectionsBytes(e, init) + SectionBytes(e, last, |raw|);
    }
  }

  lemma PrefixIsSmall(count: nat)
    requires count <= 5
    ensures PrefixBytes(count) <= 100
  {
    DecimalIsShort(count);
  }

  /** Five full answers can be stored together. */
  lemma FiveFit(e: Encoding, raw: seq<Raw>)
    requires Json(e) && AllLong(raw) && |raw| <= 5
    ensures PersistedSize(e, raw) <= MAX_POLL_RAW_BYTES
  {
    if |raw| > 1 {
      SectionsAreSmall(e, raw);
      PrefixIsSmall(|raw|);
      assert PersistedSize(e, raw) == PrefixBytes(|raw|) + SectionsBytes(e, raw);
    }
  }

  // ----- a pass in which everybody answers at full length, and nobody sees anything -----

  function Quiet(): Replies {
    var mm := MmAnswered(_ => Lookup(NOT_FOUND, []), _ => MAX_OUTPUT_BYTES);
    Replies([mm, mm], Approved, _ => Output(Ok([]), MAX_OUTPUT_BYTES))
  }

  function QuietRaw(candidates: seq<Candidate>): (raw: seq<Raw>)
    ensures |raw| == |candidates|
  {
    seq(|candidates|, i requires 0 <= i < |candidates| => MdSnapshot(candidates[i], MAX_OUTPUT_BYTES, []))
  }

  lemma {:induction false} QuietRows(request: Request, candidates: seq<Candidate>, earlier: seq<Raw>)
    ensures RowCount(candidates, Quiet().network) == 0 && FullRows(request, candidates, Quiet().network) == []
    ensures FullRaw(request, candidates, Quiet().network, earlier) == earlier + QuietRaw(candidates)
  {
    if candidates != [] {
      var init, c := candidates[..|candidates| - 1], candidates[|candidates| - 1];
      QuietRows(request, init, earlier);
      assert KeysOf([]) == [];
      assert QuietRaw(candidates) == QuietRaw(init) + [MdSnapshot(c, MAX_OUTPUT_BYTES, [])];
    }
  }

  /** A query of all the devices: the location was a full scan, cached or found anew. */
  predicate Scans(site: Site, q: Query) {
    && q.request.destinationIp == "" && 0 < |q.request.sourceIp| <= 15
    && (forall h :: h in q.required ==> HasHost(EnabledOf(site.devices), h))
    && if q.refresh then q.allowFullScan && q.fallback == []
       else && q.cached == Some(Location(None, None, Some(site.primary.name), true))
            && q.fallback == EnabledOf(site.devices)
  }

  /** Four devices and a mobility master, with short names. */
  ghost predicate Small(site: Site) {
    && Configured(site) && site.primary.enabled && |EnabledOf(site.devices)| == 4
    && |site.primary.name| <= 20 && forall d :: d in EnabledOf(site.devices) ==> |d.name| <= 20
  }

  function QuietMaster(site: Site): Master {
    MasterOf(site, 0, Quiet().mms[0])
  }

  /** What the master answers for the one entered address. */
  function MasterRaw(site: Site, q: Query): seq<Raw> {
    if q.refresh then [MmSnapshot(QuietMaster(site), q.request.sourceIp)] else []
  }

  lemma QuietLocated(site: Site, q: Query, b: Budget)
    requires Small(site) && Scans(site, q) && Tracker.WithinLimits(b)
    requires Json(b.encoding) && b.maxRaw == MAX_POLL_RAW_BYTES
    ensures var w := LocatedBy(site, q, Quiet(), b);
            w.location == Some(Location(None, None, Some(site.primary.name), true)) && w.raw == MasterRaw(site, q)
  {
    if q.refresh {
      QuietAsked(site, q, b);
      QuietRead(site, q, b);
      QuietLocation(site, q);
    }
  }

  lemma QuietAsked(site: Site, q: Query, b: Budget)
    requires Small(site) && Scans(site, q) && q.refresh
    ensures var r := ReadIps([q.request.sourceIp], QuietMaster(site), b);
            LocatedBy(site, q, Quiet(), b)
            == Located(if r.ok then Some(LocationBy(q.request, QuietMaster(site))) else None, r.diagnostics, r.raw,
                       r.budget)
  {
    var r := ReadIps([q.request.sourceIp], QuietMaster(site), b);
    MasterAnswers(site, q);
    assert [] + r.diagnostics == r.diagnostics;
  }

  lemma QuietLocation(site: Site, q: Query)
    requires Scans(site, q)
    ensures LocationBy(q.request, QuietMaster(site)) == Location(None, None, Some(site.primary.name), true)
  {
  }

  lemma QuietWellLocated(site: Site, q: Query, b: Budget)
    requires Small(site) && Scans(site, q) && Tracker.WithinLimits(b)
    requires Json(b.encoding) && b.maxRaw == MAX_POLL_RAW_BYTES
    ensures WellLocated(site, q, Quiet(), b)
  {
    if q.refresh {
      MasterAnswers(site, q);
      QuietRead(site, q, b);
      assert QuietMaster(site) == MasterOf(site, 0, Quiet().mms[0]);
      assert !Unclear(QuietMaster(site).lookup(q.request.sourceIp));
    }
  }

  lemma MasterAnswers(site: Site, q: Query)
    requires Small(site) && Scans(site, q)
    ensures ClientIps(q.request) == [q.request.sourceIp]
    ensures MmSelection(site.primary, site.standby, Quiet().mms) == Some(0)
    ensures MmDiagnostics(site.primary, site.standby, Quiet().mms) == []
  {
  }

  lemma QuietRead(site: Site, q: Query, b: Budget)
    requires Small(site) && Scans(site, q) && q.refresh && Tracker.WithinLimits(b)
    requires Json(b.encoding) && b.maxRaw == MAX_POLL_RAW_BYTES
    ensures var r := ReadIps([q.request.sourceIp], QuietMaster(site), b);
            && r.ok && r.raw == MasterRaw(site, q) == MmSnapshots(QuietMaster(site), [q.request.sourceIp])
            && Stores(b, MasterRaw(site, q))
  {
    var mm, ips := QuietMaster(site), [q.request.sourceIp];
    MasterSnapshot(mm, q.request.sourceIp);
    assert AllLong(MasterRaw(site, q));
    FiveFit(b.encoding, MasterRaw(site, q));
    ReadingOkIff(ips, mm, b);
    ReadingOwns(ips, mm, b);
  }

  lemma MasterSnapshot(mm: Master, ip: string)
    ensures MmSnapshots(mm, [ip]) == [MmSnapshot(mm, ip)]
  {
    assert [ip][..0] == [] && [] + [MmSnapshot(mm, ip)] == [MmSnapshot(mm, ip)];
  }

  lemma {:induction false} AsManyAs(s: seq<Device>, t: seq<Device>)
    requires DistinctDevices(s) && DistinctDevices(t) && forall d :: d in s <==> d in t
    ensures |s| == |t|
  {
    SizeOfDistinct(s);
    SizeOfDistinct(t);
    assert (set d | d in s) == (set d | d in t);
  }

  lemma {:induction false} SizeOfDistinct(s: seq<Device>)
    requires DistinctDevices(s)
    ensures |set d | d in s| == |s|
  {
    if s != [] {
      var init, last := s[..|s| - 1], s[|s| - 1];
      assert s == init + [last];
      SizeOfDistinct(init);
      assert (set d | d in s) == (set d | d in init) + {last};
    }
  }

  lemma QuietRouted(site: Site, q: Query, cursor: nat)
    requires Small(site) && Scans(site, q)
    ensures var l := Location(None, None, Some(site.primary.name), true);
            var r := RouteOf(site, q, l, Approved, cursor);
            WellRouted(site, q, l, Approved) && r.route.Ok? && !RoutingDoubt(r.doubts) && |r.route.value| == 4
  {
    var l, enabled := Location(None, None, Some(site.primary.name), true), EnabledOf(site.devices);
    RouteFoundIff(site, q, l, Approved, cursor);
    assert WellRouted(site, q, l, Approved);
    var asked := RouteOf(site, q, l, Approved, cursor).route.value;
    RouteSound(site, q, l, Approved, cursor);
    RouteCovers(site, q, l, Approved, cursor);
    EnabledDistinct(enabled, site.norm);
    AsManyAs(DevicesOf(asked), enabled);
  }

  /** Everybody is asked, and all the answers can be stored. */
  lemma QuietStored(site: Site, q: Query, b: Budget, cursor: nat)
    requires Small(site) && Scans(site, q) && Tracker.WithinLimits(b)
    requires Json(b.encoding) && b.maxRaw == MAX_POLL_RAW_BYTES
    ensures var asked := Queried(site, q, Quiet(), b, cursor).asked;
            var raw := MasterRaw(site, q) + QuietRaw(asked);
            |asked| == 4 && AllLong(raw) && Stores(b, raw)
  {
    QuietLocated(site, q, b);
    QuietRouted(site, q, cursor);
    QuietRawIsLong(site, q, cursor);
    FiveFit(b.encoding, MasterRaw(site, q) + QuietRaw(Queried(site, q, Quiet(), b, cursor).asked));
  }

  /** Such a pass is authoritative, sees nothing, and keeps every answer. */
  lemma QuietPass(site: Site, q: Query, b: Budget, cursor: nat)
    requires Small(site) && Scans(site, q) && Tracker.WithinLimits(b)
    requires Json(b.encoding) && b.maxRaw == MAX_POLL_RAW_BYTES
    ensures var o := Queried(site, q, Quiet(), b, cursor).outcome;
            && o.authoritative && o.observations == [] && AllLong(o.raw)
            && |o.raw| == if q.refresh then 5 else 4
  {
    var asked := Queried(site, q, Quiet(), b, cursor).asked;
    QuietLocated(site, q, b);
    QuietWellLocated(site, q, b);
    QuietRouted(site, q, cursor);
    QuietStored(site, q, b, cursor);
    QuietRows(q.request, asked, MasterRaw(site, q));
    QuietInFull(asked);
    AuthoritativeIff(site, q, Quiet(), b, cursor);
    AuthoritativeKeepsAll(site, q, Quiet(), b, cursor);
  }

  lemma QuietInFull(candidates: seq<Candidate>)
    ensures AllInFull(candidates, Quiet().network)
  {
  }

  lemma QuietRawIsLong(site: Site, q: Query, cursor: nat)
    requires Small(site) && Scans(site, q)
    ensures var l := Location(None, None, Some(site.primary.name), true);
            var r := RouteOf(site, q, l, Approved, cursor).route;
            r.Ok? && AllLong(MasterRaw(site, q) + QuietRaw(r.value))
  {
    var l := Location(None, None, Some(site.primary.name), true);
    QuietRouted(site, q, cursor);
    RouteSound(site, q, l, Approved, cursor);
    var asked := RouteOf(site, q, l, Approved, cursor).route.value;
    forall i | 0 <= i < |asked| ensures Long(QuietRaw(asked)[i]) {
      assert DevicesOf(asked)[i] in EnabledOf(site.devices);
      assert asked[i].filterIp in ClientIps(q.request);
    }
  }

  // ----- the poll -----

  /** The merged poll of two such passes cannot be stored. */
  lemma NineExceed(e: Encoding, first: Outcome, second: Outcome)
    requires first.observations == [] == second.observations && AllLong(first.raw) && AllLong(second.raw)
    requires |first.raw| == 4 && |second.raw| == 5
    ensures PersistedSize(e, Merge(first, second).raw) > MAX_POLL_RAW_BYTES
  {
    MergedRawOfNothing(first, second);
    LongOutputs(first.raw);
    LongOutputs(second.raw);
    OutputsConcat(first.raw, second.raw);
    SizeCoversOutputs(e, first.raw + second.raw);
  }

  /** A monitor whose location was found by a full scan of its four devices, and is still fresh; one session was
      missed once. */
  predicate MissedOnce(s: Setting, config: Monitoring.Config, base: Monitoring.Base, startedAt: int) {
    && s.request.destinationIp == "" && 0 < |s.request.sourceIp| <= 15
    && base.location == Some(Location(None, None, Some(s.site.primary.name), true))
    && base.fallback == EnabledOf(s.site.devices)
    && base.lastRefresh.Some? && startedAt - base.lastRefresh.value < config.locationInterval
    && (exists f :: f in base.table.at && base.table.at[f].misses == 1)
    && forall h :: h in Monitoring.RequiredHosts(base.table.at) ==> HasHost(EnabledOf(s.site.devices), h)
  }

  /** The first pass sees nothing, and so leaves the second miss pending. */
  lemma FirstPassQuiet(s: Setting, config: Monitoring.Config, base: Monitoring.Base, probe: Monitoring.Probe,
                       x: Exchange)
    requires Small(s.site) && Json(s.encoding) && MissedOnce(s, config, base, probe.startedAt)
    requires x.replies == Quiet() && FirstAnswered(s, config, base, probe, x)
    ensures Monitoring.AsksTwice(config, base, probe)
    ensures probe.first.observations == [] && AllLong(probe.first.raw) && |probe.first.raw| == 4
  {
    QuietPass(s.site, QueryOf(s, FirstQuery(config, base, probe), x.hosts), NewBudget(s), x.cursor);
    LeavesSecondMiss(base, probe.first);
  }

  lemma LeavesSecondMiss(base: Monitoring.Base, o: Outcome)
    requires o.observations == [] && exists f :: f in base.table.at && base.table.at[f].misses == 1
    ensures Monitoring.SecondMissPending(base.table.at, o)
  {
    var f :| f in base.table.at && base.table.at[f].misses == 1;
    assert f !in FlowsOf(o.observations);
  }

  lemma SecondPassQuiet(s: Setting, config: Monitoring.Config, base: Monitoring.Base, probe: Monitoring.Probe,
                        x: Exchange)
    requires Small(s.site) && Json(s.encoding) && MissedOnce(s, config, base, probe.startedAt)
    requires x.replies == Quiet() && FirstAnswered(s, config, base, probe, x)
    ensures var poll := Continued(s, config, base, probe, x, x);
            && BothAnswered(s, config, base, poll, x, x)
            && poll.second.observations == [] && AllLong(poll.second.raw) && |poll.second.raw| == 5
  {
    QueryWithinBudget(s.site, QueryOf(s, FirstQuery(config, base, probe), x.hosts), Quiet(), NewBudget(s), x.cursor);
    QuietPass(s.site, QueryOf(s, SecondQuery(base), x.hosts), Left(s, config, base, probe, x), x.cursor);
  }

  lemma QuietIsShort()
    ensures AnswersWithin(Quiet(), MAX_OUTPUT_BYTES)
  {
  }

  /** Whatever the monitor saw before, its next poll can exceed the limit with answers of 4 MiB: the four devices are
      asked twice, and the mobility master once. */
  lemma LongAnswersExceed(s: Setting, config: Monitoring.Config, base: Monitoring.Base, probe: Monitoring.Probe,
                          x: Exchange)
    requires Small(s.site) && Json(s.encoding) && MissedOnce(s, config, base, probe.startedAt)
    requires x.replies == Quiet() && FirstAnswered(s, config, base, probe, x)
    ensures var poll := Continued(s, config, base, probe, x, x);
            && AnswersWithin(x.replies, MAX_OUTPUT_BYTES) && BothAnswered(s, config, base, poll, x, x)
            && PersistedSize(s.encoding, Monitoring.Concluded(config, base, poll).raw) > MAX_POLL_RAW_BYTES
  {
    QuietIsShort();
    FirstPassQuiet(s, config, base, probe, x);
    SecondPassQuiet(s, config, base, probe, x);
    ConcludedTwice(s, config, base, probe, x, x);
    NineExceed(s.encoding, probe.first, Continued(s, config, base, probe, x, x).second);
  }

  // ----- one such monitor -----

  const PLAIN := Unicode(c => c == ' ', c => [c])
  const DIGITS := "1234"

  function Md(d: char): Device {
    Device("md" + [d], "10.0.1." + [d], 22, true)
  }

  const DEVICES := [Md('1'), Md('2'), Md('3'), Md('4')]
  const FOUR_MDS := Site(Device("mm1", "10.0.0.1", 22, true), Device("mm2", "10.0.0.2", 22, false), DEVICES, PLAIN)
  const SETTING := Setting(FOUR_MDS, Request("10.9.0.1", "", None, None, false), Encoding(s => 12 * |s| + 2, _ => 64))
  const CONFIG := Monitoring.Config(DEVICES, 30, 3)

  const FLOW := Flow(6, "10.9.0.1", "10.9.0.2", 1024, 443)
  const ROW := Observation("md1", "10.0.1.1", FLOW, "1/1", Some(1), Some(64), "C")
  const SESSION := Session(Instance(1, FLOW), 0, 0, 1, ROW, map["10.0.1.1" := ROW], Some(ROW))
  const BASE := Monitoring.Base(3, 0, Some(Location(None, None, Some("mm1"), true)), Some(0), 1, 0,
                                Table([FLOW], map[FLOW := SESSION]), DEVICES)

  lemma {:induction false} PlainFold(s: string)
    ensures FoldAll(PLAIN, s) == s
  {
    if s != "" {
      PlainFold(s[1..]);
      assert s == [s[0]] + s[1..];
    }
  }

  lemma PlainNormal(s: string)
    requires s != "" && s[0] != ' ' && s[|s| - 1] != ' ' && s[|s| - 1] != '.'
    ensures NormalizeSwitch(PLAIN, s) == s
  {
    PlainFold(s);
  }

  lemma {:induction false} WholeLabel(s: string)
    requires '.' !in s
    ensures FirstLabel(s) == s
  {
    if s != "" {
      WholeLabel(s[1..]);
      assert s == [s[0]] + s[1..];
    }
  }

  lemma TokensOfMd(d: char)
    requires IsDigit(d)
    ensures Labels(Md(d), FOUR_MDS.norm) == {"md" + [d], "10.0.1." + [d]} == TokensOf(Md(d), FOUR_MDS.norm)
    ensures FOUR_MDS.norm(Md(d).name) == Md(d).name
  {
    var name, host := "md" + [d], "10.0.1." + [d];
    assert name[0] == 'm' && name[2] == d && host[0] == '1' && host[7] == d;
    PlainNormal(name);
    PlainNormal(host);
    WholeLabel(name);
  }

  lemma NamesApart(a: char, b: char)
    requires a != b
    ensures "md" + [a] != "md" + [b] && "10.0.1." + [a] != "10.0.1." + [b] && "md" + [a] != "10.0.1." + [b]
  {
    assert ("md" + [a])[2] == a && ("md" + [b])[2] == b;
    assert ("10.0.1." + [a])[7] == a && ("10.0.1." + [b])[7] == b;
    assert |"md" + [a]| == 3 && |"10.0.1." + [b]| == 8;
  }

  lemma MdsCompatible(a: char, b: char)
    requires IsDigit(a) && IsDigit(b) && a != b
    ensures Compatible(Md(a), Md(b), FOUR_MDS.norm)
  {
    TokensOfMd(a);
    TokensOfMd(b);
    NamesApart(a, b);
    NamesApart(b, a);
  }

  lemma {:induction false} AllEnabled(devices: seq<Device>)
    requires forall i :: 0 <= i < |devices| ==> devices[i].enabled
    ensures EnabledOf(devices) == devices
  {
    if devices != [] {
      AllEnabled(devices[..|devices| - 1]);
      assert devices == devices[..|devices| - 1] + [devices[|devices| - 1]];
    }
  }

  lemma MdAt(i: nat)
    requires i < 4
    ensures DEVICES[i] == Md(DIGITS[i]) && IsDigit(DIGITS[i])
  {
  }

  lemma FourMdsValid()
    ensures ValidTopology(DEVICES, FOUR_MDS.norm)
  {
    forall i, j | 0 <= i < j < |DEVICES| ensures Compatible(DEVICES[i], DEVICES[j], FOUR_MDS.norm) {
      MdAt(i);
      MdAt(j);
      MdsCompatible(DIGITS[i], DIGITS[j]);
    }
  }

  lemma FourMdsEnabled()
    ensures EnabledOf(DEVICES) == DEVICES && forall d :: d in DEVICES ==> |d.name| <= 20
  {
    forall i | 0 <= i < |DEVICES| ensures DEVICES[i].enabled && |DEVICES[i].name| <= 20 {
      MdAt(i);
    }
    AllEnabled(DEVICES);
  }

  lemma FourMdsSmall()
    ensures Small(FOUR_MDS) && EnabledOf(FOUR_MDS.devices) == DEVICES
  {
    FourMdsEnabled();
    FourMdsValid();
    assert Ordinary(PLAIN);
  }

  lemma FirstMdThere()
    ensures HasHost(DEVICES, "10.0.1.1")
  {
    MdAt(0);
    assert DEVICES[0].host == "10.0.1." + ['1'] == "10.0.1.1";
  }

  lemma SessionMissedOnce()
    ensures MissedOnce(SETTING, CONFIG, BASE, 1)
  {
    FourMdsEnabled();
    FirstMdThere();
    OneRequired();
    assert FLOW in BASE.table.at && BASE.table.at[FLOW].misses == 1;
  }

  lemma OneRequired()
    ensures forall h :: h in ["10.0.1.1"] <==> h in Monitoring.RequiredHosts(BASE.table.at)
  {
    assert FLOW in BASE.table.at && BASE.table.at[FLOW] == SESSION && "10.0.1.1" in SESSION.controllers;
  }

  /** One poll of two passes, with answers of 4 MiB, that cannot be stored. */
  lemma TwoPassesExceed()
    ensures exists s: Setting, config: Monitoring.Config, base: Monitoring.Base, poll: Monitoring.Probe, x: Exchange ::
              && Configured(s.site) && BothAnswered(s, config, base, poll, x, x)
              && AnswersWithin(x.replies, MAX_OUTPUT_BYTES)
              && PersistedSize(s.encoding, Monitoring.Concluded(config, base, poll).raw) > MAX_POLL_RAW_BYTES
  {
    var x := Exchange(["10.0.1.1"], Quiet(), 0);
    FourMdsSmall();
    SessionMissedOnce();
    OneRequired();
    var nothing := Stopped(None, [], []);
    var start := Monitoring.Probe(1, nothing, 1, nothing, 1, 1);
    var q := FirstQuery(CONFIG, BASE, start);
    var probe := start.(first := Pass(SETTING, q, x, NewBudget(SETTING)).outcome);
    assert FirstQuery(CONFIG, BASE, probe) == q;
    assert FirstAnswered(SETTING, CONFIG, BASE, probe, x);
    LongAnswersExceed(SETTING, CONFIG, BASE, probe, x);
  }
}
