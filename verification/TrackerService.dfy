/**
 Routing and assembly of one query (`TrackerService.query_once` in
 src/aruba_session_tracker/services/tracker.py:171-557 and 724-735).

 `Queried` says what one query answers, given the replies of the network; `TrackerService` performs it with
 its loops and its cursor, and the lemmas between them say what the answer is worth.
 */
module TrackerServices {
  import opened Wrappers
  import opened Addresses
  import opened Outcomes
  import opened RawBundle
  import opened Topology
  import opened Tracker

  datatype Approval = Approved | Declined | Interrupted(code: Code, retryable: bool)

  lemma {:induction false} DedupedSound<T>(s: seq<T>)
    ensures forall x :: x in Deduped(s) <==> x in s
    ensures forall i, j :: 0 <= i < j < |Deduped(s)| ==> Deduped(s)[i] != Deduped(s)[j]
  {
    if s != [] {
      DedupedSound(s[..|s| - 1]);
      assert s == s[..|s| - 1] + [s[|s| - 1]];
    }
  }

  function WithHost(devices: seq<Device>, host: string): seq<Device> {
    if devices == [] then []
    else
      var rest := WithHost(devices[..|devices| - 1], host);
      if devices[|devices| - 1].host == host then rest + [devices[|devices| - 1]] else rest
  }

  lemma {:induction false} WithHostSound(devices: seq<Device>, host: string)
    ensures forall d :: d in WithHost(devices, host) <==> d in devices && d.host == host
  {
    if devices != [] {
      WithHostSound(devices[..|devices| - 1], host);
      assert devices == devices[..|devices| - 1] + [devices[|devices| - 1]];
    }
  }

  predicate DistinctDevices(devices: seq<Device>) {
    forall i, j :: 0 <= i < j < |devices| ==> devices[i] != devices[j]
  }

  predicate AllIn(devices: seq<Device>, all: seq<Device>) {
    forall i :: 0 <= i < |devices| ==> devices[i] in all
  }

  function DevicesOf(candidates: seq<Candidate>): (devices: seq<Device>)
    ensures |devices| == |candidates| && forall i :: 0 <= i < |candidates| ==> devices[i] == candidates[i].device
  {
    seq(|candidates|, i requires 0 <= i < |candidates| => candidates[i].device)
  }

  function WithFilter(devices: seq<Device>, ip: string): (candidates: seq<Candidate>)
    ensures DevicesOf(candidates) == devices
    ensures forall i :: 0 <= i < |candidates| ==> candidates[i].filterIp == ip
  {
    seq(|devices|, i requires 0 <= i < |devices| => Candidate(devices[i], ip))
  }

  /** Different enabled devices of a valid topology have different hosts. */
  lemma HostsOfEnabled(all: seq<Device>, candidates: seq<Candidate>, norm: string -> string)
    requires ValidTopology(all, norm) && AllIn(DevicesOf(candidates), all) && DistinctDevices(DevicesOf(candidates))
    ensures DistinctHosts(candidates)
  {
    forall i, j | 0 <= i < j < |candidates| ensures candidates[i].device.host != candidates[j].device.host {
      var a, b := DevicesOf(candidates)[i], DevicesOf(candidates)[j];
      var m :| 0 <= m < |all| && all[m] == a;
      var n :| 0 <= n < |all| && all[n] == b;
      assert Compatible(all[if m < n then m else n], all[if m < n then n else m], norm);
    }
  }

  /** The outcome of a query that stops before it asks a device. */
  function Stopped(location: Option<Location>, diagnostics: seq<Diagnostic>, raw: seq<Raw>): Outcome {
    if location.None? then Outcome([], diagnostics, None, [], raw, None, None, false, false)
    else
      var l := location.value;
      Outcome([], diagnostics, l.usedMm, [], raw, l.source, l.destination, l.fullScan, false)
  }

  // ----- what one query answers -----

  datatype Site = Site(primary: Device, standby: Device, devices: seq<Device>, unicode: Unicode) {
    const norm := Normalizer(unicode)
  }

  /** What the validation of the configuration establishes (see `ValidateTopology`), with digits and dots as usual. */
  ghost predicate Configured(site: Site) {
    && Ordinary(site.unicode) && ValidTopology(EnabledOf(site.devices), site.norm)
    && EnabledOf(site.devices) != [] && (site.primary.enabled || site.standby.enabled)
  }

  datatype Query = Query(
    request: Request, cached: Option<Location>, refresh: bool, allowFullScan: bool, fallback: seq<Device>,
    required: seq<string>)

  /** Everything that is not known before the query: the masters, the operator and the devices. */
  datatype Replies = Replies(mms: seq<MmAnswer>, approval: Approval, network: Network)

  predicate Askable(q: Query, replies: Replies) {
    Wellformed(q.request) && |replies.mms| == 2
  }

  datatype Located = Located(location: Option<Location>, diagnostics: seq<Diagnostic>, raw: seq<Raw>, budget: Budget)

  /** The mobility master that answered. */
  function MasterOf(site: Site, i: nat, answer: MmAnswer): Master
    requires answer.MmAnswered?
  {
    Master(if i == 0 then site.primary.name else site.standby.name, answer.lookup, answer.output)
  }

  /** The cached location, or what `_resolve_locations` finds. */
  function LocatedBy(site: Site, q: Query, replies: Replies, b: Budget): Located
    requires Askable(q, replies)
  {
    if !q.refresh && q.cached.Some? then Located(q.cached, [], [], b)
    else
      var selected := MmSelection(site.primary, site.standby, replies.mms);
      var failures := MmDiagnostics(site.primary, site.standby, replies.mms);
      if selected.None? then Located(None, failures, [], b)
      else
        var mm := MasterOf(site, selected.value, replies.mms[selected.value]);
        var r := ReadIps(ClientIps(q.request), mm, b);
        Located(if r.ok then Some(LocationBy(q.request, mm)) else None, failures + r.diagnostics, r.raw, r.budget)
  }

  const UNMAPPED := Diagnostic("MD_ROUTE", SwitchUnmapped, false, false)
  const NOT_SCANNED := Diagnostic("MD_SCAN", ClientNotFound, false, false)
  const NO_SESSION := Diagnostic("MD_FILTER", SessionNotFound, false, false)

  /** The devices on which an active session was seen; a host that is not exactly one device stops the query. */
  function RequiredOf(enabled: seq<Device>, hosts: seq<string>): Result<seq<Device>, Diagnostic> {
    if hosts == [] then Ok([])
    else
      var r, matches := RequiredOf(enabled, hosts[..|hosts| - 1]), WithHost(enabled, hosts[|hosts| - 1]);
      if r.Err? then r
      else if |matches| != 1 then
        Err(Diagnostic("MD_ROUTE", if |matches| > 1 then SwitchAmbiguous else SwitchUnmapped, false, false))
      else Ok(r.value + [matches[0]])
  }

  function WithRequired(candidates: seq<Candidate>, required: seq<Device>, ip: string): seq<Candidate> {
    if required == [] then candidates
    else
      var before, last := WithRequired(candidates, required[..|required| - 1], ip), required[|required| - 1];
      if last in DevicesOf(before) then before else before + [Candidate(last, ip)]
  }

  function MappedRoute(request: Request, source: Option<Device>, destination: Option<Device>): seq<Candidate> {
    (if source.Some? then [Candidate(source.value, request.sourceIp)] else [])
    + if destination.Some? && destination != source then [Candidate(destination.value, request.destinationIp)] else []
  }

  /** `_rotated_full_scan_devices`: every device, starting one further each time. */
  function Rotation(chosen: seq<Device>, cursor: nat): seq<Device> {
    if |chosen| < 2 then chosen else chosen[cursor % |chosen|..] + chosen[..cursor % |chosen|]
  }

  function CursorAfter(chosen: seq<Device>, cursor: nat): nat {
    if |chosen| < 2 then cursor else (cursor % |chosen| + 1) % |chosen|
  }

  datatype Routing = Routing(route: Result<seq<Candidate>, Diagnostic>, doubts: seq<Diagnostic>, cursor: nat)

  function Scan(request: Request, chosen: seq<Device>, doubts: seq<Diagnostic>, cursor: nat): Routing
    requires Wellformed(request)
  {
    Routing(if chosen == [] then Err(UNMAPPED) else Ok(WithFilter(Rotation(chosen, cursor), FilterIp(request))),
            doubts, CursorAfter(chosen, cursor))
  }

  function Mapping(site: Site, ip: string, location: Option<Ipv4>): (Option<Device>, seq<Diagnostic>) {
    if ip != "" then DeviceFor(site.devices, location, site.norm) else (None, [])
  }

  /** The routing part of `query_once`: the candidates, or the diagnostic with which it stops. */
  function RouteOf(site: Site, q: Query, l: Location, approval: Approval, cursor: nat): Routing
    requires Wellformed(q.request)
  {
    var enabled := EnabledOf(site.devices);
    var needed := RequiredOf(enabled, Deduped(q.required));
    if needed.Err? then Routing(Err(needed.error), [], cursor)
    else
      var source := Mapping(site, q.request.sourceIp, l.source);
      var destination := Mapping(site, q.request.destinationIp, l.destination);
      var doubts := source.1 + destination.1;
      if !l.fullScan then
        var mapped := MappedRoute(q.request, source.0, destination.0);
        var targeted := WithRequired(mapped, needed.value, FilterIp(q.request));
        Routing(if targeted == [] then Err(UNMAPPED) else Ok(targeted), doubts, cursor)
      else if q.fallback != [] then
        var requested := Deduped(q.fallback + needed.value);
        if AllIn(requested, enabled) then Scan(q.request, requested, doubts, cursor)
        else Routing(Err(UNMAPPED), doubts, cursor)
      else if !q.allowFullScan then Routing(Err(NOT_SCANNED), doubts, cursor)
      else
        match approval
        case Interrupted(code, retryable) => Routing(Err(Diagnostic("MD_SCAN", code, retryable, false)), doubts, cursor)
        case Declined => Routing(Err(NOT_SCANNED), doubts, cursor)
        case Approved => Scan(q.request, enabled, doubts, cursor)
  }

  datatype Reply = Reply(outcome: Outcome, asked: seq<Candidate>, budget: Budget, cursor: nat)

  /** `query_once`. */
  function Queried(site: Site, q: Query, replies: Replies, b: Budget, cursor: nat): Reply
    requires Askable(q, replies)
  {
    var w := LocatedBy(site, q, replies, b);
    if w.location.None? then Reply(Stopped(None, w.diagnostics, w.raw), [], w.budget, cursor)
    else
      var l := w.location.value;
      var r := RouteOf(site, q, l, replies.approval, cursor);
      var known := w.diagnostics + r.doubts;
      if r.route.Err? then Reply(Stopped(Some(l), known + [r.route.error], w.raw), [], w.budget, r.cursor)
      else Concluded(q.request, l, known, r.route.value, w.raw, replies.network, w.budget, r.cursor)
  }

  /** The candidates are asked, and the outcome is put together. */
  function Concluded(request: Request, l: Location, known: seq<Diagnostic>, asked: seq<Candidate>, raw: seq<Raw>,
                     network: Network, b: Budget, cursor: nat): Reply
  {
    var g := Gather(request, asked, network, raw, b);
    var authoritative := !RoutingDoubt(known) && g.complete;
    Reply(
      Outcome(g.observations,
              known + g.diagnostics + (if g.observations == [] && authoritative then [NO_SESSION] else []),
              l.usedMm, g.controllers, g.raw, l.source, l.destination, l.fullScan, authoritative),
      asked, g.budget, cursor)
  }

  lemma {:induction false} RequiredStops(enabled: seq<Device>, hosts: seq<string>, n: nat)
    requires n <= |hosts| && RequiredOf(enabled, hosts[..n]).Err?
    ensures RequiredOf(enabled, hosts) == RequiredOf(enabled, hosts[..n])
  {
    if n == |hosts| {
      assert hosts[..n] == hosts;
    } else {
      assert hosts[..|hosts| - 1][..n] == hosts[..n];
      RequiredStops(enabled, hosts[..|hosts| - 1], n);
    }
  }

  /** One of the devices is the one to which the switch of a location is mapped. */
  predicate MappedTo(location: Option<Ipv4>, chosen: seq<Device>, norm: string -> string) {
    location.Some? ==> exists i :: 0 <= i < |chosen| && norm(Text(location.value)) in Labels(chosen[i], norm)
  }

  /** The devices that a query has to ask: every mapped location and every required controller; after a full scan
      the devices that it had found, and before it all of them. */
  ghost predicate Routed(request: Request, l: Location, enabled: seq<Device>, norm: string -> string,
                         fallback: seq<Device>, required: seq<string>, chosen: seq<Device>) {
    if l.fullScan then
      if fallback != [] then forall d :: d in chosen <==> d in fallback || (d in enabled && d.host in required)
      else forall d :: d in chosen <==> d in enabled
    else
      && (request.sourceIp != "" ==> MappedTo(l.source, chosen, norm))
      && (request.destinationIp != "" ==> MappedTo(l.destination, chosen, norm))
      && (forall d :: d in enabled && d.host in required ==> d in chosen)
  }

  lemma EnabledDistinct(all: seq<Device>, norm: string -> string)
    requires ValidTopology(all, norm)
    ensures DistinctDevices(all)
  {
    forall i, j | 0 <= i < j < |all| ensures all[i] != all[j] {
      assert Compatible(all[i], all[j], norm);
    }
  }

  lemma DeviceForSound(devices: seq<Device>, location: Option<Ipv4>, norm: string -> string)
    ensures var (d, doubts) := DeviceFor(devices, location, norm);
            && (d.Some? ==> d.value in EnabledOf(devices) && location.Some?
                            && norm(Text(location.value)) in Labels(d.value, norm))
            && (location.Some? && d.None? ==> RoutingDoubt(doubts))
  {
    if location.Some? {
      var found := Mapped(EnabledOf(devices), norm(Text(location.value)), norm);
      MappedSound(EnabledOf(devices), norm(Text(location.value)), norm);
      if |found| == 1 {
        assert found[0] in found;
      } else {
        var doubts := DeviceFor(devices, location, norm).1;
        assert doubts[0].code.SwitchAmbiguous? || doubts[0].code.SwitchUnmapped?;
      }
    }
  }

  // ----- the required devices and the routes -----

  lemma {:induction false} RequiredMeans(enabled: seq<Device>, hosts: seq<string>)
    ensures RequiredOf(enabled, hosts).Ok? <==> forall i :: 0 <= i < |hosts| ==> |WithHost(enabled, hosts[i])| == 1
    ensures RequiredOf(enabled, hosts).Ok? ==>
              && AllIn(RequiredOf(enabled, hosts).value, enabled)
              && |RequiredOf(enabled, hosts).value| == |hosts|
              && forall d :: d in RequiredOf(enabled, hosts).value <==> d in enabled && d.host in hosts
  {
    if hosts != [] {
      var init, last := hosts[..|hosts| - 1], hosts[|hosts| - 1];
      assert hosts == init + [last];
      assert forall i :: 0 <= i < |init| ==> init[i] == hosts[i];
      RequiredMeans(enabled, init);
      WithHostSound(enabled, last);
      if |WithHost(enabled, last)| == 1 {
        assert WithHost(enabled, last) == [WithHost(enabled, last)[0]];
        assert WithHost(enabled, last)[0] in WithHost(enabled, last);
      }
    }
  }

  lemma {:induction false} WithRequiredMeans(candidates: seq<Candidate>, required: seq<Device>, ip: string)
    requires DistinctDevices(DevicesOf(candidates))
    ensures var r := WithRequired(candidates, required, ip);
            && DistinctDevices(DevicesOf(r))
            && (forall d :: d in DevicesOf(r) <==> d in DevicesOf(candidates) || d in required)
            && (forall c :: c in r ==> c in candidates || c.filterIp == ip)
  {
    if required != [] {
      var init, last := required[..|required| - 1], required[|required| - 1];
      assert required == init + [last];
      WithRequiredMeans(candidates, init, ip);
      var before := WithRequired(candidates, init, ip);
      if last !in DevicesOf(before) {
        assert DevicesOf(before + [Candidate(last, ip)]) == DevicesOf(before) + [last];
      }
    }
  }

  lemma MappedRouteMeans(request: Request, source: Option<Device>, destination: Option<Device>)
    ensures var r := MappedRoute(request, source, destination);
            && DistinctDevices(DevicesOf(r))
            && (forall d :: d in DevicesOf(r) <==> source == Some(d) || destination == Some(d))
            && (forall c :: c in r ==> (source.Some? && c.filterIp == request.sourceIp)
                                       || (destination.Some? && c.filterIp == request.destinationIp))
  {
    var r := MappedRoute(request, source, destination);
    if source.Some? {
      assert DevicesOf(r)[0] == source.value;
    }
    if destination.Some? && destination != source {
      assert DevicesOf(r)[|r| - 1] == destination.value;
    }
  }

  lemma RotationMeans(chosen: seq<Device>, cursor: nat)
    requires DistinctDevices(chosen)
    ensures DistinctDevices(Rotation(chosen, cursor)) && |Rotation(chosen, cursor)| == |chosen|
    ensures forall d :: d in Rotation(chosen, cursor) <==> d in chosen
  {
    if |chosen| >= 2 {
      var start := cursor % |chosen|;
      assert chosen == chosen[..start] + chosen[start..];
    }
  }

  // ----- which routes are found -----

  /** The switch of a location is a device of the configuration. */
  predicate Known(site: Site, ip: string, location: Option<Ipv4>) {
    ip != "" ==> MappedTo(location, EnabledOf(site.devices), site.norm)
  }

  predicate HasHost(devices: seq<Device>, host: string) {
    exists i :: 0 <= i < |devices| && devices[i].host == host
  }

  /** Some diagnostic says that a switch or a host stands for several devices. */
  predicate SaysAmbiguous(diagnostics: seq<Diagnostic>) {
    exists i :: 0 <= i < |diagnostics| && diagnostics[i].code.SwitchAmbiguous?
  }

  /** There is somebody to ask, and asking them proves something. */
  predicate WellRouted(site: Site, q: Query, l: Location, approval: Approval) {
    var enabled := EnabledOf(site.devices);
    && (forall h :: h in q.required ==> HasHost(enabled, h))
    && Known(site, q.request.sourceIp, l.source) && Known(site, q.request.destinationIp, l.destination)
    && if !l.fullScan then
         || q.required != [] || (q.request.sourceIp != "" && l.source.Some?)
         || (q.request.destinationIp != "" && l.destination.Some?)
       else if q.fallback != [] then AllIn(q.fallback, enabled)
       else q.allowFullScan && approval.Approved? && enabled != []
  }

  lemma {:induction false} HostOnce(devices: seq<Device>, host: string, norm: string -> string)
    requires ValidTopology(devices, norm)
    ensures |WithHost(devices, host)| == if HasHost(devices, host) then 1 else 0
  {
    if devices != [] {
      var init, last := devices[..|devices| - 1], devices[|devices| - 1];
      assert devices == init + [last];
      assert forall i :: 0 <= i < |init| ==> init[i] == devices[i];
      HostOnce(init, host, norm);
      if last.host == host {
        forall i | 0 <= i < |init| ensures init[i].host != host {
          CompatibleWithLast(init, last, i, norm);
        }
      }
    }
  }

  lemma {:induction false} RequiredUnmapped(enabled: seq<Device>, hosts: seq<string>, norm: string -> string)
    requires ValidTopology(enabled, norm)
    ensures RequiredOf(enabled, hosts).Err? ==> RequiredOf(enabled, hosts).error == UNMAPPED
  {
    if hosts != [] {
      RequiredUnmapped(enabled, hosts[..|hosts| - 1], norm);
      HostOnce(enabled, hosts[|hosts| - 1], norm);
    }
  }

  lemma RequiredOk(enabled: seq<Device>, required: seq<string>, norm: string -> string)
    requires ValidTopology(enabled, norm)
    ensures var needed := RequiredOf(enabled, Deduped(required));
            && (needed.Ok? <==> forall h :: h in required ==> HasHost(enabled, h))
            && (needed.Err? ==> needed.error == UNMAPPED)
            && (needed.Ok? ==> AllIn(needed.value, enabled) && (needed.value == [] <==> required == [])
                               && forall d :: d in needed.value <==> d in enabled && d.host in required)
  {
    DedupedSound(required);
    RequiredMeans(enabled, Deduped(required));
    RequiredUnmapped(enabled, Deduped(required), norm);
    forall h | h in required ensures HasHost(enabled, h) <==> |WithHost(enabled, h)| == 1 {
      HostOnce(enabled, h, norm);
    }
    if required != [] {
      assert required[0] in Deduped(required);
    }
  }

  lemma MappingMeans(site: Site, ip: string, location: Option<Ipv4>)
    requires Configured(site)
    ensures var m := Mapping(site, ip, location);
            && (Known(site, ip, location) <==> !RoutingDoubt(m.1)) && !SaysAmbiguous(m.1)
            && (m.0.Some? ==> ip != "" && location.Some? && m.0.value in EnabledOf(site.devices)
                              && site.norm(Text(location.value)) in Labels(m.0.value, site.norm))
            && (ip != "" && location.Some? && m.0.None? ==> RoutingDoubt(m.1))
  {
    DeviceForSound(site.devices, location, site.norm);
    if ip != "" && location.Some? {
      var enabled, needle := EnabledOf(site.devices), site.norm(Text(location.value));
      LocationMappedOnce(enabled, location.value, site.unicode);
      MappedSound(enabled, needle, site.norm);
      var found := Mapped(enabled, needle, site.norm);
      if |found| == 1 {
        assert found[0] in found;
      } else {
        forall i | 0 <= i < |enabled| ensures needle !in Labels(enabled[i], site.norm) {
          assert enabled[i] !in found;
        }
      }
    }
  }

  /** A route is found without a doubt exactly in these cases. */
  lemma RouteFoundIff(site: Site, q: Query, l: Location, approval: Approval, cursor: nat)
    requires Wellformed(q.request) && Configured(site)
    ensures var r := RouteOf(site, q, l, approval, cursor);
            r.route.Ok? && !RoutingDoubt(r.doubts) <==> WellRouted(site, q, l, approval)
  {
    var enabled := EnabledOf(site.devices);
    RequiredOk(enabled, q.required, site.norm);
    var needed := RequiredOf(enabled, Deduped(q.required));
    var source := Mapping(site, q.request.sourceIp, l.source);
    var destination := Mapping(site, q.request.destinationIp, l.destination);
    MappingMeans(site, q.request.sourceIp, l.source);
    MappingMeans(site, q.request.destinationIp, l.destination);
    DoubtConcat(source.1, destination.1);
    if needed.Ok? {
      if !l.fullScan {
        TargetedFound(q.request, source.0, destination.0, needed.value);
      } else if q.fallback != [] {
        FallbackFound(q.fallback, needed.value, enabled);
      }
    }
  }

  /** Routing never calls a switch or a controller ambiguous: in a valid configuration each of them is one device or
      none. */
  lemma RouteNeverAmbiguous(site: Site, q: Query, l: Location, approval: Approval, cursor: nat)
    requires Wellformed(q.request) && Configured(site)
    ensures var r := RouteOf(site, q, l, approval, cursor);
            && !SaysAmbiguous(r.doubts)
            && (r.route.Err? && r.route.error.stage == "MD_ROUTE" ==> r.route.error.code.SwitchUnmapped?)
  {
    RequiredOk(EnabledOf(site.devices), q.required, site.norm);
    MappingMeans(site, q.request.sourceIp, l.source);
    MappingMeans(site, q.request.destinationIp, l.destination);
    AmbiguousConcat(Mapping(site, q.request.sourceIp, l.source).1,
                    Mapping(site, q.request.destinationIp, l.destination).1);
  }

  lemma AmbiguousConcat(a: seq<Diagnostic>, b: seq<Diagnostic>)
    requires !SaysAmbiguous(a) && !SaysAmbiguous(b)
    ensures !SaysAmbiguous(a + b)
  {
    forall i | 0 <= i < |a + b| ensures !(a + b)[i].code.SwitchAmbiguous? {
      assert (a + b)[i] == if i < |a| then a[i] else b[i - |a|];
    }
  }

  lemma TargetedFound(request: Request, source: Option<Device>, destination: Option<Device>, required: seq<Device>)
    requires Wellformed(request)
    ensures var r := WithRequired(MappedRoute(request, source, destination), required, FilterIp(request));
            r == [] <==> source.None? && destination.None? && required == []
  {
    var mapped := MappedRoute(request, source, destination);
    MappedRouteMeans(request, source, destination);
    WithRequiredMeans(mapped, required, FilterIp(request));
    var r := WithRequired(mapped, required, FilterIp(request));
    assert source.Some? ==> source.value in DevicesOf(r);
    assert destination.Some? ==> destination.value in DevicesOf(r);
    assert required != [] ==> required[0] in DevicesOf(r);
    if r != [] {
      assert DevicesOf(r)[0] in DevicesOf(r);
    }
  }

  lemma FallbackFound(fallback: seq<Device>, required: seq<Device>, enabled: seq<Device>)
    requires AllIn(required, enabled) && fallback != []
    ensures AllIn(Deduped(fallback + required), enabled) <==> AllIn(fallback, enabled)
    ensures Deduped(fallback + required) != []
  {
    var all := fallback + required;
    DedupedSound(all);
    assert all[0] in Deduped(all);
    if AllIn(Deduped(all), enabled) {
      forall i | 0 <= i < |fallback| ensures fallback[i] in enabled {
        assert all[i] in Deduped(all);
      }
    }
    if AllIn(fallback, enabled) {
      forall i | 0 <= i < |Deduped(all)| ensures Deduped(all)[i] in enabled {
        assert Deduped(all)[i] in all;
      }
    }
  }

  /** What any route is like. */
  lemma RouteSound(site: Site, q: Query, l: Location, approval: Approval, cursor: nat)
    requires Wellformed(q.request) && Configured(site) && RouteOf(site, q, l, approval, cursor).route.Ok?
    ensures var asked := RouteOf(site, q, l, approval, cursor).route.value;
            && asked != [] && AllIn(DevicesOf(asked), EnabledOf(site.devices)) && DistinctDevices(DevicesOf(asked))
            && FiltersFit(asked, q.request)
  {
    var enabled := EnabledOf(site.devices);
    RequiredOk(enabled, q.required, site.norm);
    var needed := RequiredOf(enabled, Deduped(q.required)).value;
    var source := Mapping(site, q.request.sourceIp, l.source).0;
    var destination := Mapping(site, q.request.destinationIp, l.destination).0;
    MappingMeans(site, q.request.sourceIp, l.source);
    MappingMeans(site, q.request.destinationIp, l.destination);
    if !l.fullScan {
      TargetedSound(q.request, source, destination, needed, enabled);
    } else if q.fallback != [] {
      var all := Deduped(q.fallback + needed);
      DedupedSound(q.fallback + needed);
      ScanSound(q.request, all, enabled, cursor);
    } else {
      EnabledDistinct(enabled, site.norm);
      ScanSound(q.request, enabled, enabled, cursor);
    }
  }

  lemma TargetedSound(request: Request, source: Option<Device>, destination: Option<Device>, required: seq<Device>,
                      enabled: seq<Device>)
    requires Wellformed(request) && AllIn(required, enabled)
    requires source.Some? ==> source.value in enabled && request.sourceIp != ""
    requires destination.Some? ==> destination.value in enabled && request.destinationIp != ""
    ensures var r := WithRequired(MappedRoute(request, source, destination), required, FilterIp(request));
            && AllIn(DevicesOf(r), enabled) && DistinctDevices(DevicesOf(r)) && FiltersFit(r, request)
  {
    var mapped := MappedRoute(request, source, destination);
    MappedRouteMeans(request, source, destination);
    WithRequiredMeans(mapped, required, FilterIp(request));
    var r := WithRequired(mapped, required, FilterIp(request));
    forall i | 0 <= i < |r| ensures DevicesOf(r)[i] in enabled && r[i].filterIp in ClientIps(request) {
      assert r[i] in r && DevicesOf(r)[i] in DevicesOf(r);
    }
  }

  lemma ScanSound(request: Request, chosen: seq<Device>, enabled: seq<Device>, cursor: nat)
    requires Wellformed(request) && AllIn(chosen, enabled) && DistinctDevices(chosen)
    ensures var r := WithFilter(Rotation(chosen, cursor), FilterIp(request));
            && |r| == |chosen| && AllIn(DevicesOf(r), enabled) && DistinctDevices(DevicesOf(r))
            && FiltersFit(r, request)
  {
    RotationMeans(chosen, cursor);
    var r := Rotation(chosen, cursor);
    forall i | 0 <= i < |r| ensures r[i] in enabled {
      assert r[i] in chosen;
    }
  }

  /** A route without a doubt leads to every device that has to be asked. */
  lemma RouteCovers(site: Site, q: Query, l: Location, approval: Approval, cursor: nat)
    requires Wellformed(q.request) && Configured(site) && RouteOf(site, q, l, approval, cursor).route.Ok?
    requires !RoutingDoubt(RouteOf(site, q, l, approval, cursor).doubts)
    ensures Routed(q.request, l, EnabledOf(site.devices), site.norm, q.fallback, q.required,
                   DevicesOf(RouteOf(site, q, l, approval, cursor).route.value))
  {
    var enabled := EnabledOf(site.devices);
    RequiredOk(enabled, q.required, site.norm);
    var needed := RequiredOf(enabled, Deduped(q.required)).value;
    var source := Mapping(site, q.request.sourceIp, l.source);
    var destination := Mapping(site, q.request.destinationIp, l.destination);
    MappingMeans(site, q.request.sourceIp, l.source);
    MappingMeans(site, q.request.destinationIp, l.destination);
    DoubtConcat(source.1, destination.1);
    var chosen := DevicesOf(RouteOf(site, q, l, approval, cursor).route.value);
    if !l.fullScan {
      MappedRouteMeans(q.request, source.0, destination.0);
      WithRequiredMeans(MappedRoute(q.request, source.0, destination.0), needed, FilterIp(q.request));
      MappedToMapping(site, q.request.sourceIp, l.source, chosen);
      MappedToMapping(site, q.request.destinationIp, l.destination, chosen);
    } else if q.fallback != [] {
      DedupedSound(q.fallback + needed);
      RotationMeans(Deduped(q.fallback + needed), cursor);
    } else {
      EnabledDistinct(enabled, site.norm);
      RotationMeans(enabled, cursor);
    }
  }

  lemma MappedToMapping(site: Site, ip: string, location: Option<Ipv4>, chosen: seq<Device>)
    requires Configured(site)
    requires !RoutingDoubt(Mapping(site, ip, location).1)
    requires Mapping(site, ip, location).0.Some? ==> Mapping(site, ip, location).0.value in chosen
    ensures ip != "" ==> MappedTo(location, chosen, site.norm)
  {
    MappingMeans(site, ip, location);
  }

  // ----- what the answer of a query is worth -----

  /** The location is a cached one, whatever its lookup doubted, or a master told it readably and unambiguously for
      every entered address, in answers that can be stored together. */
  predicate WellLocated(site: Site, q: Query, replies: Replies, b: Budget)
    requires Askable(q, replies)
  {
    (!q.refresh && q.cached.Some?)
    || (var selected := MmSelection(site.primary, site.standby, replies.mms);
        && selected.Some? && !RoutingDoubt(MmDiagnostics(site.primary, site.standby, replies.mms))
        && var mm := MasterOf(site, selected.value, replies.mms[selected.value]);
           && Stores(b, MmSnapshots(mm, ClientIps(q.request)))
           && forall ip :: ip in ClientIps(q.request) ==> mm.lookup(ip).Lookup? && !Unclear(mm.lookup(ip)))
  }

  lemma LocatedIff(site: Site, q: Query, replies: Replies, b: Budget)
    requires Askable(q, replies) && WithinLimits(b)
    ensures var w := LocatedBy(site, q, replies, b);
            w.location.Some? && !RoutingDoubt(w.diagnostics) <==> WellLocated(site, q, replies, b)
  {
    var selected := MmSelection(site.primary, site.standby, replies.mms);
    if !(!q.refresh && q.cached.Some?) && selected.Some? {
      var ips, mm := ClientIps(q.request), MasterOf(site, selected.value, replies.mms[selected.value]);
      ReadingOkIff(ips, mm, b);
      if ReadIps(ips, mm, b).ok {
        ReadingDoubts(ips, mm, b);
      }
      DoubtConcat(MmDiagnostics(site.primary, site.standby, replies.mms), ReadIps(ips, mm, b).diagnostics);
      assert forall ip :: ip in ips <==> exists i :: 0 <= i < |ips| && ips[i] == ip;
    }
  }

  /** Whatever was read of the location can be stored, and owns no observation. */
  lemma LocatedStores(site: Site, q: Query, replies: Replies, b: Budget)
    requires Askable(q, replies) && WithinLimits(b)
    ensures var w := LocatedBy(site, q, replies, b);
            && OwnNothing(w.raw) && Stores(b, w.raw) && WithinLimits(w.budget) && SameLimits(b, w.budget)
            && w.budget.observations == b.observations
  {
    var selected := MmSelection(site.primary, site.standby, replies.mms);
    if !(!q.refresh && q.cached.Some?) && selected.Some? {
      var ips, mm := ClientIps(q.request), MasterOf(site, selected.value, replies.mms[selected.value]);
      ReadingStores(ips, mm, b);
      ReadingOwns(ips, mm, b);
    }
  }

  /** A query is authoritative exactly when the clients were located, somebody could be asked without a doubt,
      everybody who was asked answered in full, the rows fit into the budget, and all the answers of the pass can be
      stored together. */
  lemma AuthoritativeIff(site: Site, q: Query, replies: Replies, b: Budget, cursor: nat)
    requires Askable(q, replies) && WithinLimits(b) && Configured(site)
    ensures var reply, w := Queried(site, q, replies, b, cursor), LocatedBy(site, q, replies, b);
            reply.outcome.authoritative <==>
            && WellLocated(site, q, replies, b)
            && w.location.Some? && WellRouted(site, q, w.location.value, replies.approval)
            && AllInFull(reply.asked, replies.network)
            && b.observations + RowCount(reply.asked, replies.network) <= b.maxObservations
            && Stores(b, FullRaw(q.request, reply.asked, replies.network, w.raw))
  {
    LocatedIff(site, q, replies, b);
    LocatedStores(site, q, replies, b);
    var w := LocatedBy(site, q, replies, b);
    if w.location.Some? {
      var r := RouteOf(site, q, w.location.value, replies.approval, cursor);
      RouteFoundIff(site, q, w.location.value, replies.approval, cursor);
      DoubtConcat(w.diagnostics, r.doubts);
      if r.route.Ok? {
        GatheredCompleteIff(q.request, r.route.value, replies.network, w.raw, w.budget);
      }
    }
  }

  /** An authoritative query is complete: it asked everybody who had to be asked, and its observations are
      exactly the matching rows of the full tables of those that it asked. */
  lemma AuthoritativeIsComplete(site: Site, q: Query, replies: Replies, b: Budget, cursor: nat,
                                tables: Device -> seq<Observation>)
    requires Askable(q, replies) && WithinLimits(b) && Configured(site)
    requires Queried(site, q, replies, b, cursor).outcome.authoritative
    requires AllFaithful(Queried(site, q, replies, b, cursor).asked, replies.network, tables)
    ensures var reply := Queried(site, q, replies, b, cursor);
            && reply.asked != []
            && Routed(q.request, LocationOf(reply.outcome), EnabledOf(site.devices), site.norm, q.fallback, q.required,
                      DevicesOf(reply.asked))
            && Complete(reply.asked, tables, q.request, reply.outcome.observations)
  {
    var w := LocatedBy(site, q, replies, b);
    var l := w.location.value;
    var r := RouteOf(site, q, l, replies.approval, cursor);
    DoubtConcat(w.diagnostics, r.doubts);
    RouteSound(site, q, l, replies.approval, cursor);
    RouteCovers(site, q, l, replies.approval, cursor);
    HostsOfEnabled(EnabledOf(site.devices), r.route.value, site.norm);
    LocatedStores(site, q, replies, b);
    GatheredComplete(q.request, r.route.value, replies.network, w.raw, w.budget, tables);
  }

  /** Whatever fails, every observation is a matching row of the table of a device that was asked. */
  lemma ObservationsGenuine(site: Site, q: Query, replies: Replies, b: Budget, cursor: nat,
                            tables: Device -> seq<Observation>, o: Observation)
    requires Askable(q, replies)
    requires AllFaithful(Queried(site, q, replies, b, cursor).asked, replies.network, tables)
    requires o in Queried(site, q, replies, b, cursor).outcome.observations
    ensures InTables(Queried(site, q, replies, b, cursor).asked, tables, q.request, o)
  {
    var w := LocatedBy(site, q, replies, b);
    var r := RouteOf(site, q, w.location.value, replies.approval, cursor);
    GatheredGenuine(q.request, r.route.value, replies.network, w.raw, w.budget, tables, o);
  }

  /** Whatever fails, every observation belongs to exactly one Raw snapshot. */
  lemma EvidenceIsPartition(site: Site, q: Query, replies: Replies, b: Budget, cursor: nat)
    requires Askable(q, replies) && WithinLimits(b)
    ensures var o := Queried(site, q, replies, b, cursor).outcome;
            AllKeyed(o.raw) && Partition(OwnedKeys(o.raw), o.observations)
  {
    LocatedStores(site, q, replies, b);
    var w := LocatedBy(site, q, replies, b);
    PartitionOfNothing(w.raw);
    if w.location.Some? {
      var r := RouteOf(site, q, w.location.value, replies.approval, cursor);
      if r.route.Ok? {
        GatheredPartition(q.request, r.route.value, replies.network, w.raw, w.budget);
      }
    }
  }

  /** Whatever fails, the snapshots of a query can be stored within the limit, and its observations were paid for. */
  lemma QueryWithinBudget(site: Site, q: Query, replies: Replies, b: Budget, cursor: nat)
    requires Askable(q, replies) && WithinLimits(b)
    ensures var reply := Queried(site, q, replies, b, cursor);
            && PersistedSize(b.encoding, reply.outcome.raw) <= b.maxRaw
            && b.observations + |reply.outcome.observations| <= reply.budget.observations <= b.maxObservations
            && WithinLimits(reply.budget) && SameLimits(b, reply.budget)
  {
    LocatedStores(site, q, replies, b);
    var w := LocatedBy(site, q, replies, b);
    if w.location.Some? {
      var r := RouteOf(site, q, w.location.value, replies.approval, cursor);
      if r.route.Ok? {
        GatheredWithinBudget(q.request, r.route.value, replies.network, w.raw, w.budget);
      }
    }
  }

  /** An authoritative query keeps the snapshots of everybody whom it asked, and it asked somebody. */
  lemma AuthoritativeKeepsAll(site: Site, q: Query, replies: Replies, b: Budget, cursor: nat)
    requires Askable(q, replies) && WithinLimits(b) && Configured(site)
    requires Queried(site, q, replies, b, cursor).outcome.authoritative
    ensures var reply, w := Queried(site, q, replies, b, cursor), LocatedBy(site, q, replies, b);
            && reply.asked != [] && AllIn(DevicesOf(reply.asked), EnabledOf(site.devices))
            && DistinctDevices(DevicesOf(reply.asked)) && FiltersFit(reply.asked, q.request)
            && reply.outcome.raw == FullRaw(q.request, reply.asked, replies.network, w.raw)
            && reply.outcome.observations == FullRows(q.request, reply.asked, replies.network)
  {
    LocatedStores(site, q, replies, b);
    var w := LocatedBy(site, q, replies, b);
    var r := RouteOf(site, q, w.location.value, replies.approval, cursor);
    RouteSound(site, q, w.location.value, replies.approval, cursor);
    GatheredCompleteIff(q.request, r.route.value, replies.network, w.raw, w.budget);
  }

  // ----- two passes of one poll -----

  lemma {:induction false} PutSize(d: seq<Observation>, o: Observation)
    ensures |Put(d, o)| <= |d| + 1
  {
    if d != [] {
      PutSize(d[1..], o);
    }
  }

  lemma {:induction false} PutAllSize(d: seq<Observation>, s: seq<Observation>)
    ensures |PutAll(d, s)| <= |d| + |s|
  {
    if s != [] {
      PutAllSize(d, s[..|s| - 1]);
      PutSize(PutAll(d, s[..|s| - 1]), s[|s| - 1]);
    }
  }

  lemma {:induction false} UnseenSize(first: seq<Observation>, second: seq<Observation>)
    ensures |Unseen(first, second)| <= |first|
  {
    if first != [] {
      UnseenSize(first[..|first| - 1], second);
    }
  }

  lemma MergedStaysSmall(first: Outcome, second: Outcome)
    ensures |Merge(first, second).observations| <= |first.observations| + |second.observations|
  {
    var a, b := first.observations, second.observations;
    UnseenSize(a, b);
    PutAllSize([], Unseen(a, b));
    PutAllSize([], b);
    PutAllSize(PutAll([], Unseen(a, b)), PutAll([], b));
  }

  /** The two passes of one poll share a budget: the merged poll stays within it, and every observation of the
      merged poll belongs to exactly one snapshot of the two passes. */
  lemma TwoPassesShareBudget(site: Site, q: Query, replies: Replies, again: Query, later: Replies, b: Budget,
                             cursor: nat, resumed: nat)
    requires Askable(q, replies) && Askable(again, later) && WithinLimits(b)
    ensures var first := Queried(site, q, replies, b, cursor);
            var second := Queried(site, again, later, first.budget, resumed);
            var merged := Merge(first.outcome, second.outcome);
            && b.observations + |merged.observations| <= b.maxObservations
            && Partition(OwnedKeys(merged.raw), merged.observations)
  {
    var first := Queried(site, q, replies, b, cursor);
    EvidenceIsPartition(site, q, replies, b, cursor);
    QueryWithinBudget(site, q, replies, b, cursor);
    var second := Queried(site, again, later, first.budget, resumed);
    EvidenceIsPartition(site, again, later, first.budget, resumed);
    QueryWithinBudget(site, again, later, first.budget, resumed);
    MergedStaysSmall(first.outcome, second.outcome);
    AttributeKnown(first.outcome.raw, PutAll([], first.outcome.observations));
    MergeKeepsPartition(first.outcome, second.outcome);
  }

  class TrackerService {
    const site: Site
    var cursor: nat

    constructor (site: Site)
      ensures this.site == site && cursor == 0
    {
      this.site := site;
      cursor := 0;
    }

    /** `_rotated_full_scan_devices`. */
    method Rotated(chosen: seq<Device>) returns (r: seq<Device>)
      modifies this`cursor
      ensures r == Rotation(chosen, old(cursor)) && cursor == CursorAfter(chosen, old(cursor))
    {
      if |chosen| < 2 {
        return chosen;
      }
      var start := cursor % |chosen|;
      cursor := (start + 1) % |chosen|;
      r := chosen[start..] + chosen[..start];
    }

    /** The loop over the required hosts. */
    method RequiredDevices(hosts: seq<string>) returns (r: Result<seq<Device>, Diagnostic>)
      ensures r == RequiredOf(EnabledOf(site.devices), Deduped(hosts))
    {
      var enabled, distinct := EnabledOf(site.devices), Deduped(hosts);
      var found: seq<Device> := [];
      for i := 0 to |distinct|
        invariant RequiredOf(enabled, distinct[..i]) == Ok(found)
      {
        assert distinct[..i + 1][..i] == distinct[..i];
        var matches := WithHost(enabled, distinct[i]);
        if |matches| != 1 {
          RequiredStops(enabled, distinct, i + 1);
          return Err(Diagnostic("MD_ROUTE", if |matches| > 1 then SwitchAmbiguous else SwitchUnmapped, false, false));
        }
        found := found + [matches[0]];
      }
      assert distinct[..|distinct|] == distinct;
      r := Ok(found);
    }

    /** The mapped locations first, then the required devices that are not there yet. */
    method Targeted(request: Request, source: Option<Device>, destination: Option<Device>, required: seq<Device>)
      returns (candidates: seq<Candidate>)
      requires Wellformed(request)
      ensures candidates == WithRequired(MappedRoute(request, source, destination), required, FilterIp(request))
    {
      candidates := [];
      if source.Some? {
        candidates := candidates + [Candidate(source.value, request.sourceIp)];
      }
      if destination.Some? && destination != source {
        candidates := candidates + [Candidate(destination.value, request.destinationIp)];
      }
      ghost var mapped := candidates;
      assert mapped == MappedRoute(request, source, destination);
      for i := 0 to |required|
        invariant candidates == WithRequired(mapped, required[..i], FilterIp(request))
      {
        assert required[..i + 1][..i] == required[..i];
        if required[i] !in DevicesOf(candidates) {
          candidates := candidates + [Candidate(required[i], FilterIp(request))];
        }
      }
      assert required[..|required|] == required;
    }

    method FullScan(request: Request, chosen: seq<Device>) returns (candidates: seq<Candidate>)
      requires Wellformed(request)
      modifies this`cursor
      ensures candidates == WithFilter(Rotation(chosen, old(cursor)), FilterIp(request))
      ensures cursor == CursorAfter(chosen, old(cursor))
    {
      var order := Rotated(chosen);
      candidates := WithFilter(order, FilterIp(request));
    }

    method Route(q: Query, l: Location, approval: Approval)
      returns (r: Result<seq<Candidate>, Diagnostic>, doubts: seq<Diagnostic>)
      requires Wellformed(q.request)
      modifies this`cursor
      ensures Routing(r, doubts, cursor) == RouteOf(site, q, l, approval, old(cursor))
    {
      var enabled := EnabledOf(site.devices);
      var needed: Result<seq<Device>, Diagnostic> := RequiredDevices(q.required);
      if needed.Err? {
        return Err(needed.error), [];
      }
      var source := Mapping(site, q.request.sourceIp, l.source);
      var destination := Mapping(site, q.request.destinationIp, l.destination);
      doubts := source.1 + destination.1;
      var candidates: seq<Candidate>;
      if l.fullScan && q.fallback != [] {
        var requested := Deduped(q.fallback + needed.value);
        if !AllIn(requested, enabled) {
          return Err(UNMAPPED), doubts;
        }
        candidates := FullScan(q.request, requested);
      } else if l.fullScan && q.allowFullScan {
        match approval {
          case Interrupted(code, retryable) => return Err(Diagnostic("MD_SCAN", code, retryable, false)), doubts;
          case Declined => return Err(NOT_SCANNED), doubts;
          case Approved =>
        }
        candidates := FullScan(q.request, enabled);
      } else if l.fullScan {
        return Err(NOT_SCANNED), doubts;
      } else {
        candidates := Targeted(q.request, source.0, destination.0, needed.value);
      }
      if candidates == [] {
        return Err(UNMAPPED), doubts;
      }
      r := Ok(candidates);
    }

    /** `_resolve_locations`. */
    method Locate(q: Query, replies: Replies, budget: PollBudget)
      returns (location: Option<Location>, diagnostics: seq<Diagnostic>, raw: seq<Raw>)
      requires Askable(q, replies) && (q.refresh || q.cached.None?) && budget.Valid()
      modifies budget`rawBytes
      ensures budget.Valid()
      ensures Located(location, diagnostics, raw, budget.View()) == LocatedBy(site, q, replies, old(budget.View()))
    {
      var selected, failures := SelectMm(site.primary, site.standby, replies.mms);
      if selected.None? {
        return None, failures, [];
      }
      var mm := MasterOf(site, selected.value, replies.mms[selected.value]);
      var found, more, snapshots := ReadLocations(q.request, mm, budget);
      location, diagnostics, raw := found, failures + more, snapshots;
    }

    /** `query_once`. */
    method QueryOnce(q: Query, replies: Replies, budget: PollBudget) returns (o: Outcome, asked: seq<Candidate>)
      requires Askable(q, replies) && budget.Valid()
      modifies this`cursor, budget
      ensures budget.Valid()
      ensures Reply(o, asked, budget.View(), cursor) == Queried(site, q, replies, old(budget.View()), old(cursor))
    {
      var location := q.cached;
      var diagnostics: seq<Diagnostic>, raw: seq<Raw> := [], [];
      if q.refresh || q.cached.None? {
        location, diagnostics, raw := Locate(q, replies, budget);
      }
      if location.None? {
        return Stopped(None, diagnostics, raw), [];
      }
      var l := location.value;
      var route: Result<seq<Candidate>, Diagnostic>, doubts: seq<Diagnostic> := Route(q, l, replies.approval);
      diagnostics := diagnostics + doubts;
      var authoritative := !RoutingDoubt(diagnostics);
      if route.Err? {
        return Stopped(location, diagnostics + [route.error], raw), [];
      }
      asked := route.value;
      var observations, more, controllers, snapshots, complete :=
        AskDevices(q.request, asked, replies.network, budget, raw);
      authoritative := authoritative && complete;
      diagnostics := diagnostics + more + if observations == [] && authoritative then [NO_SESSION] else [];
      o := Outcome(observations, diagnostics, l.usedMm, controllers, snapshots, l.source, l.destination,
                   l.fullScan, authoritative);
    }
  }
}
