/**
 What a reused location still knows of the answers from which it was made. `_resolve_locations` stores no switch for
 an ambiguous answer and reports the ambiguity once; a query that reuses the location does not hear of it again
 (src/aruba_session_tracker/services/tracker.py:214-278 and 652-689).
 */
module ReusedLocation {
  import opened Wrappers
  import opened Addresses
  import opened Outcomes
  import opened Topology
  import opened Tracker
  import opened TrackerServices

  /** The query reuses what this master told. */
  predicate Reuses(q: Query, mm: Master) {
    !q.refresh && q.cached == Some(LocationBy(q.request, mm))
  }

  /** The switches on which an answer puts the client. */
  function NamedBy(l: Lookup): seq<Ipv4> {
    if l.Lookup? && !Absent(l) then l.switches else []
  }

  /** The device is known under the address of the switch. */
  predicate Serves(site: Site, d: Device, switch: Ipv4) {
    site.norm(Text(switch)) in Labels(d, site.norm)
  }

  /** Some answer, for an entered address, puts the client on this device. */
  predicate NamedDevice(site: Site, request: Request, mm: Master, d: Device) {
    exists ip, i :: ip in ClientIps(request) && 0 <= i < |NamedBy(mm.lookup(ip))|
                    && Serves(site, d, NamedBy(mm.lookup(ip))[i])
  }

  /** Every switch that was named, for every entered address, is one of these devices. */
  predicate AsksEveryNamed(site: Site, request: Request, mm: Master, chosen: seq<Device>) {
    forall ip, i :: ip in ClientIps(request) && 0 <= i < |NamedBy(mm.lookup(ip))| ==>
      MappedTo(Some(NamedBy(mm.lookup(ip))[i]), chosen, site.norm)
  }

  /** Every clear answer names a device of the configuration. */
  predicate ClearMapped(site: Site, request: Request, mm: Master) {
    forall ip :: ip in ClientIps(request) ==> MappedTo(SwitchOf(mm.lookup(ip)), EnabledOf(site.devices), site.norm)
  }

  /** A clear answer, for an entered address, puts the client on this device. */
  predicate ClearlyOn(site: Site, request: Request, mm: Master, d: Device) {
    exists ip :: ip in ClientIps(request) && SwitchOf(mm.lookup(ip)).Some?
                 && Serves(site, d, SwitchOf(mm.lookup(ip)).value)
  }

  /** The devices that such a query asks: an active session was seen there, or a clear answer names it. */
  predicate AskedFor(site: Site, q: Query, mm: Master, d: Device) {
    d in EnabledOf(site.devices) && (d.host in q.required || ClearlyOn(site, q.request, mm, d))
  }

  /** The switch is the device of another entered address, or one on which an active session was seen. */
  predicate AskedAnyway(site: Site, q: Query, mm: Master, switch: Ipv4) {
    exists i :: 0 <= i < |EnabledOf(site.devices)|
                && AskedFor(site, q, mm, EnabledOf(site.devices)[i]) && Serves(site, EnabledOf(site.devices)[i], switch)
  }

  /** So is every switch of every unclear answer. */
  predicate DoubtsCovered(site: Site, q: Query, mm: Master) {
    forall ip, i :: ip in ClientIps(q.request) && Unclear(mm.lookup(ip)) && 0 <= i < |mm.lookup(ip).switches| ==>
      AskedAnyway(site, q, mm, mm.lookup(ip).switches[i])
  }

  // ----- the doubt -----

  /** The ambiguity is not reported again: the routing of a query that reuses the location doubts exactly when a clear
      answer names no device. */
  lemma DoubtRepeatedIff(site: Site, q: Query, mm: Master, approval: Approval, cursor: nat)
    requires Wellformed(q.request) && Configured(site) && Reuses(q, mm)
    requires forall h :: h in q.required ==> HasHost(EnabledOf(site.devices), h)
    ensures RoutingDoubt(RouteOf(site, q, q.cached.value, approval, cursor).doubts)
            <==> !ClearMapped(site, q.request, mm)
  {
    var l := q.cached.value;
    RequiredOk(EnabledOf(site.devices), q.required, site.norm);
    DoubtsAre(site, q.request, l);
    ClearIsKnown(site, q.request, mm);
  }

  lemma DoubtsAre(site: Site, request: Request, l: Location)
    requires Configured(site)
    ensures RoutingDoubt(Mapping(site, request.sourceIp, l.source).1
                         + Mapping(site, request.destinationIp, l.destination).1)
            <==> !(Known(site, request.sourceIp, l.source) && Known(site, request.destinationIp, l.destination))
  {
    MappingMeans(site, request.sourceIp, l.source);
    MappingMeans(site, request.destinationIp, l.destination);
    DoubtConcat(Mapping(site, request.sourceIp, l.source).1, Mapping(site, request.destinationIp, l.destination).1);
  }

  lemma ClearIsKnown(site: Site, request: Request, mm: Master)
    ensures var l := LocationBy(request, mm);
            ClearMapped(site, request, mm)
            <==> Known(site, request.sourceIp, l.source) && Known(site, request.destinationIp, l.destination)
  {
  }

  // ----- the devices that are asked -----

  lemma ClearlyOnIff(site: Site, request: Request, mm: Master, d: Device)
    ensures var l := LocationBy(request, mm);
            ClearlyOn(site, request, mm, d) <==>
            || (request.sourceIp != "" && l.source.Some? && Serves(site, d, l.source.value))
            || (request.destinationIp != "" && l.destination.Some? && Serves(site, d, l.destination.value))
  {
  }

  lemma TargetedMeans(request: Request, source: Option<Device>, destination: Option<Device>, needed: seq<Device>,
                      d: Device)
    requires Wellformed(request)
    ensures d in DevicesOf(WithRequired(MappedRoute(request, source, destination), needed, FilterIp(request))) <==>
            d in needed || source == Some(d) || destination == Some(d)
  {
    MappedRouteMeans(request, source, destination);
    WithRequiredMeans(MappedRoute(request, source, destination), needed, FilterIp(request));
  }

  /** Who is asked when the location is no full scan. */
  lemma TargetedAsks(site: Site, q: Query, mm: Master, approval: Approval, cursor: nat, d: Device)
    requires Wellformed(q.request) && Configured(site) && !LocationBy(q.request, mm).fullScan
    requires RouteOf(site, q, LocationBy(q.request, mm), approval, cursor).route.Ok?
    ensures d in DevicesOf(RouteOf(site, q, LocationBy(q.request, mm), approval, cursor).route.value) <==>
            AskedFor(site, q, mm, d)
  {
    var l, enabled := LocationBy(q.request, mm), EnabledOf(site.devices);
    RequiredOk(enabled, q.required, site.norm);
    var source := Mapping(site, q.request.sourceIp, l.source).0;
    var destination := Mapping(site, q.request.destinationIp, l.destination).0;
    TargetedMeans(q.request, source, destination, RequiredOf(enabled, Deduped(q.required)).value, d);
    MappingIs(site, q.request.sourceIp, l.source, d);
    MappingIs(site, q.request.destinationIp, l.destination, d);
    ClearlyOnIff(site, q.request, mm, d);
  }

  /** The device of a location is the one enabled device that serves its switch. */
  lemma MappingIs(site: Site, ip: string, location: Option<Ipv4>, d: Device)
    requires Configured(site)
    ensures Mapping(site, ip, location).0 == Some(d) <==>
            ip != "" && location.Some? && d in EnabledOf(site.devices) && Serves(site, d, location.value)
  {
    if location.Some? {
      LocationMappedOnce(EnabledOf(site.devices), location.value, site.unicode);
      OnlyDevice(site.devices, location.value, site.norm, d);
    }
  }

  lemma OnlyDevice(devices: seq<Device>, switch: Ipv4, norm: string -> string, d: Device)
    requires |Mapped(EnabledOf(devices), norm(Text(switch)), norm)| <= 1
    ensures DeviceFor(devices, Some(switch), norm).0 == Some(d) <==>
            d in EnabledOf(devices) && norm(Text(switch)) in Labels(d, norm)
  {
    var found := Mapped(EnabledOf(devices), norm(Text(switch)), norm);
    MappedSound(EnabledOf(devices), norm(Text(switch)), norm);
    if |found| == 1 {
      assert found[0] in found;
    }
  }

  /** Nobody is named by answers that all say that the client is absent. */
  lemma FullScanNamesNobody(request: Request, mm: Master)
    requires LocationBy(request, mm).fullScan
    ensures forall ip :: ip in ClientIps(request) ==> Absent(mm.lookup(ip)) && NamedBy(mm.lookup(ip)) == []
  {
    forall ip | ip in ClientIps(request) ensures Absent(mm.lookup(ip)) {
      var i :| 0 <= i < |ClientIps(request)| && ClientIps(request)[i] == ip;
    }
  }

  /** A route that is found asks the device of every switch that was named, for every entered address, if and only if
      every clear answer names a device and the switches of the unclear ones are asked anyway. */
  lemma AsksEveryNamedIff(site: Site, q: Query, mm: Master, approval: Approval, cursor: nat)
    requires Wellformed(q.request) && Configured(site) && Reuses(q, mm)
    requires RouteOf(site, q, q.cached.value, approval, cursor).route.Ok?
    ensures AsksEveryNamed(site, q.request, mm,
                           DevicesOf(RouteOf(site, q, q.cached.value, approval, cursor).route.value))
            <==> ClearMapped(site, q.request, mm) && DoubtsCovered(site, q, mm)
  {
    if q.cached.value.fullScan {
      FullScanNamesNobody(q.request, mm);
    } else {
      var chosen := DevicesOf(RouteOf(site, q, q.cached.value, approval, cursor).route.value);
      forall d ensures d in chosen <==> AskedFor(site, q, mm, d) {
        TargetedAsks(site, q, mm, approval, cursor, d);
      }
      forall ip | ip in ClientIps(q.request) ensures NamedAsked(site, q, mm, chosen, ip) {
        NamedAskedIff(site, q, mm, chosen, ip);
      }
      NamedTogether(site, q, mm, chosen);
    }
  }

  /** For one entered address: all its switches are asked exactly when it is clear and names a device, or they are
      asked anyway. */
  predicate NamedAsked(site: Site, q: Query, mm: Master, chosen: seq<Device>, ip: string) {
    (forall i :: 0 <= i < |NamedBy(mm.lookup(ip))| ==>
       MappedTo(Some(NamedBy(mm.lookup(ip))[i]), chosen, site.norm))
    <==>
    && MappedTo(SwitchOf(mm.lookup(ip)), EnabledOf(site.devices), site.norm)
    && (Unclear(mm.lookup(ip)) ==>
         forall i :: 0 <= i < |mm.lookup(ip).switches| ==> AskedAnyway(site, q, mm, mm.lookup(ip).switches[i]))
  }

  lemma ReachedIff(site: Site, q: Query, mm: Master, chosen: seq<Device>, switch: Ipv4)
    requires forall d :: d in chosen <==> AskedFor(site, q, mm, d)
    ensures MappedTo(Some(switch), chosen, site.norm) <==> AskedAnyway(site, q, mm, switch)
  {
    var enabled := EnabledOf(site.devices);
    if MappedTo(Some(switch), chosen, site.norm) {
      var i :| 0 <= i < |chosen| && site.norm(Text(switch)) in Labels(chosen[i], site.norm);
      assert chosen[i] in chosen;
      var j :| 0 <= j < |enabled| && enabled[j] == chosen[i];
      assert Serves(site, enabled[j], switch);
    }
    if AskedAnyway(site, q, mm, switch) {
      var j :| 0 <= j < |enabled| && AskedFor(site, q, mm, enabled[j]) && Serves(site, enabled[j], switch);
      assert enabled[j] in chosen;
    }
  }

  lemma NamedAskedIff(site: Site, q: Query, mm: Master, chosen: seq<Device>, ip: string)
    requires ip in ClientIps(q.request) && forall d :: d in chosen <==> AskedFor(site, q, mm, d)
    ensures NamedAsked(site, q, mm, chosen, ip)
  {
    var l := mm.lookup(ip);
    forall i | 0 <= i < |NamedBy(l)|
      ensures MappedTo(Some(NamedBy(l)[i]), chosen, site.norm) <==> AskedAnyway(site, q, mm, NamedBy(l)[i])
    {
      ReachedIff(site, q, mm, chosen, NamedBy(l)[i]);
    }
    if SwitchOf(l).Some? {
      ClearAsked(site, q, mm, ip);
      assert NamedBy(l)[0] == SwitchOf(l).value && |NamedBy(l)| == 1;
    } else if Unclear(l) {
      assert NamedBy(l) == l.switches;
    }
  }

  /** The switch of a clear answer is asked as soon as it is a device. */
  lemma ClearAsked(site: Site, q: Query, mm: Master, ip: string)
    requires ip in ClientIps(q.request) && SwitchOf(mm.lookup(ip)).Some?
    ensures AskedAnyway(site, q, mm, SwitchOf(mm.lookup(ip)).value) <==>
            MappedTo(SwitchOf(mm.lookup(ip)), EnabledOf(site.devices), site.norm)
  {
    var enabled, switch := EnabledOf(site.devices), SwitchOf(mm.lookup(ip)).value;
    forall i | 0 <= i < |enabled| && Serves(site, enabled[i], switch)
      ensures ClearlyOn(site, q.request, mm, enabled[i])
    {
    }
  }

  lemma NamedTogether(site: Site, q: Query, mm: Master, chosen: seq<Device>)
    requires forall ip :: ip in ClientIps(q.request) ==> NamedAsked(site, q, mm, chosen, ip)
    ensures AsksEveryNamed(site, q.request, mm, chosen)
            <==> ClearMapped(site, q.request, mm) && DoubtsCovered(site, q, mm)
  {
  }

  // ----- what an authoritative answer proves -----

  lemma ReusedRoute(site: Site, q: Query, replies: Replies, b: Budget, cursor: nat, mm: Master)
    requires Askable(q, replies) && WithinLimits(b) && Configured(site) && Reuses(q, mm)
    requires Queried(site, q, replies, b, cursor).outcome.authoritative
    ensures var r := RouteOf(site, q, q.cached.value, replies.approval, cursor);
            && r.route == Ok(Queried(site, q, replies, b, cursor).asked)
            && ClearMapped(site, q.request, mm)
  {
    AuthoritativeIff(site, q, replies, b, cursor);
    ClearIsKnown(site, q.request, mm);
  }

  /** An authoritative query asks the device of every switch that was named if and only if the switches of the unclear
      answers are asked anyway. */
  lemma AuthoritativeAsksIff(site: Site, q: Query, replies: Replies, b: Budget, cursor: nat, mm: Master)
    requires Askable(q, replies) && WithinLimits(b) && Configured(site) && Reuses(q, mm)
    requires Queried(site, q, replies, b, cursor).outcome.authoritative
    ensures AsksEveryNamed(site, q.request, mm, DevicesOf(Queried(site, q, replies, b, cursor).asked))
            <==> DoubtsCovered(site, q, mm)
  {
    ReusedRoute(site, q, replies, b, cursor, mm);
    AsksEveryNamedIff(site, q, mm, replies.approval, cursor);
  }

  /** Whatever the tables of the devices hold, the observations have every matching row of every named device. */
  ghost predicate SeesEveryNamed(site: Site, request: Request, mm: Master, asked: seq<Candidate>, network: Network,
                                 observations: seq<Observation>) {
    forall tables: Device -> seq<Observation>, d, o ::
      (AllFaithful(asked, network, tables) && d in EnabledOf(site.devices) && NamedDevice(site, request, mm, d)
       && o in tables(d) && Matches(request, o)) ==> o in observations
  }

  /** Every device that an answer named is asked. */
  predicate NamedAreAsked(site: Site, q: Query, mm: Master) {
    forall d :: d in EnabledOf(site.devices) && NamedDevice(site, q.request, mm, d) ==> AskedFor(site, q, mm, d)
  }

  lemma NobodyNamed(site: Site, request: Request, mm: Master, d: Device)
    requires LocationBy(request, mm).fullScan
    ensures !NamedDevice(site, request, mm, d)
  {
    FullScanNamesNobody(request, mm);
  }

  /** A row that matches a request. */
  function SomeRow(request: Request, d: Device): (o: Observation)
    ensures Matches(request, o) && o.host == d.host
  {
    Observation(d.name, d.host,
                Flow(6, request.sourceIp, request.destinationIp,
                     if request.sourcePort.Some? then request.sourcePort.value else 0,
                     if request.destinationPort.Some? then request.destinationPort.value else 0),
                "", None, None, "")
  }

  /** So an authoritative query that reuses the location sees every matching row of every device that the answers
      named, whatever the tables hold, if and only if each of these devices is asked for another reason. */
  lemma AbsenceProvesIff(site: Site, q: Query, replies: Replies, b: Budget, cursor: nat, mm: Master,
                         tables: Device -> seq<Observation>)
    requires Askable(q, replies) && WithinLimits(b) && Configured(site) && Reuses(q, mm)
    requires Queried(site, q, replies, b, cursor).outcome.authoritative
    requires AllFaithful(Queried(site, q, replies, b, cursor).asked, replies.network, tables)
    ensures var reply := Queried(site, q, replies, b, cursor);
            SeesEveryNamed(site, q.request, mm, reply.asked, replies.network, reply.outcome.observations)
            <==> NamedAreAsked(site, q, mm)
  {
    var reply := Queried(site, q, replies, b, cursor);
    if NamedAreAsked(site, q, mm) {
      forall more: Device -> seq<Observation>, d, o |
        AllFaithful(reply.asked, replies.network, more) && d in EnabledOf(site.devices)
        && NamedDevice(site, q.request, mm, d) && o in more(d) && Matches(q.request, o)
        ensures o in reply.outcome.observations
      {
        NamedIsSeen(site, q, replies, b, cursor, mm, more, d, o);
      }
    } else {
      var d :| d in EnabledOf(site.devices) && NamedDevice(site, q.request, mm, d) && !AskedFor(site, q, mm, d);
      NamedIsHidden(site, q, replies, b, cursor, mm, tables, d);
    }
  }

  lemma NamedIsSeen(site: Site, q: Query, replies: Replies, b: Budget, cursor: nat, mm: Master,
                    tables: Device -> seq<Observation>, d: Device, o: Observation)
    requires Askable(q, replies) && WithinLimits(b) && Configured(site) && Reuses(q, mm)
    requires Queried(site, q, replies, b, cursor).outcome.authoritative
    requires AllFaithful(Queried(site, q, replies, b, cursor).asked, replies.network, tables)
    requires NamedDevice(site, q.request, mm, d) && AskedFor(site, q, mm, d)
    requires o in tables(d) && Matches(q.request, o)
    ensures o in Queried(site, q, replies, b, cursor).outcome.observations
  {
    var reply := Queried(site, q, replies, b, cursor);
    if q.cached.value.fullScan {
      NobodyNamed(site, q.request, mm, d);
    } else {
      ReusedRoute(site, q, replies, b, cursor, mm);
      TargetedAsks(site, q, mm, replies.approval, cursor, d);
      AuthoritativeIsComplete(site, q, replies, b, cursor, tables);
      var i :| 0 <= i < |DevicesOf(reply.asked)| && DevicesOf(reply.asked)[i] == d;
      assert InTables(reply.asked, tables, q.request, o);
    }
  }

  /** A named device that is not asked may hold a row that nobody sees. */
  lemma NamedIsHidden(site: Site, q: Query, replies: Replies, b: Budget, cursor: nat, mm: Master,
                      tables: Device -> seq<Observation>, d: Device)
    requires Askable(q, replies) && WithinLimits(b) && Configured(site) && Reuses(q, mm)
    requires Queried(site, q, replies, b, cursor).outcome.authoritative
    requires AllFaithful(Queried(site, q, replies, b, cursor).asked, replies.network, tables)
    requires d in EnabledOf(site.devices) && NamedDevice(site, q.request, mm, d) && !AskedFor(site, q, mm, d)
    ensures var reply := Queried(site, q, replies, b, cursor);
            !SeesEveryNamed(site, q.request, mm, reply.asked, replies.network, reply.outcome.observations)
  {
    var reply := Queried(site, q, replies, b, cursor);
    NotAsked(site, q, replies, b, cursor, mm, d);
    forall o | o in reply.outcome.observations ensures InTables(reply.asked, tables, q.request, o) {
      ObservationsGenuine(site, q, replies, b, cursor, tables, o);
    }
    RowIsHidden(site, q.request, mm, reply.asked, replies.network, reply.outcome.observations, tables, d);
  }

  lemma RowIsHidden(site: Site, request: Request, mm: Master, asked: seq<Candidate>, network: Network,
                    observations: seq<Observation>, tables: Device -> seq<Observation>, d: Device)
    requires AllFaithful(asked, network, tables)
    requires forall o :: o in observations ==> InTables(asked, tables, request, o)
    requires forall c :: c in asked ==> c.device != d && c.device.host != d.host
    requires d in EnabledOf(site.devices) && NamedDevice(site, request, mm, d)
    ensures !SeesEveryNamed(site, request, mm, asked, network, observations)
  {
    var o := SomeRow(request, d);
    var more: Device -> seq<Observation> := x => if x == d then [o] else tables(x);
    assert AllFaithful(asked, network, more) && o in more(d);
    forall i | 0 <= i < |asked| ensures o !in tables(asked[i].device) {
      assert asked[i] in asked;
    }
  }

  lemma NotAsked(site: Site, q: Query, replies: Replies, b: Budget, cursor: nat, mm: Master, d: Device)
    requires Askable(q, replies) && WithinLimits(b) && Configured(site) && Reuses(q, mm)
    requires Queried(site, q, replies, b, cursor).outcome.authoritative
    requires d in EnabledOf(site.devices) && NamedDevice(site, q.request, mm, d) && !AskedFor(site, q, mm, d)
    ensures forall c :: c in Queried(site, q, replies, b, cursor).asked ==>
              c.device != d && c.device.host != d.host
  {
    var enabled, asked := EnabledOf(site.devices), Queried(site, q, replies, b, cursor).asked;
    if q.cached.value.fullScan {
      NobodyNamed(site, q.request, mm, d);
    } else {
      ReusedRoute(site, q, replies, b, cursor, mm);
      TargetedAsks(site, q, mm, replies.approval, cursor, d);
      RouteSound(site, q, q.cached.value, replies.approval, cursor);
      forall i | 0 <= i < |asked| ensures asked[i].device != d && asked[i].device.host != d.host {
        assert DevicesOf(asked)[i] in DevicesOf(asked);
        HostsApart(enabled, asked[i].device, d, site.norm);
      }
    }
  }

  lemma HostsApart(enabled: seq<Device>, a: Device, d: Device, norm: string -> string)
    requires ValidTopology(enabled, norm) && a in enabled && d in enabled && a != d
    ensures a.host != d.host
  {
    var i :| 0 <= i < |enabled| && enabled[i] == a;
    var j :| 0 <= j < |enabled| && enabled[j] == d;
    assert Compatible(enabled[if i < j then i else j], enabled[if i < j then j else i], norm);
  }
}
