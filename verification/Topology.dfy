/**
 Requests, devices and the mapping of a current switch to a managed device
 (src/aruba_session_tracker/models.py:160-234 and 320-363, src/aruba_session_tracker/services/tracker.py:691-737).
 */
module Topology {
  import opened Wrappers
  import opened Addresses
  import opened Outcomes

  // ----- requests -----

  datatype Request = Request(
    sourceIp: string, destinationIp: string, sourcePort: Option<nat>, destinationPort: Option<nat>, bidirectional: bool)

  /** The constructor refuses a request without any address. */
  predicate Wellformed(r: Request) {
    r.sourceIp != "" || r.destinationIp != ""
  }

  /** `client_ips`: each entered address once, in the order of the form. */
  function ClientIps(r: Request): (ips: seq<string>)
    ensures forall ip :: ip in ips <==> ip != "" && (ip == r.sourceIp || ip == r.destinationIp)
    ensures |ips| == 2 ==> ips[0] != ips[1]
    ensures |ips| <= 2
  {
    (if r.sourceIp != "" then [r.sourceIp] else [])
    + (if r.destinationIp != "" && r.destinationIp != r.sourceIp then [r.destinationIp] else [])
  }

  function FilterIp(r: Request): string
    requires Wellformed(r)
  {
    ClientIps(r)[0]
  }

  predicate MatchesDirection(r: Request, f: Flow, reverse: bool) {
    var source := if reverse then r.destinationIp else r.sourceIp;
    var destination := if reverse then r.sourceIp else r.destinationIp;
    var sport := if reverse then r.destinationPort else r.sourcePort;
    var dport := if reverse then r.sourcePort else r.destinationPort;
    && (source == "" || f.sourceIp == source)
    && (destination == "" || f.destinationIp == destination)
    && (sport.None? || f.sourcePort == sport.value)
    && (dport.None? || f.destinationPort == dport.value)
  }

  predicate Matches(r: Request, o: Observation) {
    MatchesDirection(r, o.flow, false) || (r.bidirectional && MatchesDirection(r, o.flow, true))
  }

  predicate Contains(o: Observation, ip: string) {
    o.flow.sourceIp == ip || o.flow.destinationIp == ip
  }

  /** Why a filtered query is complete: a matching row contains every entered address. */
  lemma MatchesContain(r: Request, o: Observation, ip: string)
    requires Matches(r, o) && ip in ClientIps(r)
    ensures Contains(o, ip)
  {
  }

  // ----- the topology of the managed devices -----

  function Normalizer(u: Unicode): string -> string {
    s => NormalizeSwitch(u, s)
  }

  /** `name.split(".", 1)[0]`. */
  function FirstLabel(name: string): string {
    if name == "" || name[0] == '.' then "" else [name[0]] + FirstLabel(name[1..])
  }

  /** The names under which a device is known, normalised by `norm`; some may be empty. */
  function Labels(d: Device, norm: string -> string): set<string> {
    {norm(d.name), norm(d.host), norm(FirstLabel(d.name))}
  }

  function TokensOf(d: Device, norm: string -> string): set<string> {
    Labels(d, norm) - {""}
  }

  predicate Compatible(a: Device, b: Device, norm: string -> string) {
    a.host != b.host && norm(a.name) != norm(b.name) && TokensOf(a, norm) !! TokensOf(b, norm)
  }

  /** Enabled devices differ in host and normalised name, and share no mapping token. */
  predicate ValidTopology(devices: seq<Device>, norm: string -> string) {
    forall i, j :: 0 <= i < j < |devices| ==> Compatible(devices[i], devices[j], norm)
  }

  datatype TopologyError = SameMm | DuplicateHost | DuplicateName | DuplicateToken

  function HostsOf(devices: seq<Device>): set<string> {
    set i | 0 <= i < |devices| :: devices[i].host
  }

  function NamesOf(devices: seq<Device>, norm: string -> string): set<string> {
    set i | 0 <= i < |devices| :: norm(devices[i].name)
  }

  function AllTokens(devices: seq<Device>, norm: string -> string): set<string> {
    set i, t | 0 <= i < |devices| && t in TokensOf(devices[i], norm) :: t
  }

  lemma TokensSnoc(devices: seq<Device>, d: Device, norm: string -> string)
    ensures HostsOf(devices + [d]) == HostsOf(devices) + {d.host}
    ensures NamesOf(devices + [d], norm) == NamesOf(devices, norm) + {norm(d.name)}
    ensures AllTokens(devices + [d], norm) == AllTokens(devices, norm) + TokensOf(d, norm)
  {
    var more := devices + [d];
    assert more[|devices|] == d;
    assert forall i :: 0 <= i < |devices| ==> more[i] == devices[i];
    forall t | t in AllTokens(devices, norm) ensures t in AllTokens(more, norm) {
      var i :| 0 <= i < |devices| && t in TokensOf(devices[i], norm);
      assert t in TokensOf(more[i], norm);
    }
    forall t | t in TokensOf(d, norm) ensures t in AllTokens(more, norm) {
      assert t in TokensOf(more[|devices|], norm);
    }
    forall h | h in HostsOf(devices) ensures h in HostsOf(more) {
      var i :| 0 <= i < |devices| && devices[i].host == h;
      assert more[i].host == h;
    }
    forall h | h in NamesOf(devices, norm) ensures h in NamesOf(more, norm) {
      var i :| 0 <= i < |devices| && norm(devices[i].name) == h;
      assert norm(more[i].name) == h;
    }
  }

  /** A device fits beside all the earlier ones exactly when it repeats none of their hosts, names and tokens. */
  lemma FitsBeside(devices: seq<Device>, d: Device, norm: string -> string)
    ensures (forall i :: 0 <= i < |devices| ==> Compatible(devices[i], d, norm)) <==>
            d.host !in HostsOf(devices) && norm(d.name) !in NamesOf(devices, norm)
            && AllTokens(devices, norm) !! TokensOf(d, norm)
  {
    if d.host in HostsOf(devices) {
      var i :| 0 <= i < |devices| && devices[i].host == d.host;
    }
    if norm(d.name) in NamesOf(devices, norm) {
      var i :| 0 <= i < |devices| && norm(devices[i].name) == norm(d.name);
    }
    if !(AllTokens(devices, norm) !! TokensOf(d, norm)) {
      var t :| t in AllTokens(devices, norm) && t in TokensOf(d, norm);
      var i :| 0 <= i < |devices| && t in TokensOf(devices[i], norm);
      assert !Compatible(devices[i], d, norm);
    }
  }

  lemma TopologySnoc(devices: seq<Device>, n: nat, norm: string -> string)
    requires n < |devices| && ValidTopology(devices[..n], norm)
    ensures devices[..n + 1] == devices[..n] + [devices[n]]
    ensures ValidTopology(devices[..n + 1], norm) <==>
            forall i :: 0 <= i < n ==> Compatible(devices[..n][i], devices[n], norm)
    ensures ValidTopology(devices, norm) ==> ValidTopology(devices[..n + 1], norm)
  {
    var more := devices[..n + 1];
    assert more == devices[..n] + [devices[n]];
    assert forall i :: 0 <= i < n ==> more[i] == devices[..n][i] == devices[i];
    assert more[n] == devices[n];
  }

  /** `_validate_enabled_topology`. */
  method ValidateTopology(primary: Device, standby: Device, devices: seq<Device>, norm: string -> string)
    returns (r: Result<(), TopologyError>)
    ensures r.Ok? <==>
            ValidTopology(devices, norm)
            && !(primary.enabled && standby.enabled && primary.host == standby.host && primary.port == standby.port)
  {
    if primary.enabled && standby.enabled && primary.host == standby.host && primary.port == standby.port {
      return Err(SameMm);
    }
    var hosts: set<string>, names: set<string>, tokens: set<string> := {}, {}, {};
    for i := 0 to |devices|
      invariant ValidTopology(devices[..i], norm)
      invariant hosts == HostsOf(devices[..i]) && names == NamesOf(devices[..i], norm)
      invariant tokens == AllTokens(devices[..i], norm)
    {
      var device := devices[i];
      TopologySnoc(devices, i, norm);
      FitsBeside(devices[..i], device, norm);
      TokensSnoc(devices[..i], device, norm);
      if device.host in hosts {
        return Err(DuplicateHost);
      }
      if norm(device.name) in names {
        return Err(DuplicateName);
      }
      var own := TokensOf(device, norm);
      if tokens * own != {} {
        return Err(DuplicateToken);
      }
      hosts := hosts + {device.host};
      names := names + {norm(device.name)};
      tokens := tokens + own;
    }
    assert devices[..|devices|] == devices;
    r := Ok(());
  }

  // ----- the device of a location -----

  function EnabledOf(devices: seq<Device>): seq<Device> {
    if devices == [] then []
    else
      var rest := EnabledOf(devices[..|devices| - 1]);
      if devices[|devices| - 1].enabled then rest + [devices[|devices| - 1]] else rest
  }

  function Mapped(devices: seq<Device>, needle: string, norm: string -> string): seq<Device> {
    if devices == [] then []
    else
      var rest := Mapped(devices[..|devices| - 1], needle, norm);
      if needle in Labels(devices[|devices| - 1], norm) then rest + [devices[|devices| - 1]] else rest
  }

  lemma {:induction false} MappedSound(devices: seq<Device>, needle: string, norm: string -> string)
    ensures forall d :: d in Mapped(devices, needle, norm) <==> d in devices && needle in Labels(d, norm)
  {
    if devices != [] {
      MappedSound(devices[..|devices| - 1], needle, norm);
      assert devices == devices[..|devices| - 1] + [devices[|devices| - 1]];
    }
  }

  lemma NoSharedToken(a: Device, b: Device, needle: string, norm: string -> string)
    requires Compatible(a, b, norm) && needle != "" && needle in Labels(b, norm)
    ensures needle !in Labels(a, norm)
  {
    assert needle in Labels(a, norm) ==> needle in TokensOf(a, norm);
  }

  lemma CompatibleWithLast(devices: seq<Device>, d: Device, i: nat, norm: string -> string)
    requires ValidTopology(devices + [d], norm) && i < |devices|
    ensures Compatible(devices[i], d, norm)
  {
    assert Compatible((devices + [d])[i], (devices + [d])[|devices|], norm);
  }

  lemma {:induction false} NoneMapped(devices: seq<Device>, needle: string, norm: string -> string)
    requires forall i :: 0 <= i < |devices| ==> needle !in Labels(devices[i], norm)
    ensures Mapped(devices, needle, norm) == []
  {
    if devices != [] {
      NoneMapped(devices[..|devices| - 1], needle, norm);
    }
  }

  lemma OnlyTheLast(devices: seq<Device>, d: Device, needle: string, norm: string -> string)
    requires ValidTopology(devices + [d], norm) && needle != "" && needle in Labels(d, norm)
    ensures Mapped(devices, needle, norm) == []
  {
    forall i | 0 <= i < |devices| ensures needle !in Labels(devices[i], norm) {
      CompatibleWithLast(devices, d, i, norm);
      NoSharedToken(devices[i], d, needle, norm);
    }
    NoneMapped(devices, needle, norm);
  }

  /** In a valid topology a non-empty switch token maps to one device at most. */
  lemma {:induction false} MappedOnce(devices: seq<Device>, needle: string, norm: string -> string)
    requires ValidTopology(devices, norm) && needle != ""
    ensures |Mapped(devices, needle, norm)| <= 1
  {
    if devices != [] {
      var init, last := devices[..|devices| - 1], devices[|devices| - 1];
      assert devices == init + [last];
      assert forall i :: 0 <= i < |init| ==> init[i] == devices[i];
      MappedOnce(init, needle, norm);
      if needle in Labels(last, norm) {
        OnlyTheLast(init, last, needle, norm);
      }
    }
  }

  /** So the location of a client maps to one device at most: the text of a parsed switch address is a token that
      normalises to itself. */
  lemma LocationMappedOnce(devices: seq<Device>, switch: Ipv4, u: Unicode)
    requires Ordinary(u) && ValidTopology(devices, Normalizer(u))
    ensures |Mapped(devices, Normalizer(u)(Text(switch)), Normalizer(u))| <= 1
  {
    SwitchTextKept(u, switch);
    MappedOnce(devices, Text(switch), Normalizer(u));
  }

  /** `_device_for_location`: one device, or a diagnostic that says why there is none. */
  function DeviceFor(devices: seq<Device>, location: Option<Ipv4>, norm: string -> string)
    : (Option<Device>, seq<Diagnostic>)
  {
    if location.None? then (None, [])
    else
      var found := Mapped(EnabledOf(devices), norm(Text(location.value)), norm);
      if |found| == 1 then (Some(found[0]), [])
      else (None, [Diagnostic("MD_ROUTE", if |found| > 1 then SwitchAmbiguous else SwitchUnmapped, false, false)])
  }
}
