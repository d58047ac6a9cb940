/**
 One query: where the clients are, which managed devices to ask, and what their tables say
 (src/aruba_session_tracker/services/tracker.py).

 What the network answers is an input: an `MmAnswer` per mobility master and an `Answer` per device and filter.
 Each loop of the source is a method, proved equal to a function over the entered addresses or over the
 devices; what such a function means is stated by the lemmas beside it.
 */
module Tracker {
  import opened Wrappers
  import opened Addresses
  import opened Outcomes
  import opened RawBundle
  import opened Topology

  // ----- the budget of one poll -----

  /** The limits of one poll and what was consumed so far; `encoding` measures what would be stored. */
  datatype Budget = Budget(
    encoding: Encoding, maxRaw: nat, maxObservations: nat, rawBytes: nat, observations: nat)

  /** The snapshots can be stored within the limit. */
  predicate Stores(b: Budget, raw: seq<Raw>) {
    PersistedSize(b.encoding, raw) <= b.maxRaw
  }

  function Storing(b: Budget, raw: seq<Raw>): Budget {
    b.(rawBytes := PersistedSize(b.encoding, raw))
  }

  /** The same limits, whatever was consumed. */
  ghost predicate SameLimits(b: Budget, c: Budget) {
    c == b.(rawBytes := c.rawBytes, observations := c.observations)
  }

  predicate WithinLimits(b: Budget) {
    b.rawBytes <= b.maxRaw && b.observations <= b.maxObservations <= MAX_POLL_OBSERVATIONS
  }

  class PollBudget {
    const encoding: Encoding
    const maxRaw: nat
    const maxObservations: nat
    var rawBytes: nat
    var observations: nat

    function View(): Budget
      reads this
    {
      Budget(encoding, maxRaw, maxObservations, rawBytes, observations)
    }

    predicate Valid()
      reads this
    {
      WithinLimits(View())
    }

    constructor (encoding: Encoding, maxRaw: nat, maxObservations: nat)
      requires 1 <= maxRaw && 1 <= maxObservations <= MAX_POLL_OBSERVATIONS
      ensures Valid() && View() == Budget(encoding, maxRaw, maxObservations, 0, 0)
    {
      this.encoding, this.maxRaw, this.maxObservations := encoding, maxRaw, maxObservations;
      rawBytes, observations := 0, 0;
    }

    /** `consume_raw` adds to what was consumed before. */
    method ConsumeRaw(size: nat) returns (ok: bool)
      requires Valid()
      modifies this`rawBytes
      ensures Valid() && ok == (old(rawBytes) + size <= maxRaw)
      ensures rawBytes == if ok then old(rawBytes) + size else old(rawBytes)
    {
      ok := rawBytes + size <= maxRaw;
      if ok {
        rawBytes := rawBytes + size;
      }
    }

    /** `consume_snapshots` replaces it by the stored size of all the snapshots of the pass. */
    method ConsumeSnapshots(raw: seq<Raw>) returns (ok: bool)
      requires Valid()
      modifies this`rawBytes
      ensures Valid() && ok == Stores(old(View()), raw)
      ensures View() == if ok then Storing(old(View()), raw) else old(View())
    {
      var size := PersistedSize(encoding, raw);
      ok := size <= maxRaw;
      if ok {
        rawBytes := size;
      }
    }

    method ConsumeObservations(count: nat) returns (ok: bool)
      requires Valid()
      modifies this`observations
      ensures Valid() && ok == (old(observations) + count <= maxObservations)
      ensures observations == if ok then old(observations) + count else old(observations)
    {
      ok := observations + count <= maxObservations;
      if ok {
        observations := observations + count;
      }
    }
  }

  // ----- the location of the clients -----

  datatype LookupStatus = FOUND | AMBIGUOUS | NOT_FOUND

  datatype Lookup = Lookup(status: LookupStatus, switches: seq<Ipv4>) | Unreadable(code: Code)

  /** `output` is the number of bytes of the answer for an address. */
  datatype MmAnswer =
    | MmFailed(code: Code, retryable: bool, stage: string)
    | MmAnswered(lookup: string -> Lookup, output: string -> nat)

  function SwitchOf(l: Lookup): Option<Ipv4> {
    if l.Lookup? && l.status.FOUND? && |l.switches| == 1 then Some(l.switches[0]) else None
  }

  predicate Unclear(l: Lookup) {
    l.Lookup? && SwitchOf(l).None? && (l.status.AMBIGUOUS? || |l.switches| > 1)
  }

  predicate Absent(l: Lookup) {
    l.Lookup? && SwitchOf(l).None? && !Unclear(l)
  }

  /** Only a network failure of the primary, and never a deadline, leads to the standby. */
  predicate FailsOver(a: MmAnswer) {
    a.MmFailed? && a.retryable && !a.code.DeadlineExceeded?
  }

  function AskedMms(primary: Device, standby: Device, answers: seq<MmAnswer>): seq<nat>
    requires |answers| == 2
  {
    (if primary.enabled then [0] else [])
    + (if standby.enabled && (!primary.enabled || FailsOver(answers[0])) then [1] else [])
  }

  /** `_resolve_locations` asks the primary and, after a network failure, the standby. */
  function MmSelection(primary: Device, standby: Device, answers: seq<MmAnswer>): Option<nat>
    requires |answers| == 2
  {
    var asked := AskedMms(primary, standby, answers);
    if asked != [] && answers[asked[|asked| - 1]].MmAnswered? then Some(asked[|asked| - 1]) else None
  }

  function MmFailure(a: MmAnswer): seq<Diagnostic> {
    if a.MmFailed? then [Diagnostic(a.stage, a.code, a.retryable, false)] else []
  }

  /** What is reported: the failures, or that there is nobody to ask; after a failover they count as recovered. */
  function MmDiagnostics(primary: Device, standby: Device, answers: seq<MmAnswer>): seq<Diagnostic>
    requires |answers| == 2
  {
    var asked := AskedMms(primary, standby, answers);
    var failures := (if 0 in asked then MmFailure(answers[0]) else [])
                    + (if 1 in asked then MmFailure(answers[1]) else []);
    if asked == [] then [Diagnostic("MM_QUERY", Unreachable, false, false)]
    else if MmSelection(primary, standby, answers) == Some(1) then Recovered(failures)
    else failures
  }

  /** After a failover the failed query of the primary counts as recovered. */
  function Recovered(diagnostics: seq<Diagnostic>): (r: seq<Diagnostic>)
    ensures |r| == |diagnostics|
  {
    seq(|diagnostics|, i requires 0 <= i < |diagnostics| =>
      var e := diagnostics[i]; if e.stage == "MM_QUERY" && e.transient then e.(recovered := true) else e)
  }

  /** The loop over the mobility masters. */
  method SelectMm(primary: Device, standby: Device, answers: seq<MmAnswer>)
    returns (selected: Option<nat>, diagnostics: seq<Diagnostic>)
    requires |answers| == 2
    ensures selected == MmSelection(primary, standby, answers)
    ensures diagnostics == MmDiagnostics(primary, standby, answers)
  {
    selected, diagnostics := None, [];
    for index := 0 to 2
      invariant selected.None?
      invariant index == 0 || !primary.enabled ==> diagnostics == []
      invariant index > 0 && primary.enabled ==> FailsOver(answers[0]) && diagnostics == MmFailure(answers[0])
      invariant index > 1 ==> !standby.enabled
    {
      var target := if index == 0 then primary else standby;
      if !target.enabled {
        continue;
      }
      match answers[index] {
        case MmAnswered(_, _) =>
          selected := Some(index);
          break;
        case MmFailed(code, retryable, stage) =>
          diagnostics := diagnostics + [Diagnostic(stage, code, retryable, false)];
          if code.DeadlineExceeded? || !retryable || index > 0 {
            return;
          }
      }
    }
    if selected.None? && diagnostics == [] {
      diagnostics := [Diagnostic("MM_QUERY", Unreachable, false, false)];
    }
    if selected == Some(1) {
      diagnostics := Recovered(diagnostics);
    }
  }

  predicate AnyUnclear(lookup: string -> Lookup, ips: seq<string>) {
    exists i :: 0 <= i < |ips| && Unclear(lookup(ips[i]))
  }

  predicate AllAbsent(lookup: string -> Lookup, ips: seq<string>) {
    forall i :: 0 <= i < |ips| ==> Absent(lookup(ips[i]))
  }

  /** Diagnostics after which a missing session proves nothing. */
  predicate RoutingDoubt(diagnostics: seq<Diagnostic>) {
    exists i :: 0 <= i < |diagnostics| && (diagnostics[i].code.SwitchAmbiguous? || diagnostics[i].code.SwitchUnmapped?)
  }

  lemma DoubtConcat(a: seq<Diagnostic>, b: seq<Diagnostic>)
    ensures RoutingDoubt(a + b) <==> RoutingDoubt(a) || RoutingDoubt(b)
  {
    var all := a + b;
    assert forall i :: 0 <= i < |a| ==> all[i] == a[i];
    assert forall i :: 0 <= i < |b| ==> all[|a| + i] == b[i];
  }

  /** Snapshots that own no observation. */
  predicate OwnNothing(raw: seq<Raw>) {
    forall i :: 0 <= i < |raw| ==> raw[i].keys == Some([])
  }

  // ----- the answers for the entered addresses -----

  /** A mobility master and its answers. */
  datatype Master = Master(name: string, lookup: string -> Lookup, output: string -> nat)

  /** `build_global_user_command`. */
  function GlobalUserCommand(ip: string): string {
    "show global-user-table list ip \"" + ip + "\""
  }

  function MmSnapshot(mm: Master, ip: string): Raw {
    Raw(mm.name, GlobalUserCommand(ip), mm.output(ip), Some([]))
  }

  /** The snapshots of all the answers. */
  function MmSnapshots(mm: Master, ips: seq<string>): (raw: seq<Raw>)
    ensures OwnNothing(raw) && |raw| == |ips|
  {
    if ips == [] then [] else MmSnapshots(mm, ips[..|ips| - 1]) + [MmSnapshot(mm, ips[|ips| - 1])]
  }

  /** What the loop over the entered addresses has read; not `ok` once it had to give up. */
  datatype Reading = Reading(ok: bool, diagnostics: seq<Diagnostic>, raw: seq<Raw>, budget: Budget)

  const AMBIGUOUS_SWITCH := Diagnostic("MM_PARSE", SwitchAmbiguous, false, false)
  const TOO_MUCH_MM := Diagnostic("MM_COLLECT", OutputLimitExceeded, false, false)

  function ReadNext(r: Reading, ip: string, mm: Master): Reading {
    var raw := r.raw + [MmSnapshot(mm, ip)];
    if !Stores(r.budget, raw) then r.(ok := false, diagnostics := r.diagnostics + [TOO_MUCH_MM])
    else
      var budget := Storing(r.budget, raw);
      if mm.lookup(ip).Unreadable?
      then Reading(false, r.diagnostics + [Diagnostic("MM_PARSE", mm.lookup(ip).code, false, false)], raw, budget)
      else Reading(true, r.diagnostics + if Unclear(mm.lookup(ip)) then [AMBIGUOUS_SWITCH] else [], raw, budget)
  }

  function ReadIps(ips: seq<string>, mm: Master, b: Budget): Reading {
    if ips == [] then Reading(true, [], [], b)
    else
      var r := ReadIps(ips[..|ips| - 1], mm, b);
      if !r.ok then r else ReadNext(r, ips[|ips| - 1], mm)
  }

  lemma {:induction false} ReadStops(ips: seq<string>, n: nat, mm: Master, b: Budget)
    requires n <= |ips| && !ReadIps(ips[..n], mm, b).ok
    ensures ReadIps(ips, mm, b) == ReadIps(ips[..n], mm, b)
  {
    if n == |ips| {
      assert ips[..n] == ips;
    } else {
      assert ips[..|ips| - 1][..n] == ips[..n];
      ReadStops(ips[..|ips| - 1], n, mm, b);
    }
  }

  lemma ReadSnoc(ips: seq<string>, i: nat, mm: Master, b: Budget)
    requires i < |ips| && ReadIps(ips[..i], mm, b).ok
    ensures ReadIps(ips[..i + 1], mm, b) == ReadNext(ReadIps(ips[..i], mm, b), ips[i], mm)
    ensures !ReadIps(ips[..i + 1], mm, b).ok ==> ReadIps(ips, mm, b) == ReadIps(ips[..i + 1], mm, b)
  {
    assert ips[..i + 1][..i] == ips[..i];
    if !ReadIps(ips[..i + 1], mm, b).ok {
      ReadStops(ips, i + 1, mm, b);
    }
  }

  /** Whatever was read can be stored. */
  lemma {:induction false} ReadingStores(ips: seq<string>, mm: Master, b: Budget)
    requires WithinLimits(b)
    ensures var r := ReadIps(ips, mm, b);
            && Stores(b, r.raw) && WithinLimits(r.budget) && SameLimits(b, r.budget)
            && r.budget.observations == b.observations
  {
    if ips != [] {
      ReadingStores(ips[..|ips| - 1], mm, b);
    }
  }

  /** It owns no observation, and nothing is missing unless reading failed. */
  lemma {:induction false} ReadingOwns(ips: seq<string>, mm: Master, b: Budget)
    ensures var r := ReadIps(ips, mm, b); OwnNothing(r.raw) && (r.ok ==> r.raw == MmSnapshots(mm, ips))
  {
    if ips != [] {
      ReadingOwns(ips[..|ips| - 1], mm, b);
    }
  }

  /** Reading succeeds exactly when all the answers together can be stored and each can be parsed. */
  lemma {:induction false} ReadingOkIff(ips: seq<string>, mm: Master, b: Budget)
    requires WithinLimits(b)
    ensures ReadIps(ips, mm, b).ok <==>
            Stores(b, MmSnapshots(mm, ips)) && forall i :: 0 <= i < |ips| ==> mm.lookup(ips[i]).Lookup?
  {
    if ips != [] {
      var init, last := ips[..|ips| - 1], ips[|ips| - 1];
      assert ips == init + [last];
      assert forall i :: 0 <= i < |init| ==> init[i] == ips[i];
      ReadingOkIff(init, mm, b);
      ReadingStores(init, mm, b);
      ReadingOwns(init, mm, b);
      SizeGrows(b.encoding, MmSnapshots(mm, init), MmSnapshot(mm, last));
    }
  }

  /** Then it doubts exactly when some answer is unclear. */
  lemma {:induction false} ReadingDoubts(ips: seq<string>, mm: Master, b: Budget)
    requires ReadIps(ips, mm, b).ok
    ensures RoutingDoubt(ReadIps(ips, mm, b).diagnostics) <==> AnyUnclear(mm.lookup, ips)
  {
    if ips != [] {
      var init, last := ips[..|ips| - 1], ips[|ips| - 1];
      assert ips == init + [last];
      assert forall i :: 0 <= i < |init| ==> init[i] == ips[i];
      ReadingDoubts(init, mm, b);
      var more := if Unclear(mm.lookup(last)) then [AMBIGUOUS_SWITCH] else [];
      DoubtConcat(ReadIps(init, mm, b).diagnostics, more);
      assert Unclear(mm.lookup(last)) ==> more[0].code.SwitchAmbiguous?;
    }
  }

  function Resolutions(lookup: string -> Lookup, ips: seq<string>): map<string, Option<Ipv4>> {
    map ip | ip in ips :: SwitchOf(lookup(ip))
  }

  function Absences(lookup: string -> Lookup, ips: seq<string>): map<string, bool> {
    map ip | ip in ips :: Absent(lookup(ip))
  }

  lemma MapsSnoc(lookup: string -> Lookup, ips: seq<string>, i: nat)
    requires i < |ips|
    ensures Resolutions(lookup, ips[..i + 1]) == Resolutions(lookup, ips[..i])[ips[i] := SwitchOf(lookup(ips[i]))]
    ensures Absences(lookup, ips[..i + 1]) == Absences(lookup, ips[..i])[ips[i] := Absent(lookup(ips[i]))]
  {
    assert ips[..i + 1] == ips[..i] + [ips[i]];
  }

  /** One answer is kept, checked and read. */
  method ReadTurn(ip: string, mm: Master, budget: PollBudget, earlier: seq<Diagnostic>, snapshots: seq<Raw>)
    returns (ok: bool, location: Option<Ipv4>, absent: bool, diagnostics: seq<Diagnostic>, raw: seq<Raw>)
    requires budget.Valid()
    modifies budget`rawBytes
    ensures budget.Valid()
    ensures Reading(ok, diagnostics, raw, budget.View())
            == ReadNext(Reading(true, earlier, snapshots, old(budget.View())), ip, mm)
    ensures ok ==> location == SwitchOf(mm.lookup(ip)) && absent == Absent(mm.lookup(ip))
  {
    ok, location, absent, diagnostics, raw := false, None, false, earlier, snapshots;
    var candidate := Raw(mm.name, GlobalUserCommand(ip), mm.output(ip), Some([]));
    var fits := budget.ConsumeSnapshots(raw + [candidate]);
    if !fits {
      diagnostics := diagnostics + [TOO_MUCH_MM];
      return;
    }
    raw := raw + [candidate];
    match mm.lookup(ip) {
      case Unreadable(code) =>
        diagnostics := diagnostics + [Diagnostic("MM_PARSE", code, false, false)];
      case Lookup(status, switches) =>
        ok := true;
        if status.FOUND? && |switches| == 1 {
          location := Some(switches[0]);
        } else if status.AMBIGUOUS? || |switches| > 1 {
          diagnostics := diagnostics + [AMBIGUOUS_SWITCH];
        } else {
          absent := true;
        }
    }
  }

  /** The loop over the entered addresses in `_resolve_locations`. */
  method ReadAll(ips: seq<string>, mm: Master, budget: PollBudget)
    returns (found: Option<(map<string, Option<Ipv4>>, map<string, bool>)>, diagnostics: seq<Diagnostic>, raw: seq<Raw>)
    requires budget.Valid()
    modifies budget`rawBytes
    ensures budget.Valid() && var r := ReadIps(ips, mm, old(budget.View()));
            && diagnostics == r.diagnostics && raw == r.raw && budget.View() == r.budget
            && found == if r.ok then Some((Resolutions(mm.lookup, ips), Absences(mm.lookup, ips))) else None
  {
    diagnostics, raw := [], [];
    ghost var start := budget.View();
    var resolved: map<string, Option<Ipv4>>, notFound: map<string, bool> := map[], map[];
    for i := 0 to |ips|
      invariant budget.Valid()
      invariant ReadIps(ips[..i], mm, start) == Reading(true, diagnostics, raw, budget.View())
      invariant resolved == Resolutions(mm.lookup, ips[..i]) && notFound == Absences(mm.lookup, ips[..i])
    {
      var ip := ips[i];
      var ok, location, absent;
      ReadSnoc(ips, i, mm, start);
      ok, location, absent, diagnostics, raw := ReadTurn(ip, mm, budget, diagnostics, raw);
      if !ok {
        return None, diagnostics, raw;
      }
      MapsSnoc(mm.lookup, ips, i);
      resolved, notFound := resolved[ip := location], notFound[ip := absent];
    }
    assert ips[..|ips|] == ips;
    found := Some((resolved, notFound));
  }

  /** What the answers say about the entered addresses. */
  function LocationBy(request: Request, mm: Master): Location {
    Location(
      if request.sourceIp != "" then SwitchOf(mm.lookup(request.sourceIp)) else None,
      if request.destinationIp != "" then SwitchOf(mm.lookup(request.destinationIp)) else None,
      Some(mm.name), AllAbsent(mm.lookup, ClientIps(request)))
  }

  /** The second half of `_resolve_locations`: the answer for every entered address. */
  method ReadLocations(request: Request, mm: Master, budget: PollBudget)
    returns (location: Option<Location>, diagnostics: seq<Diagnostic>, raw: seq<Raw>)
    requires Wellformed(request) && budget.Valid()
    modifies budget`rawBytes
    ensures budget.Valid() && var r := ReadIps(ClientIps(request), mm, old(budget.View()));
            && diagnostics == r.diagnostics && raw == r.raw && budget.View() == r.budget
            && location == if r.ok then Some(LocationBy(request, mm)) else None
  {
    var found, more, snapshots := ReadAll(ClientIps(request), mm, budget);
    diagnostics, raw := more, snapshots;
    if found.None? {
      return None, diagnostics, raw;
    }
    var place := Assemble(request, found.value.0, found.value.1, mm);
    location := Some(place);
  }

  /** The snapshot of the locations, from the two dictionaries of the loop. */
  method Assemble(request: Request, resolved: map<string, Option<Ipv4>>, notFound: map<string, bool>, mm: Master)
    returns (l: Location)
    requires Wellformed(request)
    requires resolved == Resolutions(mm.lookup, ClientIps(request))
    requires notFound == Absences(mm.lookup, ClientIps(request))
    ensures l == LocationBy(request, mm)
  {
    AbsencesAll(mm.lookup, ClientIps(request));
    l := Location(
      if request.sourceIp != "" then resolved[request.sourceIp] else None,
      if request.destinationIp != "" then resolved[request.destinationIp] else None,
      Some(mm.name),
      forall ip :: ip in notFound ==> notFound[ip]);
  }

  lemma AbsencesAll(lookup: string -> Lookup, ips: seq<string>)
    ensures AllAbsent(lookup, ips) <==> forall ip :: ip in Absences(lookup, ips) ==> Absences(lookup, ips)[ip]
  {
    forall i | 0 <= i < |ips| ensures ips[i] in Absences(lookup, ips) {
    }
  }

  // ----- what the devices answer -----

  /** `output` is the number of bytes of the answer. */
  datatype Answer =
    | Refused(code: Code, retryable: bool, stage: string, expired: bool)
    | Output(parsed: Result<seq<Observation>, Code>, output: nat)

  datatype Candidate = Candidate(device: Device, filterIp: string)

  type Network = Candidate -> Answer

  /** Failures after which no further device is asked. */
  predicate EndsQuery(a: Answer) {
    a.Refused? && (a.code.AuthFailed? || a.code.Cancelled? || a.code.CommandRejected? || a.code.HostKeyChanged?
                   || a.code.HostKeyUnknown? || (a.code.DeadlineExceeded? && a.expired))
  }

  function Filtered(table: seq<Observation>, ip: string): seq<Observation> {
    if table == [] then []
    else
      var rest := Filtered(table[..|table| - 1], ip);
      if Contains(table[|table| - 1], ip) then rest + [table[|table| - 1]] else rest
  }

  /** A device that answers shows the rows of its full table that contain the filter address. */
  predicate Faithful(a: Answer, table: seq<Observation>, ip: string) {
    a.Output? && a.parsed.Ok? ==> a.parsed.value == Filtered(table, ip)
  }

  /** Every row of the table of a device carries its host, and no session appears twice. */
  predicate TableOf(table: seq<Observation>, d: Device) {
    DistinctKeys(table) && forall i :: 0 <= i < |table| ==> table[i].host == d.host
  }

  lemma {:induction false} FilteredSound(table: seq<Observation>, ip: string)
    ensures forall o :: o in Filtered(table, ip) <==> o in table && Contains(o, ip)
    ensures DistinctKeys(table) ==> DistinctKeys(Filtered(table, ip))
  {
    if table != [] {
      var init, last := table[..|table| - 1], table[|table| - 1];
      FilteredSound(init, ip);
      assert table == init + [last];
      if DistinctKeys(table) {
        assert DistinctKeys(init) by {
          assert forall i :: 0 <= i < |init| ==> init[i] == table[i];
        }
        var kept := Filtered(init, ip);
        forall i | 0 <= i < |kept| ensures KeyOf(kept[i]) != KeyOf(last) {
          assert kept[i] in init;
        }
      }
    }
  }

  // ----- the rows of one device -----

  /** The rows that a device adds: matching, and of a session that is not there yet. */
  function NewRows(observations: seq<Observation>, rows: seq<Observation>, request: Request): seq<Observation> {
    if rows == [] then []
    else
      var before, last := NewRows(observations, rows[..|rows| - 1], request), rows[|rows| - 1];
      if Matches(request, last) && Find(observations + before, KeyOf(last)).None? then before + [last] else before
  }

  function KeysOf(s: seq<Observation>): (keys: seq<Key>)
    ensures |keys| == |s|
    ensures forall i :: 0 <= i < |s| ==> keys[i] == KeyOf(s[i])
  {
    seq(|s|, i requires 0 <= i < |s| => KeyOf(s[i]))
  }

  lemma {:induction false} NewRowsDistinct(observations: seq<Observation>, rows: seq<Observation>, request: Request)
    requires DistinctKeys(observations)
    ensures DistinctKeys(observations + NewRows(observations, rows, request))
    ensures |NewRows(observations, rows, request)| <= |rows|
    ensures forall o :: o in NewRows(observations, rows, request) ==> o in rows && Matches(request, o)
  {
    if rows != [] {
      var init, last := rows[..|rows| - 1], rows[|rows| - 1];
      NewRowsDistinct(observations, init, request);
      var all := observations + NewRows(observations, init, request);
      FindSound(all, KeyOf(last));
      assert observations + (NewRows(observations, init, request) + [last]) == all + [last];
    }
  }

  lemma {:induction false} NewRowsAll(observations: seq<Observation>, rows: seq<Observation>, request: Request)
    requires DistinctKeys(rows)
    requires forall i, j :: 0 <= i < |observations| && 0 <= j < |rows| ==> KeyOf(observations[i]) != KeyOf(rows[j])
    ensures forall o :: o in NewRows(observations, rows, request) <==> o in rows && Matches(request, o)
  {
    if rows != [] {
      var init, last := rows[..|rows| - 1], rows[|rows| - 1];
      assert rows == init + [last];
      assert forall j :: 0 <= j < |init| ==> init[j] == rows[j];
      NewRowsAll(observations, init, request);
      var before := NewRows(observations, init, request);
      var all := observations + before;
      FindSound(all, KeyOf(last));
      forall i | 0 <= i < |all| ensures KeyOf(all[i]) != KeyOf(last) {
        if i >= |observations| {
          assert all[i] == before[i - |observations|] && all[i] in init;
        }
      }
    }
  }

  /** The inner loop of `query_once`. */
  method MatchRows(request: Request, rows: seq<Observation>, before: seq<Observation>)
    returns (observations: seq<Observation>, matched: seq<Key>)
    ensures observations == before + NewRows(before, rows, request)
    ensures matched == KeysOf(NewRows(before, rows, request))
  {
    observations, matched := before, [];
    for i := 0 to |rows|
      invariant observations == before + NewRows(before, rows[..i], request)
      invariant matched == KeysOf(NewRows(before, rows[..i], request))
    {
      assert rows[..i + 1][..i] == rows[..i];
      if Matches(request, rows[i]) {
        var key := KeyOf(rows[i]);
        if Find(observations, key).None? {
          observations := observations + [rows[i]];
          matched := matched + [key];
        }
      }
    }
    assert rows[..|rows|] == rows;
  }

  // ----- the evidence stays a partition -----

  lemma PartitionOfNothing(raw: seq<Raw>)
    requires OwnNothing(raw)
    ensures Partition(OwnedKeys(raw), [])
  {
    forall k ensures FindLast([], k).None? {
    }
  }

  lemma PartitionOpens(owned: seq<seq<Key>>, observations: seq<Observation>)
    requires Partition(owned, observations)
    ensures Partition(owned + [[]], observations)
  {
    var more := owned + [[]];
    forall k | FindLast(observations, k).Some? ensures exists i :: 0 <= i < |more| && k in more[i] {
      var i :| 0 <= i < |owned| && k in owned[i];
      assert k in more[i];
    }
  }

  lemma FindLastConcat(a: seq<Observation>, b: seq<Observation>, k: Key)
    ensures FindLast(a + b, k).Some? <==> FindLast(a, k).Some? || FindLast(b, k).Some?
  {
    FindLastSound(a, k);
    FindLastSound(b, k);
    FindLastSound(a + b, k);
    forall i | 0 <= i < |a| && KeyOf(a[i]) == k ensures FindLast(a + b, k).Some? {
      assert (a + b)[i] == a[i];
    }
    forall i | 0 <= i < |b| && KeyOf(b[i]) == k ensures FindLast(a + b, k).Some? {
      assert (a + b)[|a| + i] == b[i];
    }
  }

  lemma KeysFound(s: seq<Observation>, k: Key)
    ensures k in KeysOf(s) <==> FindLast(s, k).Some?
  {
    FindLastSound(s, k);
    forall i | 0 <= i < |s| && KeyOf(s[i]) == k ensures k in KeysOf(s) {
      assert KeysOf(s)[i] == k;
    }
  }

  /** The snapshot of a device takes the keys of the rows that it adds. */
  lemma PartitionFills(owned: seq<seq<Key>>, before: seq<Observation>, added: seq<Observation>)
    requires Partition(owned, before) && DistinctKeys(before + added)
    ensures Partition(owned + [KeysOf(added)], before + added)
  {
    var more := owned + [KeysOf(added)];
    forall k ensures k in KeysOf(added) <==> FindLast(added, k).Some? {
      KeysFound(added, k);
    }
    forall k ensures FindLast(before + added, k).Some? <==> FindLast(before, k).Some? || FindLast(added, k).Some? {
      FindLastConcat(before, added, k);
    }
    forall k | FindLast(added, k).Some? ensures FindLast(before, k).None? {
      DisjointKeys(before, added, k);
    }
    assert DistinctList(KeysOf(added)) by {
      assert forall i :: 0 <= i < |added| ==> added[i] == (before + added)[|before| + i];
    }
    forall k | FindLast(before + added, k).Some? ensures exists i :: 0 <= i < |more| && k in more[i] {
      if FindLast(before, k).Some? {
        var i :| 0 <= i < |owned| && k in owned[i];
        assert k in more[i];
      } else {
        assert k in more[|owned|];
      }
    }
  }

  lemma DisjointKeys(before: seq<Observation>, added: seq<Observation>, k: Key)
    requires DistinctKeys(before + added) && FindLast(added, k).Some?
    ensures FindLast(before, k).None?
  {
    FindLastSound(before, k);
    FindLastSound(added, k);
    var j :| 0 <= j < |added| && KeyOf(added[j]) == k;
    assert (before + added)[|before| + j] == added[j];
    forall i | 0 <= i < |before| ensures KeyOf(before[i]) != k {
      assert (before + added)[i] == before[i];
    }
  }

  // ----- the device loop -----

  ghost predicate AllFaithful(candidates: seq<Candidate>, network: Network, tables: Device -> seq<Observation>) {
    forall i :: 0 <= i < |candidates| ==>
      && Faithful(network(candidates[i]), tables(candidates[i].device), candidates[i].filterIp)
      && TableOf(tables(candidates[i].device), candidates[i].device)
  }

  predicate DistinctHosts(candidates: seq<Candidate>) {
    forall i, j :: 0 <= i < j < |candidates| ==> candidates[i].device.host != candidates[j].device.host
  }

  predicate FiltersFit(candidates: seq<Candidate>, request: Request) {
    forall i :: 0 <= i < |candidates| ==> candidates[i].filterIp in ClientIps(request)
  }

  /** A matching row of the full table of one of these devices. */
  predicate InTables(candidates: seq<Candidate>, tables: Device -> seq<Observation>, request: Request, o: Observation) {
    exists i :: 0 <= i < |candidates| && o in tables(candidates[i].device) && Matches(request, o)
  }

  ghost predicate Complete(candidates: seq<Candidate>, tables: Device -> seq<Observation>, request: Request,
                           observations: seq<Observation>) {
    forall o :: o in observations <==> InTables(candidates, tables, request, o)
  }

  lemma InTablesSnoc(candidates: seq<Candidate>, c: Candidate, tables: Device -> seq<Observation>,
                     request: Request, o: Observation)
    ensures InTables(candidates + [c], tables, request, o) <==>
            InTables(candidates, tables, request, o) || (o in tables(c.device) && Matches(request, o))
  {
    var more := candidates + [c];
    assert more[|candidates|] == c;
    if InTables(candidates, tables, request, o) {
      var i :| 0 <= i < |candidates| && o in tables(candidates[i].device) && Matches(request, o);
      assert more[i] == candidates[i];
    }
    if InTables(more, tables, request, o) {
      var i :| 0 <= i < |more| && o in tables(more[i].device) && Matches(request, o);
      assert i < |candidates| ==> more[i] == candidates[i];
    }
  }

  /** One more device that answered in full keeps the observations complete. */
  lemma CompleteSnoc(candidates: seq<Candidate>, c: Candidate, rows: seq<Observation>, observations: seq<Observation>,
                     request: Request, tables: Device -> seq<Observation>)
    requires Complete(candidates, tables, request, observations)
    requires DistinctHosts(candidates + [c]) && c.filterIp in ClientIps(request)
    requires forall i :: 0 <= i < |candidates| ==> TableOf(tables(candidates[i].device), candidates[i].device)
    requires TableOf(tables(c.device), c.device) && rows == Filtered(tables(c.device), c.filterIp)
    ensures Complete(candidates + [c], tables, request, observations + NewRows(observations, rows, request))
  {
    FilteredSound(tables(c.device), c.filterIp);
    forall i, j | 0 <= i < |observations| && 0 <= j < |rows| ensures KeyOf(observations[i]) != KeyOf(rows[j]) {
      HostsDiffer(candidates, c, observations[i], rows[j], request, tables);
    }
    NewRowsAll(observations, rows, request);
    forall o ensures o in observations + NewRows(observations, rows, request) <==>
                     InTables(candidates + [c], tables, request, o) {
      InTablesSnoc(candidates, c, tables, request, o);
      if Matches(request, o) {
        MatchesContain(request, o, c.filterIp);
      }
    }
  }

  lemma HostsDiffer(candidates: seq<Candidate>, c: Candidate, o: Observation, row: Observation,
                    request: Request, tables: Device -> seq<Observation>)
    requires InTables(candidates, tables, request, o) && DistinctHosts(candidates + [c])
    requires forall i :: 0 <= i < |candidates| ==> TableOf(tables(candidates[i].device), candidates[i].device)
    requires TableOf(tables(c.device), c.device) && row in tables(c.device)
    ensures o.host != row.host
  {
    var i :| 0 <= i < |candidates| && o in tables(candidates[i].device) && Matches(request, o);
    assert (candidates + [c])[i] == candidates[i] && (candidates + [c])[|candidates|] == c;
  }

  /** `build_datapath_session_command`. */
  function SessionCommand(ip: string): string {
    "show datapath session table " + ip
  }

  /** The snapshot of a device that answered, and the keys that it owns. */
  function MdSnapshot(c: Candidate, output: nat, keys: seq<Key>): Raw {
    Raw(c.device.name, SessionCommand(c.filterIp), output, Some(keys))
  }

  /** What one device contributes: `raw` holds its snapshot, unless that is not kept. */
  datatype Contribution = Contribution(
    diagnostics: seq<Diagnostic>, answered: bool, raw: seq<Raw>, observations: seq<Observation>,
    authoritative: bool, stop: bool)

  const TOO_MUCH_RAW := Diagnostic("MD_COLLECT", OutputLimitExceeded, false, false)
  const TOO_MANY_ROWS := Diagnostic("MD_PARSE", OutputLimitExceeded, false, false)

  function ContributionOf(request: Request, c: Candidate, a: Answer, b: Budget, before: seq<Observation>,
                          snapshots: seq<Raw>): (Contribution, Budget)
  {
    match a
    case Refused(code, retryable, stage, expired) =>
      (Contribution([Diagnostic(stage, code, retryable, false)], false, [], before, false, EndsQuery(a)), b)
    case Output(parsed, output) =>
      var candidate := snapshots + [MdSnapshot(c, output, [])];
      if !Stores(b, candidate) then (Contribution([TOO_MUCH_RAW], true, [], before, false, true), b)
      else
        KeptContribution(request, c, parsed, output, Storing(b, candidate), before, snapshots)
  }

  /** What a device contributes whose snapshot is kept. */
  function KeptContribution(request: Request, c: Candidate, parsed: Result<seq<Observation>, Code>, output: nat,
                            b: Budget, before: seq<Observation>, snapshots: seq<Raw>): (Contribution, Budget)
  {
    var raw := [MdSnapshot(c, output, [])];
    if parsed.Err? then
      (Contribution([Diagnostic("MD_PARSE", parsed.error, false, false)], true, raw, before, false,
                    parsed.error.CommandRejected? || parsed.error.OutputLimitExceeded?), b)
    else if b.observations + |parsed.value| > b.maxObservations then
      (Contribution([TOO_MANY_ROWS], true, raw, before, false, true), b)
    else
      var counted := b.(observations := b.observations + |parsed.value|);
      var added := NewRows(before, parsed.value, request);
      var completed := snapshots + [MdSnapshot(c, output, KeysOf(added))];
      if !Stores(b, completed) then (Contribution([TOO_MUCH_RAW], true, raw, before, false, true), counted)
      else (Contribution([], true, [MdSnapshot(c, output, KeysOf(added))], before + added, true, false),
            Storing(counted, completed))
  }

  /** One turn of the device loop of `query_once`. */
  method AskDevice(request: Request, c: Candidate, a: Answer, budget: PollBudget, before: seq<Observation>,
                   snapshots: seq<Raw>)
    returns (r: Contribution)
    requires budget.Valid() && DistinctKeys(before)
    modifies budget
    ensures budget.Valid()
    ensures (r, budget.View()) == ContributionOf(request, c, a, old(budget.View()), before, snapshots)
  {
    match a {
      case Refused(code, retryable, stage, expired) =>
        return Contribution([Diagnostic(stage, code, retryable, false)], false, [], before, false, EndsQuery(a));
      case Output(parsed, output) =>
        var candidate := MdSnapshot(c, output, []);
        var fits := budget.ConsumeSnapshots(snapshots + [candidate]);
        if !fits {
          return Contribution([TOO_MUCH_RAW], true, [], before, false, true);
        }
        if parsed.Err? {
          return Contribution([Diagnostic("MD_PARSE", parsed.error, false, false)], true, [candidate], before, false,
                              parsed.error.CommandRejected? || parsed.error.OutputLimitExceeded?);
        }
        var counted := budget.ConsumeObservations(|parsed.value|);
        if !counted {
          return Contribution([TOO_MANY_ROWS], true, [candidate], before, false, true);
        }
        NewRowsDistinct(before, parsed.value, request);
        var observations, matched := MatchRows(request, parsed.value, before);
        var completed := candidate.(keys := Some(matched));
        fits := budget.ConsumeSnapshots(snapshots + [completed]);
        if !fits {
          PopAdded(before, NewRows(before, parsed.value, request));
          observations := WithoutKeys(observations, matched);
          return Contribution([TOO_MUCH_RAW], true, [candidate], observations, false, true);
        }
        return Contribution([], true, [completed], observations, true, false);
    }
  }

  /** Popping the keys that were just added restores the dictionary. */
  lemma PopAdded(before: seq<Observation>, added: seq<Observation>)
    requires DistinctKeys(before + added)
    ensures WithoutKeys(before + added, KeysOf(added)) == before
  {
    forall i | 0 <= i < |before| ensures KeyOf(before[i]) !in KeysOf(added) {
      forall j | 0 <= j < |added| ensures KeysOf(added)[j] != KeyOf(before[i]) {
        assert (before + added)[i] == before[i] && (before + added)[|before| + j] == added[j];
      }
    }
    WithoutPrefix(before, added, KeysOf(added));
    assert forall i :: 0 <= i < |added| ==> KeyOf(added[i]) == KeysOf(added)[i];
    WithoutAll(added, KeysOf(added));
  }

  lemma {:induction false} WithoutPrefix(a: seq<Observation>, b: seq<Observation>, keys: seq<Key>)
    requires forall i :: 0 <= i < |a| ==> KeyOf(a[i]) !in keys
    ensures WithoutKeys(a + b, keys) == a + WithoutKeys(b, keys)
  {
    if a == [] {
      assert a + b == b;
    } else {
      assert (a + b)[1..] == a[1..] + b;
      WithoutPrefix(a[1..], b, keys);
    }
  }

  lemma {:induction false} WithoutAll(s: seq<Observation>, keys: seq<Key>)
    requires forall i :: 0 <= i < |s| ==> KeyOf(s[i]) in keys
    ensures WithoutKeys(s, keys) == []
  {
    if s != [] {
      WithoutAll(s[1..], keys);
    }
  }

  predicate AllKeyed(raw: seq<Raw>) {
    forall i :: 0 <= i < |raw| ==> raw[i].keys.Some?
  }

  /** What the device loop has gathered; it asks no further device once it is stopped. */
  datatype Gathering = Gathering(
    observations: seq<Observation>, diagnostics: seq<Diagnostic>, controllers: seq<string>, raw: seq<Raw>,
    complete: bool, stopped: bool, budget: Budget)

  function GatherNext(g: Gathering, request: Request, c: Candidate, a: Answer): Gathering {
    var (r, b) := ContributionOf(request, c, a, g.budget, g.observations, g.raw);
    Gathering(
      r.observations, g.diagnostics + r.diagnostics,
      if r.answered then g.controllers + [c.device.name] else g.controllers,
      g.raw + r.raw, g.complete && r.authoritative, r.stop, b)
  }

  function Gather(request: Request, candidates: seq<Candidate>, network: Network, earlier: seq<Raw>,
                  b: Budget): Gathering {
    if candidates == [] then Gathering([], [], [], earlier, true, false, b)
    else
      var g, c := Gather(request, candidates[..|candidates| - 1], network, earlier, b), candidates[|candidates| - 1];
      if g.stopped then g else GatherNext(g, request, c, network(c))
  }

  lemma {:induction false} GatherStops(request: Request, candidates: seq<Candidate>, n: nat, network: Network,
                          earlier: seq<Raw>, b: Budget)
    requires n <= |candidates| && Gather(request, candidates[..n], network, earlier, b).stopped
    ensures Gather(request, candidates, network, earlier, b) == Gather(request, candidates[..n], network, earlier, b)
  {
    if n == |candidates| {
      assert candidates[..n] == candidates;
    } else {
      assert candidates[..|candidates| - 1][..n] == candidates[..n];
      GatherStops(request, candidates[..|candidates| - 1], n, network, earlier, b);
    }
  }

  /** The device loop of `query_once`. */
  method AskDevices(request: Request, candidates: seq<Candidate>, network: Network, budget: PollBudget,
                    earlier: seq<Raw>)
    returns (observations: seq<Observation>, diagnostics: seq<Diagnostic>, controllers: seq<string>, raw: seq<Raw>,
             complete: bool)
    requires budget.Valid()
    modifies budget
    ensures budget.Valid() && var g := Gather(request, candidates, network, earlier, old(budget.View()));
            && observations == g.observations && diagnostics == g.diagnostics && controllers == g.controllers
            && raw == g.raw && complete == g.complete && budget.View() == g.budget
  {
    observations, diagnostics, controllers, raw, complete := [], [], [], earlier, true;
    ghost var start := budget.View();
    for i := 0 to |candidates|
      invariant budget.Valid() && DistinctKeys(observations)
      invariant Gather(request, candidates[..i], network, earlier, start)
                == Gathering(observations, diagnostics, controllers, raw, complete, false, budget.View())
    {
      var c := candidates[i];
      assert candidates[..i + 1][..i] == candidates[..i];
      GatheredDistinct(request, candidates[..i + 1], network, earlier, start);
      var r := AskDevice(request, c, network(c), budget, observations, raw);
      observations, diagnostics := r.observations, diagnostics + r.diagnostics;
      if r.answered {
        controllers := controllers + [c.device.name];
      }
      raw := raw + r.raw;
      complete := complete && r.authoritative;
      if r.stop {
        GatherStops(request, candidates, i + 1, network, earlier, start);
        return;
      }
    }
    assert candidates[..|candidates|] == candidates;
  }

  // ----- what was gathered -----

  lemma {:induction false} GatheredDistinct(request: Request, candidates: seq<Candidate>, network: Network,
                          earlier: seq<Raw>, b: Budget)
    ensures DistinctKeys(Gather(request, candidates, network, earlier, b).observations)
  {
    if candidates != [] {
      var g, c := Gather(request, candidates[..|candidates| - 1], network, earlier, b), candidates[|candidates| - 1];
      GatheredDistinct(request, candidates[..|candidates| - 1], network, earlier, b);
      var a := network(c);
      if a.Output? && a.parsed.Ok? {
        NewRowsDistinct(g.observations, a.parsed.value, request);
      }
    }
  }

  /** A device that answered and whose table could be parsed. */
  predicate InFull(a: Answer) {
    a.Output? && a.parsed.Ok?
  }

  /** What one more device changes: nothing, a snapshot without keys, or its rows and the snapshot that owns them. */
  predicate Grows(g: Gathering, next: Gathering, request: Request, c: Candidate, a: Answer) {
    || (next.raw == g.raw && next.observations == g.observations)
    || (a.Output? && next.raw == g.raw + [MdSnapshot(c, a.output, [])] && next.observations == g.observations)
    || (InFull(a) && var added := NewRows(g.observations, a.parsed.value, request);
        next.raw == g.raw + [MdSnapshot(c, a.output, KeysOf(added))] && next.observations == g.observations + added)
  }

  lemma NextGrows(g: Gathering, request: Request, c: Candidate, a: Answer)
    ensures Grows(g, GatherNext(g, request, c, a), request, c, a)
  {
    var r := ContributionOf(request, c, a, g.budget, g.observations, g.raw).0;
    ContributionGrows(request, c, a, g.budget, g.observations, g.raw);
    assert g.raw + [] == g.raw;
  }

  lemma ContributionGrows(request: Request, c: Candidate, a: Answer, b: Budget, before: seq<Observation>,
                          snapshots: seq<Raw>)
    ensures var r := ContributionOf(request, c, a, b, before, snapshots).0;
            || (r.raw == [] && r.observations == before)
            || (a.Output? && r.raw == [MdSnapshot(c, a.output, [])] && r.observations == before)
            || (InFull(a) && var added := NewRows(before, a.parsed.value, request);
                r.raw == [MdSnapshot(c, a.output, KeysOf(added))] && r.observations == before + added)
  {
  }

  /** Every observation belongs to exactly one snapshot, also when some devices failed. */
  lemma {:induction false} GatheredPartition(request: Request, candidates: seq<Candidate>, network: Network,
                          earlier: seq<Raw>, b: Budget)
    requires OwnNothing(earlier)
    ensures var g := Gather(request, candidates, network, earlier, b);
            AllKeyed(g.raw) && Partition(OwnedKeys(g.raw), g.observations)
  {
    if candidates == [] {
      PartitionOfNothing(earlier);
    } else {
      var g, c := Gather(request, candidates[..|candidates| - 1], network, earlier, b), candidates[|candidates| - 1];
      GatheredPartition(request, candidates[..|candidates| - 1], network, earlier, b);
      if !g.stopped {
        GatheredDistinct(request, candidates, network, earlier, b);
        NextGrows(g, request, c, network(c));
        PartitionNext(g, Gather(request, candidates, network, earlier, b), request, c, network(c));
      }
    }
  }

  lemma PartitionNext(g: Gathering, next: Gathering, request: Request, c: Candidate, a: Answer)
    requires Grows(g, next, request, c, a) && DistinctKeys(next.observations)
    requires AllKeyed(g.raw) && Partition(OwnedKeys(g.raw), g.observations)
    ensures AllKeyed(next.raw) && Partition(OwnedKeys(next.raw), next.observations)
  {
    if next.raw != g.raw {
      var last := next.raw[|g.raw|];
      assert OwnedKeys(next.raw) == OwnedKeys(g.raw) + [last.keys.value];
      if last.keys.value == [] && next.observations == g.observations {
        PartitionOpens(OwnedKeys(g.raw), g.observations);
      } else {
        PartitionFills(OwnedKeys(g.raw), g.observations, NewRows(g.observations, a.parsed.value, request));
      }
    }
  }

  function RowsIn(a: Answer): seq<Observation> {
    if InFull(a) then a.parsed.value else []
  }

  function RowCount(candidates: seq<Candidate>, network: Network): nat {
    if candidates == [] then 0
    else RowCount(candidates[..|candidates| - 1], network) + |RowsIn(network(candidates[|candidates| - 1]))|
  }

  predicate AllInFull(candidates: seq<Candidate>, network: Network) {
    forall i :: 0 <= i < |candidates| ==> InFull(network(candidates[i]))
  }

  /** The matching rows of all the answers. */
  function FullRows(request: Request, candidates: seq<Candidate>, network: Network): seq<Observation> {
    if candidates == [] then []
    else
      var before := FullRows(request, candidates[..|candidates| - 1], network);
      before + NewRows(before, RowsIn(network(candidates[|candidates| - 1])), request)
  }

  /** The snapshots of all the answers, after the earlier ones of the pass. */
  function FullRaw(request: Request, candidates: seq<Candidate>, network: Network, earlier: seq<Raw>): seq<Raw> {
    if candidates == [] then earlier
    else
      var init, c := candidates[..|candidates| - 1], candidates[|candidates| - 1];
      var a, before := network(c), FullRows(request, init, network);
      FullRaw(request, init, network, earlier)
      + [MdSnapshot(c, if a.Output? then a.output else 0, KeysOf(NewRows(before, RowsIn(a), request)))]
  }

  /** The loop completes exactly when every device answered in full, the rows fit into the budget, and all the
      snapshots together can be stored; then it holds all the rows and all the snapshots. */
  lemma {:induction false} GatheredCompleteIff(request: Request, candidates: seq<Candidate>, network: Network,
                                               earlier: seq<Raw>, b: Budget)
    requires WithinLimits(b) && Stores(b, earlier)
    ensures var g := Gather(request, candidates, network, earlier, b);
            && (g.complete <==> AllInFull(candidates, network)
                                && b.observations + RowCount(candidates, network) <= b.maxObservations
                                && Stores(b, FullRaw(request, candidates, network, earlier)))
            && (g.complete ==> !g.stopped && g.budget.observations == b.observations + RowCount(candidates, network)
                               && g.raw == FullRaw(request, candidates, network, earlier)
                               && g.observations == FullRows(request, candidates, network))
            && SameLimits(b, g.budget)
  {
    if candidates != [] {
      var init, c := candidates[..|candidates| - 1], candidates[|candidates| - 1];
      GatheredCompleteIff(request, init, network, earlier, b);
      InFullSnoc(candidates, network);
      var g := Gather(request, init, network, earlier, b);
      FullRawGrows(request, candidates, network, earlier, b.encoding);
      GatheredStopped(request, init, network, earlier, b);
      if !g.stopped {
        CompleteNext(g, request, c, network(c));
      }
    }
  }

  lemma FullRawGrows(request: Request, candidates: seq<Candidate>, network: Network, earlier: seq<Raw>, e: Encoding)
    requires candidates != []
    ensures PersistedSize(e, FullRaw(request, candidates[..|candidates| - 1], network, earlier))
            <= PersistedSize(e, FullRaw(request, candidates, network, earlier))
  {
    var raw, init := FullRaw(request, candidates, network, earlier), candidates[..|candidates| - 1];
    SizeGrows(e, FullRaw(request, init, network, earlier), raw[|raw| - 1]);
  }

  lemma InFullSnoc(candidates: seq<Candidate>, network: Network)
    requires candidates != []
    ensures AllInFull(candidates, network) <==>
            AllInFull(candidates[..|candidates| - 1], network) && InFull(network(candidates[|candidates| - 1]))
  {
    var init := candidates[..|candidates| - 1];
    assert forall i :: 0 <= i < |init| ==> init[i] == candidates[i];
  }

  lemma CompleteNext(g: Gathering, request: Request, c: Candidate, a: Answer)
    ensures var next, added := GatherNext(g, request, c, a), NewRows(g.observations, RowsIn(a), request);
            var raw := g.raw + [MdSnapshot(c, if a.Output? then a.output else 0, KeysOf(added))];
            && (next.complete <==> g.complete && InFull(a) && Stores(g.budget, raw)
                                   && g.budget.observations + |RowsIn(a)| <= g.budget.maxObservations)
            && (next.complete ==> !next.stopped && next.raw == raw && next.observations == g.observations + added
                                  && next.budget.observations == g.budget.observations + |RowsIn(a)|)
            && SameLimits(g.budget, next.budget)
  {
    if InFull(a) {
      var added := NewRows(g.observations, a.parsed.value, request);
      KeysGrow(g.budget.encoding, g.raw, MdSnapshot(c, a.output, []), KeysOf(added));
    }
  }

  /** The budget is kept: every observation was paid for, and the snapshots can be stored. */
  lemma {:induction false} GatheredWithinBudget(request: Request, candidates: seq<Candidate>, network: Network,
                                                earlier: seq<Raw>, b: Budget)
    requires WithinLimits(b) && Stores(b, earlier)
    ensures var g := Gather(request, candidates, network, earlier, b);
            && WithinLimits(g.budget) && SameLimits(b, g.budget) && Stores(b, g.raw)
            && b.observations + |g.observations| <= g.budget.observations
  {
    if candidates != [] {
      var g, c := Gather(request, candidates[..|candidates| - 1], network, earlier, b), candidates[|candidates| - 1];
      GatheredWithinBudget(request, candidates[..|candidates| - 1], network, earlier, b);
      GatheredDistinct(request, candidates[..|candidates| - 1], network, earlier, b);
      if !g.stopped {
        NextWithinBudget(g, request, c, network(c));
      }
    }
  }

  lemma NextWithinBudget(g: Gathering, request: Request, c: Candidate, a: Answer)
    requires WithinLimits(g.budget) && Stores(g.budget, g.raw) && DistinctKeys(g.observations)
    ensures var next := GatherNext(g, request, c, a);
            && WithinLimits(next.budget) && SameLimits(g.budget, next.budget) && Stores(g.budget, next.raw)
            && g.budget.observations - |g.observations| <= next.budget.observations - |next.observations|
  {
    ContributionStored(request, c, a, g.budget, g.observations, g.raw);
    ContributionCounted(request, c, a, g.budget, g.observations, g.raw);
  }

  lemma ContributionStored(request: Request, c: Candidate, a: Answer, b: Budget, before: seq<Observation>,
                           snapshots: seq<Raw>)
    requires WithinLimits(b) && Stores(b, snapshots)
    ensures var (r, d) := ContributionOf(request, c, a, b, before, snapshots);
            WithinLimits(d) && SameLimits(b, d) && Stores(b, snapshots + r.raw)
  {
    assert snapshots + [] == snapshots;
    if a.Output? && Stores(b, snapshots + [MdSnapshot(c, a.output, [])]) {
      var held := Storing(b, snapshots + [MdSnapshot(c, a.output, [])]);
      KeptStored(request, c, a.parsed, a.output, held, before, snapshots);
    }
  }

  lemma KeptStored(request: Request, c: Candidate, parsed: Result<seq<Observation>, Code>, output: nat, b: Budget,
                   before: seq<Observation>, snapshots: seq<Raw>)
    requires WithinLimits(b) && Stores(b, snapshots + [MdSnapshot(c, output, [])])
    ensures var (r, d) := KeptContribution(request, c, parsed, output, b, before, snapshots);
            WithinLimits(d) && SameLimits(b, d) && Stores(b, snapshots + r.raw)
  {
  }

  /** Every observation that is added was paid for. */
  lemma ContributionCounted(request: Request, c: Candidate, a: Answer, b: Budget, before: seq<Observation>,
                            snapshots: seq<Raw>)
    requires DistinctKeys(before)
    ensures var (r, d) := ContributionOf(request, c, a, b, before, snapshots);
            |r.observations| - |before| <= d.observations - b.observations
  {
    if InFull(a) {
      NewRowsDistinct(before, a.parsed.value, request);
    }
  }

  /** The rows of all the answers are exactly the matching rows of the full tables. */
  lemma {:induction false} FullRowsComplete(request: Request, candidates: seq<Candidate>, network: Network,
                                            tables: Device -> seq<Observation>)
    requires FiltersFit(candidates, request) && DistinctHosts(candidates)
    requires AllFaithful(candidates, network, tables) && AllInFull(candidates, network)
    ensures Complete(candidates, tables, request, FullRows(request, candidates, network))
  {
    if candidates != [] {
      var init, c := candidates[..|candidates| - 1], candidates[|candidates| - 1];
      assert candidates == init + [c];
      assert forall i :: 0 <= i < |init| ==> init[i] == candidates[i];
      FullRowsComplete(request, init, network, tables);
      CompleteSnoc(init, c, network(c).parsed.value, FullRows(request, init, network), request, tables);
    }
  }

  /** So a complete gathering holds exactly these. */
  lemma GatheredComplete(request: Request, candidates: seq<Candidate>, network: Network, earlier: seq<Raw>,
                         b: Budget, tables: Device -> seq<Observation>)
    requires WithinLimits(b) && Stores(b, earlier)
    requires FiltersFit(candidates, request) && DistinctHosts(candidates) && AllFaithful(candidates, network, tables)
    requires Gather(request, candidates, network, earlier, b).complete
    ensures Complete(candidates, tables, request, Gather(request, candidates, network, earlier, b).observations)
  {
    GatheredCompleteIff(request, candidates, network, earlier, b);
    FullRowsComplete(request, candidates, network, tables);
  }

  lemma {:induction false} GatheredStopped(request: Request, candidates: seq<Candidate>, network: Network,
                          earlier: seq<Raw>, b: Budget)
    ensures var g := Gather(request, candidates, network, earlier, b); g.stopped ==> !g.complete
  {
    if candidates != [] {
      GatheredStopped(request, candidates[..|candidates| - 1], network, earlier, b);
    }
  }

  /** An incomplete one holds nothing but such rows. */
  lemma {:induction false} GatheredGenuine(request: Request, candidates: seq<Candidate>, network: Network,
                          earlier: seq<Raw>, b: Budget,
                                           tables: Device -> seq<Observation>, o: Observation)
    requires AllFaithful(candidates, network, tables)
    requires o in Gather(request, candidates, network, earlier, b).observations
    ensures InTables(candidates, tables, request, o)
  {
    if candidates != [] {
      var init, c := candidates[..|candidates| - 1], candidates[|candidates| - 1];
      assert candidates == init + [c];
      FaithfulInit(candidates, network, tables);
      InTablesSnoc(init, c, tables, request, o);
      var g := Gather(request, init, network, earlier, b);
      if g.stopped || o in g.observations {
        GatheredGenuine(request, init, network, earlier, b, tables, o);
      } else {
        GatheredDistinct(request, init, network, earlier, b);
        NextGrows(g, request, c, network(c));
        NextGenuine(g, GatherNext(g, request, c, network(c)), request, c, network(c), tables(c.device), o);
      }
    }
  }

  lemma FaithfulInit(candidates: seq<Candidate>, network: Network, tables: Device -> seq<Observation>)
    requires candidates != [] && AllFaithful(candidates, network, tables)
    ensures AllFaithful(candidates[..|candidates| - 1], network, tables)
    ensures var c := candidates[|candidates| - 1]; Faithful(network(c), tables(c.device), c.filterIp)
  {
    var init := candidates[..|candidates| - 1];
    assert forall i :: 0 <= i < |init| ==> init[i] == candidates[i];
  }

  lemma NextGenuine(g: Gathering, next: Gathering, request: Request, c: Candidate, a: Answer, table: seq<Observation>,
                    o: Observation)
    requires Grows(g, next, request, c, a) && DistinctKeys(g.observations)
    requires Faithful(a, table, c.filterIp) && o in next.observations && o !in g.observations
    ensures o in table && Matches(request, o)
  {
    NewRowsDistinct(g.observations, a.parsed.value, request);
    FilteredSound(table, c.filterIp);
  }
}
