/**
 The polls of a site with few devices: answers within the limit of the SSH collector can be stored in any case, also
 after a second pass (4 MiB an answer, see src/aruba_session_tracker/collectors/ssh.py:55).
 */
module FewDevices {
  import opened Digits
  import opened Outcomes
  import opened RawBundle
  import opened Topology
  import opened Tracker
  import opened TrackerServices
  import opened PollAnswers
  import opened OutputLimits
  import opened RawLimits
  import opened RawScenario
  import opened BatchLimits
  import Monitoring = MonitorEngines

  // ----- the sizes of snapshots that own few keys -----

  const NAME_BYTES: nat := 200
  const KEY_BYTES: nat := 200

  ghost predicate ShortKeys(e: Encoding, keys: seq<Key>) {
    forall i :: 0 <= i < |keys| ==> e.key(keys[i]) <= KEY_BYTES
  }

  /** A snapshot of an answer within the limit, with short names and keys. */
  ghost predicate Slim(e: Encoding, r: Raw) {
    && |r.device| <= NAME_BYTES && |r.command| <= NAME_BYTES && r.output <= MAX_OUTPUT_BYTES
    && ShortKeys(e, KeysIn(r))
  }

  ghost predicate AllSlim(e: Encoding, raw: seq<Raw>) {
    forall i :: 0 <= i < |raw| ==> Slim(e, raw[i])
  }

  function KeyCount(raw: seq<Raw>): nat {
    if raw == [] then 0 else KeyCount(raw[..|raw| - 1]) + |KeysIn(raw[|raw| - 1])|
  }

  lemma {:induction false} KeyBytesWithin(e: Encoding, keys: seq<Key>)
    requires ShortKeys(e, keys)
    ensures KeyBytes(e, keys) <= 201 * |keys|
  {
    if |keys| > 1 {
      assert ShortKeys(e, keys[1..]);
      KeyBytesWithin(e, keys[1..]);
    }
  }

  lemma DecimalOfOutput(n: nat)
    requires n <= MAX_OUTPUT_BYTES
    ensures |Decimal(n)| <= 5_000
  {
    DecimalIsShort(n / 10 / 10);
    if n >= 10 {
      assert |Decimal(n)| == |Decimal(n / 10)| + 1;
    }
  }

  /** Room for that many answers and keys: 4 MiB and 12,000 bytes an answer. */
  function Room(answers: nat, keys: nat): nat {
    4_206_304 * answers + 201 * keys
  }

  lemma SectionWithin(e: Encoding, r: Raw, index: nat)
    requires Json(e) && Slim(e, r) && index <= 7
    ensures SectionBytes(e, r, index) <= Room(1, |KeysIn(r)|)
  {
    DecimalOfOutput(r.output);
    DecimalIsShort(index);
    KeyBytesWithin(e, KeysIn(r));
  }

  lemma {:induction false} SectionsWithin(e: Encoding, raw: seq<Raw>)
    requires Json(e) && AllSlim(e, raw) && |raw| <= 7
    ensures SectionsBytes(e, raw) <= Room(|raw|, KeyCount(raw))
  {
    if raw != [] {
      var init, last := raw[..|raw| - 1], raw[|raw| - 1];
      SectionsWithin(e, init);
      SectionWithin(e, last, |raw|);
      assert SectionsBytes(e, raw) == SectionsBytes(e, init) + SectionBytes(e, last, |raw|);
    }
  }

  lemma RoomOfSeven(answers: nat, keys: nat)
    requires answers <= 7 && keys <= MAX_POLL_OBSERVATIONS
    ensures Room(answers, keys) + 100 <= MAX_POLL_RAW_BYTES
  {
  }

  lemma PrefixWithin(count: nat)
    requires count <= 7
    ensures PrefixBytes(count) <= 100
  {
    DecimalIsShort(count);
  }

  /** Seven such snapshots can be stored together, with all the keys that a poll may observe. */
  lemma SevenFit(e: Encoding, raw: seq<Raw>)
    requires Json(e) && AllSlim(e, raw) && |raw| <= 7 && KeyCount(raw) <= MAX_POLL_OBSERVATIONS
    ensures PersistedSize(e, raw) <= MAX_POLL_RAW_BYTES
  {
    if |raw| > 1 {
      SectionsWithin(e, raw);
      RoomOfSeven(|raw|, KeyCount(raw));
      PrefixWithin(|raw|);
      assert PersistedSize(e, raw) == PrefixBytes(|raw|) + SectionsBytes(e, raw);
    }
  }

  // ----- the snapshots of one query -----

  /** A site and a request with short names. */
  ghost predicate ShortNames(s: Setting) {
    && Json(s.encoding) && |s.request.sourceIp| <= 50 && |s.request.destinationIp| <= 50
    && |s.site.primary.name| <= NAME_BYTES && |s.site.standby.name| <= NAME_BYTES
    && forall d :: d in EnabledOf(s.site.devices) ==> |d.name| <= NAME_BYTES
  }

  /** No answer is longer than the collector admits, and no row has a long key. */
  ghost predicate Collected(e: Encoding, replies: Replies) {
    && AnswersWithin(replies, MAX_OUTPUT_BYTES)
    && forall c, o :: o in RowsIn(replies.network(c)) ==> e.key(KeyOf(o)) <= KEY_BYTES
  }

  lemma {:induction false} ReadingSlim(e: Encoding, ips: seq<string>, mm: Master, b: Budget)
    requires forall ip :: ip in ips ==> Slim(e, MmSnapshot(mm, ip))
    ensures AllSlim(e, ReadIps(ips, mm, b).raw) && KeyCount(ReadIps(ips, mm, b).raw) == 0
  {
    if ips != [] {
      var init, last := ips[..|ips| - 1], ips[|ips| - 1];
      ReadingSlim(e, init, mm, b);
      SlimSnoc(e, ReadIps(init, mm, b).raw, MmSnapshot(mm, last));
    }
  }

  lemma SlimSnoc(e: Encoding, raw: seq<Raw>, r: Raw)
    requires AllSlim(e, raw) && Slim(e, r)
    ensures AllSlim(e, raw + [r]) && KeyCount(raw + [r]) == KeyCount(raw) + |KeysIn(r)|
  {
    assert (raw + [r])[..|raw|] == raw;
  }

  lemma MasterSlim(s: Setting, mm: Master, ip: string)
    requires |mm.name| <= NAME_BYTES && |ip| <= 50 && mm.output(ip) <= MAX_OUTPUT_BYTES
    ensures Slim(s.encoding, MmSnapshot(mm, ip))
  {
  }

  /** The snapshots of the master. */
  lemma LocatingSlim(s: Setting, q: Query, replies: Replies, b: Budget)
    requires ShortNames(s) && q.request == s.request && Askable(q, replies) && Collected(s.encoding, replies)
    ensures var raw := LocatedBy(s.site, q, replies, b).raw; AllSlim(s.encoding, raw) && KeyCount(raw) == 0
  {
    var selected := MmSelection(s.site.primary, s.site.standby, replies.mms);
    if selected.Some? {
      var mm := MasterOf(s.site, selected.value, replies.mms[selected.value]);
      forall ip | ip in ClientIps(q.request) ensures Slim(s.encoding, MmSnapshot(mm, ip)) {
        MasterSlim(s, mm, ip);
      }
      ReadingSlim(s.encoding, ClientIps(q.request), mm, b);
    }
  }

  ghost predicate SlimCandidate(c: Candidate) {
    |c.device.name| <= NAME_BYTES && |c.filterIp| <= 50
  }

  /** What a device contributes is slim, and owns a key for each observation that it adds. */
  lemma NextSlim(e: Encoding, g: Gathering, next: Gathering, request: Request, c: Candidate, a: Answer)
    requires AllSlim(e, g.raw) && KeyCount(g.raw) == |g.observations| && Grows(g, next, request, c, a)
    requires DistinctKeys(g.observations) && SlimCandidate(c) && (a.Output? ==> a.output <= MAX_OUTPUT_BYTES)
    requires forall o :: o in RowsIn(a) ==> e.key(KeyOf(o)) <= KEY_BYTES
    ensures AllSlim(e, next.raw) && KeyCount(next.raw) == |next.observations|
  {
    var added := NewRows(g.observations, RowsIn(a), request);
    NewRowsDistinct(g.observations, RowsIn(a), request);
    if next.raw != g.raw {
      assert next.raw[..|g.raw|] == g.raw;
      assert forall i :: 0 <= i < |added| ==> added[i] in added;
      assert ShortKeys(e, KeysOf(added));
    }
  }

  lemma {:induction false} GatheringSlim(e: Encoding, request: Request, candidates: seq<Candidate>, network: Network,
                                         earlier: seq<Raw>, b: Budget)
    requires AllSlim(e, earlier) && KeyCount(earlier) == 0
    requires forall i :: 0 <= i < |candidates| ==> SlimCandidate(candidates[i])
    requires forall c :: network(c).Output? ==> network(c).output <= MAX_OUTPUT_BYTES
    requires forall c, o :: o in RowsIn(network(c)) ==> e.key(KeyOf(o)) <= KEY_BYTES
    ensures var g := Gather(request, candidates, network, earlier, b);
            AllSlim(e, g.raw) && KeyCount(g.raw) == |g.observations|
  {
    if candidates != [] {
      var init, c := candidates[..|candidates| - 1], candidates[|candidates| - 1];
      var g := Gather(request, init, network, earlier, b);
      GatheringSlim(e, request, init, network, earlier, b);
      GatheredDistinct(request, init, network, earlier, b);
      if !g.stopped {
        NextGrows(g, request, c, network(c));
        NextSlim(e, g, GatherNext(g, request, c, network(c)), request, c, network(c));
      }
    }
  }

  lemma RouteSlim(s: Setting, q: Query, l: Location, approval: Approval, cursor: nat)
    requires ShortNames(s) && Configured(s.site) && q.request == s.request && Wellformed(q.request)
    requires RouteOf(s.site, q, l, approval, cursor).route.Ok?
    ensures forall c :: c in RouteOf(s.site, q, l, approval, cursor).route.value ==> SlimCandidate(c)
  {
    RouteSound(s.site, q, l, approval, cursor);
    var asked := RouteOf(s.site, q, l, approval, cursor).route.value;
    forall c | c in asked ensures SlimCandidate(c) {
      var i :| 0 <= i < |asked| && asked[i] == c;
      assert DevicesOf(asked)[i] in EnabledOf(s.site.devices);
    }
  }

  lemma QuerySlim(s: Setting, q: Query, replies: Replies, b: Budget, cursor: nat)
    requires ShortNames(s) && Configured(s.site) && q.request == s.request
    requires Askable(q, replies) && Collected(s.encoding, replies)
    ensures var o := Queried(s.site, q, replies, b, cursor).outcome;
            AllSlim(s.encoding, o.raw) && KeyCount(o.raw) <= |o.observations|
  {
    var w := LocatedBy(s.site, q, replies, b);
    LocatingSlim(s, q, replies, b);
    if w.location.Some? {
      var r := RouteOf(s.site, q, w.location.value, replies.approval, cursor);
      if r.route.Ok? {
        RouteSlim(s, q, w.location.value, replies.approval, cursor);
        GatheringSlim(s.encoding, q.request, r.route.value, replies.network, w.raw, w.budget);
      }
    }
  }

  // ----- both passes -----

  lemma {:induction false} KeyCountConcat(a: seq<Raw>, b: seq<Raw>)
    ensures KeyCount(a + b) == KeyCount(a) + KeyCount(b)
  {
    if b == [] {
      assert a + b == a;
    } else {
      assert (a + b)[..|a + b| - 1] == a + b[..|b| - 1];
      KeyCountConcat(a, b[..|b| - 1]);
    }
  }

  lemma {:induction false} FewerKeys(a: seq<Raw>, b: seq<Raw>)
    requires |a| == |b| && forall i :: 0 <= i < |a| ==> |KeysIn(a[i])| <= |KeysIn(b[i])|
    ensures KeyCount(a) <= KeyCount(b)
  {
    if a != [] {
      FewerKeys(a[..|a| - 1], b[..|b| - 1]);
    }
  }

  lemma {:induction false} KeepLess(keys: seq<Key>, first: seq<Observation>, second: seq<Observation>)
    ensures |Keep(keys, first, second)| <= |keys| && forall k :: k in Keep(keys, first, second) ==> k in keys
  {
    if keys != [] {
      KeepLess(keys[1..], first, second);
    }
  }

  /** The merge adds no keys. */
  lemma MergedSlim(e: Encoding, first: Outcome, second: Outcome)
    requires AllKeyed(first.raw) && AllSlim(e, first.raw) && AllSlim(e, second.raw)
    ensures var raw := Merge(first, second).raw;
            && |raw| == |first.raw| + |second.raw| && AllSlim(e, raw)
            && KeyCount(raw) <= KeyCount(first.raw) + KeyCount(second.raw)
  {
    var kept := KeptRaw(first, second);
    MergedRaw(first, second);
    forall i | 0 <= i < |kept| ensures Slim(e, kept[i]) && |KeysIn(kept[i])| <= |KeysIn(first.raw[i])| {
      KeepLess(first.raw[i].keys.value, first.observations, second.observations);
      KeptKeysShort(e, KeysIn(kept[i]), KeysIn(first.raw[i]));
    }
    FewerKeys(kept, first.raw);
    KeyCountConcat(kept, second.raw);
  }

  lemma KeptKeysShort(e: Encoding, kept: seq<Key>, keys: seq<Key>)
    requires ShortKeys(e, keys) && forall k :: k in kept ==> k in keys
    ensures ShortKeys(e, kept)
  {
    forall i | 0 <= i < |kept| ensures e.key(kept[i]) <= KEY_BYTES {
      assert kept[i] in keys;
    }
  }

  /** A second pass keeps the poll within the limit, as long as the two passes ask for seven answers at most: those of
      three devices and one address, or of two devices and two addresses. */
  lemma FewDevicesFit(s: Setting, config: Monitoring.Config, base: Monitoring.Base, probe: Monitoring.Probe,
                      x: Exchange, y: Exchange)
    requires Configured(s.site) && ShortNames(s) && BothAnswered(s, config, base, probe, x, y)
    requires Collected(s.encoding, x.replies) && Collected(s.encoding, y.replies)
    requires 2 * |EnabledOf(s.site.devices)| + |ClientIps(s.request)| <= 7
    ensures PersistedSize(s.encoding, Monitoring.Concluded(config, base, probe).raw) <= MAX_POLL_RAW_BYTES
  {
    if Monitoring.AsksTwice(config, base, probe) {
      SnapshotsStayBounded(s, config, base, probe);
      BothSlim(s, config, base, probe, x, y);
      FirstPassKept(s, config, base, probe, x);
      MergedSlim(s.encoding, probe.first, probe.second);
      SevenFit(s.encoding, Merge(probe.first, probe.second).raw);
    } else {
      OnePassFits(s, config, base, probe, x);
    }
  }

  lemma BothSlim(s: Setting, config: Monitoring.Config, base: Monitoring.Base, probe: Monitoring.Probe,
                 x: Exchange, y: Exchange)
    requires Configured(s.site) && ShortNames(s) && BothAnswered(s, config, base, probe, x, y)
    requires Collected(s.encoding, x.replies) && Collected(s.encoding, y.replies)
    requires Monitoring.AsksTwice(config, base, probe)
    ensures AllSlim(s.encoding, probe.first.raw) && AllSlim(s.encoding, probe.second.raw)
    ensures KeyCount(probe.first.raw) + KeyCount(probe.second.raw) <= MAX_POLL_OBSERVATIONS
  {
    var q, again := QueryOf(s, FirstQuery(config, base, probe), x.hosts), QueryOf(s, SecondQuery(base), y.hosts);
    var left := Left(s, config, base, probe, x);
    QuerySlim(s, q, x.replies, NewBudget(s), x.cursor);
    QuerySlim(s, again, y.replies, left, y.cursor);
    QueryWithinBudget(s.site, q, x.replies, NewBudget(s), x.cursor);
    QueryWithinBudget(s.site, again, y.replies, left, y.cursor);
  }
}
