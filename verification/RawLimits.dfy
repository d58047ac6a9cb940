/**
 The Raw limit over the two passes of a poll. Each pass is held to it alone: `consume_snapshots` replaces what was
 consumed before (src/aruba_session_tracker/services/tracker.py:95-102), while the store measures the merged poll
 (src/aruba_session_tracker/storage/session_store.py:1499-1509).
 */
module RawLimits {
  import opened Wrappers
  import opened Outcomes
  import opened RawBundle
  import opened Topology
  import opened Tracker
  import opened PollAnswers
  import Monitoring = MonitorEngines
  import Tracking = TrackerServices

  // ----- what the merge does to the snapshots -----

  /** The snapshots of the first pass in the merged poll. */
  function KeptRaw(first: Outcome, second: Outcome): seq<Raw> {
    AttributeLength(first.raw, PutAll([], first.observations));
    Merge(first, second).raw[..|first.raw|]
  }

  lemma {:induction false} KeepAllKeys(keys: seq<Key>, first: seq<Observation>)
    ensures Keep(keys, first, []) == keys
  {
    if keys != [] {
      KeepAllKeys(keys[1..], first);
    }
  }

  lemma MergedRaw(first: Outcome, second: Outcome)
    requires AllKeyed(first.raw)
    ensures Merge(first, second).raw == KeptRaw(first, second) + second.raw
    ensures |KeptRaw(first, second)| == |first.raw|
    ensures forall i :: 0 <= i < |first.raw| ==>
              KeptRaw(first, second)[i]
              == first.raw[i].(keys := Some(Keep(first.raw[i].keys.value, first.observations, second.observations)))
  {
    AttributeLength(first.raw, PutAll([], first.observations));
    AttributeKnown(first.raw, PutAll([], first.observations));
  }

  /** A second pass that sees nothing takes nothing from the first. */
  lemma MergedRawOfNothing(first: Outcome, second: Outcome)
    requires AllKeyed(first.raw) && second.observations == []
    ensures Merge(first, second).raw == first.raw + second.raw
  {
    MergedRaw(first, second);
    forall i | 0 <= i < |first.raw| ensures KeptRaw(first, second)[i] == first.raw[i] {
      KeepAllKeys(first.raw[i].keys.value, first.observations);
    }
    assert KeptRaw(first, second) == first.raw;
  }

  // ----- one pass -----

  /** A poll that asks once can always be stored. */
  lemma OnePassFits(s: Setting, config: Monitoring.Config, base: Monitoring.Base, probe: Monitoring.Probe, x: Exchange)
    requires FirstAnswered(s, config, base, probe, x) && !Monitoring.AsksTwice(config, base, probe)
    ensures PersistedSize(s.encoding, Monitoring.Concluded(config, base, probe).raw) <= MAX_POLL_RAW_BYTES
  {
    var q := QueryOf(s, FirstQuery(config, base, probe), x.hosts);
    Tracking.QueryWithinBudget(s.site, q, x.replies, NewBudget(s), x.cursor);
  }

  // ----- two passes -----

  function Left(s: Setting, config: Monitoring.Config, base: Monitoring.Base, probe: Monitoring.Probe, x: Exchange)
    : Budget
    requires Tracking.Askable(QueryOf(s, FirstQuery(config, base, probe), x.hosts), x.replies)
  {
    Pass(s, FirstQuery(config, base, probe), x, NewBudget(s)).budget
  }

  /** The poll, if the second pass met `y`. */
  function Continued(s: Setting, config: Monitoring.Config, base: Monitoring.Base, probe: Monitoring.Probe,
                     x: Exchange, y: Exchange): Monitoring.Probe
    requires Tracking.Askable(QueryOf(s, FirstQuery(config, base, probe), x.hosts), x.replies)
    requires Tracking.Askable(QueryOf(s, SecondQuery(base), y.hosts), y.replies)
  {
    probe.(second := Pass(s, SecondQuery(base), y, Left(s, config, base, probe, x)).outcome)
  }

  /** No answer is longer than that. */
  ghost predicate AnswersWithin(replies: Tracking.Replies, limit: nat) {
    && (forall i, ip :: 0 <= i < |replies.mms| && replies.mms[i].MmAnswered? ==> replies.mms[i].output(ip) <= limit)
    && (forall c :: replies.network(c).Output? ==> replies.network(c).output <= limit)
  }

  /** A mobility master whose first answer has `n` bytes and cannot be read. */
  function Babble(n: nat): Tracking.Replies {
    var mm := MmAnswered(_ => Unreadable(ParsePartial), _ => n);
    Tracking.Replies([mm, mm], Tracking.Declined, _ => Refused(Unreachable, true, "MD_QUERY", false))
  }

  lemma BabbleRead(ips: seq<string>, mm: Master, b: Budget, n: nat)
    requires ips != [] && n <= b.maxRaw && mm.output(ips[0]) == n && mm.lookup(ips[0]).Unreadable?
    ensures !ReadIps(ips, mm, b).ok && ReadIps(ips, mm, b).raw == [MmSnapshot(mm, ips[0])]
  {
    assert ips[..1] == [ips[0]] && ips[..1][..0] == [];
    assert [] + [MmSnapshot(mm, ips[0])] == [MmSnapshot(mm, ips[0])];
    assert ReadIps(ips[..1], mm, b) == ReadNext(ReadIps([], mm, b), ips[0], mm);
    ReadStops(ips, 1, mm, b);
  }

  /** A query that meets it keeps that one snapshot, whatever else it would have asked. */
  lemma BabbleAnswered(s: Setting, q: Tracking.Query, b: Budget, cursor: nat, n: nat)
    requires Tracking.Askable(q, Babble(n)) && q.refresh && n <= b.maxRaw && Tracking.Configured(s.site)
    ensures var o := Tracking.Queried(s.site, q, Babble(n), b, cursor).outcome;
            o.observations == [] && |o.raw| == 1 && o.raw[0].output == n
  {
    var replies := Babble(n);
    var selected := MmSelection(s.site.primary, s.site.standby, replies.mms);
    assert selected.Some?;
    BabbleRead(ClientIps(q.request), Tracking.MasterOf(s.site, selected.value, replies.mms[selected.value]), b, n);
  }

  /** A second pass can make the poll too large to be stored, once the first pass and one answer of `n` bytes
      reach the limit. */
  lemma SecondPassExceeds(s: Setting, config: Monitoring.Config, base: Monitoring.Base, probe: Monitoring.Probe,
                          x: Exchange, n: nat)
    requires Tracking.Configured(s.site) && FirstAnswered(s, config, base, probe, x)
    requires Monitoring.AsksTwice(config, base, probe) && n <= MAX_POLL_RAW_BYTES
    requires PersistedSize(s.encoding, probe.first.raw) + n >= MAX_POLL_RAW_BYTES
    ensures var y := Exchange(x.hosts, Babble(n), x.cursor);
            && Meets(s, SecondQuery(base), y) && AnswersWithin(y.replies, n)
            && PersistedSize(s.encoding,
                             Monitoring.Concluded(config, base, Continued(s, config, base, probe, x, y)).raw)
               > MAX_POLL_RAW_BYTES
  {
    var y := Exchange(x.hosts, Babble(n), x.cursor);
    BabbleMeets(s, config, base, probe, x, n);
    FirstPassKept(s, config, base, probe, x);
    BabbleAnswered(s, QueryOf(s, SecondQuery(base), y.hosts), Left(s, config, base, probe, x), y.cursor, n);
    var second := Continued(s, config, base, probe, x, y).second;
    ConcludedTwice(s, config, base, probe, x, y);
    BabbleMerged(s.encoding, probe.first, second, n);
  }

  lemma BabbleMeets(s: Setting, config: Monitoring.Config, base: Monitoring.Base, probe: Monitoring.Probe, x: Exchange,
                    n: nat)
    requires FirstAnswered(s, config, base, probe, x)
    ensures Meets(s, SecondQuery(base), Exchange(x.hosts, Babble(n), x.cursor)) && AnswersWithin(Babble(n), n)
  {
  }

  /** Before a second pass the first one has kept some snapshots, and each knows its keys. */
  lemma FirstPassKept(s: Setting, config: Monitoring.Config, base: Monitoring.Base, probe: Monitoring.Probe,
                      x: Exchange)
    requires Tracking.Configured(s.site) && FirstAnswered(s, config, base, probe, x)
    requires Monitoring.AsksTwice(config, base, probe)
    ensures probe.first.raw != [] && AllKeyed(probe.first.raw)
    ensures Left(s, config, base, probe, x).maxRaw == MAX_POLL_RAW_BYTES
  {
    var q := QueryOf(s, FirstQuery(config, base, probe), x.hosts);
    Tracking.QueryWithinBudget(s.site, q, x.replies, NewBudget(s), x.cursor);
    Tracking.EvidenceIsPartition(s.site, q, x.replies, NewBudget(s), x.cursor);
    Tracking.AuthoritativeKeepsAll(s.site, q, x.replies, NewBudget(s), x.cursor);
  }

  lemma ConcludedTwice(s: Setting, config: Monitoring.Config, base: Monitoring.Base, probe: Monitoring.Probe,
                       x: Exchange, y: Exchange)
    requires Tracking.Askable(QueryOf(s, FirstQuery(config, base, probe), x.hosts), x.replies)
    requires Tracking.Askable(QueryOf(s, SecondQuery(base), y.hosts), y.replies)
    requires Monitoring.AsksTwice(config, base, probe)
    ensures var after := Continued(s, config, base, probe, x, y);
            Monitoring.Concluded(config, base, after).raw == Merge(probe.first, after.second).raw
  {
  }

  lemma BabbleMerged(e: Encoding, first: Outcome, second: Outcome, n: nat)
    requires first.raw != [] && AllKeyed(first.raw)
    requires second.observations == [] && |second.raw| == 1 && second.raw[0].output == n
    ensures PersistedSize(e, Merge(first, second).raw) > PersistedSize(e, first.raw) + n
  {
    MergedRawOfNothing(first, second);
    assert second.raw == [second.raw[0]];
    SizeGrows(e, first.raw, second.raw[0]);
  }

  /** The concluded poll can be stored, whatever the second pass meets. */
  ghost predicate AlwaysFits(s: Setting, config: Monitoring.Config, base: Monitoring.Base, probe: Monitoring.Probe,
                             x: Exchange)
    requires Tracking.Askable(QueryOf(s, FirstQuery(config, base, probe), x.hosts), x.replies)
  {
    forall y :: Meets(s, SecondQuery(base), y) ==>
      PersistedSize(s.encoding, Monitoring.Concluded(config, base, Continued(s, config, base, probe, x, y)).raw)
      <= MAX_POLL_RAW_BYTES
  }

  /** Exactly the polls that ask once are safe: those that refresh the location, and those whose first pass leaves no
      second miss pending. */
  lemma RawFitsIff(s: Setting, config: Monitoring.Config, base: Monitoring.Base, probe: Monitoring.Probe, x: Exchange)
    requires Tracking.Configured(s.site) && FirstAnswered(s, config, base, probe, x)
    ensures AlwaysFits(s, config, base, probe, x) <==> !Monitoring.AsksTwice(config, base, probe)
  {
    if Monitoring.AsksTwice(config, base, probe) {
      SecondPassExceeds(s, config, base, probe, x, MAX_POLL_RAW_BYTES);
    } else {
      forall y | Meets(s, SecondQuery(base), y)
        ensures PersistedSize(s.encoding,
                              Monitoring.Concluded(config, base, Continued(s, config, base, probe, x, y)).raw)
                <= MAX_POLL_RAW_BYTES
      {
        OnePassFits(s, config, base, Continued(s, config, base, probe, x, y), x);
      }
    }
  }
}
