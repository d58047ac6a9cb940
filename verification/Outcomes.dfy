/**
 Observations, query outcomes and the merge of the two passes of one poll
 (src/aruba_session_tracker/models.py, services/tracker.py, services/monitoring.py).
 */
module Outcomes {
  import opened Wrappers
  import opened Addresses

  const MAX_POLL_OBSERVATIONS: nat := 20_000

  /** The five fields joined by `_flow_key`; the controller is not part of the identity. */
  datatype Flow = Flow(protocol: nat, sourceIp: string, destinationIp: string, sourcePort: nat, destinationPort: nat)

  datatype Observation = Observation(
    name: string, host: string, flow: Flow, counter: string,
    packets: Option<nat>, bytes: Option<nat>, flags: string)

  /** `session_key`: the controller host and the flow. */
  datatype Key = Key(host: string, flow: Flow)

  function KeyOf(o: Observation): Key {
    Key(o.host, o.flow)
  }

  datatype Code =
    | OutputLimitExceeded | DuplicateFlow | SwitchAmbiguous | SwitchUnmapped | ClientNotFound
    | SessionNotFound | Cancelled | AuthFailed | CommandRejected | HostKeyChanged | HostKeyUnknown
    | DeadlineExceeded | Unreachable | ParsePartial

  datatype Diagnostic = Diagnostic(stage: string, code: Code, transient: bool, recovered: bool)

  /** `output` is the number of bytes of the output; `observation_keys` is None when the snapshot was not
      attributed yet. */
  datatype Raw = Raw(device: string, command: string, output: nat, keys: Option<seq<Key>>)

  datatype Device = Device(name: string, host: string, port: nat, enabled: bool)

  datatype Outcome = Outcome(
    observations: seq<Observation>, diagnostics: seq<Diagnostic>, usedMm: Option<string>,
    controllers: seq<string>, raw: seq<Raw>, sourceSwitch: Option<Ipv4>, destinationSwitch: Option<Ipv4>,
    fullScan: bool, authoritative: bool)

  /** The routing that later polls reuse: what one MM lookup found. */
  datatype Location = Location(
    source: Option<Ipv4>, destination: Option<Ipv4>, usedMm: Option<string>, fullScan: bool)

  function LocationOf(o: Outcome): Location {
    Location(o.sourceSwitch, o.destinationSwitch, o.usedMm, o.fullScan)
  }

  // ----- dictionaries keyed by session key, as lists in insertion order -----

  function Find(d: seq<Observation>, k: Key): Option<Observation> {
    if d == [] then None
    else if KeyOf(d[0]) == k then Some(d[0])
    else Find(d[1..], k)
  }

  /** The value that a list of assignments leaves under a key: the last one. */
  function FindLast(s: seq<Observation>, k: Key): Option<Observation> {
    if s == [] then None
    else if KeyOf(s[|s| - 1]) == k then Some(s[|s| - 1])
    else FindLast(s[..|s| - 1], k)
  }

  predicate DistinctKeys(s: seq<Observation>) {
    forall i, j :: 0 <= i < j < |s| ==> KeyOf(s[i]) != KeyOf(s[j])
  }

  /** `d[item.session_key] = item`: replaces in place or appends. */
  function Put(d: seq<Observation>, o: Observation): seq<Observation> {
    if d == [] then [o]
    else if KeyOf(d[0]) == KeyOf(o) then [o] + d[1..]
    else [d[0]] + Put(d[1..], o)
  }

  function PutAll(d: seq<Observation>, s: seq<Observation>): seq<Observation> {
    if s == [] then d else Put(PutAll(d, s[..|s| - 1]), s[|s| - 1])
  }

  lemma {:induction false} FindPut(d: seq<Observation>, o: Observation, k: Key)
    ensures Find(Put(d, o), k) == if k == KeyOf(o) then Some(o) else Find(d, k)
  {
    if d != [] && KeyOf(d[0]) != KeyOf(o) {
      FindPut(d[1..], o, k);
    }
  }

  lemma {:induction false} FindPutAll(d: seq<Observation>, s: seq<Observation>, k: Key)
    ensures Find(PutAll(d, s), k) == if FindLast(s, k).Some? then FindLast(s, k) else Find(d, k)
  {
    if s != [] {
      FindPutAll(d, s[..|s| - 1], k);
      FindPut(PutAll(d, s[..|s| - 1]), s[|s| - 1], k);
    }
  }

  lemma {:induction false} FindSound(d: seq<Observation>, k: Key)
    ensures Find(d, k).Some? <==> exists i :: 0 <= i < |d| && KeyOf(d[i]) == k
    ensures Find(d, k).Some? ==> Find(d, k).value in d && KeyOf(Find(d, k).value) == k
    ensures forall i :: 0 <= i < |d| && DistinctKeys(d) && KeyOf(d[i]) == k ==> Find(d, k) == Some(d[i])
  {
    if d != [] {
      FindSound(d[1..], k);
      forall i | 0 < i < |d| && KeyOf(d[i]) == k ensures Find(d[1..], k).Some? {
        assert d[1..][i - 1] == d[i];
      }
    }
  }

  lemma {:induction false} FindLastSound(s: seq<Observation>, k: Key)
    ensures FindLast(s, k).Some? <==> exists i :: 0 <= i < |s| && KeyOf(s[i]) == k
    ensures FindLast(s, k).Some? ==> FindLast(s, k).value in s && KeyOf(FindLast(s, k).value) == k
  {
    if s != [] {
      FindLastSound(s[..|s| - 1], k);
      forall i | 0 <= i < |s| - 1 && KeyOf(s[i]) == k ensures FindLast(s[..|s| - 1], k).Some? {
        assert s[..|s| - 1][i] == s[i];
      }
    }
  }

  lemma {:induction false} PutDistinct(d: seq<Observation>, o: Observation)
    requires DistinctKeys(d)
    ensures DistinctKeys(Put(d, o))
  {
    if d != [] && KeyOf(d[0]) != KeyOf(o) {
      PutDistinct(d[1..], o);
      var r := Put(d[1..], o);
      forall j | 0 <= j < |r| ensures KeyOf(r[j]) != KeyOf(d[0]) {
        FindPut(d[1..], o, KeyOf(d[0]));
        FindSound(r, KeyOf(d[0]));
        FindSound(d[1..], KeyOf(d[0]));
      }
    }
  }

  lemma {:induction false} PutAllDistinct(d: seq<Observation>, s: seq<Observation>)
    requires DistinctKeys(d)
    ensures DistinctKeys(PutAll(d, s))
  {
    if s != [] {
      PutAllDistinct(d, s[..|s| - 1]);
      PutDistinct(PutAll(d, s[..|s| - 1]), s[|s| - 1]);
    }
  }

  // ----- _merge_outcomes -----

  predicate SawFlow(s: seq<Observation>, f: Flow) {
    exists i :: 0 <= i < |s| && s[i].flow == f
  }

  /** First-pass observations of flows that the second pass did not see. */
  function Unseen(first: seq<Observation>, second: seq<Observation>): seq<Observation> {
    if first == [] then []
    else
      var rest := Unseen(first[..|first| - 1], second);
      var last := first[|first| - 1];
      if SawFlow(second, last.flow) then rest else rest + [last]
  }

  function MergedObservations(first: seq<Observation>, second: seq<Observation>): seq<Observation> {
    PutAll(PutAll([], Unseen(first, second)), PutAll([], second))
  }

  predicate Superseded(first: seq<Observation>, second: seq<Observation>, k: Key) {
    SawFlow(second, k.flow) && FindLast(first, k).Some?
  }

  function KeysOfDevice(s: seq<Observation>, device: string): seq<Key> {
    if s == [] then []
    else (if s[0].name == device then [KeyOf(s[0])] else []) + KeysOfDevice(s[1..], device)
  }

  function WithoutKeys(s: seq<Observation>, keys: seq<Key>): seq<Observation> {
    if s == [] then []
    else (if KeyOf(s[0]) in keys then [] else [s[0]]) + WithoutKeys(s[1..], keys)
  }

  function Keep(keys: seq<Key>, first: seq<Observation>, second: seq<Observation>): seq<Key> {
    if keys == [] then []
    else (if Superseded(first, second, keys[0]) then [] else [keys[0]]) + Keep(keys[1..], first, second)
  }

  /** The keys that each first-pass snapshot owns; unattributed ones take what is left of their device. */
  function Attribute(raw: seq<Raw>, remaining: seq<Observation>): seq<seq<Key>> {
    if raw == [] then []
    else
      var keys := if raw[0].keys.Some? then raw[0].keys.value else KeysOfDevice(remaining, raw[0].device);
      [keys] + Attribute(raw[1..], WithoutKeys(remaining, keys))
  }

  function Merge(first: Outcome, second: Outcome): Outcome {
    var owned := Attribute(first.raw, PutAll([], first.observations));
    AttributeLength(first.raw, PutAll([], first.observations));
    Outcome(
      MergedObservations(first.observations, second.observations),
      seq(|first.diagnostics|, i requires 0 <= i < |first.diagnostics| =>
        var e := first.diagnostics[i];
        if second.authoritative && e.transient then e.(recovered := true) else e) + second.diagnostics,
      if second.usedMm.Some? then second.usedMm else first.usedMm,
      Deduped(first.controllers + second.controllers),
      seq(|first.raw|, i requires 0 <= i < |first.raw| =>
        first.raw[i].(keys := Some(Keep(owned[i], first.observations, second.observations)))) + second.raw,
      second.sourceSwitch, second.destinationSwitch, second.fullScan, second.authoritative)
  }

  /** `dict.fromkeys`: the first occurrences, in order. */
  function Deduped<T(==)>(s: seq<T>): seq<T> {
    if s == [] then []
    else
      var rest := Deduped(s[..|s| - 1]);
      if s[|s| - 1] in rest then rest else rest + [s[|s| - 1]]
  }

  lemma {:induction false} AttributeLength(raw: seq<Raw>, remaining: seq<Observation>)
    ensures |Attribute(raw, remaining)| == |raw|
  {
    if raw != [] {
      var keys := if raw[0].keys.Some? then raw[0].keys.value else KeysOfDevice(remaining, raw[0].device);
      AttributeLength(raw[1..], WithoutKeys(remaining, keys));
    }
  }

  lemma {:induction false} UnseenLast(first: seq<Observation>, second: seq<Observation>, k: Key)
    ensures FindLast(Unseen(first, second), k) == if SawFlow(second, k.flow) then None else FindLast(first, k)
  {
    if first != [] {
      var rest := Unseen(first[..|first| - 1], second);
      UnseenLast(first[..|first| - 1], second, k);
      assert (rest + [first[|first| - 1]])[..|rest|] == rest;
    }
  }

  /** The second pass replaces the first for every flow it saw; the others keep their first-pass value. */
  lemma MergeObservations(first: Outcome, second: Outcome, k: Key)
    ensures DistinctKeys(Merge(first, second).observations)
    ensures Find(Merge(first, second).observations, k)
            == if FindLast(second.observations, k).Some? then FindLast(second.observations, k)
               else if SawFlow(second.observations, k.flow) then None
               else FindLast(first.observations, k)
  {
    var a, b := first.observations, second.observations;
    PutAllDistinct([], Unseen(a, b));
    PutAllDistinct(PutAll([], Unseen(a, b)), PutAll([], b));
    FindPutAll(PutAll([], Unseen(a, b)), PutAll([], b), k);
    FindPutAll([], Unseen(a, b), k);
    UnseenLast(a, b, k);
    FindPutAll([], b, k);
    PutAllDistinct([], b);
    DistinctLast(PutAll([], b), k);
  }

  lemma DistinctLast(d: seq<Observation>, k: Key)
    requires DistinctKeys(d)
    ensures FindLast(d, k) == Find(d, k)
  {
    FindSound(d, k);
    FindLastSound(d, k);
  }

  // ----- Raw evidence is a partition of the observations -----

  predicate DistinctList(keys: seq<Key>) {
    forall i, j :: 0 <= i < j < |keys| ==> keys[i] != keys[j]
  }

  /** Every observation is attributed to exactly one snapshot, and nothing else is. */
  ghost predicate Partition(owned: seq<seq<Key>>, observations: seq<Observation>) {
    && (forall i :: 0 <= i < |owned| ==> DistinctList(owned[i]))
    && (forall i, j, k :: 0 <= i < j < |owned| && k in owned[i] ==> k !in owned[j])
    && (forall i, k :: 0 <= i < |owned| && k in owned[i] ==> FindLast(observations, k).Some?)
    && (forall k :: FindLast(observations, k).Some? ==> exists i :: 0 <= i < |owned| && k in owned[i])
  }

  function OwnedKeys(raw: seq<Raw>): seq<seq<Key>> {
    seq(|raw|, i requires 0 <= i < |raw| => if raw[i].keys.Some? then raw[i].keys.value else [])
  }

  lemma {:induction false} KeepSound(keys: seq<Key>, first: seq<Observation>, second: seq<Observation>)
    ensures forall k :: k in Keep(keys, first, second) <==> k in keys && !Superseded(first, second, k)
    ensures DistinctList(keys) ==> DistinctList(Keep(keys, first, second))
  {
    if keys != [] {
      KeepSound(keys[1..], first, second);
    }
  }

  function KeepAll(owned: seq<seq<Key>>, first: seq<Observation>, second: seq<Observation>): seq<seq<Key>> {
    seq(|owned|, i requires 0 <= i < |owned| => Keep(owned[i], first, second))
  }

  lemma MergedOwners(first: Outcome, second: Outcome)
    ensures OwnedKeys(Merge(first, second).raw)
            == KeepAll(Attribute(first.raw, PutAll([], first.observations)), first.observations, second.observations)
               + OwnedKeys(second.raw)
  {
    AttributeLength(first.raw, PutAll([], first.observations));
  }

  /** Which keys the merged observations have. */
  lemma MergedKeys(first: Outcome, second: Outcome, k: Key)
    ensures FindLast(Merge(first, second).observations, k).Some? <==>
            FindLast(second.observations, k).Some?
            || (FindLast(first.observations, k).Some? && !Superseded(first.observations, second.observations, k))
    ensures FindLast(second.observations, k).Some? ==> SawFlow(second.observations, k.flow)
  {
    MergeObservations(first, second, k);
    DistinctLast(Merge(first, second).observations, k);
    FindLastSound(second.observations, k);
  }

  lemma KeepAllOwns(owned: seq<seq<Key>>, first: seq<Observation>, second: seq<Observation>, i: nat)
    requires Partition(owned, first) && i < |owned|
    ensures var kept := KeepAll(owned, first, second)[i];
            && DistinctList(kept)
            && forall k :: k in kept <==> k in owned[i] && !Superseded(first, second, k)
  {
    KeepSound(owned[i], first, second);
  }

  lemma MergedOwnersDisjoint(owned: seq<seq<Key>>, first: seq<Observation>, second: seq<Observation>,
                             owned2: seq<seq<Key>>, i: nat, j: nat, k: Key)
    requires Partition(owned, first) && Partition(owned2, second)
    requires FindLast(second, k).Some? ==> SawFlow(second, k.flow)
    requires i < j < |owned| + |owned2|
    ensures var merged := KeepAll(owned, first, second) + owned2;
            DistinctList(merged[i]) && DistinctList(merged[j]) && (k in merged[i] ==> k !in merged[j])
  {
    if i < |owned| {
      KeepAllOwns(owned, first, second, i);
    }
    if j < |owned| {
      KeepAllOwns(owned, first, second, j);
    }
  }

  lemma MergedOwnersCover(owned: seq<seq<Key>>, first: seq<Observation>, second: seq<Observation>,
                          owned2: seq<seq<Key>>, k: Key)
    requires Partition(owned, first) && Partition(owned2, second)
    requires FindLast(second, k).Some? || (FindLast(first, k).Some? && !Superseded(first, second, k))
    ensures var merged := KeepAll(owned, first, second) + owned2;
            exists i :: 0 <= i < |merged| && k in merged[i]
  {
    var merged := KeepAll(owned, first, second) + owned2;
    if FindLast(second, k).Some? {
      var i :| 0 <= i < |owned2| && k in owned2[i];
      assert merged[|owned| + i] == owned2[i];
    } else {
      var i :| 0 <= i < |owned| && k in owned[i];
      KeepAllOwns(owned, first, second, i);
      assert k in merged[i];
    }
  }

  /** If the first pass attributes its observations, and so does the second, then so does the merge. */
  lemma MergeKeepsPartition(first: Outcome, second: Outcome)
    requires Partition(Attribute(first.raw, PutAll([], first.observations)), first.observations)
    requires Partition(OwnedKeys(second.raw), second.observations)
    ensures Partition(OwnedKeys(Merge(first, second).raw), Merge(first, second).observations)
  {
    var a, b := first.observations, second.observations;
    var owned, owned2 := Attribute(first.raw, PutAll([], a)), OwnedKeys(second.raw);
    var merged := OwnedKeys(Merge(first, second).raw);
    MergedOwners(first, second);
    forall i, j, k | 0 <= i < j < |merged| && k in merged[i] ensures k !in merged[j] {
      MergedKeys(first, second, k);
      MergedOwnersDisjoint(owned, a, b, owned2, i, j, k);
    }
    forall i | 0 <= i < |merged| ensures DistinctList(merged[i]) {
      if i < |owned| {
        KeepAllOwns(owned, a, b, i);
      }
    }
    forall i, k | 0 <= i < |merged| && k in merged[i] ensures FindLast(Merge(first, second).observations, k).Some? {
      MergedKeys(first, second, k);
      if i < |owned| {
        KeepAllOwns(owned, a, b, i);
      }
    }
    forall k | FindLast(Merge(first, second).observations, k).Some?
      ensures exists i :: 0 <= i < |merged| && k in merged[i]
    {
      MergedKeys(first, second, k);
      MergedOwnersCover(owned, a, b, owned2, k);
    }
  }

  /** Snapshots that are already attributed keep their keys. */
  lemma {:induction false} AttributeKnown(raw: seq<Raw>, remaining: seq<Observation>)
    requires forall i :: 0 <= i < |raw| ==> raw[i].keys.Some?
    ensures Attribute(raw, remaining) == OwnedKeys(raw)
  {
    if raw != [] {
      AttributeKnown(raw[1..], WithoutKeys(remaining, raw[0].keys.value));
      assert OwnedKeys(raw) == [raw[0].keys.value] + OwnedKeys(raw[1..]);
    }
  }
}
