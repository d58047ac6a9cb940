/**
 The session lifecycle of one poll (src/aruba_session_tracker/services/monitoring.py).

 The source walks dictionaries and mutates sessions in place.  Flows are independent of each other, so
 the specification is one function per flow: `NextSession` and `FlowEvents`.  The class `SessionTable`
 performs the walk and is proved to compute that function for every flow, in dictionary order.
 */
module Lifecycle {
  import opened Wrappers
  import opened Outcomes

  // ----- string order, as used by min() over controller hosts -----

  predicate LexLe(a: string, b: string) {
    if a == [] then true
    else if b == [] then false
    else if a[0] != b[0] then a[0] < b[0]
    else LexLe(a[1..], b[1..])
  }

  lemma {:induction false} LexTotal(a: string, b: string)
    ensures LexLe(a, b) || LexLe(b, a)
    ensures LexLe(a, b) && LexLe(b, a) ==> a == b
  {
    if a != [] && b != [] && a[0] == b[0] {
      LexTotal(a[1..], b[1..]);
      assert a == [a[0]] + a[1..] && b == [b[0]] + b[1..];
    }
  }

  lemma {:induction false} LexTransitive(a: string, b: string, c: string)
    requires LexLe(a, b) && LexLe(b, c)
    ensures LexLe(a, c)
  {
    if a != [] && b != [] && c != [] && a[0] == b[0] == c[0] {
      LexTransitive(a[1..], b[1..], c[1..]);
    }
  }

  predicate IsLeast(h: string, hosts: set<string>) {
    h in hosts && forall k :: k in hosts ==> LexLe(h, k)
  }

  lemma LeastOfMore(x: string, y: string, rest: set<string>)
    requires IsLeast(y, rest)
    ensures IsLeast(if LexLe(x, y) then x else y, rest + {x})
  {
    LexTotal(x, y);
    LexTotal(x, x);
    if LexLe(x, y) {
      forall k | k in rest ensures LexLe(x, k) {
        LexTransitive(x, y, k);
      }
    }
  }

  lemma {:induction false} LeastExists(hosts: set<string>)
    requires hosts != {}
    ensures exists h :: IsLeast(h, hosts)
  {
    var x :| x in hosts;
    var rest := hosts - {x};
    if rest == {} {
      LexTotal(x, x);
      assert hosts == {x};
      assert IsLeast(x, hosts);
    } else {
      LeastExists(rest);
      var y :| IsLeast(y, rest);
      LeastOfMore(x, y, rest);
      assert hosts == rest + {x};
    }
  }

  lemma LeastUnique(hosts: set<string>)
    ensures forall h, k :: IsLeast(h, hosts) && IsLeast(k, hosts) ==> h == k
  {
    forall h, k | IsLeast(h, hosts) && IsLeast(k, hosts) ensures h == k {
      LexTotal(h, k);
    }
  }

  function LeastHost(hosts: set<string>): (h: string)
    requires hosts != {}
    ensures IsLeast(h, hosts)
  {
    LeastExists(hosts);
    LeastUnique(hosts);
    var h :| h in hosts && IsLeast(h, hosts);
    h
  }

  // ----- sessions and events -----

  /** A session instance; the generation of the poll that started it makes it unique. */
  datatype Instance = Instance(generation: nat, flow: Flow)

  datatype Session = Session(
    id: Instance, firstSeen: int, lastSeen: int, misses: nat, observation: Observation,
    controllers: map<string, Observation>, confirmed: Option<Observation>)

  datatype EventType = STARTED | OBSERVED | MISSED | CLOSED | CONTROLLER_CHANGED | FLAGS_CHANGED | COUNTERS_CHANGED

  datatype LifecycleEvent = LifecycleEvent(
    kind: EventType, id: Instance, observation: Observation, previous: Option<Observation>, misses: nat, at: int)

  type Group = map<string, Observation>

  function FlowsOf(observations: seq<Observation>): set<Flow> {
    set i | 0 <= i < |observations| :: observations[i].flow
  }

  /** The observations of one flow by controller host; the last one of a host wins. */
  function Controllers(observations: seq<Observation>, f: Flow): Group {
    if observations == [] then map[]
    else
      var last := observations[|observations| - 1];
      var rest := Controllers(observations[..|observations| - 1], f);
      if last.flow == f then rest[last.host := last] else rest
  }

  /** The flows in the order in which they were first observed. */
  function FlowOrder(observations: seq<Observation>): seq<Flow> {
    if observations == [] then []
    else
      var last := observations[|observations| - 1];
      var rest := FlowOrder(observations[..|observations| - 1]);
      if last.flow in rest then rest else rest + [last.flow]
  }

  function Representative(group: Group, preferred: Option<string>): Observation
    requires group != map[]
  {
    if preferred.Some? && preferred.value in group then group[preferred.value]
    else
      assert group.Keys != {};
      group[LeastHost(group.Keys)]
  }

  function Preferred(s: Session, group: Group): Option<string> {
    if s.confirmed.Some? && s.confirmed.value.host in group then Some(s.confirmed.value.host)
    else if s.observation.host in group then Some(s.observation.host)
    else None
  }

  predicate Decreased(prior: Option<nat>, latest: Option<nat>) {
    prior.Some? && latest.Some? && latest.value < prior.value
  }

  predicate CountersReset(previous: Observation, current: Observation) {
    previous.counter != current.counter || Decreased(previous.packets, current.packets)
    || Decreased(previous.bytes, current.bytes)
  }

  function Begin(group: Group, authoritative: bool, id: Instance, now: int): Session
    requires group != map[]
  {
    var o := Representative(group, None);
    Session(id, now, now, 0, o, group, if authoritative && |group| == 1 then Some(o) else None)
  }

  /** A known session is seen again. */
  function Resight(s: Session, group: Group, authoritative: bool, now: int): Session
    requires group != map[]
  {
    var o := Representative(group, Preferred(s, group));
    s.(lastSeen := now, misses := 0, observation := o,
       controllers := if authoritative then group else s.controllers + group,
       confirmed :=
         if authoritative && |group| == 1 then Some(o)
         else if s.confirmed.Some? && s.confirmed.value.host in group then Some(group[s.confirmed.value.host])
         else s.confirmed)
  }

  function Changes(id: Instance, before: Observation, o: Observation, now: int): seq<LifecycleEvent> {
    (if before.host != o.host then [LifecycleEvent(CONTROLLER_CHANGED, id, o, Some(before), 0, now)] else [])
    + (if before.flags != o.flags then [LifecycleEvent(FLAGS_CHANGED, id, o, Some(before), 0, now)] else [])
    + (if CountersReset(before, o) then [LifecycleEvent(COUNTERS_CHANGED, id, o, Some(before), 0, now)] else [])
  }

  function ResightEvents(s: Session, group: Group, authoritative: bool, now: int): seq<LifecycleEvent>
    requires group != map[]
  {
    var o := Representative(group, Preferred(s, group));
    (if s.misses > 0 then [LifecycleEvent(OBSERVED, s.id, o, Some(s.observation), 0, now)] else [])
    + (if authoritative && |group| == 1 && s.confirmed.Some? then Changes(s.id, s.confirmed.value, o, now) else [])
  }

  function NextSession(known: Option<Session>, group: Group, authoritative: bool, limit: nat, id: Instance, now: int)
    : Option<Session>
  {
    if group != map[] then
      Some(if known.Some? then Resight(known.value, group, authoritative, now)
           else Begin(group, authoritative, id, now))
    else if known.None? || !authoritative then known
    else if known.value.misses + 1 >= limit then None
    else Some(known.value.(misses := known.value.misses + 1))
  }

  function FlowEvents(known: Option<Session>, group: Group, authoritative: bool, limit: nat, id: Instance, now: int)
    : seq<LifecycleEvent>
  {
    if group != map[] then
      if known.Some? then ResightEvents(known.value, group, authoritative, now)
      else [LifecycleEvent(STARTED, id, Representative(group, None), None, 0, now)]
    else if known.None? || !authoritative then []
    else
      var misses := known.value.misses + 1;
      [LifecycleEvent(if misses >= limit then CLOSED else MISSED, known.value.id, known.value.observation, None, misses,
                      now)]
  }

  // ----- one poll over the whole table -----

  function Get(at: map<Flow, Session>, f: Flow): Option<Session> {
    if f in at then Some(at[f]) else None
  }

  /** The arguments of `_apply_observations`; `generation` stands for the fresh instance IDs. */
  datatype Sweep = Sweep(observations: seq<Observation>, authoritative: bool, limit: nat, generation: nat, now: int)

  function SessionAfter(at: map<Flow, Session>, w: Sweep, f: Flow): Option<Session> {
    NextSession(Get(at, f), Controllers(w.observations, f), w.authoritative, w.limit, Instance(w.generation, f), w.now)
  }

  function EventsAfter(at: map<Flow, Session>, w: Sweep, f: Flow): seq<LifecycleEvent> {
    FlowEvents(Get(at, f), Controllers(w.observations, f), w.authoritative, w.limit, Instance(w.generation, f), w.now)
  }

  function Swept(at: map<Flow, Session>, w: Sweep): map<Flow, Session> {
    map f | f in at.Keys + FlowsOf(w.observations) && SessionAfter(at, w, f).Some? :: SessionAfter(at, w, f).value
  }

  function AllEvents(at: map<Flow, Session>, w: Sweep, flows: seq<Flow>): seq<LifecycleEvent> {
    if flows == [] then [] else AllEvents(at, w, flows[..|flows| - 1]) + EventsAfter(at, w, flows[|flows| - 1])
  }

  function Restrict(flows: seq<Flow>, keys: set<Flow>): seq<Flow> {
    if flows == [] then []
    else
      Restrict(flows[..|flows| - 1], keys)
      + (if flows[|flows| - 1] in keys then [flows[|flows| - 1]] else [])
  }

  predicate DistinctFlows(s: seq<Flow>) {
    forall i, j :: 0 <= i < j < |s| ==> s[i] != s[j]
  }

  /** First the observed flows in the order of their first observation, then the active flows that were
      not observed, in the order in which they became active. */
  function SweepEvents(order: seq<Flow>, at: map<Flow, Session>, w: Sweep): seq<LifecycleEvent> {
    AllEvents(at, w, FlowOrder(w.observations)) + AllEvents(at, w, Restrict(order, at.Keys - FlowsOf(w.observations)))
  }

  /** New flows are appended; closed flows disappear. */
  function SweptOrder(order: seq<Flow>, at: map<Flow, Session>, w: Sweep): seq<Flow> {
    Restrict(order + Restrict(FlowOrder(w.observations), FlowsOf(w.observations) - at.Keys), Swept(at, w).Keys)
  }

  // ----- lemmas about the dictionary walk -----

  lemma {:induction false} FlowsOfPrefix(s: seq<Observation>)
    requires s != []
    ensures FlowsOf(s) == FlowsOf(s[..|s| - 1]) + {s[|s| - 1].flow}
  {
    var init := s[..|s| - 1];
    forall f | f in FlowsOf(s) ensures f in FlowsOf(init) + {s[|s| - 1].flow} {
      var i :| 0 <= i < |s| && s[i].flow == f;
      if i < |s| - 1 {
        assert init[i].flow == f;
      }
    }
    forall f | f in FlowsOf(init) ensures f in FlowsOf(s) {
      var i :| 0 <= i < |init| && init[i].flow == f;
      assert s[i].flow == f;
    }
    assert s[|s| - 1].flow in FlowsOf(s);
  }

  lemma {:induction false} FlowOrderSound(s: seq<Observation>)
    ensures DistinctFlows(FlowOrder(s))
    ensures forall f :: f in FlowOrder(s) <==> f in FlowsOf(s)
  {
    if s != [] {
      FlowOrderSound(s[..|s| - 1]);
      FlowsOfPrefix(s);
    }
  }

  lemma {:induction false} ControllersSound(s: seq<Observation>, f: Flow)
    ensures Controllers(s, f) != map[] <==> f in FlowsOf(s)
    ensures forall h :: h in Controllers(s, f) ==> Controllers(s, f)[h] in s && Controllers(s, f)[h].flow == f
                                                   && Controllers(s, f)[h].host == h
  {
    if s != [] {
      ControllersSound(s[..|s| - 1], f);
      FlowsOfPrefix(s);
      if s[|s| - 1].flow == f {
        assert s[|s| - 1].host in Controllers(s, f);
      }
    }
  }

  lemma {:induction false} RestrictSound(flows: seq<Flow>, keys: set<Flow>)
    ensures forall f :: f in Restrict(flows, keys) <==> f in flows && f in keys
    ensures DistinctFlows(flows) ==> DistinctFlows(Restrict(flows, keys))
  {
    if flows != [] {
      RestrictSound(flows[..|flows| - 1], keys);
      var init := flows[..|flows| - 1];
      assert flows == init + [flows[|flows| - 1]];
    }
  }
}
