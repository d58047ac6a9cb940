/**
 The dictionary of active sessions and the walk over it
 (`_group_observations_by_flow` and `_apply_observations` in src/aruba_session_tracker/services/monitoring.py).
 */
module Sessions {
  import opened Wrappers
  import opened Outcomes
  import opened Lifecycle

  /** A Python dictionary: its entries and the order in which its keys were inserted. */
  datatype Table = Table(order: seq<Flow>, at: map<Flow, Session>)

  ghost predicate Coherent(t: Table) {
    DistinctFlows(t.order) && forall f :: f in t.order <==> f in t.at
  }

  function SweptTable(t: Table, w: Sweep): Table {
    Table(SweptOrder(t.order, t.at, w), Swept(t.at, w))
  }

  function Pruned(t: Table, keep: set<Flow>): Table {
    Table(Restrict(t.order, keep), map f | f in t.at && f in keep :: t.at[f])
  }

  // ----- lemmas about restricting an insertion order -----

  lemma {:induction false} RestrictAll(flows: seq<Flow>, keys: set<Flow>)
    requires forall f :: f in flows ==> f in keys
    ensures Restrict(flows, keys) == flows
  {
    if flows != [] {
      RestrictAll(flows[..|flows| - 1], keys);
    }
  }

  lemma {:induction false} RestrictNone(flows: seq<Flow>, keys: set<Flow>)
    requires forall f :: f in flows ==> f !in keys
    ensures Restrict(flows, keys) == []
  {
    if flows != [] {
      RestrictNone(flows[..|flows| - 1], keys);
    }
  }

  lemma {:induction false} RestrictTwice(flows: seq<Flow>, keys: set<Flow>, fewer: set<Flow>)
    requires fewer <= keys
    ensures Restrict(Restrict(flows, keys), fewer) == Restrict(flows, fewer)
  {
    if flows != [] {
      var init, last := flows[..|flows| - 1], flows[|flows| - 1];
      RestrictTwice(init, keys, fewer);
      if last in keys {
        assert (Restrict(init, keys) + [last])[..|Restrict(init, keys)|] == Restrict(init, keys);
      } else {
        assert Restrict(flows, keys) == Restrict(init, keys);
      }
    }
  }

  lemma {:induction false} RestrictConcat(a: seq<Flow>, b: seq<Flow>, keys: set<Flow>)
    ensures Restrict(a + b, keys) == Restrict(a, keys) + Restrict(b, keys)
  {
    if b == [] {
      assert a + b == a;
    } else {
      assert (a + b)[..|a + b| - 1] == a + b[..|b| - 1];
      RestrictConcat(a, b[..|b| - 1], keys);
    }
  }

  lemma RestrictSnoc(flows: seq<Flow>, i: nat, keys: set<Flow>)
    requires i < |flows|
    ensures Restrict(flows[..i + 1], keys) == Restrict(flows[..i], keys) + (if flows[i] in keys then [flows[i]] else [])
  {
    assert flows[..i + 1][..i] == flows[..i];
  }

  lemma EventsSnoc(at: map<Flow, Session>, w: Sweep, flows: seq<Flow>, f: Flow)
    ensures AllEvents(at, w, flows + [f]) == AllEvents(at, w, flows) + EventsAfter(at, w, f)
  {
    assert (flows + [f])[..|flows|] == flows;
  }

  // ----- one dictionary entry at a time -----

  /** What the walk does to the dictionary when it comes to one flow; `before` is the dictionary at the start. */
  function Visit(t: Table, before: map<Flow, Session>, w: Sweep, f: Flow): Table {
    match SessionAfter(before, w, f)
    case Some(s) => Table(if f in t.at then t.order else t.order + [f], t.at[f := s])
    case None => Table(Restrict(t.order, t.at.Keys - {f}), t.at - {f})
  }

  function VisitAll(t: Table, w: Sweep, flows: seq<Flow>): Table {
    if flows == [] then t
    else Visit(VisitAll(t, w, flows[..|flows| - 1]), t.at, w, flows[|flows| - 1])
  }

  /** The flows in the order in which the walk comes to them. */
  function Visited(t: Table, w: Sweep): seq<Flow> {
    FlowOrder(w.observations) + Restrict(t.order, t.at.Keys - FlowsOf(w.observations))
  }

  lemma VisitSnoc(t: Table, w: Sweep, flows: seq<Flow>, f: Flow)
    ensures VisitAll(t, w, flows + [f]) == Visit(VisitAll(t, w, flows), t.at, w, f)
  {
    assert (flows + [f])[..|flows|] == flows;
  }

  lemma VisitAt(t: Table, before: map<Flow, Session>, w: Sweep, g: Flow, f: Flow)
    ensures Get(Visit(t, before, w, g).at, f) == if f == g then SessionAfter(before, w, g) else Get(t.at, f)
  {
  }

  lemma {:induction false} VisitAllAt(t: Table, w: Sweep, flows: seq<Flow>, f: Flow)
    ensures Get(VisitAll(t, w, flows).at, f) == if f in flows then SessionAfter(t.at, w, f) else Get(t.at, f)
  {
    if flows != [] {
      var init, last := flows[..|flows| - 1], flows[|flows| - 1];
      VisitAllAt(t, w, init, f);
      VisitAt(VisitAll(t, w, init), t.at, w, last, f);
      assert flows == init + [last];
    }
  }

  lemma SeenStays(at: map<Flow, Session>, w: Sweep, f: Flow)
    ensures f in FlowsOf(w.observations) ==> SessionAfter(at, w, f).Some?
  {
    ControllersSound(w.observations, f);
  }

  lemma VisitedTwice(t: Table, w: Sweep)
    requires Coherent(t)
    ensures DistinctFlows(Visited(t, w))
    ensures forall f :: f in Visited(t, w) <==> f in t.at.Keys + FlowsOf(w.observations)
  {
    FlowOrderSound(w.observations);
    RestrictSound(t.order, t.at.Keys - FlowsOf(w.observations));
    AppendDistinct(FlowOrder(w.observations), Restrict(t.order, t.at.Keys - FlowsOf(w.observations)));
  }

  /** Sightings only append. */
  lemma {:induction false} SightingsAppend(t: Table, w: Sweep, flows: seq<Flow>)
    requires DistinctFlows(flows) && forall f :: f in flows ==> f in FlowsOf(w.observations)
    ensures VisitAll(t, w, flows).order == t.order + Restrict(flows, FlowsOf(w.observations) - t.at.Keys)
  {
    if flows != [] {
      var init, last := flows[..|flows| - 1], flows[|flows| - 1];
      assert flows == init + [last];
      SightingsAppend(t, w, init);
      SeenStays(t.at, w, last);
      VisitAllAt(t, w, init, last);
    }
  }

  /** Absences only delete. */
  lemma {:induction false} AbsencesDelete(t: Table, w: Sweep, seen: seq<Flow>, flows: seq<Flow>, order: seq<Flow>)
    requires order == VisitAll(t, w, seen).order && DistinctFlows(seen + flows)
    requires forall f :: f in order ==> f in VisitAll(t, w, seen).at
    requires forall f :: f in flows ==> f in t.at
    ensures VisitAll(t, w, seen + flows).order == Restrict(order, VisitAll(t, w, seen + flows).at.Keys)
  {
    if flows == [] {
      assert seen + flows == seen;
      RestrictAll(order, VisitAll(t, w, seen).at.Keys);
    } else {
      var init, last := flows[..|flows| - 1], flows[|flows| - 1];
      assert seen + flows == (seen + init) + [last];
      assert forall i :: 0 <= i < |seen + init| ==> (seen + init)[i] == (seen + flows)[i];
      AbsencesDelete(t, w, seen, init, order);
      VisitSnoc(t, w, seen + init, last);
      VisitAllAt(t, w, seen + init, last);
      var before := VisitAll(t, w, seen + init);
      if SessionAfter(t.at, w, last).Some? {
        assert before.at[last := SessionAfter(t.at, w, last).value].Keys == before.at.Keys;
      } else {
        RestrictTwice(order, before.at.Keys, before.at.Keys - {last});
        assert (before.at - {last}).Keys == before.at.Keys - {last};
      }
    }
  }

  lemma VisitedAt(t: Table, w: Sweep)
    requires Coherent(t)
    ensures VisitAll(t, w, Visited(t, w)).at == Swept(t.at, w)
  {
    VisitedTwice(t, w);
    var walked := VisitAll(t, w, Visited(t, w)).at;
    forall f ensures Get(walked, f) == Get(Swept(t.at, w), f) {
      VisitAllAt(t, w, Visited(t, w), f);
    }
    assert forall f :: f in walked <==> Get(walked, f).Some?;
    assert forall f :: f in Swept(t.at, w) <==> Get(Swept(t.at, w), f).Some?;
    assert forall f :: f in walked ==> walked[f] == Get(walked, f).value;
    assert forall f :: f in Swept(t.at, w) ==> Swept(t.at, w)[f] == Get(Swept(t.at, w), f).value;
  }

  lemma SightingsCover(t: Table, w: Sweep)
    requires Coherent(t)
    ensures var order := t.order + Restrict(FlowOrder(w.observations), FlowsOf(w.observations) - t.at.Keys);
            var sighted := VisitAll(t, w, FlowOrder(w.observations));
            sighted.order == order && DistinctFlows(order) && (forall f :: f in order <==> f in sighted.at)
            && sighted.at.Keys == t.at.Keys + FlowsOf(w.observations)
  {
    var flows := FlowOrder(w.observations);
    FlowOrderSound(w.observations);
    SightingsAppend(t, w, flows);
    RestrictSound(flows, FlowsOf(w.observations) - t.at.Keys);
    var sighted := VisitAll(t, w, flows);
    forall f ensures f in sighted.at <==> f in t.at.Keys + FlowsOf(w.observations) {
      VisitAllAt(t, w, flows, f);
      SeenStays(t.at, w, f);
      assert f in sighted.at <==> Get(sighted.at, f).Some?;
    }
    AppendDistinct(t.order, Restrict(flows, FlowsOf(w.observations) - t.at.Keys));
  }

  lemma AppendDistinct(a: seq<Flow>, b: seq<Flow>)
    requires DistinctFlows(a) && DistinctFlows(b) && forall f :: f in a ==> f !in b
    ensures DistinctFlows(a + b)
  {
    var s := a + b;
    forall i, j | 0 <= i < j < |s| ensures s[i] != s[j] {
      if i < |a| <= j {
        assert a[i] in a && b[j - |a|] in b;
      }
    }
  }

  /** The walk computes the specification, entry by entry and in order. */
  lemma WalkIsSweep(t: Table, w: Sweep)
    requires Coherent(t)
    ensures VisitAll(t, w, Visited(t, w)) == SweptTable(t, w)
  {
    VisitedAt(t, w);
    SightingsCover(t, w);
    VisitedTwice(t, w);
    RestrictSound(t.order, t.at.Keys - FlowsOf(w.observations));
    AbsencesDelete(t, w, FlowOrder(w.observations), Restrict(t.order, t.at.Keys - FlowsOf(w.observations)),
                   VisitAll(t, w, FlowOrder(w.observations)).order);
  }

  lemma SweptCoherent(t: Table, w: Sweep)
    requires Coherent(t)
    ensures Coherent(SweptTable(t, w))
  {
    SightingsCover(t, w);
    RestrictSound(t.order + Restrict(FlowOrder(w.observations), FlowsOf(w.observations) - t.at.Keys),
                  Swept(t.at, w).Keys);
  }

  lemma PrunedCoherent(t: Table, keep: set<Flow>)
    requires Coherent(t)
    ensures Coherent(Pruned(t, keep))
  {
    RestrictSound(t.order, keep);
  }

  function Elements(s: seq<Flow>): set<Flow> {
    set f | f in s
  }

  /** The part of the dictionary that is left when the pruning loop has come to position `j`. */
  function PrunedUpTo(t: Table, j: nat, keep: set<Flow>): Table
    requires j <= |t.order|
  {
    Pruned(t, keep + Elements(t.order[j..]))
  }

  lemma PruneStep(t: Table, j: nat, keep: set<Flow>)
    requires Coherent(t) && j < |t.order|
    ensures var f, here := t.order[j], PrunedUpTo(t, j, keep);
            f in here.at && Coherent(here)
            && PrunedUpTo(t, j + 1, keep) == if f in keep then here else Pruned(here, here.at.Keys - {f})
  {
    var f, here, now, later := t.order[j], PrunedUpTo(t, j, keep), Elements(t.order[j..]), Elements(t.order[j + 1..]);
    PrunedCoherent(t, keep + now);
    assert t.order[j..] == [f] + t.order[j + 1..];
    assert now == later + {f};
    assert f !in t.order[j + 1..];
    if f in keep {
      assert keep + now == keep + later;
    } else {
      assert (keep + now) - {f} == keep + later;
      RestrictTwice(t.order, keep + now, keep + later);
      RestrictSame(Restrict(t.order, keep + now), here.at.Keys - {f}, keep + later) by {
        RestrictSound(t.order, keep + now);
      }
    }
  }

  lemma PruneEnds(t: Table, keep: set<Flow>)
    requires Coherent(t)
    ensures PrunedUpTo(t, 0, keep) == t && PrunedUpTo(t, |t.order|, keep) == Pruned(t, keep)
  {
    assert t.order[0..] == t.order;
    RestrictAll(t.order, keep + Elements(t.order));
    assert keep + Elements(t.order[|t.order|..]) == keep;
  }

  // ----- what one turn of each loop does to the dictionary -----

  function Sighted(t: Table, f: Flow, group: Group, authoritative: bool, generation: nat, now: int): Table
    requires group != map[]
  {
    if f in t.at then Table(t.order, t.at[f := Resight(t.at[f], group, authoritative, now)])
    else Table(t.order + [f], t.at[f := Begin(group, authoritative, Instance(generation, f), now)])
  }

  function SightingEvents(t: Table, f: Flow, group: Group, authoritative: bool, generation: nat, now: int)
    : seq<LifecycleEvent>
    requires group != map[]
  {
    if f in t.at then ResightEvents(t.at[f], group, authoritative, now)
    else [LifecycleEvent(STARTED, Instance(generation, f), Representative(group, None), None, 0, now)]
  }

  function Counted(t: Table, f: Flow): Table
    requires f in t.at
  {
    Table(t.order, t.at[f := t.at[f].(misses := t.at[f].misses + 1)])
  }

  function Missed(t: Table, f: Flow, limit: nat): Table
    requires f in t.at
  {
    if t.at[f].misses + 1 >= limit then Pruned(t, t.at.Keys - {f}) else Counted(t, f)
  }

  lemma MissedIs(t: Table, f: Flow, limit: nat)
    requires f in t.at
    ensures var t2 := Counted(t, f);
            Missed(t, f, limit) == if t.at[f].misses + 1 >= limit then Pruned(t2, t2.at.Keys - {f}) else t2
  {
    var t2 := Counted(t, f);
    assert t2.at.Keys == t.at.Keys;
    assert Pruned(t2, t.at.Keys - {f}).at == Pruned(t, t.at.Keys - {f}).at;
  }

  function MissEvents(s: Session, limit: nat, now: int): seq<LifecycleEvent> {
    [LifecycleEvent(if s.misses + 1 >= limit then CLOSED else MISSED, s.id, s.observation, None, s.misses + 1, now)]
  }

  /** A sighting is what the walk does to an observed flow to which it comes for the first time. */
  lemma SightingStep(start: Table, w: Sweep, flows: seq<Flow>, i: nat)
    requires i < |flows| && DistinctFlows(flows) && flows[i] in FlowsOf(w.observations)
    ensures var f, group, here := flows[i], Controllers(w.observations, flows[i]), VisitAll(start, w, flows[..i]);
            && group != map[]
            && VisitAll(start, w, flows[..i + 1]) == Sighted(here, f, group, w.authoritative, w.generation, w.now)
            && AllEvents(start.at, w, flows[..i + 1])
               == AllEvents(start.at, w, flows[..i])
                  + SightingEvents(here, f, group, w.authoritative, w.generation, w.now)
  {
    var f := flows[i];
    ControllersSound(w.observations, f);
    VisitAllAt(start, w, flows[..i], f);
    VisitSnoc(start, w, flows[..i], f);
    EventsSnoc(start.at, w, flows[..i], f);
    assert flows[..i + 1] == flows[..i] + [f];
  }

  /** An absence is what it does to an active flow that an authoritative poll did not see. */
  lemma AbsenceStep(here: Table, before: map<Flow, Session>, w: Sweep, f: Flow)
    requires f in here.at && f in before && here.at[f] == before[f]
    requires w.authoritative && Controllers(w.observations, f) == map[] && DistinctFlows(here.order)
    ensures Visit(here, before, w, f) == Missed(here, f, w.limit)
    ensures EventsAfter(before, w, f) == MissEvents(here.at[f], w.limit, w.now)
  {
  }

  // ----- copying a dictionary -----

  /** The first entries of a dictionary. */
  function Copied(t: Table, n: nat): Table
    requires n <= |t.order|
  {
    Table(t.order[..n], map f | f in t.order[..n] && f in t.at :: t.at[f])
  }

  lemma CopiedSnoc(t: Table, i: nat)
    requires Coherent(t) && i < |t.order|
    ensures t.order[i] in t.at && t.order[i] !in Copied(t, i).at
    ensures Copied(t, i + 1)
            == Table(Copied(t, i).order + [t.order[i]], Copied(t, i).at[t.order[i] := t.at[t.order[i]]])
  {
    assert t.order[..i + 1] == t.order[..i] + [t.order[i]];
  }

  lemma CopiedAll(t: Table)
    requires Coherent(t)
    ensures Copied(t, 0) == Table([], map[]) && Copied(t, |t.order|) == t
  {
    assert t.order[..|t.order|] == t.order;
  }

  // ----- the imperative walk -----

  function Groups(observations: seq<Observation>): map<Flow, Group> {
    map f | f in FlowsOf(observations) :: Controllers(observations, f)
  }

  lemma GroupsSnoc(observations: seq<Observation>, i: nat)
    requires i < |observations|
    ensures var before, after := observations[..i], observations[..i + 1];
            var o := observations[i];
            var group := if o.flow in Groups(before) then Groups(before)[o.flow] else map[];
            && Groups(after) == Groups(before)[o.flow := group[o.host := o]]
            && FlowOrder(after) == if o.flow in Groups(before) then FlowOrder(before) else FlowOrder(before) + [o.flow]
  {
    var before, after := observations[..i], observations[..i + 1];
    assert after[..|after| - 1] == before;
    FlowsOfPrefix(after);
    FlowOrderSound(before);
    ControllersSound(before, observations[i].flow);
  }

  /** `_group_observations_by_flow`. */
  method GroupByFlow(observations: seq<Observation>) returns (order: seq<Flow>, groups: map<Flow, Group>)
    ensures order == FlowOrder(observations)
    ensures groups.Keys == FlowsOf(observations)
    ensures forall f :: f in groups ==> groups[f] == Controllers(observations, f)
  {
    order, groups := [], map[];
    for i := 0 to |observations|
      invariant order == FlowOrder(observations[..i])
      invariant groups == Groups(observations[..i])
    {
      var o := observations[i];
      GroupsSnoc(observations, i);
      if o.flow !in groups {
        order := order + [o.flow];
        groups := groups[o.flow := map[]];
      }
      groups := groups[o.flow := groups[o.flow][o.host := o]];
    }
    assert observations[..|observations|] == observations;
  }

  /** The events of a confirmed transition, appended one by one. */
  method CompareConfirmed(id: Instance, before: Observation, o: Observation, now: int)
    returns (events: seq<LifecycleEvent>)
    ensures events == Changes(id, before, o, now)
  {
    events := [];
    if before.host != o.host {
      events := events + [LifecycleEvent(CONTROLLER_CHANGED, id, o, Some(before), 0, now)];
    }
    if before.flags != o.flags {
      events := events + [LifecycleEvent(FLAGS_CHANGED, id, o, Some(before), 0, now)];
    }
    if CountersReset(before, o) {
      events := events + [LifecycleEvent(COUNTERS_CHANGED, id, o, Some(before), 0, now)];
    }
  }

  lemma {:induction false} RestrictSame(flows: seq<Flow>, a: set<Flow>, b: set<Flow>)
    requires forall f :: f in flows ==> (f in a <==> f in b)
    ensures Restrict(flows, a) == Restrict(flows, b)
  {
    if flows != [] {
      RestrictSame(flows[..|flows| - 1], a, b);
    }
  }

  /** What the walk finds when it comes to a flow of the snapshot that was not observed. */
  lemma AbsentVisit(start: Table, w: Sweep, snapshot: seq<Flow>, j: nat)
    requires Coherent(start) && snapshot == VisitAll(start, w, FlowOrder(w.observations)).order
    requires j < |snapshot| && snapshot[j] !in FlowsOf(w.observations)
    ensures var f, unseen := snapshot[j], start.at.Keys - FlowsOf(w.observations);
            var flows := FlowOrder(w.observations) + Restrict(snapshot[..j], unseen);
            && f in start.at && f in unseen && f !in flows
            && Get(VisitAll(start, w, flows).at, f) == Some(start.at[f])
            && Controllers(w.observations, f) == map[]
  {
    var f, unseen := snapshot[j], start.at.Keys - FlowsOf(w.observations);
    SightingsCover(start, w);
    FlowOrderSound(w.observations);
    RestrictSound(snapshot[..j], unseen);
    VisitAllAt(start, w, FlowOrder(w.observations) + Restrict(snapshot[..j], unseen), f);
    ControllersSound(w.observations, f);
  }

  /** Without authority a flow that was not observed stays as it is. */
  lemma AbsentIgnored(t: Table, before: map<Flow, Session>, w: Sweep, f: Flow)
    requires f in before && Get(t.at, f) == Some(before[f]) && Controllers(w.observations, f) == map[]
    requires !w.authoritative
    ensures Visit(t, before, w, f) == t && EventsAfter(before, w, f) == []
  {
    assert t.at[f := before[f]] == t.at;
  }

  /** The dictionary and the events when the second loop has come to position `j` of its snapshot. */
  function WalkedTo(start: Table, w: Sweep, snapshot: seq<Flow>, j: nat): Table
    requires j <= |snapshot|
  {
    VisitAll(start, w, FlowOrder(w.observations) + Restrict(snapshot[..j], start.at.Keys - FlowsOf(w.observations)))
  }

  function AbsentEvents(start: Table, w: Sweep, snapshot: seq<Flow>, j: nat): seq<LifecycleEvent>
    requires j <= |snapshot|
  {
    AllEvents(start.at, w, Restrict(snapshot[..j], start.at.Keys - FlowsOf(w.observations)))
  }

  lemma WalkStep(start: Table, w: Sweep, snapshot: seq<Flow>, j: nat)
    requires Coherent(start) && snapshot == VisitAll(start, w, FlowOrder(w.observations)).order
    requires j < |snapshot| && Coherent(WalkedTo(start, w, snapshot, j))
    ensures var f, here, next := snapshot[j], WalkedTo(start, w, snapshot, j), WalkedTo(start, w, snapshot, j + 1);
            var events := AbsentEvents(start, w, snapshot, j);
            if f in FlowsOf(w.observations) || !w.authoritative
            then next == here && AbsentEvents(start, w, snapshot, j + 1) == events
            else && f in here.at && next == Missed(here, f, w.limit)
                 && AbsentEvents(start, w, snapshot, j + 1) == events + MissEvents(here.at[f], w.limit, w.now)
  {
    var f, here := snapshot[j], WalkedTo(start, w, snapshot, j);
    if f in FlowsOf(w.observations) {
      SeenSkipped(start, w, snapshot, j);
    } else {
      AbsentVisit(start, w, snapshot, j);
      AbsentVisited(start, w, snapshot, j);
      if w.authoritative {
        AbsenceStep(here, start.at, w, f);
      } else {
        AbsentIgnored(here, start.at, w, f);
      }
    }
  }

  lemma SeenSkipped(start: Table, w: Sweep, snapshot: seq<Flow>, j: nat)
    requires j < |snapshot| && snapshot[j] in FlowsOf(w.observations)
    ensures WalkedTo(start, w, snapshot, j + 1) == WalkedTo(start, w, snapshot, j)
    ensures AbsentEvents(start, w, snapshot, j + 1) == AbsentEvents(start, w, snapshot, j)
  {
    var unseen := start.at.Keys - FlowsOf(w.observations);
    RestrictSnoc(snapshot, j, unseen);
    assert Restrict(snapshot[..j], unseen) + [] == Restrict(snapshot[..j], unseen);
  }

  lemma AbsentVisited(start: Table, w: Sweep, snapshot: seq<Flow>, j: nat)
    requires j < |snapshot| && snapshot[j] in start.at && snapshot[j] !in FlowsOf(w.observations)
    ensures WalkedTo(start, w, snapshot, j + 1)
            == Visit(WalkedTo(start, w, snapshot, j), start.at, w, snapshot[j])
    ensures AbsentEvents(start, w, snapshot, j + 1)
            == AbsentEvents(start, w, snapshot, j) + EventsAfter(start.at, w, snapshot[j])
  {
    var f, unseen := snapshot[j], start.at.Keys - FlowsOf(w.observations);
    var absent := Restrict(snapshot[..j], unseen);
    RestrictSnoc(snapshot, j, unseen);
    assert (FlowOrder(w.observations) + absent) + [f] == FlowOrder(w.observations) + (absent + [f]);
    VisitSnoc(start, w, FlowOrder(w.observations) + absent, f);
    EventsSnoc(start.at, w, absent, f);
  }

  lemma WalkEnds(start: Table, w: Sweep, snapshot: seq<Flow>)
    requires Coherent(start) && snapshot == VisitAll(start, w, FlowOrder(w.observations)).order
    ensures WalkedTo(start, w, snapshot, 0) == VisitAll(start, w, FlowOrder(w.observations))
    ensures Coherent(WalkedTo(start, w, snapshot, 0)) && AbsentEvents(start, w, snapshot, 0) == []
    ensures WalkedTo(start, w, snapshot, |snapshot|) == SweptTable(start, w)
    ensures AbsentEvents(start, w, snapshot, |snapshot|)
            == AllEvents(start.at, w, Restrict(start.order, start.at.Keys - FlowsOf(w.observations)))
  {
    assert FlowOrder(w.observations) + Restrict(snapshot[..0], start.at.Keys - FlowsOf(w.observations))
        == FlowOrder(w.observations);
    SightingsCover(start, w);
    assert snapshot[..|snapshot|] == snapshot;
    AbsentOnly(start, w);
    WalkIsSweep(start, w);
  }

  lemma AbsentOnly(start: Table, w: Sweep)
    ensures var unseen := start.at.Keys - FlowsOf(w.observations);
            Restrict(start.order + Restrict(FlowOrder(w.observations), FlowsOf(w.observations) - start.at.Keys), unseen)
            == Restrict(start.order, unseen)
  {
    var newcomers := FlowsOf(w.observations) - start.at.Keys;
    var unseen := start.at.Keys - FlowsOf(w.observations);
    RestrictConcat(start.order, Restrict(FlowOrder(w.observations), newcomers), unseen);
    RestrictSound(FlowOrder(w.observations), newcomers);
    RestrictNone(Restrict(FlowOrder(w.observations), newcomers), unseen);
  }

  // ----- the objects on the heap -----

  /** `controller_observations`: a dictionary that belongs to the session of one flow. */
  class ControllerMap {
    ghost const flow: Flow
    var at: Group

    constructor (flow: Flow, group: Group)
      ensures this.flow == flow && at == group
    {
      this.flow, at := flow, group;
    }

    /** `dict.update`. */
    method Update(group: Group)
      modifies this
      ensures at == old(at) + group
    {
      at := at + group;
    }
  }

  /** `_ActiveSession`, which a poll changes in place. */
  class ActiveSession {
    const flow: Flow
    const id: Instance
    const firstSeen: int
    var lastSeen: int
    var misses: nat
    var observation: Observation
    var controllers: ControllerMap
    var confirmed: Option<Observation>

    function View(): Session
      reads this, controllers
    {
      Session(id, firstSeen, lastSeen, misses, observation, controllers.at, confirmed)
    }

    constructor (flow: Flow, s: Session)
      ensures this.flow == flow == controllers.flow && View() == s && fresh(controllers)
    {
      this.flow, id, firstSeen, lastSeen, misses := flow, s.id, s.firstSeen, s.lastSeen, s.misses;
      observation, confirmed := s.observation, s.confirmed;
      controllers := new ControllerMap(flow, s.controllers);
    }

    /** One entry of `_clone_active`: a new session with a dictionary of its own. */
    method Clone() returns (c: ActiveSession)
      ensures fresh(c) && fresh(c.controllers) && c.View() == View() && c.flow == flow == c.controllers.flow
    {
      c := new ActiveSession(flow, View());
    }

    /** The session is seen again. */
    method Sight(group: Group, authoritative: bool, now: int) returns (events: seq<LifecycleEvent>)
      requires group != map[]
      modifies this, controllers
      ensures View() == Resight(old(View()), group, authoritative, now)
      ensures events == ResightEvents(old(View()), group, authoritative, now)
      ensures controllers == old(controllers) || (fresh(controllers) && controllers.flow == flow)
    {
      events := [];
      var previous, previousConfirmed, previousMisses := observation, confirmed, misses;
      if authoritative {
        controllers := new ControllerMap(flow, group);
      } else {
        controllers.Update(group);
      }
      var preferred :=
        if previousConfirmed.Some? && previousConfirmed.value.host in group then Some(previousConfirmed.value.host)
        else if previous.host in group then Some(previous.host)
        else None;
      observation := Representative(group, preferred);
      lastSeen := now;
      misses := 0;
      if previousMisses > 0 {
        events := [LifecycleEvent(OBSERVED, id, observation, Some(previous), 0, now)];
      }
      if authoritative && |group| == 1 && previousConfirmed.Some? {
        var changes := CompareConfirmed(id, previousConfirmed.value, observation, now);
        events := events + changes;
      }
      if authoritative && |group| == 1 {
        confirmed := Some(observation);
      } else if previousConfirmed.Some? && previousConfirmed.value.host in group {
        confirmed := Some(group[previousConfirmed.value.host]);
      }
    }
  }

  /** The dictionary of active sessions, and every object that belongs to it. */
  class SessionTable {
    var order: seq<Flow>
    var at: map<Flow, ActiveSession>
    ghost var Repr: set<object>

    /** Each flow has its own session and its own dictionary of controllers. */
    ghost predicate Valid()
      reads this, Repr
    {
      && this in Repr && DistinctFlows(order) && (forall f :: f in order <==> f in at)
      && (forall f :: f in at ==> at[f] in Repr && at[f].flow == f)
      && (forall f :: f in at ==> at[f].controllers in Repr && at[f].controllers.flow == f)
    }

    ghost function View(): Table
      requires Valid()
      reads this, Repr
    {
      Table(order, map f | f in at :: at[f].View())
    }

    lemma ViewIs(t: Table)
      requires Valid() && t.order == order && t.at.Keys == at.Keys
      requires forall f :: f in at ==> at[f].View() == t.at[f]
      ensures View() == t
    {
      assert View().at == t.at;
    }

    /** A table none of whose objects was changed is as it was, session by session. */
    twostate lemma Untouched()
      requires old(Valid()) && forall o :: o in old(Repr) ==> unchanged(o)
      ensures Valid() && at == old(at) && View() == old(View())
      ensures forall f :: f in at ==>
                && at[f].controllers == old(at[f].controllers)
                && at[f].controllers.at == old(at[f].controllers.at) && at[f].View() == old(at[f].View())
    {
    }

    lemma ViewKeys()
      requires Valid()
      ensures View().at.Keys == at.Keys && Coherent(View())
    {
    }

    constructor ()
      ensures Valid() && View() == Table([], map[]) && fresh(Repr)
    {
      order, at, Repr := [], map[], {this};
    }

    /** `active_sessions[flow_key] = active` for a new key. */
    method Add(active: ActiveSession)
      requires Valid() && active.flow !in at && active !in Repr && active.controllers !in Repr
      requires active.controllers.flow == active.flow
      modifies this
      ensures Valid() && Repr == old(Repr) + {active, active.controllers}
      ensures View() == Table(old(order) + [active.flow], old(View()).at[active.flow := old(active.View())])
    {
      ghost var before := View();
      order := order + [active.flow];
      at := at[active.flow := active];
      Repr := Repr + {active, active.controllers};
      ViewIs(Table(order, before.at[active.flow := active.View()]));
    }

    /** `del active_sessions[flow_key]`. */
    method Delete(f: Flow)
      requires Valid() && f in at
      modifies this`order, this`at
      ensures Valid() && View() == Pruned(old(View()), old(View()).at.Keys - {f})
    {
      ghost var before := View();
      ViewKeys();
      RestrictSound(order, at.Keys - {f});
      order := Restrict(order, at.Keys - {f});
      at := at - {f};
      ViewIs(Pruned(before, before.at.Keys - {f}));
    }

    /** `_clone_active`: new sessions with new dictionaries of controllers. */
    method Clone() returns (c: SessionTable)
      requires Valid()
      ensures c.Valid() && fresh(c.Repr) && c.View() == View()
      ensures Valid() && View() == old(View())
    {
      c := new SessionTable();
      ghost var all := View();
      CopiedAll(all);
      for i := 0 to |order|
        invariant Valid() && View() == all
        invariant c.Valid() && fresh(c.Repr) && c.View() == Copied(all, i)
      {
        CopyNext(c, i, all);
      }
    }

    method CopyNext(c: SessionTable, i: nat, ghost all: Table)
      requires Valid() && View() == all && i < |order|
      requires c.Valid() && c.Repr !! Repr && c.View() == Copied(all, i)
      modifies c
      ensures c.Valid() && fresh(c.Repr - old(c.Repr)) && c.View() == Copied(all, i + 1)
    {
      CopiedSnoc(all, i);
      c.ViewKeys();
      CopyEntry(c, order[i]);
    }

    /** One entry of the copy. */
    method CopyEntry(c: SessionTable, f: Flow)
      requires Valid() && f in at && c.Valid() && f !in c.at && c.Repr !! Repr
      modifies c
      ensures c.Valid() && fresh(c.Repr - old(c.Repr))
      ensures c.View() == Table(old(c.View()).order + [f], old(c.View()).at[f := old(View()).at[f]])
    {
      var copy := at[f].Clone();
      c.Add(copy);
    }

    /** If only the session of one flow and its dictionary of controllers were changed or replaced, then the table is
        as before but for that session. */
    twostate lemma OneValid(f: Flow)
      requires old(Valid()) && order == old(order) && at == old(at) && f in at
      requires forall o :: o in old(Repr) && o != this && o != at[f] && o != old(at[f].controllers) ==> unchanged(o)
      requires at[f].controllers.flow == f && Repr == old(Repr) + {at[f].controllers}
      ensures Valid()
    {
      assert forall g :: g in at && g != f ==> at[g].controllers == old(at[g].controllers);
    }

    twostate lemma OneChanged(f: Flow)
      requires old(Valid()) && order == old(order) && at == old(at) && f in at && Valid()
      requires forall o :: o in old(Repr) && o != this && o != at[f] && o != old(at[f].controllers) ==> unchanged(o)
      ensures View() == Table(order, old(View()).at[f := at[f].View()])
    {
      assert forall g :: g in at && g != f ==> at[g].View() == old(at[g].View());
      ViewIs(Table(order, old(View()).at[f := at[f].View()]));
    }

    /** A session that is already active is seen again; no other session changes. */
    method Resee(f: Flow, group: Group, authoritative: bool, now: int) returns (events: seq<LifecycleEvent>)
      requires Valid() && f in at && group != map[]
      modifies at[f], at[f].controllers, this`Repr
      ensures Valid() && fresh(Repr - old(Repr))
      ensures View() == Table(order, old(View()).at[f := Resight(old(View()).at[f], group, authoritative, now)])
      ensures events == ResightEvents(old(View()).at[f], group, authoritative, now)
    {
      events := at[f].Sight(group, authoritative, now);
      Repr := Repr + {at[f].controllers};
      OneValid(f);
      OneChanged(f);
    }

    /** The first loop of `_apply_observations`: the observed flows. */
    method ApplySightings(flows: seq<Flow>, groups: map<Flow, Group>, ghost w: Sweep, authoritative: bool,
                          generation: nat, now: int)
      returns (events: seq<LifecycleEvent>)
      requires Valid()
      requires w.authoritative == authoritative && w.generation == generation && w.now == now
      requires DistinctFlows(flows) && forall f :: f in flows ==> f in groups
      requires groups.Keys == FlowsOf(w.observations)
      requires forall f :: f in groups ==> groups[f] == Controllers(w.observations, f)
      modifies Repr
      ensures Valid() && fresh(Repr - old(Repr))
      ensures View() == VisitAll(old(View()), w, flows)
      ensures events == AllEvents(old(View()).at, w, flows)
    {
      events := [];
      ghost var start := View();
      for i := 0 to |flows|
        invariant Valid() && fresh(Repr - old(Repr))
        invariant View() == VisitAll(start, w, flows[..i])
        invariant events == AllEvents(start.at, w, flows[..i])
      {
        SightingStep(start, w, flows, i);
        var more := SightOne(flows[i], groups[flows[i]], authoritative, generation, now);
        events := events + more;
      }
      assert flows[..|flows|] == flows;
    }

    /** One turn of that loop. */
    method SightOne(f: Flow, group: Group, authoritative: bool, generation: nat, now: int)
      returns (events: seq<LifecycleEvent>)
      requires Valid() && group != map[]
      modifies Repr
      ensures Valid() && fresh(Repr - old(Repr))
      ensures View() == Sighted(old(View()), f, group, authoritative, generation, now)
      ensures events == SightingEvents(old(View()), f, group, authoritative, generation, now)
    {
      if f !in at {
        var id := Instance(generation, f);
        var o := Representative(group, None);
        var confirmed := if authoritative && |group| == 1 then Some(o) else None;
        var active := new ActiveSession(f, Session(id, now, now, 0, o, group, confirmed));
        Add(active);
        events := [LifecycleEvent(STARTED, id, o, None, 0, now)];
      } else {
        events := Resee(f, group, authoritative, now);
      }
    }

    /** A flow that an authoritative poll did not see. */
    method Miss(f: Flow, limit: nat, now: int) returns (events: seq<LifecycleEvent>)
      requires Valid() && f in at
      modifies this`order, this`at, at[f]
      ensures Valid() && View() == Missed(old(View()), f, limit)
      ensures events == MissEvents(old(View()).at[f], limit, now)
    {
      MissedIs(View(), f, limit);
      var event := CountMiss(f, limit, now);
      if event.kind == CLOSED {
        Delete(f);
      }
      events := [event];
    }

    method CountMiss(f: Flow, limit: nat, now: int) returns (event: LifecycleEvent)
      requires Valid() && f in at
      modifies at[f]
      ensures Valid() && View() == Counted(old(View()), f)
      ensures [event] == MissEvents(old(View()).at[f], limit, now)
    {
      var active := at[f];
      active.misses := active.misses + 1;
      OneChanged(f);
      event := LifecycleEvent(if active.misses >= limit then CLOSED else MISSED, active.id, active.observation, None,
                              active.misses, now);
    }

    /** The second loop of `_apply_observations`: the active flows that were not observed. */
    method ApplyAbsences(groups: map<Flow, Group>, ghost start: Table, ghost w: Sweep, authoritative: bool,
                         limit: nat, now: int)
      returns (events: seq<LifecycleEvent>)
      requires Valid()
      requires w.authoritative == authoritative && w.limit == limit && w.now == now
      requires groups.Keys == FlowsOf(w.observations)
      requires Coherent(start) && View() == VisitAll(start, w, FlowOrder(w.observations))
      modifies Repr
      ensures Valid() && Repr == old(Repr)
      ensures View() == SweptTable(start, w)
      ensures events == AllEvents(start.at, w, Restrict(start.order, start.at.Keys - FlowsOf(w.observations)))
    {
      events := [];
      var snapshot := order;
      WalkEnds(start, w, snapshot);
      for j := 0 to |snapshot|
        invariant Valid() && Repr == old(Repr)
        invariant View() == WalkedTo(start, w, snapshot, j)
        invariant events == AbsentEvents(start, w, snapshot, j)
      {
        var f := snapshot[j];
        WalkStep(start, w, snapshot, j);
        if f in groups {
          continue;
        }
        if !authoritative {
          continue;
        }
        var more := Miss(f, limit, now);
        events := events + more;
      }
    }

    /** `_apply_observations`. */
    method ApplyObservations(observations: seq<Observation>, authoritative: bool, limit: nat,
                             generation: nat, now: int)
      returns (events: seq<LifecycleEvent>)
      requires Valid()
      modifies Repr
      ensures Valid() && fresh(Repr - old(Repr))
      ensures var w := Sweep(observations, authoritative, limit, generation, now);
              View() == SweptTable(old(View()), w) && events == SweepEvents(old(View()).order, old(View()).at, w)
    {
      ghost var w, start := Sweep(observations, authoritative, limit, generation, now), View();
      ViewKeys();
      var flows, groups := GroupByFlow(observations);
      FlowOrderSound(observations);
      events := Walk(flows, groups, start, w, authoritative, limit, generation, now);
    }

    /** Its two loops. */
    method Walk(flows: seq<Flow>, groups: map<Flow, Group>, ghost start: Table, ghost w: Sweep, authoritative: bool,
                limit: nat, generation: nat, now: int)
      returns (events: seq<LifecycleEvent>)
      requires Valid() && View() == start && Coherent(start)
      requires w.authoritative == authoritative && w.limit == limit && w.generation == generation && w.now == now
      requires flows == FlowOrder(w.observations) && DistinctFlows(flows) && forall f :: f in flows ==> f in groups
      requires groups.Keys == FlowsOf(w.observations)
      requires forall f :: f in groups ==> groups[f] == Controllers(w.observations, f)
      modifies Repr
      ensures Valid() && fresh(Repr - old(Repr)) && View() == SweptTable(start, w)
      ensures events == SweepEvents(start.order, start.at, w)
    {
      var sightings := ApplySightings(flows, groups, w, authoritative, generation, now);
      var absences := ApplyAbsences(groups, start, w, authoritative, limit, now);
      events := sightings + absences;
    }

    /** The overflow branch drops every flow that this poll did not see. */
    method DropUnobserved(observed: set<Flow>)
      requires Valid()
      modifies this`order, this`at
      ensures Valid()
      ensures View() == Pruned(old(View()), observed)
    {
      var snapshot := order;
      ghost var start := View();
      PruneEnds(start, observed);
      for j := 0 to |snapshot|
        invariant Valid()
        invariant View() == PrunedUpTo(start, j, observed)
      {
        PruneStep(start, j, observed);
        if snapshot[j] !in observed {
          assert snapshot[j] in View().at;
          Delete(snapshot[j]);
        }
      }
    }
  }
}
