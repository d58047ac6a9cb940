/**
 Late aborts in the SSH connection pool: when an abort that was aimed while its lease was in use strikes
 the connection of a later lease (src/aruba_session_tracker/collectors/ssh.py:1700-1724 and 1755-1762).
 */
module SshPoolAborts {
  import opened Wrappers
  import opened SshPool
  import opened SshPoolSystem
  import opened SshPoolInvariants
  import opened SshPoolRuns

  // ----- a lease knows the connection of its entry -----

  /** The connection that the lease works with. */
  function Known(lease: Lease): Option<nat> {
    if PublicConn(lease.pc).Some? then PublicConn(lease.pc) else lease.managed
  }

  /** While a lease holds its entry, the slot is empty or holds the connection that the lease knows. */
  predicate SlotFits(s: Shared, lease: Lease) {
    Holding(lease.pc) && !lease.pc.Checking? ==>
      var slot := SlotOf(s.pool, lease.entry);
      slot.None? || (slot == Known(lease) && !lease.pc.Scrapping? && !lease.pc.RetryScrapping?)
  }

  ghost predicate SlotsFit(w: World) {
    forall l :: l in w.leases ==> SlotFits(w.s, w.leases[l])
  }

  lemma TakeFits(s: Shared, l: nat, lease: Lease)
    requires LeaseInv(s, l, lease) && CanMove(s, lease, Take) && SlotFits(s, lease)
    ensures SlotFits(SharedAfter(s, l, lease, Take), LeaseAfter(s, lease, Take))
  {
  }

  lemma AcceptFits(s: Shared, l: nat, lease: Lease)
    requires LeaseInv(s, l, lease) && CanMove(s, lease, Accept) && SlotFits(s, lease)
    ensures SlotFits(SharedAfter(s, l, lease, Accept), LeaseAfter(s, lease, Accept))
  {
  }

  lemma OpenFits(s: Shared, l: nat, lease: Lease, m: Move)
    requires LeaseInv(s, l, lease) && CanMove(s, lease, m) && SlotFits(s, lease)
    requires IsOpening(m) && !m.Adopt? && !m.Arm?
    ensures SlotFits(SharedAfter(s, l, lease, m), LeaseAfter(s, lease, m))
  {
  }

  lemma AdoptFits(s: Shared, l: nat, lease: Lease, m: Move)
    requires LeaseInv(s, l, lease) && CanMove(s, lease, m) && SlotFits(s, lease)
    requires m.Adopt? || m.Arm?
    ensures SlotFits(SharedAfter(s, l, lease, m), LeaseAfter(s, lease, m))
  {
  }

  lemma ProbeFits(s: Shared, l: nat, lease: Lease, m: Move)
    requires LeaseInv(s, l, lease) && CanMove(s, lease, m) && SlotFits(s, lease) && IsProbing(m)
    ensures SlotFits(SharedAfter(s, l, lease, m), LeaseAfter(s, lease, m))
  {
  }

  lemma SendFits(s: Shared, l: nat, lease: Lease, m: Move)
    requires LeaseInv(s, l, lease) && CanMove(s, lease, m) && SlotFits(s, lease) && IsSending(m)
    ensures SlotFits(SharedAfter(s, l, lease, m), LeaseAfter(s, lease, m))
  {
  }

  lemma OtherFits(s: Shared, l: nat, lease: Lease, m: Move)
    requires LeaseInv(s, l, lease) && CanMove(s, lease, m) && SlotFits(s, lease)
    requires !IsOpening(m) && !IsProbing(m) && !IsSending(m) && !m.Take? && !m.Accept?
    ensures SlotFits(SharedAfter(s, l, lease, m), LeaseAfter(s, lease, m))
  {
  }

  lemma OwnMoveFits(s: Shared, l: nat, lease: Lease, m: Move)
    requires LeaseInv(s, l, lease) && CanMove(s, lease, m) && SlotFits(s, lease)
    ensures SlotFits(SharedAfter(s, l, lease, m), LeaseAfter(s, lease, m))
  {
    if m.Take? {
      TakeFits(s, l, lease);
    } else if m.Accept? {
      AcceptFits(s, l, lease);
    } else if IsProbing(m) {
      ProbeFits(s, l, lease, m);
    } else if m.Adopt? || m.Arm? {
      AdoptFits(s, l, lease, m);
    } else if IsOpening(m) {
      OpenFits(s, l, lease, m);
    } else if IsSending(m) {
      SendFits(s, l, lease, m);
    } else {
      OtherFits(s, l, lease, m);
    }
  }

  /** Only the holder of an entry changes its slot. */
  lemma OtherSlotStays(s: Shared, l: nat, lease: Lease, m: Move, entry: nat)
    requires LeaseInv(s, l, lease) && CanMove(s, lease, m) && !HeldBy(s.holders, entry, l)
    ensures SlotOf(SharedAfter(s, l, lease, m).pool, entry) == SlotOf(s.pool, entry)
  {
  }

  lemma MoveKeepsFits(w: World, l: nat, m: Move)
    requires Structure(w) && SlotsFit(w) && Enabled(w, MoveLease(l, m))
    ensures SlotsFit(Apply(w, MoveLease(l, m)))
  {
    var next := Apply(w, MoveLease(l, m));
    forall k | k in next.leases ensures SlotFits(next.s, next.leases[k]) {
      if k == l {
        OwnMoveFits(w.s, l, w.leases[l], m);
      } else if Holding(w.leases[k].pc) {
        assert LeaseInv(w.s, k, w.leases[k]);
        OtherSlotStays(w.s, l, w.leases[l], m, w.leases[k].entry);
      }
    }
  }

  lemma CleanupKeepsFits(w: World, e: Event)
    requires SlotsFit(w) && Enabled(w, e) && IsCleanup(e)
    ensures SlotsFit(Apply(w, e))
  {
    var next := Apply(w, e);
    CleanupShrinks(w, e);
    forall k | k in next.leases ensures SlotFits(next.s, next.leases[k]) {
      CleanupLeases(w, e, k);
      assert SlotFits(w.s, w.leases[k]);
    }
  }

  lemma StepKeepsFits(w: World, e: Event)
    requires Structure(w) && SlotsFit(w) && Enabled(w, e)
    ensures SlotsFit(Apply(w, e))
  {
    match e
    case MoveLease(l, m) => MoveKeepsFits(w, l, m);
    case Request(l, endpoint) =>
      var next := Apply(w, e);
      forall k | k in next.leases ensures SlotFits(next.s, next.leases[k]) {
        assert k in w.leases ==> SlotFits(w.s, w.leases[k]);
      }
    case _ => CleanupKeepsFits(w, e);
  }

  lemma {:induction false} RunKeepsFits(w: World, run: seq<Event>)
    requires Inv(w) && SlotsFit(w) && Legal(w, run)
    ensures SlotsFit(Execute(w, run))
    decreases |run|
  {
    if run != [] {
      StepKeepsInv(w, run[0]);
      StepKeepsFits(w, run[0]);
      RunKeepsFits(Apply(w, run[0]), run[1..]);
    }
  }

  lemma ReachableFits(limit: nat, w: World)
    requires Reachable(limit, w)
    ensures Inv(w) && SlotsFit(w)
  {
    ReachableInv(limit, w);
    EmptyInv(limit);
    var run :| Legal(Empty(limit), run) && Execute(Empty(limit), run) == w;
    RunKeepsFits(Empty(limit), run);
  }

  // ----- when a late abort strikes -----

  /** The next step of the aborter takes the connection on which another lease is sending. */
  ghost predicate Strikes(w: World, a: nat)
    requires a in w.aborters && w.aborters[a].Aiming?
  {
    var x := w.aborters[a];
    && InSlot(w.s, x.conn)
    && exists k :: k in w.leases && k != x.lease && w.leases[k].pc == Sending(x.conn)
  }

  /** The lease of the aborter has left, its connection stayed in the slot, and a later lease of the same entry
      is sending. */
  ghost predicate CameLate(w: World, a: nat)
    requires a in w.aborters && w.aborters[a].lease in w.leases
  {
    var x, lease := w.aborters[a], w.leases[w.aborters[a].lease];
    && !Holding(lease.pc) && SlotOf(w.s.pool, lease.entry) == Some(x.conn)
    && exists k :: k in w.leases && w.leases[k].entry == lease.entry && w.leases[k].pc.Sending?
  }

  lemma AimedAtOwn(w: World, a: nat)
    requires Inv(w) && a in w.aborters && w.aborters[a].Aiming?
    ensures var x := w.aborters[a];
            x.lease in w.leases && AtHome(w.s.home, Some(x.conn), w.leases[x.lease].entry)
  {
  }

  lemma StrikeIsLate(w: World, a: nat)
    requires Inv(w) && a in w.aborters && w.aborters[a].Aiming? && w.aborters[a].lease in w.leases && Strikes(w, a)
    ensures CameLate(w, a)
  {
    var x := w.aborters[a];
    AimedAtOwn(w, a);
    assert LeaseInv(w.s, x.lease, w.leases[x.lease]);
    var k :| k in w.leases && k != x.lease && w.leases[k].pc == Sending(x.conn);
    assert LeaseInv(w.s, k, w.leases[k]);
  }

  lemma LateStrikes(w: World, a: nat)
    requires Inv(w) && SlotsFit(w) && a in w.aborters && w.aborters[a].Aiming?
    requires w.aborters[a].lease in w.leases && CameLate(w, a)
    ensures Strikes(w, a)
  {
    var x, lease := w.aborters[a], w.leases[w.aborters[a].lease];
    AimedAtOwn(w, a);
    var k :| k in w.leases && w.leases[k].entry == lease.entry && w.leases[k].pc.Sending?;
    assert LeaseInv(w.s, k, w.leases[k]) && SlotFits(w.s, w.leases[k]);
  }

  /** An abort strikes the connection of another lease exactly when it comes late. */
  lemma LateAbortIff(limit: nat, w: World, a: nat)
    requires Reachable(limit, w) && a in w.aborters && w.aborters[a].Aiming?
    ensures w.aborters[a].lease in w.leases
    ensures Strikes(w, a) <==> CameLate(w, a)
  {
    ReachableFits(limit, w);
    AimedAtOwn(w, a);
    if Strikes(w, a) {
      StrikeIsLate(w, a);
    }
    if CameLate(w, a) {
      LateStrikes(w, a);
    }
  }

  // ----- it does happen -----

  const HOME := Endpoint("10.0.0.1", 22)

  lemma {:induction false} RunSnoc(w: World, run: seq<Event>, e: Event)
    requires Legal(w, run) && Enabled(Execute(w, run), e)
    ensures Legal(w, run + [e]) && Execute(w, run + [e]) == Apply(Execute(w, run), e)
    decreases |run|
  {
    if run == [] {
      assert run + [e] == [e] && [e][1..] == [];
    } else {
      RunSnoc(Apply(w, run[0]), run[1..], e);
      assert (run + [e])[0] == run[0] && (run + [e])[1..] == run[1..] + [e];
    }
  }

  lemma Goes(w: World, e: Event, next: World)
    requires Reachable(1, w) && Enabled(w, e) && Apply(w, e) == next
    ensures Reachable(1, next)
  {
    var run :| Legal(Empty(1), run) && Execute(Empty(1), run) == w;
    RunSnoc(Empty(1), run, e);
    assert Legal(Empty(1), run + [e]) && Execute(Empty(1), run + [e]) == next;
  }

  /** One entry; the first lease has opened connection 0 if `made`, and the entry retains it if `kept`. */
  function OneEntry(holders: map<nat, nat>, made: bool, kept: bool): Shared {
    Shared(Pool(1, map[HOME := 0], false, 1, if kept then map[0 := 0] else map[]), map[0 := HOME], holders,
           if made then 1 else 0, if kept then map[0 := 0] else map[], if made then map[0 := 1] else map[], {})
  }

  function At(pc: Pc, managed: Option<nat>, cut: bool): Lease {
    Lease(HOME, 0, pc, managed, false, 0, false, false, cut)
  }

  /** The first lease alone. */
  function Alone(s: Shared, lease: Lease, aborters: map<nat, Aborter>): World {
    World(s, map[1 := lease], aborters, map[])
  }

  lemma FirstMoves(s: Shared, lease: Lease, aborters: map<nat, Aborter>, m: Move, t: Shared, after: Lease)
    requires Reachable(1, Alone(s, lease, aborters)) && CanMove(s, lease, m)
    requires SharedAfter(s, 1, lease, m) == t && LeaseAfter(s, lease, m) == after
    ensures Reachable(1, Alone(t, after, aborters))
  {
    Goes(Alone(s, lease, aborters), MoveLease(1, m), Alone(t, after, aborters));
  }

  lemma FirstAsks()
    ensures Reachable(1, Alone(OneEntry(map[], false, false), At(Waiting, None, false), map[]))
  {
    assert Legal(Empty(1), []) && Execute(Empty(1), []) == Empty(1);
    Goes(Empty(1), Request(1, HOME), Alone(OneEntry(map[], false, false), At(Waiting, None, false), map[]));
  }

  lemma FirstConnects()
    ensures Reachable(1, Alone(OneEntry(map[0 := 1], false, false), At(Connecting(false), None, false), map[]))
  {
    FirstAsks();
    var s := OneEntry(map[0 := 1], false, false);
    FirstMoves(OneEntry(map[], false, false), At(Waiting, None, false), map[], Acquire, s, At(Checking, None, false));
    FirstMoves(s, At(Checking, None, false), map[], Look, s, At(Opening(false), None, false));
    FirstMoves(s, At(Opening(false), None, false), map[], Connect, s, At(Connecting(false), None, false));
  }

  /** The first lease opens a connection, which its entry retains. */
  lemma FirstReady()
    ensures Reachable(1, Alone(OneEntry(map[0 := 1], true, true), At(Ready, Some(0), false), map[]))
  {
    FirstConnects();
    var r, s := OneEntry(map[0 := 1], false, false), OneEntry(map[0 := 1], true, false);
    var t := OneEntry(map[0 := 1], true, true);
    FirstMoves(r, At(Connecting(false), None, false), map[], OpenDone, s, At(Opened(0, false), None, false));
    FirstMoves(s, At(Opened(0, false), None, false), map[], Accept, t, At(Adopting(0, false), None, false));
    FirstMoves(t, At(Adopting(0, false), None, false), map[], Adopt, t, At(Arming(false), Some(0), false));
    FirstMoves(t, At(Arming(false), Some(0), false), map[], Arm(true), t, At(Ready, Some(0), false));
  }

  const AIMED: map<nat, Aborter> := map[0 := Aiming(1, 0)]

  /** Its poll is cut, and an abort reads the connection. */
  lemma FirstIsAimedAt()
    ensures Reachable(1, Alone(OneEntry(map[0 := 1], true, true), At(Ready, Some(0), true), AIMED))
  {
    FirstReady();
    var s := OneEntry(map[0 := 1], true, true);
    FirstMoves(s, At(Ready, Some(0), false), map[], Cut, s, At(Ready, Some(0), true));
    Goes(Alone(s, At(Ready, Some(0), true), map[]), AbortRead(0, 1), Alone(s, At(Ready, Some(0), true), AIMED));
  }

  /** The orderly exit of the lease overtakes the abort. */
  lemma FirstLeaves()
    ensures Reachable(1, Alone(OneEntry(map[], true, true), At(Gone, None, true), AIMED))
  {
    FirstIsAimedAt();
    var s, t := OneEntry(map[0 := 1], true, true), OneEntry(map[], true, true);
    FirstMoves(s, At(Ready, Some(0), true), AIMED, Exit(false), s, At(ExitReleasing, Some(0), true));
    FirstMoves(s, At(ExitReleasing, Some(0), true), AIMED, Release, t, At(ExitClosing, Some(0), true));
    FirstMoves(t, At(ExitClosing, Some(0), true), AIMED, Close, t, At(Gone, None, true));
  }

  /** A later lease, beside the abort that is still aimed. */
  function Later(holders: map<nat, nat>, lease: Lease): World {
    World(OneEntry(holders, true, true), map[1 := At(Gone, None, true), 2 := lease], AIMED, map[])
  }

  lemma SecondMoves(h: map<nat, nat>, lease: Lease, m: Move, after: Lease)
    requires Reachable(1, Later(h, lease)) && CanMove(OneEntry(h, true, true), lease, m) && !m.Acquire?
    requires SharedAfter(OneEntry(h, true, true), 2, lease, m) == OneEntry(h, true, true)
    requires LeaseAfter(OneEntry(h, true, true), lease, m) == after
    ensures Reachable(1, Later(h, after))
  {
    Goes(Later(h, lease), MoveLease(2, m), Later(h, after));
  }

  lemma SecondAsks()
    ensures Reachable(1, Later(map[], At(Waiting, None, false)))
  {
    FirstLeaves();
    var w := Alone(OneEntry(map[], true, true), At(Gone, None, true), AIMED);
    var next := Later(map[], At(Waiting, None, false));
    assert Apply(w, Request(2, HOME)).s == next.s;
    assert Apply(w, Request(2, HOME)).leases == next.leases;
    Goes(w, Request(2, HOME), next);
  }

  lemma SecondAcquires()
    ensures Reachable(1, Later(map[0 := 2], At(Checking, None, false)))
  {
    SecondAsks();
    var w, next := Later(map[], At(Waiting, None, false)), Later(map[0 := 2], At(Checking, None, false));
    assert Apply(w, MoveLease(2, Acquire)).s == next.s;
    assert Apply(w, MoveLease(2, Acquire)).leases == next.leases;
    Goes(w, MoveLease(2, Acquire), next);
  }

  function Reusing(pc: Pc, managed: Option<nat>, commands: nat): Lease {
    At(pc, managed, false).(reused := true, commands := commands)
  }

  /** It reuses the connection and sends on it. */
  lemma SecondSends()
    ensures Reachable(1, Later(map[0 := 2], Reusing(Sending(0), Some(0), 1)))
  {
    SecondAcquires();
    var h := map[0 := 2];
    SecondMoves(h, At(Checking, None, false), Look, At(Probing(0), None, false));
    SecondMoves(h, At(Probing(0), None, false), Probe(true, false), Reusing(Adopting(0, false), None, 0));
    SecondMoves(h, Reusing(Adopting(0, false), None, 0), Adopt, Reusing(Arming(false), Some(0), 0));
    SecondMoves(h, Reusing(Arming(false), Some(0), 0), Arm(true), Reusing(Ready, Some(0), 0));
    SecondMoves(h, Reusing(Ready, Some(0), 0), Send, Reusing(Sending(0), Some(0), 1));
  }

  /** The abort of a lease that left in good order takes the connection on which a later lease is sending. */
  lemma LateAbortStrikes()
    ensures exists w ::
      && Reachable(1, w) && 0 in w.aborters && w.aborters[0].Aiming? && Strikes(w, 0)
      && Enabled(w, AbortTake(0)) && Apply(w, AbortTake(0)).aborters == map[0 := Taken(1, 0)]
      && 1 in w.leases && 2 in w.leases && w.leases[1].pc.Gone? && w.leases[2].pc == Sending(0)
  {
    SecondSends();
    TakenWhileSending();
  }

  lemma TakenWhileSending()
    ensures var w := Later(map[0 := 2], Reusing(Sending(0), Some(0), 1));
            && 0 in w.aborters && w.aborters[0].Aiming? && Strikes(w, 0)
            && Enabled(w, AbortTake(0)) && Apply(w, AbortTake(0)).aborters == map[0 := Taken(1, 0)]
            && 1 in w.leases && 2 in w.leases && w.leases[1].pc.Gone? && w.leases[2].pc == Sending(0)
  {
    var w := Later(map[0 := 2], Reusing(Sending(0), Some(0), 1));
    assert 2 in w.leases && w.leases[2].pc == Sending(0);
  }
}
