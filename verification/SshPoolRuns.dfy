/** Runs of the SSH connection pool, and what holds in every reachable state. */
module SshPoolRuns {
  import opened Wrappers
  import opened SshPool
  import opened SshPoolSystem
  import opened SshPoolInvariants

  // ----- structure -----

  ghost predicate LeasesFit(s: Shared, leases: map<nat, Lease>) {
    && (forall l :: l in leases ==> LeaseInv(s, l, leases[l]))
    && (forall e :: e in s.holders ==> s.holders[e] in leases)
  }

  ghost predicate AbortersFit(s: Shared, leases: map<nat, Lease>, aborters: map<nat, Aborter>) {
    forall a :: a in aborters ==>
      aborters[a].lease in leases && AtHome(s.home, Some(aborters[a].conn), leases[aborters[a].lease].entry)
  }

  ghost predicate Structure(w: World) {
    SharedInv(w.s) && LeasesFit(w.s, w.leases) && AbortersFit(w.s, w.leases, w.aborters)
  }

  /** What a request, an aborter or a closer may change in the shared state. */
  ghost predicate Shrinks(s: Shared, t: Shared) {
    && t.holders == s.holders && t.home == s.home && t.maker == s.maker && t.conns == s.conns
    && t.endpointOf == s.endpointOf && t.pool.nextEntry == s.pool.nextEntry && t.pool.limit == s.pool.limit
    && (forall e :: e in t.pool.slots ==> e in s.pool.slots && t.pool.slots[e] == s.pool.slots[e])
    && ((t.pool.entries == s.pool.entries && t.pool.closed == s.pool.closed) || t.pool.entries == map[])
    && s.ended <= t.ended
  }

  lemma ShrinksKeepsShared(s: Shared, t: Shared)
    requires Shrinks(s, t) && SharedInv(s)
    ensures SharedInv(t)
  {
  }

  predicate IsCleanup(e: Event) {
    !e.MoveLease? && !e.Request?
  }

  lemma CleanupShrinks(w: World, e: Event)
    requires Enabled(w, e) && IsCleanup(e)
    ensures Shrinks(w.s, Apply(w, e).s)
  {
  }

  /** Cleaning up at most marks leases. */
  lemma CleanupLeases(w: World, e: Event, l: nat)
    requires Enabled(w, e) && IsCleanup(e)
    ensures Apply(w, e).leases.Keys == w.leases.Keys
    ensures l in w.leases ==>
              Apply(w, e).leases[l] == if e.AbortMark? && w.aborters[e.a].lease == l
                                       then w.leases[l].(pendingClose := true) else w.leases[l]
  {
  }

  lemma CleanupAborters(w: World, e: Event, a: nat)
    requires Enabled(w, e) && IsCleanup(e) && a in Apply(w, e).aborters
    ensures var x := Apply(w, e).aborters[a];
            if a in w.aborters then x.lease == w.aborters[a].lease && x.conn == w.aborters[a].conn
            else e.AbortRead? && x.lease in w.leases && x.Aiming? && w.leases[x.lease].managed == Some(x.conn)
                 && w.leases[x.lease].cut
  {
  }

  lemma MoveKeepsHolders(s: Shared, l: nat, lease: Lease, m: Move, e: nat)
    requires CanMove(s, lease, m) && e in SharedAfter(s, l, lease, m).holders
    ensures SharedAfter(s, l, lease, m).holders[e] == l
            || (e in s.holders && SharedAfter(s, l, lease, m).holders[e] == s.holders[e])
  {
  }

  lemma MoveKeepsLeases(s: Shared, leases: map<nat, Lease>, l: nat, m: Move)
    requires SharedInv(s) && LeasesFit(s, leases) && l in leases && CanMove(s, leases[l], m)
    ensures LeasesFit(SharedAfter(s, l, leases[l], m), leases[l := LeaseAfter(s, leases[l], m)])
  {
    var t, after := SharedAfter(s, l, leases[l], m), leases[l := LeaseAfter(s, leases[l], m)];
    MoveRely(s, l, leases[l], m);
    MoveKeepsOwn(s, l, leases[l], m);
    forall k | k in after ensures LeaseInv(t, k, after[k]) {
      if k != l {
        RelyKeeps(s, t, l, k, leases[k]);
      }
    }
    forall e | e in t.holders ensures t.holders[e] in after {
      MoveKeepsHolders(s, l, leases[l], m, e);
    }
  }

  lemma MoveKeepsAborters(s: Shared, leases: map<nat, Lease>, aborters: map<nat, Aborter>, l: nat, m: Move)
    requires SharedInv(s) && AbortersFit(s, leases, aborters)
    requires l in leases && LeaseInv(s, l, leases[l]) && CanMove(s, leases[l], m)
    ensures AbortersFit(SharedAfter(s, l, leases[l], m), leases[l := LeaseAfter(s, leases[l], m)], aborters)
  {
    MoveRely(s, l, leases[l], m);
    StaysPut(s, leases[l], m);
  }

  lemma MoveKeepsStructure(w: World, l: nat, m: Move)
    requires Structure(w) && Enabled(w, MoveLease(l, m))
    ensures Structure(Apply(w, MoveLease(l, m)))
  {
    MoveKeepsShared(w.s, l, w.leases[l], m);
    MoveKeepsLeases(w.s, w.leases, l, m);
    MoveKeepsAborters(w.s, w.leases, w.aborters, l, m);
  }

  lemma RequestedFits(s: Shared, endpoint: Endpoint)
    requires SharedInv(s) && Requested(s.pool, endpoint).Ok?
    ensures var pair := Requested(s.pool, endpoint).value;
            var t := s.(pool := pair.0, endpointOf := s.endpointOf[pair.1 := endpoint]);
            && SharedInv(t) && t.holders == s.holders && t.home == s.home && t.maker == s.maker
            && (forall e :: e in s.endpointOf ==> t.endpointOf[e] == s.endpointOf[e])
  {
  }

  lemma RequestKeepsStructure(w: World, l: nat, endpoint: Endpoint)
    requires Structure(w) && Enabled(w, Request(l, endpoint))
    ensures Structure(Apply(w, Request(l, endpoint)))
  {
    var next := Apply(w, Request(l, endpoint));
    if Requested(w.s.pool, endpoint).Ok? {
      RequestedFits(w.s, endpoint);
      forall k | k in next.leases ensures LeaseInv(next.s, k, next.leases[k]) {
        if k != l {
          assert LeaseInv(w.s, k, w.leases[k]);
        }
      }
    }
  }

  lemma CleanupKeepsStructure(w: World, e: Event)
    requires Structure(w) && Enabled(w, e) && IsCleanup(e)
    ensures Structure(Apply(w, e))
  {
    var next := Apply(w, e);
    CleanupShrinks(w, e);
    ShrinksKeepsShared(w.s, next.s);
    forall k | k in next.leases
      ensures LeaseInv(next.s, k, next.leases[k]) && next.leases[k].entry == w.leases[k].entry
    {
      CleanupLeases(w, e, k);
      assert LeaseInv(w.s, k, w.leases[k]);
    }
    CleanupLeases(w, e, 0);
    forall a | a in next.aborters
      ensures next.aborters[a].lease in next.leases
              && AtHome(next.s.home, Some(next.aborters[a].conn), next.leases[next.aborters[a].lease].entry)
    {
      CleanupAborters(w, e, a);
    }
  }

  lemma StructureStep(w: World, e: Event)
    requires Structure(w) && Enabled(w, e)
    ensures Structure(Apply(w, e))
  {
    match e
    case MoveLease(l, m) => MoveKeepsStructure(w, l, m);
    case Request(l, endpoint) => RequestKeepsStructure(w, l, endpoint);
    case _ => CleanupKeepsStructure(w, e);
  }

  // ----- entries that left the pool -----

  ghost predicate BeingSwept(w: World, entry: nat) {
    exists k :: k in w.closers && entry in w.closers[k].todo
  }

  predicate StillPooled(s: Shared, e: nat) {
    e in s.endpointOf && Pooled(s.pool, s.endpointOf[e], e)
  }

  /** A connection that is retained outside the pool is about to be taken by a closer. */
  ghost predicate NoLostEntry(w: World) {
    forall e :: e in w.s.pool.slots ==> StillPooled(w.s, e) || BeingSwept(w, e)
  }

  lemma MoveEntry(s: Shared, l: nat, lease: Lease, m: Move, e: nat)
    requires SharedInv(s) && LeaseInv(s, l, lease) && CanMove(s, lease, m)
    requires e in SharedAfter(s, l, lease, m).pool.slots
    ensures e in s.pool.slots || StillPooled(SharedAfter(s, l, lease, m), e)
    ensures e in s.pool.slots && StillPooled(s, e) ==> StillPooled(SharedAfter(s, l, lease, m), e)
  {
    if !m.Accept? && !m.RemoveEmpty? {
      EntriesStay(s, l, lease, m);
    }
  }

  lemma SweptStep(w: World, ev: Event, e: nat)
    requires Enabled(w, ev) && e in Apply(w, ev).s.pool.slots && BeingSwept(w, e)
    ensures BeingSwept(Apply(w, ev), e)
  {
    var next := Apply(w, ev);
    var k :| k in w.closers && e in w.closers[k].todo;
    assert k in next.closers && e in next.closers[k].todo;
  }

  lemma CleanupEntry(w: World, ev: Event, e: nat)
    requires Enabled(w, ev) && !ev.MoveLease? && SharedInv(w.s)
    requires e in Apply(w, ev).s.pool.slots && StillPooled(w.s, e)
    ensures StillPooled(Apply(w, ev).s, e) || BeingSwept(Apply(w, ev), e)
  {
    if ev.Clear? {
      assert e in w.s.pool.entries.Values;
      assert ev.k in Apply(w, ev).closers || Apply(w, ev) == w;
    }
  }

  lemma SlotsShrink(w: World, ev: Event, e: nat)
    requires Enabled(w, ev) && !ev.MoveLease? && e in Apply(w, ev).s.pool.slots
    ensures e in w.s.pool.slots
  {
    if !ev.Request? {
      CleanupShrinks(w, ev);
    }
  }

  lemma NoLostEntryStep(w: World, ev: Event)
    requires Structure(w) && NoLostEntry(w) && Enabled(w, ev)
    ensures NoLostEntry(Apply(w, ev))
  {
    var next := Apply(w, ev);
    forall e | e in next.s.pool.slots ensures StillPooled(next.s, e) || BeingSwept(next, e) {
      if ev.MoveLease? {
        MoveEntry(w.s, ev.l, w.leases[ev.l], ev.m, e);
        if e in w.s.pool.slots && BeingSwept(w, e) {
          SweptStep(w, ev, e);
        }
      } else {
        SlotsShrink(w, ev, e);
        if StillPooled(w.s, e) {
          CleanupEntry(w, ev, e);
        } else {
          SweptStep(w, ev, e);
        }
      }
    }
  }

  // ----- every open connection has an owner -----

  /** The lease will abort or close the connection on its way out. */
  predicate Holds(lease: Lease, x: nat) {
    || (PrivateConn(lease.pc) == Some(x))
    || ((lease.pc.Scrapping? || lease.pc.RetryScrapping?) && lease.pc.conn == x)
    || (lease.pendingClose && lease.managed == Some(x)
        && (lease.pc.Raising? || lease.pc.ExitTaking? || lease.pc.ExitReleasing? || lease.pc.ExitClosing?))
  }

  ghost predicate LeaseOwns(w: World, x: nat) {
    exists l :: l in w.leases && Holds(w.leases[l], x)
  }

  ghost predicate AborterOwns(w: World, x: nat) {
    exists a :: a in w.aborters && !w.aborters[a].Aiming? && w.aborters[a].conn == x
  }

  ghost predicate CloserOwns(w: World, x: nat) {
    exists k :: k in w.closers && x in w.closers[k].taken
  }

  ghost predicate Owned(w: World, x: nat) {
    x in w.s.ended || InSlot(w.s, x) || LeaseOwns(w, x) || AborterOwns(w, x) || CloserOwns(w, x)
  }

  /** A lease that takes a connection, or holds one, keeps hold of it until it is ended or retained. */
  lemma TakeHolds(s: Shared, l: nat, lease: Lease, x: nat)
    requires LeaseInv(s, l, lease) && CanMove(s, lease, Take) && (Holds(lease, x) || InSlot(s, x))
    ensures InSlot(SharedAfter(s, l, lease, Take), x) || Holds(LeaseAfter(s, lease, Take), x)
  {
  }

  lemma AcceptHolds(s: Shared, l: nat, lease: Lease, x: nat)
    requires LeaseInv(s, l, lease) && CanMove(s, lease, Accept) && (Holds(lease, x) || InSlot(s, x))
    ensures InSlot(SharedAfter(s, l, lease, Accept), x) || Holds(LeaseAfter(s, lease, Accept), x)
  {
  }

  lemma OtherHolds(s: Shared, l: nat, lease: Lease, m: Move, x: nat)
    requires LeaseInv(s, l, lease) && CanMove(s, lease, m) && !m.Take? && !m.Accept?
    ensures InSlot(s, x) ==> InSlot(SharedAfter(s, l, lease, m), x)
    ensures Holds(lease, x) ==> x in SharedAfter(s, l, lease, m).ended || Holds(LeaseAfter(s, lease, m), x)
  {
  }

  lemma EndedStays(s: Shared, l: nat, lease: Lease, m: Move)
    requires CanMove(s, lease, m)
    ensures s.ended <= SharedAfter(s, l, lease, m).ended
    ensures SharedAfter(s, l, lease, m).conns == s.conns + if m.OpenDone? then 1 else 0
  {
  }

  lemma LeaseKeepsOwned(w: World, l: nat, m: Move, x: nat)
    requires Structure(w) && Enabled(w, MoveLease(l, m))
    requires Owned(w, x) || (m.OpenDone? && x == w.s.conns)
    ensures Owned(Apply(w, MoveLease(l, m)), x)
  {
    var next, lease := Apply(w, MoveLease(l, m)), w.leases[l];
    EndedStays(w.s, l, lease, m);
    if m.OpenDone? && x == w.s.conns {
      assert Holds(next.leases[l], x);
    } else if InSlot(w.s, x) || Holds(lease, x) {
      if m.Take? {
        TakeHolds(w.s, l, lease, x);
      } else if m.Accept? {
        AcceptHolds(w.s, l, lease, x);
      } else {
        OtherHolds(w.s, l, lease, m, x);
      }
      assert Holds(next.leases[l], x) ==> LeaseOwns(next, x);
    } else if LeaseOwns(w, x) {
      var k :| k in w.leases && Holds(w.leases[k], x);
      assert k != l && Holds(next.leases[k], x);
    } else if AborterOwns(w, x) {
      assert AborterOwns(next, x);
    }
  }

  /** Only a take empties a slot, and the taker then owns the connection. */
  lemma SlotKept(w: World, e: Event, x: nat)
    requires Enabled(w, e) && IsCleanup(e) && !e.AbortTake? && !e.SweepTake? && InSlot(w.s, x)
    ensures InSlot(Apply(w, e).s, x)
  {
  }

  lemma SlotAborted(w: World, a: nat, x: nat)
    requires Structure(w) && Enabled(w, AbortTake(a)) && InSlot(w.s, x)
    ensures InSlot(Apply(w, AbortTake(a)).s, x) || AborterOwns(Apply(w, AbortTake(a)), x)
  {
    var next := Apply(w, AbortTake(a));
    if !InSlot(next.s, x) {
      assert a in next.aborters && !next.aborters[a].Aiming? && next.aborters[a].conn == x;
    }
  }

  lemma SlotSwept(w: World, k: nat, entry: nat, x: nat)
    requires Enabled(w, SweepTake(k, entry)) && InSlot(w.s, x)
    ensures InSlot(Apply(w, SweepTake(k, entry)).s, x) || CloserOwns(Apply(w, SweepTake(k, entry)), x)
  {
    var next := Apply(w, SweepTake(k, entry));
    if !InSlot(next.s, x) {
      assert k in next.closers && x in next.closers[k].taken;
    }
  }

  lemma SlotTaken(w: World, e: Event, x: nat)
    requires Structure(w) && Enabled(w, e) && IsCleanup(e) && InSlot(w.s, x)
    ensures InSlot(Apply(w, e).s, x) || AborterOwns(Apply(w, e), x) || CloserOwns(Apply(w, e), x)
  {
    match e
    case AbortTake(a) => SlotAborted(w, a, x);
    case SweepTake(k, entry) => SlotSwept(w, k, entry, x);
    case _ => SlotKept(w, e, x);
  }

  lemma AborterStays(w: World, e: Event, x: nat)
    requires Enabled(w, e) && IsCleanup(e) && AborterOwns(w, x)
    ensures AborterOwns(Apply(w, e), x) || x in Apply(w, e).s.ended
  {
    var a :| a in w.aborters && !w.aborters[a].Aiming? && w.aborters[a].conn == x;
    if !(e.AbortEnd? && e.a == a) {
      var next := Apply(w, e);
      assert a in next.aborters && !next.aborters[a].Aiming? && next.aborters[a].conn == x;
    }
  }

  lemma CloserStays(w: World, e: Event, x: nat)
    requires Enabled(w, e) && IsCleanup(e) && CloserOwns(w, x)
    ensures CloserOwns(Apply(w, e), x) || x in Apply(w, e).s.ended
  {
    var k :| k in w.closers && x in w.closers[k].taken;
    if !(e.SweepEnd? && e.k == k && e.conn == x) {
      var next := Apply(w, e);
      assert k in next.closers && x in next.closers[k].taken;
    }
  }

  lemma CleanupKeepsOwned(w: World, e: Event, x: nat)
    requires Structure(w) && Enabled(w, e) && IsCleanup(e) && Owned(w, x)
    ensures Owned(Apply(w, e), x)
  {
    CleanupShrinks(w, e);
    if InSlot(w.s, x) {
      SlotTaken(w, e, x);
    } else if LeaseOwns(w, x) {
      var l :| l in w.leases && Holds(w.leases[l], x);
      CleanupLeases(w, e, l);
      assert l in Apply(w, e).leases && Holds(Apply(w, e).leases[l], x);
    } else if AborterOwns(w, x) {
      AborterStays(w, e, x);
    } else if CloserOwns(w, x) {
      CloserStays(w, e, x);
    }
  }

  lemma RequestKeepsOwned(w: World, l: nat, endpoint: Endpoint, x: nat)
    requires Enabled(w, Request(l, endpoint)) && Owned(w, x)
    ensures Owned(Apply(w, Request(l, endpoint)), x)
  {
    var next := Apply(w, Request(l, endpoint));
    assert InSlot(w.s, x) ==> InSlot(next.s, x);
    if LeaseOwns(w, x) {
      var k :| k in w.leases && Holds(w.leases[k], x);
      assert k in next.leases && Holds(next.leases[k], x);
    }
  }

  ghost predicate AllOwned(w: World) {
    forall x :: 0 <= x < w.s.conns ==> Owned(w, x)
  }

  // ----- a pending close never hits a retained connection -----

  predicate Late(pc: Pc) {
    pc.Raising? || pc.ExitTaking? || pc.ExitReleasing? || pc.ExitClosing? || pc.Gone?
  }

  /** The lease has no connection, and will not adopt one any more. */
  predicate Winding(lease: Lease) {
    lease.managed.None? && (Late(lease.pc) || (lease.pc.Opening? && lease.pc.retry && lease.cut))
  }

  /** Once a lease is marked, the connection that it manages has left its entry for good. */
  predicate MarkFits(s: Shared, lease: Lease) {
    lease.pendingClose ==>
      && (lease.cut || Late(lease.pc))
      && (if lease.managed.Some? then !InSlot(s, lease.managed.value) else Winding(lease))
  }

  /** An aborter aims at the connection that its lease manages, or the lease is winding up. */
  predicate AimFits(lease: Lease, x: nat) {
    lease.cut && (lease.managed == Some(x) || Winding(lease))
  }

  predicate AborterFits(s: Shared, lease: Lease, a: Aborter) {
    AimFits(lease, a.conn) && (!a.Aiming? ==> !InSlot(s, a.conn))
  }

  ghost predicate MarksFit(w: World) {
    && (forall l :: l in w.leases ==> MarkFits(w.s, w.leases[l]))
    && (forall a :: a in w.aborters && w.aborters[a].lease in w.leases ==>
         AborterFits(w.s, w.leases[w.aborters[a].lease], w.aborters[a]))
  }

  /** A connection that has left its entry never returns. */
  ghost predicate NoReturn(s: Shared, t: Shared) {
    && (forall x :: x in s.home && InSlot(t, x) ==> InSlot(s, x))
    && (forall x :: x in s.home ==> x in t.home && t.home[x] == s.home[x])
  }

  lemma MoveNoReturn(s: Shared, l: nat, lease: Lease, m: Move)
    requires LeaseInv(s, l, lease) && CanMove(s, lease, m)
    ensures NoReturn(s, SharedAfter(s, l, lease, m))
  {
  }

  lemma MarkOpening(s: Shared, l: nat, lease: Lease, m: Move)
    requires LeaseInv(s, l, lease) && CanMove(s, lease, m) && MarkFits(s, lease) && IsOpening(m)
    requires NoReturn(s, SharedAfter(s, l, lease, m))
    ensures MarkFits(SharedAfter(s, l, lease, m), LeaseAfter(s, lease, m))
  {
  }

  lemma MarkProbing(s: Shared, l: nat, lease: Lease, m: Move)
    requires LeaseInv(s, l, lease) && CanMove(s, lease, m) && MarkFits(s, lease) && (IsProbing(m) || m.Accept?)
    ensures MarkFits(SharedAfter(s, l, lease, m), LeaseAfter(s, lease, m))
  {
    assert Unmanaged(lease.pc) && !Late(lease.pc) && !Winding(lease);
  }

  lemma MarkSending(s: Shared, l: nat, lease: Lease, m: Move)
    requires LeaseInv(s, l, lease) && CanMove(s, lease, m) && MarkFits(s, lease) && IsSending(m)
    ensures MarkFits(SharedAfter(s, l, lease, m), LeaseAfter(s, lease, m))
  {
  }

  lemma MarkOther(s: Shared, l: nat, lease: Lease, m: Move)
    requires LeaseInv(s, l, lease) && CanMove(s, lease, m) && MarkFits(s, lease) && !m.Take? && !m.Accept?
    requires !IsOpening(m) && !IsProbing(m) && !IsSending(m)
    requires NoReturn(s, SharedAfter(s, l, lease, m))
    ensures MarkFits(SharedAfter(s, l, lease, m), LeaseAfter(s, lease, m))
  {
  }

  lemma MarkStep(s: Shared, l: nat, lease: Lease, m: Move)
    requires LeaseInv(s, l, lease) && CanMove(s, lease, m) && MarkFits(s, lease)
    requires NoReturn(s, SharedAfter(s, l, lease, m))
    ensures MarkFits(SharedAfter(s, l, lease, m), LeaseAfter(s, lease, m))
  {
    if m.Take? {
      MarkTake(s, l, lease);
    } else if IsOpening(m) {
      MarkOpening(s, l, lease, m);
    } else if IsProbing(m) || m.Accept? {
      MarkProbing(s, l, lease, m);
    } else if IsSending(m) {
      MarkSending(s, l, lease, m);
    } else {
      MarkOther(s, l, lease, m);
    }
  }

  lemma MarkTake(s: Shared, l: nat, lease: Lease)
    requires LeaseInv(s, l, lease) && CanMove(s, lease, Take) && MarkFits(s, lease)
    ensures MarkFits(SharedAfter(s, l, lease, Take), LeaseAfter(s, lease, Take))
  {
  }

  lemma AimStep(s: Shared, l: nat, lease: Lease, m: Move, x: nat)
    requires LeaseInv(s, l, lease) && CanMove(s, lease, m) && AimFits(lease, x)
    ensures AimFits(LeaseAfter(s, lease, m), x)
  {
  }

  lemma MoveKeepsMarks(w: World, l: nat, m: Move)
    requires Structure(w) && MarksFit(w) && Enabled(w, MoveLease(l, m))
    ensures MarksFit(Apply(w, MoveLease(l, m)))
  {
    var next, lease := Apply(w, MoveLease(l, m)), w.leases[l];
    MoveNoReturn(w.s, l, lease, m);
    forall k | k in next.leases ensures MarkFits(next.s, next.leases[k]) {
      if k == l {
        MarkStep(w.s, l, lease, m);
      } else {
        assert LeaseInv(w.s, k, w.leases[k]);
      }
    }
    forall a | a in next.aborters && next.aborters[a].lease in next.leases
      ensures AborterFits(next.s, next.leases[next.aborters[a].lease], next.aborters[a])
    {
      if w.aborters[a].lease == l {
        AimStep(w.s, l, lease, m, w.aborters[a].conn);
      }
    }
  }

  lemma RequestSlots(s: Shared, endpoint: Endpoint, x: nat)
    requires Requested(s.pool, endpoint).Ok?
    ensures var pair := Requested(s.pool, endpoint).value;
            InSlot(s.(pool := pair.0, endpointOf := s.endpointOf[pair.1 := endpoint]), x) == InSlot(s, x)
  {
  }

  lemma RequestKeepsMarks(w: World, l: nat, endpoint: Endpoint)
    requires Structure(w) && MarksFit(w) && Enabled(w, Request(l, endpoint))
    ensures MarksFit(Apply(w, Request(l, endpoint)))
  {
    var next := Apply(w, Request(l, endpoint));
    if Requested(w.s.pool, endpoint).Ok? {
      forall k | k in next.leases ensures MarkFits(next.s, next.leases[k]) {
        if k != l {
          assert MarkFits(w.s, w.leases[k]);
          if w.leases[k].managed.Some? {
            RequestSlots(w.s, endpoint, w.leases[k].managed.value);
          }
        }
      }
      forall a | a in next.aborters && next.aborters[a].lease in next.leases
        ensures AborterFits(next.s, next.leases[next.aborters[a].lease], next.aborters[a])
      {
        assert AborterFits(w.s, w.leases[w.aborters[a].lease], w.aborters[a]);
        RequestSlots(w.s, endpoint, w.aborters[a].conn);
      }
    }
  }

  lemma AbortMarks(w: World, a: nat)
    requires Structure(w) && MarksFit(w) && Enabled(w, AbortMark(a))
    ensures MarkFits(w.s, w.leases[w.aborters[a].lease].(pendingClose := true))
  {
    assert AborterFits(w.s, w.leases[w.aborters[a].lease], w.aborters[a]);
  }

  lemma AborterTakes(w: World, e: Event, a: nat)
    requires Structure(w) && Enabled(w, e) && IsCleanup(e)
    requires a in Apply(w, e).aborters && a in w.aborters && w.aborters[a].Aiming? && !Apply(w, e).aborters[a].Aiming?
    ensures !InSlot(Apply(w, e).s, Apply(w, e).aborters[a].conn)
  {
    assert e == AbortTake(a);
    assert AtHome(w.s.home, Some(w.aborters[a].conn), w.leases[w.aborters[a].lease].entry);
  }

  lemma CleanupKeepsAim(w: World, e: Event, a: nat)
    requires Structure(w) && MarksFit(w) && Enabled(w, e) && IsCleanup(e) && a in Apply(w, e).aborters
    ensures var next := Apply(w, e);
            && next.aborters[a].lease in w.leases && next.aborters[a].lease in next.leases
            && AborterFits(next.s, next.leases[next.aborters[a].lease], next.aborters[a])
  {
    var next := Apply(w, e);
    CleanupShrinks(w, e);
    CleanupAborters(w, e, a);
    CleanupLeases(w, e, next.aborters[a].lease);
    if a in w.aborters {
      assert AborterFits(w.s, w.leases[w.aborters[a].lease], w.aborters[a]);
      if w.aborters[a].Aiming? && !next.aborters[a].Aiming? {
        AborterTakes(w, e, a);
      }
    }
  }

  lemma CleanupKeepsMarks(w: World, e: Event)
    requires Structure(w) && MarksFit(w) && Enabled(w, e) && IsCleanup(e)
    ensures MarksFit(Apply(w, e))
  {
    var next := Apply(w, e);
    CleanupShrinks(w, e);
    forall k | k in next.leases ensures MarkFits(next.s, next.leases[k]) {
      CleanupLeases(w, e, k);
      if e.AbortMark? && w.aborters[e.a].lease == k {
        AbortMarks(w, e.a);
      }
      assert MarkFits(w.s, w.leases[k]);
    }
    forall a | a in next.aborters && next.aborters[a].lease in next.leases
      ensures AborterFits(next.s, next.leases[next.aborters[a].lease], next.aborters[a])
    {
      CleanupKeepsAim(w, e, a);
    }
  }

  // ----- runs -----

  ghost predicate Inv(w: World) {
    Structure(w) && NoLostEntry(w) && AllOwned(w) && MarksFit(w)
  }

  lemma StepKeepsInv(w: World, e: Event)
    requires Inv(w) && Enabled(w, e)
    ensures Inv(Apply(w, e))
  {
    StructureStep(w, e);
    NoLostEntryStep(w, e);
    OwnedStep(w, e);
    match e
    case MoveLease(l, m) => MoveKeepsMarks(w, l, m);
    case Request(l, endpoint) => RequestKeepsMarks(w, l, endpoint);
    case _ => CleanupKeepsMarks(w, e);
  }

  lemma OwnedStep(w: World, e: Event)
    requires Structure(w) && AllOwned(w) && Enabled(w, e)
    ensures AllOwned(Apply(w, e))
  {
    forall x | 0 <= x < Apply(w, e).s.conns ensures Owned(Apply(w, e), x) {
      match e
      case MoveLease(l, m) =>
        EndedStays(w.s, l, w.leases[l], m);
        LeaseKeepsOwned(w, l, m, x);
      case Request(l, endpoint) => RequestKeepsOwned(w, l, endpoint, x);
      case _ =>
        CleanupShrinks(w, e);
        CleanupKeepsOwned(w, e, x);
    }
  }

  lemma {:induction false} RunKeepsInv(w: World, run: seq<Event>)
    requires Inv(w) && Legal(w, run)
    ensures Inv(Execute(w, run))
    decreases |run|
  {
    if run != [] {
      StepKeepsInv(w, run[0]);
      RunKeepsInv(Apply(w, run[0]), run[1..]);
    }
  }

  ghost predicate Reachable(limit: nat, w: World) {
    exists run :: Legal(Empty(limit), run) && Execute(Empty(limit), run) == w
  }

  lemma EmptyInv(limit: nat)
    ensures Inv(Empty(limit))
  {
  }

  lemma ReachableInv(limit: nat, w: World)
    requires Reachable(limit, w)
    ensures Inv(w)
  {
    var run :| Legal(Empty(limit), run) && Execute(Empty(limit), run) == w;
    EmptyInv(limit);
    RunKeepsInv(Empty(limit), run);
  }

  // ----- the theorems -----

  lemma {:induction false} LimitStays(w: World, run: seq<Event>)
    requires Legal(w, run)
    ensures Execute(w, run).s.pool.limit == w.s.pool.limit
    decreases |run|
  {
    if run != [] {
      LimitStep(w, run[0]);
      LimitStays(Apply(w, run[0]), run[1..]);
    }
  }

  lemma LimitStep(w: World, e: Event)
    requires Enabled(w, e)
    ensures Apply(w, e).s.pool.limit == w.s.pool.limit
  {
    if IsCleanup(e) {
      CleanupShrinks(w, e);
    } else if e.MoveLease? {
      LimitMove(w.s, e.l, w.leases[e.l], e.m);
    }
  }

  lemma LimitMove(s: Shared, l: nat, lease: Lease, m: Move)
    requires CanMove(s, lease, m)
    ensures SharedAfter(s, l, lease, m).pool.limit == s.pool.limit
  {
  }

  /** The pool never has more entries than its limit, and none at all once it is closed. */
  lemma BoundedEntries(limit: nat, w: World)
    requires Reachable(limit, w)
    ensures |w.s.pool.entries| <= limit
    ensures w.s.pool.closed ==> w.s.pool.entries == map[]
  {
    ReachableInv(limit, w);
    var run :| Legal(Empty(limit), run) && Execute(Empty(limit), run) == w;
    LimitStays(Empty(limit), run);
  }

  /** The endpoint of the entry that accepted a connection. */
  function EndpointOf(s: Shared, x: nat): Option<Endpoint> {
    if x in s.home && s.home[x] in s.endpointOf then Some(s.endpointOf[s.home[x]]) else None
  }

  /** Of two connections retained for one endpoint, one is on its way out: its entry has left the pool and a
      closer is about to take it. */
  lemma OneRetainedPerEndpoint(limit: nat, w: World, x: nat, y: nat)
    requires Reachable(limit, w) && InSlot(w.s, x) && InSlot(w.s, y) && x != y
    requires EndpointOf(w.s, x) == EndpointOf(w.s, y)
    ensures BeingSwept(w, w.s.home[x]) || BeingSwept(w, w.s.home[y])
  {
    ReachableInv(limit, w);
  }

  /** No connection is ever used for sending by two leases at once. */
  lemma NoSharedSend(limit: nat, w: World, l: nat, k: nat)
    requires Reachable(limit, w) && l in w.leases && k in w.leases
    requires w.leases[l].pc.Sending? && w.leases[k].pc.Sending? && w.leases[l].pc.conn == w.leases[k].pc.conn
    ensures l == k
  {
    ReachableInv(limit, w);
    assert LeaseInv(w.s, l, w.leases[l]) && LeaseInv(w.s, k, w.leases[k]);
  }

  /** Nothing is left to do: the pool is closed, every lease has left, no abort or close is under way. */
  predicate AtRest(w: World) {
    w.s.pool.closed && w.aborters == map[] && w.closers == map[] && forall l :: l in w.leases ==> w.leases[l].pc.Gone?
  }

  /** Once the pool is closed and at rest, every connection ever opened was aborted or closed. */
  lemma NoConnectionLeaks(limit: nat, w: World, x: nat)
    requires Reachable(limit, w) && AtRest(w) && x < w.s.conns
    ensures x in w.s.ended
  {
    ReachableInv(limit, w);
    assert Owned(w, x);
  }

  /** When a lease leaves and closes its connection, that connection is no longer retained by the pool. */
  lemma PendingCloseNotRetained(limit: nat, w: World, l: nat)
    requires Reachable(limit, w) && l in w.leases
    requires w.leases[l].pc.ExitClosing? && w.leases[l].pendingClose && w.leases[l].managed.Some?
    ensures !InSlot(w.s, w.leases[l].managed.value)
  {
    ReachableInv(limit, w);
    assert MarkFits(w.s, w.leases[l]);
  }
}
