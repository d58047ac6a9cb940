/** What every event keeps in the SSH connection pool. */
module SshPoolInvariants {
  import opened Wrappers
  import opened SshPool
  import opened SshPoolSystem

  // ----- the pool and the connections -----

  ghost predicate SharedInv(s: Shared) {
    && |s.pool.entries| <= s.pool.limit
    && (s.pool.closed ==> s.pool.entries == map[])
    && (forall ep :: ep in s.pool.entries ==>
         s.pool.entries[ep] in s.endpointOf && s.endpointOf[s.pool.entries[ep]] == ep)
    && (forall e :: e in s.endpointOf ==> e < s.pool.nextEntry)
    && (forall e :: e in s.pool.slots ==> s.pool.slots[e] in s.home && s.home[s.pool.slots[e]] == e)
    && (forall x :: x in s.home ==> x < s.conns && s.home[x] in s.endpointOf)
    && (forall x: nat :: x in s.maker <==> x < s.conns)
  }

  predicate InSlot(s: Shared, x: nat) {
    x in s.home && SlotOf(s.pool, s.home[x]) == Some(x)
  }

  // ----- one lease -----

  predicate HeldBy(holders: map<nat, nat>, entry: nat, l: nat) {
    entry in holders && holders[entry] == l
  }

  /** A connection of which the lease alone knows so far. */
  function PrivateConn(pc: Pc): Option<nat> {
    if pc.Opened? || pc.Rejected? then Some(pc.conn) else None
  }

  /** A connection that the entry of the lease had accepted. */
  function PublicConn(pc: Pc): Option<nat> {
    if pc.Probing? || pc.Evicting? || pc.Scrapping? || pc.Adopting? || pc.Sending? || pc.RetryTaking?
       || pc.RetryScrapping? || pc.FailTaking? || pc.ExitTaking?
    then Some(pc.conn) else None
  }

  predicate AtHome(home: map<nat, nat>, conn: Option<nat>, entry: nat) {
    conn.Some? ==> conn.value in home && home[conn.value] == entry
  }

  predicate MadeBy(home: map<nat, nat>, maker: map<nat, nat>, conn: Option<nat>, l: nat) {
    conn.Some? ==> conn.value in maker && maker[conn.value] == l && conn.value !in home
  }

  predicate Managing(pc: Pc) {
    pc.Sending? || pc.RetryTaking? || pc.RetryScrapping? || pc.FailTaking? || pc.ExitTaking?
  }

  predicate Unmanaged(pc: Pc) {
    pc.Waiting? || pc.Checking? || pc.Probing? || pc.Evicting? || pc.Scrapping? || pc.Opening? || pc.Connecting?
    || pc.Opened? || pc.Rejected? || pc.Adopting?
  }

  /** The lease holds the operation lock of its entry exactly between acquiring and releasing it. */
  predicate LockInv(holders: map<nat, nat>, l: nat, lease: Lease) {
    Holding(lease.pc) <==> HeldBy(holders, lease.entry, l)
  }

  /** Which connections the lease may know. */
  predicate ConnInv(home: map<nat, nat>, maker: map<nat, nat>, l: nat, lease: Lease) {
    && MadeBy(home, maker, PrivateConn(lease.pc), l)
    && AtHome(home, PublicConn(lease.pc), lease.entry)
    && AtHome(home, lease.managed, lease.entry)
    && (Managing(lease.pc) ==> lease.managed == Some(lease.pc.conn))
    && (Unmanaged(lease.pc) ==> lease.managed.None?)
    && (lease.pc.Arming? ==> lease.managed.Some?)
  }

  predicate LeaseInv(s: Shared, l: nat, lease: Lease) {
    && lease.entry in s.endpointOf && s.endpointOf[lease.entry] == lease.endpoint
    && LockInv(s.holders, l, lease)
    && ConnInv(s.home, s.maker, l, lease)
  }

  /** What the other leases may rely on when lease `l` moves. */
  ghost predicate Rely(s: Shared, t: Shared, l: nat) {
    && (forall e :: e in s.endpointOf ==> e in t.endpointOf && t.endpointOf[e] == s.endpointOf[e])
    && (forall e, k :: k != l ==> (HeldBy(s.holders, e, k) <==> HeldBy(t.holders, e, k)))
    && (forall x :: x in s.home ==> x in t.home && t.home[x] == s.home[x])
    && (forall x :: x in t.home && x !in s.home ==> x in s.maker && s.maker[x] == l)
    && (forall x :: x in s.maker ==> x in t.maker && t.maker[x] == s.maker[x])
  }

  lemma RelyKeeps(s: Shared, t: Shared, l: nat, k: nat, lease: Lease)
    requires Rely(s, t, l) && k != l && LeaseInv(s, k, lease)
    ensures LeaseInv(t, k, lease)
  {
  }

  /** A free operation lock is held by nobody, so taking it is no other lease's business. */
  lemma LockRely(s: Shared, l: nat, lease: Lease, m: Move)
    requires LeaseInv(s, l, lease) && CanMove(s, lease, m) && (m.Acquire? || m.Release?)
    ensures Rely(s, SharedAfter(s, l, lease, m), l)
  {
  }

  lemma ConnRely(s: Shared, l: nat, lease: Lease, m: Move)
    requires SharedInv(s) && LeaseInv(s, l, lease) && CanMove(s, lease, m) && (m.Accept? || m.OpenDone?)
    ensures Rely(s, SharedAfter(s, l, lease, m), l)
  {
  }

  /** All other moves touch only slots, entries and the ended connections. */
  lemma PoolRely(s: Shared, l: nat, lease: Lease, m: Move)
    requires CanMove(s, lease, m) && !m.Acquire? && !m.Release? && !m.Accept? && !m.OpenDone?
    ensures var t := SharedAfter(s, l, lease, m);
            t.endpointOf == s.endpointOf && t.holders == s.holders && t.home == s.home && t.maker == s.maker
            && t.conns == s.conns
  {
  }

  lemma MoveRely(s: Shared, l: nat, lease: Lease, m: Move)
    requires SharedInv(s) && LeaseInv(s, l, lease) && CanMove(s, lease, m)
    ensures Rely(s, SharedAfter(s, l, lease, m), l)
  {
    if m.Acquire? || m.Release? {
      LockRely(s, l, lease, m);
    } else if m.Accept? || m.OpenDone? {
      ConnRely(s, l, lease, m);
    } else {
      PoolRely(s, l, lease, m);
    }
  }

  lemma AcceptKeepsShared(s: Shared, l: nat, lease: Lease)
    requires SharedInv(s) && LeaseInv(s, l, lease) && CanMove(s, lease, Accept)
    ensures SharedInv(SharedAfter(s, l, lease, Accept))
  {
  }

  lemma RemoveKeepsShared(s: Shared, l: nat, lease: Lease)
    requires SharedInv(s) && CanMove(s, lease, RemoveEmpty)
    ensures SharedInv(SharedAfter(s, l, lease, RemoveEmpty))
  {
  }

  /** The entries are as they were; at most slots were emptied, or a connection was made. */
  ghost predicate SameEntries(s: Shared, t: Shared, l: nat) {
    && t.pool.entries == s.pool.entries && t.pool.limit == s.pool.limit && t.pool.closed == s.pool.closed
    && t.endpointOf == s.endpointOf && t.pool.nextEntry == s.pool.nextEntry && t.home == s.home
    && (forall e :: e in t.pool.slots ==> e in s.pool.slots && t.pool.slots[e] == s.pool.slots[e])
    && ((t.conns == s.conns && t.maker == s.maker)
        || (t.conns == s.conns + 1 && t.maker == s.maker[s.conns := l]))
  }

  lemma SameEntriesShared(s: Shared, t: Shared, l: nat)
    requires SharedInv(s) && SameEntries(s, t, l)
    ensures SharedInv(t)
  {
  }

  lemma EntriesStay(s: Shared, l: nat, lease: Lease, m: Move)
    requires CanMove(s, lease, m) && !m.Accept? && !m.RemoveEmpty?
    ensures SameEntries(s, SharedAfter(s, l, lease, m), l)
  {
  }

  lemma MoveKeepsShared(s: Shared, l: nat, lease: Lease, m: Move)
    requires SharedInv(s) && LeaseInv(s, l, lease) && CanMove(s, lease, m)
    ensures SharedInv(SharedAfter(s, l, lease, m))
  {
    if m.Accept? {
      AcceptKeepsShared(s, l, lease);
    } else if m.RemoveEmpty? {
      RemoveKeepsShared(s, l, lease);
    } else {
      EntriesStay(s, l, lease, m);
      SameEntriesShared(s, SharedAfter(s, l, lease, m), l);
    }
  }

  predicate IsOpening(m: Move) {
    m.Connect? || m.OpenFail? || m.OpenDone? || m.TokenFail? || m.Reject? || m.Adopt? || m.Arm?
  }

  predicate IsProbing(m: Move) {
    m.Look? || m.Probe?
  }

  lemma HoldsBefore(s: Shared, lease: Lease, m: Move)
    requires CanMove(s, lease, m) && !m.Acquire? && !m.GiveUp? && !m.Close? && !m.Cut?
    ensures Holding(lease.pc)
  {
  }

  lemma HoldsAfter(s: Shared, lease: Lease, m: Move)
    requires CanMove(s, lease, m) && !m.Acquire? && !m.GiveUp? && !m.Release? && !m.Close? && !m.Cut?
    ensures Holding(LeaseAfter(s, lease, m).pc)
  {
  }

  lemma HoldersStay(s: Shared, l: nat, lease: Lease, m: Move)
    requires CanMove(s, lease, m) && !m.Acquire? && !m.Release?
    ensures SharedAfter(s, l, lease, m).holders == s.holders
    ensures LeaseAfter(s, lease, m).entry == lease.entry
  {
  }

  lemma MoveKeepsLock(s: Shared, l: nat, lease: Lease, m: Move)
    requires LockInv(s.holders, l, lease) && CanMove(s, lease, m)
    ensures LockInv(SharedAfter(s, l, lease, m).holders, l, LeaseAfter(s, lease, m))
  {
    if !m.Acquire? && !m.GiveUp? && !m.Release? && !m.Close? && !m.Cut? {
      HoldsBefore(s, lease, m);
      HoldsAfter(s, lease, m);
      HoldersStay(s, l, lease, m);
    }
  }

  lemma OpeningKeepsConn(s: Shared, l: nat, lease: Lease, m: Move)
    requires ConnInv(s.home, s.maker, l, lease) && CanMove(s, lease, m) && IsOpening(m)
    requires s.conns !in s.home
    ensures ConnInv(SharedAfter(s, l, lease, m).home, SharedAfter(s, l, lease, m).maker, l, LeaseAfter(s, lease, m))
  {
  }

  lemma ProbingKeepsConn(s: Shared, l: nat, lease: Lease, m: Move)
    requires ConnInv(s.home, s.maker, l, lease) && CanMove(s, lease, m) && IsProbing(m)
    requires AtHome(s.home, SlotOf(s.pool, lease.entry), lease.entry)
    ensures ConnInv(SharedAfter(s, l, lease, m).home, SharedAfter(s, l, lease, m).maker, l, LeaseAfter(s, lease, m))
  {
  }

  lemma TakeKeepsConn(s: Shared, l: nat, lease: Lease)
    requires ConnInv(s.home, s.maker, l, lease) && CanMove(s, lease, Take)
    ensures ConnInv(SharedAfter(s, l, lease, Take).home, SharedAfter(s, l, lease, Take).maker, l,
                    LeaseAfter(s, lease, Take))
  {
  }

  lemma ScrapKeepsConn(s: Shared, l: nat, lease: Lease)
    requires ConnInv(s.home, s.maker, l, lease) && CanMove(s, lease, Scrap)
    ensures ConnInv(SharedAfter(s, l, lease, Scrap).home, SharedAfter(s, l, lease, Scrap).maker,
                    l, LeaseAfter(s, lease, Scrap))
  {
  }

  lemma AcceptKeepsConn(s: Shared, l: nat, lease: Lease)
    requires ConnInv(s.home, s.maker, l, lease) && CanMove(s, lease, Accept)
    ensures ConnInv(SharedAfter(s, l, lease, Accept).home, SharedAfter(s, l, lease, Accept).maker,
                    l, LeaseAfter(s, lease, Accept))
  {
  }

  predicate IsSending(m: Move) {
    m.Send? || m.SendOk? || m.SendFail? || m.SendCut?
  }

  lemma SendingKeepsConn(s: Shared, l: nat, lease: Lease, m: Move)
    requires ConnInv(s.home, s.maker, l, lease) && CanMove(s, lease, m) && IsSending(m)
    ensures ConnInv(SharedAfter(s, l, lease, m).home, SharedAfter(s, l, lease, m).maker, l, LeaseAfter(s, lease, m))
  {
  }

  lemma OtherKeepsConn(s: Shared, l: nat, lease: Lease, m: Move)
    requires ConnInv(s.home, s.maker, l, lease) && CanMove(s, lease, m)
    requires !IsProbing(m) && !IsOpening(m) && !IsSending(m) && !m.Take? && !m.Accept? && !m.Scrap?
    ensures ConnInv(SharedAfter(s, l, lease, m).home, SharedAfter(s, l, lease, m).maker, l, LeaseAfter(s, lease, m))
  {
  }

  lemma MoveKeepsOwn(s: Shared, l: nat, lease: Lease, m: Move)
    requires SharedInv(s) && LeaseInv(s, l, lease) && CanMove(s, lease, m)
    ensures LeaseInv(SharedAfter(s, l, lease, m), l, LeaseAfter(s, lease, m))
  {
    MoveKeepsLock(s, l, lease, m);
    if IsOpening(m) {
      OpeningKeepsConn(s, l, lease, m);
    } else if IsProbing(m) {
      ProbingKeepsConn(s, l, lease, m);
    } else if IsSending(m) {
      SendingKeepsConn(s, l, lease, m);
    } else if m.Take? {
      TakeKeepsConn(s, l, lease);
    } else if m.Scrap? {
      ScrapKeepsConn(s, l, lease);
    } else if m.Accept? {
      AcceptKeepsConn(s, l, lease);
    } else {
      OtherKeepsConn(s, l, lease, m);
    }
    MoveRely(s, l, lease, m);
    StaysPut(s, lease, m);
  }

  lemma StaysPut(s: Shared, lease: Lease, m: Move)
    requires CanMove(s, lease, m)
    ensures LeaseAfter(s, lease, m).entry == lease.entry && LeaseAfter(s, lease, m).endpoint == lease.endpoint
  {
    if IsOpening(m) {
      StaysPutOpening(s, lease, m);
    }
  }

  lemma StaysPutOpening(s: Shared, lease: Lease, m: Move)
    requires CanMove(s, lease, m) && IsOpening(m)
    ensures LeaseAfter(s, lease, m).entry == lease.entry && LeaseAfter(s, lease, m).endpoint == lease.endpoint
  {
  }
}
