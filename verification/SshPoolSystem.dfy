/**
 Leases, aborters and closers that work on one pool at the same time
 (src/aruba_session_tracker/collectors/ssh.py:1467-1621 and 1624-1806).

 Every move is one lock block, or one call on a connection outside the locks.
 */
module SshPoolSystem {
  import opened Wrappers
  import opened SshPool

  /** Where a lease stands. `retry` marks the replacement of a dead connection inside `_send`. */
  datatype Pc =
    | Waiting                                   // before the operation lock
    | Checking                                  // has the lock, before the snapshot
    | Probing(conn: nat)                        // asks whether the retained connection can be reused
    | Evicting(conn: nat, fail: bool)           // about to take a stale connection
    | Scrapping(conn: nat, fail: bool)          // took it, about to abort and close it
    | Opening(retry: bool)                      // about to connect
    | Connecting(retry: bool)                   // connect was called on a poll that was not cut
    | Opened(conn: nat, retry: bool)            // connected, not yet accepted
    | Rejected(conn: nat, retry: bool)          // refused, about to be closed
    | Adopting(conn: nat, retry: bool)          // accepted, or found alive
    | Arming(retry: bool)
    | Ready
    | Sending(conn: nat)
    | RetryTaking(conn: nat)
    | RetryScrapping(conn: nat)
    | FailTaking(conn: nat)
    | Raising                                   // an exception is on its way to `__exit__`
    | ExitTaking(conn: nat)
    | ExitReleasing
    | ExitClosing
    | Failing                                   // `__enter__` failed, before `_remove_empty_entry`
    | FailReleasing
    | Gone

  /** `cut` is set once the poll of the lease was cancelled or has expired. */
  datatype Lease = Lease(
    endpoint: Endpoint, entry: nat, pc: Pc, managed: Option<nat>, reused: bool, commands: nat,
    retried: bool, pendingClose: bool, cut: bool)

  /** `home` is the entry that accepted a connection, `maker` the lease that opened it, `ended` the
      connections that were aborted or closed at least once; `conns` were opened so far. */
  datatype Shared = Shared(
    pool: Pool, endpointOf: map<nat, Endpoint>, holders: map<nat, nat>,
    conns: nat, home: map<nat, nat>, maker: map<nat, nat>, ended: set<nat>)

  datatype Move =
    | Acquire | GiveUp | Look | Probe(alive: bool, error: bool) | Take | Scrap
    | Connect | OpenFail | OpenDone | TokenFail | Accept | Reject | Adopt | Arm(ok: bool)
    | Send | SendOk | SendFail(dead: bool) | SendCut | Exit(raised: bool) | RemoveEmpty | Release | Close | Cut

  predicate Holding(pc: Pc) {
    !pc.Waiting? && !pc.ExitClosing? && !pc.Gone?
  }

  /** `__enter__` has returned and `__exit__` has not: only now can the lease be aborted. */
  predicate InUse(pc: Pc) {
    match pc
    case Opening(retry) => retry
    case Connecting(retry) => retry
    case Opened(_, retry) => retry
    case Rejected(_, retry) => retry
    case Adopting(_, retry) => retry
    case Arming(retry) => retry
    case _ => pc.Ready? || pc.Sending? || pc.RetryTaking? || pc.RetryScrapping? || pc.FailTaking? || pc.Raising?
              || pc.ExitTaking? || pc.ExitReleasing? || pc.ExitClosing?
  }

  /** `_can_retry_dead_paging`, up to the calls that look at the error and at the connection. */
  predicate MayRetry(lease: Lease) {
    lease.reused && !lease.retried && lease.commands == 1
  }

  predicate CanMove(s: Shared, lease: Lease, m: Move) {
    match m
    case Acquire => lease.pc.Waiting? && lease.entry !in s.holders
    case GiveUp => lease.pc.Waiting?
    case Look => lease.pc.Checking?
    case Probe(_, _) => lease.pc.Probing?
    case Take => lease.pc.Evicting? || lease.pc.RetryTaking? || lease.pc.FailTaking? || lease.pc.ExitTaking?
    case Scrap => lease.pc.Scrapping? || lease.pc.RetryScrapping?
    case Connect => lease.pc.Opening? && !lease.cut
    case OpenFail => lease.pc.Opening? || lease.pc.Connecting?
    case OpenDone => lease.pc.Connecting?
    case TokenFail => lease.pc.Opened?
    case Accept => lease.pc.Opened?
    case Reject => lease.pc.Rejected?
    case Adopt => lease.pc.Adopting?
    case Arm(_) => lease.pc.Arming?
    case Send => lease.pc.Ready?
    case SendOk => lease.pc.Sending?
    case SendFail(dead) => lease.pc.Sending? && (dead ==> MayRetry(lease) && !lease.cut)
    case SendCut => lease.pc.Sending? && MayRetry(lease) && lease.cut
    case Exit(raised) => lease.pc.Ready? || (lease.pc.Raising? && raised)
    case RemoveEmpty => lease.pc.Failing?
    case Release => lease.pc.ExitReleasing? || lease.pc.FailReleasing?
    case Close => lease.pc.ExitClosing?
    case Cut => true
  }

  function EndedBy(s: Shared, conn: nat): Shared {
    s.(ended := s.ended + {conn})
  }

  function FailedOpen(retry: bool): Pc {
    if retry then Raising else Failing
  }

  /** The shared state after a move of lease `l`. */
  function SharedAfter(s: Shared, l: nat, lease: Lease, m: Move): Shared
    requires CanMove(s, lease, m)
  {
    match m
    case Acquire => s.(holders := s.holders[lease.entry := l])
    case Take => s.(pool := TakenFrom(s.pool, lease.entry, Some(lease.pc.conn)))
    case Scrap => EndedBy(s, lease.pc.conn)
    case OpenDone => s.(conns := s.conns + 1, maker := s.maker[s.conns := l])
    case Accept =>
      if Acceptable(s.pool, lease.endpoint, lease.entry)
      then s.(pool := Accepted(s.pool, lease.endpoint, lease.entry, lease.pc.conn),
              home := s.home[lease.pc.conn := lease.entry])
      else s
    case Reject => EndedBy(s, lease.pc.conn)
    case RemoveEmpty => s.(pool := WithoutEmpty(s.pool, lease.endpoint, lease.entry))
    case Release => s.(holders := s.holders - {lease.entry})
    case Close => if lease.pendingClose && lease.managed.Some? then EndedBy(s, lease.managed.value) else s
    case _ => s
  }

  function PcAfterTake(lease: Lease, won: bool): Pc
    requires lease.pc.Evicting? || lease.pc.RetryTaking? || lease.pc.FailTaking? || lease.pc.ExitTaking?
  {
    match lease.pc
    case Evicting(conn, fail) => if won then Scrapping(conn, fail) else if fail then Failing else Opening(false)
    case RetryTaking(conn) => RetryScrapping(conn)
    case FailTaking(_) => Raising
    case ExitTaking(_) => ExitReleasing
  }

  /** The lease after its own move. */
  function LeaseAfter(s: Shared, lease: Lease, m: Move): Lease
    requires CanMove(s, lease, m)
  {
    match m
    case Acquire => lease.(pc := Checking)
    case GiveUp => lease.(pc := Gone)
    case Look =>
      var slot := SlotOf(s.pool, lease.entry);
      lease.(pc := if slot.Some? then Probing(slot.value) else Opening(false))
    case Probe(alive, error) =>
      if error then lease.(pc := Evicting(lease.pc.conn, true))
      else if alive then lease.(pc := Adopting(lease.pc.conn, false), reused := true)
      else lease.(pc := Evicting(lease.pc.conn, false))
    case Take =>
      var won := SlotOf(s.pool, lease.entry) == Some(lease.pc.conn);
      lease.(pc := PcAfterTake(lease, won),
             retried := lease.retried || lease.pc.RetryTaking?,
             pendingClose := lease.pendingClose || (won && (lease.pc.FailTaking? || lease.pc.ExitTaking?)))
    case Scrap =>
      if lease.pc.RetryScrapping? then lease.(pc := Opening(true), managed := None)
      else lease.(pc := if lease.pc.fail then Failing else Opening(false))
    case Connect => lease.(pc := Connecting(lease.pc.retry))
    case OpenFail => lease.(pc := FailedOpen(lease.pc.retry))
    case OpenDone => lease.(pc := Opened(s.conns, lease.pc.retry))
    case TokenFail => lease.(pc := Rejected(lease.pc.conn, lease.pc.retry))
    case Accept =>
      if Acceptable(s.pool, lease.endpoint, lease.entry)
      then lease.(pc := Adopting(lease.pc.conn, lease.pc.retry), reused := lease.pc.retry && lease.reused)
      else lease.(pc := Rejected(lease.pc.conn, lease.pc.retry))
    case Reject => lease.(pc := FailedOpen(lease.pc.retry))
    case Adopt => lease.(managed := Some(lease.pc.conn), pc := Arming(lease.pc.retry))
    case Arm(ok) =>
      if !ok then lease.(pc := FailedOpen(lease.pc.retry))
      else if lease.pc.retry && lease.managed.Some? then lease.(pc := Sending(lease.managed.value))
      else lease.(pc := Ready)
    case Send =>
      if lease.managed.Some? then lease.(pc := Sending(lease.managed.value), commands := lease.commands + 1)
      else lease.(pc := Raising)
    case SendOk => lease.(pc := Ready)
    case SendFail(dead) => lease.(pc := if dead then RetryTaking(lease.pc.conn) else FailTaking(lease.pc.conn))
    case SendCut => lease.(pc := Raising)
    case Exit(raised) =>
      lease.(pc := if raised && lease.managed.Some? then ExitTaking(lease.managed.value) else ExitReleasing)
    case RemoveEmpty => lease.(pc := FailReleasing)
    case Release => lease.(pc := if lease.pc.ExitReleasing? then ExitClosing else Gone)
    case Close => lease.(pc := Gone, managed := None)
    case Cut => lease.(cut := true)
  }

  /** A call of `abort`: by cancellation or by the deadline watchdog of a lease. */
  datatype Aborter = Aiming(lease: nat, conn: nat) | Taken(lease: nat, conn: nat) | Marked(lease: nat, conn: nat)

  /** A call of `invalidate` or `close`: the entries it still has to empty, and what it took from them. */
  datatype Closer = Closer(todo: set<nat>, taken: set<nat>)

  datatype World = World(s: Shared, leases: map<nat, Lease>, aborters: map<nat, Aborter>, closers: map<nat, Closer>)

  datatype Event =
    | Request(l: nat, endpoint: Endpoint)
    | MoveLease(l: nat, m: Move)
    | AbortRead(a: nat, l: nat) | AbortTake(a: nat) | AbortMark(a: nat) | AbortEnd(a: nat)
    | Clear(k: nat, closing: bool) | SweepTake(k: nat, entry: nat) | SweepEnd(k: nat, conn: nat) | SweepDone(k: nat)

  predicate Enabled(w: World, e: Event) {
    match e
    case Request(l, _) => l !in w.leases
    case MoveLease(l, m) => l in w.leases && CanMove(w.s, w.leases[l], m)
    case AbortRead(a, l) => a !in w.aborters && l in w.leases && w.leases[l].cut && InUse(w.leases[l].pc)
    case AbortTake(a) => a in w.aborters && w.aborters[a].Aiming? && w.aborters[a].lease in w.leases
    case AbortMark(a) => a in w.aborters && w.aborters[a].Taken? && w.aborters[a].lease in w.leases
    case AbortEnd(a) => a in w.aborters && w.aborters[a].Marked?
    case Clear(k, closing) => k !in w.closers
    case SweepTake(k, entry) => k in w.closers && entry in w.closers[k].todo
    case SweepEnd(k, conn) => k in w.closers && w.closers[k].todo == {} && conn in w.closers[k].taken
    case SweepDone(k) => k in w.closers && w.closers[k] == Closer({}, {})
  }

  function Apply(w: World, e: Event): World
    requires Enabled(w, e)
  {
    match e
    case Request(l, endpoint) =>
      (match Requested(w.s.pool, endpoint)
       case Err(_) => w
       case Ok(pair) =>
         w.(s := w.s.(pool := pair.0, endpointOf := w.s.endpointOf[pair.1 := endpoint]),
            leases := w.leases[l := Lease(endpoint, pair.1, Waiting, None, false, 0, false, false, false)]))
    case MoveLease(l, m) =>
      w.(s := SharedAfter(w.s, l, w.leases[l], m), leases := w.leases[l := LeaseAfter(w.s, w.leases[l], m)])
    case AbortRead(a, l) =>
      if w.leases[l].managed.None? then w
      else w.(aborters := w.aborters[a := Aiming(l, w.leases[l].managed.value)])
    case AbortTake(a) =>
      var x := w.aborters[a];
      var entry := w.leases[x.lease].entry;
      w.(s := w.s.(pool := TakenFrom(w.s.pool, entry, Some(x.conn))),
         aborters := if SlotOf(w.s.pool, entry) == Some(x.conn) then w.aborters[a := Taken(x.lease, x.conn)]
                     else w.aborters - {a})
    case AbortMark(a) =>
      var x := w.aborters[a];
      w.(leases := w.leases[x.lease := w.leases[x.lease].(pendingClose := true)],
         aborters := w.aborters[a := Marked(x.lease, x.conn)])
    case AbortEnd(a) => w.(s := EndedBy(w.s, w.aborters[a].conn), aborters := w.aborters - {a})
    case Clear(k, closing) =>
      if closing && w.s.pool.closed then w
      else w.(s := w.s.(pool := Cleared(w.s.pool, closing)),
              closers := w.closers[k := Closer(w.s.pool.entries.Values, {})])
    case SweepTake(k, entry) =>
      var got := TakeResult(w.s.pool, entry, None);
      w.(s := w.s.(pool := TakenFrom(w.s.pool, entry, None)),
         closers := w.closers[k := Closer(w.closers[k].todo - {entry},
                                          w.closers[k].taken + if got.Some? then {got.value} else {})])
    case SweepEnd(k, conn) =>
      w.(s := EndedBy(w.s, conn), closers := w.closers[k := w.closers[k].(taken := w.closers[k].taken - {conn})])
    case SweepDone(k) => w.(closers := w.closers - {k})
  }

  function Empty(limit: nat): World {
    World(Shared(Pool(limit, map[], false, 0, map[]), map[], map[], 0, map[], map[], {}), map[], map[], map[])
  }

  predicate Legal(w: World, run: seq<Event>)
    decreases |run|
  {
    run == [] || (Enabled(w, run[0]) && Legal(Apply(w, run[0]), run[1..]))
  }

  function Execute(w: World, run: seq<Event>): World
    requires Legal(w, run)
    decreases |run|
  {
    if run == [] then w else Execute(Apply(w, run[0]), run[1..])
  }
}
