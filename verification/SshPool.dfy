/**
 The pool of retained SSH connections of one monitor run
 (`MonitoringSSHConnectionFactory` and `_MonitorPoolEntry` in src/aruba_session_tracker/collectors/ssh.py).

 Every lock block is a function on `Pool`; the class performs it.  An entry object is known by its number,
 and `slots` holds the `managed` field of every entry object, also of those that have left the pool.
 */
module SshPool {
  import opened Wrappers

  datatype Endpoint = Endpoint(host: string, port: nat)

  datatype PoolError = PoolClosed | LimitExceeded

  datatype Pool = Pool(
    limit: nat, entries: map<Endpoint, nat>, closed: bool, nextEntry: nat, slots: map<nat, nat>)

  predicate Pooled(p: Pool, endpoint: Endpoint, entry: nat) {
    endpoint in p.entries && p.entries[endpoint] == entry
  }

  function SlotOf(p: Pool, entry: nat): Option<nat> {
    if entry in p.slots then Some(p.slots[entry]) else None
  }

  /** The lock block of `connect`: the entry of the endpoint, created on demand. */
  function Requested(p: Pool, endpoint: Endpoint): Result<(Pool, nat), PoolError> {
    if p.closed then Err(PoolClosed)
    else if endpoint in p.entries then Ok((p, p.entries[endpoint]))
    else if |p.entries| >= p.limit then Err(LimitExceeded)
    else Ok((p.(entries := p.entries[endpoint := p.nextEntry], nextEntry := p.nextEntry + 1), p.nextEntry))
  }

  /** The lock block of `invalidate` and `close`. */
  function Cleared(p: Pool, closing: bool): Pool {
    p.(entries := map[], closed := p.closed || closing)
  }

  predicate Acceptable(p: Pool, endpoint: Endpoint, entry: nat) {
    !p.closed && Pooled(p, endpoint, entry) && entry !in p.slots
  }

  /** The lock block of `_open`. */
  function Accepted(p: Pool, endpoint: Endpoint, entry: nat, conn: nat): Pool {
    if Acceptable(p, endpoint, entry) then p.(slots := p.slots[entry := conn]) else p
  }

  /** The lock block of `_remove_empty_entry`. */
  function WithoutEmpty(p: Pool, endpoint: Endpoint, entry: nat): Pool {
    if Pooled(p, endpoint, entry) && entry !in p.slots then p.(entries := p.entries - {endpoint}) else p
  }

  /** `_MonitorPoolEntry.take`; it wins only when the slot holds the expected connection. */
  function TakenFrom(p: Pool, entry: nat, expected: Option<nat>): Pool {
    if expected.Some? && SlotOf(p, entry) != expected then p else p.(slots := p.slots - {entry})
  }

  function TakeResult(p: Pool, entry: nat, expected: Option<nat>): Option<nat> {
    if expected.Some? && SlotOf(p, entry) != expected then None else SlotOf(p, entry)
  }

  class MonitoringPool {
    const limit: nat
    var entries: map<Endpoint, nat>
    var closed: bool
    var nextEntry: nat
    var slots: map<nat, nat>

    function View(): Pool
      reads this
    {
      Pool(limit, entries, closed, nextEntry, slots)
    }

    constructor (limit: nat)
      ensures View() == Pool(limit, map[], false, 0, map[])
    {
      this.limit := limit;
      entries, closed, nextEntry, slots := map[], false, 0, map[];
    }

    method Request(endpoint: Endpoint) returns (r: Result<nat, PoolError>)
      modifies this
      ensures match Requested(old(View()), endpoint)
              case Err(e) => r == Err(e) && View() == old(View())
              case Ok(pair) => r == Ok(pair.1) && View() == pair.0
    {
      if closed {
        return Err(PoolClosed);
      }
      if endpoint in entries {
        return Ok(entries[endpoint]);
      }
      if |entries| >= limit {
        return Err(LimitExceeded);
      }
      var entry := nextEntry;
      nextEntry := nextEntry + 1;
      entries := entries[endpoint := entry];
      r := Ok(entry);
    }

    method Invalidate() returns (removed: set<nat>)
      modifies this
      ensures View() == Cleared(old(View()), false) && removed == old(entries).Values
    {
      removed := entries.Values;
      entries := map[];
    }

    /** A second close does nothing. */
    method Close() returns (removed: set<nat>)
      modifies this
      ensures if old(closed) then View() == old(View()) && removed == {}
              else View() == Cleared(old(View()), true) && removed == old(entries).Values
    {
      if closed {
        return {};
      }
      closed := true;
      removed := entries.Values;
      entries := map[];
    }

    method Accept(endpoint: Endpoint, entry: nat, conn: nat) returns (accepted: bool)
      modifies this
      ensures View() == Accepted(old(View()), endpoint, entry, conn)
      ensures accepted == Acceptable(old(View()), endpoint, entry)
    {
      if closed || endpoint !in entries || entries[endpoint] != entry {
        accepted := false;
      } else {
        accepted := entry !in slots;
        if accepted {
          slots := slots[entry := conn];
        }
      }
    }

    method RemoveEmptyEntry(endpoint: Endpoint, entry: nat)
      modifies this
      ensures View() == WithoutEmpty(old(View()), endpoint, entry)
    {
      if endpoint !in entries || entries[endpoint] != entry {
        return;
      }
      if entry !in slots {
        entries := entries - {endpoint};
      }
    }

    method Take(entry: nat, expected: Option<nat>) returns (taken: Option<nat>)
      modifies this
      ensures View() == TakenFrom(old(View()), entry, expected)
      ensures taken == TakeResult(old(View()), entry, expected)
    {
      var managed := if entry in slots then Some(slots[entry]) else None;
      if expected.Some? && managed != expected {
        return None;
      }
      taken := managed;
      slots := slots - {entry};
    }
  }
}
