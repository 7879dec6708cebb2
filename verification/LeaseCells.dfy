/**
 One session's lease and fencing token in memory (haas/stores/memory.py).
 */
module LeaseCells {
  import opened Wrappers

  datatype Lease = Lease(holder: string, expiresAtMs: int, token: nat)

  datatype Cell = Cell(lease: Option<Lease>, token: nat)

  const EMPTY := Cell(None, 0)

  /** `assert_lease` succeeds. */
  predicate Passes(c: Cell, holder: string, token: nat, now: int) {
    && c.lease.Some?
    && c.lease.value.expiresAtMs > now
    && c.lease.value.holder == holder
    && c.lease.value.token == token
  }

  /** Another holder's lease is still running, so `acquire_lease` refuses. */
  predicate Conflicts(c: Cell, holder: string, now: int) {
    c.lease.Some? && c.lease.value.expiresAtMs > now && c.lease.value.holder != holder
  }

  function Acquire(c: Cell, holder: string, ttl: int, now: int): Cell {
    if Conflicts(c, holder, now) then c
    else Cell(Some(Lease(holder, now + ttl, c.token + 1)), c.token + 1)
  }

  function Renew(c: Cell, holder: string, token: nat, ttl: int, now: int): Cell {
    if Passes(c, holder, token, now) then c.(lease := Some(Lease(holder, now + ttl, token))) else c
  }

  function Release(c: Cell, holder: string, token: Option<nat>): Cell {
    if && c.lease.Some?
       && c.lease.value.holder == holder
       && (token.None? || c.lease.value.token == token.value)
    then c.(lease := None) else c
  }

  /** A live lease always carries the newest token. */
  predicate CellOk(c: Cell) {
    c.lease.Some? ==> c.lease.value.token == c.token
  }
}
