/**
 One lock key of Redis: SET NX PX, the token-checked release script, and expiry.

 A key set at time t with a lifetime of `ttl` is gone from time t + ttl on. Expiry is modelled
 eagerly, by the step that moves the clock.
 */
module LockModel {
  import opened Options

  type Token = nat

  datatype Lease = Lease(token: Token, expiry: int)

  /** What a client asks of Redis, or of its clock. */
  datatype Command =
    | TrySet(token: Token, ttl: nat)   // SET NX PX on the lock key
    | Wait(delay: nat)
    | GetStock
    | SetStock(stock: int)
    | EvalRelease(token: Token)        // the release script

  function Expire(lease: Option<Lease>, now: int): Option<Lease> {
    if lease.Some? && now >= lease.value.expiry then None else lease
  }

  function SetNxPx(lease: Option<Lease>, token: Token, now: int, ttl: nat): (Option<Lease>, bool) {
    if lease.None? then (Some(Lease(token, now + ttl)), true) else (lease, false)
  }

  function ReleaseScript(lease: Option<Lease>, token: Token): (Option<Lease>, bool) {
    if lease.Some? && lease.value.token == token then (None, true) else (lease, false)
  }
}
