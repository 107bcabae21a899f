/** The lock client with its bounded retry loop, alone on the key. */
module LockService {
  import opened Options
  import opened LockModel

  /** The Redis node as one caller sees it between its own commands: a clock, one lock key and
      one stock key. Commands take no time; sleeping moves the clock. */
  class Redis {
    var now: int
    var lease: Option<Lease>
    var stock: Option<int>
    ghost var trace: seq<Command>   // everything asked so far, in order

    method SetNx(token: Token, ttl: nat) returns (ok: bool)
      modifies this`lease, this`trace
      ensures (lease, ok) == SetNxPx(old(lease), token, now, ttl)
      ensures trace == old(trace) + [TrySet(token, ttl)]
    {
      trace := trace + [TrySet(token, ttl)];
      ok := lease.None?;
      if ok {
        lease := Some(Lease(token, now + ttl));
      }
    }

    method RunRelease(token: Token) returns (ok: bool)
      modifies this`lease, this`trace
      ensures (lease, ok) == ReleaseScript(old(lease), token)
      ensures trace == old(trace) + [EvalRelease(token)]
    {
      trace := trace + [EvalRelease(token)];
      ok := lease.Some? && lease.value.token == token;
      if ok {
        lease := None;
      }
    }

    method Get() returns (r: Option<int>)
      modifies this`trace
      ensures r == stock && trace == old(trace) + [GetStock]
    {
      trace := trace + [GetStock];
      r := stock;
    }

    method Set(value: int)
      modifies this`stock, this`trace
      ensures stock == Some(value) && trace == old(trace) + [SetStock(value)]
    {
      trace := trace + [SetStock(value)];
      stock := Some(value);
    }

    method Sleep(delay: nat)
      modifies this`now, this`lease, this`trace
      ensures now == old(now) + delay && lease == Expire(old(lease), now)
      ensures trace == old(trace) + [Wait(delay)]
    {
      trace := trace + [Wait(delay)];
      now := now + delay;
      if lease.Some? && now >= lease.value.expiry {
        lease := None;
      }
    }
  }

  /** The number of sleeps of `delay` it takes to get from `now` to `expiry`. */
  function Sleeps(now: int, expiry: int, delay: nat): nat
    requires delay > 0
  {
    if expiry <= now then 0 else (expiry - now + delay - 1) / delay
  }

  /** It is the least number of sleeps that is enough: a ceiling. */
  lemma {:induction false} SleepsIsLeast(now: int, expiry: int, delay: nat, k: nat)
    requires delay > 0
    ensures now + k * delay >= expiry <==> k >= Sleeps(now, expiry, delay)
  {
    if expiry > now {
      var q := Sleeps(now, expiry, delay);
      assert q * delay >= expiry - now > (q - 1) * delay;
      if k >= q {
        assert k * delay >= q * delay;
      } else {
        assert k * delay <= (q - 1) * delay;
      }
    }
  }

  /** Counting attempts instead of sleeps: n of them are enough exactly if the last one, made
      after n - 1 sleeps, finds the key expired. */
  lemma {:induction false} EnoughAttempts(now: int, expiry: int, delay: nat, attempts: nat)
    requires delay > 0 && attempts > 0
    ensures Sleeps(now, expiry, delay) < attempts <==> now + (attempts - 1) * delay >= expiry
  {
    SleepsIsLeast(now, expiry, delay, attempts - 1);
  }

  /** The sleeps the lock in `lease` costs somebody who wants it at `now`. */
  function SleepsFor(now: int, lease: Option<Lease>, delay: nat): nat
    requires delay > 0
  {
    match lease
    case None => 0
    case Some(l) => Sleeps(now, l.expiry, delay)
  }

  /** What `n` attempts in vain ask for: each tries and then sleeps. */
  function Tries(token: Token, ttl: nat, delay: nat, n: nat): seq<Command> {
    if n == 0 then [] else Tries(token, ttl, delay, n - 1) + [TrySet(token, ttl), Wait(delay)]
  }

  lemma {:induction false} FirstTry(token: Token, ttl: nat, delay: nat, n: nat)
    requires n > 0
    ensures Tries(token, ttl, delay, n) == [TrySet(token, ttl), Wait(delay)] + Tries(token, ttl, delay, n - 1)
  {
    if n > 1 {
      FirstTry(token, ttl, delay, n - 1);
    }
  }

  class DistributedLock {
    const redis: Redis
    const ttl: nat
    const retryDelay: nat
    const maxRetries: nat
    var token: Option<Token>

    constructor (redis: Redis, ttl: nat, retryDelay: nat, maxRetries: nat)
      ensures this.redis == redis && this.ttl == ttl
      ensures this.retryDelay == retryDelay && this.maxRetries == maxRetries && token == None
    {
      this.redis := redis;
      this.ttl := ttl;
      this.retryDelay := retryDelay;
      this.maxRetries := maxRetries;
      token := None;
    }

    /** With nobody else contending, the lock is acquired exactly if the sleeps needed to outlive
        the present lease are fewer than the attempts, and then after exactly that many sleeps.
        Without a delay all attempts fall on one instant, so only a free key can be acquired. */
    method Acquire(newToken: Token) returns (ok: bool)
      requires redis.lease.Some? ==> redis.now < redis.lease.value.expiry
      modifies this, redis`now, redis`lease, redis`trace
      ensures retryDelay > 0 ==>
        var needed := SleepsFor(old(redis.now), old(redis.lease), retryDelay);
        && ok == (needed < maxRetries)
        && redis.now == old(redis.now) + retryDelay * (if ok then needed else maxRetries)
        && redis.trace == old(redis.trace) +
             Tries(newToken, ttl, retryDelay, if ok then needed else maxRetries) +
             if ok then [TrySet(newToken, ttl)] else []
      ensures retryDelay == 0 ==>
        ok == (old(redis.lease).None? && maxRetries > 0) && redis.now == old(redis.now)
      ensures ok ==> redis.lease == Some(Lease(newToken, redis.now + ttl)) && token == Some(newToken)
      ensures !ok ==> redis.lease == Expire(old(redis.lease), redis.now) && token == old(token)
    {
      var i := 0;
      ghost var needed :=
        if retryDelay > 0 then SleepsFor(redis.now, redis.lease, retryDelay)
        else if redis.lease.None? then 0 else maxRetries + 1;
      while i < maxRetries
        invariant 0 <= i <= maxRetries && i <= needed
        invariant redis.now == old(redis.now) + retryDelay * i
        invariant redis.lease == Expire(old(redis.lease), redis.now)
        invariant token == old(token)
        invariant redis.lease.Some? <==> i < needed
        invariant redis.trace == old(redis.trace) + Tries(newToken, ttl, retryDelay, i)
      {
        var acquired := redis.SetNx(newToken, ttl);
        if acquired {
          token := Some(newToken);
          return true;
        }
        redis.Sleep(retryDelay);
        i := i + 1;
        if retryDelay > 0 {
          SleepsIsLeast(old(redis.now), old(redis.lease).value.expiry, retryDelay, i);
        }
      }
      ok := false;
    }

    /** Without a token there is nothing to release; with one, only a key that still carries it. */
    method Release() returns (ok: bool)
      modifies redis`lease, redis`trace
      ensures token == None ==> !ok && redis.lease == old(redis.lease) && redis.trace == old(redis.trace)
      ensures token.Some? ==>
        && (redis.lease, ok) == ReleaseScript(old(redis.lease), token.value)
        && redis.trace == old(redis.trace) + [EvalRelease(token.value)]
    {
      match token {
        case None => ok := false;
        case Some(t) => ok := redis.RunRelease(t);
      }
    }
  }
}
