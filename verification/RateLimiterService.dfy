/** The rate limiter service: the script as a sequence of commands on one key, and its caller. */
module RateLimiterService {
  import opened Options
  import opened RateLimitModel

  class SortedSetKey {
    var scores: map<Member, int>
    var expireAt: Option<int>

    function Value(): Window
      reads this
    {
      Window(scores, expireAt)
    }

    constructor ()
      ensures Value() == Fresh(0).z
    {
      scores := map[];
      expireAt := None;
    }

    /** Redis drops a key whose time is up before any command sees it. */
    method ExpireIfDue(at: int)
      modifies this
      ensures Value() == if old(expireAt.Some? && at >= expireAt.value) then Window(map[], None)
                         else old(Value())
    {
      if expireAt.Some? && at >= expireAt.value {
        scores := map[];
        expireAt := None;
      }
    }

    /** An emptied sorted set takes its key, lifetime and all, with it. */
    method ZRemRangeByScore(hi: int)
      modifies this
      ensures scores == RemoveRange(old(scores), hi)
      ensures expireAt == if scores == map[] then None else old(expireAt)
    {
      scores := RemoveRange(scores, hi);
      if scores == map[] {
        expireAt := None;
      }
    }

    /** One atomic run of the script. */
    method Eval(r: Rate, at: int, now: int, member: Member) returns (answer: Answer)
      modifies this
      ensures (Value(), answer) == Script(r, old(Value()), at, now, member)
    {
      ExpireIfDue(at);
      ZRemRangeByScore(now - r.window);
      var count := |scores|;
      if count < r.limit {
        scores := scores[member := now];
        expireAt := Some(at + Lifetime(r.window));
        answer := Answer(true, r.limit - count - 1);
      } else {
        answer := Answer(false, 0);
      }
    }
  }

  /** The window is given in seconds and used in milliseconds; the two halves of the answer come
      back as they are. */
  method CheckRateLimit(key: SortedSetKey, limit: nat, windowSeconds: nat, at: int, now: int, member: Member)
    returns (allowed: bool, remaining: int)
    modifies key
    ensures (key.Value(), Answer(allowed, remaining)) ==
      Script(Rate(limit, windowSeconds * 1000), old(key.Value()), at, now, member)
    ensures Lifetime(windowSeconds * 1000) == windowSeconds * 1000 + 1000
  {
    var answer := key.Eval(Rate(limit, windowSeconds * 1000), at, now, member);
    allowed, remaining := answer.allowed, answer.remaining;
  }
}
