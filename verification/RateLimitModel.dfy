/**
 The sliding-window script and the runs of one client's key.

 Timestamps in the sorted set are the callers' own clocks; the lifetime of the key runs on the
 clock of the Redis node. Both are in milliseconds.
 */
module RateLimitModel {
  import opened Options

  type Member = string

  /** The sorted set with the moment its key expires; an empty sorted set has no key. */
  datatype Window = Window(scores: map<Member, int>, expireAt: Option<int>)

  datatype Answer = Answer(allowed: bool, remaining: int)

  datatype Rate = Rate(limit: nat, window: nat)

  /** What is left of the key once the node's clock shows `at`. */
  function Alive(z: Window, at: int): map<Member, int> {
    if z.expireAt.Some? && at >= z.expireAt.value then map[] else z.scores
  }

  /** ZREMRANGEBYSCORE key 0 hi: both ends belong to the range. */
  function RemoveRange(scores: map<Member, int>, hi: int): map<Member, int> {
    map m | m in scores && !(0 <= scores[m] <= hi) :: scores[m]
  }

  /** EXPIRE takes whole seconds: the window rounded up, and one more. */
  function Lifetime(window: nat): nat {
    ((window + 999) / 1000 + 1) * 1000
  }

  lemma {:induction false} LifetimeOutlastsWindow(window: nat)
    ensures window + 1000 <= Lifetime(window) < window + 2000
  {
  }

  function Script(r: Rate, z: Window, at: int, now: int, member: Member): (Window, Answer) {
    var kept := RemoveRange(Alive(z, at), now - r.window);
    var expireAt := if kept == map[] then None else z.expireAt;
    if |kept| < r.limit then
      (Window(kept[member := now], Some(at + Lifetime(r.window))), Answer(true, r.limit - |kept| - 1))
    else
      (Window(kept, expireAt), Answer(false, 0))
  }

  // Runs

  /** `at`: the node's clock when the script runs; `now`: the caller's clock, sent with it. */
  datatype Call = Call(at: int, now: int, member: Member)

  /** `log` keeps every admission for ever; the code keeps no such thing. */
  datatype Limiter = Limiter(z: Window, at: int, now: int, log: seq<Call>, answers: seq<Answer>)

  function Fresh(at: int): Limiter {
    Limiter(Window(map[], None), at, 0, [], [])
  }

  predicate Unused(log: seq<Call>, member: Member) {
    forall k | 0 <= k < |log| :: log[k].member != member
  }

  /** The node's clock does not go back, timestamps are not negative, and members (a timestamp
      with a random suffix) do not repeat. Nothing ties the callers' clocks to anything. */
  predicate Legal(l: Limiter, c: Call) {
    l.at <= c.at && 0 <= c.now && Unused(l.log, c.member)
  }

  function Step(r: Rate, l: Limiter, c: Call): Limiter {
    var (z, answer) := Script(r, l.z, c.at, c.now, c.member);
    Limiter(z, c.at, c.now, if answer.allowed then l.log + [c] else l.log, l.answers + [answer])
  }

  function Run(r: Rate, l: Limiter, calls: seq<Call>): Limiter {
    if calls == [] then l else Step(r, Run(r, l, calls[..|calls|-1]), calls[|calls|-1])
  }

  predicate LegalRun(r: Rate, l: Limiter, calls: seq<Call>) {
    calls == [] ||
    (LegalRun(r, l, calls[..|calls|-1]) && Legal(Run(r, l, calls[..|calls|-1]), calls[|calls|-1]))
  }

  lemma {:induction false} RunOneMore(r: Rate, l: Limiter, calls: seq<Call>, c: Call)
    ensures Run(r, l, calls + [c]) == Step(r, Run(r, l, calls), c)
    ensures LegalRun(r, l, calls + [c]) <==> LegalRun(r, l, calls) && Legal(Run(r, l, calls), c)
  {
    assert (calls + [c])[..|calls|] == calls;
  }

  /** What one call does to the state, in terms of the entries the script did not prune. */
  lemma {:induction false} StepShape(r: Rate, l: Limiter, c: Call, kept: map<Member, int>)
    requires kept == RemoveRange(Alive(l.z, c.at), c.now - r.window)
    ensures var l' := Step(r, l, c);
      && l'.now == c.now && l'.at == c.at
      && (|kept| < r.limit ==>
            && l'.log == l.log + [c] && l'.z.scores == kept[c.member := c.now]
            && l'.z.expireAt == Some(c.at + Lifetime(r.window))
            && l'.z.expireAt.value >= c.at + r.window + 1000)
      && (|kept| >= r.limit ==>
            && l'.log == l.log && l'.z.scores == kept
            && l'.z.expireAt == if kept == map[] then None else l.z.expireAt)
  {
    LifetimeOutlastsWindow(r.window);
  }

  lemma {:induction false} OneMember(scores: map<Member, int>, m: Member, score: int)
    requires m !in scores
    ensures |scores[m := score]| == |scores| + 1
  {
    assert scores[m := score].Keys == scores.Keys + {m};
    assert |scores[m := score]| == |scores[m := score].Keys| && |scores| == |scores.Keys|;
  }

  /** No caller's clock is more than `skew` away from the node's. Timestamps may decrease. */
  predicate Near(skew: int, calls: seq<Call>) {
    forall c <- calls :: c.at - skew <= c.now <= c.at + skew
  }

  /** An admission that is in the set, under a key that will outlive its window. */
  ghost predicate Covered(r: Rate, z: Window, e: Call) {
    && e.member in z.scores && z.scores[e.member] == e.now
    && z.expireAt.Some? && z.expireAt.value >= e.at + r.window + 1000
  }

  /** Whatever the clocks do, the sorted set never outgrows the limit. */
  lemma {:induction false} SetWithinLimit(r: Rate, at: int, calls: seq<Call>)
    ensures |Run(r, Fresh(at), calls).z.scores| <= r.limit
  {
    if calls != [] {
      var l, c := Run(r, Fresh(at), calls[..|calls|-1]), calls[|calls|-1];
      SetWithinLimit(r, at, calls[..|calls|-1]);
      var kept := RemoveRange(Alive(l.z, c.at), c.now - r.window);
      SubmapIsSmaller(kept, l.z.scores);
      assert kept[c.member := c.now].Keys == kept.Keys + {c.member};
    }
  }

  lemma {:induction false} SubmapIsSmaller(a: map<Member, int>, b: map<Member, int>)
    requires a.Keys <= b.Keys
    ensures |a| <= |b|
  {
    SubsetIsSmaller(a.Keys, b.Keys);
    assert |a| == |a.Keys| && |b| == |b.Keys|;
  }

  lemma {:induction false} SubsetIsSmaller(a: set<Member>, b: set<Member>)
    requires a <= b
    ensures |a| <= |b|
  {
    if a != {} {
      var x :| x in a;
      SubsetIsSmaller(a - {x}, b - {x});
    }
  }
}
