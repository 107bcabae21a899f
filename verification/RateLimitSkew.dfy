/** The rate the node really admits when the callers' clocks disagree with its own. */
module RateLimitSkew {
  import opened RateLimitModel
  import opened RateLimitBurst

  /** Admissions less than `window - 2 * skew` old by the node's clock are still in the set. */
  ghost predicate Remembers(r: Rate, skew: nat, l: Limiter) {
    && (forall j, k | 0 <= j < k < |l.log| ::
          l.log[j].at <= l.log[k].at && l.log[j].member != l.log[k].member)
    && (forall k | 0 <= k < |l.log| ::
          && l.log[k].at <= l.at && l.log[k].at - skew <= l.log[k].now
          && (l.at - l.log[k].at < r.window - 2 * skew ==> Covered(r, l.z, l.log[k])))
  }

  /** Any `limit + 1` admissions in a row span at least `window - 2 * skew`. */
  ghost predicate Spread(r: Rate, skew: nat, log: seq<Call>) {
    forall k | 0 <= k && k + r.limit < |log| ::
      log[k + r.limit].at - log[k].at >= r.window - 2 * skew
  }

  lemma {:induction false} StillKept(r: Rate, skew: nat, z: Window, c: Call, e: Call)
    requires Covered(r, z, e) && e.at - skew <= e.now && e.at <= c.at && c.now <= c.at + skew
    requires c.at - e.at < r.window - 2 * skew
    ensures var kept := RemoveRange(Alive(z, c.at), c.now - r.window);
      e.member in kept && kept[e.member] == e.now
  {
  }

  lemma {:induction false} ManyMembers(log: seq<Call>, from: nat, scores: map<Member, int>)
    requires from <= |log|
    requires forall j, k | 0 <= j < k < |log| :: log[j].member != log[k].member
    requires forall k | from <= k < |log| :: log[k].member in scores
    ensures |scores| >= |log| - from
    decreases |log| - from
  {
    if from < |log| {
      var m := log[from].member;
      ManyMembers(log, from + 1, scores - {m});
      assert scores.Keys == (scores - {m}).Keys + {m};
      assert |scores| == |scores.Keys| && |scores - {m}| == |(scores - {m}).Keys|;
    }
  }

  lemma {:induction false} StepRemembers(r: Rate, skew: nat, l: Limiter, c: Call)
    requires Remembers(r, skew, l) && Legal(l, c) && c.at - skew <= c.now <= c.at + skew
    ensures Remembers(r, skew, Step(r, l, c))
  {
    LifetimeOutlastsWindow(r.window);
    var l' := Step(r, l, c);
    forall k | 0 <= k < |l'.log|
      ensures l'.log[k].at <= l'.at && l'.log[k].at - skew <= l'.log[k].now
      ensures l'.at - l'.log[k].at < r.window - 2 * skew ==> Covered(r, l'.z, l'.log[k])
    {
      if k < |l.log| {
        assert l'.log[k] == l.log[k];
        if c.at - l.log[k].at < r.window - 2 * skew {
          StillKept(r, skew, l.z, c, l.log[k]);
        }
      }
    }
  }

  /** While the last `limit` admissions are all young enough, the set holds them all. */
  lemma {:induction false} FullWindow(r: Rate, skew: nat, l: Limiter, c: Call)
    requires Remembers(r, skew, l) && Legal(l, c) && c.now <= c.at + skew && r.limit <= |l.log|
    requires r.limit > 0 ==> c.at - l.log[|l.log| - r.limit].at < r.window - 2 * skew
    ensures |RemoveRange(Alive(l.z, c.at), c.now - r.window)| >= r.limit
  {
    var first := |l.log| - r.limit;
    var kept := RemoveRange(Alive(l.z, c.at), c.now - r.window);
    forall k | first <= k < |l.log| ensures l.log[k].member in kept {
      assert first < k ==> l.log[first].at <= l.log[k].at;
      StillKept(r, skew, l.z, c, l.log[k]);
    }
    ManyMembers(l.log, first, kept);
  }

  lemma {:induction false} StepSpread(r: Rate, skew: nat, l: Limiter, c: Call)
    requires Remembers(r, skew, l) && Legal(l, c) && c.now <= c.at + skew
    requires Spread(r, skew, l.log) && 2 * skew <= r.window
    ensures Spread(r, skew, Step(r, l, c).log)
  {
    if r.limit <= |l.log| && (r.limit > 0 ==> c.at - l.log[|l.log| - r.limit].at < r.window - 2 * skew) {
      FullWindow(r, skew, l, c);
    }
    var log' := Step(r, l, c).log;
    if log' != l.log {
      SpreadLonger(r, skew, l.log, c);
    }
  }

  lemma {:induction false} SpreadLonger(r: Rate, skew: nat, log: seq<Call>, c: Call)
    requires Spread(r, skew, log) && r.limit > 0
    requires r.limit <= |log| ==> c.at - log[|log| - r.limit].at >= r.window - 2 * skew
    ensures Spread(r, skew, log + [c])
  {
    var log' := log + [c];
    forall k | 0 <= k && k + r.limit < |log'|
      ensures log'[k + r.limit].at - log'[k].at >= r.window - 2 * skew
    {
      if k + r.limit < |log| {
        assert log[k + r.limit].at - log[k].at >= r.window - 2 * skew;
      }
    }
  }

  lemma {:induction false} RunSpread(r: Rate, skew: nat, start: int, calls: seq<Call>)
    requires LegalRun(r, Fresh(start), calls) && Near(skew, calls) && 2 * skew <= r.window
    ensures var l := Run(r, Fresh(start), calls); Remembers(r, skew, l) && Spread(r, skew, l.log)
  {
    if calls != [] {
      var l, c := Run(r, Fresh(start), calls[..|calls|-1]), calls[|calls|-1];
      assert c in calls && forall x <- calls[..|calls|-1] :: x in calls;
      RunSpread(r, skew, start, calls[..|calls|-1]);
      StepRemembers(r, skew, l, c);
      StepSpread(r, skew, l, c);
    }
  }

  /** Admissions the node made in [from, to), by its own clock. */
  function AdmittedIn(log: seq<Call>, from: int, to: int): nat {
    if log == [] then 0
    else AdmittedIn(log[..|log|-1], from, to) + if from <= log[|log|-1].at < to then 1 else 0
  }

  /** In a log in time order the admissions of a window stand next to each other. */
  lemma {:induction false} Consecutive(log: seq<Call>, from: int, to: int) returns (a: nat)
    requires forall j, k | 0 <= j < k < |log| :: log[j].at <= log[k].at
    ensures a + AdmittedIn(log, from, to) <= |log|
    ensures forall k | 0 <= k < |log| :: from <= log[k].at < to <==> a <= k < a + AdmittedIn(log, from, to)
  {
    if log == [] {
      a := 0;
    } else {
      var prefix, last := log[..|log|-1], log[|log|-1];
      a := Consecutive(prefix, from, to);
      assert forall k | 0 <= k < |prefix| :: prefix[k] == log[k];
      var end := a + AdmittedIn(prefix, from, to);
      if from <= last.at < to {
        if end == a {
          a := |prefix|;
        } else {
          assert from <= log[end - 1].at;
          assert end == |prefix|;
        }
      }
    }
  }

  lemma {:induction false} SpreadRate(r: Rate, skew: nat, log: seq<Call>, from: int, len: int)
    requires forall j, k | 0 <= j < k < |log| :: log[j].at <= log[k].at
    requires Spread(r, skew, log) && len <= r.window - 2 * skew
    ensures AdmittedIn(log, from, from + len) <= r.limit
  {
    var a := Consecutive(log, from, from + len);
    assert a + r.limit < |log| ==> log[a + r.limit].at - log[a].at >= r.window - 2 * skew;
  }

  /** If every clock is within `skew` of the node's, no stretch of node time as long as
      `window - 2 * skew`, or shorter, sees more than `limit` admissions, over any run with key
      expiry. With one clock this is the exact half-open window. */
  lemma {:induction false} RateUnderSkew(r: Rate, skew: nat, start: int, calls: seq<Call>, from: int, len: int)
    requires LegalRun(r, Fresh(start), calls) && Near(skew, calls) && len <= r.window - 2 * skew
    ensures AdmittedIn(Run(r, Fresh(start), calls).log, from, from + len) <= r.limit
  {
    if len > 0 {
      RunSpread(r, skew, start, calls);
      SpreadRate(r, skew, Run(r, Fresh(start), calls).log, from, len);
    } else {
      NothingIn(Run(r, Fresh(start), calls).log, from, from + len);
    }
  }

  lemma {:induction false} NothingIn(log: seq<Call>, from: int, to: int)
    requires to <= from
    ensures AdmittedIn(log, from, to) == 0
  {
    if log != [] {
      NothingIn(log[..|log|-1], from, to);
    }
  }

  lemma {:induction false} OneMoreIn(log: seq<Call>, c: Call, from: int, to: int)
    ensures AdmittedIn(log + [c], from, to) == AdmittedIn(log, from, to) + if from <= c.at < to then 1 else 0
  {
    assert (log + [c])[..|log|] == log;
  }

  lemma {:induction false} BurstIn(skew: nat, m: nat, to: int)
    requires skew < to
    ensures AdmittedIn(Burst(skew, 0, m), skew, to) == m && Near(skew, Burst(skew, 0, m))
  {
    if m > 0 {
      BurstIn(skew, m - 1, to);
      OneMoreIn(Burst(skew, 0, m - 1), Call(skew, 0, Name(m - 1)), skew, to);
    }
  }

  lemma {:induction false} CrowdedStretch(skew: nat, m: nat, late: Call, len: int)
    requires skew <= late.at < skew + len && late.at - skew <= late.now <= late.at + skew
    ensures var calls := Burst(skew, 0, m) + [late];
      Near(skew, calls) && AdmittedIn(calls, skew, skew + len) == m + 1
  {
    var burst := Burst(skew, 0, m);
    BurstIn(skew, m, skew + len);
    OneMoreIn(burst, late, skew, skew + len);
    assert forall c <- burst + [late] :: c in burst || c == late;
  }

  /** The limit is spent by callers that are `skew` behind; the next one, `skew` ahead, sees the
      window gone by already. */
  lemma {:induction false} RateExceeded(r: Rate, skew: nat, len: int) returns (calls: seq<Call>)
    requires r.limit > 0 && r.window > 0 && len > 0 && len > r.window - 2 * skew
    ensures LegalRun(r, Fresh(skew), calls) && Near(skew, calls)
    ensures AdmittedIn(Run(r, Fresh(skew), calls).log, skew, skew + len) == r.limit + 1
  {
    var later := if r.window > 2 * skew then r.window - skew else skew;
    var late := Call(later, r.window, Name(r.limit));
    calls := Burst(skew, 0, r.limit) + [late];
    AfterBurst(r, skew, 0, r.limit, late, calls);
    CrowdedStretch(skew, r.limit, late, len);
  }

  predicate WithinRate(r: Rate, log: seq<Call>, from: int, len: int) {
    AdmittedIn(log, from, from + len) <= r.limit
  }

  /** No stretch of `len` milliseconds of node time ever has more than `limit` admissions. */
  ghost predicate RateHolds(r: Rate, skew: nat, len: int) {
    forall start, calls, from :: LegalRun(r, Fresh(start), calls) && Near(skew, calls) ==>
      WithinRate(r, Run(r, Fresh(start), calls).log, from, len)
  }

  /** `window - 2 * skew` is exact: it is the longest stretch over which the rate is kept. The
      window itself is kept if and only if all clocks agree with the node's. */
  lemma {:induction false} RateIsExact(r: Rate, skew: nat, len: int)
    requires r.limit > 0 && r.window > 0
    ensures RateHolds(r, skew, len) <==> len <= 0 || len <= r.window - 2 * skew
  {
    if len <= 0 || len <= r.window - 2 * skew {
      forall start, calls, from | LegalRun(r, Fresh(start), calls) && Near(skew, calls)
        ensures WithinRate(r, Run(r, Fresh(start), calls).log, from, len)
      {
        if len <= 0 {
          NothingIn(Run(r, Fresh(start), calls).log, from, from + len);
        } else {
          RateUnderSkew(r, skew, start, calls, from, len);
        }
      }
    } else {
      var calls := RateExceeded(r, skew, len);
      assert !WithinRate(r, Run(r, Fresh(skew), calls).log, skew, len);
    }
  }
}
