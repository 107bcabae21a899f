/**
 What a caller can conclude from an answer: how many more calls will pass, or when to retry.
 Nothing here depends on the clocks: the runs before the answer are arbitrary.
 */
module RateLimitRetry {
  import opened Options
  import opened RateLimitModel
  import opened RateLimitLog

  function Last(answers: seq<Answer>): Answer {
    if answers == [] then Answer(false, 0) else answers[|answers|-1]
  }

  /** The set holds admissions and nothing else. */
  ghost predicate Tidy(r: Rate, l: Limiter) {
    && |l.z.scores| <= r.limit && (l.z.scores != map[] ==> l.z.expireAt.Some?)
    && forall m | m in l.z.scores :: !Unused(l.log, m) && 0 <= l.z.scores[m]
  }

  lemma {:induction false} RunTidy(r: Rate, start: int, calls: seq<Call>)
    requires LegalRun(r, Fresh(start), calls)
    ensures Tidy(r, Run(r, Fresh(start), calls))
  {
    SetWithinLimit(r, start, calls);
    if calls != [] {
      RunTidy(r, start, calls[..|calls|-1]);
      UnusedShorter(Run(r, Fresh(start), calls[..|calls|-1]).log, calls[|calls|-1]);
    }
  }

  lemma {:induction false} UnusedShorter(log: seq<Call>, c: Call)
    ensures forall m :: Unused(log + [c], m) <==> Unused(log, m) && m != c.member
  {
    forall m ensures Unused(log + [c], m) <==> Unused(log, m) && m != c.member {
      assert (log + [c])[|log|] == c;
      if Unused(log + [c], m) {
        assert forall k | 0 <= k < |log| :: log[k] == (log + [c])[k];
      }
    }
  }

  lemma {:induction false} RunSplit(r: Rate, l: Limiter, calls: seq<Call>, more: seq<Call>)
    ensures Run(r, l, calls + more) == Run(r, Run(r, l, calls), more)
    ensures LegalRun(r, l, calls + more) <==> LegalRun(r, l, calls) && LegalRun(r, Run(r, l, calls), more)
  {
    if more == [] {
      assert calls + more == calls;
    } else {
      assert (calls + more)[..|calls + more|-1] == calls + more[..|more|-1];
      RunSplit(r, l, calls, more[..|more|-1]);
    }
  }

  // After an admission

  /** At the caller's time `now` and up to the node's time `until`, `m` places are free. */
  ghost predicate Places(r: Rate, l: Limiter, now: int, until: int, m: nat) {
    && m < r.limit && |l.z.scores| == r.limit - m
    && RemoveRange(l.z.scores, now - r.window) == l.z.scores
    && l.z.expireAt.Some? && until <= l.z.expireAt.value && until <= l.at + Lifetime(r.window)
    && forall k | k in l.z.scores :: !Unused(l.log, k)
  }

  lemma {:induction false} PrunedAlready(scores: map<Member, int>, lo: int, m: Member, score: int)
    requires score > lo
    ensures var kept := RemoveRange(scores, lo); RemoveRange(kept[m := score], lo) == kept[m := score]
  {
  }

  lemma {:induction false} PlacesAfter(r: Rate, l: Limiter, c: Call, kept: map<Member, int>, l': Limiter)
    requires |kept| < r.limit && c.member !in kept && forall k | k in kept :: !Unused(l.log, k)
    requires l'.log == l.log + [c] && l'.at == c.at
    requires l'.z == Window(kept[c.member := c.now], Some(c.at + Lifetime(r.window)))
    requires RemoveRange(kept[c.member := c.now], c.now - r.window) == kept[c.member := c.now]
    ensures Places(r, l', c.now, c.at + Lifetime(r.window), r.limit - |kept| - 1)
  {
    OneMember(kept, c.member, c.now);
    UnusedShorter(l.log, c);
  }

  lemma {:induction false} AdmissionLeaves(r: Rate, l: Limiter, c: Call)
    requires r.window > 0 && Tidy(r, l) && Legal(l, c) && Script(r, l.z, c.at, c.now, c.member).1.allowed
    ensures var m := Script(r, l.z, c.at, c.now, c.member).1.remaining;
      m >= 0 && Places(r, Step(r, l, c), c.now, c.at + Lifetime(r.window), m)
  {
    var kept := RemoveRange(Alive(l.z, c.at), c.now - r.window);
    assert kept.Keys <= l.z.scores.Keys;
    StepShape(r, l, c, kept);
    PrunedAlready(Alive(l.z, c.at), c.now - r.window, c.member, c.now);
    PlacesAfter(r, l, c, kept, Step(r, l, c));
  }

  lemma {:induction false} PlaceTaken(r: Rate, l: Limiter, c: Call, until: int, m: nat)
    requires r.window > 0 && Places(r, l, c.now, until, m) && Legal(l, c) && c.at < until
    ensures Script(r, l.z, c.at, c.now, c.member).1 == if m > 0 then Answer(true, m - 1) else Answer(false, 0)
    ensures Places(r, Step(r, l, c), c.now, until, if m > 0 then m - 1 else 0)
  {
    assert RemoveRange(Alive(l.z, c.at), c.now - r.window) == l.z.scores;
    StepShape(r, l, c, l.z.scores);
    if m > 0 {
      assert c.member !in l.z.scores;
      OneMember(l.z.scores, c.member, c.now);
      UnusedShorter(l.log, c);
    } else {
      assert l.z.scores != map[];
    }
  }

  /** Places still free after `calls` calls, `m` having been free before. */
  function Left(m: nat, calls: nat): nat {
    if calls <= m then m - calls else 0
  }

  lemma {:induction false} PlacesTaken(r: Rate, l: Limiter, now: int, until: int, m: nat, more: seq<Call>)
    requires r.window > 0 && Places(r, l, now, until, m) && LegalRun(r, l, more)
    requires forall k | 0 <= k < |more| :: more[k].now == now && more[k].at < until
    ensures var l' := Run(r, l, more);
      && Places(r, l', now, until, Left(m, |more|))
      && (more != [] ==>
            Last(l'.answers) == if |more| <= m then Answer(true, m - |more|) else Answer(false, 0))
  {
    if more != [] {
      var more0, c := more[..|more|-1], more[|more|-1];
      PlacesTaken(r, l, now, until, m, more0);
      PlaceTaken(r, Run(r, l, more0), c, until, Left(m, |more0|));
    }
  }

  /** After an answer with `m` calls remaining, the calls of the same instant go through one by
      one until just `m` have, each told how many are left, and then no more. The node may take
      the whole lifetime of the key to serve them. */
  lemma {:induction false} RemainingIsExact(r: Rate, start: int, calls: seq<Call>, more: seq<Call>)
    requires r.window > 0 && calls != [] && more != [] && LegalRun(r, Fresh(start), calls + more)
    requires Last(Run(r, Fresh(start), calls).answers).allowed
    requires forall k | 0 <= k < |more| ::
      && more[k].now == calls[|calls|-1].now
      && more[k].at < calls[|calls|-1].at + Lifetime(r.window)
    ensures var m := Last(Run(r, Fresh(start), calls).answers).remaining;
      && m >= 0
      && Last(Run(r, Fresh(start), calls + more).answers) ==
           if |more| <= m then Answer(true, m - |more|) else Answer(false, 0)
  {
    var calls0, c := calls[..|calls|-1], calls[|calls|-1];
    RunSplit(r, Fresh(start), calls, more);
    RunTidy(r, start, calls0);
    AdmissionLeaves(r, Run(r, Fresh(start), calls0), c);
    var m := Last(Run(r, Fresh(start), calls).answers).remaining;
    PlacesTaken(r, Run(r, Fresh(start), calls), c.now, c.at + Lifetime(r.window), m, more);
  }

  // After a refusal

  ghost predicate OldestScore(z: Window, oldest: int) {
    (exists m :: m in z.scores && z.scores[m] == oldest) &&
    forall m | m in z.scores :: z.scores[m] >= oldest
  }

  /** All places are taken, the longest of them since `oldest`. */
  ghost predicate Full(r: Rate, l: Limiter, oldest: int) {
    Tidy(r, l) && |l.z.scores| == r.limit && OldestScore(l.z, oldest)
  }

  lemma {:induction false} RefusalIsFull(r: Rate, l: Limiter, c: Call)
    requires Tidy(r, l) && Tidy(r, Step(r, l, c)) && !Script(r, l.z, c.at, c.now, c.member).1.allowed
    ensures |Step(r, l, c).z.scores| == r.limit
  {
  }

  lemma {:induction false} FewerLeft(scores: map<Member, int>, hi: int, m: Member)
    requires m in scores && 0 <= scores[m] <= hi
    ensures |RemoveRange(scores, hi)| < |scores|
  {
    SubmapIsSmaller(RemoveRange(scores, hi), scores - {m});
    assert scores.Keys == (scores - {m}).Keys + {m};
    assert |scores| == |scores.Keys| && |scores - {m}| == |(scores - {m}).Keys|;
  }

  /** Room opens up when the oldest admission is a window old or the key expires. */
  lemma {:induction false} RoomFrom(r: Rate, l: Limiter, c: Call, oldest: int)
    requires Full(r, l, oldest)
    ensures Script(r, l.z, c.at, c.now, c.member).1.allowed <==>
      c.now >= oldest + r.window || c.at >= l.z.expireAt.value
    ensures c.now < oldest + r.window && c.at < l.z.expireAt.value ==> Step(r, l, c).z == l.z
  {
    var m :| m in l.z.scores && l.z.scores[m] == oldest;
    if c.at >= l.z.expireAt.value {
      assert RemoveRange(Alive(l.z, c.at), c.now - r.window) == map[];
      SubmapIsSmaller(map[m := oldest], l.z.scores);
    } else if c.now >= oldest + r.window {
      FewerLeft(l.z.scores, c.now - r.window, m);
    } else {
      assert RemoveRange(l.z.scores, c.now - r.window) == l.z.scores;
    }
  }

  lemma {:induction false} Waiting(r: Rate, l: Limiter, oldest: int, more: seq<Call>)
    requires Full(r, l, oldest) && LegalRun(r, l, more)
    requires forall k | 0 <= k < |more| :: more[k].now < oldest + r.window && more[k].at < l.z.expireAt.value
    ensures Run(r, l, more).z == l.z && Run(r, l, more).log == l.log
    ensures more != [] ==> !Last(Run(r, l, more).answers).allowed
  {
    if more != [] {
      Waiting(r, l, oldest, more[..|more|-1]);
      RoomFrom(r, Run(r, l, more[..|more|-1]), more[|more|-1], oldest);
    }
  }

  /** Retries from a full set, all but the last of them too early. */
  lemma {:induction false} FirstInTime(r: Rate, l: Limiter, oldest: int, more: seq<Call>)
    requires Full(r, l, oldest) && LegalRun(r, l, more) && more != []
    requires forall k | 0 <= k < |more| - 1 ::
      more[k].now < oldest + r.window && more[k].at < l.z.expireAt.value
    ensures Last(Run(r, l, more).answers).allowed <==>
      more[|more|-1].now >= oldest + r.window || more[|more|-1].at >= l.z.expireAt.value
  {
    var more0 := more[..|more|-1];
    assert forall k | 0 <= k < |more0| :: more0[k] == more[k];
    Waiting(r, l, oldest, more0);
    RoomFrom(r, Run(r, l, more0), more[|more|-1], oldest);
  }

  lemma {:induction false} RefusedIsFull(r: Rate, start: int, calls: seq<Call>, oldest: int)
    requires calls != [] && LegalRun(r, Fresh(start), calls)
    requires !Last(Run(r, Fresh(start), calls).answers).allowed
    requires OldestScore(Run(r, Fresh(start), calls).z, oldest)
    ensures Full(r, Run(r, Fresh(start), calls), oldest)
  {
    RunTidy(r, start, calls[..|calls|-1]);
    RunTidy(r, start, calls);
    RefusalIsFull(r, Run(r, Fresh(start), calls[..|calls|-1]), calls[|calls|-1]);
  }

  /** After a refusal, every retry made before the oldest admission in the set is a window old is
      refused, however many there are and in whatever order, and the first one made from then on
      is admitted. Only the expiry of the key may let one in earlier. */
  lemma {:induction false} RetryTime(r: Rate, start: int, calls: seq<Call>, more: seq<Call>, oldest: int, expiry: int)
    requires calls != [] && more != [] && LegalRun(r, Fresh(start), calls + more)
    requires !Last(Run(r, Fresh(start), calls).answers).allowed
    requires OldestScore(Run(r, Fresh(start), calls).z, oldest)
    requires Run(r, Fresh(start), calls).z.expireAt == Some(expiry)
    requires forall k | 0 <= k < |more| - 1 :: more[k].now < oldest + r.window && more[k].at < expiry
    ensures Last(Run(r, Fresh(start), calls + more).answers).allowed <==>
      more[|more|-1].now >= oldest + r.window || more[|more|-1].at >= expiry
  {
    RunSplit(r, Fresh(start), calls, more);
    RefusedIsFull(r, start, calls, oldest);
    FirstInTime(r, Run(r, Fresh(start), calls), oldest, more);
  }

  // With clocks within half a second of the node's, expiry never comes first

  /** `oldest` is the earliest admission of the log stamped after `lo`. */
  ghost predicate Oldest(log: seq<Call>, lo: int, oldest: int) {
    && (exists k :: 0 <= k < |log| && log[k].now == oldest)
    && oldest > lo
    && (forall k | 0 <= k < |log| && log[k].now > lo :: log[k].now >= oldest)
  }

  /** What is left after a refusal is newer than the window. */
  lemma {:induction false} RefusedSetIsRecent(r: Rate, l: Limiter, c: Call)
    requires Tidy(r, l) && Legal(l, c) && !Script(r, l.z, c.at, c.now, c.member).1.allowed
    ensures forall m | m in Step(r, l, c).z.scores :: Step(r, l, c).z.scores[m] > c.now - r.window
  {
  }

  lemma {:induction false} OldestInSet(r: Rate, l: Limiter, oldest: int)
    requires Faithful(r, 500, l) && Oldest(l.log, l.now - r.window, oldest)
    requires forall m | m in l.z.scores :: l.z.scores[m] > l.now - r.window
    ensures OldestScore(l.z, oldest)
    ensures l.z.expireAt.Some? && l.z.expireAt.value >= oldest + r.window + 500
  {
    var k :| 0 <= k < |l.log| && l.log[k].now == oldest;
    assert Covered(r, l.z, l.log[k]);
    forall m | m in l.z.scores ensures l.z.scores[m] >= oldest {
      assert Logged(l.log, m, l.z.scores[m]);
    }
  }

  lemma {:induction false} OnTimePrefix(r: Rate, start: int, calls: seq<Call>, more: seq<Call>)
    requires AllOnTime(r, 500, start, calls + more)
    ensures AllOnTime(r, 500, start, calls)
  {
    if more == [] {
      assert calls + more == calls;
    } else {
      var more0, c := more[..|more|-1], more[|more|-1];
      assert calls + more == (calls + more0) + [c];
      OnTimeOneMore(r, 500, start, calls + more0, c);
      OnTimePrefix(r, start, calls, more0);
    }
  }

  lemma {:induction false} NobodyFarBehind(r: Rate, start: int, calls: seq<Call>)
    requires AllOnTime(r, 500, start, calls)
    ensures forall k | 0 <= k < |calls| :: calls[k].at - 500 <= calls[k].now
  {
    if calls != [] {
      NobodyFarBehind(r, start, calls[..|calls|-1]);
    }
  }

  /** If timestamps do not decrease and clocks are within half a second, a retry is admitted
      exactly when the oldest admission that counted against the refusal is a window old. */
  lemma {:induction false} RetryTimeInOrder(r: Rate, start: int, calls: seq<Call>, more: seq<Call>, oldest: int)
    requires calls != [] && more != [] && LegalRun(r, Fresh(start), calls + more)
    requires AllOnTime(r, 500, start, calls + more)
    requires !Last(Run(r, Fresh(start), calls).answers).allowed
    requires Oldest(Run(r, Fresh(start), calls).log, calls[|calls|-1].now - r.window, oldest)
    requires forall k | 0 <= k < |more| - 1 :: more[k].now < oldest + r.window
    ensures Last(Run(r, Fresh(start), calls + more).answers).allowed <==>
      more[|more|-1].now >= oldest + r.window
  {
    RunSplit(r, Fresh(start), calls, more);
    OnTimePrefix(r, start, calls, more);
    NobodyFarBehind(r, start, calls + more);
    assert forall k | 0 <= k < |more| :: more[k] == (calls + more)[|calls| + k];
    SetRefinesLedger(r, 500, start, calls);
    RunTidy(r, start, calls[..|calls|-1]);
    RefusedSetIsRecent(r, Run(r, Fresh(start), calls[..|calls|-1]), calls[|calls|-1]);
    OldestInSet(r, Run(r, Fresh(start), calls), oldest);
    RetryTime(r, start, calls, more, oldest, Run(r, Fresh(start), calls).z.expireAt.value);
  }
}
