/** The pruned, expiring set answers like a log that is never pruned and never expires. */
module RateLimitLog {
  import opened Options
  import opened RateLimitModel

  /** How many admissions in the whole log are stamped after `lo`. */
  function CountAfter(log: seq<Call>, lo: int): nat {
    if log == [] then 0
    else CountAfter(log[..|log|-1], lo) + if log[|log|-1].now > lo then 1 else 0
  }

  /** The rule a reader would write down: fewer than `limit` admissions newer than the window. */
  function LogAnswer(r: Rate, log: seq<Call>, now: int): Answer {
    var count := CountAfter(log, now - r.window);
    if count < r.limit then Answer(true, r.limit - count - 1) else Answer(false, 0)
  }

  /** A limiter that keeps every admission and forgets nothing. */
  datatype Ledger = Ledger(log: seq<Call>, answers: seq<Answer>)

  function KeepOn(r: Rate, ledger: Ledger, calls: seq<Call>): Ledger {
    if calls == [] then ledger
    else
      var before, c := KeepOn(r, ledger, calls[..|calls|-1]), calls[|calls|-1];
      var answer := LogAnswer(r, before.log, c.now);
      Ledger(if answer.allowed then before.log + [c] else before.log, before.answers + [answer])
  }

  function Keep(r: Rate, calls: seq<Call>): Ledger {
    KeepOn(r, Ledger([], []), calls)
  }

  function Recent(log: seq<Call>, lo: int): map<Member, int> {
    if log == [] then map[]
    else
      var before, last := Recent(log[..|log|-1], lo), log[|log|-1];
      if last.now > lo then before[last.member := last.now] else before
  }

  ghost predicate Distinct(log: seq<Call>) {
    forall j, k | 0 <= j < k < |log| :: log[j].member != log[k].member
  }

  ghost predicate Logged(log: seq<Call>, m: Member, score: int) {
    exists k :: 0 <= k < |log| && log[k].member == m && log[k].now == score
  }

  lemma {:induction false} LoggedLonger(log: seq<Call>, c: Call)
    ensures forall m, score :: Logged(log, m, score) ==> Logged(log + [c], m, score)
    ensures Logged(log + [c], c.member, c.now)
  {
    var log' := log + [c];
    assert log'[|log|] == c && forall k | 0 <= k < |log| :: log'[k] == log[k];
    forall m, score | Logged(log, m, score) ensures Logged(log', m, score) {
      var k :| 0 <= k < |log| && log[k].member == m && log[k].now == score;
      assert log'[k].member == m;
    }
  }

  lemma {:induction false} RecentIsLogged(log: seq<Call>, lo: int)
    ensures forall m :: m in Recent(log, lo) ==>
      Logged(log, m, Recent(log, lo)[m]) && Recent(log, lo)[m] > lo
  {
    if log != [] {
      RecentIsLogged(log[..|log|-1], lo);
      LoggedLonger(log[..|log|-1], log[|log|-1]);
      assert log == log[..|log|-1] + [log[|log|-1]];
    }
  }

  lemma {:induction false} RecentIsCounted(log: seq<Call>, lo: int)
    requires Distinct(log)
    ensures |Recent(log, lo)| == CountAfter(log, lo)
    ensures forall k | 0 <= k < |log| && log[k].now > lo ::
      log[k].member in Recent(log, lo) && Recent(log, lo)[log[k].member] == log[k].now
  {
    if log != [] {
      var prefix, last := log[..|log|-1], log[|log|-1];
      RecentIsCounted(prefix, lo);
      RecentIsLogged(prefix, lo);
      assert forall k | 0 <= k < |prefix| :: prefix[k] == log[k];
      assert last.member !in Recent(prefix, lo);
    }
  }

  /** The set lies between the recent part of the log and the whole log. */
  ghost predicate Faithful(r: Rate, skew: int, l: Limiter) {
    && Distinct(l.log)
    && (forall m :: m in l.z.scores ==> Logged(l.log, m, l.z.scores[m]))
    && (forall k | 0 <= k < |l.log| ::
          && 0 <= l.log[k].now <= l.log[k].at + skew && l.log[k].at <= l.at
          && (l.log[k].now > l.now - r.window ==> Covered(r, l.z, l.log[k])))
  }

  /** One call at a time the clocks allow: timestamps do not decrease, and the caller is within
      `skew` of the node. */
  ghost predicate OnTime(skew: int, l: Limiter, c: Call) {
    l.now <= c.now && c.at - skew <= c.now <= c.at + skew
  }

  lemma {:induction false} CoveredIsKept(r: Rate, skew: int, z: Window, c: Call, e: Call)
    requires Covered(r, z, e) && e.now <= e.at + skew && e.now > c.now - r.window
    requires c.at - skew <= c.now && 2 * skew <= 1000
    ensures var kept := RemoveRange(Alive(z, c.at), c.now - r.window);
      e.member in kept && kept[e.member] == e.now
  {
  }

  lemma {:induction false} PrunedIsRecent(r: Rate, skew: int, l: Limiter, c: Call)
    requires Faithful(r, skew, l) && Legal(l, c) && OnTime(skew, l, c) && 2 * skew <= 1000
    ensures RemoveRange(Alive(l.z, c.at), c.now - r.window) == Recent(l.log, c.now - r.window)
  {
    var lo := c.now - r.window;
    var kept, recent := RemoveRange(Alive(l.z, c.at), lo), Recent(l.log, lo);
    forall m | m in recent ensures m in kept && kept[m] == recent[m] {
      RecentIsLogged(l.log, lo);
      var k :| 0 <= k < |l.log| && l.log[k].member == m && l.log[k].now == recent[m];
      CoveredIsKept(r, skew, l.z, c, l.log[k]);
    }
    forall m | m in kept ensures m in recent {
      assert Logged(l.log, m, l.z.scores[m]);
      var k :| 0 <= k < |l.log| && l.log[k].member == m && l.log[k].now == l.z.scores[m];
      RecentIsCounted(l.log, lo);
    }
  }

  lemma {:induction false} RejectCovered(r: Rate, skew: int, l: Limiter, c: Call, z: Window, k: nat)
    requires Faithful(r, skew, l) && l.now <= c.now && k < |l.log| && l.log[k].now > c.now - r.window
    requires z.scores == Recent(l.log, c.now - r.window)
    requires z.expireAt == if z.scores == map[] then None else l.z.expireAt
    ensures Covered(r, z, l.log[k])
  {
    RecentIsCounted(l.log, c.now - r.window);
    assert Covered(r, l.z, l.log[k]);
  }

  lemma {:induction false} RejectFaithful(r: Rate, skew: int, l: Limiter, c: Call, l': Limiter)
    requires Faithful(r, skew, l) && Legal(l, c) && OnTime(skew, l, c)
    requires l'.log == l.log && l'.now == c.now && l'.at == c.at
    requires l'.z.scores == Recent(l.log, c.now - r.window)
    requires l'.z.expireAt == if l'.z.scores == map[] then None else l.z.expireAt
    ensures Faithful(r, skew, l')
  {
    RecentIsLogged(l.log, c.now - r.window);
    forall k | 0 <= k < |l.log| && l.log[k].now > c.now - r.window
      ensures Covered(r, l'.z, l.log[k])
    {
      RejectCovered(r, skew, l, c, l'.z, k);
    }
  }

  lemma {:induction false} AdmitLogged(r: Rate, skew: int, l: Limiter, c: Call, l': Limiter)
    requires Faithful(r, skew, l) && l'.log == l.log + [c]
    requires l'.z.scores == Recent(l.log, c.now - r.window)[c.member := c.now]
    ensures forall m :: m in l'.z.scores ==> Logged(l'.log, m, l'.z.scores[m])
  {
    var recent := Recent(l.log, c.now - r.window);
    RecentIsLogged(l.log, c.now - r.window);
    LoggedLonger(l.log, c);
    forall m | m in l'.z.scores ensures Logged(l'.log, m, l'.z.scores[m]) {
      if m != c.member {
        assert m in recent && Logged(l.log, m, recent[m]);
      }
    }
  }

  lemma {:induction false} AdmitCovered(r: Rate, skew: int, l: Limiter, c: Call, l': Limiter, k: nat)
    requires Faithful(r, skew, l) && l.at <= c.at && Unused(l.log, c.member) && k < |l'.log|
    requires l'.log == l.log + [c] && l'.log[k].now > c.now - r.window
    requires l'.z.scores == Recent(l.log, c.now - r.window)[c.member := c.now]
    requires l'.z.expireAt.Some? && l'.z.expireAt.value >= c.at + r.window + 1000
    ensures Covered(r, l'.z, l'.log[k])
  {
    if k < |l.log| {
      RecentIsCounted(l.log, c.now - r.window);
      assert l'.log[k] == l.log[k];
    }
  }

  lemma {:induction false} AdmitFaithful(r: Rate, skew: int, l: Limiter, c: Call, l': Limiter)
    requires Faithful(r, skew, l) && Legal(l, c) && OnTime(skew, l, c)
    requires l'.log == l.log + [c] && l'.now == c.now && l'.at == c.at
    requires l'.z.scores == Recent(l.log, c.now - r.window)[c.member := c.now]
    requires l'.z.expireAt.Some? && l'.z.expireAt.value >= c.at + r.window + 1000
    ensures Faithful(r, skew, l')
  {
    AdmitLogged(r, skew, l, c, l');
    forall k | 0 <= k < |l'.log| && l'.log[k].now > c.now - r.window
      ensures Covered(r, l'.z, l'.log[k])
    {
      AdmitCovered(r, skew, l, c, l', k);
    }
  }

  lemma {:induction false} AnswerAgrees(r: Rate, skew: int, l: Limiter, c: Call)
    requires Faithful(r, skew, l) && Legal(l, c) && OnTime(skew, l, c) && 2 * skew <= 1000
    ensures Script(r, l.z, c.at, c.now, c.member).1 == LogAnswer(r, l.log, c.now)
  {
    PrunedIsRecent(r, skew, l, c);
    RecentIsCounted(l.log, c.now - r.window);
  }

  lemma {:induction false} StepFaithful(r: Rate, skew: int, l: Limiter, c: Call)
    requires Faithful(r, skew, l) && Legal(l, c) && OnTime(skew, l, c) && 2 * skew <= 1000
    ensures Faithful(r, skew, Step(r, l, c))
  {
    var kept := Recent(l.log, c.now - r.window);
    PrunedIsRecent(r, skew, l, c);
    StepShape(r, l, c, kept);
    if |kept| < r.limit {
      AdmitFaithful(r, skew, l, c, Step(r, l, c));
    } else {
      RejectFaithful(r, skew, l, c, Step(r, l, c));
    }
  }

  /** Every call of the run is on time for the state it finds. */
  ghost predicate AllOnTime(r: Rate, skew: int, start: int, calls: seq<Call>) {
    calls == [] ||
    (AllOnTime(r, skew, start, calls[..|calls|-1]) &&
     OnTime(skew, Run(r, Fresh(start), calls[..|calls|-1]), calls[|calls|-1]))
  }

  lemma {:induction false} OnTimeOneMore(r: Rate, skew: int, start: int, calls: seq<Call>, c: Call)
    ensures AllOnTime(r, skew, start, calls + [c]) <==>
      AllOnTime(r, skew, start, calls) && OnTime(skew, Run(r, Fresh(start), calls), c)
  {
    assert (calls + [c])[..|calls|] == calls;
  }

  /** Refinement. If timestamps do not decrease and no caller's clock is more than half a second
      away from the node's (0 for a single clock), then over any run, key expiry included, every
      decision and every remaining count is the one the ledger gives. */
  lemma {:induction false} SetRefinesLedger(r: Rate, skew: int, start: int, calls: seq<Call>)
    requires LegalRun(r, Fresh(start), calls) && AllOnTime(r, skew, start, calls) && 2 * skew <= 1000
    ensures var l := Run(r, Fresh(start), calls);
      && l.answers == Keep(r, calls).answers && l.log == Keep(r, calls).log
      && Faithful(r, skew, l)
  {
    if calls != [] {
      SetRefinesLedger(r, skew, start, calls[..|calls|-1]);
      var l, c := Run(r, Fresh(start), calls[..|calls|-1]), calls[|calls|-1];
      StepFaithful(r, skew, l, c);
      AnswerAgrees(r, skew, l, c);
    }
  }

  ghost predicate AnswersAsLedger(r: Rate, skew: int) {
    forall start, calls :: LegalRun(r, Fresh(start), calls) && AllOnTime(r, skew, start, calls) ==>
      Run(r, Fresh(start), calls).answers == Keep(r, calls).answers
  }

  predicate EarlyExpiry(r: Rate, a: Call, b: Call) {
    && r.limit > 0 && r.window % 1000 == 0 && a.member != b.member
    && (a.at, a.now) == (0, 501) && (b.at, b.now) == (r.window + 1000, r.window + 499)
  }

  lemma {:induction false} EarlyExpirySet(r: Rate, a: Call, b: Call)
    requires EarlyExpiry(r, a, b)
    ensures var l1 := Step(r, Fresh(0), a); var l2 := Step(r, l1, b);
      && l1.log == [a] && l1.now == 501 && l1.at == 0
      && l2.answers == [Answer(true, r.limit - 1), Answer(true, r.limit - 1)]
  {
    var none: map<Member, int> := map[];
    assert RemoveRange(none, 501 - r.window) == none && RemoveRange(none, 499) == none;
    var l1 := Step(r, Fresh(0), a);
    assert Lifetime(r.window) == r.window + 1000;
    assert l1.z == Window(map[a.member := 501], Some(r.window + 1000)) && l1.log == [a];
    assert Alive(l1.z, b.at) == none;
  }

  lemma {:induction false} EarlyExpiryLedger(r: Rate, a: Call, b: Call)
    requires EarlyExpiry(r, a, b)
    ensures var answers := Keep(r, [] + [a] + [b]).answers;
      |answers| == 2 && answers[1] != Answer(true, r.limit - 1)
  {
    KeepOneMore(r, [], a);
    KeepOneMore(r, [] + [a], b);
    CountOneMore([], a, 499);
  }

  /** A caller 501 ms ahead is admitted; a caller 501 ms behind comes when the key has just
      expired, although by its own clock the admission still counts. */
  lemma {:induction false} KeyExpiresEarly(r: Rate, skew: int) returns (calls: seq<Call>)
    requires r.limit > 0 && r.window % 1000 == 0 && skew > 500
    ensures LegalRun(r, Fresh(0), calls) && Near(skew, calls)
    ensures r.window > 0 ==> AllOnTime(r, skew, 0, calls)
    ensures Run(r, Fresh(0), calls).answers != Keep(r, calls).answers
  {
    var a, b := Call(0, 501, "a"), Call(r.window + 1000, r.window + 499, "b");
    calls := [] + [a] + [b];
    EarlyExpirySet(r, a, b);
    EarlyExpiryLedger(r, a, b);
    RunOneMore(r, Fresh(0), [], a);
    RunOneMore(r, Fresh(0), [] + [a], b);
    OnTimeOneMore(r, skew, 0, [], a);
    OnTimeOneMore(r, skew, 0, [] + [a], b);
  }

  /** Half a second is exact: whole-second windows keep every answer of the ledger if and only if
      the clocks are guaranteed to be within 500 ms of the node's. */
  lemma {:induction false} HalfASecondIsExact(r: Rate, skew: int)
    requires r.limit > 0 && r.window > 0 && r.window % 1000 == 0
    ensures AnswersAsLedger(r, skew) <==> 2 * skew <= 1000
  {
    if 2 * skew <= 1000 {
      forall start, calls | LegalRun(r, Fresh(start), calls) && AllOnTime(r, skew, start, calls)
        ensures Run(r, Fresh(start), calls).answers == Keep(r, calls).answers
      {
        SetRefinesLedger(r, skew, start, calls);
      }
    } else {
      var calls := KeyExpiresEarly(r, skew);
    }
  }

  lemma {:induction false} KeepOneMore(r: Rate, calls: seq<Call>, c: Call)
    ensures var before, after := Keep(r, calls), Keep(r, calls + [c]);
      var answer := LogAnswer(r, before.log, c.now);
      after.answers == before.answers + [answer] &&
      after.log == if answer.allowed then before.log + [c] else before.log
  {
    assert (calls + [c])[..|calls|] == calls;
  }

  lemma {:induction false} CountOneMore(log: seq<Call>, c: Call, lo: int)
    ensures CountAfter(log + [c], lo) == CountAfter(log, lo) + if c.now > lo then 1 else 0
  {
    assert (log + [c])[..|log|] == log;
  }
}
