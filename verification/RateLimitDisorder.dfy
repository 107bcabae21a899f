/**
 What becomes of the agreement with the ledger when timestamps may arrive in any order, as they
 do when the callers' clocks differ at all.
 */
module RateLimitDisorder {
  import opened Options
  import opened RateLimitModel
  import opened RateLimitLog
  import opened RateLimitBurst

  // A limit of one

  /** With one place, the set is the last admission, and all others are a window older. */
  ghost predicate Single(r: Rate, skew: int, l: Limiter) {
    if l.log == [] then l.z == Window(map[], None)
    else
      var last := l.log[|l.log|-1];
      && l.z == Window(map[last.member := last.now], Some(last.at + Lifetime(r.window)))
      && 0 <= last.now <= last.at + skew
      && forall k | 0 <= k < |l.log| - 1 :: l.log[k].now <= last.now - r.window
  }

  lemma {:induction false} NoneAfter(log: seq<Call>, lo: int)
    requires forall k | 0 <= k < |log| :: log[k].now <= lo
    ensures CountAfter(log, lo) == 0
  {
    if log != [] {
      NoneAfter(log[..|log|-1], lo);
    }
  }

  lemma {:induction false} AllAfter(log: seq<Call>, lo: int)
    requires forall k | 0 <= k < |log| :: log[k].now > lo
    ensures CountAfter(log, lo) == |log|
  {
    if log != [] {
      AllAfter(log[..|log|-1], lo);
    }
  }

  /** While the last admission counts, the key is alive and everybody refuses. */
  lemma {:induction false} PlaceIsTaken(r: Rate, skew: int, l: Limiter, c: Call)
    requires r.limit == 1 && 2 * skew <= 1000 && Single(r, skew, l) && c.at - skew <= c.now
    requires l.log != [] && l.log[|l.log|-1].now > c.now - r.window
    ensures RemoveRange(Alive(l.z, c.at), c.now - r.window) == l.z.scores && |l.z.scores| == 1
    ensures LogAnswer(r, l.log, c.now) == Answer(false, 0)
  {
    LifetimeOutlastsWindow(r.window);
  }

  /** Once it does not, neither does any other. */
  lemma {:induction false} PlaceIsFree(r: Rate, skew: int, l: Limiter, c: Call)
    requires r.limit == 1 && Single(r, skew, l)
    requires l.log == [] || l.log[|l.log|-1].now <= c.now - r.window
    ensures RemoveRange(Alive(l.z, c.at), c.now - r.window) == map[]
    ensures forall k | 0 <= k < |l.log| :: l.log[k].now <= c.now - r.window
    ensures LogAnswer(r, l.log, c.now) == Answer(true, 0)
  {
    NoneAfter(l.log, c.now - r.window);
  }

  lemma {:induction false} SingleStep(r: Rate, skew: int, l: Limiter, c: Call)
    requires r.limit == 1 && 2 * skew <= 1000 && Single(r, skew, l) && Legal(l, c)
    requires c.at - skew <= c.now <= c.at + skew
    ensures Single(r, skew, Step(r, l, c))
    ensures Script(r, l.z, c.at, c.now, c.member).1 == LogAnswer(r, l.log, c.now)
  {
    if l.log != [] && l.log[|l.log|-1].now > c.now - r.window {
      PlaceIsTaken(r, skew, l, c);
      StepShape(r, l, c, l.z.scores);
    } else {
      PlaceIsFree(r, skew, l, c);
      StepShape(r, l, c, map[]);
    }
  }

  /** One place per window needs no order among the timestamps. */
  lemma {:induction false} SingleRun(r: Rate, skew: int, start: int, calls: seq<Call>)
    requires r.limit == 1 && 2 * skew <= 1000 && LegalRun(r, Fresh(start), calls) && Near(skew, calls)
    ensures var l := Run(r, Fresh(start), calls);
      Single(r, skew, l) && l.log == Keep(r, calls).log && l.answers == Keep(r, calls).answers
  {
    if calls != [] {
      var c := calls[|calls|-1];
      assert c in calls && forall x <- calls[..|calls|-1] :: x in calls;
      SingleRun(r, skew, start, calls[..|calls|-1]);
      SingleStep(r, skew, Run(r, Fresh(start), calls[..|calls|-1]), c);
    }
  }

  // One clock

  lemma {:induction false} OneClockIsOnTime(r: Rate, skew: int, start: int, calls: seq<Call>)
    requires skew <= 0 && LegalRun(r, Fresh(start), calls) && Near(skew, calls)
    ensures AllOnTime(r, 0, start, calls)
    ensures calls != [] ==> Run(r, Fresh(start), calls).now == Run(r, Fresh(start), calls).at
  {
    if calls != [] {
      var c := calls[|calls|-1];
      assert c in calls && forall x <- calls[..|calls|-1] :: x in calls;
      OneClockIsOnTime(r, skew, start, calls[..|calls|-1]);
    }
  }

  // Two clocks one millisecond apart

  /** All places are taken, all the callers having been in order, and all but the last admission
      have been pruned. */
  ghost predicate Pruned(r: Rate, ahead: seq<Call>, l: Limiter)
    requires r.limit > 0
  {
    && Near(0, ahead) && |ahead| == r.limit && l.log == ahead && l.at == r.window + 1
    && (forall k | 0 <= k < |ahead| :: 1 <= ahead[k].now && |ahead[k].member| < r.limit)
    && l.z == Window(map[Name(r.limit - 1) := r.window + 1], Some(r.window + 1 + Lifetime(r.window)))
  }

  lemma {:induction false} InOrder(m: nat, late: Call, ahead: seq<Call>)
    requires late.now == late.at >= 1 && |late.member| == m && ahead == Burst(1, 1, m) + [late]
    ensures |ahead| == m + 1 && Near(0, ahead)
      && forall k | 0 <= k < |ahead| :: 1 <= ahead[k].now && |ahead[k].member| <= m
  {
    BurstCalls(1, 1, m);
  }

  lemma {:induction false} FilledIsPruned(r: Rate, late: Call, ahead: seq<Call>, l: Limiter)
    requires r.limit > 1 && r.window > 0
    requires late == Call(r.window + 1, r.window + 1, Name(r.limit - 1))
    requires ahead == Burst(1, 1, r.limit - 1) + [late]
    requires l.log == ahead && l.at == late.at
    requires l.z == Window(map[late.member := late.now], Some(late.at + Lifetime(r.window)))
    ensures Pruned(r, ahead, l)
  {
    InOrder(r.limit - 1, late, ahead);
  }

  lemma {:induction false} FillInOrder(r: Rate) returns (ahead: seq<Call>)
    requires r.limit > 1 && r.window > 0
    ensures LegalRun(r, Fresh(1), ahead) && Pruned(r, ahead, Run(r, Fresh(1), ahead))
  {
    var late := Call(r.window + 1, r.window + 1, Name(r.limit - 1));
    ahead := Burst(1, 1, r.limit - 1) + [late];
    AfterBurst(r, 1, 1, r.limit - 1, late, ahead);
    FilledIsPruned(r, late, ahead, Run(r, Fresh(1), ahead));
  }

  lemma {:induction false} BehindAnswers(r: Rate, ahead: seq<Call>, l: Limiter, behind: Call)
    requires r.limit > 1 && r.window > 0 && Pruned(r, ahead, l)
    requires behind == Call(r.window + 1, r.window, Name(r.limit))
    ensures Legal(l, behind)
    ensures Script(r, l.z, behind.at, behind.now, behind.member).1 == Answer(true, r.limit - 2)
    ensures LogAnswer(r, ahead, behind.now) == Answer(false, 0)
  {
    assert RemoveRange(Alive(l.z, behind.at), 0) == l.z.scores;
    AllAfter(ahead, 0);
  }

  /** Order matters: a caller ahead prunes what a later caller, behind it, would still have
      counted. For every limit above one, clocks a millisecond apart are enough for the set to
      let a call through that the ledger refuses. */
  lemma {:induction false} OutOfOrderOverAdmits(r: Rate) returns (calls: seq<Call>, before: seq<Answer>)
    requires r.limit > 1 && r.window > 0
    ensures LegalRun(r, Fresh(1), calls) && Near(1, calls)
    ensures Run(r, Fresh(1), calls).answers == before + [Answer(true, r.limit - 2)]
    ensures Keep(r, calls).answers == before + [Answer(false, 0)]
  {
    var ahead := FillInOrder(r);
    var behind := Call(r.window + 1, r.window, Name(r.limit));
    OneClockIsOnTime(r, 0, 1, ahead);
    SetRefinesLedger(r, 0, 1, ahead);
    BehindAnswers(r, ahead, Run(r, Fresh(1), ahead), behind);
    RunOneMore(r, Fresh(1), ahead, behind);
    KeepOneMore(r, ahead, behind);
    calls, before := ahead + [behind], Run(r, Fresh(1), ahead).answers;
  }

  // The exact condition

  /** Every run of callers within `skew` of the node, in any order, is answered as by the ledger. */
  ghost predicate AnswersInAnyOrder(r: Rate, skew: int) {
    forall start, calls :: LegalRun(r, Fresh(start), calls) && Near(skew, calls) ==>
      Run(r, Fresh(start), calls).answers == Keep(r, calls).answers
  }

  lemma {:induction false} OrderNotNeeded(r: Rate, skew: int)
    requires r.limit == 0 || skew <= 0 || (r.limit == 1 && 2 * skew <= 1000)
    ensures AnswersInAnyOrder(r, skew)
  {
    forall start, calls | LegalRun(r, Fresh(start), calls) && Near(skew, calls)
      ensures Run(r, Fresh(start), calls).answers == Keep(r, calls).answers
    {
      if skew <= 0 {
        OneClockIsOnTime(r, skew, start, calls);
        SetRefinesLedger(r, 0, start, calls);
      } else if r.limit == 0 {
        NothingAdmitted(r, start, calls);
      } else {
        SingleRun(r, skew, start, calls);
      }
    }
  }

  lemma {:induction false} NothingAdmitted(r: Rate, start: int, calls: seq<Call>)
    requires r.limit == 0
    ensures Run(r, Fresh(start), calls).answers == Keep(r, calls).answers
  {
    if calls != [] {
      NothingAdmitted(r, start, calls[..|calls|-1]);
    }
  }

  /** The answers of the ledger are kept whatever the order of the timestamps if and only if
      nothing is ever admitted, or there is one clock, or there is one place and the clocks are
      within half a second. For any other limit the callers have to be in order. */
  lemma {:induction false} AnyOrderIsExact(r: Rate, skew: int)
    requires r.window > 0 && r.window % 1000 == 0
    ensures AnswersInAnyOrder(r, skew) <==>
      r.limit == 0 || skew <= 0 || (r.limit == 1 && 2 * skew <= 1000)
  {
    if r.limit == 0 || skew <= 0 || (r.limit == 1 && 2 * skew <= 1000) {
      OrderNotNeeded(r, skew);
    } else if r.limit > 1 {
      var calls, before := OutOfOrderOverAdmits(r);
      assert Near(skew, calls);
      assert Run(r, Fresh(1), calls).answers[|before|] != Keep(r, calls).answers[|before|];
    } else {
      var calls := KeyExpiresEarly(r, skew);
    }
  }
}
