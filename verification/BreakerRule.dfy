/** What every overlapping run of a breaker keeps, and the simple rule its admissions follow. */
module BreakerRule {
  import opened Options
  import opened BreakerModel

  ghost predicate Inv(c: Config, s: Sys) {
    && (s.b.state.Closed? <==> s.b.failures < Limit(c))
    && s.b.lastChange <= s.now
    && (s.lastFailure.Some? ==> s.lastFailure.value <= s.now)
    && (s.b.state.Open? ==> s.lastFailure == Some(s.b.lastChange))
    && (s.b.state.HalfOpen? ==> s.lastFailure.Some? && s.now - s.lastFailure.value >= c.recovery)
  }

  lemma {:induction false} StepKeepsInv(c: Config, s: Sys, e: Event)
    requires Inv(c, s) && Legal(s, e)
    ensures Inv(c, Step(c, s, e))
  {
  }

  lemma {:induction false} RunKeepsInv(c: Config, s: Sys, es: seq<Event>)
    requires Inv(c, s) && LegalRun(c, s, es)
    ensures Inv(c, Run(c, s, es))
  {
    if es != [] {
      RunKeepsInv(c, s, es[..|es|-1]);
      StepKeepsInv(c, Run(c, s, es[..|es|-1]), es[|es|-1]);
    }
  }

  /** In every reachable state CLOSED means exactly "fewer recorded failures than the threshold",
      and an OPEN circuit is timed from the latest failure that was recorded, however late the
      failed call came back. */
  lemma {:induction false} StateMeaning(c: Config, start: real, es: seq<Event>)
    requires LegalRun(c, Fresh(start), es)
    ensures var s := Run(c, Fresh(start), es);
      && (s.b.state.Closed? <==> s.b.failures < Limit(c))
      && (s.b.state.Open? ==> s.lastFailure == Some(s.b.lastChange))
  {
    RunKeepsInv(c, Fresh(start), es);
  }

  /** A call arriving after any run is let through exactly when fewer than the threshold
      failures are on the count, or the latest recorded failure is at least `recovery` old. */
  lemma {:induction false} AdmissionRule(c: Config, start: real, es: seq<Event>, read: real, stamp: real)
    requires LegalRun(c, Fresh(start), es + [Arrive(read, stamp)])
    ensures var s := Run(c, Fresh(start), es);
      var s' := Run(c, Fresh(start), es + [Arrive(read, stamp)]);
      s'.decisions == s.decisions +
        [s.b.failures < Limit(c) ||
         (s.lastFailure.Some? && read - s.lastFailure.value >= c.recovery)]
  {
    RunOneMore(c, Fresh(start), es, Arrive(read, stamp));
    RunKeepsInv(c, Fresh(start), es);
  }

  /** The time of the last change is stamped with every change of state, and with every failure that
      comes back while the circuit is OPEN, which so starts its wait again. */
  lemma {:induction false} ChangeIsStamped(c: Config, s: Sys, e: Event)
    requires Inv(c, s) && Legal(s, e)
    ensures var s' := Step(c, s, e);
      s'.b.lastChange == if s'.b.state != s.b.state || (s.b.state.Open? && e.Finish? && e.outcome.Failed?)
                         then match e case Finish(_, at) => at case _ => e.stamp
                         else s.b.lastChange
  {
  }

  /** Every failure that comes back adds one to the count, in any state; a success starts the count
      again unless the circuit is OPEN; nothing else touches it. */
  lemma {:induction false} CountMoves(c: Config, s: Sys, e: Event)
    ensures Step(c, s, e).b.failures ==
      if e.Finish? && e.outcome.Failed? then s.b.failures + 1
      else if e.Finish? && e.outcome.Succeeded? && !s.b.state.Open? then 0
      else s.b.failures
  {
  }

  /** Failures recorded since the last success, over the calls that came back. */
  function Streak(es: seq<Event>): nat {
    if es == [] then 0
    else
      match es[|es|-1]
      case Finish(Succeeded, _) => 0
      case Finish(Failed, _) => Streak(es[..|es|-1]) + 1
      case _ => Streak(es[..|es|-1])
  }

  /** While CLOSED the count is the number of failures in a row, so that the circuit opens with
      just the failure that completes a row of `threshold`, and any success starts over. */
  lemma {:induction false} ClosedCountsStreak(c: Config, start: real, es: seq<Event>)
    requires LegalRun(c, Fresh(start), es)
    ensures var s := Run(c, Fresh(start), es);
      && (s.b.state.Closed? ==> s.b.failures == Streak(es))
      && (es != [] && Run(c, Fresh(start), es[..|es|-1]).b.state.Closed? ==>
            (s.b.state.Open? <==> Streak(es) >= Limit(c)))
  {
    if es != [] {
      ClosedCountsStreak(c, start, es[..|es|-1]);
      RunKeepsInv(c, Fresh(start), es[..|es|-1]);
    }
  }
}
