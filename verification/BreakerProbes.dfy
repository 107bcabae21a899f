/** How many probes a HALF_OPEN circuit lets through when calls overlap. */
module BreakerProbes {
  import opened BreakerModel
  import opened BreakerLoad

  /** The calls let through in the HALF_OPEN period that a run ends in. Every beginning of a run is
      a run, so this reaches every period at every moment. */
  function Probes(c: Config, s: Sys, es: seq<Event>): nat {
    if es == [] || !Run(c, s, es).b.state.HalfOpen? then 0
    else Probes(c, s, es[..|es|-1]) + if es[|es|-1].Arrive? then 1 else 0
  }

  predicate NoneAborted(es: seq<Event>) {
    forall e <- es :: e.Finish? ==> !e.outcome.Aborted?
  }

  /** A run with at most `n` calls in flight, some of them cancelled only if `aborts` says so. */
  ghost predicate Crowd(c: Config, start: real, n: nat, aborts: bool, es: seq<Event>) {
    LegalRun(c, Fresh(start), es) && AtMostInFlight(c, Fresh(start), es, n) && (aborts || NoneAborted(es))
  }

  /** A period ends as soon as any call comes back with a result, so its probes are in flight. */
  lemma {:induction false} ProbesAreInFlight(c: Config, start: real, es: seq<Event>)
    requires LegalRun(c, Fresh(start), es) && NoneAborted(es)
    ensures Probes(c, Fresh(start), es) <= Run(c, Fresh(start), es).inFlight
  {
    if es != [] {
      assert es[|es|-1] in es && forall e <- es[..|es|-1] :: e in es;
      ProbesAreInFlight(c, start, es[..|es|-1]);
    }
  }

  lemma {:induction false} CrowdOneMore(c: Config, start: real, n: nat, aborts: bool, es: seq<Event>, e: Event)
    requires Crowd(c, start, n, aborts, es) && Legal(Run(c, Fresh(start), es), e)
    requires aborts || (e.Finish? ==> !e.outcome.Aborted?)
    requires Run(c, Fresh(start), es + [e]).inFlight <= n
    ensures Crowd(c, start, n, aborts, es + [e])
    ensures Run(c, Fresh(start), es + [e]) == Step(c, Run(c, Fresh(start), es), e)
    ensures Run(c, Fresh(start), es + [e]).b.state.HalfOpen? ==>
      Probes(c, Fresh(start), es + [e]) == Probes(c, Fresh(start), es) + if e.Arrive? then 1 else 0
  {
    RunOneMore(c, Fresh(start), es, e);
    assert (es + [e])[..|es|] == es;
  }

  /** The first call to arrive once an OPEN circuit is due. */
  lemma {:induction false} FirstProbe(c: Config, start: real, n: nat, aborts: bool) returns (es: seq<Event>)
    requires n > 0
    ensures Crowd(c, start, n, aborts, es) && Probes(c, Fresh(start), es) == 1
    ensures var s := Run(c, Fresh(start), es); s.b.state.HalfOpen? && s.inFlight == 1
  {
    es := FirstWave(c, start, n);
    var s := Run(c, Fresh(start), es);
    var due := if c.recovery > 0.0 then s.now + c.recovery else s.now;
    RunOneMore(c, Fresh(start), es, Arrive(due, due));
    CrowdOneMore(c, start, n, aborts, es, Arrive(due, due));
    es := es + [Arrive(due, due)];
  }

  /** More calls arrive before any probe is back. */
  lemma {:induction false} ProbeTogether(c: Config, start: real, n: nat, m: nat) returns (es: seq<Event>)
    requires 0 < m <= n
    ensures Crowd(c, start, n, false, es) && Probes(c, Fresh(start), es) == m
    ensures var s := Run(c, Fresh(start), es); s.b.state.HalfOpen? && s.inFlight == m
  {
    if m == 1 {
      es := FirstProbe(c, start, n, false);
    } else {
      es := ProbeTogether(c, start, n, m - 1);
      var now := Run(c, Fresh(start), es).now;
      RunOneMore(c, Fresh(start), es, Arrive(now, now));
      CrowdOneMore(c, start, n, false, es, Arrive(now, now));
      es := es + [Arrive(now, now)];
    }
  }

  /** One probe after the other is cancelled, which leaves the circuit HALF_OPEN. */
  lemma {:induction false} ProbeInTurn(c: Config, start: real, n: nat, m: nat) returns (es: seq<Event>)
    requires 0 < m && 0 < n
    ensures Crowd(c, start, n, true, es) && Probes(c, Fresh(start), es) == m
    ensures var s := Run(c, Fresh(start), es); s.b.state.HalfOpen? && s.inFlight == 1
  {
    if m == 1 {
      es := FirstProbe(c, start, n, true);
    } else {
      es := ProbeInTurn(c, start, n, m - 1);
      var now := Run(c, Fresh(start), es).now;
      RunOneMore(c, Fresh(start), es, Finish(Aborted, now));
      CrowdOneMore(c, start, n, true, es, Finish(Aborted, now));
      es := es + [Finish(Aborted, now)];
      RunOneMore(c, Fresh(start), es, Arrive(now, now));
      CrowdOneMore(c, start, n, true, es, Arrive(now, now));
      es := es + [Arrive(now, now)];
    }
  }

  /** No HALF_OPEN period of any such run has more than `m` probes. */
  ghost predicate AtMostProbes(c: Config, n: nat, aborts: bool, m: nat) {
    forall start, es :: Crowd(c, start, n, aborts, es) ==> Probes(c, Fresh(start), es) <= m
  }

  lemma {:induction false} NobodyProbes(c: Config, start: real, es: seq<Event>)
    requires LegalRun(c, Fresh(start), es) && AtMostInFlight(c, Fresh(start), es, 0)
    ensures Run(c, Fresh(start), es).b.state.Closed?
  {
    if es != [] {
      NobodyProbes(c, start, es[..|es|-1]);
    }
  }

  /** How many probes a HALF_OPEN circuit may let through: as many as calls may be in flight, if
      none is cancelled, and any number otherwise. In particular the single probe of the
      documentation is what callers get exactly if they never have two calls in flight and never
      cancel one. */
  lemma {:induction false} MostProbes(c: Config, n: nat, aborts: bool, m: nat)
    ensures AtMostProbes(c, n, aborts, m) <==> n == 0 || (!aborts && n <= m)
  {
    if n == 0 {
      forall start, es | Crowd(c, start, n, aborts, es) ensures Probes(c, Fresh(start), es) <= m {
        NobodyProbes(c, start, es);
      }
    } else if !aborts && n <= m {
      forall start, es | Crowd(c, start, n, aborts, es) ensures Probes(c, Fresh(start), es) <= m {
        ProbesAreInFlight(c, start, es);
      }
    } else {
      var es: seq<Event>;
      if aborts {
        es := ProbeInTurn(c, 0.0, n, m + 1);
      } else {
        es := ProbeTogether(c, 0.0, n, m + 1);
      }
      assert Crowd(c, 0.0, n, aborts, es) && Probes(c, Fresh(0.0), es) > m;
    }
  }
}
