/**
 Asking for the state of a NestJS or Java breaker may move it from OPEN to HALF_OPEN. This
 module finds exactly when a later caller can tell that somebody asked.
 */
module BreakerPolling {
  import opened BreakerModel
  import opened BreakerRule

  /** The state after a poll, and the state if the same time had passed without one. */
  function Polled(c: Config, s: Sys, read: real, stamp: real): Sys {
    Step(c, s, Observe(read, stamp))
  }

  function Unpolled(s: Sys, stamp: real): Sys {
    s.(now := stamp)
  }

  /** What decides whether a poll can change a later admission. All of it is known beforehand. */
  predicate Visible(c: Config, s: Sys, read: real) {
    && c.recovery > 0.0 && c.threshold >= 2
    && s.inFlight > 0
    && s.b.state.Open? && read - s.b.lastChange >= c.recovery
  }

  predicate Due(c: Config, s: Sys) {
    s.b.state.Open? && s.now - s.b.lastChange >= c.recovery
  }

  predicate Willing(c: Config, s: Sys) {
    !s.b.state.Open? || Due(c, s)
  }

  predicate SameOpen(p: Sys, u: Sys) {
    p.b.state.Open? && u.b.state.Open? && p.b.lastChange == u.b.lastChange
  }

  /** The polled and the unpolled breaker answer alike from here on. */
  ghost predicate Alike(c: Config, p: Sys, u: Sys) {
    && p.now == u.now && p.inFlight == u.inFlight && p.decisions == u.decisions
    && p.b.lastChange <= p.now && u.b.lastChange <= u.now
    && (|| c.recovery <= 0.0
        || (p.b.failures == u.b.failures &&
            (SameOpen(p, u) || (p.b.state == u.b.state && !p.b.state.Open?)))
        || (p.b.failures == u.b.failures && p.b.state.HalfOpen? && Due(c, u) && p.inFlight == 0)
        || (c.threshold < 2 && (SameOpen(p, u) || (Willing(c, p) && Willing(c, u)))))
  }

  lemma {:induction false} AlikeStep(c: Config, p: Sys, u: Sys, e: Event)
    requires Alike(c, p, u) && Legal(p, e)
    ensures Legal(u, e) && Alike(c, Step(c, p, e), Step(c, u, e))
  {
  }

  lemma {:induction false} AlikeRun(c: Config, p: Sys, u: Sys, es: seq<Event>)
    requires Alike(c, p, u) && LegalRun(c, p, es)
    ensures LegalRun(c, u, es) && Alike(c, Run(c, p, es), Run(c, u, es))
  {
    if es != [] {
      AlikeRun(c, p, u, es[..|es|-1]);
      AlikeStep(c, Run(c, p, es[..|es|-1]), Run(c, u, es[..|es|-1]), es[|es|-1]);
    }
  }

  lemma {:induction false} PollInvisible(c: Config, s: Sys, read: real, stamp: real, es: seq<Event>)
    requires Inv(c, s) && Legal(s, Observe(read, stamp)) && !Visible(c, s, read)
    requires LegalRun(c, Polled(c, s, read, stamp), es)
    ensures LegalRun(c, Unpolled(s, stamp), es)
    ensures Run(c, Polled(c, s, read, stamp), es).decisions == Run(c, Unpolled(s, stamp), es).decisions
  {
    AlikeRun(c, Polled(c, s, read, stamp), Unpolled(s, stamp), es);
  }

  /** A call left over from before the outage succeeds, a new call fails, and the next one is
      let through after a poll but turned away without one. */
  lemma {:induction false} PollSeen(c: Config, s: Sys, read: real, stamp: real) returns (es: seq<Event>)
    requires Inv(c, s) && Legal(s, Observe(read, stamp)) && Visible(c, s, read)
    ensures LegalRun(c, Polled(c, s, read, stamp), es) && LegalRun(c, Unpolled(s, stamp), es)
    ensures Run(c, Polled(c, s, read, stamp), es).decisions != Run(c, Unpolled(s, stamp), es).decisions
  {
    es := [];
    var p, u := Polled(c, s, read, stamp), Unpolled(s, stamp);
    es := Both(c, p, u, es, Finish(Succeeded, stamp));
    es := Both(c, p, u, es, Arrive(stamp, stamp));
    es := Both(c, p, u, es, Finish(Failed, stamp));
    es := Both(c, p, u, es, Arrive(stamp, stamp));
    assert Run(c, p, es).decisions == s.decisions + [true] + [true];
    assert Run(c, u, es).decisions == s.decisions + [true] + [false];
    assert Run(c, p, es).decisions[|s.decisions| + 1];
  }

  lemma {:induction false} Both(c: Config, p: Sys, u: Sys, es: seq<Event>, e: Event) returns (es': seq<Event>)
    requires LegalRun(c, p, es) && LegalRun(c, u, es)
    requires Legal(Run(c, p, es), e) && Legal(Run(c, u, es), e)
    ensures es' == es + [e] && LegalRun(c, p, es') && LegalRun(c, u, es')
    ensures Run(c, p, es') == Step(c, Run(c, p, es), e)
    ensures Run(c, u, es') == Step(c, Run(c, u, es), e)
  {
    es' := es + [e];
    RunOneMore(c, p, es, e);
    RunOneMore(c, u, es, e);
  }

  ghost predicate TellsApart(c: Config, p: Sys, u: Sys, es: seq<Event>) {
    LegalRun(c, p, es) && LegalRun(c, u, es) && Run(c, p, es).decisions != Run(c, u, es).decisions
  }

  /** In any reachable state, some continuation admits differently because of a poll exactly
      when the circuit is OPEN and due while an earlier call is still in flight (and the
      threshold and the recovery time are not degenerate). */
  lemma {:induction false} PollVisibility(c: Config, start: real, before: seq<Event>, read: real, stamp: real)
    requires LegalRun(c, Fresh(start), before)
    requires Legal(Run(c, Fresh(start), before), Observe(read, stamp))
    ensures var s := Run(c, Fresh(start), before);
      Visible(c, s, read) <==>
      exists es :: TellsApart(c, Polled(c, s, read, stamp), Unpolled(s, stamp), es)
  {
    var s := Run(c, Fresh(start), before);
    RunKeepsInv(c, Fresh(start), before);
    if Visible(c, s, read) {
      var es := PollSeen(c, s, read, stamp);
      assert TellsApart(c, Polled(c, s, read, stamp), Unpolled(s, stamp), es);
    } else {
      forall es | LegalRun(c, Polled(c, s, read, stamp), es)
        ensures !TellsApart(c, Polled(c, s, read, stamp), Unpolled(s, stamp), es)
      {
        PollInvisible(c, s, read, stamp, es);
      }
    }
  }
}
