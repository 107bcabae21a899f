/** How much load a breaker lets through while the service behind it is down. */
module BreakerLoad {
  import opened BreakerModel

  /** Every call that comes back has failed. */
  predicate Outage(es: seq<Event>) {
    forall e <- es :: e.Finish? ==> e.outcome.Failed?
  }

  /** No more than `n` downstream calls are ever in flight together. */
  predicate AtMostInFlight(c: Config, s: Sys, es: seq<Event>, n: nat) {
    Run(c, s, es).inFlight <= n && (es == [] || AtMostInFlight(c, s, es[..|es|-1], n))
  }

  /** Repeated addition, so that the steps below need no multiplication. */
  function Times(n: nat, k: nat): (r: nat)
    ensures r == n * k
  {
    if k == 0 then 0 else Times(n, k - 1) + n
  }

  function WaitedFor(c: Config, k: nat): (r: real)
    ensures r == k as real * c.recovery
  {
    if k == 0 then 0.0 else WaitedFor(c, k - 1) + c.recovery
  }

  /** After some completed waits, taking `waited` in all, `extra` calls more than before the
      circuit first opened may have been let through. */
  ghost predicate Budget(c: Config, start: real, n: nat, s: Sys, extra: nat, waited: real) {
    var load := Started(s.decisions);
    var cap := Limit(c) - 1 + n + extra;
    && start + waited <= s.now
    && s.b.lastChange <= s.now
    && match s.b.state
       case Closed => load == s.b.failures + s.inFlight && s.b.failures < Limit(c)
       case Open => load <= cap && start + waited <= s.b.lastChange
       case HalfOpen => load <= cap - n + s.inFlight
  }

  lemma {:induction false} BudgetStep(c: Config, start: real, n: nat, s: Sys, e: Event,
                                     extra: nat, waited: real)
    requires c.recovery > 0.0 && Budget(c, start, n, s, extra, waited) && Legal(s, e)
    requires e.Finish? ==> e.outcome.Failed?
    requires s.inFlight <= n && Step(c, s, e).inFlight <= n
    ensures var s' := Step(c, s, e);
      if s.b.state.Open? && s'.b.state.HalfOpen?
      then Budget(c, start, n, s', extra + n, waited + c.recovery)
      else Budget(c, start, n, s', extra, waited)
  {
    if e.Arrive? {
      StartedOneMore(s.decisions, !Step(c, s, e).b.state.Open?);
    }
  }

  lemma {:induction false} BudgetRun(c: Config, start: real, n: nat, es: seq<Event>) returns (k: nat)
    requires c.recovery > 0.0 && LegalRun(c, Fresh(start), es) && Outage(es)
    requires AtMostInFlight(c, Fresh(start), es, n)
    ensures Budget(c, start, n, Run(c, Fresh(start), es), Times(n, k), WaitedFor(c, k))
  {
    if es == [] {
      k := 0;
    } else {
      var es0, e := es[..|es|-1], es[|es|-1];
      assert e in es;
      k := BudgetRun(c, start, n, es0);
      var s := Run(c, Fresh(start), es0);
      BudgetStep(c, start, n, s, e, Times(n, k), WaitedFor(c, k));
      if s.b.state.Open? && Step(c, s, e).b.state.HalfOpen? {
        k := k + 1;
      }
    }
  }

  function Waits(c: Config, duration: real): int
    requires c.recovery > 0.0
  {
    (duration / c.recovery).Floor
  }

  lemma {:induction false} LongerWait(c: Config, j: nat, k: nat)
    requires c.recovery > 0.0 && WaitedFor(c, j) < WaitedFor(c, k)
    ensures j < k
    decreases j
  {
    if j > 0 && k > 0 {
      LongerWait(c, j - 1, k - 1);
    } else if j > 0 {
      assert false by {
        WaitNotNegative(c, j);
      }
    }
  }

  lemma {:induction false} WaitNotNegative(c: Config, k: nat)
    requires c.recovery > 0.0
    ensures WaitedFor(c, k) >= 0.0
  {
    if k > 0 {
      WaitNotNegative(c, k - 1);
    }
  }

  lemma {:induction false} LoadWithinBudget(c: Config, start: real, n: nat, es: seq<Event>, k: nat, limit: real)
    requires c.recovery > 0.0 && LegalRun(c, Fresh(start), es) && Outage(es)
    requires AtMostInFlight(c, Fresh(start), es, n)
    requires limit == WaitedFor(c, k + 1) && Run(c, Fresh(start), es).now - start < limit
    ensures Started(Run(c, Fresh(start), es).decisions) <= Limit(c) - 1 + n + Times(n, k)
  {
    var j := BudgetRun(c, start, n, es);
    LongerWait(c, j, k + 1);
    TimesGrows(n, j, k);
  }

  /** The same bound without a division: in a run too short for k + 1 waits. */
  lemma {:induction false} LoadBoundByWaits(c: Config, start: real, n: nat, es: seq<Event>, k: nat)
    requires c.recovery > 0.0 && LegalRun(c, Fresh(start), es) && Outage(es)
    requires AtMostInFlight(c, Fresh(start), es, n)
    requires Run(c, Fresh(start), es).now - start < (k + 1) as real * c.recovery
    ensures Started(Run(c, Fresh(start), es).decisions) <= Limit(c) - 1 + n + n * k
  {
    LoadWithinBudget(c, start, n, es, k, WaitedFor(c, k + 1));
  }

  lemma {:induction false} TimesGrows(n: nat, j: nat, k: nat)
    requires j <= k
    ensures Times(n, j) <= Times(n, k)
  {
    if j < k {
      TimesGrows(n, j, k - 1);
    }
  }

  lemma {:induction false} Scale(a: real, b: real, r: real, ar: real, br: real)
    requires a < b && r > 0.0 && ar == a * r && br == b * r
    ensures ar < br
  {
    assert (b - a) * r > 0.0;
    assert (b - a) * r == b * r - a * r;
  }

  /** `k` is the floor of `q`, seen through a positive factor. */
  lemma {:induction false} FloorScaled(q: real, k: int, r: real, qr: real, kr: real)
    requires r > 0.0 && qr == q * r && kr == k as real * r && k as real <= q < k as real + 1.0
    ensures kr <= qr < kr + r
    ensures qr >= 0.0 ==> k >= 0
  {
    if k as real < q {
      Scale(k as real, q, r, kr, qr);
    }
    Scale(q, k as real + 1.0, r, qr, kr + r);
    if q < 0.0 {
      Scale(q, 0.0, r, qr, 0.0);
    }
  }

  /** The quotient rounded down is the number of whole waits that fit. */
  lemma {:induction false} WaitsFit(c: Config, duration: real, k: int)
    requires c.recovery > 0.0 && duration >= 0.0 && k == Waits(c, duration)
    ensures k >= 0 && WaitedFor(c, k) <= duration < WaitedFor(c, k) + c.recovery
  {
    FloorScaled(duration / c.recovery, k, c.recovery, duration, k as real * c.recovery);
  }

  lemma {:induction false} TimeMoves(c: Config, start: real, es: seq<Event>)
    requires LegalRun(c, Fresh(start), es)
    ensures Run(c, Fresh(start), es).now >= start
  {
    if es != [] {
      TimeMoves(c, start, es[..|es|-1]);
    }
  }

  /** While every call fails, a run of duration T with at most n calls in flight at once starts
      at most (threshold - 1 + n) + n * floor(T / recovery) downstream calls. */
  lemma {:induction false} OutageLoadBound(c: Config, start: real, n: nat, es: seq<Event>, waits: int)
    requires c.recovery > 0.0 && LegalRun(c, Fresh(start), es) && Outage(es)
    requires AtMostInFlight(c, Fresh(start), es, n)
    requires waits == Waits(c, Run(c, Fresh(start), es).now - start)
    ensures Started(Run(c, Fresh(start), es).decisions) <= Limit(c) - 1 + n + n * waits
  {
    TimeMoves(c, start, es);
    WaitsFit(c, Run(c, Fresh(start), es).now - start, waits);
    LoadWithinBudget(c, start, n, es, waits, WaitedFor(c, waits) + c.recovery);
  }

  // The bound is reached: a run that starts exactly that many calls.

  ghost predicate Outing(c: Config, start: real, n: nat, es: seq<Event>) {
    LegalRun(c, Fresh(start), es) && Outage(es) && AtMostInFlight(c, Fresh(start), es, n)
  }

  lemma {:induction false} OutingOneMore(c: Config, start: real, n: nat, es: seq<Event>, e: Event)
    requires Outing(c, start, n, es) && Legal(Run(c, Fresh(start), es), e)
    requires e.Finish? ==> e.outcome.Failed?
    requires Run(c, Fresh(start), es + [e]).inFlight <= n
    ensures Outing(c, start, n, es + [e])
  {
    RunOneMore(c, Fresh(start), es, e);
    assert (es + [e])[..|es|] == es;
  }

  /** `m` calls arrive together at a circuit that is not OPEN. */
  lemma {:induction false} ArriveTogether(c: Config, start: real, n: nat, es: seq<Event>, m: nat)
    returns (es': seq<Event>)
    requires Outing(c, start, n, es)
    requires var s := Run(c, Fresh(start), es); !s.b.state.Open? && s.inFlight + m <= n
    ensures Outing(c, start, n, es')
    ensures var s, s' := Run(c, Fresh(start), es), Run(c, Fresh(start), es');
      && s'.b == s.b && s'.now == s.now && s'.inFlight == s.inFlight + m
      && Started(s'.decisions) == Started(s.decisions) + m
    decreases m
  {
    es' := es;
    if m > 0 {
      var s := Run(c, Fresh(start), es);
      var e := Arrive(s.now, s.now);
      RunOneMore(c, Fresh(start), es, e);
      StartedOneMore(s.decisions, true);
      OutingOneMore(c, start, n, es, e);
      es' := ArriveTogether(c, start, n, es + [e], m - 1);
    }
  }

  /** Every call in flight fails together, the first of them opening the circuit. */
  lemma {:induction false} FailTogether(c: Config, start: real, n: nat, es: seq<Event>)
    returns (es': seq<Event>)
    requires Outing(c, start, n, es)
    requires var s := Run(c, Fresh(start), es);
      !s.b.state.Closed? || s.b.failures + 1 >= Limit(c)
    requires var s := Run(c, Fresh(start), es);
      s.inFlight > 0 || (s.b.state.Open? && s.b.lastChange == s.now)
    requires Run(c, Fresh(start), es).b.failures + 1 >= Limit(c)
    ensures Outing(c, start, n, es')
    ensures var s, s' := Run(c, Fresh(start), es), Run(c, Fresh(start), es');
      && s'.b.state.Open? && s'.b.lastChange == s'.now == s.now && s'.inFlight == 0
      && s'.decisions == s.decisions && s'.b.failures + 1 >= Limit(c)
    decreases Run(c, Fresh(start), es).inFlight
  {
    es' := es;
    var s := Run(c, Fresh(start), es);
    if s.inFlight > 0 {
      var e := Finish(Failed, s.now);
      RunOneMore(c, Fresh(start), es, e);
      OutingOneMore(c, start, n, es, e);
      es' := FailTogether(c, start, n, es + [e]);
    }
  }

  /** `m` calls fail one after the other without opening the circuit. */
  lemma {:induction false} FailInTurn(c: Config, start: real, n: nat, m: nat) returns (es: seq<Event>)
    requires n > 0 && m < Limit(c)
    ensures Outing(c, start, n, es)
    ensures var s := Run(c, Fresh(start), es);
      s.b == Breaker(Closed, m, start) && s.now == start && s.inFlight == 0 &&
      Started(s.decisions) == m
  {
    es := [];
    if m > 0 {
      es := FailInTurn(c, start, n, m - 1);
      es := ArriveTogether(c, start, n, es, 1);
      var e := Finish(Failed, start);
      RunOneMore(c, Fresh(start), es, e);
      OutingOneMore(c, start, n, es, e);
      es := es + [e];
    }
  }

  /** The circuit has just opened after `k` waits, with nothing in flight and all of the bound used. */
  ghost predicate Spent(c: Config, start: real, n: nat, es: seq<Event>, k: nat) {
    var s := Run(c, Fresh(start), es);
    && Outing(c, start, n, es)
    && s.b.state.Open? && s.b.lastChange == s.now == start + WaitedFor(c, k)
    && s.inFlight == 0 && s.b.failures + 1 >= Limit(c)
    && Started(s.decisions) == Limit(c) - 1 + n + Times(n, k)
  }

  lemma {:induction false} FirstWave(c: Config, start: real, n: nat) returns (es: seq<Event>)
    requires n > 0
    ensures Spent(c, start, n, es, 0)
  {
    es := FailInTurn(c, start, n, Limit(c) - 1);
    es := ArriveTogether(c, start, n, es, n);
    es := FailTogether(c, start, n, es);
  }

  lemma {:induction false} NextWave(c: Config, start: real, n: nat, es0: seq<Event>, k: nat)
    returns (es: seq<Event>)
    requires c.recovery > 0.0 && n > 0 && Spent(c, start, n, es0, k)
    ensures Spent(c, start, n, es, k + 1)
  {
    var s := Run(c, Fresh(start), es0);
    var e := Arrive(s.now + c.recovery, s.now + c.recovery);
    RunOneMore(c, Fresh(start), es0, e);
    StartedOneMore(s.decisions, true);
    OutingOneMore(c, start, n, es0, e);
    es := ArriveTogether(c, start, n, es0 + [e], n - 1);
    es := FailTogether(c, start, n, es);
  }

  lemma {:induction false} WavesReach(c: Config, start: real, n: nat, k: nat) returns (es: seq<Event>)
    requires c.recovery > 0.0 && n > 0
    ensures Spent(c, start, n, es, k)
  {
    if k == 0 {
      es := FirstWave(c, start, n);
    } else {
      es := WavesReach(c, start, n, k - 1);
      es := NextWave(c, start, n, es, k - 1);
    }
  }

  lemma {:induction false} WaitsExactly(c: Config, duration: real, k: nat)
    requires c.recovery > 0.0 && duration == WaitedFor(c, k)
    ensures Waits(c, duration) == k
  {
    var q := duration / c.recovery;
    assert q * c.recovery == k as real * c.recovery;
    assert (q - k as real) * c.recovery == 0.0;
    assert q == k as real;
  }

  /** The bound is exact: for every number of waits some outage of just that length starts
      exactly as many calls as the bound allows. */
  lemma {:induction false} OutageLoadReached(c: Config, start: real, n: nat, k: nat) returns (es: seq<Event>)
    requires c.recovery > 0.0 && n > 0
    ensures LegalRun(c, Fresh(start), es) && Outage(es) && AtMostInFlight(c, Fresh(start), es, n)
    ensures var s := Run(c, Fresh(start), es);
      && s.now - start == k as real * c.recovery && Waits(c, s.now - start) == k
      && Started(s.decisions) == Limit(c) - 1 + n + n * k
  {
    es := WavesReach(c, start, n, k);
    WaitsExactly(c, Run(c, Fresh(start), es).now - start, k);
  }
}
