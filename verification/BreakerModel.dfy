/**
 The circuit breaker as a value, and the runs of one breaker shared by calls that overlap.

 A protected call touches the breaker twice: once on arrival, when it is let through or
 fast-failed, and once when the downstream call it started comes back. Other calls may come
 and go in between. FastAPI holds a lock around each of the two touches and NestJS relies on
 its single thread; neither holds anything across the downstream call.
 */
module BreakerModel {
  import opened Options

  datatype Circuit = Closed | Open | HalfOpen

  /** `threshold` may be any integer: the constructors do not check it. */
  datatype Config = Config(threshold: int, recovery: real)

  datatype Breaker = Breaker(state: Circuit, failures: nat, lastChange: real)

  /** `Aborted`: the downstream call ended without running either handler, as a cancelled
      coroutine (Python) or an `Error` (Java) does. */
  datatype Outcome = Succeeded | Failed | Aborted

  /** The clock is read once to measure the elapsed time and again to stamp the change. */
  function Refresh(c: Config, b: Breaker, read: real, stamp: real): Breaker {
    if b.state.Open? && read - b.lastChange >= c.recovery
    then b.(state := HalfOpen, lastChange := stamp)
    else b
  }

  function OnSuccess(b: Breaker, now: real): Breaker {
    match b.state
    case HalfOpen => Breaker(Closed, 0, now)
    case Closed => b.(failures := 0)
    case Open => b
  }

  function OnFailure(c: Config, b: Breaker, now: real): Breaker {
    var counted := b.(failures := b.failures + 1);
    if b.state.HalfOpen? || counted.failures >= c.threshold
    then counted.(state := Open, lastChange := now)
    else counted
  }

  function Settle(c: Config, b: Breaker, outcome: Outcome, now: real): Breaker {
    match outcome
    case Succeeded => OnSuccess(b, now)
    case Failed => OnFailure(c, b, now)
    case Aborted => b
  }

  /** The breaker together with the calls it let through that have not come back yet.
      `decisions` and `lastFailure` record what happened; no step looks at them. */
  datatype Sys = Sys(
    b: Breaker, inFlight: nat, now: real, decisions: seq<bool>, lastFailure: Option<real>)

  datatype Event =
    | Arrive(read: real, stamp: real)        // a new call reaches the breaker
    | Finish(outcome: Outcome, at: real)     // a downstream call comes back
    | Observe(read: real, stamp: real)       // somebody asks for the state (NestJS, Java)

  function Fresh(start: real): Sys {
    Sys(Breaker(Closed, 0, start), 0, start, [], None)
  }

  /** The clock never goes back, and only a call in flight can come back. */
  predicate Legal(s: Sys, e: Event) {
    match e
    case Arrive(read, stamp) => s.now <= read <= stamp
    case Observe(read, stamp) => s.now <= read <= stamp
    case Finish(_, at) => s.now <= at && s.inFlight > 0
  }

  function Step(c: Config, s: Sys, e: Event): Sys {
    match e
    case Arrive(read, stamp) =>
      var b := Refresh(c, s.b, read, stamp);
      var admitted := !b.state.Open?;
      s.(b := b, now := stamp, decisions := s.decisions + [admitted],
         inFlight := if admitted then s.inFlight + 1 else s.inFlight)
    case Observe(read, stamp) =>
      s.(b := Refresh(c, s.b, read, stamp), now := stamp)
    case Finish(outcome, at) =>
      s.(b := Settle(c, s.b, outcome, at), now := at,
         inFlight := if s.inFlight > 0 then s.inFlight - 1 else 0,
         lastFailure := if outcome.Failed? then Some(at) else s.lastFailure)
  }

  function Run(c: Config, s: Sys, es: seq<Event>): Sys {
    if es == [] then s else Step(c, Run(c, s, es[..|es|-1]), es[|es|-1])
  }

  predicate LegalRun(c: Config, s: Sys, es: seq<Event>) {
    es == [] || (LegalRun(c, s, es[..|es|-1]) && Legal(Run(c, s, es[..|es|-1]), es[|es|-1]))
  }

  lemma {:induction false} RunOneMore(c: Config, s: Sys, es: seq<Event>, e: Event)
    ensures Run(c, s, es + [e]) == Step(c, Run(c, s, es), e)
    ensures LegalRun(c, s, es + [e]) <==> LegalRun(c, s, es) && Legal(Run(c, s, es), e)
  {
    assert (es + [e])[..|es|] == es;
  }

  /** How many downstream calls the breaker has let through. */
  function Started(decisions: seq<bool>): nat {
    if decisions == [] then 0
    else Started(decisions[..|decisions|-1]) + if decisions[|decisions|-1] then 1 else 0
  }

  lemma {:induction false} StartedOneMore(decisions: seq<bool>, d: bool)
    ensures Started(decisions + [d]) == Started(decisions) + if d then 1 else 0
  {
    assert (decisions + [d])[..|decisions|] == decisions;
  }

  /** Any threshold below one behaves like one: the first failure opens the circuit. */
  function Limit(c: Config): nat {
    if c.threshold < 1 then 1 else c.threshold
  }
}
