/** The breaker object of the three services, method by method, tied to the breaker value. */
module CircuitBreakerObject {
  import opened Options
  import opened BreakerModel
  import SerialBreaker

  datatype Error = OpenCircuit | FromAction(message: string)

  /** What running a downstream action or a fallback comes to. */
  datatype Attempt<+T> = Returned(value: T) | Raised(error: Error) | Died

  function OutcomeOf<T>(a: Attempt<T>): Outcome {
    match a
    case Returned(_) => Succeeded
    case Raised(_) => Failed
    case Died => Aborted
  }

  class CircuitBreaker {
    const failureThreshold: int
    const recoveryTimeout: real
    var state: Circuit
    var failureCount: nat
    var lastStateChange: real

    function Settings(): Config {
      Config(failureThreshold, recoveryTimeout)
    }

    function Value(): Breaker
      reads this
    {
      Breaker(state, failureCount, lastStateChange)
    }

    constructor (failureThreshold: int, recoveryTimeout: real, now: real)
      ensures Settings() == Config(failureThreshold, recoveryTimeout)
      ensures Value() == Fresh(now).b
    {
      this.failureThreshold := failureThreshold;
      this.recoveryTimeout := recoveryTimeout;
      state := Closed;
      failureCount := 0;
      lastStateChange := now;
    }

    /** OPEN, and the recovery time not over. */
    predicate Blocks(read: real)
      reads this
    {
      state == Open && read - lastStateChange < recoveryTimeout
    }

    method UpdateStateIfNeeded(read: real, stamp: real)
      modifies this
      ensures Value() == Refresh(Settings(), old(Value()), read, stamp)
    {
      if state == Open {
        var elapsed := read - lastStateChange;
        if elapsed >= recoveryTimeout {
          state := HalfOpen;
          lastStateChange := stamp;
        }
      }
    }

    method OnSuccess(now: real)
      modifies this
      ensures Value() == BreakerModel.OnSuccess(old(Value()), now)
    {
      if state == HalfOpen {
        state := Closed;
        failureCount := 0;
        lastStateChange := now;
      } else if state == Closed {
        failureCount := 0;
      }
    }

    method OnFailure(now: real)
      modifies this
      ensures Value() == BreakerModel.OnFailure(Settings(), old(Value()), now)
    {
      failureCount := failureCount + 1;
      if state == HalfOpen || failureCount >= failureThreshold {
        state := Open;
        lastStateChange := now;
      }
    }

    /** The first critical section of an overlapping call. */
    method Admit(read: real, stamp: real) returns (admitted: bool)
      modifies this
      ensures forall s: Sys {:trigger Step(Settings(), s, Arrive(read, stamp))} ::
        s.b == old(Value()) ==>
        var s' := Step(Settings(), s, Arrive(read, stamp));
        s'.b == Value() && s'.decisions == s.decisions + [admitted]
    {
      UpdateStateIfNeeded(read, stamp);
      admitted := state != Open;
    }

    /** The second critical section, once the downstream call has come back. */
    method Complete(outcome: Outcome, now: real)
      modifies this
      ensures forall s: Sys {:trigger Step(Settings(), s, Finish(outcome, now))} ::
        s.b == old(Value()) ==> Step(Settings(), s, Finish(outcome, now)).b == Value()
    {
      match outcome {
        case Succeeded => OnSuccess(now);
        case Failed => OnFailure(now);
        case Aborted =>
      }
    }

    /** The observer of NestJS and Java. */
    method GetState(read: real, stamp: real) returns (r: Circuit)
      modifies this
      ensures Value() == Refresh(Settings(), old(Value()), read, stamp) && r == Value().state
    {
      UpdateStateIfNeeded(read, stamp);
      r := state;
    }

    /** The synchronized call of Java: both critical sections and the action as one step. A blocked
        call gets the fallback's result, or an error of the circuit, and its action does not count.
        Of the others one that raises gets the fallback's result if there is a fallback, and any
        other gets what its action came to. */
    method Execute<T>(action: Attempt<T>, fallback: Option<Attempt<T>>, read: real, stamp: real, at: real)
      returns (r: Attempt<T>)
      modifies this
      ensures forall s: SerialBreaker.Serial
          {:trigger SerialBreaker.Step(Settings(), s, SerialBreaker.Execute(read, stamp, OutcomeOf(action), at))} ::
        s.b == old(Value()) ==>
        var s' := SerialBreaker.Step(Settings(), s, SerialBreaker.Execute(read, stamp, OutcomeOf(action), at));
        && s'.b == Value()
        && s'.verdicts == s.verdicts +
             [if old(Blocks(read)) then SerialBreaker.FastFailed else SerialBreaker.Ran(OutcomeOf(action))]
      ensures old(Blocks(read)) ==>
        Value() == old(Value()) && r == if fallback.Some? then fallback.value else Raised(OpenCircuit)
      ensures !old(Blocks(read)) ==>
        var b := Refresh(Settings(), old(Value()), read, stamp);
        match action
        case Returned(_) => r == action && Value() == BreakerModel.OnSuccess(b, at)
        case Raised(_) =>
          && r == (if fallback.Some? then fallback.value else action)
          && Value() == BreakerModel.OnFailure(Settings(), b, at)
        case Died => r == action && Value() == b
    {
      UpdateStateIfNeeded(read, stamp);
      if state == Open {
        match fallback {
          case Some(f) => return f;
          case None => return Raised(OpenCircuit);
        }
      }
      match action {
        case Returned(_) =>
          OnSuccess(at);
          r := action;
        case Raised(_) =>
          OnFailure(at);
          r := if fallback.Some? then fallback.value else action;
        case Died =>
          r := action;
      }
    }
  }
}
