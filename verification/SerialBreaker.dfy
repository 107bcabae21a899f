/**
 The Java breaker. Its methods are `synchronized`, so a whole `execute`, downstream call
 included, runs before the next caller enters, and `getState` may slip in only between two.
 */
module SerialBreaker {
  import opened BreakerModel

  datatype Op =
    | Execute(read: real, stamp: real, outcome: Outcome, at: real)
    | Poll(read: real, stamp: real)

  datatype Verdict = FastFailed | Ran(outcome: Outcome)

  /** `episodes` lists, for every HALF_OPEN period so far, the downstream calls made in it. */
  datatype Serial = Serial(b: Breaker, now: real, verdicts: seq<Verdict>, episodes: seq<nat>)

  function Fresh(start: real): Serial {
    Serial(Breaker(Closed, 0, start), start, [], [])
  }

  predicate Legal(s: Serial, op: Op) {
    s.now <= op.read <= op.stamp && (op.Execute? ==> op.stamp <= op.at)
  }

  function Enter(b: Breaker, b': Breaker, episodes: seq<nat>): seq<nat> {
    if !b.state.HalfOpen? && b'.state.HalfOpen? then episodes + [0] else episodes
  }

  function Probe(b: Breaker, episodes: seq<nat>): seq<nat> {
    if b.state.HalfOpen? && episodes != []
    then episodes[..|episodes|-1] + [episodes[|episodes|-1] + 1]
    else episodes
  }

  function Step(c: Config, s: Serial, op: Op): Serial {
    var b := Refresh(c, s.b, op.read, op.stamp);
    var episodes := Enter(s.b, b, s.episodes);
    match op
    case Poll(_, stamp) => s.(b := b, now := stamp, episodes := episodes)
    case Execute(_, stamp, outcome, at) =>
      if b.state.Open?
      then s.(b := b, now := stamp, verdicts := s.verdicts + [FastFailed])
      else Serial(Settle(c, b, outcome, at), at, s.verdicts + [Ran(outcome)], Probe(b, episodes))
  }

  function Run(c: Config, s: Serial, ops: seq<Op>): Serial {
    if ops == [] then s else Step(c, Run(c, s, ops[..|ops|-1]), ops[|ops|-1])
  }

  predicate LegalRun(c: Config, s: Serial, ops: seq<Op>) {
    ops == [] || (LegalRun(c, s, ops[..|ops|-1]) && Legal(Run(c, s, ops[..|ops|-1]), ops[|ops|-1]))
  }

  lemma {:induction false} RunOneMore(c: Config, s: Serial, ops: seq<Op>, op: Op)
    ensures Run(c, s, ops + [op]) == Step(c, Run(c, s, ops), op)
    ensures LegalRun(c, s, ops + [op]) <==> LegalRun(c, s, ops) && Legal(Run(c, s, ops), op)
  {
    assert (ops + [op])[..|ops|] == ops;
  }

  /** The same run with every poll left out. */
  function Strip(ops: seq<Op>): seq<Op> {
    if ops == [] then []
    else if ops[|ops|-1].Poll? then Strip(ops[..|ops|-1])
    else Strip(ops[..|ops|-1]) + [ops[|ops|-1]]
  }

  ghost predicate SameToCallers(b: Breaker, b': Breaker) {
    && b.state == b'.state && b.failures == b'.failures
    && (b.state.Open? ==> b.lastChange == b'.lastChange)
  }

  /** A poll may only have done early what the next `execute` does first anyway. */
  ghost predicate OnlyEarly(c: Config, s: Serial, plain: Serial) {
    && plain.now <= s.now && s.verdicts == plain.verdicts
    && (|| SameToCallers(s.b, plain.b)
        || (s.b.state.HalfOpen? && plain.b.state.Open? && s.b.failures == plain.b.failures &&
            s.now - plain.b.lastChange >= c.recovery))
  }

  lemma {:induction false} OnlyEarlyStep(c: Config, s: Serial, plain: Serial, op: Op)
    requires OnlyEarly(c, s, plain) && Legal(s, op)
    ensures op.Poll? ==> OnlyEarly(c, Step(c, s, op), plain)
    ensures op.Execute? ==>
      && Legal(plain, op) && OnlyEarly(c, Step(c, s, op), Step(c, plain, op))
      && SameToCallers(Step(c, s, op).b, Step(c, plain, op).b)
  {
  }

  /** Polls, however many and wherever they fall, change no verdict, and after every completed
      `execute` they leave the state, the failure count and the running wait as they would
      have been. */
  lemma {:induction false} PollingIsInvisible(c: Config, start: real, ops: seq<Op>)
    requires LegalRun(c, Fresh(start), ops)
    ensures var s, plain := Run(c, Fresh(start), ops), Run(c, Fresh(start), Strip(ops));
      && LegalRun(c, Fresh(start), Strip(ops))
      && s.verdicts == plain.verdicts && OnlyEarly(c, s, plain)
      && (ops != [] && ops[|ops|-1].Execute? ==> SameToCallers(s.b, plain.b))
  {
    if ops != [] {
      var ops0, op := ops[..|ops|-1], ops[|ops|-1];
      PollingIsInvisible(c, start, ops0);
      var s0, plain0 := Run(c, Fresh(start), ops0), Run(c, Fresh(start), Strip(ops0));
      OnlyEarlyStep(c, s0, plain0, op);
      if op.Execute? {
        RunOneMore(c, Fresh(start), Strip(ops0), op);
      }
    }
  }

  /** Whether the last call was let through. */
  predicate JustRan(s: Serial, s': Serial) {
    |s'.verdicts| > |s.verdicts| && s'.verdicts[|s'.verdicts|-1].Ran?
  }

  lemma {:induction false} JustRanIff(c: Config, s: Serial, op: Op)
    ensures JustRan(s, Step(c, s, op)) <==>
      op.Execute? && !Refresh(c, s.b, op.read, op.stamp).state.Open?
  {
  }

  /** `episodes` counts what it says it counts: entering HALF_OPEN starts a period, and a call that
      runs while the circuit is HALF_OPEN adds one to the last. */
  lemma {:induction false} EpisodesCountProbes(c: Config, s: Serial, op: Op)
    requires s.b.state.HalfOpen? ==> s.episodes != []
    ensures var s', b := Step(c, s, op), Refresh(c, s.b, op.read, op.stamp);
      var probes, last := if JustRan(s, s') then 1 else 0, |s.episodes| - 1;
      && (!b.state.HalfOpen? ==> s'.episodes == s.episodes)
      && (b.state.HalfOpen? && !s.b.state.HalfOpen? ==> s'.episodes == s.episodes + [probes])
      && (s.b.state.HalfOpen? ==> s'.episodes == s.episodes[last := s.episodes[last] + probes])
  {
    JustRanIff(c, s, op);
    var b := Refresh(c, s.b, op.read, op.stamp);
    ProbeAdds(b, s.episodes);
    ProbeAdds(b, s.episodes + [0]);
    assert (s.episodes + [0])[|s.episodes| := 1] == s.episodes + [1];
  }

  lemma {:induction false} ProbeAdds(b: Breaker, episodes: seq<nat>)
    ensures Probe(b, episodes) ==
      if b.state.HalfOpen? && episodes != [] then episodes[|episodes|-1 := episodes[|episodes|-1] + 1] else episodes
  {
  }

  ghost predicate OneProbe(s: Serial) {
    && (forall k | 0 <= k < |s.episodes| :: s.episodes[k] <= 1)
    && (s.b.state.HalfOpen? ==> s.episodes != [] && s.episodes[|s.episodes|-1] == 0)
  }

  lemma {:induction false} StepOneProbe(c: Config, s: Serial, op: Op)
    requires OneProbe(s) && Legal(s, op) && (op.Execute? ==> !op.outcome.Aborted?)
    ensures OneProbe(Step(c, s, op))
  {
  }

  /** If no action dies without an exception handler running, every HALF_OPEN period contains
      at most one downstream call, over any run and with any polls in between. */
  lemma {:induction false} OneProbePerEpisode(c: Config, start: real, ops: seq<Op>)
    requires LegalRun(c, Fresh(start), ops)
    requires forall op <- ops :: op.Execute? ==> !op.outcome.Aborted?
    ensures OneProbe(Run(c, Fresh(start), ops))
  {
    if ops != [] {
      assert forall op <- ops[..|ops|-1] :: op in ops;
      assert ops[|ops|-1] in ops;
      OneProbePerEpisode(c, start, ops[..|ops|-1]);
      StepOneProbe(c, Run(c, Fresh(start), ops[..|ops|-1]), ops[|ops|-1]);
    }
  }

  /** A completed `execute` leaves the circuit HALF_OPEN exactly when it got to run its action as
      a probe and the action died without a handler. */
  lemma {:induction false} HalfOpenAfterExecute(c: Config, s: Serial, op: Op)
    requires op.Execute?
    ensures Step(c, s, op).b.state.HalfOpen? <==>
      op.outcome.Aborted? && Refresh(c, s.b, op.read, op.stamp).state.HalfOpen?
  {
  }

  /** An `execute` is an arrival and, if let through, the return of that same call with nothing
      in between, so everything proved of overlapping runs holds of serialized ones. */
  lemma {:induction false} ExecuteIsArriveThenFinish(c: Config, s: Serial, op: Op, o: Sys)
    requires op.Execute? && Legal(s, op) && o.b == s.b && o.now == s.now && o.inFlight == 0
    ensures var a := BreakerModel.Step(c, o, Arrive(op.read, op.stamp));
      && BreakerModel.Legal(o, Arrive(op.read, op.stamp))
      && (a.inFlight == 0 <==> Step(c, s, op).verdicts == s.verdicts + [FastFailed])
      && (a.inFlight == 0 ==> a.b == Step(c, s, op).b)
      && (a.inFlight > 0 ==>
            && BreakerModel.Legal(a, Finish(op.outcome, op.at))
            && BreakerModel.Step(c, a, Finish(op.outcome, op.at)).b == Step(c, s, op).b
            && Step(c, s, op).verdicts == s.verdicts + [Ran(op.outcome)])
  {
    if Refresh(c, s.b, op.read, op.stamp).state.Open? {
      assert Step(c, s, op).verdicts[|s.verdicts|] == FastFailed;
    } else {
      assert Step(c, s, op).verdicts[|s.verdicts|] == Ran(op.outcome);
    }
  }

  /** Whether each call was let through. */
  function LetThrough(verdicts: seq<Verdict>): seq<bool> {
    if verdicts == [] then []
    else LetThrough(verdicts[..|verdicts|-1]) + [verdicts[|verdicts|-1].Ran?]
  }

  /** From `s` to `s'` and from `o` to `o'` the same has happened to the breaker and to the calls. */
  ghost predicate InStep(s: Serial, s': Serial, o: Sys, o': Sys) {
    && o'.b == s'.b && o'.now == s'.now && o'.inFlight == 0
    && (|| (s'.verdicts == s.verdicts && o'.decisions == o.decisions)
        || exists v :: s'.verdicts == s.verdicts + [v] && o'.decisions == o.decisions + [v.Ran?])
  }

  lemma {:induction false} PollIsOverlapping(c: Config, s: Serial, op: Op, o: Sys)
    requires op.Poll? && Legal(s, op) && o.b == s.b && o.now == s.now && o.inFlight == 0
    ensures BreakerModel.Legal(o, Observe(op.read, op.stamp))
    ensures InStep(s, Step(c, s, op), o, BreakerModel.Step(c, o, Observe(op.read, op.stamp)))
  {
  }

  lemma {:induction false} BlockedIsOverlapping(c: Config, s: Serial, op: Op, o: Sys)
    requires op.Execute? && Legal(s, op) && o.b == s.b && o.now == s.now && o.inFlight == 0
    requires Refresh(c, s.b, op.read, op.stamp).state.Open?
    ensures BreakerModel.Legal(o, Arrive(op.read, op.stamp))
    ensures InStep(s, Step(c, s, op), o, BreakerModel.Step(c, o, Arrive(op.read, op.stamp)))
  {
    assert Step(c, s, op).verdicts == s.verdicts + [FastFailed];
  }

  lemma {:induction false} CallIsOverlapping(c: Config, s: Serial, op: Op, o: Sys)
    requires op.Execute? && Legal(s, op) && o.b == s.b && o.now == s.now && o.inFlight == 0
    requires !Refresh(c, s.b, op.read, op.stamp).state.Open?
    ensures BreakerModel.Legal(o, Arrive(op.read, op.stamp))
    ensures var a := BreakerModel.Step(c, o, Arrive(op.read, op.stamp));
      && BreakerModel.Legal(a, Finish(op.outcome, op.at))
      && InStep(s, Step(c, s, op), o, BreakerModel.Step(c, a, Finish(op.outcome, op.at)))
  {
    assert Step(c, s, op).verdicts == s.verdicts + [Ran(op.outcome)];
  }

  lemma {:induction false} OpIsOverlapping(c: Config, s: Serial, op: Op, o: Sys, before: Sys, es: seq<Event>)
    returns (es': seq<Event>)
    requires Legal(s, op) && o.b == s.b && o.now == s.now && o.inFlight == 0
    requires BreakerModel.LegalRun(c, before, es) && BreakerModel.Run(c, before, es) == o
    ensures BreakerModel.LegalRun(c, before, es')
    ensures InStep(s, Step(c, s, op), o, BreakerModel.Run(c, before, es'))
  {
    if op.Poll? {
      PollIsOverlapping(c, s, op, o);
      es' := OneMoreEvent(c, before, es, o, Observe(op.read, op.stamp));
    } else if Refresh(c, s.b, op.read, op.stamp).state.Open? {
      BlockedIsOverlapping(c, s, op, o);
      es' := OneMoreEvent(c, before, es, o, Arrive(op.read, op.stamp));
    } else {
      CallIsOverlapping(c, s, op, o);
      es' := OneMoreEvent(c, before, es, o, Arrive(op.read, op.stamp));
      var a := BreakerModel.Step(c, o, Arrive(op.read, op.stamp));
      es' := OneMoreEvent(c, before, es', a, Finish(op.outcome, op.at));
    }
  }

  lemma {:induction false} OneMoreEvent(c: Config, before: Sys, es: seq<Event>, o: Sys, e: Event)
    returns (es': seq<Event>)
    requires BreakerModel.LegalRun(c, before, es) && BreakerModel.Run(c, before, es) == o && BreakerModel.Legal(o, e)
    ensures BreakerModel.LegalRun(c, before, es') && BreakerModel.Run(c, before, es') == BreakerModel.Step(c, o, e)
  {
    es' := es + [e];
    BreakerModel.RunOneMore(c, before, es, e);
  }

  lemma {:induction false} LetThroughOneMore(verdicts: seq<Verdict>, v: Verdict)
    ensures LetThrough(verdicts + [v]) == LetThrough(verdicts) + [v.Ran?]
  {
    assert (verdicts + [v])[..|verdicts|] == verdicts;
  }

  /** Every synchronized run is one of the overlapping runs, with the same breaker and the same calls
      let through, so all that holds of those holds of the Java breaker too. */
  lemma {:induction false} SerialIsOverlapping(c: Config, start: real, ops: seq<Op>) returns (es: seq<Event>)
    requires LegalRun(c, Fresh(start), ops)
    ensures BreakerModel.LegalRun(c, BreakerModel.Fresh(start), es)
    ensures var s, o := Run(c, Fresh(start), ops), BreakerModel.Run(c, BreakerModel.Fresh(start), es);
      && o.b == s.b && o.now == s.now && o.inFlight == 0 && o.decisions == LetThrough(s.verdicts)
  {
    if ops == [] {
      es := [];
    } else {
      es := SerialIsOverlapping(c, start, ops[..|ops|-1]);
      var s, o := Run(c, Fresh(start), ops[..|ops|-1]), BreakerModel.Run(c, BreakerModel.Fresh(start), es);
      es := OpIsOverlapping(c, s, ops[|ops|-1], o, BreakerModel.Fresh(start), es);
      var s', o' := Run(c, Fresh(start), ops), BreakerModel.Run(c, BreakerModel.Fresh(start), es);
      if v :| s'.verdicts == s.verdicts + [v] && o'.decisions == o.decisions + [v.Ran?] {
        LetThroughOneMore(s.verdicts, v);
      }
    }
  }
}
