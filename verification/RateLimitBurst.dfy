/** Calls that come together, and the two they can be followed by: material for extreme runs. */
module RateLimitBurst {
  import opened Options
  import opened RateLimitModel

  /** Members are only ever compared, so any strings that differ will do. */
  function Name(k: nat): (m: Member)
    ensures |m| == k
  {
    seq(k, _ => 'a')
  }

  function Burst(at: int, now: int, m: nat): seq<Call> {
    if m == 0 then [] else Burst(at, now, m - 1) + [Call(at, now, Name(m - 1))]
  }

  lemma {:induction false} BurstCalls(at: int, now: int, m: nat)
    ensures |Burst(at, now, m)| == m
    ensures forall k | 0 <= k < m :: Burst(at, now, m)[k] == Call(at, now, Name(k))
  {
    if m > 0 {
      BurstCalls(at, now, m - 1);
    }
  }

  ghost predicate BurstState(at: int, now: int, m: nat, l: Limiter) {
    && l.log == Burst(at, now, m) && l.at == at
    && (m > 0 ==> l.now == now)
    && (l.z.expireAt.Some? ==> l.z.expireAt.value > at)
    && |l.z.scores| == m
    && forall k | k in l.z.scores :: |k| < m && l.z.scores[k] == now
  }

  lemma {:induction false} BurstStep(r: Rate, at: int, now: int, m: nat, l: Limiter, c: Call)
    requires m < r.limit && 0 <= now && r.window > 0 && BurstState(at, now, m, l)
    requires c == Call(at, now, Name(m))
    ensures Legal(l, c) && BurstState(at, now, m + 1, Step(r, l, c))
  {
    BurstCalls(at, now, m);
    assert RemoveRange(Alive(l.z, at), now - r.window) == l.z.scores;
    StepShape(r, l, c, l.z.scores);
    assert c.member !in l.z.scores;
    OneMember(l.z.scores, c.member, now);
  }

  lemma {:induction false} BurstExtends(r: Rate, at: int, now: int, m: nat, calls: seq<Call>, l: Limiter, c: Call)
    requires m < r.limit && 0 <= now && r.window > 0 && BurstState(at, now, m, l) && c == Call(at, now, Name(m))
    requires LegalRun(r, Fresh(at), calls) && l == Run(r, Fresh(at), calls)
    ensures LegalRun(r, Fresh(at), calls + [c])
    ensures BurstState(at, now, m + 1, Run(r, Fresh(at), calls + [c]))
  {
    BurstStep(r, at, now, m, l, c);
    RunOneMore(r, Fresh(at), calls, c);
  }

  /** Up to the limit, calls that come together are all admitted. */
  lemma {:induction false} BurstRun(r: Rate, at: int, now: int, m: nat, calls: seq<Call>)
    requires m <= r.limit && 0 <= now && r.window > 0 && calls == Burst(at, now, m)
    ensures LegalRun(r, Fresh(at), calls) && BurstState(at, now, m, Run(r, Fresh(at), calls))
  {
    if m > 0 {
      var before, c := Burst(at, now, m - 1), Call(at, now, Name(m - 1));
      BurstRun(r, at, now, m - 1, before);
      BurstExtends(r, at, now, m - 1, before, Run(r, Fresh(at), before), c);
      assert calls == before + [c];
    }
  }

  lemma {:induction false} LateStep(r: Rate, at: int, now: int, m: nat, l: Limiter, late: Call)
    requires r.limit > 0 && 0 <= now && BurstState(at, now, m, l)
    requires at <= late.at && late.now == now + r.window && late.member == Name(m)
    ensures Legal(l, late)
    ensures var l' := Step(r, l, late);
      && l'.log == Burst(at, now, m) + [late] && l'.at == late.at
      && l'.z == Window(map[late.member := late.now], Some(late.at + Lifetime(r.window)))
  {
    BurstCalls(at, now, m);
    assert RemoveRange(Alive(l.z, late.at), now) == map[];
    StepShape(r, l, late, map[]);
  }

  /** One more call, stamped a window later, finds them all pruned. */
  lemma {:induction false} AfterBurst(r: Rate, at: int, now: int, m: nat, late: Call, calls: seq<Call>)
    requires m <= r.limit && r.limit > 0 && 0 <= now && r.window > 0
    requires at <= late.at && late.now == now + r.window && late.member == Name(m)
    requires calls == Burst(at, now, m) + [late]
    ensures var l := Run(r, Fresh(at), calls);
      && LegalRun(r, Fresh(at), calls) && l.log == calls && l.at == late.at
      && l.z == Window(map[late.member := late.now], Some(late.at + Lifetime(r.window)))
  {
    var burst := Burst(at, now, m);
    BurstRun(r, at, now, m, burst);
    LateStep(r, at, now, m, Run(r, Fresh(at), burst), late);
    RunOneMore(r, Fresh(at), burst, late);
  }
}
