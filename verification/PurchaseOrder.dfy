/**
 When a run behaves like atomic purchases made one after the other: exactly if no write is
 stale, and in particular if every write lands inside the writer's own lease.
 */
module PurchaseOrder {
  import opened Options
  import opened LockModel
  import opened PurchaseModel

  /** The purchase everybody has in mind: check and take in one go. */
  function AtomicPurchase(stock: int, quantity: nat): (int, Reply) {
    if stock >= quantity then (stock - quantity, Sold(stock - quantity))
    else (stock, OutOfStock(stock))
  }

  /** The stock after serving the requests of `log` atomically, one after the other. */
  function Replay(shop: Shop, initial: int, log: seq<Entry>): int {
    if log == [] then initial
    else
      var before, last := Replay(shop, initial, log[..|log|-1]), log[|log|-1];
      if last.id < |shop.requests| then AtomicPurchase(before, shop.requests[last.id].quantity).0
      else before
  }

  /** Every reply in `log` is the one an atomic purchase would have given at that point. */
  predicate Serial(shop: Shop, initial: int, log: seq<Entry>) {
    log == [] ||
    var prefix, last := log[..|log|-1], log[|log|-1];
    && Serial(shop, initial, prefix)
    && last.id < |shop.requests|
    && last.reply == AtomicPurchase(Replay(shop, initial, prefix), shop.requests[last.id].quantity).1
  }

  lemma {:induction false} SerialOneMore(shop: Shop, initial: int, log: seq<Entry>, e: Entry)
    requires Serial(shop, initial, log) && e.id < |shop.requests|
    requires e.reply == AtomicPurchase(Replay(shop, initial, log), shop.requests[e.id].quantity).1
    ensures Serial(shop, initial, log + [e])
    ensures Replay(shop, initial, log + [e]) ==
      AtomicPurchase(Replay(shop, initial, log), shop.requests[e.id].quantity).0
  {
    assert (log + [e])[..|log|] == log;
  }

  ghost predicate Holds(lease: Option<Lease>, id: nat) {
    lease.Some? && lease.value.token == id
  }

  /** Every write in the run happens while the writer's token is the one in the lock key. */
  ghost predicate WritesInLease(shop: Shop, w: World, actions: seq<Action>) {
    actions == [] ||
    var before, a := Run(shop, w, actions[..|actions|-1]), actions[|actions|-1];
    && WritesInLease(shop, w, actions[..|actions|-1])
    && (a.Write? && before.Some? ==> Holds(before.value.lease, a.id))
  }

  /** Every write in the run finds the stock as its writer read it. */
  ghost predicate WritesCurrent(shop: Shop, w: World, actions: seq<Action>) {
    actions == [] ||
    var before, a := Run(shop, w, actions[..|actions|-1]), actions[|actions|-1];
    && WritesCurrent(shop, w, actions[..|actions|-1])
    && (a.Write? && before.Some? && Legal(shop, before.value, a) ==>
          before.value.phases[a.id].seen == Inventory(before.value.stock))
  }

  ghost predicate Absent(log: seq<Entry>, id: nat) {
    forall k | 0 <= k < |log| :: log[k].id != id
  }

  ghost predicate EachOnce(log: seq<Entry>) {
    forall j, k | 0 <= j < k < |log| :: log[j].id != log[k].id
  }

  /** The history has a request's reply once it is answered and nothing of it before. */
  ghost predicate Accounted(log: seq<Entry>, id: nat, phase: Phase) {
    match phase
    case Leaving(r) => !r.TimedOut? && Entry(id, r) in log
    case Finished(r) => if r.TimedOut? then Absent(log, id) else Entry(id, r) in log
    case Unwinding => true
    case Crashed => true
    case _ => Absent(log, id)
  }

  ghost predicate Recorded(shop: Shop, initial: int, w: World) {
    && |w.phases| == |shop.requests|
    && Serial(shop, initial, w.log) && Replay(shop, initial, w.log) == Inventory(w.stock)
    && EachOnce(w.log)
    && (forall id | 0 <= id < |w.phases| :: Accounted(w.log, id, w.phases[id]))
  }

  ghost predicate SawEnough(shop: Shop, w: World) {
    && |w.phases| == |shop.requests|
    && (forall id | 0 <= id < |w.phases| && w.phases[id].Decided? ::
          shop.requests[id].quantity <= w.phases[id].seen)
  }

  ghost predicate HoldersCurrent(w: World) {
    forall id | 0 <= id < |w.phases| && w.phases[id].Decided? && Holds(w.lease, id) ::
      w.phases[id].seen == Inventory(w.stock)
  }

  lemma {:induction false} AccountedOneMore(log: seq<Entry>, e: Entry, phases: seq<Phase>, phases': seq<Phase>,
                                          phase: Phase)
    requires e.id < |phases| && Absent(log, e.id) && EachOnce(log)
    requires forall id | 0 <= id < |phases| :: Accounted(log, id, phases[id])
    requires !e.reply.TimedOut? && (phase.Leaving? || phase.Finished?) && phase.reply == e.reply
    requires phases' == phases[e.id := phase]
    ensures EachOnce(log + [e])
    ensures forall id | 0 <= id < |phases| :: Accounted(log + [e], id, phases'[id])
  {
    var log' := log + [e];
    assert log'[|log|] == e;
    forall id | 0 <= id < |phases| ensures Accounted(log', id, phases'[id]) {
      assert Accounted(log, id, phases[id]);
      if id != e.id && phases[id].Finished? && !phases[id].reply.TimedOut? {
        assert Entry(id, phases[id].reply) in log';
      }
    }
  }

  lemma {:induction false} AppendRecorded(shop: Shop, initial: int, w: World, w': World, e: Entry)
    requires Recorded(shop, initial, w) && e.id < |w.phases| && Absent(w.log, e.id)
    requires var stock := Inventory(w.stock);
      (Inventory(w'.stock), e.reply) == AtomicPurchase(stock, shop.requests[e.id].quantity)
    requires w'.log == w.log + [e] && w'.phases == w.phases[e.id := Answer(shop, e.id, e.reply)]
    ensures Recorded(shop, initial, w')
  {
    SerialOneMore(shop, initial, w.log, e);
    AccountedOneMore(w.log, e, w.phases, w'.phases, Answer(shop, e.id, e.reply));
  }

  lemma {:induction false} EffectRecorded(shop: Shop, initial: int, w: World, a: Action)
    requires Recorded(shop, initial, w) && SawEnough(shop, w) && Legal(shop, w, a)
    requires a.Write? || (a.Read? && Inventory(w.stock) < shop.requests[a.id].quantity)
    requires a.Write? ==> w.phases[a.id].seen == Inventory(w.stock)
    ensures Recorded(shop, initial, Step(shop, w, a))
  {
    assert Accounted(w.log, a.id, w.phases[a.id]);
    var reply := AtomicPurchase(Inventory(w.stock), shop.requests[a.id].quantity).1;
    AppendRecorded(shop, initial, w, Step(shop, w, a), Entry(a.id, reply));
  }

  lemma {:induction false} QuietRecorded(shop: Shop, initial: int, w: World, a: Action)
    requires Recorded(shop, initial, w) && Legal(shop, w, a)
    requires !a.Write? && (a.Read? ==> Inventory(w.stock) >= shop.requests[a.id].quantity)
    ensures Recorded(shop, initial, Step(shop, w, a))
  {
    if !a.Tick? {
      assert Accounted(w.log, a.id, w.phases[a.id]);
    }
  }

  lemma {:induction false} StepSawEnough(shop: Shop, w: World, a: Action)
    requires SawEnough(shop, w) && Legal(shop, w, a)
    ensures SawEnough(shop, Step(shop, w, a))
  {
  }

  lemma {:induction false} StepRecorded(shop: Shop, initial: int, w: World, a: Action)
    requires Recorded(shop, initial, w) && SawEnough(shop, w) && Legal(shop, w, a)
    requires a.Write? ==> w.phases[a.id].seen == Inventory(w.stock)
    ensures Recorded(shop, initial, Step(shop, w, a)) && SawEnough(shop, Step(shop, w, a))
  {
    StepSawEnough(shop, w, a);
    if a.Write? || (a.Read? && Inventory(w.stock) < shop.requests[a.id].quantity) {
      EffectRecorded(shop, initial, w, a);
    } else {
      QuietRecorded(shop, initial, w, a);
    }
  }

  lemma {:induction false} RunRecorded(shop: Shop, now: int, stock: Option<int>, actions: seq<Action>)
    requires Run(shop, Start(shop, now, stock), actions).Some?
    requires WritesCurrent(shop, Start(shop, now, stock), actions)
    ensures var w := Run(shop, Start(shop, now, stock), actions).value;
      Recorded(shop, Inventory(stock), w) && SawEnough(shop, w)
  {
    if actions != [] {
      RunRecorded(shop, now, stock, actions[..|actions|-1]);
      StepRecorded(shop, Inventory(stock),
                   Run(shop, Start(shop, now, stock), actions[..|actions|-1]).value, actions[|actions|-1]);
    }
  }

  lemma {:induction false} StepHolders(shop: Shop, w: World, a: Action)
    requires HoldersCurrent(w) && Legal(shop, w, a) && (a.Write? ==> Holds(w.lease, a.id))
    ensures HoldersCurrent(Step(shop, w, a))
  {
    match a
    case Tick(_) =>
    case Begin(_) =>
    case Attempt(_) =>
    case Read(_) =>
    case Write(_) =>
    case Unwind(_) =>
    case Release(_) =>
    case Crash(_) =>
  }

  /** What the lock is for: a write inside the writer's lease is never stale. */
  lemma {:induction false} LeaseKeepsCurrent(shop: Shop, now: int, stock: Option<int>, actions: seq<Action>)
    requires Run(shop, Start(shop, now, stock), actions).Some?
    requires WritesInLease(shop, Start(shop, now, stock), actions)
    ensures WritesCurrent(shop, Start(shop, now, stock), actions)
    ensures HoldersCurrent(Run(shop, Start(shop, now, stock), actions).value)
  {
    if actions != [] {
      LeaseKeepsCurrent(shop, now, stock, actions[..|actions|-1]);
      StepHolders(shop, Run(shop, Start(shop, now, stock), actions[..|actions|-1]).value, actions[|actions|-1]);
    }
  }

  lemma {:induction false} SerialPrefix(shop: Shop, initial: int, log: seq<Entry>, n: nat)
    requires Serial(shop, initial, log) && n <= |log|
    ensures Serial(shop, initial, log[..n])
  {
    if n == |log| {
      assert log[..n] == log;
    } else {
      assert log[..|log|-1][..n] == log[..n];
      SerialPrefix(shop, initial, log[..|log|-1], n);
    }
  }

  lemma {:induction false} SerialWriteIsCurrent(shop: Shop, initial: int, w: World, id: nat)
    requires Recorded(shop, initial, w) && Legal(shop, w, Write(id))
    requires Serial(shop, initial, Step(shop, w, Write(id)).log)
    ensures w.phases[id].seen == Inventory(w.stock)
  {
    var e := Entry(id, Sold(w.phases[id].seen - shop.requests[id].quantity));
    assert (w.log + [e])[..|w.log|] == w.log;
  }

  lemma {:induction false} SerialNeedsCurrent(shop: Shop, now: int, stock: Option<int>, actions: seq<Action>)
    requires Run(shop, Start(shop, now, stock), actions).Some?
    requires Serial(shop, Inventory(stock), Run(shop, Start(shop, now, stock), actions).value.log)
    ensures WritesCurrent(shop, Start(shop, now, stock), actions)
  {
    if actions != [] {
      var before, a := Run(shop, Start(shop, now, stock), actions[..|actions|-1]).value, actions[|actions|-1];
      var log := Run(shop, Start(shop, now, stock), actions).value.log;
      assert log[..|before.log|] == before.log;
      SerialPrefix(shop, Inventory(stock), log, |before.log|);
      SerialNeedsCurrent(shop, now, stock, actions[..|actions|-1]);
      RunRecorded(shop, now, stock, actions[..|actions|-1]);
      if a.Write? {
        SerialWriteIsCurrent(shop, Inventory(stock), before, a.id);
      }
    }
  }

  /** Exactly when interleaved purchases amount to atomic ones: the replies, in the order in which
      the requests took effect, are those of atomic purchases if and only if every write found
      the stock as its writer had read it. */
  lemma {:induction false} SerialIffCurrent(shop: Shop, now: int, stock: Option<int>, actions: seq<Action>)
    requires Run(shop, Start(shop, now, stock), actions).Some?
    ensures Serial(shop, Inventory(stock), Run(shop, Start(shop, now, stock), actions).value.log) <==>
      WritesCurrent(shop, Start(shop, now, stock), actions)
  {
    if WritesCurrent(shop, Start(shop, now, stock), actions) {
      RunRecorded(shop, now, stock, actions);
    } else if Serial(shop, Inventory(stock), Run(shop, Start(shop, now, stock), actions).value.log) {
      SerialNeedsCurrent(shop, now, stock, actions);
    }
  }

  lemma {:induction false} SerialConserves(shop: Shop, initial: int, log: seq<Entry>)
    requires Serial(shop, initial, log)
    ensures Replay(shop, initial, log) + SoldUnits(shop, log) == initial
  {
    if log != [] {
      SerialConserves(shop, initial, log[..|log|-1]);
    }
  }

  /** Linearizability. In every interleaving of any requests, with crashes and expiries, whose
      writes land inside the writers' leases: the history is a run of atomic purchases ending in
      the present stock; every answered request has its reply there exactly once, every other
      request that did not crash is not there; and no unit is lost or sold twice. */
  lemma {:induction false} Linearizable(shop: Shop, now: int, stock: Option<int>, actions: seq<Action>)
    requires Run(shop, Start(shop, now, stock), actions).Some?
    requires WritesInLease(shop, Start(shop, now, stock), actions)
    ensures var w := Run(shop, Start(shop, now, stock), actions).value;
      && Serial(shop, Inventory(stock), w.log)
      && Replay(shop, Inventory(stock), w.log) == Inventory(w.stock)
      && EachOnce(w.log) && |w.phases| == |shop.requests|
      && (forall id | 0 <= id < |w.phases| :: Accounted(w.log, id, w.phases[id]))
      && Inventory(stock) == Inventory(w.stock) + SoldUnits(shop, w.log)
  {
    LeaseKeepsCurrent(shop, now, stock, actions);
    RunRecorded(shop, now, stock, actions);
    SerialConserves(shop, Inventory(stock), Run(shop, Start(shop, now, stock), actions).value.log);
  }

  /** What a reply of a serial history says: it is a sale exactly if there was enough, and the number
      in it is the stock that is left. */
  lemma {:induction false} SerialReply(shop: Shop, initial: int, log: seq<Entry>, k: nat)
    requires Serial(shop, initial, log) && k < |log|
    ensures log[k].id < |shop.requests| && !log[k].reply.TimedOut?
    ensures log[k].reply.Sold? <==> Replay(shop, initial, log[..k]) >= shop.requests[log[k].id].quantity
    ensures log[k].reply.remaining == Replay(shop, initial, log[..k + 1])
    ensures Replay(shop, initial, log[..k + 1]) == Replay(shop, initial, log[..k]) -
      if log[k].reply.Sold? then shop.requests[log[k].id].quantity else 0
  {
    if k == |log| - 1 {
      assert log[..k + 1] == log;
    } else {
      var prefix := log[..|log|-1];
      assert prefix[..k] == log[..k] && prefix[..k + 1] == log[..k + 1] && prefix[k] == log[k];
      SerialReply(shop, initial, prefix, k);
    }
  }

  lemma {:induction false} RunPrefix(shop: Shop, w: World, actions: seq<Action>, n: nat)
    requires n <= |actions| && Run(shop, w, actions).Some?
    ensures Run(shop, w, actions[..n]).Some?
    ensures Run(shop, w, actions[..n]).value.log <= Run(shop, w, actions).value.log
    ensures WritesInLease(shop, w, actions) ==> WritesInLease(shop, w, actions[..n])
  {
    if n == |actions| {
      assert actions[..n] == actions;
    } else {
      assert actions[..|actions|-1][..n] == actions[..n];
      RunPrefix(shop, w, actions[..|actions|-1], n);
    }
  }

  /** The serial order respects real time: a request that was answered before another one began
      comes before it in the history. */
  lemma {:induction false} RealTimeOrder(shop: Shop, now: int, stock: Option<int>, actions: seq<Action>, n: nat,
                                       early: World, late: World, j: nat, k: nat)
    requires WritesInLease(shop, Start(shop, now, stock), actions) && n <= |actions|
    requires Run(shop, Start(shop, now, stock), actions[..n]) == Some(early)
    requires Run(shop, Start(shop, now, stock), actions) == Some(late)
    requires j < |late.log| && late.log[j].id < |early.phases| && early.phases[late.log[j].id].Finished?
    requires k < |late.log| && late.log[k].id < |early.phases| && early.phases[late.log[k].id].Idle?
    ensures j < k
  {
    var start := Start(shop, now, stock);
    RunPrefix(shop, start, actions, n);
    LeaseKeepsCurrent(shop, now, stock, actions);
    LeaseKeepsCurrent(shop, now, stock, actions[..n]);
    RunRecorded(shop, now, stock, actions[..n]);
    RunRecorded(shop, now, stock, actions);
    var jd, kd := late.log[j].id, late.log[k].id;
    assert Accounted(early.log, kd, early.phases[kd]) && Accounted(early.log, jd, early.phases[jd]);
    assert k >= |early.log|;
    FinishedStays(shop, start, actions, n, jd);
    assert Accounted(late.log, jd, late.phases[jd]);
    assert !early.phases[jd].reply.TimedOut?;
    var i :| 0 <= i < |early.log| && early.log[i] == Entry(jd, early.phases[jd].reply);
    assert late.log[i] == early.log[i];
  }

  lemma {:induction false} FinishedStays(shop: Shop, w: World, actions: seq<Action>, n: nat, id: nat)
    requires n <= |actions| && Run(shop, w, actions).Some? && Run(shop, w, actions[..n]).Some?
    requires var early := Run(shop, w, actions[..n]).value;
      id < |early.phases| && early.phases[id].Finished?
    ensures var early, late := Run(shop, w, actions[..n]).value, Run(shop, w, actions).value;
      id < |late.phases| && late.phases[id] == early.phases[id]
  {
    if n == |actions| {
      assert actions[..n] == actions;
    } else {
      var before := actions[..|actions|-1];
      assert before[..n] == actions[..n];
      FinishedStays(shop, w, before, n, id);
      StepKeepsFinished(shop, Run(shop, w, before).value, actions[|actions|-1], id);
    }
  }

  lemma {:induction false} StepKeepsFinished(shop: Shop, w: World, a: Action, id: nat)
    requires Legal(shop, w, a) && id < |w.phases| && w.phases[id].Finished?
    ensures id < |Step(shop, w, a).phases| && Step(shop, w, a).phases[id] == w.phases[id]
  {
  }
}
