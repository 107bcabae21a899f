/**
 What the lock guarantees to callers who know how long they may stall under it. The condition is
 one on the requests and on time, not on how their commands happened to interleave.
 */
module PurchaseLease {
  import opened Options
  import opened LockModel
  import opened PurchaseModel
  import opened PurchaseOrder
  import opened PurchaseDamage

  /** Every write under the lock comes at most `hold` after the attempt that won it. */
  predicate Prompt(shop: Shop, start: World, actions: seq<Action>, hold: nat) {
    actions == [] ||
    var before, a := Run(shop, start, actions[..|actions|-1]), actions[|actions|-1];
    && Prompt(shop, start, actions[..|actions|-1], hold)
    && (a.Write? && before.Some? && a.id in before.value.won ==>
          before.value.now - before.value.won[a.id] <= hold)
  }

  /** A locked request without an attempt never gets anywhere. */
  predicate MayWrite(shop: Shop, id: nat) {
    id < |shop.requests| && (shop.requests[id].locked ==> shop.retries > 0)
  }

  predicate OneWriter(shop: Shop) {
    forall j: nat, k: nat | j < k < |shop.requests| :: !(MayWrite(shop, j) && MayWrite(shop, k))
  }

  predicate AllLocked(shop: Shop) {
    forall r <- shop.requests :: r.locked
  }

  // All locked, and quicker than the lease

  predicate Inside(phase: Phase) {
    phase.Entered? || phase.Decided?
  }

  ghost predicate InsideOwns(shop: Shop, w: World, id: nat)
    requires id < |w.phases|
  {
    Inside(w.phases[id]) ==>
      && id in w.won && w.won[id] <= w.now
      && (w.now - w.won[id] < shop.ttl ==> w.lease == Some(Lease(id, w.won[id] + shop.ttl)))
  }

  ghost predicate Owners(shop: Shop, w: World) {
    |w.phases| == |shop.requests| && forall id | 0 <= id < |w.phases| :: InsideOwns(shop, w, id)
  }

  lemma {:induction false} StepOwns(shop: Shop, w: World, a: Action, id: nat)
    requires AllLocked(shop) && Owners(shop, w) && Legal(shop, w, a) && id < |w.phases|
    ensures InsideOwns(shop, Step(shop, w, a), id)
  {
    assert shop.requests[id] in shop.requests;
    assert InsideOwns(shop, w, id);
    match a
    case Tick(_) =>
    case Begin(_) =>
    case Attempt(_) =>
    case Read(_) =>
    case Write(_) =>
    case Unwind(_) =>
    case Release(_) =>
    case Crash(_) =>
  }

  /** Whoever is inside and won the lock less than a lease ago still owns it. */
  lemma {:induction false} PromptIsInLease(shop: Shop, now: int, stock: Option<int>, actions: seq<Action>, hold: nat)
    requires AllLocked(shop) && hold < shop.ttl && Run(shop, Start(shop, now, stock), actions).Some?
    requires Prompt(shop, Start(shop, now, stock), actions, hold)
    ensures WritesInLease(shop, Start(shop, now, stock), actions)
    ensures Owners(shop, Run(shop, Start(shop, now, stock), actions).value)
  {
    if actions != [] {
      var w, a := Run(shop, Start(shop, now, stock), actions[..|actions|-1]).value, actions[|actions|-1];
      PromptIsInLease(shop, now, stock, actions[..|actions|-1], hold);
      if a.Write? {
        assert InsideOwns(shop, w, a.id);
      }
      forall id | 0 <= id < |w.phases| ensures InsideOwns(shop, Step(shop, w, a), id) {
        StepOwns(shop, w, a, id);
      }
    }
  }

  // One writer

  ghost predicate Undisturbed(shop: Shop, w: World, id: nat)
    requires id < |w.phases|
  {
    && (!MayWrite(shop, id) ==> !Inside(w.phases[id]) && (w.phases[id].Trying? ==> w.phases[id].left == 0))
    && (w.phases[id].Decided? ==> w.phases[id].seen == Inventory(w.stock))
  }

  ghost predicate Quiet(shop: Shop, w: World) {
    |w.phases| == |shop.requests| && forall id | 0 <= id < |w.phases| :: Undisturbed(shop, w, id)
  }

  lemma {:induction false} StepUndisturbed(shop: Shop, w: World, a: Action, id: nat)
    requires OneWriter(shop) && Quiet(shop, w) && Legal(shop, w, a) && id < |w.phases|
    ensures Undisturbed(shop, Step(shop, w, a), id)
  {
    assert Undisturbed(shop, w, id);
    if a.Write? && a.id != id {
      assert Undisturbed(shop, w, a.id);
      assert !MayWrite(shop, a.id) || !MayWrite(shop, id);
    }
  }

  lemma {:induction false} OneWriterIsCurrent(shop: Shop, now: int, stock: Option<int>, actions: seq<Action>)
    requires OneWriter(shop) && Run(shop, Start(shop, now, stock), actions).Some?
    ensures WritesCurrent(shop, Start(shop, now, stock), actions)
    ensures Quiet(shop, Run(shop, Start(shop, now, stock), actions).value)
  {
    if actions != [] {
      var w, a := Run(shop, Start(shop, now, stock), actions[..|actions|-1]).value, actions[|actions|-1];
      OneWriterIsCurrent(shop, now, stock, actions[..|actions|-1]);
      if a.Write? {
        assert Undisturbed(shop, w, a.id);
      }
      forall id | 0 <= id < |w.phases| ensures Undisturbed(shop, Step(shop, w, a), id) {
        StepUndisturbed(shop, w, a, id);
      }
    }
  }

  // Two writers, and time enough

  /** One more step of a prompt run. */
  lemma {:induction false} Onward(shop: Shop, start: World, hold: nat, actions: seq<Action>, w: World, a: Action)
    returns (actions': seq<Action>, w': World)
    requires Run(shop, start, actions) == Some(w) && Prompt(shop, start, actions, hold) && Legal(shop, w, a)
    requires a.Write? && a.id in w.won ==> w.now - w.won[a.id] <= hold
    ensures actions' == actions + [a] && w' == Step(shop, w, a)
    ensures Run(shop, start, actions') == Some(w') && Prompt(shop, start, actions', hold)
    ensures WritesCurrent(shop, start, actions') ==>
      a.Write? ==> w.phases[a.id].seen == Inventory(w.stock)
  {
    actions', w' := actions + [a], Step(shop, w, a);
    RunOneMore(shop, start, actions, a);
    assert actions'[..|actions|] == actions;
  }

  /** Begin, and get the lock if it takes one. */
  lemma {:induction false} Enter(shop: Shop, start: World, hold: nat, before: seq<Action>, w: World, id: nat)
    returns (actions: seq<Action>, w': World)
    requires Run(shop, start, before) == Some(w) && Prompt(shop, start, before, hold)
    requires |w.phases| == |shop.requests| && MayWrite(shop, id) && w.phases[id].Idle? && w.lease.None?
    ensures Run(shop, start, actions) == Some(w') && Prompt(shop, start, actions, hold)
    ensures w' == if shop.requests[id].locked
                  then w.(phases := w.phases[id := Entered], won := w.won[id := w.now],
                          lease := Some(Lease(id, w.now + shop.ttl)))
                  else w.(phases := w.phases[id := Entered])
  {
    actions, w' := Onward(shop, start, hold, before, w, Begin(id));
    if shop.requests[id].locked {
      assert w' == w.(phases := w.phases[id := Trying(shop.retries)]);
      actions, w' := Onward(shop, start, hold, actions, w', Attempt(id));
      assert w'.phases == w.phases[id := Entered];
    }
  }

  lemma {:induction false} EnterAndRead(shop: Shop, start: World, hold: nat, before: seq<Action>, w: World, id: nat)
    returns (actions: seq<Action>, w': World)
    requires Run(shop, start, before) == Some(w) && Prompt(shop, start, before, hold)
    requires |w.phases| == |shop.requests| && MayWrite(shop, id) && w.phases[id].Idle? && w.lease.None?
    requires Inventory(w.stock) >= shop.requests[id].quantity
    ensures Run(shop, start, actions) == Some(w') && Prompt(shop, start, actions, hold)
    ensures w'.now == w.now && w'.stock == w.stock && w'.phases == w.phases[id := Decided(Inventory(w.stock))]
    ensures w'.won == if shop.requests[id].locked then w.won[id := w.now] else w.won
    ensures w'.lease == if shop.requests[id].locked then Some(Lease(id, w.now + shop.ttl)) else None
  {
    actions, w' := Enter(shop, start, hold, before, w, id);
    actions, w' := Onward(shop, start, hold, actions, w', Read(id));
  }

  /** The first writer reads and stalls, for the whole of its lease if it has one. */
  lemma {:induction false} ReadAndStall(shop: Shop, hold: nat, stock: int, j: nat)
    returns (actions: seq<Action>, w: World)
    requires MayWrite(shop, j) && stock >= shop.requests[j].quantity
    ensures var start := Start(shop, 0, Some(stock));
      && Run(shop, start, actions) == Some(w) && Prompt(shop, start, actions, hold)
      && w.now == shop.ttl && w.lease == None && w.stock == Some(stock)
      && w.phases == start.phases[j := Decided(stock)]
      && w.won == if shop.requests[j].locked then map[j := 0] else map[]
  {
    var start := Start(shop, 0, Some(stock));
    actions, w := EnterAndRead(shop, start, hold, [], start, j);
    actions, w := Onward(shop, start, hold, actions, w, Tick(shop.ttl));
  }

  /** Two have read the same stock: the second of them to write does not find it any more. */
  lemma {:induction false} BothWrite(shop: Shop, start: World, hold: nat, before: seq<Action>, w: World, j: nat, k: nat)
    returns (actions: seq<Action>)
    requires Run(shop, start, before) == Some(w) && Prompt(shop, start, before, hold)
    requires |w.phases| == |shop.requests| && j < |w.phases| && k < |w.phases| && j != k
    requires w.phases[j] == w.phases[k] == Decided(Inventory(w.stock)) && shop.requests[k].quantity > 0
    requires (j in w.won ==> w.now - w.won[j] <= hold) && (k in w.won ==> w.now - w.won[k] <= hold)
    ensures Run(shop, start, actions).Some? && Prompt(shop, start, actions, hold)
    ensures !WritesCurrent(shop, start, actions)
  {
    var w': World;
    actions, w' := Onward(shop, start, hold, before, w, Write(k));
    actions, w' := Onward(shop, start, hold, actions, w', Write(j));
  }

  lemma {:induction false} LateWriteIsStale(shop: Shop, hold: nat, j: nat, k: nat)
    returns (stock: int, actions: seq<Action>)
    requires j != k && MayWrite(shop, j) && MayWrite(shop, k) && Positive(shop)
    requires shop.requests[j].locked ==> hold >= shop.ttl
    ensures Run(shop, Start(shop, 0, Some(stock)), actions).Some?
    ensures Prompt(shop, Start(shop, 0, Some(stock)), actions, hold)
    ensures !WritesCurrent(shop, Start(shop, 0, Some(stock)), actions)
  {
    assert shop.requests[j] in shop.requests && shop.requests[k] in shop.requests;
    stock := shop.requests[j].quantity + shop.requests[k].quantity;
    var start, w := Start(shop, 0, Some(stock)), Start(shop, 0, Some(stock));
    actions, w := ReadAndStall(shop, hold, stock, j);
    actions, w := EnterAndRead(shop, start, hold, actions, w, k);
    actions := BothWrite(shop, start, hold, actions, w, j, k);
  }

  // The exact condition

  /** In every prompt run the stock and the units sold add up. */
  ghost predicate Conserves(shop: Shop, hold: nat) {
    forall now, stock, actions | Run(shop, Start(shop, now, stock), actions).Some? &&
        Prompt(shop, Start(shop, now, stock), actions, hold) ::
      Excess(shop, Inventory(stock), Run(shop, Start(shop, now, stock), actions).value) == 0
  }

  /** Every prompt run is answered as by atomic purchases. */
  ghost predicate Linear(shop: Shop, hold: nat) {
    forall now, stock, actions | Run(shop, Start(shop, now, stock), actions).Some? &&
        Prompt(shop, Start(shop, now, stock), actions, hold) ::
      Serial(shop, Inventory(stock), Run(shop, Start(shop, now, stock), actions).value.log)
  }

  lemma {:induction false} PromptIsCurrent(shop: Shop, hold: nat, now: int, stock: Option<int>, actions: seq<Action>)
    requires OneWriter(shop) || (AllLocked(shop) && hold < shop.ttl)
    requires Run(shop, Start(shop, now, stock), actions).Some?
    requires Prompt(shop, Start(shop, now, stock), actions, hold)
    ensures WritesCurrent(shop, Start(shop, now, stock), actions)
  {
    if OneWriter(shop) {
      OneWriterIsCurrent(shop, now, stock, actions);
    } else {
      PromptIsInLease(shop, now, stock, actions, hold);
      LeaseKeepsCurrent(shop, now, stock, actions);
    }
  }

  lemma {:induction false} TwoWriters(shop: Shop, hold: nat) returns (j: nat, k: nat)
    requires !OneWriter(shop) && (AllLocked(shop) ==> hold >= shop.ttl)
    ensures j != k && MayWrite(shop, j) && MayWrite(shop, k)
    ensures shop.requests[j].locked ==> hold >= shop.ttl
  {
    j, k :| j < k < |shop.requests| && MayWrite(shop, j) && MayWrite(shop, k);
    if !AllLocked(shop) {
      var r :| r in shop.requests && !r.locked;
      var i: nat :| i < |shop.requests| && shop.requests[i] == r;
      j, k := i, if i == j then k else j;
    }
  }

  /** When concurrent purchases are safe. Whatever the stock, the interleaving, the crashes and the
      stalls up to `hold` under the lock: no unit is lost or sold twice, and all replies are those
      of atomic purchases, if and only if no two requests can ever write, or all of them take the
      lock and `hold` is shorter than its lease. */
  lemma {:induction false} SafeIffPrompt(shop: Shop, hold: nat)
    requires Positive(shop)
    ensures Conserves(shop, hold) <==> OneWriter(shop) || (AllLocked(shop) && hold < shop.ttl)
    ensures Linear(shop, hold) <==> OneWriter(shop) || (AllLocked(shop) && hold < shop.ttl)
  {
    if OneWriter(shop) || (AllLocked(shop) && hold < shop.ttl) {
      forall now, stock, actions | Run(shop, Start(shop, now, stock), actions).Some? &&
          Prompt(shop, Start(shop, now, stock), actions, hold)
        ensures Excess(shop, Inventory(stock), Run(shop, Start(shop, now, stock), actions).value) == 0
        ensures Serial(shop, Inventory(stock), Run(shop, Start(shop, now, stock), actions).value.log)
      {
        PromptIsCurrent(shop, hold, now, stock, actions);
        ConservesIffCurrent(shop, now, stock, actions);
        SerialIffCurrent(shop, now, stock, actions);
      }
    } else {
      var j, k := TwoWriters(shop, hold);
      var stock, actions := LateWriteIsStale(shop, hold, j, k);
      ConservesIffCurrent(shop, 0, Some(stock), actions);
      SerialIffCurrent(shop, 0, Some(stock), actions);
    }
  }
}
