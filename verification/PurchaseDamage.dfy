/** What holds of every run, locked or not, in lease or out of it. */
module PurchaseDamage {
  import opened Options
  import opened PurchaseModel
  import opened PurchaseOrder

  /** What a request that chose to sell knew when it read the stock. */
  ghost predicate SoundDecision(shop: Shop, initial: int, sold: nat, phase: Phase, quantity: nat) {
    phase.Decided? ==> quantity <= phase.seen <= initial && phase.seen + sold >= initial
  }

  ghost predicate Bounded(shop: Shop, initial: int, w: World) {
    var sold := SoldUnits(shop, w.log);
    && |w.phases| == |shop.requests|
    && 0 <= Inventory(w.stock) <= initial
    && Inventory(w.stock) + sold >= initial
    && forall id | 0 <= id < |w.phases| ::
         SoundDecision(shop, initial, sold, w.phases[id], shop.requests[id].quantity)
  }

  lemma {:induction false} WriteBounded(shop: Shop, initial: int, w: World, id: nat)
    requires Bounded(shop, initial, w) && Legal(shop, w, Write(id))
    ensures Bounded(shop, initial, Step(shop, w, Write(id)))
  {
    var w', sold, quantity := Step(shop, w, Write(id)), SoldUnits(shop, w.log), shop.requests[id].quantity;
    assert SoundDecision(shop, initial, sold, w.phases[id], quantity);
    SoldUnitsOneMore(shop, w.log, Entry(id, Sold(w.phases[id].seen - quantity)));
    forall j | 0 <= j < |w.phases|
      ensures SoundDecision(shop, initial, sold + quantity, w'.phases[j], shop.requests[j].quantity)
    {
      assert SoundDecision(shop, initial, sold, w.phases[j], shop.requests[j].quantity);
    }
  }

  lemma {:induction false} QuietBounded(shop: Shop, initial: int, w: World, a: Action)
    requires Bounded(shop, initial, w) && Legal(shop, w, a) && !a.Write?
    ensures Bounded(shop, initial, Step(shop, w, a))
  {
    var w', sold := Step(shop, w, a), SoldUnits(shop, w.log);
    QuietBooks(shop, w, a);
    forall j | 0 <= j < |w.phases|
      ensures SoundDecision(shop, initial, sold, w'.phases[j], shop.requests[j].quantity)
    {
      assert SoundDecision(shop, initial, sold, w.phases[j], shop.requests[j].quantity);
      QuietDecision(shop, w, a, j);
    }
  }

  /** Only a write touches the stock and the units sold. */
  lemma {:induction false} QuietBooks(shop: Shop, w: World, a: Action)
    requires Legal(shop, w, a) && !a.Write?
    ensures var w' := Step(shop, w, a);
      w'.stock == w.stock && |w'.phases| == |w.phases| && SoldUnits(shop, w'.log) == SoldUnits(shop, w.log)
  {
    if a.Read? {
      SoldUnitsOneMore(shop, w.log, Entry(a.id, OutOfStock(Inventory(w.stock))));
    }
  }

  /** A request that has decided did so just now, seeing what is there, or before. */
  lemma {:induction false} QuietDecision(shop: Shop, w: World, a: Action, j: nat)
    requires Legal(shop, w, a) && !a.Write? && j < |w.phases|
    ensures var w' := Step(shop, w, a);
      w'.phases[j].Decided? && w'.phases[j] != w.phases[j] ==>
        w'.phases[j].seen == Inventory(w.stock) >= shop.requests[j].quantity
  {
  }

  /** Lost updates can sell the same unit twice, but never drive the stock below zero or above
      where it began, and never lose a unit: everything missing from the stock was sold. */
  lemma {:induction false} BoundedDamage(shop: Shop, now: int, stock: Option<int>, actions: seq<Action>)
    requires Inventory(stock) >= 0
    requires Run(shop, Start(shop, now, stock), actions).Some?
    ensures var w := Run(shop, Start(shop, now, stock), actions).value;
      Bounded(shop, Inventory(stock), w)
  {
    if actions != [] {
      BoundedDamage(shop, now, stock, actions[..|actions|-1]);
      var w, a := Run(shop, Start(shop, now, stock), actions[..|actions|-1]).value, actions[|actions|-1];
      if a.Write? {
        WriteBounded(shop, Inventory(stock), w, a.id);
      } else {
        QuietBounded(shop, Inventory(stock), w, a);
      }
    }
  }

  /** The first of two locked requests has read the stock and slept through its lease. */
  lemma {:induction false} Overslept(shop: Shop, now: int) returns (actions: seq<Action>, w: World)
    requires shop.requests == [Request(true, 1), Request(true, 1)] && shop.retries > 0
    ensures Run(shop, Start(shop, now, Some(1)), actions) == Some(w)
    ensures w.phases == [Decided(1), Idle] && w.lease == None && w.stock == Some(1)
  {
    actions, w := [], Start(shop, now, Some(1));
    actions, w := Then(shop, now, Some(1), actions, w, Begin(0));
    actions, w := Then(shop, now, Some(1), actions, w, Attempt(0));
    actions, w := Then(shop, now, Some(1), actions, w, Read(0));
    actions, w := Then(shop, now, Some(1), actions, w, Tick(shop.ttl));
  }

  /** The lock alone does not prevent overselling: two locked requests, no crash, one unit. The
      first stalls past its lease between reading and writing. */
  lemma {:induction false} LeaseExpiryOversells(shop: Shop, now: int) returns (actions: seq<Action>)
    requires shop.requests == [Request(true, 1), Request(true, 1)] && shop.retries > 0
    ensures Run(shop, Start(shop, now, Some(1)), actions).Some?
    ensures var w := Run(shop, Start(shop, now, Some(1)), actions).value;
      w.phases == [Finished(Sold(0)), Finished(Sold(0))] && w.stock == Some(0)
  {
    var w: World;
    actions, w := Overslept(shop, now);
    actions, w := Then(shop, now, Some(1), actions, w, Begin(1));
    actions, w := Then(shop, now, Some(1), actions, w, Attempt(1));
    actions, w := Then(shop, now, Some(1), actions, w, Read(1));
    actions, w := Then(shop, now, Some(1), actions, w, Write(1));
    actions, w := Then(shop, now, Some(1), actions, w, Release(1));
    actions, w := Then(shop, now, Some(1), actions, w, Write(0));
    actions, w := Then(shop, now, Some(1), actions, w, Release(0));
  }

  lemma {:induction false} Then(shop: Shop, now: int, stock: Option<int>, actions: seq<Action>, w: World, a: Action)
    returns (actions': seq<Action>, w': World)
    requires Run(shop, Start(shop, now, stock), actions) == Some(w) && Legal(shop, w, a)
    ensures actions' == actions + [a] && w' == Step(shop, w, a)
    ensures Run(shop, Start(shop, now, stock), actions') == Some(w')
  {
    actions', w' := actions + [a], Step(shop, w, a);
    RunOneMore(shop, Start(shop, now, stock), actions, a);
  }

  ghost predicate Unset(w: World) {
    && w.stock == None
    && (forall k | 0 <= k < |w.log| :: w.log[k].reply == OutOfStock(0))
    && (forall id | 0 <= id < |w.phases| ::
          && !w.phases[id].Decided?
          && (w.phases[id].Leaving? || w.phases[id].Finished? ==>
                w.phases[id].reply == OutOfStock(0) || w.phases[id].reply == TimedOut))
  }

  /** A stock that was never set is no stock: nobody is sold anything, everybody who gets to read it
      is told that nothing is left, and it stays unset. */
  lemma {:induction false} NothingFromNothing(shop: Shop, now: int, actions: seq<Action>)
    requires forall r <- shop.requests :: r.quantity > 0
    requires Run(shop, Start(shop, now, None), actions).Some?
    ensures Unset(Run(shop, Start(shop, now, None), actions).value)
  {
    if actions != [] {
      NothingFromNothing(shop, now, actions[..|actions|-1]);
      var a := actions[|actions|-1];
      assert a.Read? ==> shop.requests[a.id] in shop.requests;
    }
  }

  // What the clean-up and a crash leave of the lock

  /** A request that unwinds, with nobody in between, gives back its own lease and leaves without
      touching the stock. */
  lemma {:induction false} UnwindFreesOwnLease(shop: Shop, w: World, id: nat)
    requires |w.phases| == |shop.requests| && id < |w.phases| && shop.requests[id].locked
    requires w.phases[id].Entered? || w.phases[id].Decided? || w.phases[id].Leaving?
    ensures var w' := Run(shop, w, [Unwind(id)] + [Release(id)]);
      w' == Some(w.(phases := w.phases[id := Crashed], lease := if Holds(w.lease, id) then None else w.lease))
  {
    RunOneMore(shop, w, [], Unwind(id));
    assert [] + [Unwind(id)] == [Unwind(id)];
    var w1 := w.(phases := w.phases[id := Unwinding]);
    assert Run(shop, w, [Unwind(id)]) == Some(w1);
    RunOneMore(shop, w, [Unwind(id)], Release(id));
    assert w1.phases[id := Crashed] == w.phases[id := Crashed];
  }

  /** A crash changes nothing but the request, and from then on whatever the others do its lease stays
      until its time is up. */
  lemma {:induction false} CrashLeavesLease(shop: Shop, w: World, id: nat, more: seq<Action>)
    requires |w.phases| == |shop.requests| && id < |w.phases| && !w.phases[id].Finished?
    ensures Legal(shop, w, Crash(id))
    ensures Step(shop, w, Crash(id)) == w.(phases := w.phases[id := Crashed])
    ensures Holds(w.lease, id) && Run(shop, Step(shop, w, Crash(id)), more).Some? ==>
      var w' := Run(shop, Step(shop, w, Crash(id)), more).value;
      && id < |w'.phases| && w'.phases[id] == Crashed
      && (w'.now < w.lease.value.expiry ==> w'.lease == w.lease)
  {
    if Holds(w.lease, id) && Run(shop, Step(shop, w, Crash(id)), more).Some? {
      CrashedKeepsLease(shop, Step(shop, w, Crash(id)), id, more);
    }
  }

  lemma {:induction false} CrashedKeepsLease(shop: Shop, w: World, id: nat, more: seq<Action>)
    requires id < |w.phases| && w.phases[id].Crashed? && Holds(w.lease, id)
    requires Run(shop, w, more).Some?
    ensures var w' := Run(shop, w, more).value;
      && id < |w'.phases| && w'.phases[id].Crashed?
      && (w'.now < w.lease.value.expiry ==> w'.lease == w.lease)
  {
    if more != [] {
      CrashedKeepsLease(shop, w, id, more[..|more|-1]);
    }
  }

  // Exactly when units are sold twice

  ghost predicate Positive(shop: Shop) {
    forall r <- shop.requests :: r.quantity > 0
  }

  /** How many units were sold beyond what has gone from the stock. */
  function Excess(shop: Shop, initial: int, w: World): int {
    Inventory(w.stock) + SoldUnits(shop, w.log) - initial
  }

  /** The excess after the write of a request that saw `seen`. */
  function Margin(shop: Shop, initial: int, w: World, seen: int): int {
    seen + SoldUnits(shop, w.log) - initial
  }

  /** Once there is an excess, this request's write cannot undo it. */
  ghost predicate NotUndone(shop: Shop, initial: int, w: World, phase: Phase) {
    phase.Decided? ==>
      var margin := Margin(shop, initial, w, phase.seen);
      margin >= 0 && (Excess(shop, initial, w) > 0 ==> margin > 0)
  }

  ghost predicate Lasting(shop: Shop, initial: int, w: World) {
    && |w.phases| == |shop.requests| && Excess(shop, initial, w) >= 0
    && forall id | 0 <= id < |w.phases| :: NotUndone(shop, initial, w, w.phases[id])
  }

  lemma {:induction false} WriteLasting(shop: Shop, initial: int, w: World, id: nat)
    requires Positive(shop) && Lasting(shop, initial, w) && Legal(shop, w, Write(id))
    ensures var w' := Step(shop, w, Write(id));
      && Lasting(shop, initial, w')
      && (Excess(shop, initial, w') == 0 <==>
            Excess(shop, initial, w) == 0 && w.phases[id].seen == Inventory(w.stock))
  {
    var w' := Step(shop, w, Write(id));
    assert shop.requests[id] in shop.requests && NotUndone(shop, initial, w, w.phases[id]);
    SoldUnitsOneMore(shop, w.log, Entry(id, Sold(w.phases[id].seen - shop.requests[id].quantity)));
    forall j | 0 <= j < |w.phases| ensures NotUndone(shop, initial, w', w'.phases[j]) {
      assert NotUndone(shop, initial, w, w.phases[j]);
    }
  }

  lemma {:induction false} QuietLasting(shop: Shop, initial: int, w: World, a: Action)
    requires Lasting(shop, initial, w) && Legal(shop, w, a) && !a.Write?
    ensures Lasting(shop, initial, Step(shop, w, a))
    ensures Excess(shop, initial, Step(shop, w, a)) == Excess(shop, initial, w)
  {
    var w' := Step(shop, w, a);
    QuietBooks(shop, w, a);
    forall j | 0 <= j < |w.phases| ensures NotUndone(shop, initial, w', w'.phases[j]) {
      assert NotUndone(shop, initial, w, w.phases[j]);
      QuietDecision(shop, w, a, j);
    }
  }

  lemma {:induction false} RunLasting(shop: Shop, now: int, stock: Option<int>, actions: seq<Action>)
    requires Positive(shop) && Run(shop, Start(shop, now, stock), actions).Some?
    ensures var w := Run(shop, Start(shop, now, stock), actions).value;
      && Lasting(shop, Inventory(stock), w)
      && (Excess(shop, Inventory(stock), w) == 0 <==> WritesCurrent(shop, Start(shop, now, stock), actions))
  {
    if actions != [] {
      RunLasting(shop, now, stock, actions[..|actions|-1]);
      var w, a := Run(shop, Start(shop, now, stock), actions[..|actions|-1]).value, actions[|actions|-1];
      if a.Write? {
        WriteLasting(shop, Inventory(stock), w, a.id);
      } else {
        QuietLasting(shop, Inventory(stock), w, a);
      }
    }
  }

  /** Every unit sold has left the stock, once, if and only if no write was stale. Since a run with
      a stale write stays one, an oversale is never made good. */
  lemma {:induction false} ConservesIffCurrent(shop: Shop, now: int, stock: Option<int>, actions: seq<Action>)
    requires Positive(shop) && Run(shop, Start(shop, now, stock), actions).Some?
    ensures var w := Run(shop, Start(shop, now, stock), actions).value;
      Inventory(w.stock) + SoldUnits(shop, w.log) == Inventory(stock) <==>
      WritesCurrent(shop, Start(shop, now, stock), actions)
  {
    RunLasting(shop, now, stock, actions);
  }

  /** Two requests read one unit, and one of them has sold it. */
  lemma {:induction false} SoldMeanwhile(shop: Shop, now: int) returns (actions: seq<Action>, w: World)
    requires shop.requests == [Request(false, 0), Request(false, 1), Request(false, 0)]
    ensures Run(shop, Start(shop, now, Some(1)), actions) == Some(w)
    ensures w.phases == [Decided(1), Finished(Sold(0)), Entered] && w.stock == Some(0)
    ensures w.log == [Entry(1, Sold(0))]
  {
    actions, w := [], Start(shop, now, Some(1));
    actions, w := Then(shop, now, Some(1), actions, w, Begin(0));
    actions, w := Then(shop, now, Some(1), actions, w, Begin(1));
    actions, w := Then(shop, now, Some(1), actions, w, Begin(2));
    assert w.phases == [Entered, Entered, Entered];
    actions, w := Then(shop, now, Some(1), actions, w, Read(0));
    actions, w := Then(shop, now, Some(1), actions, w, Read(1));
    actions, w := Then(shop, now, Some(1), actions, w, Write(1));
  }

  /** The quantities have to be positive: purchases of nothing may by chance restore a balance that
      their own stale writes upset. */
  lemma {:induction false} BalanceByChance(shop: Shop, now: int) returns (actions: seq<Action>)
    requires shop.requests == [Request(false, 0), Request(false, 1), Request(false, 0)]
    ensures Run(shop, Start(shop, now, Some(1)), actions).Some?
    ensures Excess(shop, 1, Run(shop, Start(shop, now, Some(1)), actions).value) == 0
    ensures !WritesCurrent(shop, Start(shop, now, Some(1)), actions)
  {
    var w: World;
    actions, w := SoldMeanwhile(shop, now);
    actions, w := Then(shop, now, Some(1), actions, w, Read(2));
    actions, w := Then(shop, now, Some(1), actions, w, Write(0));
    assert actions[..|actions|-1] + [Write(0)] == actions;
    assert !WritesCurrent(shop, Start(shop, now, Some(1)), actions);
    actions, w := Then(shop, now, Some(1), actions, w, Write(2));
    ThreeSales(shop, w.log);
  }

  lemma {:induction false} ThreeSales(shop: Shop, log: seq<Entry>)
    requires shop.requests == [Request(false, 0), Request(false, 1), Request(false, 0)]
    requires log == [Entry(1, Sold(0)), Entry(0, Sold(1)), Entry(2, Sold(0))]
    ensures SoldUnits(shop, log) == 1
  {
    SoldUnitsOneMore(shop, [], log[0]);
    SoldUnitsOneMore(shop, [] + [log[0]], log[1]);
    SoldUnitsOneMore(shop, [] + [log[0]] + [log[1]], log[2]);
    assert log == [] + [log[0]] + [log[1]] + [log[2]];
  }
}
