/** How many requests are served when every write lands inside its lease. */
module PurchaseCount {
  import opened Options
  import opened PurchaseModel
  import opened PurchaseOrder

  function Ids(log: seq<Entry>): (r: set<nat>)
    ensures forall id :: id in r <==> exists k :: 0 <= k < |log| && log[k].id == id
  {
    if log == [] then {}
    else
      assert forall k | 0 <= k < |log| - 1 :: log[..|log|-1][k] == log[k];
      Ids(log[..|log|-1]) + {log[|log|-1].id}
  }

  function SoldTo(log: seq<Entry>): (r: set<nat>)
    ensures forall id :: id in r <==> exists k :: 0 <= k < |log| && log[k].id == id && log[k].reply.Sold?
  {
    if log == [] then {}
    else
      assert forall k | 0 <= k < |log| - 1 :: log[..|log|-1][k] == log[k];
      SoldTo(log[..|log|-1]) + if log[|log|-1].reply.Sold? then {log[|log|-1].id} else {}
  }

  lemma {:induction false} OneIdPerEntry(log: seq<Entry>)
    requires EachOnce(log)
    ensures |Ids(log)| == |log|
  {
    if log != [] {
      OneIdPerEntry(log[..|log|-1]);
      assert log[|log|-1].id !in Ids(log[..|log|-1]);
    }
  }

  /** With one unit each, sales and customers served are the same number. */
  lemma {:induction false} OneUnitPerSale(shop: Shop, initial: int, log: seq<Entry>)
    requires EachOnce(log) && Serial(shop, initial, log)
    requires forall r <- shop.requests :: r.quantity == 1
    ensures |SoldTo(log)| == SoldUnits(shop, log)
  {
    if log != [] {
      var prefix, last := log[..|log|-1], log[|log|-1];
      OneUnitPerSale(shop, initial, prefix);
      assert last.id !in SoldTo(prefix);
      assert shop.requests[last.id] in shop.requests;
    }
  }

  lemma {:induction false} FirstComeFirstServed(shop: Shop, initial: nat, log: seq<Entry>)
    requires Serial(shop, initial, log) && forall r <- shop.requests :: r.quantity == 1
    ensures Replay(shop, initial, log) == if |log| <= initial then initial - |log| else 0
  {
    if log != [] {
      FirstComeFirstServed(shop, initial, log[..|log|-1]);
      assert shop.requests[log[|log|-1].id] in shop.requests;
    }
  }

  function UpTo(n: nat): (r: set<nat>)
    ensures |r| == n && forall id: nat :: id in r <==> id < n
  {
    if n == 0 then {} else UpTo(n - 1) + {n - 1}
  }

  ghost predicate AllAnswered(w: World) {
    forall id | 0 <= id < |w.phases| :: w.phases[id].Finished? && !w.phases[id].reply.TimedOut?
  }

  /** The customers told that their purchase went through. */
  function Winners(w: World): set<nat> {
    set id: nat | id < |w.phases| && w.phases[id].Finished? && w.phases[id].reply.Sold?
  }

  lemma {:induction false} AnsweredIsLogged(log: seq<Entry>, id: nat, phase: Phase)
    requires EachOnce(log) && Accounted(log, id, phase) && phase.Finished? && !phase.reply.TimedOut?
    ensures id in Ids(log) && (phase.reply.Sold? <==> id in SoldTo(log))
  {
    var k :| 0 <= k < |log| && log[k] == Entry(id, phase.reply);
  }

  lemma {:induction false} AnsweredFillTheLog(shop: Shop, initial: int, w: World)
    requires Recorded(shop, initial, w) && AllAnswered(w)
    ensures |w.log| == |shop.requests| && Winners(w) == SoldTo(w.log)
  {
    forall id: nat | id < |w.phases|
      ensures id in Ids(w.log) && (w.phases[id].reply.Sold? <==> id in SoldTo(w.log))
    {
      assert Accounted(w.log, id, w.phases[id]);
      AnsweredIsLogged(w.log, id, w.phases[id]);
    }
    IdsInRange(shop, initial, w.log);
    assert Ids(w.log) == UpTo(|shop.requests|);
    OneIdPerEntry(w.log);
  }

  lemma {:induction false} IdsInRange(shop: Shop, initial: int, log: seq<Entry>)
    requires Serial(shop, initial, log)
    ensures forall k | 0 <= k < |log| :: log[k].id < |shop.requests|
  {
    if log != [] {
      IdsInRange(shop, initial, log[..|log|-1]);
      assert forall k | 0 <= k < |log| - 1 :: log[k] == log[..|log|-1][k];
    }
  }

  /** If each of N one-unit requests is answered without a timeout or a crash, exactly min(N, S)
      of them are told they succeeded and S - min(N, S) units are left, in every interleaving. */
  lemma {:induction false} ExactSaleCount(shop: Shop, now: int, stock: Option<int>, actions: seq<Action>)
    requires Run(shop, Start(shop, now, stock), actions).Some? && Inventory(stock) >= 0
    requires WritesInLease(shop, Start(shop, now, stock), actions)
    requires forall r <- shop.requests :: r.quantity == 1
    requires AllAnswered(Run(shop, Start(shop, now, stock), actions).value)
    ensures var w := Run(shop, Start(shop, now, stock), actions).value;
      var n, s := |shop.requests|, Inventory(stock);
      var served := if n <= s then n else s;
      |Winners(w)| == served && Inventory(w.stock) == s - served
  {
    var w := Run(shop, Start(shop, now, stock), actions).value;
    LeaseKeepsCurrent(shop, now, stock, actions);
    RunRecorded(shop, now, stock, actions);
    AnsweredFillTheLog(shop, Inventory(stock), w);
    OneUnitPerSale(shop, Inventory(stock), w.log);
    SerialConserves(shop, Inventory(stock), w.log);
    FirstComeFirstServed(shop, Inventory(stock), w.log);
  }

  /** With quantities of any size, nobody was turned away for stock that is still there. */
  lemma {:induction false} RefusalsStand(shop: Shop, now: int, stock: Option<int>, actions: seq<Action>)
    requires Run(shop, Start(shop, now, stock), actions).Some?
    requires WritesInLease(shop, Start(shop, now, stock), actions)
    ensures var w := Run(shop, Start(shop, now, stock), actions).value;
      forall id | 0 <= id < |w.phases| && id < |shop.requests| &&
          w.phases[id].Finished? && w.phases[id].reply.OutOfStock? ::
        Inventory(w.stock) < shop.requests[id].quantity
  {
    var w := Run(shop, Start(shop, now, stock), actions).value;
    LeaseKeepsCurrent(shop, now, stock, actions);
    RunRecorded(shop, now, stock, actions);
    SerialRefusals(shop, Inventory(stock), w.log);
    forall id | 0 <= id < |w.phases| && w.phases[id].Finished? && w.phases[id].reply.OutOfStock?
      ensures Inventory(w.stock) < shop.requests[id].quantity
    {
      assert Accounted(w.log, id, w.phases[id]);
      assert Entry(id, w.phases[id].reply) in w.log;
    }
  }

  lemma {:induction false} SerialRefusals(shop: Shop, initial: int, log: seq<Entry>)
    requires Serial(shop, initial, log)
    ensures forall e <- log :: (
      && e.id < |shop.requests|
      && (e.reply.OutOfStock? ==> Replay(shop, initial, log) < shop.requests[e.id].quantity))
  {
    if log != [] {
      SerialRefusals(shop, initial, log[..|log|-1]);
      assert log == log[..|log|-1] + [log[|log|-1]];
    }
  }
}
