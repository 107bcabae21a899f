/**
 Purchases of one item by any number of requests, interleaved command by command, with leases
 that expire, requests that stall for any time, and crashes.
 */
module PurchaseModel {
  import opened Options
  import opened LockModel

  /** A request is known by its position in `requests`, which also serves as its lock token. */
  datatype Request = Request(locked: bool, quantity: nat)

  datatype Reply = Sold(remaining: int) | OutOfStock(remaining: int) | TimedOut

  datatype Phase =
    | Idle
    | Trying(left: nat)      // attempts at the lock still to make
    | Entered                // next: read the stock
    | Decided(seen: int)     // read `seen` and chose to sell; next: write the stock
    | Leaving(reply: Reply)  // next: the release script
    | Unwinding              // cancelled or interrupted under the lock; next: the release script
    | Finished(reply: Reply)
    | Crashed                // gone without an answer

  datatype Shop = Shop(requests: seq<Request>, retries: nat, ttl: nat)

  /** One line of the history per request that took effect: a sale when it writes the stock, a
      refusal when it reads too little of it. */
  datatype Entry = Entry(id: nat, reply: Reply)

  /** `won` records when each request got the lock; no step looks at it. */
  datatype World = World(
    now: int, lease: Option<Lease>, stock: Option<int>, phases: seq<Phase>, log: seq<Entry>,
    won: map<nat, int>)

  datatype Action =
    | Tick(delay: nat)
    | Begin(id: nat)
    | Attempt(id: nat)
    | Read(id: nat)
    | Write(id: nat)
    | Unwind(id: nat)        // an exception leaves the critical section, whose exit releases the lock
    | Release(id: nat)
    | Crash(id: nat)

  /** A stock key that was never set reads as zero. */
  function Inventory(stock: Option<int>): int {
    if stock.Some? then stock.value else 0
  }

  function Start(shop: Shop, now: int, stock: Option<int>): World {
    World(now, None, stock, seq(|shop.requests|, _ => Idle), [], map[])
  }

  predicate Legal(shop: Shop, w: World, a: Action) {
    |w.phases| == |shop.requests| &&
    match a
    case Tick(_) => true
    case Begin(id) => id < |w.phases| && w.phases[id].Idle?
    case Attempt(id) => id < |w.phases| && w.phases[id].Trying?
    case Read(id) => id < |w.phases| && w.phases[id].Entered?
    case Write(id) => id < |w.phases| && w.phases[id].Decided?
    case Unwind(id) => id < |w.phases| && shop.requests[id].locked &&
      (w.phases[id].Entered? || w.phases[id].Decided? || w.phases[id].Leaving?)
    case Release(id) => id < |w.phases| && (w.phases[id].Leaving? || w.phases[id].Unwinding?)
    case Crash(id) => id < |w.phases| && !w.phases[id].Finished?
  }

  /** A locked request still has to release; an unlocked one is done. */
  function Answer(shop: Shop, id: nat, reply: Reply): Phase
    requires id < |shop.requests|
  {
    if shop.requests[id].locked then Leaving(reply) else Finished(reply)
  }

  function Step(shop: Shop, w: World, a: Action): World
    requires Legal(shop, w, a)
  {
    match a
    case Tick(delay) =>
      w.(now := w.now + delay, lease := Expire(w.lease, w.now + delay))
    case Begin(id) =>
      w.(phases := w.phases[id := if shop.requests[id].locked then Trying(shop.retries) else Entered])
    case Attempt(id) =>
      var left := w.phases[id].left;
      if left == 0 then w.(phases := w.phases[id := Finished(TimedOut)])
      else
        var (lease, ok) := SetNxPx(w.lease, id, w.now, shop.ttl);
        w.(lease := lease, phases := w.phases[id := if ok then Entered else Trying(left - 1)],
           won := if ok then w.won[id := w.now] else w.won)
    case Read(id) =>
      var current := Inventory(w.stock);
      if current < shop.requests[id].quantity then
        w.(phases := w.phases[id := Answer(shop, id, OutOfStock(current))],
           log := w.log + [Entry(id, OutOfStock(current))])
      else w.(phases := w.phases[id := Decided(current)])
    case Write(id) =>
      var remaining := w.phases[id].seen - shop.requests[id].quantity;
      w.(stock := Some(remaining),
         phases := w.phases[id := Answer(shop, id, Sold(remaining))],
         log := w.log + [Entry(id, Sold(remaining))])
    case Unwind(id) =>
      w.(phases := w.phases[id := Unwinding])
    case Release(id) =>
      w.(lease := ReleaseScript(w.lease, id).0,
         phases := w.phases[id := if w.phases[id].Unwinding? then Crashed else Finished(w.phases[id].reply)])
    case Crash(id) =>
      w.(phases := w.phases[id := Crashed])
  }

  /** What an action asks of Redis or, for a `Tick`, of the clock. */
  function Issue(shop: Shop, w: World, a: Action): seq<Command>
    requires Legal(shop, w, a)
  {
    match a
    case Tick(delay) => [Wait(delay)]
    case Attempt(id) => if w.phases[id].left == 0 then [] else [TrySet(id, shop.ttl)]
    case Read(_) => [GetStock]
    case Write(id) => [SetStock(w.phases[id].seen - shop.requests[id].quantity)]
    case Release(id) => [EvalRelease(id)]
    case _ => []
  }

  /** `None` when some action was not possible where the run has it. */
  function Run(shop: Shop, w: World, actions: seq<Action>): Option<World> {
    if actions == [] then Some(w)
    else
      var before := Run(shop, w, actions[..|actions|-1]);
      if before.Some? && Legal(shop, before.value, actions[|actions|-1])
      then Some(Step(shop, before.value, actions[|actions|-1]))
      else None
  }

  lemma {:induction false} RunOneMore(shop: Shop, w: World, actions: seq<Action>, a: Action)
    ensures var before := Run(shop, w, actions);
      Run(shop, w, actions + [a]) ==
      if before.Some? && Legal(shop, before.value, a) then Some(Step(shop, before.value, a)) else None
  {
    assert (actions + [a])[..|actions|] == actions;
  }

  /** What a run asks for, one thing after the other. */
  function Issued(shop: Shop, w: World, actions: seq<Action>): seq<Command> {
    if actions == [] then []
    else
      var before, a := Run(shop, w, actions[..|actions|-1]), actions[|actions|-1];
      Issued(shop, w, actions[..|actions|-1]) +
      if before.Some? && Legal(shop, before.value, a) then Issue(shop, before.value, a) else []
  }

  /** Units handed to customers so far. */
  function SoldUnits(shop: Shop, log: seq<Entry>): nat {
    if log == [] then 0
    else
      var last := log[|log|-1];
      SoldUnits(shop, log[..|log|-1]) +
      if last.reply.Sold? && last.id < |shop.requests| then shop.requests[last.id].quantity else 0
  }

  lemma {:induction false} SoldUnitsOneMore(shop: Shop, log: seq<Entry>, e: Entry)
    ensures SoldUnits(shop, log + [e]) == SoldUnits(shop, log) +
      if e.reply.Sold? && e.id < |shop.requests| then shop.requests[e.id].quantity else 0
  {
    assert (log + [e])[..|log|] == log;
  }
}
