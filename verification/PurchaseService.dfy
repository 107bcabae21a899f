/** The purchase routines as one caller runs them while nobody else acts, and as runs. */
module PurchaseService {
  import opened Options
  import opened LockModel
  import opened LockService
  import opened PurchaseModel
  import opened PurchaseOrder
  import opened PurchaseDamage
  import opened PurchaseLease

  const TTL_MS: nat := 5000
  const RETRY_DELAY_MS: nat := 50
  const MAX_RETRIES: nat := 20
  const WORK_MS: nat := 10

  method GetInventory(redis: Redis) returns (current: int)
    modifies redis`trace
    ensures current == Inventory(redis.stock) && redis.trace == old(redis.trace) + [GetStock]
  {
    var val := redis.Get();
    current := match val
      case Some(v) => v
      case None => 0;
  }

  /** What a caller leaves behind, and what it was told. */
  datatype Visit = Visit(now: int, lease: Option<Lease>, stock: Option<int>, reply: Reply)

  function UnlockedVisit(now: int, lease: Option<Lease>, stock: Option<int>, quantity: nat): Visit {
    var current := Inventory(stock);
    if current < quantity then Visit(now, lease, stock, OutOfStock(current))
    else
      var done := now + WORK_MS;
      Visit(done, Expire(lease, done), Some(current - quantity), Sold(current - quantity))
  }

  function LockedVisit(now: int, lease: Option<Lease>, stock: Option<int>, quantity: nat): Visit {
    var needed := SleepsFor(now, lease, RETRY_DELAY_MS);
    if needed < MAX_RETRIES then UnlockedVisit(now + RETRY_DELAY_MS * needed, None, stock, quantity)
    else
      var gaveUp := now + RETRY_DELAY_MS * MAX_RETRIES;
      Visit(gaveUp, Expire(lease, gaveUp), stock, TimedOut)
  }

  /** What a caller asks for once it is in: the stock first of all and, if there is enough of it, the
      new stock at the end. */
  function ServeCommands(stock: Option<int>, quantity: nat): seq<Command> {
    var current := Inventory(stock);
    if current < quantity then [GetStock] else [GetStock, Wait(WORK_MS), SetStock(current - quantity)]
  }

  /** With the lock all of that comes after the attempt that got it, and the release script last. */
  function LockedCommands(now: int, lease: Option<Lease>, stock: Option<int>, quantity: nat, token: Token):
      seq<Command>
  {
    var needed := SleepsFor(now, lease, RETRY_DELAY_MS);
    if needed >= MAX_RETRIES then Tries(token, TTL_MS, RETRY_DELAY_MS, MAX_RETRIES)
    else
      Tries(token, TTL_MS, RETRY_DELAY_MS, needed) + [TrySet(token, TTL_MS)] +
      ServeCommands(stock, quantity) + [EvalRelease(token)]
  }

  /** The reply tells the truth: about the stock that was there, a key never set being no stock, and
      about what is left. */
  predicate Truthful(was: Option<int>, stock: Option<int>, quantity: nat, reply: Reply) {
    var had := match was case Some(v) => v case None => 0;
    match reply
    case TimedOut => stock == was
    case OutOfStock(left) => stock == was && left == had < quantity
    case Sold(left) => stock == Some(left) && left + quantity == had && left >= 0
  }

  /** What a visit alone comes to, in numbers. */
  lemma {:induction false} VisitTells(now: int, lease: Option<Lease>, stock: Option<int>, quantity: nat)
    requires lease.Some? ==> now < lease.value.expiry
    ensures var v := LockedVisit(now, lease, stock, quantity);
      && Truthful(stock, v.stock, quantity, v.reply)
      && (if lease.Some? && lease.value.expiry - now > 950
          then v.reply == TimedOut && v.now == now + 1000 && v.lease == Expire(lease, v.now)
          else (Inventory(v.stock), v.reply) == AtomicPurchase(Inventory(stock), quantity) &&
               v.lease == None && v.reply != TimedOut)
    ensures var v := UnlockedVisit(now, lease, stock, quantity);
      && Truthful(stock, v.stock, quantity, v.reply)
      && (Inventory(v.stock), v.reply) == AtomicPurchase(Inventory(stock), quantity)
      && v.now == now + if v.reply.Sold? then 10 else 0
  {
  }

  /** What both routines do once they are in. */
  method CheckAndTake(redis: Redis, quantity: nat) returns (reply: Reply)
    modifies redis
    ensures Visit(redis.now, redis.lease, redis.stock, reply) ==
      UnlockedVisit(old(redis.now), old(redis.lease), old(redis.stock), quantity)
    ensures redis.trace == old(redis.trace) + ServeCommands(old(redis.stock), quantity)
  {
    var current := GetInventory(redis);
    if current < quantity {
      reply := OutOfStock(current);
    } else {
      redis.Sleep(WORK_MS);
      redis.Set(current - quantity);
      reply := Sold(current - quantity);
    }
  }

  /** A key that outlives all twenty attempts, the last of them 950 ms from now, makes the purchase
      time out after a second and change nothing; otherwise it is one atomic purchase, and the lock
      is free afterwards. */
  method PurchaseWithLock(redis: Redis, token: Token, quantity: nat) returns (reply: Reply)
    requires redis.lease.Some? ==> redis.now < redis.lease.value.expiry
    modifies redis
    ensures Visit(redis.now, redis.lease, redis.stock, reply) ==
      LockedVisit(old(redis.now), old(redis.lease), old(redis.stock), quantity)
    ensures redis.trace == old(redis.trace) +
      LockedCommands(old(redis.now), old(redis.lease), old(redis.stock), quantity, token)
    ensures Truthful(old(redis.stock), redis.stock, quantity, reply)
    ensures old(redis.lease.Some? && redis.lease.value.expiry - redis.now > 950) ==>
      && reply == TimedOut && redis.now == old(redis.now) + 1000
      && redis.lease == if redis.now < old(redis.lease).value.expiry then old(redis.lease) else None
    ensures old(redis.lease.None? || redis.lease.value.expiry - redis.now <= 950) ==>
      && (Inventory(redis.stock), reply) == AtomicPurchase(Inventory(old(redis.stock)), quantity)
      && redis.lease == None && reply != TimedOut
    ensures old(redis.stock) == None && quantity > 0 ==>
      redis.stock == None && (reply == OutOfStock(0) || reply == TimedOut)
  {
    VisitTells(redis.now, redis.lease, redis.stock, quantity);
    var lock := new DistributedLock(redis, TTL_MS, RETRY_DELAY_MS, MAX_RETRIES);
    var acquired := lock.Acquire(token);
    if !acquired {
      return TimedOut;
    }
    reply := CheckAndTake(redis, quantity);
    var _ := lock.Release();
  }

  method PurchaseWithoutLock(redis: Redis, quantity: nat) returns (reply: Reply)
    modifies redis
    ensures Visit(redis.now, redis.lease, redis.stock, reply) ==
      UnlockedVisit(old(redis.now), old(redis.lease), old(redis.stock), quantity)
    ensures redis.trace == old(redis.trace) + ServeCommands(old(redis.stock), quantity)
    ensures (Inventory(redis.stock), reply) == AtomicPurchase(Inventory(old(redis.stock)), quantity)
    ensures Truthful(old(redis.stock), redis.stock, quantity, reply)
    ensures redis.now == old(redis.now) + if reply.Sold? then 10 else 0
    ensures old(redis.stock) == None && quantity > 0 ==> redis.stock == None && reply == OutOfStock(0)
  {
    reply := CheckAndTake(redis, quantity);
  }

  // The routines are runs of the transition system

  /** From `start` the run `actions`, whose writes are all in lease, comes to `w` and asks for
      `commands` on the way. */
  ghost predicate Reaches(shop: Shop, start: World, actions: seq<Action>, w: World, commands: seq<Command>) {
    && Run(shop, start, actions) == Some(w) && WritesInLease(shop, start, actions)
    && Issued(shop, start, actions) == commands
  }

  lemma {:induction false} Then(shop: Shop, start: World, actions: seq<Action>, w: World, commands: seq<Command>,
                              a: Action)
    returns (actions': seq<Action>, w': World)
    requires Reaches(shop, start, actions, w, commands)
    requires Legal(shop, w, a) && (a.Write? ==> Holds(w.lease, a.id))
    ensures w' == Step(shop, w, a)
    ensures Reaches(shop, start, actions', w', commands + Issue(shop, w, a))
  {
    actions', w' := actions + [a], Step(shop, w, a);
    RunOneMore(shop, start, actions, a);
    assert actions'[..|actions|] == actions;
  }

  lemma {:induction false} Joined(a: seq<Command>, b: seq<Command>, c: seq<Command>)
    ensures (a + b) + c == a + (b + c)
  {
  }

  lemma {:induction false} Listed(before: seq<Command>, a: Command, b: Command, c: Command)
    ensures before + [a] + [b, c] == before + [a, b, c]
    ensures [a] + [b] == [a, b]
  {
  }

  lemma {:induction false} ThenTwo(shop: Shop, start: World, actions: seq<Action>, w: World, commands: seq<Command>,
                                 a: Action, w1: World, b: Action)
    returns (actions': seq<Action>, w': World)
    requires Reaches(shop, start, actions, w, commands)
    requires Legal(shop, w, a) && !a.Write? && w1 == Step(shop, w, a)
    requires Legal(shop, w1, b) && (b.Write? ==> Holds(w1.lease, b.id))
    ensures w' == Step(shop, w1, b)
    ensures Reaches(shop, start, actions', w', commands + (Issue(shop, w, a) + Issue(shop, w1, b)))
  {
    actions', w' := Then(shop, start, actions, w, commands, a);
    actions', w' := Then(shop, start, actions', w1, commands + Issue(shop, w, a), b);
    Joined(commands, Issue(shop, w, a), Issue(shop, w1, b));
  }

  lemma {:induction false} SleepOnce(now: int, lease: Option<Lease>)
    requires lease.Some? && now < lease.value.expiry
    ensures var now' := now + RETRY_DELAY_MS;
      SleepsFor(now, lease, RETRY_DELAY_MS) == SleepsFor(now', Expire(lease, now'), RETRY_DELAY_MS) + 1
  {
  }

  lemma {:induction false} TryInVain(shop: Shop, start: World, before: seq<Action>, w: World,
                                   commands: seq<Command>, id: nat, left: nat)
    returns (actions: seq<Action>, w': World)
    requires Reaches(shop, start, before, w, commands)
    requires |w.phases| == |shop.requests| && id < |w.phases| && w.phases[id] == Trying(left)
    requires left > 0 && w.lease.Some?
    ensures Reaches(shop, start, actions, w', commands + [TrySet(id, shop.ttl), Wait(RETRY_DELAY_MS)])
    ensures var now' := w.now + RETRY_DELAY_MS;
      w' == w.(now := now', lease := Expire(w.lease, now'), phases := w.phases[id := Trying(left - 1)])
  {
    var tried := w.(phases := w.phases[id := Trying(left - 1)]);
    assert Step(shop, w, Attempt(id)) == tried;
    actions, w' := ThenTwo(shop, start, before, w, commands, Attempt(id), tried, Tick(RETRY_DELAY_MS));
    assert [TrySet(id, shop.ttl)] + [Wait(RETRY_DELAY_MS)] == [TrySet(id, shop.ttl), Wait(RETRY_DELAY_MS)];
  }

  lemma {:induction false} TryOnce(shop: Shop, start: World, before: seq<Action>, w: World,
                                   commands: seq<Command>, id: nat, left: nat)
    returns (actions: seq<Action>, w': World)
    requires Reaches(shop, start, before, w, commands)
    requires |w.phases| == |shop.requests| && id < |w.phases| && w.phases[id] == Trying(left)
    requires left == 0 || w.lease.None?
    ensures Reaches(shop, start, actions, w', commands + if left == 0 then [] else [TrySet(id, shop.ttl)])
    ensures w' == if left == 0 then w.(phases := w.phases[id := Finished(TimedOut)])
                  else w.(lease := Some(Lease(id, w.now + shop.ttl)), phases := w.phases[id := Entered],
                         won := w.won[id := w.now])
  {
    if left == 0 {
      actions, w' := Then(shop, start, before, w, commands, Attempt(id));
      assert w'.lease == w.lease && w'.phases == w.phases[id := Finished(TimedOut)];
    } else {
      actions, w' := Then(shop, start, before, w, commands, Attempt(id));
      assert w'.phases == w.phases[id := Entered] && w'.won == w.won[id := w.now];
    }
  }

  /** Where the retry loop ends that starts in `w` with `left` attempts to go. */
  function Tried(shop: Shop, w: World, id: nat, left: nat): World
    requires id < |w.phases|
  {
    var needed := SleepsFor(w.now, w.lease, RETRY_DELAY_MS);
    if needed < left then
      var now' := w.now + RETRY_DELAY_MS * needed;
      w.(now := now', lease := Some(Lease(id, now' + shop.ttl)), phases := w.phases[id := Entered],
         won := w.won[id := now'])
    else
      var now' := w.now + RETRY_DELAY_MS * left;
      w.(now := now', lease := Expire(w.lease, now'), phases := w.phases[id := Finished(TimedOut)])
  }

  lemma {:induction false} TriedAgain(shop: Shop, w: World, id: nat, left: nat, w1: World)
    requires id < |w.phases| && left > 0 && w.lease.Some? && w.now < w.lease.value.expiry
    requires w1 == w.(now := w.now + RETRY_DELAY_MS, lease := Expire(w.lease, w.now + RETRY_DELAY_MS),
                      phases := w.phases[id := Trying(left - 1)])
    ensures Tried(shop, w1, id, left - 1) == Tried(shop, w, id, left)
  {
    SleepOnce(w.now, w.lease);
  }

  function TriedCommands(shop: Shop, w: World, id: nat, left: nat): seq<Command> {
    var needed := SleepsFor(w.now, w.lease, RETRY_DELAY_MS);
    if needed < left then Tries(id, shop.ttl, RETRY_DELAY_MS, needed) + [TrySet(id, shop.ttl)]
    else Tries(id, shop.ttl, RETRY_DELAY_MS, left)
  }

  lemma {:induction false} TriedCommandsAgain(shop: Shop, w: World, id: nat, left: nat, w1: World)
    requires left > 0 && w.lease.Some? && w.now < w.lease.value.expiry
    requires w1.now == w.now + RETRY_DELAY_MS && w1.lease == Expire(w.lease, w.now + RETRY_DELAY_MS)
    ensures TriedCommands(shop, w, id, left) ==
      [TrySet(id, shop.ttl), Wait(RETRY_DELAY_MS)] + TriedCommands(shop, w1, id, left - 1)
  {
    SleepOnce(w.now, w.lease);
    var needed := SleepsFor(w.now, w.lease, RETRY_DELAY_MS);
    FirstTry(id, shop.ttl, RETRY_DELAY_MS, if needed < left then needed else left);
  }

  /** The retry loop is a run. */
  lemma {:induction false} TryIsARun(shop: Shop, start: World, before: seq<Action>, w: World,
                                   commands: seq<Command>, id: nat, left: nat)
    returns (actions: seq<Action>, w': World)
    requires Reaches(shop, start, before, w, commands)
    requires |w.phases| == |shop.requests| && id < |w.phases| && w.phases[id] == Trying(left)
    requires w.lease.Some? ==> w.now < w.lease.value.expiry
    ensures w' == Tried(shop, w, id, left)
    ensures Reaches(shop, start, actions, w', commands + TriedCommands(shop, w, id, left))
    decreases left
  {
    if left == 0 || w.lease.None? {
      actions, w' := TryOnce(shop, start, before, w, commands, id, left);
    } else {
      var tried: World;
      var once := [TrySet(id, shop.ttl), Wait(RETRY_DELAY_MS)];
      actions, tried := TryInVain(shop, start, before, w, commands, id, left);
      TriedAgain(shop, w, id, left, tried);
      TriedCommandsAgain(shop, w, id, left, tried);
      actions, w' := TryIsARun(shop, start, actions, tried, commands + once, id, left - 1);
      Joined(commands, once, TriedCommands(shop, tried, id, left - 1));
    }
  }

  /** Where a request inside ends that finds enough stock. */
  function Sale(shop: Shop, w: World, id: nat): World
    requires id < |w.phases| && id < |shop.requests|
  {
    var left := Inventory(w.stock) - shop.requests[id].quantity;
    w.(now := w.now + WORK_MS, stock := Some(left), phases := w.phases[id := Answer(shop, id, Sold(left))],
       log := w.log + [Entry(id, Sold(left))])
  }

  lemma {:induction false} SaleSteps(shop: Shop, w: World, id: nat)
    requires |w.phases| == |shop.requests| && id < |w.phases| && w.phases[id] == Entered
    requires Holds(w.lease, id) && w.lease.value.expiry > w.now + WORK_MS
    requires Inventory(w.stock) >= shop.requests[id].quantity
    ensures var w1 := w.(phases := w.phases[id := Decided(Inventory(w.stock))]);
      var w2 := w1.(now := w.now + WORK_MS);
      && Legal(shop, w, Read(id)) && Step(shop, w, Read(id)) == w1 && Issue(shop, w, Read(id)) == [GetStock]
      && Step(shop, w1, Tick(WORK_MS)) == w2 && Issue(shop, w1, Tick(WORK_MS)) == [Wait(WORK_MS)]
      && Legal(shop, w2, Write(id)) && Holds(w2.lease, id) && Step(shop, w2, Write(id)) == Sale(shop, w, id)
      && Issue(shop, w2, Write(id)) == [SetStock(Inventory(w.stock) - shop.requests[id].quantity)]
  {
    var sold := Answer(shop, id, Sold(Inventory(w.stock) - shop.requests[id].quantity));
    assert w.phases[id := Decided(Inventory(w.stock))][id := sold] == w.phases[id := sold];
  }

  lemma {:induction false} SellIsARun(shop: Shop, start: World, before: seq<Action>, w: World,
                                    commands: seq<Command>, id: nat)
    returns (actions: seq<Action>, w': World)
    requires Reaches(shop, start, before, w, commands)
    requires |w.phases| == |shop.requests| && id < |w.phases| && w.phases[id] == Entered
    requires Holds(w.lease, id) && w.lease.value.expiry > w.now + WORK_MS
    requires Inventory(w.stock) >= shop.requests[id].quantity
    ensures var left := Inventory(w.stock) - shop.requests[id].quantity;
      w' == Sale(shop, w, id) &&
      Reaches(shop, start, actions, w', commands + [GetStock] + [Wait(WORK_MS), SetStock(left)])
  {
    var w1 := w.(phases := w.phases[id := Decided(Inventory(w.stock))]);
    SaleSteps(shop, w, id);
    actions, w' := Then(shop, start, before, w, commands, Read(id));
    Listed([], Wait(WORK_MS), SetStock(Inventory(w.stock) - shop.requests[id].quantity), GetStock);
    actions, w' := ThenTwo(shop, start, actions, w1, commands + [GetStock],
                           Tick(WORK_MS), w1.(now := w.now + WORK_MS), Write(id));
  }

  /** Where a request inside ends, whether or not there is enough. */
  function Served(shop: Shop, w: World, id: nat): World
    requires id < |w.phases| && id < |shop.requests|
  {
    var current := Inventory(w.stock);
    if current >= shop.requests[id].quantity then Sale(shop, w, id)
    else w.(phases := w.phases[id := Answer(shop, id, OutOfStock(current))],
            log := w.log + [Entry(id, OutOfStock(current))])
  }

  lemma {:induction false} ServedVisit(shop: Shop, w: World, id: nat)
    requires id < |w.phases| && id < |shop.requests|
    ensures var v, w' := UnlockedVisit(w.now, None, w.stock, shop.requests[id].quantity), Served(shop, w, id);
      && w'.now == v.now && w'.lease == w.lease && v.lease == None && w'.stock == v.stock
      && w'.phases == w.phases[id := Answer(shop, id, v.reply)]
  {
  }

  /** Read, work and write, from inside. */
  lemma {:induction false} ServeIsARun(shop: Shop, start: World, before: seq<Action>, w: World,
                                   commands: seq<Command>, id: nat)
    returns (actions: seq<Action>, w': World)
    requires Reaches(shop, start, before, w, commands)
    requires |w.phases| == |shop.requests| && id < |w.phases| && w.phases[id] == Entered
    requires Holds(w.lease, id) && w.lease.value.expiry > w.now + WORK_MS
    ensures Reaches(shop, start, actions, w', commands + ServeCommands(w.stock, shop.requests[id].quantity))
    ensures w' == Served(shop, w, id)
  {
    if Inventory(w.stock) >= shop.requests[id].quantity {
      actions, w' := SellIsARun(shop, start, before, w, commands, id);
      Listed(commands, GetStock, Wait(WORK_MS), SetStock(Inventory(w.stock) - shop.requests[id].quantity));
    } else {
      actions, w' := Then(shop, start, before, w, commands, Read(id));
    }
  }

  lemma {:induction false} EnteredIsARun(shop: Shop, start: World, before: seq<Action>, w: World,
                                   commands: seq<Command>, id: nat)
    returns (actions: seq<Action>, w': World)
    requires Reaches(shop, start, before, w, commands)
    requires |w.phases| == |shop.requests| && id < |w.phases| && w.phases[id] == Entered
    requires shop.requests[id].locked && w.lease == Some(Lease(id, w.now + TTL_MS))
    ensures Reaches(shop, start, actions, w',
                    commands + ServeCommands(w.stock, shop.requests[id].quantity) + [EvalRelease(id)])
    ensures var v := UnlockedVisit(w.now, None, w.stock, shop.requests[id].quantity);
      && Visit(w'.now, w'.lease, w'.stock, v.reply) == v
      && w'.phases == w.phases[id := Finished(v.reply)]
  {
    actions, w' := ServeIsARun(shop, start, before, w, commands, id);
    ServedVisit(shop, w, id);
    actions, w' := Then(shop, start, actions, w',
                        commands + ServeCommands(w.stock, shop.requests[id].quantity), Release(id));
  }

  lemma {:induction false} TriedFrom(shop: Shop, w: World, id: nat)
    requires id < |w.phases|
    ensures var w1, w2 := w.(phases := w.phases[id := Trying(MAX_RETRIES)]), w;
      Tried(shop, w1, id, MAX_RETRIES) == Tried(shop, w2, id, MAX_RETRIES)
  {
  }

  lemma {:induction false} TriedIn(shop: Shop, w: World, id: nat)
    requires id < |w.phases| && SleepsFor(w.now, w.lease, RETRY_DELAY_MS) < MAX_RETRIES
    ensures var w' := Tried(shop, w, id, MAX_RETRIES);
      && w'.phases == w.phases[id := Entered] && w'.lease == Some(Lease(id, w'.now + shop.ttl))
      && forall q: nat :: LockedVisit(w.now, w.lease, w.stock, q) == UnlockedVisit(w'.now, None, w'.stock, q)
  {
  }

  lemma {:induction false} TriedOut(shop: Shop, w: World, id: nat)
    requires id < |w.phases| && SleepsFor(w.now, w.lease, RETRY_DELAY_MS) >= MAX_RETRIES
    ensures var w' := Tried(shop, w, id, MAX_RETRIES);
      && w'.phases == w.phases[id := Finished(TimedOut)]
      && forall q: nat :: LockedVisit(w.now, w.lease, w.stock, q) == Visit(w'.now, w'.lease, w'.stock, TimedOut)
  {
  }

  lemma {:induction false} BeginIsARun(shop: Shop, w: World, id: nat, begun: World) returns (actions: seq<Action>)
    requires shop.retries == MAX_RETRIES
    requires |w.phases| == |shop.requests| && id < |w.phases| && w.phases[id].Idle? && shop.requests[id].locked
    requires begun == w.(phases := w.phases[id := Trying(MAX_RETRIES)])
    ensures Reaches(shop, w, actions, begun, [])
  {
    var w': World;
    assert Reaches(shop, w, [], w, []);
    actions, w' := Then(shop, w, [], w, [], Begin(id));
  }

  /** Whatever the others have done and have yet to do, a locked purchase that nobody interrupts is
      one of the runs: it ends just where the routine ends, and its write is in lease. */
  lemma {:induction false} LockedVisitIsARun(shop: Shop, w: World, id: nat) returns (actions: seq<Action>, w': World)
    requires shop.retries == MAX_RETRIES && shop.ttl == TTL_MS
    requires |w.phases| == |shop.requests| && id < |w.phases| && w.phases[id].Idle? && shop.requests[id].locked
    requires w.lease.Some? ==> w.now < w.lease.value.expiry
    ensures Run(shop, w, actions) == Some(w') && WritesInLease(shop, w, actions)
    ensures var v := LockedVisit(w.now, w.lease, w.stock, shop.requests[id].quantity);
      && Visit(w'.now, w'.lease, w'.stock, v.reply) == v
      && w'.phases == w.phases[id := Finished(v.reply)]
    ensures Issued(shop, w, actions) ==
      LockedCommands(w.now, w.lease, w.stock, shop.requests[id].quantity, id)
  {
    var begun := w.(phases := w.phases[id := Trying(MAX_RETRIES)]);
    actions := BeginIsARun(shop, w, id, begun);
    actions, w' := TryIsARun(shop, w, actions, begun, [], id, MAX_RETRIES);
    TriedFrom(shop, w, id);
    var tries := TriedCommands(shop, begun, id, MAX_RETRIES);
    assert [] + tries == tries;
    if SleepsFor(w.now, w.lease, RETRY_DELAY_MS) < MAX_RETRIES {
      TriedIn(shop, w, id);
      actions, w' := EnteredIsARun(shop, w, actions, w', tries, id);
    } else {
      TriedOut(shop, w, id);
    }
  }

  /** The same for a purchase without the lock, whose write is in nobody's lease. */
  lemma {:induction false} UnlockedVisitIsARun(shop: Shop, w: World, id: nat) returns (actions: seq<Action>)
    requires |w.phases| == |shop.requests| && id < |w.phases| && w.phases[id].Idle? && !shop.requests[id].locked
    ensures Run(shop, w, actions).Some?
    ensures var v := UnlockedVisit(w.now, w.lease, w.stock, shop.requests[id].quantity);
      var w' := Run(shop, w, actions).value;
      && Visit(w'.now, w'.lease, w'.stock, v.reply) == v
      && w'.phases == w.phases[id := Finished(v.reply)]
    ensures Issued(shop, w, actions) == ServeCommands(w.stock, shop.requests[id].quantity)
  {
    var w': World;
    actions, w' := OneMore(shop, w, [], w, Begin(id));
    actions, w' := OneMore(shop, w, actions, w', Read(id));
    if w'.phases[id].Decided? {
      actions, w' := OneMore(shop, w, actions, w', Tick(WORK_MS));
      actions, w' := OneMore(shop, w, actions, w', Write(id));
    }
  }

  lemma {:induction false} OneMore(shop: Shop, start: World, actions: seq<Action>, w: World, a: Action)
    returns (actions': seq<Action>, w': World)
    requires Run(shop, start, actions) == Some(w) && Legal(shop, w, a)
    ensures actions' == actions + [a] && w' == Step(shop, w, a) && Run(shop, start, actions') == Some(w')
    ensures Issued(shop, start, actions') == Issued(shop, start, actions) + Issue(shop, w, a)
  {
    actions', w' := actions + [a], Step(shop, w, a);
    RunOneMore(shop, start, actions, a);
    assert actions'[..|actions|] == actions;
  }

  /** With the time to live that the services use, purchases under the lock are safe exactly if
      nobody stalls under it for five seconds. */
  lemma {:induction false} FiveSeconds(shop: Shop, hold: nat)
    requires shop.ttl == TTL_MS && shop.retries == MAX_RETRIES && |shop.requests| > 1
    requires AllLocked(shop) && Positive(shop)
    ensures Conserves(shop, hold) <==> hold < 5000
    ensures Linear(shop, hold) <==> hold < 5000
  {
    SafeIffPrompt(shop, hold);
    assert MayWrite(shop, 0) && MayWrite(shop, 1);
  }
}
