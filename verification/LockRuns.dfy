/** Every run of one lock key: any callers, any tokens, released as often as anybody likes. */
module LockRuns {
  import opened Options
  import opened LockModel

  datatype Event =
    | Acquire(token: Token, ttl: nat)
    | Release(token: Token)     // by anybody, at any time, any number of times
    | Tick(delay: nat)

  /** The key with its history: which tokens ever got it, and how each one lost it. */
  datatype Key = Key(
    lease: Option<Lease>, now: int,
    acquired: set<Token>, released: set<Token>, expired: set<Token>,
    acquires: nat, releases: nat, expiries: nat)

  function Fresh(now: int): Key {
    Key(None, now, {}, {}, {}, 0, 0, 0)
  }

  /** Tokens are random UUIDs: a token that has held the key is never generated again. */
  predicate Legal(k: Key, e: Event) {
    match e
    case Acquire(token, ttl) => token !in k.acquired && ttl > 0
    case Release(_) => true
    case Tick(_) => true
  }

  function Step(k: Key, e: Event): Key {
    match e
    case Acquire(token, ttl) =>
      var (lease, ok) := SetNxPx(k.lease, token, k.now, ttl);
      if ok then k.(lease := lease, acquired := k.acquired + {token}, acquires := k.acquires + 1)
      else k.(lease := lease)
    case Release(token) =>
      var (lease, ok) := ReleaseScript(k.lease, token);
      if ok then k.(lease := lease, released := k.released + {token}, releases := k.releases + 1)
      else k.(lease := lease)
    case Tick(delay) =>
      var lease := Expire(k.lease, k.now + delay);
      if lease == k.lease then k.(now := k.now + delay)
      else k.(lease := lease, now := k.now + delay,
              expired := k.expired + {k.lease.value.token}, expiries := k.expiries + 1)
  }

  function Run(k: Key, es: seq<Event>): Key {
    if es == [] then k else Step(Run(k, es[..|es|-1]), es[|es|-1])
  }

  predicate LegalRun(k: Key, es: seq<Event>) {
    es == [] || (LegalRun(k, es[..|es|-1]) && Legal(Run(k, es[..|es|-1]), es[|es|-1]))
  }

  function Holder(lease: Option<Lease>): set<Token> {
    if lease.Some? then {lease.value.token} else {}
  }

  /** The tokens that ever held the key are split between the three ways of standing. */
  ghost predicate Conserved(k: Key) {
    && k.acquired == k.released + k.expired + Holder(k.lease)
    && k.released !! k.expired
    && Holder(k.lease) !! k.released + k.expired
    && (k.lease.Some? ==> k.now < k.lease.value.expiry)
  }

  ghost predicate Counted(k: Key) {
    k.acquires == |k.acquired| && k.releases == |k.released| && k.expiries == |k.expired|
  }

  lemma {:induction false} StepConserves(k: Key, e: Event)
    requires Conserved(k) && Legal(k, e)
    ensures Conserved(Step(k, e))
  {
    match e
    case Acquire(_, _) =>
    case Release(_) =>
    case Tick(_) =>
  }

  lemma {:induction false} OneMore(s: set<Token>, t: Token)
    requires t !in s
    ensures |s + {t}| == |s| + 1
  {
  }

  /** The holder's token has left the key in neither way yet. */
  lemma {:induction false} HolderIsNew(k: Key)
    requires Conserved(k) && k.lease.Some?
    ensures k.lease.value.token !in k.released && k.lease.value.token !in k.expired
  {
    assert k.lease.value.token in Holder(k.lease);
  }

  lemma {:induction false} AcquireCounts(k: Key, e: Event)
    requires Counted(k) && Legal(k, e) && e.Acquire?
    ensures Counted(Step(k, e))
  {
    OneMore(k.acquired, e.token);
  }

  lemma {:induction false} ReleaseCounts(k: Key, e: Event)
    requires Counted(k) && e.Release? && e.token !in k.released
    ensures Counted(Step(k, e))
  {
    OneMore(k.released, e.token);
  }

  lemma {:induction false} ExpiryCounts(k: Key, e: Event)
    requires Counted(k) && e.Tick? && k.lease.Some? && k.lease.value.token !in k.expired
    ensures Counted(Step(k, e))
  {
    OneMore(k.expired, k.lease.value.token);
  }

  lemma {:induction false} StepCounts(k: Key, e: Event)
    requires Conserved(k) && Counted(k) && Legal(k, e)
    ensures Counted(Step(k, e))
  {
    if e.Acquire? {
      AcquireCounts(k, e);
    } else if k.lease.Some? {
      HolderIsNew(k);
      if e.Tick? {
        ExpiryCounts(k, e);
      } else if e.token == k.lease.value.token {
        ReleaseCounts(k, e);
      }
    }
  }

  /** Every token that ever got the lock was released by a call that returned true, or expired,
      or still holds it: exactly one of the three, and each at most once. So successful acquires
      = releases returning true + expiries + (1 if held). */
  lemma {:induction false} LockConservation(now: int, es: seq<Event>)
    requires LegalRun(Fresh(now), es)
    ensures var k := Run(Fresh(now), es);
      && Conserved(k) && Counted(k)
      && k.acquires == k.releases + k.expiries + (if k.lease.Some? then 1 else 0)
  {
    if es != [] {
      LockConservation(now, es[..|es|-1]);
      var before := Run(Fresh(now), es[..|es|-1]);
      StepConserves(before, es[|es|-1]);
      StepCounts(before, es[|es|-1]);
    }
    var k := Run(Fresh(now), es);
    assert |k.released + k.expired| == |k.released| + |k.expired|;
    assert |Holder(k.lease)| == if k.lease.Some? then 1 else 0;
    assert |(k.released + k.expired) + Holder(k.lease)| == |k.released + k.expired| + |Holder(k.lease)|;
  }

  lemma {:induction false} RunSplit(k: Key, es: seq<Event>, more: seq<Event>)
    requires LegalRun(k, es + more)
    ensures LegalRun(k, es) && LegalRun(Run(k, es), more)
    ensures Run(k, es + more) == Run(Run(k, es), more)
  {
    if more == [] {
      assert es + more == es;
    } else {
      assert (es + more)[..|es + more|-1] == es + more[..|more|-1];
      RunSplit(k, es, more[..|more|-1]);
    }
  }

  /** An acquire gets the key exactly if it is free, for its time to live. */
  lemma {:induction false} AcquireTakesFreeKey(k: Key, token: Token, ttl: nat)
    ensures var k' := Step(k, Acquire(token, ttl));
      if k.lease == None
      then k'.lease == Some(Lease(token, k.now + ttl)) && token in k'.acquired && k'.acquires == k.acquires + 1
      else k' == k
  {
  }

  /** A release empties the key exactly if the key carries its token. */
  lemma {:induction false} ReleaseFreesOwnKey(k: Key, token: Token)
    ensures var k' := Step(k, Release(token));
      if k.lease.Some? && k.lease.value.token == token
      then k'.lease == None && token in k'.released && k'.releases == k.releases + 1
      else k' == k
  {
  }

  /** And time takes it at the end of its lease, not before. */
  lemma {:induction false} TimeFreesKey(k: Key, delay: nat)
    requires k.lease.Some?
    ensures var k' := Step(k, Tick(delay));
      && k'.now == k.now + delay
      && if k.now + delay >= k.lease.value.expiry
         then k'.lease == None && k.lease.value.token in k'.expired && k'.expiries == k.expiries + 1
         else k'.lease == k.lease
  {
  }

  /** A live lease survives any legal events as long as its own token is not released and its
      time is not up: late or repeated releases by former holders cannot take it away, and
      neither can new acquires. */
  lemma {:induction false} LeaseSurvives(k: Key, es: seq<Event>)
    requires Conserved(k) && k.lease.Some? && LegalRun(k, es)
    requires Release(k.lease.value.token) !in es
    requires Run(k, es).now < k.lease.value.expiry
    ensures Run(k, es).lease == k.lease
  {
    if es != [] {
      var es0, e := es[..|es|-1], es[|es|-1];
      assert e in es && forall x <- es0 :: x in es;
      LeaseSurvives(k, es0);
    }
  }
}
