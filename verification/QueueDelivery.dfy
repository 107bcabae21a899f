/** Every stream entry is somewhere, in one place only, and its task is started at most once. */
module QueueDelivery {
  import opened Options
  import opened QueueModel

  /** The group's bookkeeping. */
  ghost predicate Split(s: Store) {
    && s.delivered <= |s.stream|
    && (forall i: nat :: i < s.delivered <==> i in s.pending || i in s.acked)
    && (forall i | i in s.pending :: i !in s.acked)
  }

  /** A worker holds different entries, all pending under its own name. */
  ghost predicate Holding(s: Store, name: string, worker: Worker) {
    worker.Busy? ==>
      && worker.batch != []
      && (forall k | 0 <= k < |worker.batch| ::
            worker.batch[k] in s.pending && s.pending[worker.batch[k]] == name)
      && (forall j, k | 0 <= j < k < |worker.batch| :: worker.batch[j] != worker.batch[k])
  }

  ghost predicate Apart(a: Worker, b: Worker) {
    a.Busy? && b.Busy? ==>
      forall j, k | 0 <= j < |a.batch| && 0 <= k < |b.batch| :: a.batch[j] != b.batch[k]
  }

  ghost predicate Delivery(x: World) {
    && |x.workers| == |x.names| && Split(x.store) && x.cancelled <= x.store.acked
    && (forall w | 0 <= w < |x.workers| :: Holding(x.store, x.names[w], x.workers[w]))
    && (forall v, w | 0 <= v < w < |x.workers| :: Apart(x.workers[v], x.workers[w]))
  }

  lemma {:induction false} DeliveryRead(rules: Rules, x: World, w: nat)
    requires Delivery(x) && Legal(rules, x, Read(w))
    ensures Delivery(Step(rules, x, Read(w)))
  {
    var x' := Step(rules, x, Read(w));
    PendingAfterRead(x.store, x.names[w], BatchSize(rules.dialect, x.store));
    forall v | 0 <= v < |x.workers| && v != w
      ensures Apart(x.workers[v], x'.workers[w]) && Apart(x'.workers[w], x.workers[v])
      ensures Holding(x'.store, x.names[v], x.workers[v])
    {
      assert Holding(x.store, x.names[v], x.workers[v]);
    }
  }

  lemma {:induction false} DeliveryAck(rules: Rules, x: World, a: Action)
    requires Delivery(x) && Legal(rules, x, a) && (a.Ack? || a.Skip? || a.Cancel?)
    ensures Delivery(Step(rules, x, a))
  {
    var x' := Step(rules, x, a);
    assert Holding(x.store, x.names[a.w], x.workers[a.w]);
    forall v | 0 <= v < |x.workers| && v != a.w
      ensures Apart(x.workers[v], x'.workers[a.w]) && Apart(x'.workers[a.w], x.workers[v])
      ensures Holding(x'.store, x.names[v], x.workers[v])
    {
      assert Holding(x.store, x.names[v], x.workers[v]);
      assert if v < a.w then Apart(x.workers[v], x.workers[a.w]) else Apart(x.workers[a.w], x.workers[v]);
    }
  }

  lemma {:induction false} DeliveryOther(rules: Rules, x: World, a: Action)
    requires Delivery(x) && Legal(rules, x, a) && !a.Read? && !a.Ack? && !a.Skip? && !a.Cancel?
    ensures Delivery(Step(rules, x, a))
  {
    var x' := Step(rules, x, a);
    forall w | 0 <= w < |x.workers| ensures Holding(x'.store, x.names[w], x'.workers[w]) {
      assert Holding(x.store, x.names[w], x.workers[w]);
    }
    forall v, w | 0 <= v < w < |x.workers| ensures Apart(x'.workers[v], x'.workers[w]) {
      assert Apart(x.workers[v], x.workers[w]);
    }
  }

  /** The entries in a worker's hands whose task has not been started by it. */
  ghost predicate Unstarted(started: seq<nat>, worker: Worker) {
    worker.Busy? && worker.batch != [] ==>
      && (forall k | 1 <= k < |worker.batch| :: worker.batch[k] !in started)
      && (worker.stage.Fetched? || worker.stage.Marked? ==> worker.batch[0] !in started)
  }

  ghost predicate AtMostOnce(x: World) {
    && (forall j, k | 0 <= j < k < |x.started| :: x.started[j] != x.started[k])
    && (forall i <- x.started :: i < x.store.delivered)
    && (forall w | 0 <= w < |x.workers| :: Unstarted(x.started, x.workers[w]))
  }

  lemma {:induction false} UnstartedStays(rules: Rules, x: World, a: Action, w: nat)
    requires Delivery(x) && AtMostOnce(x) && Legal(rules, x, a) && w < |x.workers|
    ensures Unstarted(Step(rules, x, a).started, Step(rules, x, a).workers[w])
  {
    assert Unstarted(x.started, x.workers[w]) && Holding(x.store, x.names[w], x.workers[w]);
    if a.Start? && w != a.w {
      assert Apart(x.workers[if w < a.w then w else a.w], x.workers[if w < a.w then a.w else w]);
    }
  }

  lemma {:induction false} StepAtMostOnce(rules: Rules, x: World, a: Action)
    requires Delivery(x) && AtMostOnce(x) && Legal(rules, x, a)
    ensures AtMostOnce(Step(rules, x, a))
  {
    var x' := Step(rules, x, a);
    forall w | 0 <= w < |x.workers| ensures Unstarted(x'.started, x'.workers[w]) {
      UnstartedStays(rules, x, a, w);
    }
    if a.Start? {
      assert Unstarted(x.started, x.workers[a.w]) && Holding(x.store, x.names[a.w], x.workers[a.w]);
    }
  }

  /** Over any run, with workers and producers dying anywhere: the stream is an undelivered tail
      after a delivered front, the front is split between pending entries, each under one
      consumer, and acknowledged ones; no two workers hold the same entry; and no entry's task is
      started twice. */
  lemma {:induction false} DeliveryConservation(rules: Rules, names: seq<string>, actions: seq<Action>)
    requires Run(rules, Begin(names), actions).Some?
    ensures var x := Run(rules, Begin(names), actions).value; Delivery(x) && AtMostOnce(x)
  {
    if actions != [] {
      var x, a := Run(rules, Begin(names), actions[..|actions|-1]).value, actions[|actions|-1];
      DeliveryConservation(rules, names, actions[..|actions|-1]);
      StepAtMostOnce(rules, x, a);
      if a.Read? {
        DeliveryRead(rules, x, a.w);
      } else if a.Ack? || a.Skip? || a.Cancel? {
        DeliveryAck(rules, x, a);
      } else {
        DeliveryOther(rules, x, a);
      }
    }
  }

  /** The stream grows by what producers append to it, and in no other way. */
  lemma {:induction false} StreamAppends(rules: Rules, x: World, a: Action)
    requires Legal(rules, x, a)
    ensures Step(rules, x, a).store.stream == x.store.stream +
      match a
      case Publish(id) => [Message(Some(id), x.submitted[id].taskType)]
      case Foreign(taskType) => [Message(None, taskType)]
      case _ => []
  {
  }

  ghost predicate Increasing(batch: seq<nat>) {
    forall j, k | 0 <= j < k < |batch| :: batch[j] < batch[k]
  }

  ghost predicate InOrder(x: World) {
    && |x.handed| == x.store.delivered && (forall k | 0 <= k < |x.handed| :: x.handed[k] == k)
    && |x.handedTo| == x.store.delivered
    && (forall i | i in x.store.pending && i < x.store.delivered :: x.handedTo[i] == x.store.pending[i])
    && forall w | 0 <= w < |x.workers| && x.workers[w].Busy? :: Increasing(x.workers[w].batch)
  }

  lemma {:induction false} ReadInOrder(rules: Rules, x: World, w: nat)
    requires InOrder(x) && Legal(rules, x, Read(w))
    ensures InOrder(Step(rules, x, Read(w)))
  {
    PendingAfterRead(x.store, x.names[w], BatchSize(rules.dialect, x.store));
    var batch := XReadGroup(x.store, x.names[w], BatchSize(rules.dialect, x.store)).1;
    assert Increasing(batch);
  }

  lemma {:induction false} OtherInOrder(rules: Rules, x: World, a: Action)
    requires InOrder(x) && Legal(rules, x, a) && !a.Read?
    ensures InOrder(Step(rules, x, a))
  {
    var x' := Step(rules, x, a);
    assert x'.handed == x.handed && x'.store.delivered == x.store.delivered;
    forall w | 0 <= w < |x'.workers| && x'.workers[w].Busy? ensures Increasing(x'.workers[w].batch) {
      var was := x.workers[w].batch;
      assert Increasing(was);
      assert x'.workers[w].batch == was || (was != [] && x'.workers[w].batch == was[1..]);
    }
  }

  /** FastAPI and NestJS are given one entry at a time, Spring all there are. */
  lemma {:induction false} ReadTakes(rules: Rules, x: World, w: nat)
    requires x.store.delivered <= |x.store.stream|
    ensures Legal(rules, x, Read(w)) ==>
      var x' := Step(rules, x, Read(w));
      && x'.store.delivered == (if rules.dialect.RecordFailures? then x.store.delivered + 1 else |x.store.stream|)
      && x'.workers[w].Busy? && |x'.workers[w].batch| == x'.store.delivered - x.store.delivered
    ensures w < |x.workers| && w < |x.names| && x.workers[w].Idle? && x.store.delivered < |x.store.stream| ==>
      Legal(rules, x, Read(w))
  {
  }

  /** Deliveries follow the order of XADD: over any run the entries are handed out one after the
      other, none left out and none twice, and each worker has its own in that order. */
  lemma {:induction false} DeliveredInOrder(rules: Rules, names: seq<string>, actions: seq<Action>)
    requires Run(rules, Begin(names), actions).Some?
    ensures InOrder(Run(rules, Begin(names), actions).value)
  {
    if actions != [] {
      DeliveredInOrder(rules, names, actions[..|actions|-1]);
      var x, a := Run(rules, Begin(names), actions[..|actions|-1]).value, actions[|actions|-1];
      if a.Read? {
        ReadInOrder(rules, x, a.w);
      } else {
        OtherInOrder(rules, x, a);
      }
    }
  }
}
