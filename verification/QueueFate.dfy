/** What becomes of entries that no worker has in hand any more: nothing ever again. */
module QueueFate {
  import opened Options
  import opened QueueModel
  import opened QueueDelivery
  import opened QueueRecords
  import opened QueueOutcome

  /** Delivered, and out of all hands. */
  ghost predicate Gone(x: World, i: nat) {
    i < x.store.delivered && !Held(x, i)
  }

  /** From `x` to `y` neither the entry nor the record of its job has changed. */
  ghost predicate Frozen(x: World, y: World, i: nat) {
    && (i in y.store.pending <==> i in x.store.pending) && (i in y.store.acked <==> i in x.store.acked)
    && i < |x.store.stream| && i < |y.store.stream| && y.store.stream[i] == x.store.stream[i]
    && (x.store.stream[i].job.Some? ==>
          var id := x.store.stream[i].job.value;
          id in x.store.jobs && id in y.store.jobs && y.store.jobs[id] == x.store.jobs[id])
  }

  lemma {:induction false} InHandIsHeld(x: World, w: nat)
    requires InHand(x, w)
    ensures Held(x, EntryInHand(x, w))
  {
    assert x.workers[w].batch[0] == EntryInHand(x, w);
  }

  lemma {:induction false} StaysGone(rules: Rules, x: World, a: Action, i: nat)
    requires Delivery(x) && Gone(x, i) && Legal(rules, x, a)
    ensures Gone(Step(rules, x, a), i)
  {
    var x' := Step(rules, x, a);
    forall w, k | 0 <= w < |x'.workers| && x'.workers[w].Busy? && 0 <= k < |x'.workers[w].batch|
      ensures x'.workers[w].batch[k] != i
    {
      if !(a.Read? && a.w == w) {
        var was := x.workers[w].batch;
        assert x'.workers[w].batch == was || x'.workers[w].batch == was[1..];
        assert forall j | 0 <= j < |was| :: was[j] != i;
      }
    }
  }

  lemma {:induction false} OtherJob(rules: Rules, x: World, w: nat, i: nat)
    requires Records(rules, x) && HasJob(x, w) && Gone(x, i) && i < |x.store.stream|
    ensures EntryInHand(x, w) != i && x.store.stream[i].job != MessageInHand(x, w).job
  {
    InHandIsHeld(x, w);
  }

  lemma {:induction false} WriteFrozen(rules: Rules, x: World, a: Action, i: nat)
    requires Delivery(x) && Records(rules, x) && Gone(x, i) && Legal(rules, x, a) && (a.Mark? || a.Record?)
    ensures Frozen(x, Step(rules, x, a), i)
  {
    OtherJob(rules, x, a.w, i);
  }

  lemma {:induction false} AckFrozen(rules: Rules, x: World, a: Action, i: nat)
    requires Delivery(x) && Records(rules, x) && Gone(x, i) && Legal(rules, x, a)
    requires a.Skip? || a.Ack? || a.Cancel?
    ensures Frozen(x, Step(rules, x, a), i)
  {
    InHandIsHeld(x, a.w);
  }

  lemma {:induction false} StepFrozen(rules: Rules, x: World, a: Action, i: nat)
    requires Delivery(x) && Records(rules, x) && Gone(x, i) && Legal(rules, x, a)
    ensures Frozen(x, Step(rules, x, a), i)
  {
    if a.Mark? || a.Record? {
      WriteFrozen(rules, x, a, i);
    } else if a.Skip? || a.Ack? || a.Cancel? {
      AckFrozen(rules, x, a, i);
    } else if a.Read? {
      PendingAfterRead(x.store, x.names[a.w], BatchSize(rules.dialect, x.store));
    }
  }

  /** Once an entry has left all hands, acknowledged or not, no continuation delivers it again,
      acknowledges it or touches the record of its job. */
  lemma {:induction false} GoneIsForever(rules: Rules, names: seq<string>, actions: seq<Action>, more: seq<Action>,
                                       i: nat)
    requires Run(rules, Begin(names), actions).Some? && Run(rules, Begin(names), actions + more).Some?
    requires Gone(Run(rules, Begin(names), actions).value, i)
    ensures Gone(Run(rules, Begin(names), actions + more).value, i)
    ensures Frozen(Run(rules, Begin(names), actions).value, Run(rules, Begin(names), actions + more).value, i)
  {
    if more == [] {
      assert actions + more == actions;
      RunRecords(rules, names, actions);
    } else {
      var more0, a := more[..|more|-1], more[|more|-1];
      assert actions + more == (actions + more0) + [a];
      RunOneMore(rules, Begin(names), actions + more0, a);
      GoneIsForever(rules, names, actions, more0, i);
      RunRecords(rules, names, actions + more0);
      var x := Run(rules, Begin(names), actions + more0).value;
      StaysGone(rules, x, a, i);
      StepFrozen(rules, x, a, i);
    }
  }

  lemma {:induction false} DropLetsGo(rules: Rules, x: World, a: Action, k: nat)
    requires Delivery(x) && (a.Crash? || (a.Abort? && rules.dialect.AbortOnFailure?))
    requires a.w < |x.workers| && x.workers[a.w].Busy? && k < |x.workers[a.w].batch|
    ensures Legal(rules, x, a)
    ensures var i, x' := x.workers[a.w].batch[k], Step(rules, x, a);
      Gone(x', i) && i in x'.store.pending && x'.store == x.store
  {
    var i, x' := x.workers[a.w].batch[k], Step(rules, x, a);
    assert Holding(x.store, x.names[a.w], x.workers[a.w]);
    forall v, j | 0 <= v < |x'.workers| && x'.workers[v].Busy? && 0 <= j < |x'.workers[v].batch|
      ensures x'.workers[v].batch[j] != i
    {
      assert if v < a.w then Apart(x.workers[v], x.workers[a.w]) else Apart(x.workers[a.w], x.workers[v]);
    }
  }

  /** Nothing reclaims a pending entry: whatever a worker has in its hands when it dies, or when an
      exception drops its batch, stays pending and unacknowledged for ever, and the record of its
      job keeps the status it has at that moment. */
  lemma {:induction false} DroppedIsStranded(rules: Rules, names: seq<string>, actions: seq<Action>, a: Action,
                                           more: seq<Action>, k: nat)
    requires Run(rules, Begin(names), actions).Some? && Run(rules, Begin(names), actions + [a] + more).Some?
    requires var x := Run(rules, Begin(names), actions).value;
      && (a.Crash? || (a.Abort? && rules.dialect.AbortOnFailure?)) && a.w < |x.workers|
      && x.workers[a.w].Busy? && k < |x.workers[a.w].batch|
    ensures var x, y := Run(rules, Begin(names), actions).value, Run(rules, Begin(names), actions + [a] + more).value;
      var i := x.workers[a.w].batch[k];
      && i in y.store.pending && i !in y.store.acked && !Held(y, i) && Frozen(x, y, i)
  {
    var x := Run(rules, Begin(names), actions).value;
    RunOneMore(rules, Begin(names), actions, a);
    RunRecords(rules, names, actions);
    DropLetsGo(rules, x, a, k);
    GoneIsForever(rules, names, actions + [a], more, x.workers[a.w].batch[k]);
    RunRecords(rules, names, actions + [a] + more);
  }

  /** Job `id` has a hash and neither an entry nor a producer that could still add one. */
  ghost predicate Lost(x: World, id: Id) {
    id in x.submitted && id in x.store.jobs && id !in x.staged && !InStream(x, id)
  }

  lemma {:induction false} StaysLost(rules: Rules, x: World, a: Action, id: Id)
    requires Records(rules, x) && Lost(x, id) && Legal(rules, x, a)
    ensures Lost(Step(rules, x, a), id)
    ensures Step(rules, x, a).store.jobs[id] == x.store.jobs[id]
  {
    var x' := Step(rules, x, a);
    StreamAppends(rules, x, a);
    forall i | 0 <= i < |x'.store.stream| ensures x'.store.stream[i].job != Some(id) {
      if i < |x.store.stream| {
        assert x'.store.stream[i] == x.store.stream[i];
      }
    }
  }

  lemma {:induction false} LostIsForever(rules: Rules, names: seq<string>, actions: seq<Action>, more: seq<Action>,
                                       id: Id)
    requires Run(rules, Begin(names), actions).Some? && Run(rules, Begin(names), actions + more).Some?
    requires Lost(Run(rules, Begin(names), actions).value, id)
    ensures var x, y := Run(rules, Begin(names), actions).value, Run(rules, Begin(names), actions + more).value;
      Lost(y, id) && y.store.jobs[id] == x.store.jobs[id]
  {
    if more == [] {
      assert actions + more == actions;
    } else {
      var more0, a := more[..|more|-1], more[|more|-1];
      assert actions + more == (actions + more0) + [a];
      RunOneMore(rules, Begin(names), actions + more0, a);
      LostIsForever(rules, names, actions, more0, id);
      RunRecords(rules, names, actions + more0);
      StaysLost(rules, Run(rules, Begin(names), actions + more0).value, a, id);
    }
  }

  lemma {:induction false} LoseLoses(rules: Rules, x: World, id: Id)
    requires Records(rules, x) && id in x.staged
    ensures Legal(rules, x, Lose(id)) && Lost(Step(rules, x, Lose(id)), id)
    ensures Step(rules, x, Lose(id)).store == x.store && Says(x.store.jobs[id], "PENDING", "")
  {
  }

  /** A producer that dies after writing the hash, or whose XADD fails, as two of the services ignore,
      leaves a job that nobody is ever given: its record says PENDING for ever. */
  lemma {:induction false} LostIsPending(rules: Rules, names: seq<string>, actions: seq<Action>, more: seq<Action>,
                                       id: Id)
    requires Run(rules, Begin(names), actions).Some? && id in Run(rules, Begin(names), actions).value.staged
    requires Run(rules, Begin(names), actions + [Lose(id)] + more).Some?
    ensures var y := Run(rules, Begin(names), actions + [Lose(id)] + more).value;
      Lost(y, id) && Says(y.store.jobs[id], "PENDING", "")
  {
    RunOneMore(rules, Begin(names), actions, Lose(id));
    RunRecords(rules, names, actions);
    LoseLoses(rules, Run(rules, Begin(names), actions).value, id);
    LostIsForever(rules, names, actions + [Lose(id)], more, id);
  }
}
