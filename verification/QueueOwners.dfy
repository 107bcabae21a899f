/** Whose name a record carries. */
module QueueOwners {
  import opened Options
  import opened QueueModel
  import opened QueueDelivery
  import opened QueueRecords

  /** Entry `i` is that of job `id`, and the record names the consumer it was delivered to. */
  ghost predicate WorkedBy(x: World, id: Id, i: nat) {
    && i < |x.store.stream| && i < |x.handedTo| && x.store.stream[i].job == Some(id)
    && id in x.store.jobs && WorkerId in x.store.jobs[id] && x.store.jobs[id][WorkerId] == x.handedTo[i]
  }

  /** Nobody is named while the job is PENDING, and its consumer from then on. */
  ghost predicate Owned(x: World, id: Id)
    requires id in x.store.jobs
  {
    var h := x.store.jobs[id];
    && Status in h && WorkerId in h
    && (h[Status] == "PENDING" <==> h[WorkerId] == "")
    && (h[Status] != "PENDING" ==> exists i :: WorkedBy(x, id, i))
  }

  /** `x'` has at least the entries and deliveries of `x`, and the same record of job `id`. */
  lemma {:induction false} StillOwned(x: World, x': World, id: Id)
    requires id in x.store.jobs && id in x'.store.jobs && x'.store.jobs[id] == x.store.jobs[id]
    requires Owned(x, id) && x.store.stream <= x'.store.stream && x.handedTo <= x'.handedTo
    ensures Owned(x', id)
  {
    if x.store.jobs[id][Status] != "PENDING" {
      var i :| WorkedBy(x, id, i);
      assert WorkedBy(x', id, i);
    }
  }

  lemma {:induction false} WriteNames(rules: Rules, x: World, a: Action)
    requires Delivery(x) && InOrder(x) && Records(rules, x) && Legal(rules, x, a) && (a.Mark? || a.Record?)
    requires x.names[a.w] != ""
    ensures MessageInHand(x, a.w).job.value in Step(rules, x, a).store.jobs
    ensures Owned(Step(rules, x, a), MessageInHand(x, a.w).job.value)
  {
    var id, x' := MessageInHand(x, a.w).job.value, Step(rules, x, a);
    InHandFits(rules, x, a.w);
    assert Holding(x.store, x.names[a.w], x.workers[a.w]);
    var t := rules.task(x.submitted[id].taskType, x.submitted[id].payload);
    var (status, result) := if a.Mark? then ("PROCESSING", "") else (OutcomeStatus(t), t.text);
    UpdateKeeps(rules.dialect, id, x.submitted[id], x.store.jobs[id], status, x.names[a.w], result, a.stamp);
    assert WorkedBy(x', id, EntryInHand(x, a.w));
  }

  lemma {:induction false} QuietOwned(rules: Rules, x: World, a: Action, id: Id)
    requires Legal(rules, x, a) && !a.Mark? && !a.Record? && Complete(rules, x)
    requires forall other | other in x.store.jobs :: Owned(x, other)
    requires id in Step(rules, x, a).store.jobs
    ensures Owned(Step(rules, x, a), id)
  {
    if !(a.Submit? && a.id == id) {
      StillOwned(x, Step(rules, x, a), id);
    }
  }

  lemma {:induction false} WriteLeavesOthers(rules: Rules, x: World, a: Action, id: Id)
    requires Legal(rules, x, a) && (a.Mark? || a.Record?) && MessageInHand(x, a.w).job != Some(id)
    requires forall other | other in x.store.jobs :: Owned(x, other)
    requires id in Step(rules, x, a).store.jobs
    ensures Owned(Step(rules, x, a), id)
  {
    StillOwned(x, Step(rules, x, a), id);
  }

  lemma {:induction false} StepOwned(rules: Rules, x: World, a: Action, id: Id)
    requires Delivery(x) && InOrder(x) && Records(rules, x) && Legal(rules, x, a)
    requires forall n <- x.names :: n != ""
    requires forall other | other in x.store.jobs :: Owned(x, other)
    requires id in Step(rules, x, a).store.jobs
    ensures Owned(Step(rules, x, a), id)
  {
    if !a.Mark? && !a.Record? {
      QuietOwned(rules, x, a, id);
    } else if MessageInHand(x, a.w).job != Some(id) {
      WriteLeavesOthers(rules, x, a, id);
    } else {
      assert x.names[a.w] in x.names;
      WriteNames(rules, x, a);
    }
  }

  lemma {:induction false} NamesStay(rules: Rules, names: seq<string>, actions: seq<Action>)
    requires Run(rules, Begin(names), actions).Some?
    ensures Run(rules, Begin(names), actions).value.names == names
  {
    if actions != [] {
      NamesStay(rules, names, actions[..|actions|-1]);
    }
  }

  /** In every reachable state a record names nobody exactly while it says PENDING, and from then on
      the consumer that its entry was delivered to, whoever has died or given up since. */
  lemma {:induction false} RecordsNameTheirConsumer(rules: Rules, names: seq<string>, actions: seq<Action>)
    requires Run(rules, Begin(names), actions).Some? && forall n <- names :: n != ""
    ensures var x := Run(rules, Begin(names), actions).value;
      forall id | id in x.store.jobs :: Owned(x, id)
  {
    if actions != [] {
      var x, a := Run(rules, Begin(names), actions[..|actions|-1]).value, actions[|actions|-1];
      RecordsNameTheirConsumer(rules, names, actions[..|actions|-1]);
      RunRecords(rules, names, actions[..|actions|-1]);
      DeliveredInOrder(rules, names, actions[..|actions|-1]);
      NamesStay(rules, names, actions[..|actions|-1]);
      forall id | id in Step(rules, x, a).store.jobs ensures Owned(Step(rules, x, a), id) {
        StepOwned(rules, x, a, id);
      }
    }
  }
}
