/** What a producer polling for its job can rely on. */
module QueueOutcome {
  import opened Options
  import opened QueueModel
  import opened QueueDelivery
  import opened QueueRecords

  /** An acknowledged entry with a job has the final status its task decided, COMPLETED or FAILED,
      exactly if its worker was not cancelled in the task; otherwise it says PROCESSING. Aborts and
      crashes do no harm. In Spring the final status is always COMPLETED. */
  lemma {:induction false} AckImpliesOutcome(rules: Rules, names: seq<string>, actions: seq<Action>, i: nat)
    requires Run(rules, Begin(names), actions).Some?
    requires var s := Run(rules, Begin(names), actions).value.store;
      i in s.acked && i < |s.stream| && s.stream[i].job.Some?
    ensures var x := Run(rules, Begin(names), actions).value;
      var id := x.store.stream[i].job.value;
      && id in x.submitted && id in x.store.jobs
      && (Final(rules, x.submitted[id], x.store.jobs[id]) <==> i !in x.cancelled)
      && (i !in x.cancelled ==>
            var t := rules.task(x.submitted[id].taskType, x.submitted[id].payload);
            Says(x.store.jobs[id], if t.Done? then "COMPLETED" else "FAILED", t.text))
      && (i in x.cancelled ==> Says(x.store.jobs[id], "PROCESSING", ""))
      && (rules.dialect.AbortOnFailure? ==> Says(x.store.jobs[id], "COMPLETED", x.store.jobs[id][Result]))
  {
    RunRecords(rules, names, actions);
    RunCancelled(rules, names, actions);
    var x := Run(rules, Begin(names), actions).value;
    assert EntryFits(rules, x, i, LastStage(x, i));
  }

  predicate NoneCancelled(actions: seq<Action>) {
    forall a <- actions :: !a.Cancel?
  }

  lemma {:induction false} RunCancelled(rules: Rules, names: seq<string>, actions: seq<Action>)
    requires Run(rules, Begin(names), actions).Some?
    ensures NoneCancelled(actions) || rules.dialect.AbortOnFailure? ==>
      Run(rules, Begin(names), actions).value.cancelled == {}
  {
    if actions != [] {
      RunCancelled(rules, names, actions[..|actions|-1]);
      assert actions[|actions|-1] in actions && forall a <- actions[..|actions|-1] :: a in actions;
    }
  }

  /** In `x` every acknowledged job is over and done with. */
  ghost predicate AckedAreFinal(rules: Rules, x: World) {
    forall i | i in x.store.acked && i < |x.store.stream| && x.store.stream[i].job.Some? ::
      var id := x.store.stream[i].job.value;
      id in x.submitted && id in x.store.jobs && Final(rules, x.submitted[id], x.store.jobs[id])
  }

  ghost predicate FinalAfter(rules: Rules, names: seq<string>, actions: seq<Action>) {
    Run(rules, Begin(names), actions).Some? ==>
      AckedAreFinal(rules, Run(rules, Begin(names), actions).value)
  }

  /** So it is after every run; after those with a cancelled worker only if `cancels` says so. */
  ghost predicate AckIsFinal(rules: Rules, cancels: bool) {
    forall names, actions :: cancels || NoneCancelled(actions) ==> FinalAfter(rules, names, actions)
  }

  lemma {:induction false} SubmitOne(rules: Rules, x: World, id: Id, job: Job)
    requires id !in x.store.jobs && id !in x.submitted
    ensures var a := Submit(id, job.taskType, job.payload, job.createdAt);
      && Legal(rules, x, a)
      && var y := Step(rules, x, a);
         && y == x.(store := x.store.(jobs := y.store.jobs), staged := y.staged, submitted := y.submitted)
         && y.staged == x.staged + {id} && y.submitted == x.submitted[id := job]
  {
  }

  /** One job is submitted. */
  lemma {:induction false} OneQueued(rules: Rules, name: string, id: Id, job: Job)
    returns (actions: seq<Action>, x: World)
    ensures Run(rules, Begin([name]), actions) == Some(x)
    ensures x.names == [name] && x.workers == [Idle] && x.cancelled == {}
    ensures x.store.stream == [Message(Some(id), job.taskType)]
    ensures x.store.delivered == 0 && x.store.pending == map[]
  {
    var x0 := Begin([name]);
    SubmitOne(rules, x0, id, job);
    actions, x := Then(rules, x0, [], x0, Submit(id, job.taskType, job.payload, job.createdAt));
    actions, x := Then(rules, x0, actions, x, Publish(id));
  }

  /** And delivered. */
  lemma {:induction false} OneDelivered(rules: Rules, name: string, id: Id, job: Job)
    returns (actions: seq<Action>, x: World)
    requires rules.dialect.RecordFailures?
    ensures Run(rules, Begin([name]), actions) == Some(x)
    ensures x.names == [name] && x.workers == [Busy([0], Fetched)] && x.cancelled == {}
    ensures x.store.stream == [Message(Some(id), job.taskType)] && x.store.pending == map[0 := name]
  {
    actions, x := OneQueued(rules, name, id, job);
    PendingAfterRead(x.store, name, 1);
    assert XReadGroup(x.store, name, 1).1 == [0];
    actions, x := Then(rules, Begin([name]), actions, x, Read(0));
  }

  /** Its worker is stopped in the middle of the task: `finally` acknowledges, nobody records. */
  lemma {:induction false} CancelledIsNotFinal(rules: Rules, name: string, id: Id, job: Job)
    returns (actions: seq<Action>)
    requires rules.dialect.RecordFailures?
    ensures !FinalAfter(rules, [name], actions)
  {
    var x: World;
    actions, x := OneDelivered(rules, name, id, job);
    actions, x := Then(rules, Begin([name]), actions, x, Mark(0, job.createdAt));
    assert x.workers == [Busy([0], Marked)];
    actions, x := Then(rules, Begin([name]), actions, x, Start(0));
    actions, x := Then(rules, Begin([name]), actions, x, Cancel(0));
    assert 0 in x.store.acked && 0 in x.cancelled;
    AckImpliesOutcome(rules, [name], actions, 0);
  }

  lemma {:induction false} NotCancelledIsFinal(rules: Rules, names: seq<string>, actions: seq<Action>)
    requires NoneCancelled(actions) || rules.dialect.AbortOnFailure?
    ensures FinalAfter(rules, names, actions)
  {
    if Run(rules, Begin(names), actions).Some? {
      var x := Run(rules, Begin(names), actions).value;
      RunCancelled(rules, names, actions);
      RunRecords(rules, names, actions);
      forall i | i in x.store.acked && i < |x.store.stream| && x.store.stream[i].job.Some?
        ensures EntryFits(rules, x, i, Recorded)
      {
        assert EntryFits(rules, x, i, LastStage(x, i));
      }
    }
  }

  /** An acknowledgement means a final status, whatever else happens, if and only if no worker can be
      cancelled in its task, or the service acknowledges only what it has recorded, as Spring does. */
  lemma {:induction false} AckIsFinalIffNotCancelled(rules: Rules, cancels: bool)
    ensures AckIsFinal(rules, cancels) <==> !cancels || rules.dialect.AbortOnFailure?
  {
    if !cancels || rules.dialect.AbortOnFailure? {
      forall names, actions | cancels || NoneCancelled(actions) ensures FinalAfter(rules, names, actions) {
        NotCancelledIsFinal(rules, names, actions);
      }
    } else {
      var actions := CancelledIsNotFinal(rules, "worker", "id", Job("type", "payload", "now"));
    }
  }

  /** No update ever makes a partial record: in every reachable state exactly the submitted jobs
      have a hash, and it is whole, with the submitted part as submitted. */
  lemma {:induction false} RecordsAreWhole(rules: Rules, names: seq<string>, actions: seq<Action>)
    requires Run(rules, Begin(names), actions).Some?
    ensures Complete(rules, Run(rules, Begin(names), actions).value)
  {
    RunRecords(rules, names, actions);
  }

  // Lifecycle

  function Rank(status: string): nat {
    if status == "PENDING" then 0
    else if status == "PROCESSING" then 1
    else if status == "COMPLETED" || status == "FAILED" then 2
    else 3
  }

  /** `h'` is the same job's record at a later time. */
  ghost predicate Later(h: Hash, h': Hash) {
    && Status in h && Status in h' && Result in h && Result in h'
    && (forall f | f in {JobId, TaskType, Payload, CreatedAt} :: f in h && f in h' && h[f] == h'[f])
    && Rank(h[Status]) <= Rank(h'[Status]) <= 2
    && (Rank(h[Status]) == Rank(h'[Status]) ==> h[Status] == h'[Status] && h[Result] == h'[Result])
  }

  ghost predicate Ranked(x: World) {
    forall id | id in x.store.jobs ::
      Status in x.store.jobs[id] && Rank(x.store.jobs[id][Status]) <= 2
  }

  /** One write by a worker takes the record of its job one status forward. */
  lemma {:induction false} UpdateMoves(d: Dialect, id: Id, job: Job, h: Hash,
                                     status: string, worker: string, result: string, stamp: string)
    requires Intact(d, id, job, h) && Rank(h[Status]) + 1 == Rank(status) <= 2
    ensures var h' := h + StatusFields(d, status, worker, result, stamp);
      Later(h, h') && Rank(h'[Status]) == Rank(h[Status]) + 1
  {
    UpdateKeeps(d, id, job, h, status, worker, result, stamp);
  }

  lemma {:induction false} QuietLifecycle(x: World, x': World)
    requires Ranked(x) && Ranked(x')
    requires forall id | id in x.store.jobs :: id in x'.store.jobs && x'.store.jobs[id] == x.store.jobs[id]
    requires forall id | id in x.store.jobs :: exists d, job :: Intact(d, id, job, x.store.jobs[id])
    ensures OneForward(x, x')
  {
  }

  ghost predicate OneForward(x: World, x': World) {
    forall id | id in x.store.jobs ::
      && id in x'.store.jobs && Later(x.store.jobs[id], x'.store.jobs[id])
      && Rank(x'.store.jobs[id][Status]) <= Rank(x.store.jobs[id][Status]) + 1
  }

  lemma {:induction false} RewriteLifecycle(rules: Rules, x: World, x': World, id: Id)
    requires Complete(rules, x) && Ranked(x) && id in x.store.jobs && id in x'.store.jobs
    requires x'.store.jobs == x.store.jobs[id := x'.store.jobs[id]]
    requires Later(x.store.jobs[id], x'.store.jobs[id])
    requires Rank(x'.store.jobs[id][Status]) == Rank(x.store.jobs[id][Status]) + 1
    ensures Ranked(x') && OneForward(x, x')
  {
    forall other | other in x.store.jobs && other != id
      ensures Later(x.store.jobs[other], x'.store.jobs[other])
      ensures x'.store.jobs[other] == x.store.jobs[other]
    {
      assert Intact(rules.dialect, other, x.submitted[other], x.store.jobs[other]);
    }
  }

  lemma {:induction false} WriteLifecycle(rules: Rules, x: World, a: Action)
    requires Delivery(x) && Records(rules, x) && Ranked(x) && Legal(rules, x, a) && (a.Mark? || a.Record?)
    ensures Ranked(Step(rules, x, a)) && OneForward(x, Step(rules, x, a))
  {
    var id := MessageInHand(x, a.w).job.value;
    InHandFits(rules, x, a.w);
    var job, h := x.submitted[id], x.store.jobs[id];
    if a.Mark? {
      UpdateMoves(rules.dialect, id, job, h, "PROCESSING", x.names[a.w], "", a.stamp);
    } else {
      var t := rules.task(job.taskType, job.payload);
      UpdateMoves(rules.dialect, id, job, h, OutcomeStatus(t), x.names[a.w], t.text, a.stamp);
    }
    RewriteLifecycle(rules, x, Step(rules, x, a), id);
  }

  /** One step takes any record at most one status forward: PENDING to PROCESSING, or PROCESSING
      to COMPLETED or FAILED. */
  lemma {:induction false} StepLifecycle(rules: Rules, x: World, a: Action)
    requires Delivery(x) && Records(rules, x) && Ranked(x) && Legal(rules, x, a)
    ensures Ranked(Step(rules, x, a)) && OneForward(x, Step(rules, x, a))
  {
    if a.Mark? || a.Record? {
      WriteLifecycle(rules, x, a);
    } else {
      var x' := Step(rules, x, a);
      if a.Submit? {
        NewJobIntact(rules.dialect, a.id, a.taskType, a.payload, a.stamp);
      }
      forall id | id in x.store.jobs ensures Intact(rules.dialect, id, x.submitted[id], x.store.jobs[id]) {
      }
      QuietLifecycle(x, x');
    }
  }

  lemma {:induction false} RunRanked(rules: Rules, names: seq<string>, actions: seq<Action>)
    requires Run(rules, Begin(names), actions).Some?
    ensures Ranked(Run(rules, Begin(names), actions).value)
  {
    if actions != [] {
      RunRanked(rules, names, actions[..|actions|-1]);
      RunRecords(rules, names, actions[..|actions|-1]);
      StepLifecycle(rules, Run(rules, Begin(names), actions[..|actions|-1]).value, actions[|actions|-1]);
    }
  }

  /** Between any two moments of a run, a job's record has only moved forward; a final status
      with its result never changes, and what was submitted never does. */
  lemma {:induction false} JobLifecycle(rules: Rules, names: seq<string>, actions: seq<Action>, n: nat, id: Id)
    requires n <= |actions| && Run(rules, Begin(names), actions).Some?
    requires var early := Run(rules, Begin(names), actions[..n]);
      early.Some? && id in early.value.store.jobs
    ensures var early, late := Run(rules, Begin(names), actions[..n]).value, Run(rules, Begin(names), actions).value;
      id in late.store.jobs && Later(early.store.jobs[id], late.store.jobs[id])
  {
    if n == |actions| {
      assert actions[..n] == actions;
      RunRecords(rules, names, actions);
      RunRanked(rules, names, actions);
      var x := Run(rules, Begin(names), actions).value;
      assert Intact(rules.dialect, id, x.submitted[id], x.store.jobs[id]);
    } else {
      var actions0 := actions[..|actions|-1];
      assert actions0[..n] == actions[..n];
      JobLifecycle(rules, names, actions0, n, id);
      RunRecords(rules, names, actions0);
      RunRanked(rules, names, actions0);
      StepLifecycle(rules, Run(rules, Begin(names), actions0).value, actions[|actions|-1]);
    }
  }

  // Schedule independence

  /** Nobody dies, nothing is aborted and every job reaches the stream. */
  predicate Calm(actions: seq<Action>) {
    forall a <- actions :: !a.Crash? && !a.Abort? && !a.Cancel? && !a.Lose?
  }

  ghost predicate Held(x: World, i: nat) {
    exists w, k :: 0 <= w < |x.workers| && x.workers[w].Busy? &&
      0 <= k < |x.workers[w].batch| && x.workers[w].batch[k] == i
  }

  ghost predicate InStream(x: World, id: Id) {
    exists i :: 0 <= i < |x.store.stream| && x.store.stream[i].job == Some(id)
  }

  ghost predicate NothingDropped(x: World) {
    && (forall i | i in x.store.pending :: Held(x, i))
    && (forall id | id in x.submitted :: id in x.staged || InStream(x, id))
  }

  lemma {:induction false} StreamGrows(rules: Rules, x: World, a: Action)
    requires Legal(rules, x, a) && !a.Lose?
    requires forall id | id in x.submitted :: id in x.staged || InStream(x, id)
    ensures var x' := Step(rules, x, a);
      forall id | id in x'.submitted :: id in x'.staged || InStream(x', id)
  {
    var x' := Step(rules, x, a);
    forall id | id in x'.submitted ensures id in x'.staged || InStream(x', id) {
      if id in x.submitted && id !in x.staged {
        var i :| 0 <= i < |x.store.stream| && x.store.stream[i].job == Some(id);
        assert x'.store.stream[i].job == Some(id);
      } else if a.Publish? && a.id == id {
        assert x'.store.stream[|x.store.stream|].job == Some(id);
      }
    }
  }

  lemma {:induction false} HandsKeep(rules: Rules, x: World, a: Action, i: nat)
    requires Delivery(x) && Legal(rules, x, a) && !a.Crash? && !a.Abort? && !a.Cancel?
    requires i in x.store.pending && Held(x, i) && i in Step(rules, x, a).store.pending
    ensures Held(Step(rules, x, a), i)
  {
    var x' := Step(rules, x, a);
    var w, k :| 0 <= w < |x.workers| && x.workers[w].Busy? &&
      0 <= k < |x.workers[w].batch| && x.workers[w].batch[k] == i;
    if (a.Ack? || a.Skip?) && a.w == w {
      assert x'.workers[w].batch[k - 1] == i;
    } else {
      assert x'.workers[w].batch[k] == i;
    }
  }

  lemma {:induction false} RunNothingDropped(rules: Rules, names: seq<string>, actions: seq<Action>)
    requires Run(rules, Begin(names), actions).Some? && Calm(actions)
    ensures NothingDropped(Run(rules, Begin(names), actions).value)
  {
    if actions != [] {
      var x, a := Run(rules, Begin(names), actions[..|actions|-1]).value, actions[|actions|-1];
      assert a in actions && forall b <- actions[..|actions|-1] :: b in actions;
      RunNothingDropped(rules, names, actions[..|actions|-1]);
      RunRecords(rules, names, actions[..|actions|-1]);
      StreamGrows(rules, x, a);
      var x' := Step(rules, x, a);
      if a.Read? {
        PendingAfterRead(x.store, x.names[a.w], BatchSize(rules.dialect, x.store));
      }
      forall i | i in x'.store.pending ensures Held(x', i) {
        if i in x.store.pending {
          HandsKeep(rules, x, a, i);
        } else {
          assert x'.workers[a.w].batch[i - x.store.delivered] == i;
        }
      }
    }
  }

  /** Nothing left to do. */
  predicate Drained(x: World) {
    && x.staged == {} && x.store.delivered == |x.store.stream|
    && forall w | 0 <= w < |x.workers| :: x.workers[w].Idle?
  }

  lemma {:induction false} DrainedIsFinal(rules: Rules, names: seq<string>, actions: seq<Action>)
    requires Run(rules, Begin(names), actions).Some? && Calm(actions)
    requires Drained(Run(rules, Begin(names), actions).value)
    ensures var x := Run(rules, Begin(names), actions).value;
      && x.store.jobs.Keys == x.submitted.Keys
      && forall id | id in x.submitted :: Final(rules, x.submitted[id], x.store.jobs[id])
  {
    var x := Run(rules, Begin(names), actions).value;
    RunRecords(rules, names, actions);
    RunNothingDropped(rules, names, actions);
    assert NoneCancelled(actions);
    RunCancelled(rules, names, actions);
    forall id | id in x.submitted ensures Final(rules, x.submitted[id], x.store.jobs[id]) {
      var i :| 0 <= i < |x.store.stream| && x.store.stream[i].job == Some(id);
      assert !Held(x, i);
      assert EntryFits(rules, x, i, LastStage(x, i));
    }
  }

  /** Two runs given the same jobs and drained without losses end with the same status, result,
      type and payload for every job, however many workers there were, however the commands
      interleaved, and whichever of the services ran them. */
  lemma {:induction false} ScheduleIndependence(rules: Rules, rules': Rules, names: seq<string>, names': seq<string>,
                             actions: seq<Action>, actions': seq<Action>)
    requires rules.task == rules'.task
    requires Run(rules, Begin(names), actions).Some? && Calm(actions)
    requires Run(rules', Begin(names'), actions').Some? && Calm(actions')
    requires Drained(Run(rules, Begin(names), actions).value)
    requires Drained(Run(rules', Begin(names'), actions').value)
    requires var j := Run(rules, Begin(names), actions).value.submitted;
      var j' := Run(rules', Begin(names'), actions').value.submitted;
      j.Keys == j'.Keys && forall id | id in j :: j[id].taskType == j'[id].taskType && j[id].payload == j'[id].payload
    ensures var s := Run(rules, Begin(names), actions).value.store;
      var s' := Run(rules', Begin(names'), actions').value.store;
      && s.jobs.Keys == s'.jobs.Keys
      && forall id, f | id in s.jobs && f in {Status, Result, TaskType, Payload} ::
           f in s.jobs[id] && f in s'.jobs[id] && s.jobs[id][f] == s'.jobs[id][f]
  {
    DrainedIsFinal(rules, names, actions);
    DrainedIsFinal(rules', names', actions');
    RunRecords(rules, names, actions);
    RunRecords(rules', names', actions');
    var x, x' := Run(rules, Begin(names), actions).value, Run(rules', Begin(names'), actions').value;
    forall id | id in x.store.jobs
      ensures Intact(rules.dialect, id, x.submitted[id], x.store.jobs[id])
      ensures Intact(rules'.dialect, id, x'.submitted[id], x'.store.jobs[id])
    {
    }
  }
}
