/** A calm run can always be brought to an end, unless a Spring task throws. */
module QueueProgress {
  import opened Options
  import opened QueueModel
  import opened QueueDelivery
  import opened QueueRecords
  import opened QueueOutcome
  import opened QueueService

  // How much is left to do

  function StageWork(stage: Stage): nat {
    match stage
    case Fetched => 4
    case Marked => 3
    case Running(_, _) => 2
    case Recorded => 1
  }

  function Work(worker: Worker): nat {
    if worker.Busy? && worker.batch != [] then 4 * (|worker.batch| - 1) + StageWork(worker.stage) else 0
  }

  function AllWork(workers: seq<Worker>): nat {
    if workers == [] then 0 else AllWork(workers[..|workers|-1]) + Work(workers[|workers|-1])
  }

  lemma {:induction false} WorkOfOne(workers: seq<Worker>, w: nat, worker: Worker)
    requires w < |workers|
    ensures AllWork(workers[w := worker]) == AllWork(workers) - Work(workers[w]) + Work(worker)
  {
    var workers' := workers[w := worker];
    if w == |workers| - 1 {
      assert workers'[..|workers'|-1] == workers[..|workers|-1];
    } else {
      assert workers'[..|workers'|-1] == workers[..|workers|-1][w := worker];
      WorkOfOne(workers[..|workers|-1], w, worker);
    }
  }

  function Weight(x: World): nat
    requires x.store.delivered <= |x.store.stream|
  {
    6 * |x.staged| + 5 * (|x.store.stream| - x.store.delivered) + AllWork(x.workers)
  }

  // What calm runs keep

  ghost predicate OnTrack(x: World, worker: Worker) {
    && !worker.Dead?
    && (worker.Busy? && worker.batch != [] && !worker.stage.Fetched? ==>
          worker.batch[0] < |x.store.stream| && x.store.stream[worker.batch[0]].job.Some?)
  }

  lemma {:induction false} RunOnTrack(rules: Rules, names: seq<string>, actions: seq<Action>)
    requires Run(rules, Begin(names), actions).Some? && Calm(actions)
    ensures var x := Run(rules, Begin(names), actions).value;
      forall w | 0 <= w < |x.workers| :: OnTrack(x, x.workers[w])
  {
    if actions != [] {
      var x, a := Run(rules, Begin(names), actions[..|actions|-1]).value, actions[|actions|-1];
      assert a in actions && forall b <- actions[..|actions|-1] :: b in actions;
      RunOnTrack(rules, names, actions[..|actions|-1]);
      var x' := Step(rules, x, a);
      forall w | 0 <= w < |x'.workers| ensures OnTrack(x', x'.workers[w]) {
        assert OnTrack(x, x.workers[w]);
      }
    }
  }

  /** No task that was submitted throws where that would drop a batch. */
  ghost predicate Manageable(rules: Rules, x: World) {
    rules.dialect.RecordFailures? ||
    forall id | id in x.submitted :: rules.task(x.submitted[id].taskType, x.submitted[id].payload).Done?
  }

  // One step nearer

  /** `a` is a calm step that adds no job and leaves less to do. */
  ghost predicate Nearer(rules: Rules, x: World, a: Action) {
    && Legal(rules, x, a) && Calm([a]) && x.store.delivered <= |x.store.stream|
    && var x' := Step(rules, x, a);
       x'.submitted == x.submitted && x'.store.delivered <= |x'.store.stream| && Weight(x') < Weight(x)
  }

  lemma {:induction false} PublishIsNearer(rules: Rules, x: World, id: Id)
    requires Delivery(x) && Records(rules, x) && id in x.staged
    ensures Nearer(rules, x, Publish(id))
  {
    assert x.staged == (x.staged - {id}) + {id};
  }

  lemma {:induction false} ReadIsNearer(rules: Rules, x: World, w: nat)
    requires Delivery(x) && Legal(rules, x, Read(w))
    ensures Nearer(rules, x, Read(w))
  {
    WorkOfOne(x.workers, w, Step(rules, x, Read(w)).workers[w]);
  }

  lemma {:induction false} BusyHasNext(x: World, w: nat)
    requires Delivery(x) && w < |x.workers| && x.workers[w].Busy? && OnTrack(x, x.workers[w])
    ensures InHand(x, w) && (x.workers[w].stage.Fetched? || HasJob(x, w))
  {
    assert Holding(x.store, x.names[w], x.workers[w]);
    assert x.workers[w].batch[0] in x.store.pending;
  }

  lemma {:induction false} NextIsCalm(rules: Rules, x: World, w: nat)
    requires Delivery(x) && Records(rules, x) && Manageable(rules, x)
    requires InHand(x, w) && (x.workers[w].stage.Fetched? || HasJob(x, w))
    ensures Legal(rules, x, NextAction(rules, x, w, "")) && Calm([NextAction(rules, x, w, "")])
  {
    OthersDoNotDisturb(rules, x, w, [], "");
    if HasJob(x, w) {
      InHandFits(rules, x, w);
    }
  }

  lemma {:induction false} NextWorks(rules: Rules, x: World, w: nat, a: Action)
    requires InHand(x, w) && a == NextAction(rules, x, w, "") && Legal(rules, x, a) && Calm([a])
    ensures var x' := Step(rules, x, a);
      && x'.submitted == x.submitted && x'.staged == x.staged
      && x'.store.stream == x.store.stream && x'.store.delivered == x.store.delivered
      && w < |x'.workers| && x'.workers == x.workers[w := x'.workers[w]]
      && Work(x'.workers[w]) < Work(x.workers[w])
  {
    assert !a.Abort? by {
      assert a in [a];
    }
  }

  lemma {:induction false} NextIsNearer(rules: Rules, x: World, w: nat)
    requires Delivery(x) && Records(rules, x) && Manageable(rules, x)
    requires w < |x.workers| && x.workers[w].Busy? && OnTrack(x, x.workers[w])
    ensures InHand(x, w) && Nearer(rules, x, NextAction(rules, x, w, ""))
  {
    BusyHasNext(x, w);
    NextIsCalm(rules, x, w);
    NextWorks(rules, x, w, NextAction(rules, x, w, ""));
    WorkOfOne(x.workers, w, Step(rules, x, NextAction(rules, x, w, "")).workers[w]);
  }

  lemma {:induction false} SomethingToDo(rules: Rules, x: World) returns (a: Action)
    requires Delivery(x) && Records(rules, x) && Manageable(rules, x) && !Drained(x) && |x.workers| > 0
    requires forall w | 0 <= w < |x.workers| :: OnTrack(x, x.workers[w])
    ensures Nearer(rules, x, a)
  {
    if x.staged != {} {
      var id :| id in x.staged;
      PublishIsNearer(rules, x, id);
      a := Publish(id);
    } else if w: nat :| w < |x.workers| && x.workers[w].Busy? {
      NextIsNearer(rules, x, w);
      a := NextAction(rules, x, w, "");
    } else {
      assert forall w | 0 <= w < |x.workers| :: OnTrack(x, x.workers[w]) && x.workers[w].Idle?;
      ReadIsNearer(rules, x, 0);
      a := Read(0);
    }
  }

  // To the end

  ghost predicate DrainedAfter(rules: Rules, names: seq<string>, actions: seq<Action>) {
    Calm(actions) && Run(rules, Begin(names), actions).Some? &&
    Drained(Run(rules, Begin(names), actions).value)
  }

  lemma {:induction false} WorkersStay(rules: Rules, names: seq<string>, actions: seq<Action>)
    requires Run(rules, Begin(names), actions).Some?
    ensures |Run(rules, Begin(names), actions).value.workers| == |names|
  {
    if actions != [] {
      WorkersStay(rules, names, actions[..|actions|-1]);
    }
  }

  lemma {:induction false} OneNearer(rules: Rules, names: seq<string>, actions: seq<Action>, x: World)
    returns (a: Action, x': World)
    requires Run(rules, Begin(names), actions) == Some(x) && Calm(actions) && |names| > 0
    requires Manageable(rules, x) && !Drained(x) && x.store.delivered <= |x.store.stream|
    ensures Run(rules, Begin(names), actions + [a]) == Some(x') && Calm(actions + [a])
    ensures Manageable(rules, x') && x'.store.delivered <= |x'.store.stream| && Weight(x') < Weight(x)
  {
    RunRecords(rules, names, actions);
    RunOnTrack(rules, names, actions);
    WorkersStay(rules, names, actions);
    a := SomethingToDo(rules, x);
    x' := Step(rules, x, a);
    RunOneMore(rules, Begin(names), actions, a);
    assert a in [a];
  }

  lemma {:induction false} Drain(rules: Rules, names: seq<string>, actions: seq<Action>, x: World)
    returns (all: seq<Action>)
    requires Run(rules, Begin(names), actions) == Some(x) && Calm(actions) && |names| > 0
    requires Manageable(rules, x) && x.store.delivered <= |x.store.stream|
    ensures actions <= all && DrainedAfter(rules, names, all)
    decreases Weight(x)
  {
    all := actions;
    if !Drained(x) {
      var a, x' := OneNearer(rules, names, actions, x);
      all := Drain(rules, names, actions + [a], x');
    }
  }

  lemma {:induction false} SubmittedStays(rules: Rules, x: World, more: seq<Action>)
    requires Run(rules, x, more).Some?
    ensures forall id | id in x.submitted ::
      var y := Run(rules, x, more).value;
      id in y.submitted && (y.submitted[id] == x.submitted[id])
  {
    if more != [] {
      SubmittedStays(rules, x, more[..|more|-1]);
    }
  }

  lemma {:induction false} DrainedWasManageable(rules: Rules, names: seq<string>, actions: seq<Action>,
                                              more: seq<Action>)
    requires Run(rules, Begin(names), actions).Some? && DrainedAfter(rules, names, actions + more)
    ensures Manageable(rules, Run(rules, Begin(names), actions).value)
  {
    var x, y := Run(rules, Begin(names), actions).value, Run(rules, Begin(names), actions + more).value;
    RunThen(rules, Begin(names), actions, more);
    SubmittedStays(rules, x, more);
    DrainedIsFinal(rules, names, actions + more);
    forall id | id in x.submitted
      ensures rules.dialect.AbortOnFailure? ==> rules.task(x.submitted[id].taskType, x.submitted[id].payload).Done?
    {
      assert Final(rules, y.submitted[id], y.store.jobs[id]);
    }
  }

  /** Every run without losses, from wherever it stands and with at least one worker, has a
      continuation without losses that leaves nothing to do; in Spring if and only if no submitted
      task throws. */
  lemma {:induction false} DrainsIffManageable(rules: Rules, names: seq<string>, actions: seq<Action>)
    requires Run(rules, Begin(names), actions).Some? && Calm(actions) && |names| > 0
    ensures (exists more :: DrainedAfter(rules, names, actions + more)) <==>
      Manageable(rules, Run(rules, Begin(names), actions).value)
  {
    var x := Run(rules, Begin(names), actions).value;
    if Manageable(rules, x) {
      RunRecords(rules, names, actions);
      var all := Drain(rules, names, actions, x);
      assert all == actions + all[|actions|..];
    } else if more :| DrainedAfter(rules, names, actions + more) {
      DrainedWasManageable(rules, names, actions, more);
    }
  }
}
