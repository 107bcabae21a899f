/** What every job hash says, and how that follows the entry of the job through the queue. */
module QueueRecords {
  import opened Options
  import opened QueueModel
  import opened QueueDelivery

  /** A whole record whose submitted part is untouched. */
  ghost predicate Intact(d: Dialect, id: Id, job: Job, h: Hash) {
    && JobId in h && h[JobId] == id
    && TaskType in h && h[TaskType] == job.taskType
    && Payload in h && h[Payload] == job.payload
    && CreatedAt in h && h[CreatedAt] == job.createdAt
    && Status in h && Result in h && WorkerId in h
    && (d.RecordFailures? ==> UpdatedAt in h)
  }

  ghost predicate Says(h: Hash, status: string, result: string) {
    Status in h && h[Status] == status && Result in h && h[Result] == result
  }

  /** The final word on a job: decided by what was submitted and by nothing else. */
  ghost predicate Final(rules: Rules, job: Job, h: Hash) {
    var t := rules.task(job.taskType, job.payload);
    Says(h, if t.Done? then "COMPLETED" else "FAILED", t.text) && (rules.dialect.AbortOnFailure? ==> t.Done?)
  }

  /** What a hash says while the entry of its job is at a given stage. */
  ghost predicate Fits(rules: Rules, job: Job, h: Hash, stage: Stage) {
    match stage
    case Fetched => Says(h, "PENDING", "")
    case Marked => Says(h, "PROCESSING", "")
    case Running(taskType, payload) =>
      Says(h, "PROCESSING", "") && taskType == job.taskType && payload == job.payload
    case Recorded => Final(rules, job, h)
  }

  /** The same for the job of stream entry `i`, if it has one. */
  ghost predicate EntryFits(rules: Rules, x: World, i: nat, stage: Stage) {
    i < |x.store.stream| && x.store.stream[i].job.Some? ==>
      var id := x.store.stream[i].job.value;
      id in x.submitted && id in x.store.jobs && Fits(rules, x.submitted[id], x.store.jobs[id], stage)
  }

  ghost predicate Complete(rules: Rules, x: World) {
    && x.store.jobs.Keys == x.submitted.Keys
    && forall id | id in x.submitted ::
         Intact(rules.dialect, id, x.submitted[id], x.store.jobs[id])
  }

  /** Jobs reach the stream only after their hash was written, and once. */
  ghost predicate Published(x: World) {
    && x.staged <= x.submitted.Keys
    && (forall i | 0 <= i < |x.store.stream| && x.store.stream[i].job.Some? ::
          var m := x.store.stream[i];
          m.job.value in x.submitted && m.job.value !in x.staged &&
          m.taskType == x.submitted[m.job.value].taskType)
    && (forall i, j | 0 <= i < j < |x.store.stream| && x.store.stream[i].job.Some? ::
          x.store.stream[i].job != x.store.stream[j].job)
  }

  ghost predicate HandFits(rules: Rules, x: World, worker: Worker) {
    worker.Busy? ==> forall k | 0 <= k < |worker.batch| ::
      EntryFits(rules, x, worker.batch[k], if k == 0 then worker.stage else Fetched)
  }

  /** How far the work on an acknowledged entry got: to the end, unless it was cancelled. */
  function LastStage(x: World, i: nat): Stage {
    if i in x.cancelled then Marked else Recorded
  }

  ghost predicate Tracked(rules: Rules, x: World) {
    && (forall id | id in x.staged && id in x.store.jobs :: Says(x.store.jobs[id], "PENDING", ""))
    && (forall i | x.store.delivered <= i < |x.store.stream| :: EntryFits(rules, x, i, Fetched))
    && (forall i | i in x.store.acked :: EntryFits(rules, x, i, LastStage(x, i)))
    && (forall w | 0 <= w < |x.workers| :: HandFits(rules, x, x.workers[w]))
  }

  ghost predicate Records(rules: Rules, x: World) {
    Complete(rules, x) && Published(x) && Tracked(rules, x)
  }

  lemma {:induction false} UpdateKeeps(d: Dialect, id: Id, job: Job, h: Hash,
                                     status: string, worker: string, result: string, stamp: string)
    requires Intact(d, id, job, h)
    ensures var h' := h + StatusFields(d, status, worker, result, stamp);
      && Intact(d, id, job, h') && h'[Status] == status
      && (h[Result] == "" || d.AbortOnFailure? ==> h'[Result] == result)
      && (d.RecordFailures? && result == "" ==> h'[Result] == h[Result])
      && h'[WorkerId] == (if d.RecordFailures? && worker == "" then h[WorkerId] else worker)
      && (d.RecordFailures? ==> h'[UpdatedAt] == stamp)
  {
  }

  /** `x'` has everything `x` had, except perhaps another hash for the job `but`. */
  ghost predicate Grown(x: World, x': World, but: Option<Id>) {
    && |x.store.stream| <= |x'.store.stream|
    && (forall i | 0 <= i < |x.store.stream| :: x'.store.stream[i] == x.store.stream[i])
    && (forall id | id in x.submitted :: id in x'.submitted && x'.submitted[id] == x.submitted[id])
    && (forall id | id in x.store.jobs && Some(id) != but ::
          id in x'.store.jobs && x'.store.jobs[id] == x.store.jobs[id])
  }

  lemma {:induction false} FitsStill(rules: Rules, x: World, x': World, but: Option<Id>, i: nat, stage: Stage)
    requires Grown(x, x', but) && EntryFits(rules, x, i, stage)
    requires i < |x.store.stream| && (x.store.stream[i].job.Some? ==> x.store.stream[i].job != but)
    ensures EntryFits(rules, x', i, stage)
  {
  }

  /** Entries in range: what delivery conservation gives the lemmas below. */
  ghost predicate InRange(x: World) {
    && x.store.delivered <= |x.store.stream|
    && (forall i: nat | i in x.store.acked :: i < x.store.delivered)
    && (forall w | 0 <= w < |x.workers| && x.workers[w].Busy? ::
          forall k | 0 <= k < |x.workers[w].batch| :: x.workers[w].batch[k] < x.store.delivered)
  }

  lemma {:induction false} DeliveryInRange(x: World)
    requires Delivery(x)
    ensures InRange(x)
  {
    forall w | 0 <= w < |x.workers| && x.workers[w].Busy?
      ensures forall k | 0 <= k < |x.workers[w].batch| :: x.workers[w].batch[k] < x.store.delivered
    {
      assert Holding(x.store, x.names[w], x.workers[w]);
    }
  }

  lemma {:induction false} HandFitsStill(rules: Rules, x: World, x': World, w: nat)
    requires Grown(x, x', None) && InRange(x) && w < |x.workers| && HandFits(rules, x, x.workers[w])
    ensures HandFits(rules, x', x.workers[w])
  {
    var worker := x.workers[w];
    if worker.Busy? {
      forall k | 0 <= k < |worker.batch|
        ensures EntryFits(rules, x', worker.batch[k], if k == 0 then worker.stage else Fetched)
      {
        FitsStill(rules, x, x', None, worker.batch[k], if k == 0 then worker.stage else Fetched);
      }
    }
  }

  /** Steps that leave the workers and the group alone. */
  lemma {:induction false} TrackedStill(rules: Rules, x: World, x': World)
    requires Grown(x, x', None) && InRange(x) && Tracked(rules, x)
    requires x'.workers == x.workers
    requires x'.store.delivered == x.store.delivered && x'.store.acked == x.store.acked
    requires x'.cancelled == x.cancelled
    requires forall id | id in x'.staged && id in x'.store.jobs :: Says(x'.store.jobs[id], "PENDING", "")
    requires forall i | |x.store.stream| <= i < |x'.store.stream| :: EntryFits(rules, x', i, Fetched)
    ensures Tracked(rules, x')
  {
    forall i | x'.store.delivered <= i < |x'.store.stream| ensures EntryFits(rules, x', i, Fetched) {
      if i < |x.store.stream| {
        FitsStill(rules, x, x', None, i, Fetched);
      }
    }
    forall i | i in x'.store.acked ensures EntryFits(rules, x', i, LastStage(x', i)) {
      FitsStill(rules, x, x', None, i, LastStage(x', i));
    }
    forall w | 0 <= w < |x.workers| ensures HandFits(rules, x', x'.workers[w]) {
      HandFitsStill(rules, x, x', w);
    }
  }

  lemma {:induction false} NewJobIntact(d: Dialect, id: Id, taskType: string, payload: string, stamp: string)
    ensures var h := NewJob(d, id, taskType, payload, stamp);
      && Intact(d, id, Job(taskType, payload, stamp), h) && Says(h, "PENDING", "")
      && h[WorkerId] == "" && (d.RecordFailures? ==> h[UpdatedAt] == stamp)
  {
  }

  lemma {:induction false} AddJob(rules: Rules, x: World, x': World, id: Id, job: Job, h: Hash)
    requires Records(rules, x) && InRange(x) && id !in x.submitted
    requires Intact(rules.dialect, id, job, h) && Says(h, "PENDING", "")
    requires x' == x.(store := x.store.(jobs := x.store.jobs[id := h]),
                      staged := x.staged + {id}, submitted := x.submitted[id := job])
    ensures Records(rules, x')
  {
    AddComplete(rules, x, x', id, job, h);
    assert Published(x');
    TrackedStill(rules, x, x');
  }

  lemma {:induction false} AddComplete(rules: Rules, x: World, x': World, id: Id, job: Job, h: Hash)
    requires Complete(rules, x) && Intact(rules.dialect, id, job, h)
    requires x'.store.jobs == x.store.jobs[id := h] && x'.submitted == x.submitted[id := job]
    ensures Complete(rules, x')
  {
    assert x'.submitted.Keys == x.submitted.Keys + {id};
    assert x'.store.jobs.Keys == x.store.jobs.Keys + {id};
  }

  lemma {:induction false} SubmitRecords(rules: Rules, x: World, a: Action)
    requires Records(rules, x) && InRange(x) && Legal(rules, x, a) && a.Submit?
    ensures Records(rules, Step(rules, x, a))
  {
    NewJobIntact(rules.dialect, a.id, a.taskType, a.payload, a.stamp);
    AddJob(rules, x, Step(rules, x, a), a.id, Job(a.taskType, a.payload, a.stamp),
           NewJob(rules.dialect, a.id, a.taskType, a.payload, a.stamp));
  }

  lemma {:induction false} PublishRecords(rules: Rules, x: World, a: Action)
    requires Records(rules, x) && InRange(x) && Legal(rules, x, a) && (a.Publish? || a.Foreign? || a.Lose?)
    ensures Records(rules, Step(rules, x, a))
  {
    TrackedStill(rules, x, Step(rules, x, a));
  }

  lemma {:induction false} ReadRecords(rules: Rules, x: World, w: nat)
    requires Records(rules, x) && InRange(x) && Legal(rules, x, Read(w))
    ensures Records(rules, Step(rules, x, Read(w)))
  {
    var x' := Step(rules, x, Read(w));
    forall v | 0 <= v < |x.workers| ensures HandFits(rules, x', x'.workers[v]) {
      if v == w {
        forall k | 0 <= k < |x'.workers[w].batch|
          ensures EntryFits(rules, x', x'.workers[w].batch[k], Fetched)
        {
          FitsStill(rules, x, x', None, x.store.delivered + k, Fetched);
        }
      } else {
        HandFitsStill(rules, x, x', v);
      }
    }
    TrackedGroup(rules, x, x');
  }

  /** Steps of the group: entries leave the undelivered tail or join the acknowledged ones. */
  lemma {:induction false} TrackedGroup(rules: Rules, x: World, x': World)
    requires Grown(x, x', None) && InRange(x) && Tracked(rules, x)
    requires x'.store.stream == x.store.stream && x'.store.jobs == x.store.jobs && x'.staged == x.staged
    requires x.store.delivered <= x'.store.delivered
    requires forall i | i in x'.store.acked && i in x.store.acked :: LastStage(x', i) == LastStage(x, i)
    requires forall i | i in x'.store.acked && i !in x.store.acked ::
      i < |x.store.stream| && EntryFits(rules, x, i, LastStage(x', i))
    requires forall w | 0 <= w < |x'.workers| :: HandFits(rules, x', x'.workers[w])
    ensures Tracked(rules, x')
  {
    forall i | x'.store.delivered <= i < |x'.store.stream| ensures EntryFits(rules, x', i, Fetched) {
      FitsStill(rules, x, x', None, i, Fetched);
    }
    forall i | i in x'.store.acked ensures EntryFits(rules, x', i, LastStage(x', i)) {
      FitsStill(rules, x, x', None, i, LastStage(x', i));
    }
  }

  lemma {:induction false} NextFits(rules: Rules, x: World, x': World, w: nat)
    requires Grown(x, x', None) && InRange(x) && w < |x.workers| && x.workers[w].Busy?
    requires HandFits(rules, x, x.workers[w])
    ensures HandFits(rules, x', Next(x.workers[w].batch))
  {
    var batch := x.workers[w].batch;
    if |batch| > 1 {
      forall k | 0 <= k < |batch| - 1 ensures EntryFits(rules, x', batch[1..][k], Fetched) {
        FitsStill(rules, x, x', None, batch[k + 1], Fetched);
      }
    }
  }

  /** The entry in hand is in the state in which it is about to be acknowledged. */
  lemma {:induction false} ReadyToAck(rules: Rules, x: World, a: Action)
    requires Records(rules, x) && Delivery(x) && Legal(rules, x, a) && (a.Ack? || a.Skip? || a.Cancel?)
    ensures EntryFits(rules, x, EntryInHand(x, a.w), LastStage(Step(rules, x, a), EntryInHand(x, a.w)))
  {
    assert HandFits(rules, x, x.workers[a.w]) && Holding(x.store, x.names[a.w], x.workers[a.w]);
    assert EntryFits(rules, x, EntryInHand(x, a.w), x.workers[a.w].stage);
  }

  /** Worker `w` lets go of entry `e`, which is now acknowledged. */
  lemma {:induction false} AckedRecords(rules: Rules, x: World, x': World, w: nat, e: nat)
    requires Records(rules, x) && InRange(x) && w < |x.workers| && w < |x'.workers| && x.workers[w].Busy?
    requires x' == x.(store := x'.store, workers := x.workers[w := x'.workers[w]], cancelled := x'.cancelled)
    requires x'.store == x.store.(pending := x'.store.pending, acked := x.store.acked + {e})
    requires e < |x.store.stream| && EntryFits(rules, x, e, LastStage(x', e))
    requires e !in x.store.acked && x'.cancelled - {e} == x.cancelled
    requires x'.workers[w] == Next(x.workers[w].batch) || x'.workers[w] == Dead
    ensures Records(rules, x')
  {
    assert HandFits(rules, x, x.workers[w]);
    NextFits(rules, x, x', w);
    forall v | 0 <= v < |x.workers| && v != w ensures HandFits(rules, x', x.workers[v]) {
      HandFitsStill(rules, x, x', v);
    }
    TrackedGroup(rules, x, x');
  }

  lemma {:induction false} AckRecords(rules: Rules, x: World, a: Action)
    requires Records(rules, x) && Delivery(x) && Legal(rules, x, a) && (a.Ack? || a.Skip? || a.Cancel?)
    ensures Records(rules, Step(rules, x, a))
  {
    DeliveryInRange(x);
    ReadyToAck(rules, x, a);
    assert Holding(x.store, x.names[a.w], x.workers[a.w]);
    assert EntryInHand(x, a.w) !in x.cancelled;
    AckedRecords(rules, x, Step(rules, x, a), a.w, EntryInHand(x, a.w));
  }

  lemma {:induction false} DropRecords(rules: Rules, x: World, a: Action)
    requires Records(rules, x) && InRange(x) && Legal(rules, x, a) && (a.Abort? || a.Crash?)
    ensures Records(rules, Step(rules, x, a))
  {
    var x' := Step(rules, x, a);
    forall v | 0 <= v < |x.workers| ensures HandFits(rules, x', x'.workers[v]) {
      HandFitsStill(rules, x, x', v);
    }
    TrackedGroup(rules, x, x');
  }

  /** Steps that rewrite the hash of the entry in hand and move it to another stage. */
  lemma {:induction false} AdvanceRecords(rules: Rules, x: World, x': World, w: nat, stage: Stage)
    requires Records(rules, x) && Delivery(x) && HasJob(x, w)
    requires x' == x.(store := x'.store, started := x'.started,
                      workers := x.workers[w := x.workers[w].(stage := stage)])
    requires x'.store == x.store.(jobs := x'.store.jobs)
    requires Grown(x, x', MessageInHand(x, w).job) && Complete(rules, x')
    requires EntryFits(rules, x', EntryInHand(x, w), stage)
    ensures Records(rules, x')
  {
    DeliveryInRange(x);
    var e, but := EntryInHand(x, w), MessageInHand(x, w).job;
    assert Holding(x.store, x.names[w], x.workers[w]);
    forall i | x.store.delivered <= i < |x.store.stream| ensures EntryFits(rules, x', i, Fetched) {
      FitsStill(rules, x, x', but, i, Fetched);
    }
    forall i | i in x.store.acked ensures EntryFits(rules, x', i, LastStage(x', i)) {
      assert i != e;
      FitsStill(rules, x, x', but, i, LastStage(x, i));
    }
    forall v | 0 <= v < |x.workers| ensures HandFits(rules, x', x'.workers[v]) {
      assert HandFits(rules, x, x.workers[v]);
      if x.workers[v].Busy? {
        assert Holding(x.store, x.names[v], x.workers[v]);
        forall k | 0 <= k < |x.workers[v].batch|
          ensures EntryFits(rules, x', x.workers[v].batch[k], if k == 0 then x'.workers[v].stage else Fetched)
        {
          if v != w || k != 0 {
            assert v < w ==> Apart(x.workers[v], x.workers[w]);
            assert w < v ==> Apart(x.workers[w], x.workers[v]);
            FitsStill(rules, x, x', but, x.workers[v].batch[k], if k == 0 then x.workers[v].stage else Fetched);
          }
        }
      }
    }
  }

  /** What the record of the job in hand says before a step of its worker. */
  lemma {:induction false} InHandFits(rules: Rules, x: World, w: nat)
    requires Records(rules, x) && HasJob(x, w)
    ensures var id := MessageInHand(x, w).job.value;
      && id in x.submitted && id in x.store.jobs
      && Intact(rules.dialect, id, x.submitted[id], x.store.jobs[id])
      && Fits(rules, x.submitted[id], x.store.jobs[id], x.workers[w].stage)
      && MessageInHand(x, w).taskType == x.submitted[id].taskType
  {
    assert HandFits(rules, x, x.workers[w]);
    assert EntryFits(rules, x, EntryInHand(x, w), x.workers[w].stage);
  }

  /** A worker writes a status for the entry in hand. */
  lemma {:induction false} WriteRecords(rules: Rules, x: World, x': World, w: nat, stage: Stage,
                                        status: string, result: string, stamp: string)
    requires Records(rules, x) && Delivery(x) && HasJob(x, w)
    requires x.store.jobs[MessageInHand(x, w).job.value][Result] == ""
    requires var id := MessageInHand(x, w).job.value;
      && x' == x.(store := HSet(x.store, id, StatusFields(rules.dialect, status, x.names[w], result, stamp)),
                  workers := x.workers[w := x.workers[w].(stage := stage)])
      && forall h | Says(h, status, result) :: Fits(rules, x.submitted[id], h, stage)
    ensures Records(rules, x')
  {
    var id := MessageInHand(x, w).job.value;
    InHandFits(rules, x, w);
    UpdateKeeps(rules.dialect, id, x.submitted[id], x.store.jobs[id], status, x.names[w], result, stamp);
    assert Says(x'.store.jobs[id], status, result);
    assert Complete(rules, x') by {
      assert x'.store.jobs.Keys == x.store.jobs.Keys;
    }
    AdvanceRecords(rules, x, x', w, stage);
  }

  lemma {:induction false} MarkRecords(rules: Rules, x: World, a: Action)
    requires Records(rules, x) && Delivery(x) && Legal(rules, x, a) && a.Mark?
    ensures Records(rules, Step(rules, x, a))
  {
    InHandFits(rules, x, a.w);
    WriteRecords(rules, x, Step(rules, x, a), a.w, Marked, "PROCESSING", "", a.stamp);
  }

  lemma {:induction false} RecordRecords(rules: Rules, x: World, a: Action)
    requires Records(rules, x) && Delivery(x) && Legal(rules, x, a) && a.Record?
    ensures Records(rules, Step(rules, x, a))
  {
    InHandFits(rules, x, a.w);
    var t := rules.task(x.workers[a.w].stage.taskType, x.workers[a.w].stage.payload);
    WriteRecords(rules, x, Step(rules, x, a), a.w, Recorded, OutcomeStatus(t), t.text, a.stamp);
  }

  lemma {:induction false} StartRecords(rules: Rules, x: World, a: Action)
    requires Records(rules, x) && Delivery(x) && Legal(rules, x, a) && a.Start?
    ensures Records(rules, Step(rules, x, a))
  {
    InHandFits(rules, x, a.w);
    var x' := Step(rules, x, a);
    AdvanceRecords(rules, x, x', a.w, x'.workers[a.w].stage);
  }

  lemma {:induction false} RunRecords(rules: Rules, names: seq<string>, actions: seq<Action>)
    requires Run(rules, Begin(names), actions).Some?
    ensures var x := Run(rules, Begin(names), actions).value; Delivery(x) && Records(rules, x)
  {
    if actions != [] {
      var x, a := Run(rules, Begin(names), actions[..|actions|-1]).value, actions[|actions|-1];
      RunRecords(rules, names, actions[..|actions|-1]);
      DeliveryInRange(x);
      DeliveryConservation(rules, names, actions);
      match a
      case Submit(_, _, _, _) => SubmitRecords(rules, x, a);
      case Publish(_) => PublishRecords(rules, x, a);
      case Foreign(_) => PublishRecords(rules, x, a);
      case Lose(_) => PublishRecords(rules, x, a);
      case Read(w) => ReadRecords(rules, x, w);
      case Skip(_) => AckRecords(rules, x, a);
      case Ack(_) => AckRecords(rules, x, a);
      case Cancel(_) => AckRecords(rules, x, a);
      case Abort(_) => DropRecords(rules, x, a);
      case Crash(_) => DropRecords(rules, x, a);
      case Mark(_, _) => MarkRecords(rules, x, a);
      case Start(_) => StartRecords(rules, x, a);
      case Record(_, _) => RecordRecords(rules, x, a);
    }
  }
}
