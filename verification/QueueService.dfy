/** The queue service and the two kinds of worker as the programs that run them. */
module QueueService {
  import opened Options
  import opened QueueModel
  import opened QueueTurns

  class Redis {
    var jobs: map<Id, Hash>
    var stream: seq<Message>
    var delivered: nat
    var pending: map<nat, string>
    var acked: set<nat>
    ghost var trace: seq<Command>   // everything written so far, in order

    function Value(): Store
      reads this
    {
      Store(jobs, stream, delivered, pending, acked)
    }

    ghost predicate Valid()
      reads this
    {
      Sound(Value())
    }

    constructor ()
      ensures Valid() && Value() == EMPTY && trace == []
    {
      jobs := map[];
      stream := [];
      delivered := 0;
      pending := map[];
      acked := {};
      trace := [];
    }

    method HSetAll(id: Id, fields: Hash)
      modifies this
      ensures Value() == HSet(old(Value()), id, fields) && trace == old(trace) + [Hash(id, fields)]
    {
      trace := trace + [Hash(id, fields)];
      jobs := jobs[id := if id in jobs then jobs[id] + fields else fields];
    }

    method Add(m: Message)
      modifies this
      ensures Value() == XAdd(old(Value()), m) && trace == old(trace) + [Append(m)]
    {
      trace := trace + [Append(m)];
      stream := stream + [m];
    }

    method ReadNew(consumer: string, count: nat) returns (batch: seq<nat>)
      requires delivered + count <= |stream|
      modifies this
      ensures (Value(), batch) == XReadGroup(old(Value()), consumer, count)
      ensures trace == old(trace) + [Fetch(consumer, count)]
    {
      trace := trace + [Fetch(consumer, count)];
      var r := XReadGroup(Value(), consumer, count);
      pending := r.0.pending;
      delivered := delivered + count;
      batch := r.1;
    }

    method Acknowledge(entry: nat)
      modifies this
      ensures Value() == XAck(old(Value()), entry) && trace == old(trace) + [Confirm(entry)]
    {
      trace := trace + [Confirm(entry)];
      if entry in pending {
        pending := pending - {entry};
        acked := acked + {entry};
      }
    }
  }

  /** The hash is written before the entry is published. */
  method EnqueueJob(redis: Redis, d: Dialect, id: Id, taskType: string, payload: string, stamp: string)
    requires id !in redis.jobs
    modifies redis
    ensures var jobs := old(redis.jobs)[id := NewJob(d, id, taskType, payload, stamp)];
      redis.Value() == XAdd(old(redis.Value()).(jobs := jobs), Message(Some(id), taskType))
    ensures redis.trace == old(redis.trace) +
      [Hash(id, NewJob(d, id, taskType, payload, stamp)), Append(Message(Some(id), taskType))]
    ensures redis.stream == old(redis.stream) + [Message(Some(id), taskType)]
    ensures id in redis.jobs && redis.jobs - {id} == old(redis.jobs)
    ensures var h := redis.jobs[id];
      && h.Keys == {JobId, TaskType, Payload, Status, Result, CreatedAt, WorkerId} +
                   (if d.RecordFailures? then {UpdatedAt} else {})
      && h[JobId] == id && h[TaskType] == taskType && h[Payload] == payload && h[CreatedAt] == stamp
      && h[Status] == "PENDING" && h[Result] == "" && h[WorkerId] == ""
      && (d.RecordFailures? ==> h[UpdatedAt] == stamp)
  {
    redis.HSetAll(id, NewJob(d, id, taskType, payload, stamp));
    redis.Add(Message(Some(id), taskType));
  }

  method UpdateJobStatus(redis: Redis, d: Dialect, id: Id,
                         status: string, worker: string, result: string, stamp: string)
    modifies redis
    ensures redis.Value() == HSet(old(redis.Value()), id, StatusFields(d, status, worker, result, stamp))
    ensures redis.trace == old(redis.trace) + [Hash(id, StatusFields(d, status, worker, result, stamp))]
  {
    var fields: Hash := map[Status := status];
    match d {
      case RecordFailures =>
        fields := fields[UpdatedAt := stamp];
        if worker != "" {
          fields := fields[WorkerId := worker];
        }
        if result != "" {
          fields := fields[Result := result];
        }
      case AbortOnFailure =>
        fields := fields[WorkerId := worker][Result := result];
    }
    assert fields == StatusFields(d, status, worker, result, stamp);
    redis.HSetAll(id, fields);
  }

  /** The body of the FastAPI and NestJS loop. */
  method HandleMessage(redis: Redis, rules: Rules, worker: string, e: nat, mark: string, record: string)
    requires rules.dialect.RecordFailures? && e < |redis.stream|
    modifies redis
    ensures (redis.Value(), true) == ProcessEntry(rules, old(redis.Value()), worker, e, mark, record)
    ensures redis.trace == old(redis.trace) + EntryCommands(rules, old(redis.Value()), worker, e, mark, record)
  {
    var m := redis.stream[e];
    match m.job {
      case None =>
        redis.Acknowledge(e);
      case Some(id) =>
        PayloadStays(redis.Value(), rules.dialect, id, id, "PROCESSING", worker, "", mark);
        UpdateJobStatus(redis, rules.dialect, id, "PROCESSING", worker, "", mark);
        var payload := LoadPayload(redis.jobs, id);
        match rules.task(m.taskType, payload) {
          case Done(text) => UpdateJobStatus(redis, rules.dialect, id, "COMPLETED", worker, text, record);
          case Raised(text) => UpdateJobStatus(redis, rules.dialect, id, "FAILED", worker, text, record);
        }
        redis.Acknowledge(e);
    }
  }

  /** One turn of a FastAPI or NestJS worker: at most one new entry, failures recorded, and the
      entry acknowledged either way. */
  method ProcessOneJob(redis: Redis, rules: Rules, worker: string, mark: string, record: string)
    returns (processed: bool)
    requires rules.dialect.RecordFailures? && redis.Valid()
    modifies redis
    ensures redis.Valid()
    ensures processed <==> old(redis.delivered) < |old(redis.stream)|
    ensures !processed ==> redis.Value() == old(redis.Value()) && redis.trace == old(redis.trace)
    ensures processed ==>
      && redis.delivered == old(redis.delivered) + 1
      && JobTurned(rules, old(redis.Value()), redis.Value(), worker, mark, record)
      && redis.trace == old(redis.trace) + TurnCommands(rules, old(redis.Value()), worker, 1, mark, record)
  {
    if redis.delivered == |redis.stream| {
      return false;
    }
    ghost var before, trace := redis.Value(), redis.trace;
    var batch := redis.ReadNew(worker, 1);
    OneJobTurn(rules, before, redis.Value(), worker, batch, mark, record);
    TurnCommandsAre(rules, before, redis.Value(), worker, batch, 1, mark, record, trace);
    HandleMessages(redis, rules, worker, batch, mark, record);
    processed := true;
  }

  /** The FastAPI and NestJS loop. */
  method HandleMessages(redis: Redis, rules: Rules, worker: string, batch: seq<nat>, mark: string, record: string)
    requires rules.dialect.RecordFailures? && forall k | 0 <= k < |batch| :: batch[k] < |redis.stream|
    modifies redis
    ensures redis.Value() == ProcessBatch(rules, old(redis.Value()), worker, batch, mark, record)
    ensures redis.trace == old(redis.trace) + BatchCommands(rules, old(redis.Value()), worker, batch, mark, record)
  {
    ghost var goal := ProcessBatch(rules, redis.Value(), worker, batch, mark, record);
    ghost var commands := redis.trace + BatchCommands(rules, redis.Value(), worker, batch, mark, record);
    assert batch[0..] == batch && batch[|batch|..] == [];
    for k := 0 to |batch|
      invariant redis.stream == old(redis.stream)
      invariant ProcessBatch(rules, redis.Value(), worker, batch[k..], mark, record) == goal
      invariant redis.trace + BatchCommands(rules, redis.Value(), worker, batch[k..], mark, record) == commands
    {
      BatchUnrolls(rules, redis.Value(), worker, batch, k, mark, record, redis.trace);
      HandleMessage(redis, rules, worker, batch[k], mark, record);
    }
  }

  /** The body of the Spring loop; `false` stands for the exception that leaves it. */
  method HandleRecord(redis: Redis, rules: Rules, worker: string, e: nat) returns (ok: bool)
    requires rules.dialect.AbortOnFailure? && e < |redis.stream|
    modifies redis
    ensures (redis.Value(), ok) == ProcessEntry(rules, old(redis.Value()), worker, e, "", "")
    ensures redis.trace == old(redis.trace) + EntryCommands(rules, old(redis.Value()), worker, e, "", "")
  {
    var m := redis.stream[e];
    match m.job {
      case None =>
        redis.Acknowledge(e);
      case Some(id) =>
        PayloadStays(redis.Value(), rules.dialect, id, id, "PROCESSING", worker, "", "");
        UpdateJobStatus(redis, rules.dialect, id, "PROCESSING", worker, "", "");
        var t := rules.task(m.taskType, LoadPayload(redis.jobs, id));
        if t.Raised? {
          return false;
        }
        UpdateJobStatus(redis, rules.dialect, id, "COMPLETED", worker, t.text, "");
        redis.Acknowledge(e);
    }
    ok := true;
  }

  /** The Spring loop, left at the first exception. */
  method HandleAll(redis: Redis, rules: Rules, worker: string, batch: seq<nat>)
    requires rules.dialect.AbortOnFailure? && forall k | 0 <= k < |batch| :: batch[k] < |redis.stream|
    modifies redis
    ensures redis.Value() == ProcessBatch(rules, old(redis.Value()), worker, batch, "", "")
    ensures redis.trace == old(redis.trace) + BatchCommands(rules, old(redis.Value()), worker, batch, "", "")
  {
    ghost var goal := ProcessBatch(rules, redis.Value(), worker, batch, "", "");
    ghost var commands := redis.trace + BatchCommands(rules, redis.Value(), worker, batch, "", "");
    assert batch[0..] == batch && batch[|batch|..] == [];
    for k := 0 to |batch|
      invariant redis.stream == old(redis.stream)
      invariant ProcessBatch(rules, redis.Value(), worker, batch[k..], "", "") == goal
      invariant redis.trace + BatchCommands(rules, redis.Value(), worker, batch[k..], "", "") == commands
    {
      BatchUnrolls(rules, redis.Value(), worker, batch, k, "", "", redis.trace);
      var ok := HandleRecord(redis, rules, worker, batch[k]);
      if !ok {
        return;
      }
    }
  }

  /** One turn of the Spring worker: everything there is, until a task throws. */
  method ProcessStream(redis: Redis, rules: Rules, worker: string)
    requires rules.dialect.AbortOnFailure? && redis.Valid()
    modifies redis
    ensures redis.Valid() && redis.delivered == |redis.stream|
    ensures StreamTurned(rules, old(redis.Value()), redis.Value(), worker)
    ensures var count := |old(redis.stream)| - old(redis.delivered);
      redis.trace == old(redis.trace) + TurnCommands(rules, old(redis.Value()), worker, count, "", "")
  {
    ghost var before, trace, count := redis.Value(), redis.trace, |redis.stream| - redis.delivered;
    var batch := redis.ReadNew(worker, |redis.stream| - redis.delivered);
    StreamTurn(rules, before, redis.Value(), worker, batch);
    TurnCommandsAre(rules, before, redis.Value(), worker, batch, count, "", "", trace);
    HandleAll(redis, rules, worker, batch);
  }

  /** From `x` to `y` nobody but worker `w` has moved. */
  ghost predicate OnlyMoved(x: World, y: World, w: nat) {
    w < |x.workers| && w < |y.workers| &&
    y == x.(store := y.store, workers := x.workers[w := y.workers[w]], started := y.started)
  }

  /** From `x0` the run `actions` comes to `x` and writes with `commands` on the way. */
  ghost predicate Reaches(rules: Rules, x0: World, actions: seq<Action>, x: World, commands: seq<Command>) {
    Run(rules, x0, actions) == Some(x) && Issued(rules, x0, actions) == commands
  }

  lemma {:induction false} ThenIssue(rules: Rules, x0: World, actions: seq<Action>, x: World, commands: seq<Command>,
                                   a: Action)
    returns (actions': seq<Action>)
    requires Reaches(rules, x0, actions, x, commands) && Legal(rules, x, a)
    ensures Reaches(rules, x0, actions', Step(rules, x, a), commands + Issue(rules, x, a))
  {
    actions' := actions + [a];
    RunOneMore(rules, x0, actions, a);
    assert actions'[..|actions|] == actions;
  }

  // What each step does, without the runs

  lemma {:induction false} MarkStep(rules: Rules, x: World, w: nat, mark: string)
    requires HasJob(x, w) && x.workers[w].stage.Fetched?
    ensures var m, y := MessageInHand(x, w), Step(rules, x, Mark(w, mark));
      var marking := Hash(m.job.value, StatusFields(rules.dialect, "PROCESSING", x.names[w], "", mark));
      && Legal(rules, x, Mark(w, mark)) && Issue(rules, x, Mark(w, mark)) == [marking]
      && OnlyMoved(x, y, w) && y.store == Effect(x.store, marking)
      && y.workers[w] == Busy(x.workers[w].batch, Marked) && HasJob(y, w) && MessageInHand(y, w) == m
  {
  }

  lemma {:induction false} StartStep(rules: Rules, x: World, w: nat)
    requires HasJob(x, w) && x.workers[w].stage.Marked?
    ensures var m, y := MessageInHand(x, w), Step(rules, x, Start(w));
      && Legal(rules, x, Start(w)) && Issue(rules, x, Start(w)) == []
      && OnlyMoved(x, y, w) && y.store == x.store && HasJob(y, w) && MessageInHand(y, w) == m
      && y.workers[w] == Busy(x.workers[w].batch, Running(m.taskType, LoadPayload(x.store.jobs, m.job.value)))
  {
  }

  lemma {:induction false} RecordStep(rules: Rules, x: World, w: nat, record: string, t: TaskResult)
    requires HasJob(x, w) && x.workers[w].stage.Running?
    requires t == rules.task(x.workers[w].stage.taskType, x.workers[w].stage.payload)
    requires rules.dialect.AbortOnFailure? ==> t.Done?
    ensures var m, y := MessageInHand(x, w), Step(rules, x, Record(w, record));
      var status := if t.Done? then "COMPLETED" else "FAILED";
      var report := Hash(m.job.value, StatusFields(rules.dialect, status, x.names[w], t.text, record));
      && Legal(rules, x, Record(w, record)) && Issue(rules, x, Record(w, record)) == [report]
      && OnlyMoved(x, y, w) && y.store == Effect(x.store, report)
      && y.workers[w] == Busy(x.workers[w].batch, Recorded) && HasJob(y, w)
  {
  }

  lemma {:induction false} AckStep(rules: Rules, x: World, w: nat)
    requires HasJob(x, w) && x.workers[w].stage.Recorded?
    ensures var y := Step(rules, x, Ack(w));
      && Legal(rules, x, Ack(w)) && Issue(rules, x, Ack(w)) == [Confirm(EntryInHand(x, w))]
      && OnlyMoved(x, y, w) && y.store == XAck(x.store, EntryInHand(x, w))
      && y.workers[w] == Next(x.workers[w].batch)
  {
  }

  lemma {:induction false} MovedTwice(x: World, y: World, z: World, w: nat)
    requires OnlyMoved(x, y, w) && OnlyMoved(y, z, w)
    ensures OnlyMoved(x, z, w)
  {
    assert x.workers[w := y.workers[w]][w := z.workers[w]] == x.workers[w := z.workers[w]];
  }

  // The runs

  lemma {:induction false} MarkThenStart(rules: Rules, x: World, w: nat, mark: string)
    returns (actions: seq<Action>, y: World)
    requires HasJob(x, w) && x.workers[w].stage.Fetched?
    ensures OnlyMoved(x, y, w) && HasJob(y, w) && MessageInHand(y, w) == MessageInHand(x, w)
    ensures var m := MessageInHand(x, w);
      var marking := Hash(m.job.value, StatusFields(rules.dialect, "PROCESSING", x.names[w], "", mark));
      && Reaches(rules, x, actions, y, [marking]) && y.store == Effect(x.store, marking)
      && y.workers[w] == Busy(x.workers[w].batch, Running(m.taskType, LoadPayload(y.store.jobs, m.job.value)))
  {
    var marked := Step(rules, x, Mark(w, mark));
    MarkStep(rules, x, w, mark);
    StartStep(rules, marked, w);
    assert Reaches(rules, x, [], x, []);
    actions := ThenIssue(rules, x, [], x, [], Mark(w, mark));
    actions := ThenIssue(rules, x, actions, marked, [] + Issue(rules, x, Mark(w, mark)), Start(w));
    y := Step(rules, marked, Start(w));
    MovedTwice(x, marked, y, w);
  }

  lemma {:induction false} RecordThenAck(rules: Rules, x0: World, before: seq<Action>, x: World,
                                       commands: seq<Command>, w: nat, record: string, t: TaskResult)
    returns (actions: seq<Action>, y: World)
    requires Reaches(rules, x0, before, x, commands) && HasJob(x, w) && x.workers[w].stage.Running?
    requires t == rules.task(x.workers[w].stage.taskType, x.workers[w].stage.payload)
    requires rules.dialect.AbortOnFailure? ==> t.Done?
    ensures OnlyMoved(x, y, w) && y.workers[w] == Next(x.workers[w].batch)
    ensures var status := if t.Done? then "COMPLETED" else "FAILED";
      var id, e := MessageInHand(x, w).job.value, EntryInHand(x, w);
      var report := Hash(id, StatusFields(rules.dialect, status, x.names[w], t.text, record));
      && y.store == XAck(Effect(x.store, report), e)
      && Reaches(rules, x0, actions, y, commands + [report, Confirm(e)])
  {
    var reported := Step(rules, x, Record(w, record));
    RecordStep(rules, x, w, record, t);
    AckStep(rules, reported, w);
    var report := Issue(rules, x, Record(w, record));
    actions := ThenIssue(rules, x0, before, x, commands, Record(w, record));
    actions := ThenIssue(rules, x0, actions, reported, commands + report, Ack(w));
    y := Step(rules, reported, Ack(w));
    MovedTwice(x, reported, y, w);
    Joined(commands, report, [Confirm(EntryInHand(x, w))]);
    assert report + [Confirm(EntryInHand(x, w))] == [report[0], Confirm(EntryInHand(x, w))];
  }

  lemma {:induction false} Joined(a: seq<Command>, b: seq<Command>, c: seq<Command>)
    ensures (a + b) + c == a + (b + c)
  {
  }

  lemma {:induction false} JobIsARun(rules: Rules, x: World, w: nat, mark: string, record: string)
    returns (actions: seq<Action>, y: World)
    requires HasJob(x, w) && x.workers[w].stage.Fetched?
    ensures OnlyMoved(x, y, w)
    ensures Reaches(rules, x, actions, y, EntryCommands(rules, x.store, x.names[w], EntryInHand(x, w), mark, record))
    ensures var (s, more) := ProcessEntry(rules, x.store, x.names[w], EntryInHand(x, w), mark, record);
      y.store == s && y.workers[w] == if more then Next(x.workers[w].batch) else Idle
  {
    var id := MessageInHand(x, w).job.value;
    var started: World;
    actions, started := MarkThenStart(rules, x, w, mark);
    var marking := Hash(id, StatusFields(rules.dialect, "PROCESSING", x.names[w], "", mark));
    PayloadStays(x.store, rules.dialect, id, id, "PROCESSING", x.names[w], "", mark);
    var t := rules.task(MessageInHand(x, w).taskType, LoadPayload(x.store.jobs, id));
    if rules.dialect.AbortOnFailure? && t.Raised? {
      actions := ThenIssue(rules, x, actions, started, [marking], Abort(w));
      y := Step(rules, started, Abort(w));
    } else {
      actions, y := RecordThenAck(rules, x, actions, started, [marking], w, record, t);
    }
    MovedTwice(x, started, y, w);
  }

  lemma {:induction false} SkipIsARun(rules: Rules, x: World, w: nat) returns (actions: seq<Action>, y: World)
    requires InHand(x, w) && x.workers[w].stage.Fetched? && !HasJob(x, w)
    ensures OnlyMoved(x, y, w) && Reaches(rules, x, actions, y, [Confirm(EntryInHand(x, w))])
    ensures y.store == XAck(x.store, EntryInHand(x, w)) && y.workers[w] == Next(x.workers[w].batch)
  {
    assert Reaches(rules, x, [], x, []);
    actions := ThenIssue(rules, x, [], x, [], Skip(w));
    y := Step(rules, x, Skip(w));
    assert [] + Issue(rules, x, Skip(w)) == [Confirm(EntryInHand(x, w))];
  }

  lemma {:induction false} EntryIsARun(rules: Rules, x: World, w: nat, mark: string, record: string)
    returns (actions: seq<Action>, y: World)
    requires InHand(x, w) && x.workers[w].stage.Fetched?
    ensures OnlyMoved(x, y, w)
    ensures Reaches(rules, x, actions, y, EntryCommands(rules, x.store, x.names[w], EntryInHand(x, w), mark, record))
    ensures var (s, more) := ProcessEntry(rules, x.store, x.names[w], EntryInHand(x, w), mark, record);
      y.store == s && y.workers[w] == if more then Next(x.workers[w].batch) else Idle
  {
    if !HasJob(x, w) {
      actions, y := SkipIsARun(rules, x, w);
    } else {
      actions, y := JobIsARun(rules, x, w, mark, record);
    }
  }

  lemma {:induction false} ReachesThen(rules: Rules, x: World, first: seq<Action>, y: World, commands: seq<Command>,
                                     then': seq<Action>, z: World, more: seq<Command>)
    requires Reaches(rules, x, first, y, commands) && Reaches(rules, y, then', z, more)
    ensures Reaches(rules, x, first + then', z, commands + more)
  {
    RunThen(rules, x, first, then');
    IssuedThen(rules, x, first, y, then');
  }

  /** The program of a worker is one of the interleavings: working on its batch without a break, in
      any world and whatever the others are about, it takes steps of the protocol, writes with the
      same commands in the same order and ends where the program ends, so all that holds of every
      run holds of it. */
  lemma {:induction false} BatchIsARun(rules: Rules, x: World, w: nat, batch: seq<nat>, mark: string, record: string)
    returns (actions: seq<Action>, y: World)
    requires w < |x.workers| && w < |x.names|
    requires x.workers[w] == if batch == [] then Idle else Busy(batch, Fetched)
    requires forall k | 0 <= k < |batch| :: batch[k] < |x.store.stream|
    ensures Run(rules, x, actions) == Some(y) && OnlyMoved(x, y, w) && y.workers[w] == Idle
    ensures y.store == ProcessBatch(rules, x.store, x.names[w], batch, mark, record)
    ensures Issued(rules, x, actions) == BatchCommands(rules, x.store, x.names[w], batch, mark, record)
    decreases |batch|
  {
    if batch == [] {
      actions, y := [], x;
    } else {
      var next: World;
      var first := EntryCommands(rules, x.store, x.names[w], batch[0], mark, record);
      actions, next := EntryIsARun(rules, x, w, mark, record);
      if ProcessEntry(rules, x.store, x.names[w], batch[0], mark, record).1 {
        var more: seq<Action>;
        more, y := BatchIsARun(rules, next, w, batch[1..], mark, record);
        var rest := BatchCommands(rules, next.store, x.names[w], batch[1..], mark, record);
        ReachesThen(rules, x, actions, next, first, more, y, rest);
        MovedTwice(x, next, y, w);
        actions := actions + more;
      } else {
        y := next;
      }
    }
  }

  /** So is the producer's: the hash comes first, and the entry after it. */
  lemma {:induction false} EnqueueIsARun(rules: Rules, x: World, id: Id, taskType: string, payload: string,
                                       stamp: string)
    returns (actions: seq<Action>)
    requires id !in x.store.jobs && id !in x.submitted && id !in x.staged
    ensures Run(rules, x, actions).Some?
    ensures Issued(rules, x, actions) ==
      [Hash(id, NewJob(rules.dialect, id, taskType, payload, stamp)), Append(Message(Some(id), taskType))]
    ensures var y := Run(rules, x, actions).value;
      && y.staged == x.staged && y.workers == x.workers && y.names == x.names
      && y.store == x.store.(jobs := x.store.jobs[id := NewJob(rules.dialect, id, taskType, payload, stamp)],
                             stream := x.store.stream + [Message(Some(id), taskType)])
  {
    var submit := Submit(id, taskType, payload, stamp);
    var y := Step(rules, x, submit);
    assert y.staged == x.staged + {id} && y.submitted[id] == Job(taskType, payload, stamp);
    assert Reaches(rules, x, [], x, []);
    actions := ThenIssue(rules, x, [], x, [], submit);
    actions := ThenIssue(rules, x, actions, y, [] + Issue(rules, x, submit), Publish(id));
  }

  /** The program's next command, as far as the worker has got; `stamp` is the clock it reads. */
  function NextAction(rules: Rules, x: World, w: nat, stamp: string): Action
    requires InHand(x, w)
  {
    if !HasJob(x, w) then Skip(w)
    else
      match x.workers[w].stage
      case Fetched => Mark(w, stamp)
      case Marked => Start(w)
      case Running(taskType, payload) =>
        if rules.dialect.AbortOnFailure? && rules.task(taskType, payload).Raised? then Abort(w) else Record(w, stamp)
      case Recorded => Ack(w)
  }

  predicate By(a: Action, w: nat) {
    (a.Read? || a.Skip? || a.Mark? || a.Start? || a.Record? || a.Ack? || a.Abort? || a.Cancel? || a.Crash?) && a.w == w
  }

  lemma {:induction false} OtherLeavesHand(rules: Rules, x: World, w: nat, a: Action)
    requires InHand(x, w) && Legal(rules, x, a) && !By(a, w)
    ensures var y := Step(rules, x, a);
      && InHand(y, w) && y.workers[w] == x.workers[w] && y.names == x.names
      && MessageInHand(y, w) == MessageInHand(x, w)
  {
  }

  /** And between any two of its commands the others may do what they like, for as long as they
      like: the worker still has the same entry at the same stage, its next command is the same as
      before, and the protocol allows it. */
  lemma {:induction false} OthersDoNotDisturb(rules: Rules, x: World, w: nat, others: seq<Action>, stamp: string)
    requires InHand(x, w) && (x.workers[w].stage.Fetched? || HasJob(x, w))
    requires Run(rules, x, others).Some? && forall a <- others :: !By(a, w)
    ensures var y := Run(rules, x, others).value;
      && InHand(y, w) && y.workers[w] == x.workers[w] && y.names == x.names
      && MessageInHand(y, w) == MessageInHand(x, w)
      && NextAction(rules, y, w, stamp) == NextAction(rules, x, w, stamp)
      && Legal(rules, y, NextAction(rules, y, w, stamp))
  {
    if others != [] {
      var others0, a := others[..|others|-1], others[|others|-1];
      assert a in others && forall b <- others0 :: b in others;
      OthersDoNotDisturb(rules, x, w, others0, stamp);
      OtherLeavesHand(rules, Run(rules, x, others0).value, w, a);
    }
  }
}
