/**
 The stream job queue: the Redis data it lives in, and the runs of any number of producers and
 workers, interleaved command by command, with crashes between any two commands.
 */
module QueueModel {
  import opened Options

  type Id = string

  datatype Field = JobId | TaskType | Payload | Status | Result | CreatedAt | UpdatedAt | WorkerId

  type Hash = map<Field, string>

  /** A stream entry; foreign entries carry no usable job id. */
  datatype Message = Message(job: Option<Id>, taskType: string)

  /** What the consumer group and the job hashes look like to Redis. `pending` is the pending
      entries list: entry number to consumer name. */
  datatype Store = Store(
    jobs: map<Id, Hash>, stream: seq<Message>,
    delivered: nat, pending: map<nat, string>, acked: set<nat>)

  const EMPTY := Store(map[], [], 0, map[], {})

  // Redis commands

  function HSet(s: Store, id: Id, fields: Hash): Store {
    s.(jobs := s.jobs[id := if id in s.jobs then s.jobs[id] + fields else fields])
  }

  function XAdd(s: Store, m: Message): Store {
    s.(stream := s.stream + [m])
  }

  /** XREADGROUP with `>`: the next `count` entries nobody was given yet, now pending. */
  function XReadGroup(s: Store, consumer: string, count: nat): (r: (Store, seq<nat>))
    requires s.delivered + count <= |s.stream|
    ensures |r.1| == count && forall k | 0 <= k < count :: r.1[k] == s.delivered + k
  {
    var batch := seq(count, k requires 0 <= k => s.delivered + k);
    (s.(delivered := s.delivered + count, pending := s.pending + map i | i in batch :: consumer), batch)
  }

  lemma {:induction false} PendingAfterRead(s: Store, consumer: string, count: nat)
    requires s.delivered + count <= |s.stream|
    ensures var (s', _) := XReadGroup(s, consumer, count);
      && (forall i: nat :: i in s'.pending <==> i in s.pending || s.delivered <= i < s.delivered + count)
      && (forall i: nat | i in s'.pending ::
            s'.pending[i] == if s.delivered <= i < s.delivered + count then consumer else s.pending[i])
  {
    var batch := XReadGroup(s, consumer, count).1;
    forall i: nat | s.delivered <= i < s.delivered + count ensures i in batch {
      assert batch[i - s.delivered] == i;
    }
  }

  function XAck(s: Store, entry: nat): Store {
    if entry in s.pending then s.(pending := s.pending - {entry}, acked := s.acked + {entry}) else s
  }

  /** A command that writes to Redis. */
  datatype Command =
    | Hash(id: Id, fields: Hash)
    | Append(message: Message)
    | Fetch(consumer: string, count: nat)
    | Confirm(entry: nat)

  function Effect(s: Store, c: Command): Store {
    match c
    case Hash(id, fields) => HSet(s, id, fields)
    case Append(m) => XAdd(s, m)
    case Fetch(consumer, count) =>
      if s.delivered + count <= |s.stream| then XReadGroup(s, consumer, count).0 else s
    case Confirm(entry) => XAck(s, entry)
  }

  function Play(s: Store, commands: seq<Command>): Store {
    if commands == [] then s else Effect(Play(s, commands[..|commands|-1]), commands[|commands|-1])
  }

  // The hash fields the services write

  /** FastAPI and NestJS read one entry at a time, record a failed task and acknowledge it;
      Spring reads all there is, and an exception drops the rest of the batch. */
  datatype Dialect = RecordFailures | AbortOnFailure

  datatype TaskResult = Done(text: string) | Raised(text: string)

  datatype Rules = Rules(dialect: Dialect, task: (string, string) -> TaskResult)

  function NewJob(d: Dialect, id: Id, taskType: string, payload: string, stamp: string): Hash {
    var common := map[JobId := id, TaskType := taskType, Payload := payload, Status := "PENDING",
                      Result := "", CreatedAt := stamp, WorkerId := ""];
    if d.RecordFailures? then common[UpdatedAt := stamp] else common
  }

  /** Python and TypeScript leave an empty worker or result out of the update, and stamp it. */
  function StatusFields(d: Dialect, status: string, worker: string, result: string, stamp: string): Hash {
    match d
    case RecordFailures =>
      map[Status := status, UpdatedAt := stamp]
      + (if worker != "" then map[WorkerId := worker] else map[])
      + (if result != "" then map[Result := result] else map[])
    case AbortOnFailure =>
      map[Status := status, WorkerId := worker, Result := result]
  }

  function OutcomeStatus(t: TaskResult): string {
    if t.Done? then "COMPLETED" else "FAILED"
  }

  // Runs

  datatype Stage =
    | Fetched                                  // nothing done yet for the entry
    | Marked                                   // PROCESSING written
    | Running(taskType: string, payload: string)
    | Recorded                                 // final status written

  /** The entries a worker was given and has not finished, the first one in hand. */
  datatype Worker = Idle | Busy(batch: seq<nat>, stage: Stage) | Dead

  datatype Job = Job(taskType: string, payload: string, createdAt: string)

  /** `staged`: jobs whose hash is written and whose stream entry is not yet. `submitted`, `handed`
      and `handedTo` (the entries in the order they were delivered, and to whom), `started` and
      `cancelled` (the entries whose worker was cancelled in the task) record what happened; no
      step looks at them. */
  datatype World = World(
    store: Store, staged: set<Id>, names: seq<string>, workers: seq<Worker>,
    submitted: map<Id, Job>, handed: seq<nat>, handedTo: seq<string>, started: seq<nat>, cancelled: set<nat>)

  datatype Action =
    | Submit(id: Id, taskType: string, payload: string, stamp: string)
    | Publish(id: Id)
    | Lose(id: Id)                             // the producer dies, or XADD fails, after HSET
    | Foreign(taskType: string)
    | Read(w: nat)
    | Skip(w: nat)
    | Mark(w: nat, stamp: string)
    | Start(w: nat)
    | Record(w: nat, stamp: string)
    | Ack(w: nat)
    | Abort(w: nat)
    | Cancel(w: nat)                           // FastAPI: CancelledError in the task skips both handlers
    | Crash(w: nat)

  function Begin(names: seq<string>): World {
    World(EMPTY, {}, names, seq(|names|, _ => Idle), map[], [], [], [], {})
  }

  /** How many entries one XREADGROUP asks for. */
  function BatchSize(d: Dialect, s: Store): nat {
    var available := if s.delivered <= |s.stream| then |s.stream| - s.delivered else 0;
    if d.RecordFailures? && available > 1 then 1 else available
  }

  predicate InHand(x: World, w: nat) {
    && w < |x.workers| && w < |x.names| && x.workers[w].Busy?
    && x.workers[w].batch != [] && x.workers[w].batch[0] < |x.store.stream|
  }

  function EntryInHand(x: World, w: nat): nat
    requires InHand(x, w)
  {
    x.workers[w].batch[0]
  }

  function MessageInHand(x: World, w: nat): Message
    requires InHand(x, w)
  {
    x.store.stream[EntryInHand(x, w)]
  }

  predicate HasJob(x: World, w: nat) {
    InHand(x, w) && MessageInHand(x, w).job.Some?
  }

  predicate Legal(rules: Rules, x: World, a: Action) {
    match a
    case Submit(id, _, _, _) => id !in x.store.jobs && id !in x.submitted
    case Publish(id) => id in x.staged && id in x.submitted
    case Lose(id) => id in x.staged
    case Foreign(_) => true
    case Read(w) =>
      w < |x.workers| && w < |x.names| && x.workers[w].Idle? && BatchSize(rules.dialect, x.store) > 0
    case Skip(w) => InHand(x, w) && x.workers[w].stage.Fetched? && !HasJob(x, w)
    case Mark(w, _) => HasJob(x, w) && x.workers[w].stage.Fetched?
    case Start(w) => HasJob(x, w) && x.workers[w].stage.Marked?
    case Record(w, _) => HasJob(x, w) && x.workers[w].stage.Running? &&
      (rules.dialect.RecordFailures? ||
       rules.task(x.workers[w].stage.taskType, x.workers[w].stage.payload).Done?)
    case Ack(w) => HasJob(x, w) && x.workers[w].stage.Recorded?
    case Abort(w) => rules.dialect.AbortOnFailure? && w < |x.workers| && x.workers[w].Busy?
    case Cancel(w) => rules.dialect.RecordFailures? && HasJob(x, w) && x.workers[w].stage.Running?
    case Crash(w) => w < |x.workers|
  }

  function Next(batch: seq<nat>): Worker {
    if |batch| <= 1 then Idle else Busy(batch[1..], Fetched)
  }

  /** `job.get("payload", {}) if job else {}`. */
  function LoadPayload(jobs: map<Id, Hash>, id: Id): string {
    if id in jobs && Payload in jobs[id] then jobs[id][Payload] else "{}"
  }

  function Step(rules: Rules, x: World, a: Action): World
    requires Legal(rules, x, a)
  {
    match a
    case Submit(id, taskType, payload, stamp) =>
      x.(store := HSet(x.store, id, NewJob(rules.dialect, id, taskType, payload, stamp)),
         staged := x.staged + {id}, submitted := x.submitted[id := Job(taskType, payload, stamp)])
    case Publish(id) =>
      x.(store := XAdd(x.store, Message(Some(id), x.submitted[id].taskType)), staged := x.staged - {id})
    case Lose(id) => x.(staged := x.staged - {id})
    case Foreign(taskType) => x.(store := XAdd(x.store, Message(None, taskType)))
    case Read(w) =>
      var (store, batch) := XReadGroup(x.store, x.names[w], BatchSize(rules.dialect, x.store));
      x.(store := store, workers := x.workers[w := Busy(batch, Fetched)],
         handed := x.handed + batch, handedTo := x.handedTo + seq(|batch|, _ => x.names[w]))
    case Skip(w) =>
      x.(store := XAck(x.store, EntryInHand(x, w)), workers := x.workers[w := Next(x.workers[w].batch)])
    case Mark(w, stamp) =>
      x.(store := HSet(x.store, MessageInHand(x, w).job.value,
                       StatusFields(rules.dialect, "PROCESSING", x.names[w], "", stamp)),
         workers := x.workers[w := x.workers[w].(stage := Marked)])
    case Start(w) =>
      x.(workers := x.workers[w := x.workers[w].(stage :=
           Running(MessageInHand(x, w).taskType, LoadPayload(x.store.jobs, MessageInHand(x, w).job.value)))],
         started := x.started + [EntryInHand(x, w)])
    case Record(w, stamp) =>
      var t := rules.task(x.workers[w].stage.taskType, x.workers[w].stage.payload);
      x.(store := HSet(x.store, MessageInHand(x, w).job.value,
                       StatusFields(rules.dialect, OutcomeStatus(t), x.names[w], t.text, stamp)),
         workers := x.workers[w := x.workers[w].(stage := Recorded)])
    case Ack(w) =>
      x.(store := XAck(x.store, EntryInHand(x, w)), workers := x.workers[w := Next(x.workers[w].batch)])
    case Abort(w) => x.(workers := x.workers[w := Idle])
    case Cancel(w) =>
      x.(store := XAck(x.store, EntryInHand(x, w)), workers := x.workers[w := Dead],
         cancelled := x.cancelled + {EntryInHand(x, w)})
    case Crash(w) => x.(workers := x.workers[w := Dead])
  }

  /** The command an action writes with, if any. */
  function Issue(rules: Rules, x: World, a: Action): seq<Command>
    requires Legal(rules, x, a)
  {
    match a
    case Submit(id, taskType, payload, stamp) => [Hash(id, NewJob(rules.dialect, id, taskType, payload, stamp))]
    case Publish(id) => [Append(Message(Some(id), x.submitted[id].taskType))]
    case Foreign(taskType) => [Append(Message(None, taskType))]
    case Read(w) => [Fetch(x.names[w], BatchSize(rules.dialect, x.store))]
    case Mark(w, stamp) =>
      [Hash(MessageInHand(x, w).job.value, StatusFields(rules.dialect, "PROCESSING", x.names[w], "", stamp))]
    case Record(w, stamp) =>
      var t := rules.task(x.workers[w].stage.taskType, x.workers[w].stage.payload);
      [Hash(MessageInHand(x, w).job.value, StatusFields(rules.dialect, OutcomeStatus(t), x.names[w], t.text, stamp))]
    case Skip(w) => [Confirm(EntryInHand(x, w))]
    case Ack(w) => [Confirm(EntryInHand(x, w))]
    case Cancel(w) => [Confirm(EntryInHand(x, w))]
    case _ => []
  }

  /** Nothing changes what is in Redis but the commands. */
  lemma {:induction false} StepIsItsCommand(rules: Rules, x: World, a: Action)
    requires Legal(rules, x, a) && x.store.delivered <= |x.store.stream|
    ensures Step(rules, x, a).store == Play(x.store, Issue(rules, x, a))
    ensures |Issue(rules, x, a)| <= 1
  {
    var commands := Issue(rules, x, a);
    if commands != [] {
      assert commands[..|commands|-1] == [];
      assert Play(x.store, []) == x.store;
    }
  }

  /** `None` when some action was not possible where the run has it. */
  function Run(rules: Rules, x: World, actions: seq<Action>): Option<World> {
    if actions == [] then Some(x)
    else
      var before := Run(rules, x, actions[..|actions|-1]);
      if before.Some? && Legal(rules, before.value, actions[|actions|-1])
      then Some(Step(rules, before.value, actions[|actions|-1]))
      else None
  }

  lemma {:induction false} RunOneMore(rules: Rules, x: World, actions: seq<Action>, a: Action)
    ensures var before := Run(rules, x, actions);
      Run(rules, x, actions + [a]) ==
      if before.Some? && Legal(rules, before.value, a) then Some(Step(rules, before.value, a)) else None
  {
    assert (actions + [a])[..|actions|] == actions;
  }

  /** What a run writes with, one command after the other. */
  function Issued(rules: Rules, x: World, actions: seq<Action>): seq<Command> {
    if actions == [] then []
    else
      var before, a := Run(rules, x, actions[..|actions|-1]), actions[|actions|-1];
      Issued(rules, x, actions[..|actions|-1]) +
      if before.Some? && Legal(rules, before.value, a) then Issue(rules, before.value, a) else []
  }

  lemma {:induction false} Then(rules: Rules, x0: World, actions: seq<Action>, x: World, a: Action)
    returns (actions': seq<Action>, x': World)
    requires Run(rules, x0, actions) == Some(x) && Legal(rules, x, a)
    ensures actions' == actions + [a] && x' == Step(rules, x, a) && Run(rules, x0, actions') == Some(x')
  {
    actions', x' := actions + [a], Step(rules, x, a);
    RunOneMore(rules, x0, actions, a);
  }

  lemma {:induction false} RunThen(rules: Rules, x: World, first: seq<Action>, then': seq<Action>)
    requires Run(rules, x, first).Some?
    ensures Run(rules, x, first + then') == Run(rules, Run(rules, x, first).value, then')
  {
    if then' == [] {
      assert first + then' == first;
    } else {
      var before, last := then'[..|then'|-1], then'[|then'|-1];
      assert first + then' == (first + before) + [last];
      RunOneMore(rules, x, first + before, last);
      RunThen(rules, x, first, before);
    }
  }

  lemma {:induction false} IssuedOneMore(rules: Rules, x: World, actions: seq<Action>, a: Action)
    ensures var before := Run(rules, x, actions);
      Issued(rules, x, actions + [a]) == Issued(rules, x, actions) +
      if before.Some? && Legal(rules, before.value, a) then Issue(rules, before.value, a) else []
  {
    assert (actions + [a])[..|actions|] == actions;
  }

  lemma {:induction false} IssuedBoth(rules: Rules, x: World, y: World, first: seq<Action>, before: seq<Action>,
                                    last: Action, commands: seq<Command>)
    requires Run(rules, x, first + before) == Run(rules, y, before)
    requires Issued(rules, x, first + before) == commands + Issued(rules, y, before)
    ensures Issued(rules, x, (first + before) + [last]) == commands + Issued(rules, y, before + [last])
  {
    IssuedOneMore(rules, x, first + before, last);
    IssuedOneMore(rules, y, before, last);
  }

  lemma {:induction false} IssuedThen(rules: Rules, x: World, first: seq<Action>, y: World, then': seq<Action>)
    requires Run(rules, x, first) == Some(y)
    ensures Issued(rules, x, first + then') == Issued(rules, x, first) + Issued(rules, y, then')
  {
    if then' == [] {
      assert first + then' == first;
    } else {
      var before, last := then'[..|then'|-1], then'[|then'|-1];
      assert first + then' == (first + before) + [last] && then' == before + [last];
      RunThen(rules, x, first, before);
      IssuedThen(rules, x, first, y, before);
      IssuedBoth(rules, x, y, first, before, last, Issued(rules, x, first));
    }
  }
}
