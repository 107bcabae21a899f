/** What a worker's turn comes to when nobody interferes, as a function and in so many words. */
module QueueTurns {
  import opened Options
  import opened QueueModel
  import opened QueueRecords

  /** What a worker makes of one entry if nobody interferes, and whether it goes on to the next. */
  function ProcessEntry(rules: Rules, s: Store, worker: string, e: nat, mark: string, record: string): (Store, bool)
    requires e < |s.stream|
  {
    var m := s.stream[e];
    if m.job.None? then (XAck(s, e), true)
    else
      var marked := HSet(s, m.job.value, StatusFields(rules.dialect, "PROCESSING", worker, "", mark));
      var t := rules.task(m.taskType, LoadPayload(marked.jobs, m.job.value));
      if rules.dialect.AbortOnFailure? && t.Raised? then (marked, false)
      else
        var fields := StatusFields(rules.dialect, OutcomeStatus(t), worker, t.text, record);
        (XAck(HSet(marked, m.job.value, fields), e), true)
  }

  function ProcessBatch(rules: Rules, s: Store, worker: string, batch: seq<nat>, mark: string, record: string): Store
    decreases |batch|
  {
    if batch == [] || batch[0] >= |s.stream| then s
    else
      var (s', more) := ProcessEntry(rules, s, worker, batch[0], mark, record);
      if more then ProcessBatch(rules, s', worker, batch[1..], mark, record) else s'
  }

  /** The commands of a turn at one entry, in order: PROCESSING comes first, the acknowledgement last. */
  function EntryCommands(rules: Rules, s: Store, worker: string, e: nat, mark: string, record: string): seq<Command>
    requires e < |s.stream|
  {
    var m := s.stream[e];
    if m.job.None? then [Confirm(e)]
    else
      var marking := Hash(m.job.value, StatusFields(rules.dialect, "PROCESSING", worker, "", mark));
      var t := rules.task(m.taskType, LoadPayload(s.jobs, m.job.value));
      if rules.dialect.AbortOnFailure? && t.Raised? then [marking]
      else
        var status := if t.Done? then "COMPLETED" else "FAILED";
        [marking, Hash(m.job.value, StatusFields(rules.dialect, status, worker, t.text, record)), Confirm(e)]
  }

  function BatchCommands(rules: Rules, s: Store, worker: string, batch: seq<nat>, mark: string, record: string):
      seq<Command>
    decreases |batch|
  {
    if batch == [] || batch[0] >= |s.stream| then []
    else
      var (s', more) := ProcessEntry(rules, s, worker, batch[0], mark, record);
      EntryCommands(rules, s, worker, batch[0], mark, record) +
      if more then BatchCommands(rules, s', worker, batch[1..], mark, record) else []
  }

  /** What is left of a batch from its entry `k` on, after the commands `before`. */
  lemma {:induction false} BatchUnrolls(rules: Rules, s: Store, worker: string, batch: seq<nat>, k: nat,
                                      mark: string, record: string, before: seq<Command>)
    requires k < |batch| && batch[k] < |s.stream|
    ensures var (s', ok) := ProcessEntry(rules, s, worker, batch[k], mark, record);
      var commands := before + EntryCommands(rules, s, worker, batch[k], mark, record);
      && ProcessBatch(rules, s, worker, batch[k..], mark, record) ==
           (if ok then ProcessBatch(rules, s', worker, batch[k + 1..], mark, record) else s')
      && before + BatchCommands(rules, s, worker, batch[k..], mark, record) ==
           if ok then commands + BatchCommands(rules, s', worker, batch[k + 1..], mark, record) else commands
  {
    assert batch[k..][0] == batch[k] && batch[k..][1..] == batch[k + 1..];
  }

  /** The commands of a turn that is given `count` entries. */
  function TurnCommands(rules: Rules, s: Store, worker: string, count: nat, mark: string, record: string): seq<Command>
    requires s.delivered + count <= |s.stream|
  {
    var (s1, batch) := XReadGroup(s, worker, count);
    [Fetch(worker, count)] + BatchCommands(rules, s1, worker, batch, mark, record)
  }

  lemma {:induction false} TurnCommandsAre(rules: Rules, s: Store, s1: Store, worker: string, batch: seq<nat>,
                                         count: nat, mark: string, record: string, before: seq<Command>)
    requires s.delivered + count <= |s.stream| && (s1, batch) == XReadGroup(s, worker, count)
    ensures before + [Fetch(worker, count)] + BatchCommands(rules, s1, worker, batch, mark, record) ==
      before + TurnCommands(rules, s, worker, count, mark, record)
  {
  }

  // What a turn comes to

  /** Nothing keeps the worker of entry `e` from going on to the next one. */
  predicate Passes(rules: Rules, s: Store, e: nat)
    requires e < |s.stream|
  {
    var m := s.stream[e];
    m.job.Some? && rules.dialect.AbortOnFailure? ==> rules.task(m.taskType, LoadPayload(s.jobs, m.job.value)).Done?
  }

  /** From `s` to `s'` a worker has had its turn at entry `e`, and `ok` if nothing was thrown: a
      finished task ends as COMPLETED, a failed one as FAILED or, in Spring, as PROCESSING; the
      record has the result and the worker; no other record changes; and the entry is acknowledged
      unless something was thrown. */
  ghost predicate Turned(rules: Rules, s: Store, s': Store, worker: string, e: nat, ok: bool, stamp: string)
    requires e < |s.stream|
  {
    var m := s.stream[e];
    && s'.stream == s.stream
    && s'.acked == (if ok then s.acked + {e} else s.acked)
    && (e in s'.pending <==> !ok) && s'.pending - {e} == s.pending - {e}
    && match m.job
       case None => ok && s'.jobs == s.jobs
       case Some(id) =>
         var stored := id in s.jobs && Payload in s.jobs[id];
         var t := rules.task(m.taskType, if stored then s.jobs[id][Payload] else "{}");
         && ok == (rules.dialect.RecordFailures? || t.Done?)
         && id in s'.jobs && s'.jobs == s.jobs[id := s'.jobs[id]]
         && Reported(rules.dialect, s'.jobs[id], if ok then Some(t) else None, worker, stamp)
  }

  /** A record after a turn: with the result of the task, or without one if it has thrown. */
  ghost predicate Reported(d: Dialect, h: Hash, t: Option<TaskResult>, worker: string, stamp: string) {
    && Status in h
    && h[Status] == (match t
                     case None => "PROCESSING"
                     case Some(Done(_)) => "COMPLETED"
                     case Some(Raised(_)) => "FAILED")
    && (t.Some? && (t.value.text != "" || d.AbortOnFailure?) ==> Result in h && h[Result] == t.value.text)
    && (worker != "" ==> WorkerId in h && h[WorkerId] == worker)
    && (d.RecordFailures? ==> UpdatedAt in h && h[UpdatedAt] == stamp)
  }

  lemma {:induction false} StatusReported(d: Dialect, h: Hash, t: TaskResult, worker: string, stamp: string)
    ensures Reported(d, h + StatusFields(d, OutcomeStatus(t), worker, t.text, stamp), Some(t), worker, stamp)
  {
  }

  lemma {:induction false} MarkReported(h: Hash, worker: string, stamp: string, later: string)
    ensures var h' := h + StatusFields(AbortOnFailure, "PROCESSING", worker, "", stamp);
      Reported(AbortOnFailure, h', None, worker, later)
  {
  }

  lemma {:induction false} PayloadStays(s: Store, d: Dialect, id: Id, other: Id,
                                      status: string, worker: string, result: string, stamp: string)
    ensures LoadPayload(HSet(s, id, StatusFields(d, status, worker, result, stamp)).jobs, other) ==
      LoadPayload(s.jobs, other)
  {
  }

  /** Where a turn at a job's entry leaves the hashes: written once or, by `last`, twice. */
  lemma {:induction false} WrittenTwice(s: Store, id: Id, h: Hash, first: Hash, last: Hash)
    requires if id in s.jobs then h == s.jobs[id] else h == map[]
    ensures HSet(s, id, first).jobs == s.jobs[id := h + first]
    ensures HSet(HSet(s, id, first), id, last).jobs == s.jobs[id := h + first + last]
  {
    assert h == map[] ==> h + first == first;
  }

  lemma {:induction false} JobIsTurned(rules: Rules, s: Store, worker: string, e: nat, mark: string, record: string)
    requires e < |s.stream| && e in s.pending && s.stream[e].job.Some?
    ensures var (s', ok) := ProcessEntry(rules, s, worker, e, mark, record);
      Turned(rules, s, s', worker, e, ok, record) && ok == Passes(rules, s, e) && s'.delivered == s.delivered
  {
    var id := s.stream[e].job.value;
    var h: Hash := if id in s.jobs then s.jobs[id] else map[];
    var first := StatusFields(rules.dialect, "PROCESSING", worker, "", mark);
    PayloadStays(s, rules.dialect, id, id, "PROCESSING", worker, "", mark);
    var t := rules.task(s.stream[e].taskType, LoadPayload(s.jobs, id));
    var last := StatusFields(rules.dialect, OutcomeStatus(t), worker, t.text, record);
    WrittenTwice(s, id, h, first, last);
    if rules.dialect.AbortOnFailure? && t.Raised? {
      MarkReported(h, worker, mark, record);
    } else {
      StatusReported(rules.dialect, h + first, t, worker, record);
    }
  }

  lemma {:induction false} EntryIsTurned(rules: Rules, s: Store, worker: string, e: nat, mark: string, record: string)
    requires e < |s.stream| && e in s.pending
    ensures var (s', ok) := ProcessEntry(rules, s, worker, e, mark, record);
      Turned(rules, s, s', worker, e, ok, record) && ok == Passes(rules, s, e) && s'.delivered == s.delivered
  {
    if s.stream[e].job.Some? {
      JobIsTurned(rules, s, worker, e, mark, record);
    }
  }

  /** The other entries wait for what they waited for before. */
  lemma {:induction false} OthersWait(rules: Rules, s: Store, worker: string, e: nat, mark: string, record: string,
                                    i: nat)
    requires e < |s.stream| && i < |s.stream|
    ensures Passes(rules, ProcessEntry(rules, s, worker, e, mark, record).0, i) == Passes(rules, s, i)
  {
    if s.stream[e].job.Some? && s.stream[i].job.Some? {
      var id, other := s.stream[e].job.value, s.stream[i].job.value;
      var marked := HSet(s, id, StatusFields(rules.dialect, "PROCESSING", worker, "", mark));
      var t := rules.task(s.stream[e].taskType, LoadPayload(marked.jobs, id));
      PayloadStays(s, rules.dialect, id, other, "PROCESSING", worker, "", mark);
      PayloadStays(marked, rules.dialect, id, other, OutcomeStatus(t), worker, t.text, record);
    }
  }

  /** How many entries of a batch come before the first that throws. */
  function Lead(rules: Rules, s: Store, batch: seq<nat>): nat
    requires forall k | 0 <= k < |batch| :: batch[k] < |s.stream|
  {
    if batch == [] || !Passes(rules, s, batch[0]) then 0 else 1 + Lead(rules, s, batch[1..])
  }

  lemma {:induction false} LeadIs(rules: Rules, s: Store, batch: seq<nat>)
    requires forall k | 0 <= k < |batch| :: batch[k] < |s.stream|
    ensures Lead(rules, s, batch) <= |batch|
    ensures forall j | 0 <= j < Lead(rules, s, batch) :: Passes(rules, s, batch[j])
    ensures Lead(rules, s, batch) < |batch| ==> !Passes(rules, s, batch[Lead(rules, s, batch)])
  {
    if batch != [] && Passes(rules, s, batch[0]) {
      LeadIs(rules, s, batch[1..]);
      assert forall k | 1 <= k < |batch| :: batch[k] == batch[1..][k - 1];
    }
  }

  lemma {:induction false} LeadStays(rules: Rules, s: Store, s1: Store, batch: seq<nat>)
    requires forall k | 0 <= k < |batch| :: batch[k] < |s.stream| && batch[k] < |s1.stream|
    requires forall k | 0 <= k < |batch| :: Passes(rules, s1, batch[k]) == Passes(rules, s, batch[k])
    ensures Lead(rules, s1, batch) == Lead(rules, s, batch)
  {
    if batch != [] {
      LeadStays(rules, s, s1, batch[1..]);
    }
  }

  /** The first `n` entries of `batch` have joined the acknowledged ones, the others still wait. */
  ghost predicate AckedUpTo(s: Store, s': Store, batch: seq<nat>, n: nat) {
    && s'.stream == s.stream && s'.delivered == s.delivered
    && (forall k | 0 <= k < |batch| :: (batch[k] in s'.acked <==> k < n) && (batch[k] in s'.pending <==> k >= n))
    && (forall i | i !in batch :: (i in s'.acked <==> i in s.acked) && (i in s'.pending <==> i in s.pending))
  }

  ghost predicate Fresh(s: Store, batch: seq<nat>) {
    && (forall k | 0 <= k < |batch| :: batch[k] < |s.stream| && batch[k] in s.pending && batch[k] !in s.acked)
    && (forall j, k | 0 <= j < k < |batch| :: batch[j] != batch[k])
  }

  lemma {:induction false} OneAcked(s: Store, s1: Store, s': Store, batch: seq<nat>, n: nat)
    requires Fresh(s, batch) && batch != [] && s1.stream == s.stream && s1.delivered == s.delivered
    requires s1.acked == s.acked + {batch[0]} && batch[0] !in s1.pending
    requires s1.pending - {batch[0]} == s.pending - {batch[0]}
    requires AckedUpTo(s1, s', batch[1..], n)
    ensures AckedUpTo(s, s', batch, n + 1)
  {
    var e, rest := batch[0], batch[1..];
    assert batch == [e] + rest;
    assert forall k | 1 <= k < |batch| :: batch[k] == rest[k - 1];
    assert e !in rest;
    forall i | i !in batch ensures (i in s'.acked <==> i in s.acked) && (i in s'.pending <==> i in s.pending) {
      assert i !in rest && i != e;
      assert i in s1.pending <==> i in s1.pending - {e};
      assert i in s.pending <==> i in s.pending - {e};
    }
  }

  lemma {:induction false} RestIsFresh(s: Store, s1: Store, batch: seq<nat>)
    requires Fresh(s, batch) && batch != [] && s1.stream == s.stream
    requires s1.acked <= s.acked + {batch[0]} && s1.pending - {batch[0]} == s.pending - {batch[0]}
    ensures Fresh(s1, batch[1..])
  {
    var rest := batch[1..];
    forall k | 0 <= k < |rest| ensures rest[k] < |s1.stream| && rest[k] in s1.pending && rest[k] !in s1.acked {
      assert rest[k] == batch[k + 1] != batch[0];
      assert rest[k] in s.pending - {batch[0]};
    }
    assert forall j, k | 0 <= j < k < |rest| :: rest[j] == batch[j + 1] && rest[k] == batch[k + 1];
  }

  /** A batch is acknowledged up to the first entry that throws; from there on it stays pending. */
  lemma {:induction false} BatchAcks(rules: Rules, s: Store, worker: string, batch: seq<nat>,
                                   mark: string, record: string)
    requires Fresh(s, batch)
    ensures AckedUpTo(s, ProcessBatch(rules, s, worker, batch, mark, record), batch, Lead(rules, s, batch))
    decreases |batch|
  {
    if batch != [] {
      var (s1, more) := ProcessEntry(rules, s, worker, batch[0], mark, record);
      EntryIsTurned(rules, s, worker, batch[0], mark, record);
      if more {
        RestIsFresh(s, s1, batch);
        forall k | 0 <= k < |batch| - 1 ensures Passes(rules, s1, batch[1..][k]) == Passes(rules, s, batch[1..][k]) {
          OthersWait(rules, s, worker, batch[0], mark, record, batch[k + 1]);
        }
        LeadStays(rules, s, s1, batch[1..]);
        BatchAcks(rules, s1, worker, batch[1..], mark, record);
        OneAcked(s, s1, ProcessBatch(rules, s, worker, batch, mark, record), batch, Lead(rules, s1, batch[1..]));
      } else {
        StoppedAtOnce(s, s1, batch);
      }
    }
  }

  lemma {:induction false} StoppedAtOnce(s: Store, s': Store, batch: seq<nat>)
    requires Fresh(s, batch) && batch != [] && s'.stream == s.stream && s'.delivered == s.delivered
    requires s'.acked == s.acked && batch[0] in s'.pending
    requires s'.pending - {batch[0]} == s.pending - {batch[0]}
    ensures AckedUpTo(s, s', batch, 0)
  {
    forall i | i != batch[0] ensures i in s'.pending <==> i in s.pending {
      assert i in s'.pending <==> i in s'.pending - {batch[0]};
      assert i in s.pending <==> i in s.pending - {batch[0]};
    }
  }

  ghost predicate Completed(s: Store, id: Id) {
    id in s.jobs && Status in s.jobs[id] && s.jobs[id][Status] == "COMPLETED"
  }

  lemma {:induction false} EntryCompletes(rules: Rules, s: Store, worker: string, e: nat, mark: string, record: string)
    requires e < |s.stream| && e in s.pending && rules.dialect.AbortOnFailure? && Passes(rules, s, e)
    ensures var s' := ProcessEntry(rules, s, worker, e, mark, record).0;
      && (forall id | Completed(s, id) :: Completed(s', id))
      && (s.stream[e].job.Some? ==> Completed(s', s.stream[e].job.value))
  {
    EntryIsTurned(rules, s, worker, e, mark, record);
  }

  /** If no task of a Spring batch throws, all its jobs end as COMPLETED. */
  lemma {:induction false} BatchCompletes(rules: Rules, s: Store, worker: string, batch: seq<nat>,
                                        mark: string, record: string)
    requires Fresh(s, batch) && rules.dialect.AbortOnFailure?
    requires forall k | 0 <= k < |batch| :: Passes(rules, s, batch[k])
    ensures var s' := ProcessBatch(rules, s, worker, batch, mark, record);
      && (forall id | Completed(s, id) :: Completed(s', id))
      && (forall k | 0 <= k < |batch| && s.stream[batch[k]].job.Some? :: Completed(s', s.stream[batch[k]].job.value))
    decreases |batch|
  {
    if batch != [] {
      var s1 := ProcessEntry(rules, s, worker, batch[0], mark, record).0;
      EntryIsTurned(rules, s, worker, batch[0], mark, record);
      EntryCompletes(rules, s, worker, batch[0], mark, record);
      RestIsFresh(s, s1, batch);
      forall k | 0 <= k < |batch| - 1 ensures Passes(rules, s1, batch[1..][k]) {
        OthersWait(rules, s, worker, batch[0], mark, record, batch[k + 1]);
      }
      BatchCompletes(rules, s1, worker, batch[1..], mark, record);
      assert forall k | 1 <= k < |batch| :: batch[k] == batch[1..][k - 1];
    }
  }

  /** Redis has given out nothing that is not in the stream, and taken back nothing it has not given. */
  ghost predicate Sound(s: Store) {
    && s.delivered <= |s.stream|
    && (forall i | i in s.pending :: i < s.delivered) && (forall i | i in s.acked :: i < s.delivered)
  }

  lemma {:induction false} ReadIsFresh(s: Store, worker: string, count: nat)
    requires Sound(s) && s.delivered + count <= |s.stream|
    ensures var (s1, batch) := XReadGroup(s, worker, count);
      && Fresh(s1, batch) && s1.delivered == s.delivered + count
      && s1.jobs == s.jobs && s1.stream == s.stream && s1.acked == s.acked
      && forall i | i !in batch :: i in s1.pending <==> i in s.pending
  {
    PendingAfterRead(s, worker, count);
  }

  lemma {:induction false} BatchOfOne(rules: Rules, s: Store, worker: string, e: nat, mark: string, record: string)
    requires e < |s.stream|
    ensures ProcessBatch(rules, s, worker, [e], mark, record) ==
      ProcessEntry(rules, s, worker, e, mark, record).0
  {
    var s' := ProcessEntry(rules, s, worker, e, mark, record).0;
    assert [e][1..] == [];
    assert ProcessBatch(rules, s', worker, [], mark, record) == s';
  }

  /** The delivery of the entry makes no difference to what a turn comes to. */
  lemma {:induction false} TurnedFromBefore(rules: Rules, s: Store, s1: Store, s': Store, worker: string, e: nat,
                                          stamp: string)
    requires e < |s.stream| && s1.stream == s.stream && s1.jobs == s.jobs && s1.acked == s.acked
    requires s1.pending - {e} == s.pending - {e} && Turned(rules, s1, s', worker, e, true, stamp)
    ensures Turned(rules, s, s', worker, e, true, stamp)
  {
  }

  lemma {:induction false} TurnedIsSound(rules: Rules, s: Store, s': Store, worker: string, stamp: string)
    requires Sound(s) && s.delivered < |s.stream| && s'.delivered == s.delivered + 1
    requires Turned(rules, s, s', worker, s.delivered, true, stamp)
    ensures Sound(s')
  {
    forall i | i in s'.pending ensures i < s'.delivered {
      assert i in s'.pending - {s.delivered};
    }
  }

  lemma {:induction false} OneIsRead(s: Store, worker: string)
    requires Sound(s) && s.delivered < |s.stream|
    ensures var (s1, batch) := XReadGroup(s, worker, 1);
      && batch == [s.delivered] && s1 == s.(delivered := s.delivered + 1, pending := s1.pending)
      && s.delivered in s1.pending && s1.pending - {s.delivered} == s.pending - {s.delivered}
  {
    ReadIsFresh(s, worker, 1);
    assert XReadGroup(s, worker, 1).1[0] == s.delivered;
  }

  lemma {:induction false} OneEntryTurn(rules: Rules, s: Store, s1: Store, worker: string, mark: string, record: string)
    requires rules.dialect.RecordFailures? && Sound(s) && s.delivered < |s.stream|
    requires s1 == s.(delivered := s.delivered + 1, pending := s1.pending)
    requires s.delivered in s1.pending && s1.pending - {s.delivered} == s.pending - {s.delivered}
    ensures var s' := ProcessBatch(rules, s1, worker, [s.delivered], mark, record);
      s'.delivered == s.delivered + 1 && Sound(s') && Turned(rules, s, s', worker, s.delivered, true, record)
  {
    var s' := ProcessEntry(rules, s1, worker, s.delivered, mark, record).0;
    BatchOfOne(rules, s1, worker, s.delivered, mark, record);
    EntryIsTurned(rules, s1, worker, s.delivered, mark, record);
    TurnedFromBefore(rules, s, s1, s', worker, s.delivered, record);
    TurnedIsSound(rules, s, s', worker, record);
  }

  /** A turn of a FastAPI or NestJS worker takes one entry, and that is all it does. */
  ghost predicate JobTurned(rules: Rules, s: Store, s': Store, worker: string, mark: string, record: string)
    requires s.delivered < |s.stream|
  {
    var (s1, batch) := XReadGroup(s, worker, 1);
    && s' == ProcessBatch(rules, s1, worker, batch, mark, record)
    && s'.delivered == s.delivered + 1 && Sound(s') && Turned(rules, s, s', worker, s.delivered, true, record)
  }

  lemma {:induction false} OneJobTurn(rules: Rules, s: Store, s1: Store, worker: string, batch: seq<nat>,
                                     mark: string, record: string)
    requires rules.dialect.RecordFailures? && Sound(s) && s.delivered < |s.stream|
    requires (s1, batch) == XReadGroup(s, worker, 1)
    ensures JobTurned(rules, s, ProcessBatch(rules, s1, worker, batch, mark, record), worker, mark, record)
  {
    OneIsRead(s, worker);
    OneEntryTurn(rules, s, s1, worker, mark, record);
  }

  /** `batch` is everything in the stream that `s` has not given out. */
  ghost predicate WholeTail(s: Store, s1: Store, batch: seq<nat>) {
    && Sound(s) && Fresh(s1, batch) && s1.stream == s.stream && s1.jobs == s.jobs && s1.acked == s.acked
    && s1.delivered == |s.stream| && |batch| == |s.stream| - s.delivered
    && (forall k | 0 <= k < |batch| :: batch[k] == s.delivered + k)
    && forall i | i !in batch :: i in s1.pending <==> i in s.pending
  }

  lemma {:induction false} TailIsWorked(rules: Rules, s: Store, s1: Store, worker: string, batch: seq<nat>,
                                       mark: string, record: string)
    requires WholeTail(s, s1, batch)
    ensures var s' := ProcessBatch(rules, s1, worker, batch, mark, record);
      && AckedUpTo(s1, s', batch, Lead(rules, s1, batch))
      && s'.delivered == |s.stream| && s'.stream == s.stream && Sound(s')
  {
    BatchAcks(rules, s1, worker, batch, mark, record);
    var s' := ProcessBatch(rules, s1, worker, batch, mark, record);
    forall i | i in s'.pending || i in s'.acked ensures i < |s.stream| {
      if i in batch {
        var k :| 0 <= k < |batch| && batch[k] == i;
      }
    }
  }

  lemma {:induction false} TailCompletes(rules: Rules, s: Store, s1: Store, worker: string, batch: seq<nat>,
                                        mark: string, record: string)
    requires WholeTail(s, s1, batch) && rules.dialect.AbortOnFailure?
    requires forall i | s.delivered <= i < |s.stream| :: Passes(rules, s, i)
    ensures var s' := ProcessBatch(rules, s1, worker, batch, mark, record);
      forall i | s.delivered <= i < |s.stream| ::
        i in s'.acked && (s.stream[i].job.Some? ==> Completed(s', s.stream[i].job.value))
  {
    forall k | 0 <= k < |batch| ensures Passes(rules, s1, batch[k]) {
      assert Passes(rules, s, batch[k]);
    }
    LeadIs(rules, s1, batch);
    BatchAcks(rules, s1, worker, batch, mark, record);
    BatchCompletes(rules, s1, worker, batch, mark, record);
    var s' := ProcessBatch(rules, s1, worker, batch, mark, record);
    forall i | s.delivered <= i < |s.stream|
      ensures i in s'.acked && (s.stream[i].job.Some? ==> Completed(s', s.stream[i].job.value))
    {
      assert batch[i - s.delivered] == i;
    }
  }

  ghost predicate AllPass(rules: Rules, s: Store) {
    forall i | s.delivered <= i < |s.stream| :: Passes(rules, s, i)
  }

  /** Every entry from `from` on is acknowledged, and its job COMPLETED. */
  ghost predicate AllDone(s: Store, from: nat) {
    forall i | from <= i < |s.stream| ::
      i in s.acked && (s.stream[i].job.Some? ==> Completed(s, s.stream[i].job.value))
  }

  /** From `s` to `s'` everything in the stream was given out and, if no task threw, worked off. */
  ghost predicate Swept(rules: Rules, s: Store, s': Store) {
    && s'.delivered == |s.stream| && s'.stream == s.stream && Sound(s')
    && (AllPass(rules, s) ==> AllDone(s', s.delivered))
  }

  lemma {:induction false} TailIsRead(s: Store, worker: string)
    requires Sound(s)
    ensures var (s1, batch) := XReadGroup(s, worker, |s.stream| - s.delivered); WholeTail(s, s1, batch)
  {
    ReadIsFresh(s, worker, |s.stream| - s.delivered);
  }

  lemma {:induction false} TailTurn(rules: Rules, s: Store, s1: Store, worker: string, batch: seq<nat>,
                                   mark: string, record: string)
    requires rules.dialect.AbortOnFailure? && WholeTail(s, s1, batch)
    ensures var s' := ProcessBatch(rules, s1, worker, batch, mark, record);
      AckedUpTo(s1, s', batch, Lead(rules, s1, batch)) && Swept(rules, s, s')
  {
    TailIsWorked(rules, s, s1, worker, batch, mark, record);
    if AllPass(rules, s) {
      TailCompletes(rules, s, s1, worker, batch, mark, record);
    }
  }

  /** A turn of the Spring worker takes every entry there is; those before the first that throws are
      acknowledged, and if none throws all their jobs are COMPLETED. */
  ghost predicate StreamTurned(rules: Rules, s: Store, s': Store, worker: string)
    requires s.delivered <= |s.stream|
  {
    var (s1, batch) := XReadGroup(s, worker, |s.stream| - s.delivered);
    && s' == ProcessBatch(rules, s1, worker, batch, "", "")
    && (forall k | 0 <= k < |batch| :: batch[k] < |s1.stream|)
    && AckedUpTo(s1, s', batch, Lead(rules, s1, batch)) && Swept(rules, s, s')
  }

  lemma {:induction false} StreamTurn(rules: Rules, s: Store, s1: Store, worker: string, batch: seq<nat>)
    requires rules.dialect.AbortOnFailure? && Sound(s)
    requires (s1, batch) == XReadGroup(s, worker, |s.stream| - s.delivered)
    ensures forall k | 0 <= k < |batch| :: batch[k] < |s1.stream|
    ensures var s' := ProcessBatch(rules, s1, worker, batch, "", "");
      StreamTurned(rules, s, s', worker) && Sound(s') && s'.delivered == |s'.stream|
  {
    TailIsRead(s, worker);
    TailTurn(rules, s, s1, worker, batch, "", "");
  }

  /** What one uninterrupted turn does to the job of an entry: its record names the outcome, the
      result and the worker, its submitted part and all other records stay, and the entry is
      acknowledged; except that a Spring task that throws leaves PROCESSING and a pending entry. */
  lemma {:induction false} TurnOutcome(rules: Rules, s: Store, worker: string, e: nat, job: Job,
                                     mark: string, record: string)
    requires e < |s.stream| && s.stream[e].job.Some? && s.stream[e].taskType == job.taskType
    requires e in s.pending && worker != ""
    requires var id := s.stream[e].job.value;
      id in s.jobs && Intact(rules.dialect, id, job, s.jobs[id]) && Says(s.jobs[id], "PENDING", "")
    ensures var id := s.stream[e].job.value;
      var (s', more) := ProcessEntry(rules, s, worker, e, mark, record);
      var t := rules.task(job.taskType, job.payload);
      && more == (rules.dialect.RecordFailures? || t.Done?)
      && id in s'.jobs && s'.jobs == s.jobs[id := s'.jobs[id]]
      && Intact(rules.dialect, id, job, s'.jobs[id]) && s'.jobs[id][WorkerId] == worker
      && (if more then Says(s'.jobs[id], if t.Done? then "COMPLETED" else "FAILED", t.text)
          else Says(s'.jobs[id], "PROCESSING", ""))
      && (e in s'.acked <==> more || e in s.acked) && (e in s'.pending <==> !more)
  {
    var id := s.stream[e].job.value;
    var t := rules.task(job.taskType, job.payload);
    var h := s.jobs[id];
    UpdateKeeps(rules.dialect, id, job, h, "PROCESSING", worker, "", mark);
    var h' := h + StatusFields(rules.dialect, "PROCESSING", worker, "", mark);
    UpdateKeeps(rules.dialect, id, job, h', OutcomeStatus(t), worker, t.text, record);
  }
}
