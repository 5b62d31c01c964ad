/** The context calls that read, compute and write back rows and streams, statement by statement, each running
    undisturbed. What happens when other tasks' store calls come in between is the subject of `Execution`. */
module Context {
  import opened Types
  import opened Sequences
  import opened Listing
  import opened StoreSpec
  import opened RowChanges
  import opened MemoryStore
  import opened Serialization
  import E = Execution
  import Safety = ExecutionSafety
  import D = Deduplication
  import S = Streams
  import R = Replay

  const MAX_I64 := 0x7FFF_FFFF_FFFF_FFFF

  datatype Queue = Queue(name: string, maxTasksPerIteration: nat)

  // ----- what an execution leaves behind -----

  /** The execution may run the workflow: it can claim the row, or it resumes its own claim. */
  predicate MayRun(row: WorkflowStatus, executor: string, resume: bool) {
    if row.executorId.None? then Claimable(row) else !row.status.IsTerminal() && resume && row.executorId == Some(executor)
  }

  function Taken(row: WorkflowStatus, executor: string, execution: string, now: Time): WorkflowStatus {
    if row.executorId.None? then ClaimedRow(row, executor, execution, now) else row
  }

  /** How the run of the body ends up in the row; an output that cannot be encoded is an error of the call. */
  function OutcomeOf(codec: Codec, latest: WorkflowStatus, result: Result<Value>): Result<E.Outcome> {
    if result.Err? then Ok(E.Failed(R.ErrorText(result.error)))
    else
      var e := EncodeValue(codec, result.value, latest.serialization == PORTABLE_JSON);
      if e.Err? then Err(e.error) else Ok(E.Completed(ToStoredValue(e.value), e.value.serialization))
  }

  /** A call of `execute_workflow`: `body` is the registered function, if the name resolves; `execution` is the
      execution id drawn; then the clock readings at the claim, at the start and at the end. */
  datatype Call = Call(id: string, executor: string, resume: bool, execution: string, body: Option<Value -> Result<Value>>,
                       claimedAt: Time, startedAt: Time, finishedAt: Time)

  /** The undisturbed call turns `rows` into `rows'`, answers `r`, and enters the body or not. */
  predicate Executes(codec: Codec, c: Call, rows: Rows, rows': Rows, r: Result<()>, entered: bool) {
    if c.id !in rows then r == Err(NonExistentWorkflow(c.id)) && !entered && rows' == rows
    else if !MayRun(rows[c.id], c.executor, c.resume) then r == Ok(()) && !entered && rows' == rows
    else
      var taken := Taken(rows[c.id], c.executor, c.execution, c.claimedAt);
      if c.body.None? then r == Err(NonExistentWorkflow(taken.name)) && !entered && rows' == rows[c.id := taken]
      else
        var started := E.PendingCopy(taken, c.startedAt);
        var input := DecodeStoredValue(codec, taken.input, taken.serialization);
        if input.Err? then r == Err(input.error) && !entered && rows' == rows[c.id := started]
        else
          var outcome := OutcomeOf(codec, started, c.body.value(input.value));
          && entered
          && if outcome.Err? then r == Err(outcome.error) && rows' == rows[c.id := started]
             else r == Ok(()) && rows' == rows[c.id := E.FinishedCopy(started, outcome.value, c.finishedAt)]
  }

  /** An executor takes the row up: nobody has it, or it is the unfinished workflow that the executor resumes. */
  predicate TakesUp(row: WorkflowStatus, executor: string, resume: bool) {
    || (row.executorId.None? && (row.status == Pending || row.status == Enqueued))
    || (row.executorId == Some(executor) && resume && (row.status == Pending || row.status == Enqueued || row.status == Delayed))
  }

  /** The row stores `v` as its input. */
  ghost predicate Carries(codec: Codec, row: WorkflowStatus, v: Value) {
    exists portable ::
      && EncodeValue(codec, v, portable).Ok?
      && row.input == ToStoredValue(EncodeValue(codec, v, portable).value)
      && row.serialization == EncodeValue(codec, v, portable).value.serialization
  }

  /** The row `w` became `w'` by running the body on `v`: its result reads back as the body's, an error leaves its
      text, and a value that cannot be written leaves a started row. */
  ghost predicate RunsOn(codec: Codec, c: Call, v: Value, w: WorkflowStatus, w': WorkflowStatus, r: Result<()>)
    requires c.body.Some?
  {
    match c.body.value(v)
    case Ok(value) =>
      var e := EncodeValue(codec, value, w.serialization == PORTABLE_JSON);
      if e.Err? then r == Err(e.error) && IsStarted(w, w', c.executor, c.execution, c.startedAt)
      else
        && r == Ok(()) && IsEnded(w, w', c.executor, c.execution, c.startedAt, c.finishedAt)
        && w'.status == Success && w'.error == None && Stores(codec, value, w.serialization == PORTABLE_JSON, w'.output, w'.serialization)
    case Err(error) =>
      && r == Ok(()) && IsEnded(w, w', c.executor, c.execution, c.startedAt, c.finishedAt)
      && w'.status == Error && Tells(w'.error, error) && w'.output == w.output && w'.serialization == w.serialization
  }

  /** What a call must do to a row that it takes up. */
  ghost predicate HandlesRow(codec: Codec, c: Call, w: WorkflowStatus, w': WorkflowStatus, r: Result<()>, entered: bool) {
    if c.body.None? then
      && r == Err(NonExistentWorkflow(w.name)) && !entered
      && if w.executorId.None? then IsClaimed(w, w', c.executor, c.execution, c.claimedAt) else w' == w
    else
      && (!entered ==> r.Err? && IsStarted(w, w', c.executor, c.execution, c.startedAt))
      && forall v :: Carries(codec, w, v) || DecodeStoredValue(codec, w.input, w.serialization) == Ok(v) ==>
           entered && RunsOn(codec, c, v, w, w', r)
  }

  /** The call changes nothing but its own row, and that only if it takes it up. */
  ghost predicate Handles(codec: Codec, c: Call, rows: Rows, rows': Rows, r: Result<()>, entered: bool) {
    && OthersStay(rows, rows', c.id)
    && (c.id !in rows ==> c.id !in rows' && r == Err(NonExistentWorkflow(c.id)) && !entered)
    && (c.id in rows ==>
          && c.id in rows'
          && if TakesUp(rows[c.id], c.executor, c.resume) then HandlesRow(codec, c, rows[c.id], rows'[c.id], r, entered)
             else rows'[c.id] == rows[c.id] && r == Ok(()) && !entered)
  }

  lemma CarriedInputDecodes(codec: Codec, row: WorkflowStatus, v: Value)
    requires CodecLaws(codec) && Carries(codec, row, v)
    ensures DecodeStoredValue(codec, row.input, row.serialization) == Ok(v)
  {
    var portable :| EncodeValue(codec, v, portable).Ok?
      && row.input == ToStoredValue(EncodeValue(codec, v, portable).value)
      && row.serialization == EncodeValue(codec, v, portable).value.serialization;
    StoredRoundTrip(codec, v, portable);
  }

  lemma StartsTheRow(c: Call, w: WorkflowStatus)
    requires TakesUp(w, c.executor, c.resume)
    ensures IsStarted(w, E.PendingCopy(Taken(w, c.executor, c.execution, c.claimedAt), c.startedAt), c.executor, c.execution, c.startedAt)
  {
  }

  /** The result of the body, as the started row records it. */
  lemma EndsTheRow(codec: Codec, c: Call, w: WorkflowStatus, started: WorkflowStatus, result: Result<Value>)
    requires CodecLaws(codec) && IsStarted(w, started, c.executor, c.execution, c.startedAt)
    ensures var outcome := OutcomeOf(codec, started, result);
            && (outcome.Err? <==> result.Ok? && EncodeValue(codec, result.value, w.serialization == PORTABLE_JSON).Err?)
            && (outcome.Err? ==> outcome.error == EncodeValue(codec, result.value, w.serialization == PORTABLE_JSON).error)
            && (outcome.Ok? ==>
                  var w' := E.FinishedCopy(started, outcome.value, c.finishedAt);
                  && IsEnded(w, w', c.executor, c.execution, c.startedAt, c.finishedAt)
                  && (result.Ok? ==>
                        w'.status == Success && w'.error == None && Stores(codec, result.value, w.serialization == PORTABLE_JSON, w'.output, w'.serialization))
                  && (result.Err? ==> w'.status == Error && Tells(w'.error, result.error) && w'.output == w.output && w'.serialization == w.serialization))
  {
    if result.Ok? && EncodeValue(codec, result.value, w.serialization == PORTABLE_JSON).Ok? {
      StoredRoundTrip(codec, result.value, w.serialization == PORTABLE_JSON);
    }
  }

  /** The execution of a row that carries `v` enters the body with `v` and records what the body gives. */
  lemma ExecutionRunsOnItsInput(codec: Codec, c: Call, rows: Rows, rows': Rows, r: Result<()>, entered: bool, v: Value)
    requires CodecLaws(codec) && Executes(codec, c, rows, rows', r, entered)
    requires c.id in rows && TakesUp(rows[c.id], c.executor, c.resume) && c.body.Some?
    requires Carries(codec, rows[c.id], v) || DecodeStoredValue(codec, rows[c.id].input, rows[c.id].serialization) == Ok(v)
    ensures c.id in rows' && entered && RunsOn(codec, c, v, rows[c.id], rows'[c.id], r)
  {
    if Carries(codec, rows[c.id], v) {
      CarriedInputDecodes(codec, rows[c.id], v);
    }
    StartsTheRow(c, rows[c.id]);
    var started := E.PendingCopy(Taken(rows[c.id], c.executor, c.execution, c.claimedAt), c.startedAt);
    EndsTheRow(codec, c, rows[c.id], started, c.body.value(v));
  }

  lemma ExecutionHandlesItsRow(codec: Codec, c: Call, rows: Rows, rows': Rows, r: Result<()>, entered: bool)
    requires CodecLaws(codec) && Executes(codec, c, rows, rows', r, entered)
    ensures Handles(codec, c, rows, rows', r, entered)
  {
    if c.id in rows && TakesUp(rows[c.id], c.executor, c.resume) && c.body.Some? {
      forall v | Carries(codec, rows[c.id], v) || DecodeStoredValue(codec, rows[c.id].input, rows[c.id].serialization) == Ok(v)
        ensures entered && RunsOn(codec, c, v, rows[c.id], rows'[c.id], r)
      {
        ExecutionRunsOnItsInput(codec, c, rows, rows', r, entered, v);
      }
    }
  }

  function IdSetOf(rows: seq<WorkflowStatus>): set<string> {
    set w | w in rows :: w.id
  }

  /** The tasks of a recovery pass that finds the rows in the given order. */
  function Plan(rows: Rows, order: seq<string>, executor: string, executorIds: seq<string>): seq<E.Task>
    requires forall id :: id in order ==> id in rows
  {
    E.RecoveryTasks(ListRows(RowsInOrder(rows, order), E.RecoveryOptions()), executor, executorIds)
  }

  lemma PlanIsComplete(rows: Rows, order: seq<string>, executor: string, executorIds: seq<string>)
    requires Enumerates(order, rows) && forall id :: id in rows ==> rows[id].id == id
    ensures Safety.StartsTheUnfinished(rows, Plan(rows, order, executor, executorIds), executor, executorIds)
  {
    ListedRows(rows, order, E.RecoveryOptions());
    Safety.PlanStartsTheUnfinished(rows, ListRows(RowsInOrder(rows, order), E.RecoveryOptions()), executor, executorIds);
  }

  /** The due rows among `ids` are promoted, all other rows are as before. */
  ghost predicate PromotedAmong(rows: Rows, rows': Rows, ids: set<string>, now: Time) {
    && rows'.Keys == rows.Keys
    && forall id :: id in rows ==> rows'[id] == if id in ids && E.Due(rows[id], now) then E.PromotedCopy(rows[id], now) else rows[id]
  }

  /** Exactly the rows whose delay is over are promoted. */
  ghost predicate PromotesTheDue(rows: Rows, rows': Rows, now: Time) {
    && rows'.Keys == rows.Keys
    && forall id :: id in rows ==> if DelayIsOver(rows[id], now) then IsPromoted(rows[id], rows'[id], now) else rows'[id] == rows[id]
  }

  lemma DelayedShown(rows: Rows, shown: seq<WorkflowStatus>, o: ListWorkflowsOptions, listed: seq<WorkflowStatus>)
    requires o == ListWorkflowsOptions(status := [Delayed], loadInput := true)
    requires forall id :: id in rows ==> rows[id].id == id
    requires forall r: WorkflowStatus :: r in shown <==> r.id in rows && rows[r.id] == r && WorkflowMatches(r, o)
    requires DistinctIds(shown)
    requires |listed| == |shown| && forall i :: 0 <= i < |listed| ==> listed[i] == LoadOptions(shown[i], o)
    ensures forall i :: 0 <= i < |listed| ==>
              listed[i].id in rows && listed[i].status == Delayed && listed[i] == rows[listed[i].id].(output := None, error := None)
    ensures forall i, j :: 0 <= i < j < |listed| ==> listed[i].id != listed[j].id
    ensures forall id :: id in rows && rows[id].status == Delayed ==> exists i :: 0 <= i < |listed| && listed[i].id == id
  {
    assert forall i :: 0 <= i < |shown| ==> shown[i] in shown;
    forall id | id in rows && rows[id].status == Delayed
      ensures exists i :: 0 <= i < |listed| && listed[i].id == id
    {
      assert rows[id] in shown;
      var i :| 0 <= i < |shown| && shown[i] == rows[id];
      assert listed[i].id == id;
    }
  }

  lemma IdSetOfOneMore(rows: seq<WorkflowStatus>, i: nat)
    requires i < |rows|
    ensures IdSetOf(rows[..i + 1]) == IdSetOf(rows[..i]) + {rows[i].id}
  {
    assert rows[..i + 1] == rows[..i] + [rows[i]];
  }

  lemma PromotedOneMore(rows: Rows, rows': Rows, listed: seq<WorkflowStatus>, i: nat, now: Time)
    requires i < |listed| && PromotedAmong(rows, rows', IdSetOf(listed[..i]), now)
    requires forall a, b :: 0 <= a < b < |listed| ==> listed[a].id != listed[b].id
    requires listed[i].id in rows && rows[listed[i].id].status == Delayed
    requires listed[i] == rows[listed[i].id].(output := None, error := None)
    ensures var w := listed[i];
            PromotedAmong(rows,
                          if w.delayUntil.Some? && w.delayUntil.value <= now then rows'[w.id := w.(status := Enqueued, updatedAt := now)] else rows',
                          IdSetOf(listed[..i]) + {w.id}, now)
  {
    assert E.Due(rows[listed[i].id], now) <==> listed[i].delayUntil.Some? && listed[i].delayUntil.value <= now;
  }

  predicate ListensTo(listened: set<string>, queue: Queue) {
    listened == {} || queue.name in listened
  }

  /** The row waits on the queue to be spawned. */
  predicate Waits(row: WorkflowStatus, queue: Queue) {
    row.status == Enqueued && row.queueName == Some(queue.name)
  }

  /** Of a queue that is listened to, as many waiting rows as it may, oldest first; of any other none. */
  ghost predicate DispatchedFrom(rows: Rows, queue: Queue, listened: set<string>, spawned: seq<string>) {
    if ListensTo(listened, queue) then AreTheOldest(rows, queue.name, queue.maxTasksPerIteration, spawned) else spawned == []
  }

  /** A due workflow of a queue that is listened to does not wait for the next pass, unless the queue's limit is
      used up by workflows that are no younger. */
  lemma DueIsSpawned(rows: Rows, rows': Rows, now: Time, queue: Queue, listened: set<string>, spawned: seq<string>, id: string)
    requires PromotesTheDue(rows, rows', now) && DispatchedFrom(rows', queue, listened, spawned)
    requires id in rows && DelayIsOver(rows[id], now) && rows[id].queueName == Some(queue.name) && ListensTo(listened, queue)
    ensures id in spawned || LeftBehind(rows', queue.maxTasksPerIteration, spawned, id)
  {
    assert Waits(rows'[id], queue) && Dispatchable(rows'[id], queue.name);
  }

  /** A cancel rewrites an unfinished row and no other. */
  predicate CancelsRow(w: WorkflowStatus, w': WorkflowStatus, now: Time) {
    if w.status == Pending || w.status == Enqueued || w.status == Delayed then IsCancelled(w, w', now) else w' == w
  }

  /** The stream has one entry more: open, in its place, with the value; no other stream changed. */
  ghost predicate AppendsEntry(streams: S.StreamMap, streams': S.StreamMap, u: S.Setup, value: Value, now: Time) {
    var before, after := StreamOf(streams, u.workflow, u.key), StreamOf(streams', u.workflow, u.key);
    && (forall k :: k != (u.workflow, u.key) ==> (k in streams' <==> k in streams) && (k in streams ==> streams'[k] == streams[k]))
    && |after| == |before| + 1 && after[..|before|] == before
    && var entry := after[|before|];
       && entry.workflowId == u.workflow && entry.key == u.key && entry.offset == |before| && !entry.closed && entry.createdAt == now
       && (CodecLaws(u.codec) ==> Stores(u.codec, value, u.portable, entry.value, entry.serialization))
  }

  lemma NewEntryAppends(streams: S.StreamMap, u: S.Setup, value: Value, now: Time)
    requires EncodeValue(u.codec, value, u.portable).Ok?
    ensures var entry := S.NewEntry(u, |StreamOf(streams, u.workflow, u.key)|, EncodeValue(u.codec, value, u.portable).value, now);
            AppendsEntry(streams, StoreSpec.WriteStream(streams, entry), u, value, now)
  {
    if CodecLaws(u.codec) {
      StoredRoundTrip(u.codec, value, u.portable);
    }
  }

  class DbosContext {
    const store: MemoryStore
    const executorId: string
    const codec: Codec

    constructor (store: MemoryStore, executorId: string, codec: Codec)
      ensures this.store == store && this.executorId == executorId && this.codec == codec
    {
      this.store, this.executorId, this.codec := store, executorId, codec;
    }

    method ExecuteWorkflow(id: string, resume: bool, execution: string, body: Option<Value -> Result<Value>>,
                           claimedAt: Time, startedAt: Time, finishedAt: Time)
      returns (r: Result<()>, entered: bool)
      requires store.Valid()
      requires id in store.workflows ==> store.workflows[id].executionId != Some(execution)
      modifies store
      ensures store.Valid()
      ensures store.Contents() == old(store.Contents()).(workflows := store.workflows)
      ensures Executes(codec, Call(id, executorId, resume, execution, body, claimedAt, startedAt, finishedAt),
                       old(store.workflows), store.workflows, r, entered)
      ensures CodecLaws(codec) ==>
                Handles(codec, Call(id, executorId, resume, execution, body, claimedAt, startedAt, finishedAt),
                        old(store.workflows), store.workflows, r, entered)
    {
      entered := false;
      var acquired := AcquireWorkflow(id, resume, execution, claimedAt);
      if acquired.Err? {
        r := Err(acquired.error);
      } else if acquired.value.None? {
        r := Ok(());
      } else {
        r, entered := RunWorkflow(acquired.value.value, body, startedAt, finishedAt);
      }
      ghost var call := Call(id, executorId, resume, execution, body, claimedAt, startedAt, finishedAt);
      assert Executes(codec, call, old(store.workflows), store.workflows, r, entered);
      if CodecLaws(codec) {
        ExecutionHandlesItsRow(codec, call, old(store.workflows), store.workflows, r, entered);
      }
    }

    /** Runs an acquired workflow: start, body, finish. */
    method RunWorkflow(acquired: WorkflowStatus, body: Option<Value -> Result<Value>>, startedAt: Time, finishedAt: Time)
      returns (r: Result<()>, entered: bool)
      requires store.Valid()
      modifies store
      ensures store.Valid()
      ensures store.Contents() == old(store.Contents()).(workflows := store.workflows)
      ensures var started := E.PendingCopy(acquired, startedAt);
              var input := DecodeStoredValue(codec, acquired.input, acquired.serialization);
              && (entered <==> body.Some? && input.Ok?)
              && (body.None? ==> r == Err(NonExistentWorkflow(acquired.name)) && store.workflows == old(store.workflows))
              && (body.Some? && input.Err? ==> r == Err(input.error) && store.workflows == old(store.workflows)[acquired.id := started])
              && (entered ==>
                    var outcome := OutcomeOf(codec, started, body.value(input.value));
                    && (outcome.Err? ==> r == Err(outcome.error) && store.workflows == old(store.workflows)[acquired.id := started])
                    && (outcome.Ok? ==>
                          && r == Ok(())
                          && store.workflows == old(store.workflows)[acquired.id := started][acquired.id := E.FinishedCopy(started, outcome.value, finishedAt)]))
    {
      if body.None? {
        return Err(NonExistentWorkflow(acquired.name)), false;
      }
      var workflow := StartWorkflow(acquired, startedAt);
      var input := DecodeStoredValue(codec, workflow.input, workflow.serialization);
      if input.Err? {
        return Err(input.error), false;
      }
      entered := true;
      r := FinishWorkflow(acquired.id, body.value(input.value), finishedAt);
    }

    /** The row as this execution owns it, or nothing when the workflow is not for it to run. */
    method AcquireWorkflow(id: string, resume: bool, execution: string, now: Time) returns (r: Result<Option<WorkflowStatus>>)
      requires store.Valid()
      requires id in store.workflows ==> store.workflows[id].executionId != Some(execution)
      modifies store
      ensures store.Valid()
      ensures store.Contents() == old(store.Contents()).(workflows := store.workflows)
      ensures id !in old(store.workflows) ==> r == Err(NonExistentWorkflow(id)) && store.workflows == old(store.workflows)
      ensures id in old(store.workflows) && !MayRun(old(store.workflows)[id], executorId, resume) ==> r == Ok(None) && store.workflows == old(store.workflows)
      ensures id in old(store.workflows) && MayRun(old(store.workflows)[id], executorId, resume) ==>
                var taken := Taken(old(store.workflows)[id], executorId, execution, now);
                r == Ok(Some(taken)) && taken.id == id && store.workflows == old(store.workflows)[id := taken]
    {
      var found := store.GetWorkflow(id);
      if found.None? {
        return Err(NonExistentWorkflow(id));
      }
      var workflow := found.value;
      if workflow.status.IsTerminal() {
        return Ok(None);
      }
      if workflow.executorId.None? {
        var claimed := store.ClaimWorkflowExecution(id, executorId, execution, now);
        if !claimed {
          return Ok(None);
        }
        found := store.GetWorkflow(id);
        workflow := found.value;
      } else if !resume || workflow.executorId != Some(executorId) {
        return Ok(None);
      }
      return Ok(Some(workflow));
    }

    method StartWorkflow(acquired: WorkflowStatus, now: Time) returns (workflow: WorkflowStatus)
      requires store.Valid()
      modifies store
      ensures store.Valid()
      ensures workflow == E.PendingCopy(acquired, now)
      ensures store.Contents() == old(store.Contents()).(workflows := old(store.workflows)[acquired.id := workflow])
    {
      workflow := acquired.(status := Pending);
      if workflow.startedAt.None? {
        workflow := workflow.(startedAt := Some(now));
      }
      if workflow.attempts < E.MAX_U32 {
        workflow := workflow.(attempts := workflow.attempts + 1);
      }
      workflow := workflow.(updatedAt := now);
      store.SaveWorkflow(workflow);
    }

    /** Rereads the row, unless it was cancelled meanwhile, and records how the body ended. */
    method FinishWorkflow(id: string, result: Result<Value>, now: Time) returns (r: Result<()>)
      requires store.Valid()
      modifies store
      ensures store.Valid()
      ensures store.Contents() == old(store.Contents()).(workflows := store.workflows)
      ensures id !in old(store.workflows) ==> r == Err(NonExistentWorkflow(id)) && store.workflows == old(store.workflows)
      ensures id in old(store.workflows) ==>
                var latest := old(store.workflows)[id];
                var outcome := OutcomeOf(codec, latest, result);
                && (latest.status == Cancelled ==> r == Ok(()) && store.workflows == old(store.workflows))
                && (latest.status != Cancelled && outcome.Err? ==> r == Err(outcome.error) && store.workflows == old(store.workflows))
                && (latest.status != Cancelled && outcome.Ok? ==>
                      r == Ok(()) && store.workflows == old(store.workflows)[id := E.FinishedCopy(latest, outcome.value, now)])
    {
      var found := store.GetWorkflow(id);
      if found.None? {
        return Err(NonExistentWorkflow(id));
      }
      var latest := found.value;
      if latest.status == Cancelled {
        return Ok(());
      }
      latest := latest.(updatedAt := now);
      latest := latest.(completedAt := Some(now));
      match result
      case Ok(value) =>
        var encoded := EncodeValue(codec, value, latest.serialization == PORTABLE_JSON);
        if encoded.Err? {
          return Err(encoded.error);
        }
        latest := latest.(status := Success);
        latest := latest.(serialization := encoded.value.serialization);
        latest := latest.(output := ToStoredValue(encoded.value));
        latest := latest.(error := None);
        store.SaveWorkflow(latest);
        return Ok(());
      case Err(error) =>
        latest := latest.(status := Error);
        latest := latest.(error := Some(R.ErrorText(error)));
        store.SaveWorkflow(latest);
        return Ok(());
    }

    method CancelWorkflow(id: string, now: Time) returns (r: Result<()>)
      requires store.Valid()
      modifies store
      ensures store.Valid()
      ensures r == if id in old(store.workflows) then Ok(()) else Err(NonExistentWorkflow(id))
      ensures store.Contents() == old(store.Contents()).(workflows := D.Apply(old(store.workflows), D.Cancel(id, now)))
      ensures OthersStay(old(store.workflows), store.workflows, id)
      ensures id in old(store.workflows) ==> id in store.workflows && CancelsRow(old(store.workflows)[id], store.workflows[id], now)
    {
      var found := store.GetWorkflow(id);
      if found.None? {
        return Err(NonExistentWorkflow(id));
      }
      var workflow := found.value;
      if !workflow.status.IsTerminal() {
        workflow := workflow.(status := Cancelled);
        workflow := workflow.(completedAt := Some(now));
        workflow := workflow.(updatedAt := now);
        store.SaveWorkflow(workflow);
      }
      return Ok(());
    }

    /** The tasks that recovery spawns: one for each unfinished workflow that is unclaimed or claimed by a listed
        executor, the same that the protocol's recovery step adds. */
    method RecoverPendingWorkflows(executorIds: seq<string>) returns (tasks: seq<E.Task>)
      requires store.Valid()
      ensures Safety.StartsTheUnfinished(store.workflows, tasks, executorId, executorIds)
      ensures exists order :: Enumerates(order, store.workflows) && tasks == Plan(store.workflows, order, executorId, executorIds)
    {
      var listed := store.ListWorkflows(E.RecoveryOptions());
      ghost var order :| ListingInOrder(store.workflows, order, E.RecoveryOptions(), listed);
      tasks := PlanRecovery(listed, executorIds, ListRows(RowsInOrder(store.workflows, order), E.RecoveryOptions()));
      PlanIsComplete(store.workflows, order, executorId, executorIds);
    }

    method PlanRecovery(listed: seq<WorkflowStatus>, executorIds: seq<string>, ghost shown: seq<WorkflowStatus>) returns (tasks: seq<E.Task>)
      requires |listed| == |shown|
      requires forall i :: 0 <= i < |listed| ==> listed[i] == LoadOptions(shown[i], E.RecoveryOptions())
      ensures tasks == E.RecoveryTasks(shown, executorId, executorIds)
    {
      tasks := [];
      for i := 0 to |listed|
        invariant E.RecoveryTasks(shown, executorId, executorIds) == tasks + E.RecoveryTasks(shown[i..], executorId, executorIds)
      {
        var w := listed[i];
        assert shown[i..][0] == shown[i] && shown[i..][1..] == shown[i + 1..];
        if w.status == Pending && w.executorId.None? {
          tasks := tasks + [E.Task(w.id, executorId, false, E.Start)];
        } else if w.executorId.Some? && w.executorId.value in executorIds {
          tasks := tasks + [E.Task(w.id, executorId, true, E.Start)];
        }
      }
      assert shown[|listed|..] == [];
    }

    /** The supervisor moves the delayed workflows that are due to their queues: exactly those, all of them. */
    method PromoteDelayed(now: Time)
      requires store.Valid()
      modifies store
      ensures store.Valid()
      ensures store.Contents() == old(store.Contents()).(workflows := store.workflows)
      ensures PromotesTheDue(old(store.workflows), store.workflows, now)
      ensures PromotedAmong(old(store.workflows), store.workflows, old(store.workflows).Keys, now)
    {
      var listed := ListDelayed();
      ghost var rows := store.workflows;
      for i := 0 to |listed|
        invariant store.Valid()
        invariant store.Contents() == old(store.Contents()).(workflows := store.workflows)
        invariant PromotedAmong(rows, store.workflows, IdSetOf(listed[..i]), now)
      {
        IdSetOfOneMore(listed, i);
        PromotedOneMore(rows, store.workflows, listed, i, now);
        if listed[i].delayUntil.Some? && listed[i].delayUntil.value <= now {
          Promote(listed[i], now);
        }
      }
      assert listed[..|listed|] == listed;
    }

    method Promote(delayed: WorkflowStatus, now: Time)
      requires store.Valid()
      modifies store
      ensures store.Valid()
      ensures store.Contents() == old(store.Contents()).(workflows :=
                old(store.workflows)[delayed.id := delayed.(status := Enqueued, updatedAt := now)])
    {
      var w := delayed.(status := Enqueued);
      w := w.(updatedAt := now);
      store.SaveWorkflow(w);
    }

    /** The delayed rows without output and error, once each. */
    method ListDelayed() returns (listed: seq<WorkflowStatus>)
      requires store.Valid()
      ensures forall i :: 0 <= i < |listed| ==>
                var w := listed[i];
                w.id in store.workflows && w.status == Delayed && w == store.workflows[w.id].(output := None, error := None)
      ensures forall i, j :: 0 <= i < j < |listed| ==> listed[i].id != listed[j].id
      ensures forall id :: id in store.workflows && store.workflows[id].status == Delayed ==> exists i :: 0 <= i < |listed| && listed[i].id == id
    {
      var o := ListWorkflowsOptions(status := [Delayed], loadInput := true);
      listed := store.ListWorkflows(o);
      ghost var order :| ListingInOrder(store.workflows, order, o, listed);
      ListedRows(store.workflows, order, o);
      DelayedShown(store.workflows, ListRows(RowsInOrder(store.workflows, order), o), o, listed);
    }

    /** The workflows of one queue that a supervisor pass spawns. */
    method DispatchQueue(queue: Queue) returns (spawned: seq<string>)
      requires store.Valid()
      ensures AreTheOldest(store.workflows, queue.name, queue.maxTasksPerIteration, spawned)
    {
      var o := DispatchOptions(queue.name, queue.maxTasksPerIteration);
      var listed := store.ListWorkflows(o);
      ghost var order :| ListingInOrder(store.workflows, order, o, listed);
      spawned := SpawnEach(listed);
      DispatchedAreTheOldest(store.workflows, order, queue.name, queue.maxTasksPerIteration);
      assert spawned == StoreSpec.IdsOf(ListRows(RowsInOrder(store.workflows, order), o));
    }

    method SpawnEach(listed: seq<WorkflowStatus>) returns (spawned: seq<string>)
      ensures |spawned| == |listed| && forall j :: 0 <= j < |listed| ==> spawned[j] == listed[j].id
    {
      spawned := [];
      for i := 0 to |listed|
        invariant |spawned| == i
        invariant forall j :: 0 <= j < i ==> spawned[j] == listed[j].id
      {
        spawned := spawned + [listed[i].id];
      }
    }

    /** One pass of the queue supervisor: the due workflows move to their queues, then every queue that is listened
        to, or every queue if none is named, has its oldest enqueued workflows spawned, the ones just moved among them. */
    method TransitionAndRunQueuedWorkflows(queues: seq<Queue>, listened: set<string>, now: Time) returns (spawned: seq<seq<string>>)
      requires store.Valid()
      modifies store
      ensures store.Valid()
      ensures store.Contents() == old(store.Contents()).(workflows := store.workflows)
      ensures PromotesTheDue(old(store.workflows), store.workflows, now)
      ensures |spawned| == |queues|
      ensures forall q :: 0 <= q < |queues| ==> DispatchedFrom(store.workflows, queues[q], listened, spawned[q])
    {
      PromoteDelayed(now);
      spawned := DispatchQueues(queues, listened);
    }

    method DispatchQueues(queues: seq<Queue>, listened: set<string>) returns (spawned: seq<seq<string>>)
      requires store.Valid()
      ensures |spawned| == |queues|
      ensures forall q :: 0 <= q < |queues| ==> DispatchedFrom(store.workflows, queues[q], listened, spawned[q])
    {
      spawned := [];
      for q := 0 to |queues|
        invariant |spawned| == q
        invariant forall p :: 0 <= p < q ==> DispatchedFrom(store.workflows, queues[p], listened, spawned[p])
      {
        if listened != {} && queues[q].name !in listened {
          spawned := spawned + [[]];
        } else {
          var ids := DispatchQueue(queues[q]);
          spawned := spawned + [ids];
        }
      }
    }

    method WriteStream(u: S.Setup, value: Value, now: Time) returns (r: Result<()>)
      requires store.Valid()
      modifies store
      ensures store.Valid()
      ensures var offset := |StreamOf(old(store.streams), u.workflow, u.key)|;
              var e := EncodeValue(u.codec, value, u.portable);
              && (offset > MAX_I64 ==> r == Err(InvalidArgument) && store.Contents() == old(store.Contents()))
              && (offset <= MAX_I64 && e.Err? ==> r == Err(e.error) && store.Contents() == old(store.Contents()))
              && (offset <= MAX_I64 && e.Ok? ==>
                    && r == Ok(())
                    && store.Contents() == old(store.Contents()).(streams := store.streams)
                    && AppendsEntry(old(store.streams), store.streams, u, value, now)
                    && store.streams == StoreSpec.WriteStream(old(store.streams), S.NewEntry(u, offset, e.value, now)))
    {
      var existing := store.ReadStream(u.workflow, u.key);
      if |existing| > MAX_I64 {
        return Err(InvalidArgument);
      }
      var encoded := EncodeValue(u.codec, value, u.portable);
      if encoded.Err? {
        return Err(encoded.error);
      }
      NewEntryAppends(store.streams, u, value, now);
      store.WriteStream(StreamEntry(u.workflow, u.key, |existing|, ToStoredValue(encoded.value), encoded.value.serialization, false, now));
      return Ok(());
    }

    method ReadStreamWithOptions(workflow: string, key: string, fromOffset: int) returns (r: Result<(seq<Value>, bool)>)
      requires store.Valid()
      ensures var entries := StreamOf(store.streams, workflow, key);
              var values := S.ReadValues(codec, entries, fromOffset);
              r == if fromOffset < 0 then Err(InvalidArgument)
                   else if values.Err? then Err(values.error)
                   else Ok((values.value, S.IsClosed(entries)))
    {
      if fromOffset < 0 {
        return Err(InvalidArgument);
      }
      var entries := store.ReadStream(workflow, key);
      var closed := false;
      for i := 0 to |entries|
        invariant closed == S.IsClosed(entries[..i])
      {
        closed := closed || entries[i].closed;
      }
      assert entries[..|entries|] == entries;
      var values := DecodeEntries(entries, fromOffset);
      r := if values.Err? then Err(values.error) else Ok((values.value, closed));
    }

    method DecodeEntries(entries: seq<StreamEntry>, fromOffset: int) returns (r: Result<seq<Value>>)
      ensures r == S.ReadValues(codec, entries, fromOffset)
    {
      var values: seq<Value> := [];
      assert entries[0..] == entries;
      ghost var all := S.ReadValues(codec, entries, fromOffset);
      assert all.Ok? ==> [] + all.value == all.value;
      for i := 0 to |entries|
        invariant var rest := S.ReadValues(codec, entries[i..], fromOffset);
                  S.ReadValues(codec, entries, fromOffset) == if rest.Err? then rest else Ok(values + rest.value)
      {
        var entry := entries[i];
        assert entries[i..][0] == entry && entries[i..][1..] == entries[i + 1..];
        if entry.offset >= fromOffset && !entry.closed {
          var value := DecodeStoredValue(codec, entry.value, entry.serialization);
          if value.Err? {
            return Err(value.error);
          }
          ghost var rest := S.ReadValues(codec, entries[i + 1..], fromOffset);
          assert rest.Ok? ==> values + ([value.value] + rest.value) == values + [value.value] + rest.value;
          values := values + [value.value];
        }
      }
      assert values + [] == values;
      return Ok(values);
    }
  }
}
