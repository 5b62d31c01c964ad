/** Scheduled workflows: enqueueing one occurrence, backfilling an interval, and the reconciler's pass over all
    active schedules. */
module Schedules {
  import opened Types
  import opened Sequences
  import opened StoreSpec
  import opened MemoryStore
  import opened Serialization
  import opened Cron

  datatype Schedule = Schedule(
    name: string,
    workflowName: string,
    spec: string,
    active: bool,
    context: Option<Value>,
    lastFiredAt: Option<Time>,
    queueName: Option<string>)

  /** The libraries and settings behind scheduling: cron parser, time formats, value encoding. */
  datatype Env = Env(
    parse: string -> Option<Cron>,
    format: Time -> string,
    timeValue: Time -> Value,
    codec: Codec,
    applicationVersion: string)

  ghost predicate LawfulEnv(env: Env) {
    && (forall spec :: env.parse(spec).Some? ==> Lawful(env.parse(spec).value))
    && (forall t, u :: env.format(t) == env.format(u) ==> t == u)
  }

  const INTERNAL_QUEUE := "_dbos_internal_queue"
  const ONE_SECOND := 1000

  // ----- one scheduled workflow -----

  function ScheduledId(env: Env, s: Schedule, at: Time): string {
    "sched-" + s.name + "-" + env.format(at)
  }

  function ScheduledInput(env: Env, s: Schedule, at: Time): Result<EncodedValue> {
    var context := if s.context.Some? then s.context.value else Null;
    EncodeValue(env.codec, Object([("scheduled_time", env.timeValue(at)), ("context", context)]), false)
  }

  function ScheduledRow(env: Env, s: Schedule, at: Time, input: EncodedValue, now: Time): WorkflowStatus {
    NewWorkflow(ScheduledId(env, s, at), s.workflowName, env.applicationVersion, input.serialization, now)
      .(input := ToStoredValue(input),
        queueName := if s.queueName.Some? then s.queueName else Some(INTERNAL_QUEUE),
        status := Enqueued)
  }

  /** The queue of a schedule's workflows: its own, or the internal one. */
  predicate IsQueueOf(s: Schedule, queue: string) {
    if s.queueName.Some? then queue == s.queueName.value else queue == "_dbos_internal_queue"
  }

  /** A fresh workflow of the schedule for one instant: enqueued on the schedule's queue, owned by nobody, holding no
      deduplication slot, with the instant and the schedule's context as its input. */
  ghost predicate IsScheduledFor(env: Env, s: Schedule, at: Time, now: Time, row: WorkflowStatus) {
    && row.id == "sched-" + s.name + "-" + env.format(at) && row.name == s.workflowName && row.status == Enqueued
    && row.queueName.Some? && IsQueueOf(s, row.queueName.value)
    && row.executorId == None && row.executionId == None && row.deduplicationId == None
    && row.attempts == 0 && row.startedAt == None && row.completedAt == None && row.delayUntil == None
    && row.output == None && row.error == None && row.authenticatedUser == None
    && row.parentWorkflowId == None && row.forkedFrom == None && !row.wasForkedFrom
    && row.applicationVersion == env.applicationVersion && row.createdAt == now && row.updatedAt == now
    && (CodecLaws(env.codec) ==>
          DecodeStoredValue(env.codec, row.input, row.serialization)
          == Ok(Object([("scheduled_time", env.timeValue(at)), ("context", if s.context.Some? then s.context.value else Null)])))
  }

  lemma ScheduledRowIsOne(env: Env, s: Schedule, at: Time, now: Time)
    requires ScheduledInput(env, s, at).Ok?
    ensures IsScheduledFor(env, s, at, now, ScheduledRow(env, s, at, ScheduledInput(env, s, at).value, now))
  {
    if CodecLaws(env.codec) {
      var context := if s.context.Some? then s.context.value else Null;
      StoredRoundTrip(env.codec, Object([("scheduled_time", env.timeValue(at)), ("context", context)]), false);
    }
  }

  function EnqueueScheduled(env: Env, rows: Rows, s: Schedule, at: Time, now: Time): (Rows, Result<string>) {
    var input := ScheduledInput(env, s, at);
    if input.Err? then (rows, Err(input.error))
    else
      var (rows', r) := InsertWorkflow(rows, ScheduledRow(env, s, at, input.value, now), true);
      (rows', if r.Ok? then Ok(ScheduledId(env, s, at)) else Err(r.error))
  }

  method EnqueueScheduledWorkflow(env: Env, store: MemoryStore, s: Schedule, at: Time, now: Time) returns (r: Result<string>)
    requires store.Valid()
    modifies store
    ensures store.Valid()
    ensures (store.workflows, r) == EnqueueScheduled(env, old(store.workflows), s, at, now)
    ensures store.Contents() == old(store.Contents()).(workflows := store.workflows)
  {
    var input := ScheduledInput(env, s, at);
    if input.Err? {
      return Err(input.error);
    }
    var inserted := store.InsertWorkflowWithResult(ScheduledRow(env, s, at, input.value, now));
    r := if inserted.Ok? then Ok(ScheduledId(env, s, at)) else Err(inserted.error);
  }

  // ----- backfill -----

  /** Enqueues one workflow per instant until the first failure; `clock` tells when each one is enqueued. */
  function EnqueueAll(env: Env, rows: Rows, s: Schedule, times: seq<Time>, clock: Time -> Time): (Rows, Result<seq<string>>)
    decreases |times|
  {
    if times == [] then (rows, Ok([]))
    else
      var (rows1, first) := EnqueueScheduled(env, rows, s, times[0], clock(times[0]));
      if first.Err? then (rows1, Err(first.error))
      else
        var (rows2, rest) := EnqueueAll(env, rows1, s, times[1..], clock);
        (rows2, if rest.Ok? then Ok([first.value] + rest.value) else rest)
  }

  lemma {:induction false} EnqueueAllConcat(env: Env, rows: Rows, s: Schedule, a: seq<Time>, b: seq<Time>, clock: Time -> Time)
    ensures var (rows1, first) := EnqueueAll(env, rows, s, a, clock);
            EnqueueAll(env, rows, s, a + b, clock) ==
            if first.Err? then (rows1, first)
            else
              var (rows2, rest) := EnqueueAll(env, rows1, s, b, clock);
              (rows2, if rest.Ok? then Ok(first.value + rest.value) else rest)
    decreases |a|
  {
    if a == [] {
      assert a + b == b;
      var rest := EnqueueAll(env, rows, s, b, clock).1;
      assert rest.Ok? ==> [] + rest.value == rest.value;
    } else {
      var (rows1, first) := EnqueueScheduled(env, rows, s, a[0], clock(a[0]));
      assert (a + b)[1..] == a[1..] + b;
      EnqueueAllConcat(env, rows1, s, a[1..], b, clock);
      if first.Ok? {
        var (rows2, rest) := EnqueueAll(env, rows1, s, a[1..], clock);
        var last := EnqueueAll(env, rows2, s, b, clock).1;
        assert rest.Ok? && last.Ok? ==> [first.value] + (rest.value + last.value) == [first.value] + rest.value + last.value;
      }
    }
  }

  /** After `done`, the next instant either joins the list or ends it. */
  lemma EnqueueAllStep(env: Env, rows0: Rows, s: Schedule, done: seq<Time>, t: Time, rest: seq<Time>, clock: Time -> Time, rows: Rows, ids: seq<string>)
    requires EnqueueAll(env, rows0, s, done, clock) == (rows, Ok(ids))
    ensures var (rows1, r) := EnqueueScheduled(env, rows, s, t, clock(t));
            && (r.Ok? ==> EnqueueAll(env, rows0, s, done + [t], clock) == (rows1, Ok(ids + [r.value])))
            && (r.Err? ==> EnqueueAll(env, rows0, s, done + [t] + rest, clock) == (rows1, Err(r.error)))
  {
    EnqueueAllConcat(env, rows0, s, done, [t], clock);
    EnqueueOne(env, rows, s, t, clock);
    EnqueueAllConcat(env, rows0, s, done + [t], rest, clock);
  }

  method BackfillSchedule(env: Env, schedules: map<string, Schedule>, store: MemoryStore, name: string, start: Time, end: Time, clock: Time -> Time)
    returns (r: Result<seq<string>>)
    requires LawfulEnv(env) && store.Valid()
    modifies store
    ensures store.Valid()
    ensures var known := name in schedules && env.parse(schedules[name].spec).Some?;
            && (!known ==> r == Err(InvalidArgument) && store.Contents() == old(store.Contents()))
            && (known ==>
                  var times := Occurrences(env.parse(schedules[name].spec).value, start, end);
                  && (store.workflows, r) == EnqueueAll(env, old(store.workflows), schedules[name], times, clock)
                  && store.Contents() == old(store.Contents()).(workflows := store.workflows)
                  && Backfills(env, old(store.workflows), store.workflows, schedules[name], env.parse(schedules[name].spec).value, start, end, clock, r.Ok?))
  {
    if name !in schedules {
      return Err(InvalidArgument);
    }
    var s := schedules[name];
    var parsed := env.parse(s.spec);
    if parsed.None? {
      return Err(InvalidArgument);
    }
    BackfillAddsOccurrences(env, store.workflows, s, parsed.value, start, end, clock);
    r := EnqueueOccurrences(env, store, s, parsed.value, start, end, clock);
  }

  method EnqueueOccurrences(env: Env, store: MemoryStore, s: Schedule, cron: Cron, start: Time, end: Time, clock: Time -> Time)
    returns (r: Result<seq<string>>)
    requires Lawful(cron) && store.Valid()
    modifies store
    ensures store.Valid()
    ensures (store.workflows, r) == EnqueueAll(env, old(store.workflows), s, Occurrences(cron, start, end), clock)
    ensures store.Contents() == old(store.Contents()).(workflows := store.workflows)
  {
    var ids: seq<string> := [];
    var at := start;
    var next := cron(at);
    ghost var done: seq<Time> := [];
    while next.Some? && next.value <= end
      invariant store.Valid()
      invariant next == cron(at)
      invariant Occurrences(cron, start, end) == done + Occurrences(cron, at, end)
      invariant EnqueueAll(env, old(store.workflows), s, done, clock) == (store.workflows, Ok(ids))
      invariant store.Contents() == old(store.Contents()).(workflows := store.workflows)
      decreases end - at
    {
      ghost var rest := Occurrences(cron, next.value, end);
      assert Occurrences(cron, at, end) == [next.value] + rest;
      assert done + ([next.value] + rest) == done + [next.value] + rest;
      EnqueueAllStep(env, old(store.workflows), s, done, next.value, rest, clock, store.workflows, ids);
      var enqueued := EnqueueScheduledWorkflow(env, store, s, next.value, clock(next.value));
      if enqueued.Err? {
        return Err(enqueued.error);
      }
      ids := ids + [enqueued.value];
      done := done + [next.value];
      at := next.value;
      next := cron(at);
    }
    assert done + [] == done;
    return Ok(ids);
  }

  lemma EnqueueOne(env: Env, rows: Rows, s: Schedule, at: Time, clock: Time -> Time)
    ensures var (rows1, r) := EnqueueScheduled(env, rows, s, at, clock(at));
            EnqueueAll(env, rows, s, [at], clock) == (rows1, if r.Ok? then Ok([r.value]) else Err(r.error))
  {
    var r := EnqueueScheduled(env, rows, s, at, clock(at)).1;
    assert [at][1..] == [];
    assert r.Ok? ==> [r.value] + [] == [r.value];
  }

  /** The workflow of the occurrence can be enqueued: it is new, or it is there with the same name and input. */
  predicate Acceptable(env: Env, rows: Rows, s: Schedule, at: Time) {
    var id := ScheduledId(env, s, at);
    var input := ScheduledInput(env, s, at);
    && input.Ok?
    && (id in rows ==> rows[id].name == s.workflowName && rows[id].input == ToStoredValue(input.value))
  }

  ghost function IdsOf(env: Env, s: Schedule, times: seq<Time>): set<string> {
    set at | at in times :: ScheduledId(env, s, at)
  }

  lemma OneIdPerOccurrence(env: Env, s: Schedule, t: Time, u: Time)
    requires LawfulEnv(env) && ScheduledId(env, s, t) == ScheduledId(env, s, u)
    ensures t == u
  {
    var prefix := "sched-" + s.name + "-";
    assert ScheduledId(env, s, t)[|prefix|..] == env.format(t);
    assert ScheduledId(env, s, u)[|prefix|..] == env.format(u);
  }

  /** The rows after enqueueing: one per instant, none of the earlier rows touched. */
  ghost predicate EnqueuedOnce(env: Env, rows: Rows, rows': Rows, s: Schedule, times: seq<Time>, clock: Time -> Time) {
    && rows'.Keys == rows.Keys + IdsOf(env, s, times)
    && (forall id :: id in rows ==> rows'[id] == rows[id])
    && (forall at :: at in times && ScheduledId(env, s, at) !in rows && ScheduledInput(env, s, at).Ok? ==>
          rows'[ScheduledId(env, s, at)] == ScheduledRow(env, s, at, ScheduledInput(env, s, at).value, clock(at)))
  }

  lemma EnqueueScheduledIsExact(env: Env, rows: Rows, s: Schedule, at: Time, now: Time)
    ensures var (rows', r) := EnqueueScheduled(env, rows, s, at, now);
            && (r.Ok? <==> Acceptable(env, rows, s, at))
            && (r.Ok? ==> r.value == ScheduledId(env, s, at) && r.value in rows')
            && rows' == (if r.Ok? && r.value !in rows then rows[r.value := ScheduledRow(env, s, at, ScheduledInput(env, s, at).value, now)] else rows)
  {
    var input := ScheduledInput(env, s, at);
    if input.Ok? {
      assert !SlotTaken(rows, ScheduledRow(env, s, at, input.value, now));
    }
  }

  /** Enqueueing one instant leaves the acceptability of the others as it was. */
  lemma OthersStayAcceptable(env: Env, rows: Rows, s: Schedule, t: Time, now: Time, at: Time)
    requires LawfulEnv(env) && at != t
    ensures ScheduledId(env, s, at) != ScheduledId(env, s, t)
    ensures Acceptable(env, EnqueueScheduled(env, rows, s, t, now).0, s, at) <==> Acceptable(env, rows, s, at)
  {
    EnqueueScheduledIsExact(env, rows, s, t, now);
    if ScheduledId(env, s, at) == ScheduledId(env, s, t) {
      OneIdPerOccurrence(env, s, at, t);
    }
  }

  lemma {:induction false} EnqueueAllSucceedsIff(env: Env, rows: Rows, s: Schedule, times: seq<Time>, clock: Time -> Time)
    requires LawfulEnv(env) && Distinct(times)
    ensures EnqueueAll(env, rows, s, times, clock).1.Ok? <==> forall at :: at in times ==> Acceptable(env, rows, s, at)
    decreases |times|
  {
    if times != [] {
      var t := times[0];
      EnqueueScheduledIsExact(env, rows, s, t, clock(t));
      var rows1 := EnqueueScheduled(env, rows, s, t, clock(t)).0;
      EnqueueAllSucceedsIff(env, rows1, s, times[1..], clock);
      assert times == [t] + times[1..];
      forall at | at in times[1..]
        ensures Acceptable(env, rows1, s, at) <==> Acceptable(env, rows, s, at)
      {
        OthersStayAcceptable(env, rows, s, t, clock(t), at);
      }
    }
  }

  lemma {:induction false} EnqueueAllKeepsRows(env: Env, rows: Rows, s: Schedule, times: seq<Time>, clock: Time -> Time)
    ensures var rows' := EnqueueAll(env, rows, s, times, clock).0;
            forall id :: id in rows ==> id in rows' && rows'[id] == rows[id]
    decreases |times|
  {
    if times != [] {
      var (rows1, first) := EnqueueScheduled(env, rows, s, times[0], clock(times[0]));
      EnqueueScheduledIsExact(env, rows, s, times[0], clock(times[0]));
      EnqueueAllKeepsRows(env, rows1, s, times[1..], clock);
    }
  }

  lemma {:induction false} EnqueueAllReturnsIds(env: Env, rows: Rows, s: Schedule, times: seq<Time>, clock: Time -> Time)
    requires EnqueueAll(env, rows, s, times, clock).1.Ok?
    ensures var ids := EnqueueAll(env, rows, s, times, clock).1.value;
            |ids| == |times| && forall i :: 0 <= i < |times| ==> ids[i] == ScheduledId(env, s, times[i])
    decreases |times|
  {
    if times != [] {
      EnqueueAllReturnsIds(env, EnqueueScheduled(env, rows, s, times[0], clock(times[0])).0, s, times[1..], clock);
    }
  }

  lemma {:induction false} EnqueueAllAddsOneRowEach(env: Env, rows: Rows, s: Schedule, times: seq<Time>, clock: Time -> Time)
    requires LawfulEnv(env) && Distinct(times) && EnqueueAll(env, rows, s, times, clock).1.Ok?
    ensures EnqueuedOnce(env, rows, EnqueueAll(env, rows, s, times, clock).0, s, times, clock)
    decreases |times|
  {
    if times == [] {
      assert IdsOf(env, s, times) == {};
    } else {
      var t := times[0];
      var rows1 := EnqueueScheduled(env, rows, s, t, clock(t)).0;
      EnqueueAllAddsOneRowEach(env, rows1, s, times[1..], clock);
      assert times == [t] + times[1..];
      forall at | at in times[1..]
        ensures ScheduledId(env, s, at) != ScheduledId(env, s, t)
      {
        OthersStayAcceptable(env, rows, s, t, clock(t), at);
      }
      EnqueueScheduledIsExact(env, rows, s, t, clock(t));
      EnqueuedOneMore(env, rows, rows1, EnqueueAll(env, rows1, s, times[1..], clock).0, s, t, times[1..], clock,
                      ScheduledId(env, s, t), ScheduledRow(env, s, t, ScheduledInput(env, s, t).value, clock(t)));
    }
  }

  /** Enqueueing a list of different instants succeeds exactly when every one of them is acceptable beforehand. It
      then leaves exactly one row per instant, under the returned id; and success or not, no existing row changes. */
  lemma EnqueueAllIsExact(env: Env, rows: Rows, s: Schedule, times: seq<Time>, clock: Time -> Time)
    requires LawfulEnv(env) && Distinct(times)
    ensures var (rows', r) := EnqueueAll(env, rows, s, times, clock);
            && (r.Ok? <==> forall at :: at in times ==> Acceptable(env, rows, s, at))
            && (r.Ok? ==> |r.value| == |times| && forall i :: 0 <= i < |times| ==> r.value[i] == ScheduledId(env, s, times[i]))
            && (r.Ok? ==> EnqueuedOnce(env, rows, rows', s, times, clock))
            && AddsScheduled(env, rows, rows', s, times, clock)
  {
    EnqueueAllAddsScheduled(env, rows, s, times, clock);
    EnqueueAllSucceedsIff(env, rows, s, times, clock);
    EnqueueAllKeepsRows(env, rows, s, times, clock);
    if EnqueueAll(env, rows, s, times, clock).1.Ok? {
      EnqueueAllReturnsIds(env, rows, s, times, clock);
      EnqueueAllAddsOneRowEach(env, rows, s, times, clock);
    }
  }

  /** No earlier row changed, and every new one is the workflow of one of the instants. */
  ghost predicate AddsScheduled(env: Env, rows: Rows, rows': Rows, s: Schedule, times: seq<Time>, clock: Time -> Time) {
    && (forall id :: id in rows ==> id in rows' && rows'[id] == rows[id])
    && (forall id :: id in rows' && id !in rows ==> IsOfAnInstant(env, s, times, clock, id, rows'[id]))
  }

  ghost predicate IsOfAnInstant(env: Env, s: Schedule, times: seq<Time>, clock: Time -> Time, id: string, row: WorkflowStatus) {
    exists i :: 0 <= i < |times| && id == ScheduledId(env, s, times[i]) && IsScheduledFor(env, s, times[i], clock(times[i]), row)
  }

  lemma OfALaterInstant(env: Env, s: Schedule, times: seq<Time>, clock: Time -> Time, id: string, row: WorkflowStatus)
    requires times != [] && IsOfAnInstant(env, s, times[1..], clock, id, row)
    ensures IsOfAnInstant(env, s, times, clock, id, row)
  {
    var i :| 0 <= i < |times[1..]| && id == ScheduledId(env, s, times[1..][i]) && IsScheduledFor(env, s, times[1..][i], clock(times[1..][i]), row);
    assert times[i + 1] == times[1..][i];
  }

  /** Enqueueing the first instant adds at most its workflow. */
  lemma FirstIsScheduled(env: Env, rows: Rows, s: Schedule, times: seq<Time>, clock: Time -> Time)
    requires times != []
    ensures AddsScheduled(env, rows, EnqueueScheduled(env, rows, s, times[0], clock(times[0])).0, s, times, clock)
  {
    EnqueueScheduledIsExact(env, rows, s, times[0], clock(times[0]));
    if ScheduledInput(env, s, times[0]).Ok? {
      ScheduledRowIsOne(env, s, times[0], clock(times[0]));
    }
  }

  /** Success or not, all that enqueueing adds are workflows of its instants. */
  lemma {:induction false} EnqueueAllAddsScheduled(env: Env, rows: Rows, s: Schedule, times: seq<Time>, clock: Time -> Time)
    ensures AddsScheduled(env, rows, EnqueueAll(env, rows, s, times, clock).0, s, times, clock)
    decreases |times|
  {
    if times != [] {
      FirstIsScheduled(env, rows, s, times, clock);
      var (rows1, first) := EnqueueScheduled(env, rows, s, times[0], clock(times[0]));
      if first.Ok? {
        EnqueueAllAddsScheduled(env, rows1, s, times[1..], clock);
        var rows' := EnqueueAll(env, rows1, s, times[1..], clock).0;
        forall id | id in rows' && id !in rows
          ensures IsOfAnInstant(env, s, times, clock, id, rows'[id])
        {
          if id !in rows1 {
            OfALaterInstant(env, s, times, clock, id, rows'[id]);
          }
        }
      }
    }
  }

  /** A success leaves a workflow for every instant. */
  lemma {:induction false} EnqueueAllServesEvery(env: Env, rows: Rows, s: Schedule, times: seq<Time>, clock: Time -> Time)
    requires EnqueueAll(env, rows, s, times, clock).1.Ok?
    ensures forall i :: 0 <= i < |times| ==> ScheduledId(env, s, times[i]) in EnqueueAll(env, rows, s, times, clock).0
    decreases |times|
  {
    if times != [] {
      var rows1 := EnqueueScheduled(env, rows, s, times[0], clock(times[0])).0;
      EnqueueScheduledIsExact(env, rows, s, times[0], clock(times[0]));
      EnqueueAllServesEvery(env, rows1, s, times[1..], clock);
      EnqueueAllKeepsRows(env, rows1, s, times[1..], clock);
    }
  }

  /** What a backfill adds are the workflows of occurrences in the interval; a successful one adds them all. */
  ghost predicate Backfills(env: Env, rows: Rows, rows': Rows, s: Schedule, cron: Cron, start: Time, end: Time, clock: Time -> Time, ok: bool) {
    && (forall id :: id in rows ==> id in rows' && rows'[id] == rows[id])
    && (forall id :: id in rows' && id !in rows ==>
          exists at :: start < at <= end && Occurs(cron, at) && id == ScheduledId(env, s, at) && IsScheduledFor(env, s, at, clock(at), rows'[id]))
    && (ok ==> forall at :: start < at <= end && Occurs(cron, at) ==> ScheduledId(env, s, at) in rows')
  }

  lemma BackfillAddsOccurrences(env: Env, rows: Rows, s: Schedule, cron: Cron, start: Time, end: Time, clock: Time -> Time)
    requires Lawful(cron)
    ensures var (rows', r) := EnqueueAll(env, rows, s, Occurrences(cron, start, end), clock);
            Backfills(env, rows, rows', s, cron, start, end, clock, r.Ok?)
  {
    var times := Occurrences(cron, start, end);
    OccurrencesAreExact(cron, start, end);
    EnqueueAllAddsScheduled(env, rows, s, times, clock);
    var (rows', r) := EnqueueAll(env, rows, s, times, clock);
    if r.Ok? {
      EnqueueAllServesEvery(env, rows, s, times, clock);
    }
    forall id | id in rows' && id !in rows
      ensures exists at :: start < at <= end && Occurs(cron, at) && id == ScheduledId(env, s, at) && IsScheduledFor(env, s, at, clock(at), rows'[id])
    {
      assert IsOfAnInstant(env, s, times, clock, id, rows'[id]);
      var i :| 0 <= i < |times| && id == ScheduledId(env, s, times[i]) && IsScheduledFor(env, s, times[i], clock(times[i]), rows'[id]);
      assert times[i] in times;
    }
    forall at | start < at <= end && Occurs(cron, at) && r.Ok?
      ensures ScheduledId(env, s, at) in rows'
    {
      var i :| 0 <= i < |times| && times[i] == at;
    }
  }

  lemma EnqueuedOneMore(env: Env, rows: Rows, rows1: Rows, rows2: Rows, s: Schedule, t: Time, times: seq<Time>, clock: Time -> Time, id: string, row: WorkflowStatus)
    requires id == ScheduledId(env, s, t)
    requires ScheduledInput(env, s, t).Ok? && row == ScheduledRow(env, s, t, ScheduledInput(env, s, t).value, clock(t))
    requires rows1 == if id in rows then rows else rows[id := row]
    requires EnqueuedOnce(env, rows1, rows2, s, times, clock)
    requires forall at :: at in times ==> ScheduledId(env, s, at) != id
    ensures EnqueuedOnce(env, rows, rows2, s, [t] + times, clock)
  {
    IdsOfOneMore(env, s, t, times);
    assert rows1.Keys == rows.Keys + {id};
    assert rows2.Keys == rows.Keys + IdsOf(env, s, [t] + times);
    forall at | at in [t] + times && ScheduledId(env, s, at) !in rows && ScheduledInput(env, s, at).Ok?
      ensures rows2[ScheduledId(env, s, at)] == ScheduledRow(env, s, at, ScheduledInput(env, s, at).value, clock(at))
    {
      assert at == t || at in times;
      if at == t {
        assert id in rows1;
      }
    }
  }

  lemma IdsOfOneMore(env: Env, s: Schedule, t: Time, times: seq<Time>)
    ensures IdsOf(env, s, [t] + times) == {ScheduledId(env, s, t)} + IdsOf(env, s, times)
  {
  }

  /** Two backfills over adjacent intervals, the first one successful, are one backfill over their union. */
  lemma BackfillsCompose(env: Env, rows: Rows, s: Schedule, cron: Cron, a: Time, b: Time, c: Time, clock: Time -> Time)
    requires Lawful(cron) && a <= b <= c
    requires EnqueueAll(env, rows, s, Occurrences(cron, a, b), clock).1.Ok?
    ensures var (rows1, first) := EnqueueAll(env, rows, s, Occurrences(cron, a, b), clock);
            var (rows2, second) := EnqueueAll(env, rows1, s, Occurrences(cron, b, c), clock);
            EnqueueAll(env, rows, s, Occurrences(cron, a, c), clock) ==
            (rows2, if second.Ok? then Ok(first.value + second.value) else second)
  {
    OccurrencesCompose(cron, a, b, c);
    EnqueueAllConcat(env, rows, s, Occurrences(cron, a, b), Occurrences(cron, b, c), clock);
  }

  /** After enqueueing one list of instants, enqueueing another list of the same schedule succeeds exactly when it
      would have before, and then adds exactly the rows of the instants that had none. */
  lemma EnqueueAgain(env: Env, rows: Rows, s: Schedule, t1: seq<Time>, t2: seq<Time>, clock: Time -> Time, clock2: Time -> Time)
    requires LawfulEnv(env) && Distinct(t1) && Distinct(t2)
    requires EnqueueAll(env, rows, s, t1, clock).1.Ok?
    ensures var rows1 := EnqueueAll(env, rows, s, t1, clock).0;
            var (rows2, second) := EnqueueAll(env, rows1, s, t2, clock2);
            && (second.Ok? <==> forall at :: at in t2 ==> Acceptable(env, rows, s, at))
            && (second.Ok? ==> EnqueuedOnce(env, rows, rows1, s, t1, clock) && EnqueuedOnce(env, rows1, rows2, s, t2, clock2))
  {
    EnqueueAllSucceedsIff(env, rows, s, t1, clock);
    EnqueueAllAddsOneRowEach(env, rows, s, t1, clock);
    var rows1 := EnqueueAll(env, rows, s, t1, clock).0;
    AcceptableAfterwards(env, rows, rows1, s, t1, clock);
    EnqueueAllSucceedsIff(env, rows1, s, t2, clock2);
    if EnqueueAll(env, rows1, s, t2, clock2).1.Ok? {
      EnqueueAllAddsOneRowEach(env, rows1, s, t2, clock2);
    }
  }

  lemma NothingToAdd(env: Env, rows: Rows, rows1: Rows, rows2: Rows, s: Schedule, t1: seq<Time>, t2: seq<Time>, clock: Time -> Time, clock2: Time -> Time)
    requires EnqueuedOnce(env, rows, rows1, s, t1, clock) && EnqueuedOnce(env, rows1, rows2, s, t2, clock2)
    requires forall at :: at in t2 ==> at in t1
    ensures rows2 == rows1
  {
    assert IdsOf(env, s, t2) <= IdsOf(env, s, t1);
    assert rows2.Keys == rows1.Keys;
  }

  /** After a backfill over one interval, a backfill of the same schedule over any other one succeeds exactly when
      it would have before; it changes no row, and both together leave one row per occurrence of either interval. */
  lemma OverlappingBackfills(env: Env, rows: Rows, s: Schedule, cron: Cron, a: Time, b: Time, c: Time, d: Time, t1: seq<Time>, t2: seq<Time>, clock: Time -> Time, clock2: Time -> Time)
    requires LawfulEnv(env) && Lawful(cron)
    requires t1 == Occurrences(cron, a, b) && t2 == Occurrences(cron, c, d)
    requires EnqueueAll(env, rows, s, t1, clock).1.Ok?
    ensures var rows1 := EnqueueAll(env, rows, s, t1, clock).0;
            var (rows2, second) := EnqueueAll(env, rows1, s, t2, clock2);
            && (second.Ok? <==> forall at :: at in t2 ==> Acceptable(env, rows, s, at))
            && (forall id :: id in rows1 ==> id in rows2 && rows2[id] == rows1[id])
            && (second.Ok? ==> rows2.Keys == rows.Keys + IdsOf(env, s, t1) + IdsOf(env, s, t2))
  {
    OccurrencesAreDistinct(cron, a, b);
    OccurrencesAreDistinct(cron, c, d);
    EnqueueBoth(env, rows, s, t1, t2, clock, clock2);
  }

  lemma EnqueueBoth(env: Env, rows: Rows, s: Schedule, t1: seq<Time>, t2: seq<Time>, clock: Time -> Time, clock2: Time -> Time)
    requires LawfulEnv(env) && Distinct(t1) && Distinct(t2)
    requires EnqueueAll(env, rows, s, t1, clock).1.Ok?
    ensures var rows1 := EnqueueAll(env, rows, s, t1, clock).0;
            var (rows2, second) := EnqueueAll(env, rows1, s, t2, clock2);
            && (second.Ok? <==> forall at :: at in t2 ==> Acceptable(env, rows, s, at))
            && (forall id :: id in rows1 ==> id in rows2 && rows2[id] == rows1[id])
            && (second.Ok? ==> rows2.Keys == rows.Keys + IdsOf(env, s, t1) + IdsOf(env, s, t2))
  {
    EnqueueAgain(env, rows, s, t1, t2, clock, clock2);
    EnqueueAllKeepsRows(env, EnqueueAll(env, rows, s, t1, clock).0, s, t2, clock2);
  }

  /** Repeating a backfill over any part of its interval succeeds and changes nothing at all. */
  lemma RepeatedBackfillChangesNothing(env: Env, rows: Rows, s: Schedule, cron: Cron, a: Time, b: Time, c: Time, d: Time, clock: Time -> Time, clock2: Time -> Time)
    requires LawfulEnv(env) && Lawful(cron) && a <= c && d <= b
    requires EnqueueAll(env, rows, s, Occurrences(cron, a, b), clock).1.Ok?
    ensures var rows1 := EnqueueAll(env, rows, s, Occurrences(cron, a, b), clock).0;
            var (rows2, again) := EnqueueAll(env, rows1, s, Occurrences(cron, c, d), clock2);
            again.Ok? && rows2 == rows1
  {
    OccurrencesAreDistinct(cron, a, b);
    OccurrencesAreDistinct(cron, c, d);
    PartOfTheOccurrences(cron, a, b, c, d);
    var t1, t2 := Occurrences(cron, a, b), Occurrences(cron, c, d);
    EnqueueAllSucceedsIff(env, rows, s, t1, clock);
    EnqueueAgain(env, rows, s, t1, t2, clock, clock2);
    var rows1 := EnqueueAll(env, rows, s, t1, clock).0;
    NothingToAdd(env, rows, rows1, EnqueueAll(env, rows1, s, t2, clock2).0, s, t1, t2, clock, clock2);
  }

  lemma PartOfTheOccurrences(cron: Cron, a: Time, b: Time, c: Time, d: Time)
    requires Lawful(cron) && a <= c && d <= b
    ensures forall at :: at in Occurrences(cron, c, d) ==> at in Occurrences(cron, a, b)
  {
    OccurrencesAreExact(cron, a, b);
    OccurrencesAreExact(cron, c, d);
  }

  lemma OccurrencesAreDistinct(cron: Cron, a: Time, b: Time)
    requires Lawful(cron)
    ensures Distinct(Occurrences(cron, a, b))
  {
    OccurrencesAreExact(cron, a, b);
  }

  lemma AcceptableAfterwards(env: Env, rows: Rows, rows1: Rows, s: Schedule, times: seq<Time>, clock: Time -> Time)
    requires LawfulEnv(env) && EnqueuedOnce(env, rows, rows1, s, times, clock)
    requires forall at :: at in times ==> Acceptable(env, rows, s, at)
    ensures forall at :: Acceptable(env, rows1, s, at) <==> Acceptable(env, rows, s, at)
  {
    forall at
      ensures Acceptable(env, rows1, s, at) <==> Acceptable(env, rows, s, at)
    {
      var id := ScheduledId(env, s, at);
      if id in rows1 && id !in rows {
        var u :| u in times && id == ScheduledId(env, s, u);
        OneIdPerOccurrence(env, s, at, u);
      }
    }
  }
}
