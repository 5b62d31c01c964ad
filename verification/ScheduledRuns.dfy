/** From a schedule to a running body: what backfills and firing passes enqueue is spawned by the queue supervisor,
    and runs on the instant it was scheduled for. */
module ScheduledRuns {
  import opened Types
  import opened StoreSpec
  import opened Listing
  import opened Serialization
  import opened Cron
  import opened Schedules
  import Reconciler
  import C = Context

  /** A workflow that a backfill added is spawned by the next pass over the schedule's queue, unless the queue's limit
      is used up by workflows that are no younger. */
  lemma BackfilledIsSpawned(env: Env, rows: Rows, rows1: Rows, rows2: Rows, s: Schedule, cron: Cron, start: Time, end: Time, clock: Time -> Time,
                            ok: bool, passAt: Time, queue: C.Queue, listened: set<string>, spawned: seq<string>, id: string)
    requires Backfills(env, rows, rows1, s, cron, start, end, clock, ok) && id in rows1 && id !in rows
    requires C.PromotesTheDue(rows1, rows2, passAt) && C.DispatchedFrom(rows2, queue, listened, spawned)
    requires IsQueueOf(s, queue.name) && C.ListensTo(listened, queue)
    ensures id in spawned || (id in rows2 && LeftBehind(rows2, queue.maxTasksPerIteration, spawned, id))
  {
    var at :| start < at <= end && Occurs(cron, at) && id == ScheduledId(env, s, at) && IsScheduledFor(env, s, at, clock(at), rows1[id]);
    EnqueuedIsSpawned(env, rows1, rows2, s, at, clock(at), passAt, queue, listened, spawned, id);
  }

  lemma EnqueuedIsSpawned(env: Env, rows1: Rows, rows2: Rows, s: Schedule, at: Time, now: Time,
                          passAt: Time, queue: C.Queue, listened: set<string>, spawned: seq<string>, id: string)
    requires id in rows1 && IsScheduledFor(env, s, at, now, rows1[id])
    requires C.PromotesTheDue(rows1, rows2, passAt) && C.DispatchedFrom(rows2, queue, listened, spawned)
    requires IsQueueOf(s, queue.name) && C.ListensTo(listened, queue)
    ensures id in spawned || (id in rows2 && LeftBehind(rows2, queue.maxTasksPerIteration, spawned, id))
  {
    assert rows2[id] == rows1[id];
    assert C.Waits(rows2[id], queue) && Dispatchable(rows2[id], queue.name);
  }

  /** The same for what a reconciler pass fires. */
  lemma FiredIsSpawned(env: Env, table: Reconciler.Table, rows: Rows, rows1: Rows, rows2: Rows, now: Time, clock: string -> Time,
                       passAt: Time, queue: C.Queue, listened: set<string>, spawned: seq<string>, id: string)
    requires Reconciler.FiresActive(env, table, rows, rows1, now, clock) && id in rows1 && id !in rows
    requires C.PromotesTheDue(rows1, rows2, passAt) && C.DispatchedFrom(rows2, queue, listened, spawned)
    requires rows1[id].queueName == Some(queue.name) && C.ListensTo(listened, queue)
    ensures id in spawned || (id in rows2 && LeftBehind(rows2, queue.maxTasksPerIteration, spawned, id))
  {
    var name :| name in table && table[name].active && Reconciler.HasCome(env, table[name], now)
      && id == ScheduledId(env, table[name], now) && IsScheduledFor(env, table[name], now, clock(name), rows1[id]);
    EnqueuedIsSpawned(env, rows1, rows2, table[name], now, clock(name), passAt, queue, listened, spawned, id);
  }

  /** Its execution enters the body with the instant and the schedule's context, and records what the body gives. */
  lemma ScheduledRunsOnItsInstant(env: Env, s: Schedule, at: Time, now: Time, c: C.Call, rows: Rows, rows': Rows, r: Result<()>, entered: bool)
    requires CodecLaws(env.codec) && c.id in rows && IsScheduledFor(env, s, at, now, rows[c.id]) && c.body.Some?
    requires C.Handles(env.codec, c, rows, rows', r, entered)
    ensures var input := Object([("scheduled_time", env.timeValue(at)), ("context", if s.context.Some? then s.context.value else Null)]);
            entered && c.id in rows' && C.RunsOn(env.codec, c, input, rows[c.id], rows'[c.id], r)
  {
    var input := Object([("scheduled_time", env.timeValue(at)), ("context", if s.context.Some? then s.context.value else Null)]);
    assert C.TakesUp(rows[c.id], c.executor, c.resume);
    assert DecodeStoredValue(env.codec, rows[c.id].input, rows[c.id].serialization) == Ok(input);
  }
}
