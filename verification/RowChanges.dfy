/** What the calls of the engine do to a workflow row, column by column: which columns change, to what, and which
    stay. These are the promises that the calls are proved to keep, whatever functions they are computed with. */
module RowChanges {
  import opened Types

  const MAX_ATTEMPTS := 0xFFFF_FFFF

  /** The columns that a workflow is created with and that no execution of it touches. */
  predicate SameOrigin(a: WorkflowStatus, b: WorkflowStatus) {
    && a.id == b.id && a.name == b.name && a.authenticatedUser == b.authenticatedUser && a.input == b.input
    && a.createdAt == b.createdAt && a.applicationVersion == b.applicationVersion
    && a.queueName == b.queueName && a.deduplicationId == b.deduplicationId && a.delayUntil == b.delayUntil
    && a.forkedFrom == b.forkedFrom && a.wasForkedFrom == b.wasForkedFrom && a.parentWorkflowId == b.parentWorkflowId
  }

  predicate SameOwner(a: WorkflowStatus, b: WorkflowStatus) {
    a.executorId == b.executorId && a.executionId == b.executionId
  }

  predicate SameProgress(a: WorkflowStatus, b: WorkflowStatus) {
    a.attempts == b.attempts && a.startedAt == b.startedAt
  }

  predicate SameResult(a: WorkflowStatus, b: WorkflowStatus) {
    a.output == b.output && a.error == b.error && a.serialization == b.serialization
  }

  /** A claim makes the row pending and owned, and leaves the rest. */
  predicate IsClaimed(w: WorkflowStatus, w': WorkflowStatus, executor: string, execution: string, now: Time) {
    && SameOrigin(w, w') && SameProgress(w, w') && SameResult(w, w') && w'.completedAt == w.completedAt
    && w'.status == Pending && w'.executorId == Some(executor) && w'.executionId == Some(execution) && w'.updatedAt == now
  }

  /** The row belongs to the executor: by a new claim if nobody had it, otherwise as before. */
  predicate OwnedAfter(w: WorkflowStatus, w': WorkflowStatus, executor: string, execution: string) {
    && w'.executorId == Some(executor)
    && w'.executionId == if w.executorId.None? then Some(execution) else w.executionId
  }

  /** One more attempt has begun; the first one set the time of the start. */
  predicate AttemptBegun(w: WorkflowStatus, w': WorkflowStatus, startedAt: Time) {
    && w'.attempts == (if w.attempts >= MAX_ATTEMPTS then w.attempts else w.attempts + 1)
    && w'.startedAt == if w.startedAt.None? then Some(startedAt) else w.startedAt
  }

  /** The row of a workflow whose body is about to run. */
  predicate IsStarted(w: WorkflowStatus, w': WorkflowStatus, executor: string, execution: string, startedAt: Time) {
    && SameOrigin(w, w') && OwnedAfter(w, w', executor, execution) && AttemptBegun(w, w', startedAt)
    && SameResult(w, w') && w'.completedAt == w.completedAt
    && w'.status == Pending && w'.updatedAt == startedAt
  }

  /** The row of a workflow whose body has ended, apart from how it ended. */
  predicate IsEnded(w: WorkflowStatus, w': WorkflowStatus, executor: string, execution: string, startedAt: Time, finishedAt: Time) {
    && SameOrigin(w, w') && OwnedAfter(w, w', executor, execution) && AttemptBegun(w, w', startedAt)
    && w'.completedAt == Some(finishedAt) && w'.updatedAt == finishedAt
  }

  predicate IsCancelled(w: WorkflowStatus, w': WorkflowStatus, now: Time) {
    && SameOrigin(w, w') && SameOwner(w, w') && SameProgress(w, w') && SameResult(w, w')
    && w'.status == Cancelled && w'.completedAt == Some(now) && w'.updatedAt == now
  }

  /** A promotion enqueues a delayed row; the columns that its listing did not load are cleared. */
  predicate IsPromoted(w: WorkflowStatus, w': WorkflowStatus, now: Time) {
    && SameOrigin(w, w') && SameOwner(w, w') && SameProgress(w, w')
    && w'.serialization == w.serialization && w'.completedAt == w.completedAt && w'.output == None && w'.error == None
    && w'.status == Enqueued && w'.updatedAt == now
  }

  /** The text says what went wrong: for an operation that failed, its own message. */
  predicate Tells(text: Option<string>, error: DbosError) {
    text.Some? && (error.OperationFailed? ==> text.value == error.message)
  }

  /** The delay of the row is over. */
  predicate DelayIsOver(w: WorkflowStatus, now: Time) {
    w.status == Delayed && w.delayUntil.Some? && w.delayUntil.value <= now
  }
}
