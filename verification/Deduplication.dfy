/** Queue deduplication in the in-memory store, with every read-compute-write of a context taken as one step. */
module Deduplication {
  import opened Types
  import opened StoreSpec
  import opened Execution

  datatype Op =
    | Insert(row: WorkflowStatus)
    | Claim(id: string, executor: string, execution: string, now: Time)
    | Start(id: string, now: Time)
    | Complete(id: string, outcome: Outcome, now: Time)
    | Cancel(id: string, now: Time)
    | Promote(id: string, now: Time)

  function Update(rows: Rows, row: WorkflowStatus, applies: bool): Rows {
    if applies then SaveWorkflow(rows, row) else rows
  }

  function Apply(rows: Rows, op: Op): Rows {
    match op
    case Insert(row) => InsertWorkflow(rows, row, true).0
    case Claim(id, executor, execution, now) => ClaimWorkflowExecution(rows, id, executor, execution, now).0
    case Start(id, now) =>
      if id in rows then Update(rows, PendingCopy(rows[id], now), !rows[id].status.IsTerminal()) else rows
    case Complete(id, outcome, now) =>
      if id in rows then Update(rows, FinishedCopy(rows[id], outcome, now), rows[id].status != Cancelled) else rows
    case Cancel(id, now) =>
      if id in rows then Update(rows, CancelledCopy(rows[id], now), !rows[id].status.IsTerminal()) else rows
    case Promote(id, now) =>
      if id in rows then Update(rows, PromotedCopy(rows[id], now), Due(rows[id], now)) else rows
  }

  function ApplyAll(rows: Rows, ops: seq<Op>): Rows
    decreases |ops|
  {
    if ops == [] then rows else ApplyAll(Apply(rows, ops[0]), ops[1..])
  }

  predicate SameSlot(a: WorkflowStatus, b: WorkflowStatus) {
    HoldsSlotOf(a, b) && !b.status.IsTerminal()
  }

  /** No two unfinished workflows share a queue and a deduplication id. */
  ghost predicate SlotsUnique(rows: Rows) {
    && (forall id :: id in rows ==> rows[id].id == id)
    && (forall a, b :: a in rows && b in rows && a != b ==> !SameSlot(rows[a], rows[b]))
  }

  lemma RewriteKeepsSlots(rows: Rows, id: string, row: WorkflowStatus)
    requires SlotsUnique(rows) && id in rows && row.id == id
    requires row.queueName == rows[id].queueName && row.deduplicationId == rows[id].deduplicationId
    requires rows[id].status.IsTerminal() ==> row.status.IsTerminal()
    ensures SlotsUnique(SaveWorkflow(rows, row))
  {
    var rows' := SaveWorkflow(rows, row);
    forall a, b | a in rows' && b in rows' && a != b
      ensures !SameSlot(rows'[a], rows'[b])
    {
      assert !SameSlot(rows[a], rows[b]);
    }
  }

  lemma InsertKeepsSlots(rows: Rows, row: WorkflowStatus)
    requires SlotsUnique(rows)
    ensures SlotsUnique(InsertWorkflow(rows, row, true).0)
  {
    var rows' := InsertWorkflow(rows, row, true).0;
    forall a, b | a in rows' && b in rows' && a != b
      ensures !SameSlot(rows'[a], rows'[b])
    {
      if a in rows && b in rows {
        assert !SameSlot(rows[a], rows[b]);
      } else if a in rows {
        assert !HoldsSlotOf(rows[a], row);
      } else {
        assert !HoldsSlotOf(rows[b], row);
      }
    }
  }

  lemma StepKeepsSlots(rows: Rows, op: Op)
    requires SlotsUnique(rows)
    ensures SlotsUnique(Apply(rows, op))
  {
    match op
    case Insert(row) => InsertKeepsSlots(rows, row);
    case Claim(id, executor, execution, now) =>
      if id in rows && Claimable(rows[id]) {
        RewriteKeepsSlots(rows, id, ClaimedRow(rows[id], executor, execution, now));
      }
    case Start(id, now) =>
      if id in rows && !rows[id].status.IsTerminal() {
        RewriteKeepsSlots(rows, id, PendingCopy(rows[id], now));
      }
    case Complete(id, outcome, now) =>
      if id in rows {
        RewriteKeepsSlots(rows, id, FinishedCopy(rows[id], outcome, now));
      }
    case Cancel(id, now) =>
      if id in rows {
        RewriteKeepsSlots(rows, id, CancelledCopy(rows[id], now));
      }
    case Promote(id, now) =>
      if id in rows && Due(rows[id], now) {
        RewriteKeepsSlots(rows, id, PromotedCopy(rows[id], now));
      }
  }

  /** Slots stay unique over every sequence of steps. */
  lemma {:induction false} SlotsStayUnique(rows: Rows, ops: seq<Op>)
    requires SlotsUnique(rows)
    ensures SlotsUnique(ApplyAll(rows, ops))
    decreases |ops|
  {
    if ops != [] {
      StepKeepsSlots(rows, ops[0]);
      SlotsStayUnique(Apply(rows, ops[0]), ops[1..]);
    }
  }

  lemma StepKeepsTerminal(rows: Rows, op: Op, id: string)
    requires SlotsUnique(rows) && id in rows && rows[id].status.IsTerminal()
    ensures id in Apply(rows, op) && Apply(rows, op)[id].status.IsTerminal()
    ensures rows[id].status == Cancelled ==> Apply(rows, op)[id] == rows[id]
  {
  }

  /** With each read-compute-write as one step, a finished workflow stays finished, and a cancelled one never
      changes again. */
  lemma {:induction false} TerminalStaysTerminal(rows: Rows, ops: seq<Op>, id: string)
    requires SlotsUnique(rows) && id in rows && rows[id].status.IsTerminal()
    ensures id in ApplyAll(rows, ops) && ApplyAll(rows, ops)[id].status.IsTerminal()
    ensures rows[id].status == Cancelled ==> ApplyAll(rows, ops)[id] == rows[id]
    decreases |ops|
  {
    if ops != [] {
      StepKeepsSlots(rows, ops[0]);
      StepKeepsTerminal(rows, ops[0], id);
      TerminalStaysTerminal(Apply(rows, ops[0]), ops[1..], id);
    }
  }

  /** A slot is free again exactly when its holder has finished: the next insert under a new id succeeds then. */
  lemma FinishedHolderFreesTheSlot(rows: Rows, holder: string, w: WorkflowStatus)
    requires SlotsUnique(rows) && holder in rows && w.id !in rows && w.queueName.Some? && w.deduplicationId.Some?
    requires rows[holder].queueName == w.queueName && rows[holder].deduplicationId == w.deduplicationId
    requires forall id :: id in rows && id != holder ==> !HoldsSlotOf(rows[id], w)
    ensures InsertWorkflow(rows, w, true).1 == Ok(Inserted) <==> rows[holder].status.IsTerminal()
  {
    assert SlotTaken(rows, w) <==> HoldsSlotOf(rows[holder], w);
  }
}
