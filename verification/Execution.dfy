/** The execution protocol as a transition system: any number of executor tasks, cancels, re-inserts, one
    delayed-queue supervisor, executor crashes and recovery passes run against one shared row table, step by
    step, each store call being one step. Contexts read a row, compute, and write it back blindly, so writes can
    be stale. A write is attempted twice; an attempt that is acknowledged is applied then and never again, an attempt
    whose acknowledgement is lost stays outstanding and may commit at any later time, or never. */
module Execution {
  import opened Types
  import opened Sequences
  import opened StoreSpec
  import opened Listing

  // ----- the pieces of the code between two store calls -----

  /** Where a task stands in `execute_workflow`; the argument of the first four is what it remembers. */
  datatype Pc =
    | Start
    | ToClaim
    | Claiming(execution: string, attempt: nat)
    | Resolving(execution: string)
    | Granted
    | ToSave(copy: WorkflowStatus)
    | Resaving(row: WorkflowStatus, final: bool)   // the first attempt to write the row was not acknowledged
    | Ready
    | Running
    | ToFinish(copy: WorkflowStatus)
    | Done

  datatype Task = Task(workflow: string, executor: string, resume: bool, pc: Pc)

  datatype Outcome = Completed(output: Option<Value>, serialization: string) | Failed(message: string)

  const MAX_U32 := 0xFFFF_FFFF

  function AfterRead(row: Option<WorkflowStatus>, executor: string, resume: bool): Pc {
    if row.None? || row.value.status.IsTerminal() then Done
    else if row.value.executorId.None? then ToClaim
    else if !resume || row.value.executorId != Some(executor) then Done
    else ToSave(row.value)
  }

  function AfterReread(row: Option<WorkflowStatus>): Pc {
    if row.None? || row.value.status.IsTerminal() then Done else ToSave(row.value)
  }

  function PendingCopy(copy: WorkflowStatus, now: Time): WorkflowStatus {
    copy.(status := Pending,
          startedAt := if copy.startedAt.None? then Some(now) else copy.startedAt,
          attempts := if copy.attempts < MAX_U32 then copy.attempts + 1 else copy.attempts,
          updatedAt := now)
  }

  function FinishedCopy(latest: WorkflowStatus, outcome: Outcome, now: Time): WorkflowStatus {
    var l := latest.(updatedAt := now, completedAt := Some(now));
    match outcome
    case Completed(output, serialization) => l.(status := Success, serialization := serialization, output := output, error := None)
    case Failed(message) => l.(status := Error, error := Some(message))
  }

  function AfterRun(row: Option<WorkflowStatus>, outcome: Outcome, now: Time): Pc {
    if row.None? || row.value.status == Cancelled then Done else ToFinish(FinishedCopy(row.value, outcome, now))
  }

  function CancelledCopy(row: WorkflowStatus, now: Time): WorkflowStatus {
    row.(status := Cancelled, completedAt := Some(now), updatedAt := now)
  }

  /** The supervisor's listing does not load outputs and errors, so its write clears those columns. */
  function PromotedCopy(row: WorkflowStatus, now: Time): WorkflowStatus {
    row.(status := Enqueued, updatedAt := now, output := None, error := None)
  }

  predicate Due(row: WorkflowStatus, now: Time) {
    row.status == Delayed && row.delayUntil.Some? && row.delayUntil.value <= now
  }

  function DueAt(now: Time): WorkflowStatus -> bool {
    (row: WorkflowStatus) => Due(row, now)
  }

  /** What recovery asks the store for. */
  function RecoveryOptions(): ListWorkflowsOptions {
    ListWorkflowsOptions(status := [Pending, Enqueued], loadInput := true)
  }

  /** The tasks one recovery pass starts, row by row of its listing. */
  function RecoveryTasks(listing: seq<WorkflowStatus>, executor: string, executorIds: seq<string>): seq<Task> {
    if listing == [] then []
    else
      var w := listing[0];
      var rest := RecoveryTasks(listing[1..], executor, executorIds);
      if w.status == Pending && w.executorId.None? then [Task(w.id, executor, false, Start)] + rest
      else if w.executorId.Some? && w.executorId.value in executorIds then [Task(w.id, executor, true, Start)] + rest
      else rest
  }

  // ----- the system -----

  /** Who owns a workflow, from the moment its row first carries an executor. */
  datatype Owner = Owner(executor: string, execution: Option<string>)

  /** What has happened to claims so far. */
  datatype History = History(
    owner: map<string, Owner>,
    minted: map<string, (string, string)>,    // execution id -> workflow and executor it was drawn for
    seen: set<string>)                        // execution ids that ever occurred

  /** A cancel between its read and its write; `retried` when the first attempt was not acknowledged. */
  datatype Cancel = Cancel(row: WorkflowStatus, retried: bool)

  datatype Sys = Sys(
    rows: Rows,
    tasks: seq<Task>,
    outstanding: multiset<WorkflowStatus>,    // write attempts whose fate is unknown
    inFlight: set<string>,                    // execution ids of updates whose fate is unknown
    cancels: multiset<Cancel>,                // cancels that have read their row and not yet written it
    promotions: seq<WorkflowStatus>,          // delayed rows the supervisor has listed and not yet written
    promoting: Option<WorkflowStatus>,        // the first of them, written once without an acknowledgement
    h: History,
    told: set<(string, string)>,              // workflow and execution id whose claim was answered true
    entered: multiset<string>,                // workflow bodies entered
    resumed: multiset<string>)                // recovered tasks started by the owner of the workflow

  const INIT := Sys(map[], [], multiset{}, {}, multiset{}, [], None, History(map[], map[], {}), {}, multiset{}, multiset{})

  datatype Event =
    | Insert(row: WorkflowStatus, checkSlot: bool)
    | Spawn(workflow: string, executor: string)
    | Read(i: nat)
    | ClaimAtomic(i: nat, execution: string, now: Time)
    | ClaimBegin(i: nat, execution: string)
    | ClaimAcked(i: nat, now: Time)
    | ClaimLost(i: nat)
    | LateCommit(execution: string, now: Time)
    | ClaimResolve(i: nat)
    | Reread(i: nat)
    | SavePending(i: nat, now: Time)
    | Enter(i: nat)
    | FinalRead(i: nat, outcome: Outcome, now: Time)
    | SaveFinal(i: nat)
    | SaveLost(i: nat, now: Time)
    | SaveAgain(i: nat)
    | SaveFails(i: nat)
    | Stop(i: nat)
    | Crash(executor: string)
    | Recover(executor: string, executorIds: seq<string>, order: seq<string>)
    | CancelRead(workflow: string, now: Time)
    | CancelAcked(cancel: Cancel)
    | CancelLost(cancel: Cancel)
    | CancelStops(cancel: Cancel)
    | Write(row: WorkflowStatus)
    | ListDelayed(order: seq<string>, now: Time)
    | Promote(now: Time)
    | PromoteLost(now: Time)
    | PromoteAgain
    | PromoteFails
    | AbandonPromotions

  ghost predicate Enabled(s: Sys, e: Event) {
    match e
    case Insert(row, _) => row.executionId.Some? ==> row.executionId.value !in s.h.minted
    case Spawn(_, _) => true
    case Read(i) => i < |s.tasks| && s.tasks[i].pc.Start?
    case ClaimAtomic(i, execution, _) => i < |s.tasks| && s.tasks[i].pc.ToClaim? && execution !in s.h.seen
    case ClaimBegin(i, execution) => i < |s.tasks| && s.tasks[i].pc.ToClaim? && execution !in s.h.seen
    case ClaimAcked(i, _) => i < |s.tasks| && s.tasks[i].pc.Claiming?
    case ClaimLost(i) => i < |s.tasks| && s.tasks[i].pc.Claiming?
    case LateCommit(execution, _) => execution in s.inFlight && execution in s.h.minted
    case ClaimResolve(i) => i < |s.tasks| && s.tasks[i].pc.Resolving?
    case Reread(i) => i < |s.tasks| && s.tasks[i].pc.Granted?
    case SavePending(i, _) => i < |s.tasks| && s.tasks[i].pc.ToSave?
    case Enter(i) => i < |s.tasks| && s.tasks[i].pc.Ready?
    case FinalRead(i, _, _) => i < |s.tasks| && s.tasks[i].pc.Running?
    case SaveFinal(i) => i < |s.tasks| && s.tasks[i].pc.ToFinish?
    case SaveLost(i, _) => i < |s.tasks| && (s.tasks[i].pc.ToSave? || s.tasks[i].pc.ToFinish?)
    case SaveAgain(i) => i < |s.tasks| && s.tasks[i].pc.Resaving?
    case SaveFails(i) => i < |s.tasks| && s.tasks[i].pc.Resaving?
    case Stop(i) => i < |s.tasks|
    case Crash(_) => true
    case Recover(_, _, order) => Enumerates(order, s.rows)
    case CancelRead(workflow, _) => workflow in s.rows && !s.rows[workflow].status.IsTerminal()
    case CancelAcked(cancel) => cancel in s.cancels
    case CancelLost(cancel) => cancel in s.cancels
    case CancelStops(cancel) => cancel in s.cancels
    case Write(row) => row in s.outstanding
    case ListDelayed(order, _) => s.promotions == [] && s.promoting.None? && Enumerates(order, s.rows)
    case Promote(_) => s.promotions != [] && s.promoting.None?
    case PromoteLost(_) => s.promotions != [] && s.promoting.None?
    case PromoteAgain => s.promotions != [] && s.promoting.Some?
    case PromoteFails => s.promotions != [] && s.promoting.Some?
    case AbandonPromotions => true
  }

  function MoveTo(s: Sys, i: nat, pc: Pc): Sys
    requires i < |s.tasks|
  {
    s.(tasks := s.tasks[i := s.tasks[i].(pc := pc)])
  }

  /** One blind write. */
  function Save(s: Sys, row: WorkflowStatus): Sys {
    s.(rows := SaveWorkflow(s.rows, row))
  }

  /** A write attempt without an acknowledgement. */
  function LeaveOutstanding(s: Sys, row: WorkflowStatus): Sys {
    s.(outstanding := s.outstanding + multiset{row})
  }

  /** What a task at one of its two saves hands to the store. */
  function RowToSave(pc: Pc, now: Time): WorkflowStatus
    requires pc.ToSave? || pc.ToFinish?
  {
    if pc.ToSave? then PendingCopy(pc.copy, now) else pc.copy
  }

  /** The guarded update of a claim takes effect exactly on a claimable row. */
  function GuardedUpdate(s: Sys, workflow: string, executor: string, execution: string, now: Time): Sys {
    if workflow in s.rows && Claimable(s.rows[workflow]) then
      s.(rows := s.rows[workflow := ClaimedRow(s.rows[workflow], executor, execution, now)],
         h := s.h.(owner := s.h.owner[workflow := Owner(executor, Some(execution))]))
    else s
  }

  function Mint(s: Sys, i: nat, execution: string): Sys
    requires i < |s.tasks|
  {
    var h := s.h.(minted := s.h.minted[execution := (s.tasks[i].workflow, s.tasks[i].executor)], seen := s.h.seen + {execution});
    MoveTo(s.(h := h), i, Claiming(execution, 0))
  }

  function Grant(s: Sys, i: nat, execution: string): Sys
    requires i < |s.tasks|
  {
    MoveTo(s.(told := s.told + {(s.tasks[i].workflow, execution)}), i, Granted)
  }

  function Acked(s: Sys, i: nat, now: Time): Sys
    requires i < |s.tasks| && s.tasks[i].pc.Claiming?
  {
    var t := s.tasks[i];
    if t.workflow in s.rows && Claimable(s.rows[t.workflow]) then
      Grant(GuardedUpdate(s, t.workflow, t.executor, t.pc.execution, now), i, t.pc.execution)
    else MoveTo(s, i, Resolving(t.pc.execution))
  }

  function CrashTasks(tasks: seq<Task>, executor: string): seq<Task> {
    seq(|tasks|, i requires 0 <= i < |tasks| => if tasks[i].executor == executor then tasks[i].(pc := Done) else tasks[i])
  }

  /** Workflows whose owner restarts them in this recovery pass. */
  function OwnResumes(listing: seq<WorkflowStatus>, executor: string, executorIds: seq<string>): multiset<string> {
    if listing == [] then multiset{}
    else
      (if listing[0].executorId == Some(executor) && executor in executorIds then multiset{listing[0].id} else multiset{})
      + OwnResumes(listing[1..], executor, executorIds)
  }

  function Promotions(rows: Rows, order: seq<string>, now: Time): seq<WorkflowStatus>
    requires forall id :: id in order ==> id in rows
  {
    Filter(RowsInOrder(rows, order), DueAt(now))
  }

  /** A new row may arrive owned, from an import. */
  function Arrived(h: History, row: WorkflowStatus): History {
    h.(owner := if row.executorId.Some? then h.owner[row.id := Owner(row.executorId.value, row.executionId)] else h.owner,
       seen := if row.executionId.Some? then h.seen + {row.executionId.value} else h.seen)
  }

  function Step(s: Sys, e: Event): Sys
    requires Enabled(s, e)
  {
    match e
    case Insert(row, checkSlot) =>
      var (rows', r) := InsertWorkflow(s.rows, row, checkSlot);
      if r != Ok(Inserted) then s
      else s.(rows := rows', h := Arrived(s.h, row))
    case Spawn(workflow, executor) => s.(tasks := s.tasks + [Task(workflow, executor, false, Start)])
    case Read(i) => MoveTo(s, i, AfterRead(GetWorkflow(s.rows, s.tasks[i].workflow), s.tasks[i].executor, s.tasks[i].resume))
    case ClaimAtomic(i, execution, now) =>
      var t := s.tasks[i];
      var m := Mint(s, i, execution);
      var (rows', claimed) := ClaimWorkflowExecution(s.rows, t.workflow, t.executor, execution, now);
      if claimed then
        Grant(m.(rows := rows', h := m.h.(owner := m.h.owner[t.workflow := Owner(t.executor, Some(execution))])), i, execution)
      else MoveTo(m, i, Done)
    case ClaimBegin(i, execution) => Mint(s, i, execution)
    case ClaimAcked(i, now) => Acked(s, i, now)
    case ClaimLost(i) =>
      var pc := s.tasks[i].pc;
      MoveTo(s.(inFlight := s.inFlight + {pc.execution}), i, if pc.attempt == 0 then Claiming(pc.execution, 1) else Resolving(pc.execution))
    case LateCommit(execution, now) => GuardedUpdate(s, s.h.minted[execution].0, s.h.minted[execution].1, execution, now)
    case ClaimResolve(i) =>
      var t := s.tasks[i];
      if t.workflow in s.rows && s.rows[t.workflow].executionId == Some(t.pc.execution) then Grant(s, i, t.pc.execution)
      else MoveTo(s, i, Done)
    case Reread(i) => MoveTo(s, i, AfterReread(GetWorkflow(s.rows, s.tasks[i].workflow)))
    case SavePending(i, now) => MoveTo(Save(s, PendingCopy(s.tasks[i].pc.copy, now)), i, Ready)
    case Enter(i) => MoveTo(s.(entered := s.entered + multiset{s.tasks[i].workflow}), i, Running)
    case FinalRead(i, outcome, now) => MoveTo(s, i, AfterRun(GetWorkflow(s.rows, s.tasks[i].workflow), outcome, now))
    case SaveFinal(i) => MoveTo(Save(s, s.tasks[i].pc.copy), i, Done)
    case SaveLost(i, now) =>
      var row := RowToSave(s.tasks[i].pc, now);
      MoveTo(LeaveOutstanding(s, row), i, Resaving(row, s.tasks[i].pc.ToFinish?))
    case SaveAgain(i) => MoveTo(Save(s, s.tasks[i].pc.row), i, if s.tasks[i].pc.final then Done else Ready)
    case SaveFails(i) => MoveTo(LeaveOutstanding(s, s.tasks[i].pc.row), i, Done)
    case Stop(i) => MoveTo(s, i, Done)
    case Crash(executor) => s.(tasks := CrashTasks(s.tasks, executor))
    case Recover(executor, executorIds, order) =>
      var listing := ListRows(RowsInOrder(s.rows, order), RecoveryOptions());
      s.(tasks := s.tasks + RecoveryTasks(listing, executor, executorIds), resumed := s.resumed + OwnResumes(listing, executor, executorIds))
    case CancelRead(workflow, now) => s.(cancels := s.cancels + multiset{Cancel(CancelledCopy(s.rows[workflow], now), false)})
    case CancelAcked(cancel) => Save(s, cancel.row).(cancels := s.cancels - multiset{cancel})
    case CancelLost(cancel) =>
      LeaveOutstanding(s, cancel.row).(cancels := s.cancels - multiset{cancel} + if cancel.retried then multiset{} else multiset{Cancel(cancel.row, true)})
    case CancelStops(cancel) => s.(cancels := s.cancels - multiset{cancel})
    case Write(row) => Save(s, row).(outstanding := s.outstanding - multiset{row})
    case ListDelayed(order, now) => s.(promotions := Promotions(s.rows, order, now))
    case Promote(now) => Save(s, PromotedCopy(s.promotions[0], now)).(promotions := s.promotions[1..])
    case PromoteLost(now) =>
      var row := PromotedCopy(s.promotions[0], now);
      LeaveOutstanding(s, row).(promoting := Some(row))
    case PromoteAgain => Save(s, s.promoting.value).(promotions := s.promotions[1..], promoting := None)
    case PromoteFails => LeaveOutstanding(s, s.promoting.value).(promotions := [], promoting := None)
    case AbandonPromotions => s.(promotions := [], promoting := None)
  }

  // ----- runs -----

  /** The task has been granted the workflow, by a claim or as its recovering owner, and has not ended. */
  predicate PastClaim(t: Task) {
    t.pc.Granted? || t.pc.ToSave? || t.pc.Resaving? || t.pc.Ready? || t.pc.Running? || t.pc.ToFinish?
  }

  /** A recovery pass of the executor takes the row up again as its own. */
  predicate Restarts(row: WorkflowStatus, executor: string, executorIds: seq<string>) {
    (row.status == Pending || row.status == Enqueued) && row.executorId == Some(executor) && executor in executorIds
  }

  /** The task works on the row's workflow or is about to find out that it may: past the claim, restarted by an
      earlier pass, or waiting for the answer to the claim that the row already carries. */
  predicate WorksOn(row: WorkflowStatus, t: Task) {
    && t.workflow == row.id
    && match t.pc
       case Start => t.resume && row.executorId == Some(t.executor)
       case Claiming(e, _) => row.executionId == Some(e)
       case Resolving(e) => row.executionId == Some(e)
       case _ => PastClaim(t)
  }

  /** Two steps need care: a recovery pass must not restart a workflow that a live task works on, and a promotion
      may be left without an acknowledgement only when the row has an owner. */
  ghost predicate Disciplined(s: Sys, e: Event) {
    match e
    case Recover(executor, executorIds, _) =>
      forall w, i :: w in s.rows && Restarts(s.rows[w], executor, executorIds) && 0 <= i < |s.tasks| ==> !WorksOn(s.rows[w], s.tasks[i])
    case PromoteLost(_) => s.promotions != [] && s.promotions[0].executorId.Some?
    case _ => true
  }

  /** Every other step is always allowed. */
  predicate Ordinary(e: Event) {
    !e.Recover? && !e.PromoteLost?
  }

  ghost predicate IsRun(s: Sys, events: seq<Event>)
    decreases |events|
  {
    events == [] || (Enabled(s, events[0]) && IsRun(Step(s, events[0]), events[1..]))
  }

  ghost predicate IsDisciplinedRun(s: Sys, events: seq<Event>)
    decreases |events|
  {
    events == [] || (Enabled(s, events[0]) && Disciplined(s, events[0]) && IsDisciplinedRun(Step(s, events[0]), events[1..]))
  }

  ghost function After(s: Sys, events: seq<Event>): Sys
    requires IsRun(s, events)
    decreases |events|
  {
    if events == [] then s else After(Step(s, events[0]), events[1..])
  }
}
