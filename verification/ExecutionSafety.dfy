/** What every step of the execution protocol keeps, and what follows for whole runs. */
module ExecutionSafety {
  import opened Types
  import opened Sequences
  import opened StoreSpec
  import opened Listing
  import opened Execution

  // ----- the invariant -----

  /** A row version agrees with the ownership history: its executor and execution id are the owner's, and an
      execution id drawn by a task is the one the owner claimed with. */
  predicate Agrees(h: History, r: WorkflowStatus) {
    && (r.executorId.Some? ==> r.id in h.owner && h.owner[r.id] == Owner(r.executorId.value, r.executionId))
    && (r.executionId.Some? ==> r.executionId.value in h.seen)
    && (r.executionId.Some? && r.executionId.value in h.minted ==> r.id in h.owner && h.owner[r.id].execution == r.executionId)
  }

  predicate Settled(r: WorkflowStatus) {
    r.status.IsTerminal() || r.executorId.Some?
  }

  /** Writing this version cannot make a granted workflow claimable again. */
  predicate Secured(h: History, r: WorkflowStatus) {
    Agrees(h, r) && Settled(r)
  }

  ghost predicate RowsAgree(h: History, rows: Rows) {
    forall w :: w in rows ==> rows[w].id == w && Agrees(h, rows[w])
  }

  /** Granted implies owned or terminal. */
  ghost predicate OwnedOrTerminal(h: History, rows: Rows) {
    forall w :: w in h.owner ==> w in rows && Settled(rows[w])
  }

  ghost predicate HistoryOk(h: History) {
    && h.minted.Keys <= h.seen
    && forall w :: w in h.owner && h.owner[w].execution.Some? ==>
         && h.owner[w].execution.value in h.seen
         && (h.owner[w].execution.value in h.minted ==> h.minted[h.owner[w].execution.value] == (w, h.owner[w].executor))
  }

  predicate MayBeWritten(h: History, rows: Rows, r: WorkflowStatus) {
    r.id in rows && Secured(h, r)
  }

  ghost predicate OutstandingSecured(h: History, rows: Rows, outstanding: multiset<WorkflowStatus>) {
    forall r :: r in outstanding ==> MayBeWritten(h, rows, r)
  }

  ghost predicate CancelsSecured(h: History, rows: Rows, cancels: multiset<Cancel>) {
    forall c :: c in cancels ==> MayBeWritten(h, rows, c.row)
  }

  /** Every write that may still come is of a secured version. */
  ghost predicate WritesSecured(h: History, rows: Rows, outstanding: multiset<WorkflowStatus>, cancels: multiset<Cancel>, promoting: Option<WorkflowStatus>) {
    && OutstandingSecured(h, rows, outstanding) && CancelsSecured(h, rows, cancels)
    && (promoting.Some? ==> MayBeWritten(h, rows, promoting.value))
  }

  predicate TaskOk(h: History, t: Task) {
    match t.pc
    case Start => t.resume ==> t.workflow in h.owner
    case ToClaim => true
    case Claiming(e, _) => e in h.minted && h.minted[e] == (t.workflow, t.executor)
    case Resolving(e) => e in h.minted && h.minted[e] == (t.workflow, t.executor)
    case ToSave(c) => OwnTask(h, t) && c.id == t.workflow && Secured(h, c) && c.executorId.Some?
    case Resaving(r, _) => OwnTask(h, t) && r.id == t.workflow && Secured(h, r)
    case ToFinish(c) => OwnTask(h, t) && c.id == t.workflow && Secured(h, c)
    case Done => true
    case _ => OwnTask(h, t)
  }

  predicate OwnTask(h: History, t: Task) {
    t.workflow in h.owner && h.owner[t.workflow].executor == t.executor
  }

  ghost predicate TasksOk(h: History, tasks: seq<Task>) {
    forall i :: 0 <= i < |tasks| ==> TaskOk(h, tasks[i])
  }

  predicate SameExecution(t: Task, u: Task) {
    (t.pc.Claiming? || t.pc.Resolving?) && (u.pc.Claiming? || u.pc.Resolving?) && t.pc.execution == u.pc.execution
  }

  ghost predicate ExecutionsUnique(tasks: seq<Task>) {
    forall i, j :: 0 <= i < j < |tasks| ==> !SameExecution(tasks[i], tasks[j])
  }

  /** The task has the workflow, or may still discover that it has it. */
  predicate Holder(h: History, t: Task) {
    match t.pc
    case Start => t.resume && OwnTask(h, t)
    case ToClaim => false
    case Claiming(e, _) => t.workflow in h.owner && h.owner[t.workflow].execution == Some(e)
    case Resolving(e) => t.workflow in h.owner && h.owner[t.workflow].execution == Some(e)
    case Done => false
    case _ => true
  }

  predicate Conflict(h: History, t: Task, u: Task) {
    Holder(h, t) && Holder(h, u) && t.workflow == u.workflow
  }

  ghost predicate HoldersUnique(h: History, tasks: seq<Task>) {
    forall i, j :: 0 <= i < j < |tasks| ==> !Conflict(h, tasks[i], tasks[j])
  }

  /** A holder that has not entered the body yet. */
  predicate Waiting(h: History, t: Task) {
    Holder(h, t) && !t.pc.Running? && !t.pc.ToFinish? && !(t.pc.Resaving? && t.pc.final)
  }

  /** How often the body may be entered: once for the claim and once for every recovery by the owner. */
  function Allowance(h: History, resumed: multiset<string>, w: string): nat {
    (if w in h.owner then 1 else 0) + resumed[w]
  }

  ghost predicate EntriesAllowed(h: History, entered: multiset<string>, resumed: multiset<string>) {
    && (forall w :: entered[w] <= Allowance(h, resumed, w))
    && (forall w :: w in resumed ==> w in h.owner)
  }

  predicate HasEntryLeft(h: History, t: Task, entered: multiset<string>, resumed: multiset<string>) {
    Waiting(h, t) ==> entered[t.workflow] < Allowance(h, resumed, t.workflow)
  }

  ghost predicate WaitingHaveEntries(h: History, tasks: seq<Task>, entered: multiset<string>, resumed: multiset<string>) {
    forall i :: 0 <= i < |tasks| ==> HasEntryLeft(h, tasks[i], entered, resumed)
  }

  predicate PromotionOk(h: History, rows: Rows, r: WorkflowStatus) {
    && r.id in rows && Agrees(h, r)
    && (r.executorId.None? ==> r.id !in h.owner && (rows[r.id].status == Delayed || rows[r.id].status.IsTerminal()))
  }

  ghost predicate PromotionsOk(h: History, rows: Rows, promotions: seq<WorkflowStatus>) {
    && (forall i :: 0 <= i < |promotions| ==> PromotionOk(h, rows, promotions[i]))
    && (forall i, j :: 0 <= i < j < |promotions| ==> promotions[i].id != promotions[j].id)
  }

  ghost predicate ToldOk(h: History, told: set<(string, string)>) {
    forall x :: x in told ==> x.0 in h.owner && h.owner[x.0].execution == Some(x.1)
  }

  ghost predicate TaskInv(s: Sys) {
    && TasksOk(s.h, s.tasks) && ExecutionsUnique(s.tasks) && HoldersUnique(s.h, s.tasks)
    && WaitingHaveEntries(s.h, s.tasks, s.entered, s.resumed)
  }

  ghost predicate RowInv(s: Sys) {
    && RowsAgree(s.h, s.rows) && OwnedOrTerminal(s.h, s.rows)
    && WritesSecured(s.h, s.rows, s.outstanding, s.cancels, s.promoting)
    && PromotionsOk(s.h, s.rows, s.promotions)
  }

  ghost predicate CountInv(s: Sys) {
    HistoryOk(s.h) && EntriesAllowed(s.h, s.entered, s.resumed) && ToldOk(s.h, s.told)
  }

  ghost predicate Inv(s: Sys) {
    TaskInv(s) && RowInv(s) && CountInv(s)
  }

  // ----- one task moves on -----

  /** A task may step from `t` to `t'` without gaining anything it did not hold. */
  predicate Descends(h: History, t: Task, t': Task) {
    && t'.workflow == t.workflow && t'.executor == t.executor
    && (Holder(h, t') ==> Holder(h, t))
    && (Waiting(h, t') ==> Waiting(h, t))
    && (t'.pc.Claiming? || t'.pc.Resolving? ==> (t.pc.Claiming? || t.pc.Resolving?) && t'.pc.execution == t.pc.execution)
  }

  lemma UpdatedPairs(h: History, tasks: seq<Task>, i: nat, t': Task)
    requires i < |tasks| && HoldersUnique(h, tasks) && ExecutionsUnique(tasks)
    requires Descends(h, tasks[i], t')
    ensures HoldersUnique(h, tasks[i := t']) && ExecutionsUnique(tasks[i := t'])
  {
    var moved := tasks[i := t'];
    forall a, b | 0 <= a < b < |moved|
      ensures !Conflict(h, moved[a], moved[b]) && !SameExecution(moved[a], moved[b])
    {
      assert !Conflict(h, tasks[a], tasks[b]) && !SameExecution(tasks[a], tasks[b]);
    }
  }

  lemma MoveKeepsInv(s: Sys, i: nat, pc: Pc)
    requires Inv(s) && i < |s.tasks|
    requires TaskOk(s.h, s.tasks[i].(pc := pc)) && Descends(s.h, s.tasks[i], s.tasks[i].(pc := pc))
    ensures Inv(MoveTo(s, i, pc))
  {
    var t' := s.tasks[i].(pc := pc);
    UpdatedPairs(s.h, s.tasks, i, t');
    assert HasEntryLeft(s.h, s.tasks[i], s.entered, s.resumed);
    assert HasEntryLeft(s.h, t', s.entered, s.resumed);
  }

  // ----- writes -----

  /** A blind write of a secured version, whoever writes it and whenever it commits. */
  lemma WriteKeepsInv(s: Sys, r: WorkflowStatus)
    requires Inv(s) && MayBeWritten(s.h, s.rows, r)
    ensures Inv(Save(s, r))
  {
    var rows' := SaveWorkflow(s.rows, r);
    assert RowsAgree(s.h, rows');
    assert OwnedOrTerminal(s.h, rows');
    assert OutstandingSecured(s.h, rows', s.outstanding) && CancelsSecured(s.h, rows', s.cancels);
    forall i | 0 <= i < |s.promotions|
      ensures PromotionOk(s.h, rows', s.promotions[i])
    {
      assert PromotionOk(s.h, s.rows, s.promotions[i]);
    }
  }

  /** The writes that may still come change, and each of them is of a secured version. */
  lemma PlannedWritesKeepInv(s: Sys, outstanding: multiset<WorkflowStatus>, cancels: multiset<Cancel>, promoting: Option<WorkflowStatus>)
    requires Inv(s) && WritesSecured(s.h, s.rows, outstanding, cancels, promoting)
    ensures Inv(s.(outstanding := outstanding, cancels := cancels, promoting := promoting))
  {
  }

  /** A write attempt of a secured version that is not acknowledged. */
  lemma LostWriteKeepsInv(s: Sys, r: WorkflowStatus)
    requires Inv(s) && MayBeWritten(s.h, s.rows, r)
    ensures Inv(LeaveOutstanding(s, r))
  {
    PlannedWritesKeepInv(s, s.outstanding + multiset{r}, s.cancels, s.promoting);
  }

  /** A task whose write is acknowledged moves on. */
  lemma SaveAndMoveKeepsInv(s: Sys, i: nat, r: WorkflowStatus, pc: Pc)
    requires Inv(s) && MayBeWritten(s.h, s.rows, r) && i < |s.tasks|
    requires TaskOk(s.h, s.tasks[i].(pc := pc)) && Descends(s.h, s.tasks[i], s.tasks[i].(pc := pc))
    ensures Inv(MoveTo(Save(s, r), i, pc))
  {
    WriteKeepsInv(s, r);
    MoveKeepsInv(Save(s, r), i, pc);
  }

  /** A task whose write is not acknowledged moves on. */
  lemma LoseAndMoveKeepsInv(s: Sys, i: nat, r: WorkflowStatus, pc: Pc)
    requires Inv(s) && MayBeWritten(s.h, s.rows, r) && i < |s.tasks|
    requires TaskOk(s.h, s.tasks[i].(pc := pc)) && Descends(s.h, s.tasks[i], s.tasks[i].(pc := pc))
    ensures Inv(MoveTo(LeaveOutstanding(s, r), i, pc))
  {
    LostWriteKeepsInv(s, r);
    MoveKeepsInv(LeaveOutstanding(s, r), i, pc);
  }

  // ----- claims -----

  /** The history grows: known owners stay, and newly drawn ids never occurred before. */
  ghost predicate Grows(h: History, h': History) {
    && (forall w :: w in h.owner ==> w in h'.owner && h'.owner[w] == h.owner[w])
    && h.seen <= h'.seen
    && (forall e :: e in h.minted ==> e in h'.minted && h'.minted[e] == h.minted[e])
    && (forall e :: e in h'.minted && e in h.seen ==> e in h.minted)
  }

  lemma GrowthKeepsRows(h: History, h': History, s: Sys)
    requires RowInv(s) && s.h == h && Grows(h, h')
    ensures RowsAgree(h', s.rows) && WritesSecured(h', s.rows, s.outstanding, s.cancels, s.promoting)
  {
    forall r | Agrees(h, r)
      ensures Agrees(h', r)
    {
    }
  }

  lemma GrowthKeepsTask(h: History, h': History, t: Task)
    requires TaskOk(h, t) && Grows(h, h')
    ensures TaskOk(h', t)
  {
  }

  lemma MintKeepsInv(s: Sys, i: nat, execution: string)
    requires Inv(s) && i < |s.tasks| && s.tasks[i].pc.ToClaim? && execution !in s.h.seen
    ensures Inv(Mint(s, i, execution))
  {
    var s' := Mint(s, i, execution);
    assert Grows(s.h, s'.h);
    GrowthKeepsRows(s.h, s'.h, s);
    MintKeepsTasks(s, i, execution);
    forall a | 0 <= a < |s.promotions|
      ensures PromotionOk(s'.h, s'.rows, s'.promotions[a])
    {
      assert PromotionOk(s.h, s.rows, s.promotions[a]);
    }
  }

  lemma MintKeepsTasks(s: Sys, i: nat, execution: string)
    requires Inv(s) && i < |s.tasks| && s.tasks[i].pc.ToClaim? && execution !in s.h.seen
    ensures TaskInv(Mint(s, i, execution))
  {
    var s' := Mint(s, i, execution);
    assert Grows(s.h, s'.h);
    forall a | 0 <= a < |s.tasks| && a != i
      ensures TaskOk(s'.h, s.tasks[a])
      ensures HasEntryLeft(s'.h, s.tasks[a], s.entered, s.resumed)
    {
      assert TaskOk(s.h, s.tasks[a]) && HasEntryLeft(s.h, s.tasks[a], s.entered, s.resumed);
      GrowthKeepsTask(s.h, s'.h, s.tasks[a]);
    }
    forall a, b | 0 <= a < b < |s'.tasks|
      ensures !Conflict(s'.h, s'.tasks[a], s'.tasks[b]) && !SameExecution(s'.tasks[a], s'.tasks[b])
    {
      assert !Conflict(s.h, s.tasks[a], s.tasks[b]) && !SameExecution(s.tasks[a], s.tasks[b]);
      assert TaskOk(s.h, s.tasks[a]) && TaskOk(s.h, s.tasks[b]);
    }
  }

  /** The guarded update of a drawn execution id takes effect: the row was nobody's, and only the task that drew
      the id can find out. */
  lemma UpdateKeepsInv(s: Sys, execution: string, now: Time)
    requires Inv(s) && execution in s.h.minted
    ensures Inv(GuardedUpdate(s, s.h.minted[execution].0, s.h.minted[execution].1, execution, now))
  {
    var (w, executor) := s.h.minted[execution];
    if w in s.rows && Claimable(s.rows[w]) {
      var s' := GuardedUpdate(s, w, executor, execution, now);
      assert w !in s.h.owner;
      assert Grows(s.h, s'.h);
      UpdateKeepsTasks(s, w, executor, execution, now);
      UpdateKeepsRows(s, w, executor, execution, now);
      UpdateKeepsCounts(s, w, executor, execution, now);
    }
  }

  lemma UpdateKeepsCounts(s: Sys, w: string, executor: string, execution: string, now: Time)
    requires CountInv(s) && execution in s.h.minted && s.h.minted[execution] == (w, executor) && w !in s.h.owner
    ensures CountInv(GuardedUpdate(s, w, executor, execution, now))
  {
  }

  lemma UpdateKeepsRows(s: Sys, w: string, executor: string, execution: string, now: Time)
    requires RowInv(s) && HistoryOk(s.h) && execution in s.h.minted && s.h.minted[execution] == (w, executor)
    requires w in s.rows && Claimable(s.rows[w]) && w !in s.h.owner && Grows(s.h, GuardedUpdate(s, w, executor, execution, now).h)
    ensures RowInv(GuardedUpdate(s, w, executor, execution, now))
  {
    GrowthKeepsRows(s.h, GuardedUpdate(s, w, executor, execution, now).h, s);
    UpdateKeepsPromotions(s, w, executor, execution, now);
  }

  /** A row that is listed for promotion without an owner cannot be claimed. */
  lemma UpdateKeepsPromotions(s: Sys, w: string, executor: string, execution: string, now: Time)
    requires RowInv(s) && w in s.rows && Claimable(s.rows[w]) && w !in s.h.owner && Grows(s.h, GuardedUpdate(s, w, executor, execution, now).h)
    ensures var s' := GuardedUpdate(s, w, executor, execution, now); PromotionsOk(s'.h, s'.rows, s.promotions)
  {
    var s' := GuardedUpdate(s, w, executor, execution, now);
    forall a | 0 <= a < |s.promotions|
      ensures PromotionOk(s'.h, s'.rows, s.promotions[a])
    {
      assert PromotionOk(s.h, s.rows, s.promotions[a]);
    }
  }

  lemma UpdateKeepsTasks(s: Sys, w: string, executor: string, execution: string, now: Time)
    requires Inv(s) && execution in s.h.minted && s.h.minted[execution] == (w, executor)
    requires w in s.rows && Claimable(s.rows[w]) && w !in s.h.owner
    ensures TaskInv(GuardedUpdate(s, w, executor, execution, now))
  {
    var s' := GuardedUpdate(s, w, executor, execution, now);
    assert Grows(s.h, s'.h);
    assert s.entered[w] <= Allowance(s.h, s.resumed, w);
    forall a | 0 <= a < |s.tasks|
      ensures TaskOk(s'.h, s.tasks[a])
      ensures HasEntryLeft(s'.h, s.tasks[a], s.entered, s.resumed)
    {
      assert TaskOk(s.h, s.tasks[a]) && HasEntryLeft(s.h, s.tasks[a], s.entered, s.resumed);
      GrowthKeepsTask(s.h, s'.h, s.tasks[a]);
    }
    forall a, b | 0 <= a < b < |s'.tasks|
      ensures !Conflict(s'.h, s'.tasks[a], s'.tasks[b])
    {
      assert !Conflict(s.h, s.tasks[a], s.tasks[b]) && !SameExecution(s.tasks[a], s.tasks[b]);
      assert TaskOk(s.h, s.tasks[a]) && TaskOk(s.h, s.tasks[b]);
    }
  }

  lemma GrantKeepsInv(s: Sys, i: nat)
    requires Inv(s) && i < |s.tasks| && (s.tasks[i].pc.Claiming? || s.tasks[i].pc.Resolving?)
    requires Holder(s.h, s.tasks[i])
    ensures Inv(Grant(s, i, s.tasks[i].pc.execution))
  {
    assert TaskOk(s.h, s.tasks[i]);
    MoveKeepsInv(s, i, Granted);
    var s' := Grant(s, i, s.tasks[i].pc.execution);
    assert ToldOk(s'.h, s'.told);
  }

  lemma AckedKeepsInv(s: Sys, i: nat, now: Time)
    requires Inv(s) && i < |s.tasks| && s.tasks[i].pc.Claiming?
    ensures Inv(Acked(s, i, now))
  {
    var t := s.tasks[i];
    assert TaskOk(s.h, t);
    if t.workflow in s.rows && Claimable(s.rows[t.workflow]) {
      UpdateKeepsInv(s, t.pc.execution, now);
      GrantKeepsInv(GuardedUpdate(s, t.workflow, t.executor, t.pc.execution, now), i);
    } else {
      MoveKeepsInv(s, i, Resolving(t.pc.execution));
    }
  }

  /** The atomic claim is drawing an id and having the guarded update acknowledged, or giving up. */
  lemma ClaimAtomicKeepsInv(s: Sys, i: nat, execution: string, now: Time)
    requires Inv(s) && Enabled(s, ClaimAtomic(i, execution, now))
    ensures Inv(Step(s, ClaimAtomic(i, execution, now)))
  {
    var m := Mint(s, i, execution);
    MintKeepsInv(s, i, execution);
    var t := s.tasks[i];
    if t.workflow in s.rows {
      assert Agrees(s.h, s.rows[t.workflow]);
    }
    if t.workflow in s.rows && Claimable(s.rows[t.workflow]) {
      AckedKeepsInv(m, i, now);
      assert Step(s, ClaimAtomic(i, execution, now)) == Acked(m, i, now);
    } else {
      MoveKeepsInv(m, i, Done);
    }
  }

  // ----- new rows and new tasks -----

  /** A row is inserted under an id that had none. */
  ghost predicate FreshRow(s: Sys, row: WorkflowStatus) {
    && Inv(s) && row.id !in s.rows && row.id !in s.h.owner
    && (row.executionId.Some? ==> row.executionId.value !in s.h.minted)
  }

  lemma ArrivalKeepsTasks(s: Sys, row: WorkflowStatus)
    requires FreshRow(s, row)
    ensures TaskInv(s.(h := Arrived(s.h, row)))
  {
    var h' := Arrived(s.h, row);
    assert Grows(s.h, h');
    assert s.entered[row.id] <= Allowance(s.h, s.resumed, row.id);
    forall a | 0 <= a < |s.tasks|
      ensures TaskOk(h', s.tasks[a])
      ensures Holder(h', s.tasks[a]) ==> Holder(s.h, s.tasks[a])
      ensures HasEntryLeft(h', s.tasks[a], s.entered, s.resumed)
    {
      assert TaskOk(s.h, s.tasks[a]) && HasEntryLeft(s.h, s.tasks[a], s.entered, s.resumed);
      GrowthKeepsTask(s.h, h', s.tasks[a]);
    }
    forall a, b | 0 <= a < b < |s.tasks|
      ensures !Conflict(h', s.tasks[a], s.tasks[b])
    {
      assert !Conflict(s.h, s.tasks[a], s.tasks[b]);
    }
  }

  lemma ArrivalKeepsRows(s: Sys, row: WorkflowStatus)
    requires FreshRow(s, row)
    ensures RowInv(s.(rows := s.rows[row.id := row], h := Arrived(s.h, row)))
  {
    var h' := Arrived(s.h, row);
    assert Grows(s.h, h');
    GrowthKeepsRows(s.h, h', s);
    ArrivalAgrees(s, row);
    MoreRowsKeepWrites(h', s.rows, row, s.outstanding, s.cancels, s.promoting);
    ArrivalKeepsPromotions(s, row);
  }

  lemma ArrivalAgrees(s: Sys, row: WorkflowStatus)
    requires FreshRow(s, row) && RowsAgree(Arrived(s.h, row), s.rows)
    ensures RowsAgree(Arrived(s.h, row), s.rows[row.id := row]) && OwnedOrTerminal(Arrived(s.h, row), s.rows[row.id := row])
  {
    assert Agrees(Arrived(s.h, row), row);
  }

  lemma ArrivalKeepsPromotions(s: Sys, row: WorkflowStatus)
    requires FreshRow(s, row)
    ensures PromotionsOk(Arrived(s.h, row), s.rows[row.id := row], s.promotions)
  {
    forall a | 0 <= a < |s.promotions|
      ensures PromotionOk(Arrived(s.h, row), s.rows[row.id := row], s.promotions[a])
    {
      assert PromotionOk(s.h, s.rows, s.promotions[a]);
    }
  }

  lemma MoreRowsKeepWrites(h: History, rows: Rows, row: WorkflowStatus, outstanding: multiset<WorkflowStatus>, cancels: multiset<Cancel>,
                           promoting: Option<WorkflowStatus>)
    requires WritesSecured(h, rows, outstanding, cancels, promoting)
    ensures WritesSecured(h, rows[row.id := row], outstanding, cancels, promoting)
  {
  }

  lemma ArrivalKeepsCounts(s: Sys, row: WorkflowStatus)
    requires FreshRow(s, row)
    ensures CountInv(s.(h := Arrived(s.h, row)))
  {
    var h' := Arrived(s.h, row);
    forall w
      ensures s.entered[w] <= Allowance(h', s.resumed, w)
    {
      assert s.entered[w] <= Allowance(s.h, s.resumed, w);
    }
  }

  lemma InsertKeepsInv(s: Sys, row: WorkflowStatus, checkSlot: bool)
    requires Inv(s) && Enabled(s, Insert(row, checkSlot))
    ensures Inv(Step(s, Insert(row, checkSlot)))
  {
    if InsertWorkflow(s.rows, row, checkSlot).1 == Ok(Inserted) {
      ArrivalKeepsTasks(s, row);
      ArrivalKeepsRows(s, row);
      ArrivalKeepsCounts(s, row);
    }
  }

  lemma SpawnKeepsInv(s: Sys, workflow: string, executor: string)
    requires Inv(s)
    ensures Inv(Step(s, Spawn(workflow, executor)))
  {
    var s' := Step(s, Spawn(workflow, executor));
    forall a, b | 0 <= a < b < |s'.tasks|
      ensures !Conflict(s'.h, s'.tasks[a], s'.tasks[b]) && !SameExecution(s'.tasks[a], s'.tasks[b])
    {
      if b < |s.tasks| {
        assert !Conflict(s.h, s.tasks[a], s.tasks[b]) && !SameExecution(s.tasks[a], s.tasks[b]);
      }
    }
  }

  lemma CrashKeepsPairs(h: History, tasks: seq<Task>, executor: string)
    requires ExecutionsUnique(tasks) && HoldersUnique(h, tasks)
    ensures ExecutionsUnique(CrashTasks(tasks, executor)) && HoldersUnique(h, CrashTasks(tasks, executor))
  {
    var tasks' := CrashTasks(tasks, executor);
    forall a, b | 0 <= a < b < |tasks'|
      ensures !Conflict(h, tasks'[a], tasks'[b]) && !SameExecution(tasks'[a], tasks'[b])
    {
      assert !Conflict(h, tasks[a], tasks[b]) && !SameExecution(tasks[a], tasks[b]);
    }
  }

  lemma CrashKeepsInv(s: Sys, executor: string)
    requires Inv(s)
    ensures Inv(s.(tasks := CrashTasks(s.tasks, executor)))
  {
    var s' := s.(tasks := CrashTasks(s.tasks, executor));
    forall a | 0 <= a < |s'.tasks|
      ensures TaskOk(s'.h, s'.tasks[a]) && HasEntryLeft(s'.h, s'.tasks[a], s.entered, s.resumed)
    {
      assert TaskOk(s.h, s.tasks[a]) && HasEntryLeft(s.h, s.tasks[a], s.entered, s.resumed);
    }
    CrashKeepsPairs(s.h, s.tasks, executor);
  }

  // ----- recovery -----

  predicate Unclaimed(w: WorkflowStatus) {
    w.status == Pending && w.executorId.None?
  }

  predicate ClaimedByOneOf(w: WorkflowStatus, executorIds: seq<string>) {
    w.executorId.Some? && w.executorId.value in executorIds
  }

  ghost predicate DistinctWorkflows(tasks: seq<Task>) {
    forall i, j :: 0 <= i < j < |tasks| ==> tasks[i].workflow != tasks[j].workflow
  }

  /** The pass starts one task per pending unclaimed row, as a new start, one per row claimed by a listed
      executor, as a resumption, and nothing else. */
  lemma {:induction false} RecoveryTasksExact(listing: seq<WorkflowStatus>, executor: string, executorIds: seq<string>)
    requires DistinctIds(listing)
    ensures var ts := RecoveryTasks(listing, executor, executorIds);
            && DistinctWorkflows(ts)
            && (forall t :: t in ts <==>
                  && t.executor == executor && t.pc == Start
                  && exists w :: w in listing && w.id == t.workflow
                                 && if t.resume then ClaimedByOneOf(w, executorIds) else Unclaimed(w))
  {
    if listing != [] {
      RecoveryTasksExact(listing[1..], executor, executorIds);
      var w, rest := listing[0], RecoveryTasks(listing[1..], executor, executorIds);
      assert forall v :: v in listing[1..] ==> v.id != w.id;
      assert forall v :: v in listing <==> v == w || v in listing[1..];
      forall t | t in rest
        ensures t.workflow != w.id
      {
      }
    }
  }

  lemma {:induction false} OwnResumesExact(listing: seq<WorkflowStatus>, executor: string, executorIds: seq<string>)
    ensures forall w :: w in OwnResumes(listing, executor, executorIds) <==>
              exists r :: r in listing && r.id == w && r.executorId == Some(executor) && executor in executorIds
  {
    if listing != [] {
      OwnResumesExact(listing[1..], executor, executorIds);
      assert forall r :: r in listing <==> r == listing[0] || r in listing[1..];
    }
  }

  /** For a row that a pass restarts, the tasks that work on it are those that hold its workflow. */
  lemma HoldersWorkOnRow(s: Sys, w: string, t: Task, executor: string, executorIds: seq<string>)
    requires Inv(s) && w in s.rows && Restarts(s.rows[w], executor, executorIds)
    ensures WorksOn(s.rows[w], t) <==> t.workflow == w && Holder(s.h, t)
  {
    assert Agrees(s.h, s.rows[w]);
  }

  lemma RestartedAreFree(s: Sys, executor: string, executorIds: seq<string>, order: seq<string>)
    requires Inv(s) && Enumerates(order, s.rows) && Disciplined(s, Recover(executor, executorIds, order))
    ensures var restarts := OwnResumes(ListRows(RowsInOrder(s.rows, order), RecoveryOptions()), executor, executorIds);
            forall i :: 0 <= i < |s.tasks| && Holder(s.h, s.tasks[i]) ==> s.tasks[i].workflow !in restarts
  {
    var listing := ListRows(RowsInOrder(s.rows, order), RecoveryOptions());
    ListedRows(s.rows, order, RecoveryOptions());
    OwnResumesExact(listing, executor, executorIds);
    forall i | 0 <= i < |s.tasks| && Holder(s.h, s.tasks[i])
      ensures s.tasks[i].workflow !in OwnResumes(listing, executor, executorIds)
    {
      var w := s.tasks[i].workflow;
      if w in OwnResumes(listing, executor, executorIds) {
        var r :| r in listing && r.id == w && r.executorId == Some(executor) && executor in executorIds;
        HoldersWorkOnRow(s, w, s.tasks[i], executor, executorIds);
      }
    }
  }

  /** Recovery that restarts no workflow a live task works on. */
  lemma RecoverKeepsInv(s: Sys, executor: string, executorIds: seq<string>, order: seq<string>)
    requires Inv(s) && Enumerates(order, s.rows) && Disciplined(s, Recover(executor, executorIds, order))
    ensures Inv(Step(s, Recover(executor, executorIds, order)))
  {
    var s' := Step(s, Recover(executor, executorIds, order));
    var listing := ListRows(RowsInOrder(s.rows, order), RecoveryOptions());
    var added := RecoveryTasks(listing, executor, executorIds);
    ListedRows(s.rows, order, RecoveryOptions());
    RecoveryTasksExact(listing, executor, executorIds);
    OwnResumesExact(listing, executor, executorIds);
    forall t | t in added
      ensures TaskOk(s.h, t) && (t.resume ==> t.workflow in s.h.owner)
      ensures Holder(s.h, t) ==> t.workflow in OwnResumes(listing, executor, executorIds)
    {
      var w :| w in listing && w.id == t.workflow && if t.resume then ClaimedByOneOf(w, executorIds) else Unclaimed(w);
      assert Agrees(s.h, s.rows[w.id]);
    }
    RestartedAreFree(s, executor, executorIds, order);
    RecoverKeepsTasks(s, added, s'.resumed, OwnResumes(listing, executor, executorIds), executor);
    forall w
      ensures s.entered[w] <= Allowance(s.h, s'.resumed, w)
    {
      assert s.entered[w] <= Allowance(s.h, s.resumed, w);
    }
    forall w | w in s'.resumed
      ensures w in s.h.owner
    {
      if w !in s.resumed {
        var r :| r in listing && r.id == w && r.executorId == Some(executor);
        assert Agrees(s.h, s.rows[w]);
      }
    }
  }

  lemma RecoverKeepsTasks(s: Sys, added: seq<Task>, resumed': multiset<string>, restarts: multiset<string>, executor: string)
    requires Inv(s)
    requires forall i :: 0 <= i < |s.tasks| && Holder(s.h, s.tasks[i]) ==> s.tasks[i].workflow !in restarts
    requires DistinctWorkflows(added) && resumed' == s.resumed + restarts
    requires forall t :: t in added ==>
               && TaskOk(s.h, t) && t.executor == executor && t.pc == Start
               && (Holder(s.h, t) ==> t.workflow in restarts)
    ensures TaskInv(s.(tasks := s.tasks + added, resumed := resumed'))
  {
    var all := s.tasks + added;
    forall a | 0 <= a < |all|
      ensures TaskOk(s.h, all[a]) && HasEntryLeft(s.h, all[a], s.entered, resumed')
    {
      if a < |s.tasks| {
        assert HasEntryLeft(s.h, s.tasks[a], s.entered, s.resumed);
      } else {
        assert all[a] in added;
        assert s.entered[all[a].workflow] <= Allowance(s.h, s.resumed, all[a].workflow);
      }
    }
    forall a, b | 0 <= a < b < |all|
      ensures !Conflict(s.h, all[a], all[b]) && !SameExecution(all[a], all[b])
    {
      if b < |s.tasks| {
        assert !Conflict(s.h, s.tasks[a], s.tasks[b]) && !SameExecution(s.tasks[a], s.tasks[b]);
      } else {
        assert all[b] in added;
        if a >= |s.tasks| {
          assert added[a - |s.tasks|].workflow != added[b - |s.tasks|].workflow;
        }
      }
    }
  }

  // ----- the remaining steps -----

  lemma ReadKeepsInv(s: Sys, i: nat)
    requires Inv(s) && Enabled(s, Read(i))
    ensures Inv(MoveTo(s, i, AfterRead(GetWorkflow(s.rows, s.tasks[i].workflow), s.tasks[i].executor, s.tasks[i].resume)))
  {
    var t := s.tasks[i];
    assert TaskOk(s.h, t);
    if t.workflow in s.rows {
      assert Agrees(s.h, s.rows[t.workflow]);
    }
    MoveKeepsInv(s, i, AfterRead(GetWorkflow(s.rows, t.workflow), t.executor, t.resume));
  }

  lemma RereadKeepsInv(s: Sys, i: nat)
    requires Inv(s) && Enabled(s, Reread(i))
    ensures Inv(MoveTo(s, i, AfterReread(GetWorkflow(s.rows, s.tasks[i].workflow))))
  {
    var t := s.tasks[i];
    assert TaskOk(s.h, t);
    if t.workflow in s.rows {
      assert Agrees(s.h, s.rows[t.workflow]);
    }
    MoveKeepsInv(s, i, AfterReread(GetWorkflow(s.rows, t.workflow)));
  }

  lemma FinalReadKeepsInv(s: Sys, i: nat, outcome: Outcome, now: Time)
    requires Inv(s) && Enabled(s, FinalRead(i, outcome, now))
    ensures Inv(MoveTo(s, i, AfterRun(GetWorkflow(s.rows, s.tasks[i].workflow), outcome, now)))
  {
    var t := s.tasks[i];
    assert TaskOk(s.h, t);
    if t.workflow in s.rows {
      assert Agrees(s.h, s.rows[t.workflow]);
    }
    MoveKeepsInv(s, i, AfterRun(GetWorkflow(s.rows, t.workflow), outcome, now));
  }

  lemma SavePendingKeepsInv(s: Sys, i: nat, now: Time)
    requires Inv(s) && Enabled(s, SavePending(i, now))
    ensures Inv(MoveTo(Save(s, PendingCopy(s.tasks[i].pc.copy, now)), i, Ready))
  {
    assert TaskOk(s.h, s.tasks[i]);
    SaveAndMoveKeepsInv(s, i, PendingCopy(s.tasks[i].pc.copy, now), Ready);
  }

  lemma SaveFinalKeepsInv(s: Sys, i: nat)
    requires Inv(s) && Enabled(s, SaveFinal(i))
    ensures Inv(MoveTo(Save(s, s.tasks[i].pc.copy), i, Done))
  {
    assert TaskOk(s.h, s.tasks[i]);
    SaveAndMoveKeepsInv(s, i, s.tasks[i].pc.copy, Done);
  }

  /** A save attempt whose acknowledgement is lost: the version may still be written later, and is tried again. */
  lemma SaveLostKeepsInv(s: Sys, i: nat, now: Time)
    requires Inv(s) && Enabled(s, SaveLost(i, now))
    ensures var row := RowToSave(s.tasks[i].pc, now); Inv(MoveTo(LeaveOutstanding(s, row), i, Resaving(row, s.tasks[i].pc.ToFinish?)))
  {
    assert TaskOk(s.h, s.tasks[i]);
    var r := RowToSave(s.tasks[i].pc, now);
    LoseAndMoveKeepsInv(s, i, r, Resaving(r, s.tasks[i].pc.ToFinish?));
  }

  /** The second attempt. */
  lemma SaveAgainKeepsInv(s: Sys, i: nat)
    requires Inv(s) && Enabled(s, SaveAgain(i))
    ensures Inv(MoveTo(Save(s, s.tasks[i].pc.row), i, if s.tasks[i].pc.final then Done else Ready))
  {
    assert TaskOk(s.h, s.tasks[i]);
    SaveAndMoveKeepsInv(s, i, s.tasks[i].pc.row, if s.tasks[i].pc.final then Done else Ready);
  }

  lemma SaveFailsKeepsInv(s: Sys, i: nat)
    requires Inv(s) && Enabled(s, SaveFails(i))
    ensures Inv(MoveTo(LeaveOutstanding(s, s.tasks[i].pc.row), i, Done))
  {
    assert TaskOk(s.h, s.tasks[i]);
    LoseAndMoveKeepsInv(s, i, s.tasks[i].pc.row, Done);
  }

  lemma FewerPromotionsKeepInv(s: Sys, promotions: seq<WorkflowStatus>)
    requires Inv(s) && (promotions == [] || (s.promotions != [] && promotions == s.promotions[1..]))
    ensures Inv(s.(promotions := promotions))
  {
    forall i | 0 <= i < |promotions|
      ensures PromotionOk(s.h, s.rows, promotions[i])
    {
      assert PromotionOk(s.h, s.rows, s.promotions[i + 1]);
    }
  }

  lemma PromoteLostKeepsInv(s: Sys, now: Time)
    requires Inv(s) && Enabled(s, PromoteLost(now)) && Disciplined(s, PromoteLost(now))
    ensures Inv(Step(s, PromoteLost(now)))
  {
    assert PromotionOk(s.h, s.rows, s.promotions[0]);
    var r := PromotedCopy(s.promotions[0], now);
    PlannedWritesKeepInv(s, s.outstanding + multiset{r}, s.cancels, Some(r));
  }

  /** The second attempt of a promotion, and giving up. */
  lemma PromoteAgainKeepsInv(s: Sys)
    requires Inv(s) && Enabled(s, PromoteAgain)
    ensures Inv(Step(s, PromoteAgain))
  {
    var r := s.promoting.value;
    var t := s.(promoting := None);
    PlannedWritesKeepInv(s, s.outstanding, s.cancels, None);
    WriteKeepsInv(t, r);
    FewerPromotionsKeepInv(Save(t, r), s.promotions[1..]);
    assert Step(s, PromoteAgain) == Save(t, r).(promotions := s.promotions[1..]);
  }

  lemma AbandonKeepsInv(s: Sys)
    requires Inv(s)
    ensures Inv(Step(s, AbandonPromotions))
  {
    PlannedWritesKeepInv(s, s.outstanding, s.cancels, None);
    FewerPromotionsKeepInv(s.(promoting := None), []);
    assert Step(s, AbandonPromotions) == s.(promoting := None).(promotions := []);
  }

  lemma PromoteFailsKeepsInv(s: Sys)
    requires Inv(s) && Enabled(s, PromoteFails)
    ensures Inv(Step(s, PromoteFails))
  {
    LostWriteKeepsInv(s, s.promoting.value);
    AbandonKeepsInv(LeaveOutstanding(s, s.promoting.value));
  }

  /** Entering the body uses up the entry that the waiting holder had left; nobody else waits for the workflow. */
  lemma EnterKeepsInv(s: Sys, i: nat)
    requires Inv(s) && Enabled(s, Enter(i))
    ensures Inv(Step(s, Enter(i)))
  {
    var s' := Step(s, Enter(i));
    var w := s.tasks[i].workflow;
    assert TaskOk(s.h, s.tasks[i]) && HasEntryLeft(s.h, s.tasks[i], s.entered, s.resumed);
    UpdatedPairs(s.h, s.tasks, i, s'.tasks[i]);
    forall v
      ensures s'.entered[v] <= Allowance(s.h, s.resumed, v)
    {
      assert s.entered[v] <= Allowance(s.h, s.resumed, v);
    }
    forall a | 0 <= a < |s.tasks|
      ensures HasEntryLeft(s.h, s'.tasks[a], s'.entered, s.resumed)
    {
      assert HasEntryLeft(s.h, s.tasks[a], s.entered, s.resumed);
      if a < i {
        assert !Conflict(s.h, s.tasks[a], s.tasks[i]);
      } else if a > i {
        assert !Conflict(s.h, s.tasks[i], s.tasks[a]);
      }
    }
  }

  lemma ListDelayedKeepsInv(s: Sys, order: seq<string>, now: Time)
    requires Inv(s) && Enabled(s, ListDelayed(order, now))
    ensures Inv(s.(promotions := Promotions(s.rows, order, now)))
  {
    DelayedRowsListed(s.rows, order, now);
    var listed := Promotions(s.rows, order, now);
    forall i | 0 <= i < |listed|
      ensures PromotionOk(s.h, s.rows, listed[i])
    {
      assert Agrees(s.h, s.rows[listed[i].id]);
    }
    assert PromotionsOk(s.h, s.rows, listed);
  }

  lemma DelayedRowsListed(rows: Rows, order: seq<string>, now: Time)
    requires Enumerates(order, rows) && forall id :: id in rows ==> rows[id].id == id
    ensures var listed := Promotions(rows, order, now);
            && (forall i :: 0 <= i < |listed| ==> listed[i].id in rows && rows[listed[i].id] == listed[i] && Due(listed[i], now))
            && (forall i, j :: 0 <= i < j < |listed| ==> listed[i].id != listed[j].id)
  {
    var all := RowsInOrder(rows, order);
    var listed := Promotions(rows, order, now);
    FilterMembers(all, DueAt(now));
    FilterDistinct(all, DueAt(now));
    forall i | 0 <= i < |listed|
      ensures listed[i].id in rows && rows[listed[i].id] == listed[i] && Due(listed[i], now)
    {
      assert listed[i] in listed;
      var j :| 0 <= j < |all| && all[j] == listed[i];
      assert all[j] == rows[order[j]];
    }
  }

  /** Promoting a listed row: it is either owned, or still nobody's because nothing could claim it meanwhile. */
  lemma PromoteKeepsInv(s: Sys, now: Time)
    requires Inv(s) && Enabled(s, Promote(now))
    ensures Inv(Save(s, PromotedCopy(s.promotions[0], now)).(promotions := s.promotions[1..]))
  {
    var r := PromotedCopy(s.promotions[0], now);
    var s' := Save(s, r).(promotions := s.promotions[1..]);
    assert PromotionOk(s.h, s.rows, s.promotions[0]);
    assert RowsAgree(s.h, s'.rows);
    assert OwnedOrTerminal(s.h, s'.rows);
    assert OutstandingSecured(s.h, s'.rows, s'.outstanding) && CancelsSecured(s.h, s'.rows, s'.cancels);
    forall i | 0 <= i < |s'.promotions|
      ensures PromotionOk(s.h, s'.rows, s'.promotions[i])
    {
      assert PromotionOk(s.h, s.rows, s.promotions[i + 1]);
      assert s.promotions[0].id != s.promotions[i + 1].id;
    }
  }

  lemma CancelReadKeepsInv(s: Sys, workflow: string, now: Time)
    requires Inv(s) && Enabled(s, CancelRead(workflow, now))
    ensures Inv(Step(s, CancelRead(workflow, now)))
  {
    assert Agrees(s.h, s.rows[workflow]);
    PlannedWritesKeepInv(s, s.outstanding, s.cancels + multiset{Cancel(CancelledCopy(s.rows[workflow], now), false)}, s.promoting);
  }

  /** A cancel writes, loses an acknowledgement, or stops. */
  lemma CancelAckedKeepsInv(s: Sys, c: Cancel)
    requires Inv(s) && c in s.cancels
    ensures Inv(Step(s, CancelAcked(c)))
  {
    assert MayBeWritten(s.h, s.rows, c.row);
    var t := s.(cancels := s.cancels - multiset{c});
    CancelStopsKeepsInv(s, c);
    WriteKeepsInv(t, c.row);
    assert Step(s, CancelAcked(c)) == Save(t, c.row);
  }

  lemma CancelStopsKeepsInv(s: Sys, c: Cancel)
    requires Inv(s) && c in s.cancels
    ensures Inv(Step(s, CancelStops(c)))
  {
    PlannedWritesKeepInv(s, s.outstanding, s.cancels - multiset{c}, s.promoting);
  }

  lemma CancelLostKeepsInv(s: Sys, c: Cancel)
    requires Inv(s) && c in s.cancels
    ensures Inv(Step(s, CancelLost(c)))
  {
    assert MayBeWritten(s.h, s.rows, c.row);
    var cancels := s.cancels - multiset{c} + if c.retried then multiset{} else multiset{Cancel(c.row, true)};
    PlannedWritesKeepInv(s, s.outstanding + multiset{c.row}, cancels, s.promoting);
    assert Step(s, CancelLost(c)) == s.(outstanding := s.outstanding + multiset{c.row}, cancels := cancels, promoting := s.promoting);
  }

  lemma LateWriteKeepsInv(s: Sys, r: WorkflowStatus)
    requires Inv(s) && r in s.outstanding
    ensures Inv(Step(s, Write(r)))
  {
    assert MayBeWritten(s.h, s.rows, r);
    var t := s.(outstanding := s.outstanding - multiset{r});
    PlannedWritesKeepInv(s, t.outstanding, s.cancels, s.promoting);
    WriteKeepsInv(t, r);
    assert Step(s, Write(r)) == Save(t, r);
  }

  lemma ClaimStepsKeepInv(s: Sys, e: Event)
    requires Inv(s) && Enabled(s, e)
    requires e.ClaimLost? || e.ClaimResolve? || e.LateCommit?
    ensures Inv(Step(s, e))
  {
    match e
    case ClaimLost(i) =>
      assert TaskOk(s.h, s.tasks[i]);
      var pc := s.tasks[i].pc;
      MoveKeepsInv(s.(inFlight := s.inFlight + {pc.execution}), i,
                   if pc.attempt == 0 then Claiming(pc.execution, 1) else Resolving(pc.execution));
    case ClaimResolve(i) =>
      var t := s.tasks[i];
      assert TaskOk(s.h, t);
      if t.workflow in s.rows && s.rows[t.workflow].executionId == Some(t.pc.execution) {
        assert Agrees(s.h, s.rows[t.workflow]);
        GrantKeepsInv(s, i);
      } else {
        MoveKeepsInv(s, i, Done);
      }
    case LateCommit(execution, now) => UpdateKeepsInv(s, execution, now);
  }

  predicate IsTaskStep(e: Event) {
    || e.Read? || e.ClaimAtomic? || e.ClaimBegin? || e.ClaimAcked? || e.ClaimLost? || e.ClaimResolve? || e.Reread? || e.SavePending?
    || e.Enter? || e.FinalRead? || e.SaveFinal? || e.SaveLost? || e.SaveAgain? || e.SaveFails? || e.Stop?
  }

  lemma TaskStepsKeepInv(s: Sys, e: Event)
    requires Inv(s) && Enabled(s, e) && IsTaskStep(e)
    ensures Inv(Step(s, e))
  {
    match e
    case Read(i) => ReadKeepsInv(s, i);
    case ClaimAtomic(i, execution, now) => ClaimAtomicKeepsInv(s, i, execution, now);
    case ClaimBegin(i, execution) => MintKeepsInv(s, i, execution);
    case ClaimAcked(i, now) => AckedKeepsInv(s, i, now);
    case ClaimLost(_) => ClaimStepsKeepInv(s, e);
    case ClaimResolve(_) => ClaimStepsKeepInv(s, e);
    case Reread(i) => RereadKeepsInv(s, i);
    case SavePending(i, now) => SavePendingKeepsInv(s, i, now);
    case Enter(i) => EnterKeepsInv(s, i);
    case FinalRead(i, outcome, now) => FinalReadKeepsInv(s, i, outcome, now);
    case SaveFinal(i) => SaveFinalKeepsInv(s, i);
    case SaveLost(i, now) => SaveLostKeepsInv(s, i, now);
    case SaveAgain(i) => SaveAgainKeepsInv(s, i);
    case SaveFails(i) => SaveFailsKeepsInv(s, i);
    case Stop(i) => MoveKeepsInv(s, i, Done);
  }

  /** Every step of every participant keeps the invariant. */
  lemma StepKeepsInv(s: Sys, e: Event)
    requires Inv(s) && Enabled(s, e) && Disciplined(s, e)
    ensures Inv(Step(s, e))
  {
    if IsTaskStep(e) {
      TaskStepsKeepInv(s, e);
    } else if IsCancelStep(e) {
      CancelStepsKeepInv(s, e);
    } else if IsSupervisorStep(e) {
      SupervisorStepsKeepInv(s, e);
    } else {
      PopulationStepsKeepInv(s, e);
    }
  }

  lemma PopulationStepsKeepInv(s: Sys, e: Event)
    requires Inv(s) && Enabled(s, e) && Disciplined(s, e) && !IsTaskStep(e) && !IsCancelStep(e) && !IsSupervisorStep(e)
    ensures Inv(Step(s, e))
  {
    match e
    case Insert(row, checkSlot) => InsertKeepsInv(s, row, checkSlot);
    case Spawn(workflow, executor) => SpawnKeepsInv(s, workflow, executor);
    case LateCommit(_, _) => ClaimStepsKeepInv(s, e);
    case Write(row) => LateWriteKeepsInv(s, row);
    case Crash(executor) => CrashKeepsInv(s, executor);
    case Recover(executor, executorIds, order) => RecoverKeepsInv(s, executor, executorIds, order);
  }

  predicate IsCancelStep(e: Event) {
    e.CancelRead? || e.CancelAcked? || e.CancelLost? || e.CancelStops?
  }

  predicate IsSupervisorStep(e: Event) {
    e.ListDelayed? || e.Promote? || e.PromoteLost? || e.PromoteAgain? || e.PromoteFails? || e.AbandonPromotions?
  }

  lemma CancelStepsKeepInv(s: Sys, e: Event)
    requires Inv(s) && Enabled(s, e) && IsCancelStep(e)
    ensures Inv(Step(s, e))
  {
    if e.CancelAcked? {
      CancelAckedKeepsInv(s, e.cancel);
    } else if e.CancelLost? {
      CancelLostKeepsInv(s, e.cancel);
    } else {
      CancelsComeAndGo(s, e);
    }
  }

  lemma CancelsComeAndGo(s: Sys, e: Event)
    requires Inv(s) && Enabled(s, e) && (e.CancelRead? || e.CancelStops?)
    ensures Inv(Step(s, e))
  {
    match e
    case CancelRead(workflow, now) => CancelReadKeepsInv(s, workflow, now);
    case CancelStops(c) => CancelStopsKeepsInv(s, c);
  }

  lemma SupervisorStepsKeepInv(s: Sys, e: Event)
    requires Inv(s) && Enabled(s, e) && Disciplined(s, e) && IsSupervisorStep(e)
    ensures Inv(Step(s, e))
  {
    if e.PromoteLost? {
      PromoteLostKeepsInv(s, e.now);
    } else if e.PromoteAgain? || e.PromoteFails? {
      SecondAttemptKeepsInv(s, e);
    } else if e.Promote? {
      PromoteKeepsInv(s, e.now);
    } else {
      ListingsKeepInv(s, e);
    }
  }

  lemma SecondAttemptKeepsInv(s: Sys, e: Event)
    requires Inv(s) && Enabled(s, e) && (e.PromoteAgain? || e.PromoteFails?)
    ensures Inv(Step(s, e))
  {
    match e
    case PromoteAgain => PromoteAgainKeepsInv(s);
    case PromoteFails => PromoteFailsKeepsInv(s);
  }

  lemma ListingsKeepInv(s: Sys, e: Event)
    requires Inv(s) && Enabled(s, e) && (e.ListDelayed? || e.AbandonPromotions?)
    ensures Inv(Step(s, e))
  {
    match e
    case ListDelayed(order, now) => ListDelayedKeepsInv(s, order, now);
    case AbandonPromotions => AbandonKeepsInv(s);
  }

  // ----- theorems about whole runs -----

  lemma {:induction false} RunKeepsInv(s: Sys, events: seq<Event>)
    requires Inv(s) && IsDisciplinedRun(s, events)
    ensures IsRun(s, events) && Inv(After(s, events))
    decreases |events|
  {
    if events != [] {
      StepKeepsInv(s, events[0]);
      RunKeepsInv(Step(s, events[0]), events[1..]);
    }
  }

  lemma InitInv()
    ensures Inv(INIT)
  {
  }

  /** The row of the task's workflow is terminal or owned by the task's executor. */
  predicate RowIsItsOwn(s: Sys, t: Task) {
    t.workflow in s.rows && (s.rows[t.workflow].status.IsTerminal() || s.rows[t.workflow].executorId == Some(t.executor))
  }

  /** At most one live task is past the claim of a workflow, and it runs on the owner. */
  ghost predicate Exclusive(s: Sys) {
    && (forall i :: 0 <= i < |s.tasks| && PastClaim(s.tasks[i]) ==> RowIsItsOwn(s, s.tasks[i]))
    && (forall i, j :: 0 <= i < j < |s.tasks| && PastClaim(s.tasks[i]) && PastClaim(s.tasks[j]) ==> s.tasks[i].workflow != s.tasks[j].workflow)
  }

  lemma InvImpliesExclusive(s: Sys)
    requires Inv(s)
    ensures Exclusive(s)
  {
    forall i | 0 <= i < |s.tasks| && PastClaim(s.tasks[i])
      ensures RowIsItsOwn(s, s.tasks[i])
    {
      assert TaskOk(s.h, s.tasks[i]);
      var w := s.tasks[i].workflow;
      assert Settled(s.rows[w]) && Agrees(s.h, s.rows[w]);
    }
    forall i, j | 0 <= i < j < |s.tasks| && PastClaim(s.tasks[i]) && PastClaim(s.tasks[j])
      ensures s.tasks[i].workflow != s.tasks[j].workflow
    {
      assert !Conflict(s.h, s.tasks[i], s.tasks[j]);
    }
  }

  /** Exclusive execution in every reachable state of every run. */
  lemma ExclusiveExecution(events: seq<Event>)
    requires IsDisciplinedRun(INIT, events)
    ensures IsRun(INIT, events) && Exclusive(After(INIT, events))
  {
    InitInv();
    RunKeepsInv(INIT, events);
    InvImpliesExclusive(After(INIT, events));
  }

  /** The body of a workflow is entered at most once, plus once for every recovery by its owner. */
  lemma BodyEntriesBounded(events: seq<Event>, w: string)
    requires IsDisciplinedRun(INIT, events)
    ensures IsRun(INIT, events)
    ensures var s := After(INIT, events); s.entered[w] <= 1 + s.resumed[w]
  {
    InitInv();
    RunKeepsInv(INIT, events);
    var s := After(INIT, events);
    assert s.entered[w] <= Allowance(s.h, s.resumed, w);
  }

  lemma {:induction false} NoRecoveryNoResumption(s: Sys, events: seq<Event>)
    requires IsRun(s, events) && s.resumed == multiset{}
    requires forall e :: e in events ==> !e.Recover?
    ensures After(s, events).resumed == multiset{}
    decreases |events|
  {
    if events != [] {
      assert events[0] in events;
      NoRecoveryNoResumption(Step(s, events[0]), events[1..]);
    }
  }

  /** Without recovery passes the body of a workflow is entered at most once, whatever else interleaves:
      stale cancels, exact re-inserts, lost acknowledgements, crashes, delayed promotion by one supervisor. */
  lemma BodyEnteredAtMostOnce(events: seq<Event>, w: string)
    requires IsDisciplinedRun(INIT, events) && forall e :: e in events ==> !e.Recover?
    ensures IsRun(INIT, events) && After(INIT, events).entered[w] <= 1
  {
    BodyEntriesBounded(events, w);
    NoRecoveryNoResumption(INIT, events);
  }

  /** At most one execution id is ever told that it has the workflow. */
  lemma OneExecutionIsTold(events: seq<Event>, w: string, e1: string, e2: string)
    requires IsDisciplinedRun(INIT, events)
    ensures IsRun(INIT, events)
    ensures var s := After(INIT, events); (w, e1) in s.told && (w, e2) in s.told ==> e1 == e2
  {
    InitInv();
    RunKeepsInv(INIT, events);
  }

  /** `added` holds exactly one task for each pending unclaimed row and for each pending or enqueued row claimed
      by a listed executor, and no other task. */
  ghost predicate StartsTheUnfinished(rows: Rows, added: seq<Task>, executor: string, executorIds: seq<string>) {
    DistinctWorkflows(added) && forall t :: t in added <==> ShouldStart(rows, t, executor, executorIds)
  }

  predicate ShouldStart(rows: Rows, t: Task, executor: string, executorIds: seq<string>) {
    && t.executor == executor && t.pc == Start && t.workflow in rows
    && (rows[t.workflow].status == Pending || rows[t.workflow].status == Enqueued)
    && (if t.resume then ClaimedByOneOf(rows[t.workflow], executorIds) else Unclaimed(rows[t.workflow]))
  }

  /** What a recovery pass starts in any reachable state. */
  lemma RecoveryStartsTheUnfinished(events: seq<Event>, executor: string, executorIds: seq<string>, order: seq<string>)
    requires IsDisciplinedRun(INIT, events)
    requires IsRun(INIT, events) && Enumerates(order, After(INIT, events).rows)
    ensures var s := After(INIT, events);
            var s' := Step(s, Recover(executor, executorIds, order));
            s.tasks <= s'.tasks && StartsTheUnfinished(s.rows, s'.tasks[|s.tasks|..], executor, executorIds)
  {
    InitInv();
    RunKeepsInv(INIT, events);
    PassStartsTheUnfinished(After(INIT, events), executor, executorIds, order);
  }

  lemma PassStartsTheUnfinished(s: Sys, executor: string, executorIds: seq<string>, order: seq<string>)
    requires Inv(s) && Enumerates(order, s.rows)
    ensures var s' := Step(s, Recover(executor, executorIds, order));
            s.tasks <= s'.tasks && StartsTheUnfinished(s.rows, s'.tasks[|s.tasks|..], executor, executorIds)
  {
    var listing := ListRows(RowsInOrder(s.rows, order), RecoveryOptions());
    ListedRows(s.rows, order, RecoveryOptions());
    var added := RecoveryTasks(listing, executor, executorIds);
    assert (s.tasks + added)[|s.tasks|..] == added;
    PlanStartsTheUnfinished(s.rows, listing, executor, executorIds);
  }

  lemma PlanStartsTheUnfinished(rows: Rows, listing: seq<WorkflowStatus>, executor: string, executorIds: seq<string>)
    requires DistinctIds(listing)
    requires forall w :: w in rows ==> rows[w].id == w
    requires forall r: WorkflowStatus :: r in listing <==> r.id in rows && rows[r.id] == r && WorkflowMatches(r, RecoveryOptions())
    ensures StartsTheUnfinished(rows, RecoveryTasks(listing, executor, executorIds), executor, executorIds)
  {
    RecoveryTasksExact(listing, executor, executorIds);
    var added := RecoveryTasks(listing, executor, executorIds);
    forall t: Task
      ensures t in added <==> ShouldStart(rows, t, executor, executorIds)
    {
      if t.workflow in rows {
        var w := rows[t.workflow];
        assert w in listing <==> w.status == Pending || w.status == Enqueued;
      }
    }
  }
}
