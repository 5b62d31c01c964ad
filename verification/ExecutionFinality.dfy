/** When a terminal status is final: the exact condition over all interleavings, read off the state. */
module ExecutionFinality {
  import opened Types
  import opened Sequences
  import opened StoreSpec
  import opened Listing
  import opened Execution
  import opened ExecutionSafety
  import opened ExecutionRuns

  /** Rows sit under their own ids, tasks hold copies of their own workflow's row, finished where they are the
      result, and the supervisor's second attempt is at its first promotion. */
  ghost predicate IdsMatch(s: Sys) {
    && RowsMatch(s.rows)
    && (forall i :: 0 <= i < |s.tasks| ==> HoldsOwnCopy(s.tasks[i]))
    && PromotingMatches(s.promotions, s.promoting)
  }

  ghost predicate RowsMatch(rows: Rows) {
    forall w :: w in rows ==> rows[w].id == w
  }

  predicate HoldsOwnCopy(t: Task) {
    && (t.pc.ToSave? || t.pc.ToFinish? ==> t.pc.copy.id == t.workflow)
    && (t.pc.ToFinish? ==> t.pc.copy.status.IsTerminal())
    && (t.pc.Resaving? ==> t.pc.row.id == t.workflow)
  }

  predicate PromotingMatches(promotions: seq<WorkflowStatus>, promoting: Option<WorkflowStatus>) {
    promoting.Some? ==> promotions != [] && promoting.value.id == promotions[0].id && promoting.value.status == Enqueued
  }

  predicate HasStatus(s: Sys, w: string, st: WorkflowStatusType) {
    w in s.rows && s.rows[w].status == st
  }

  /** Whatever happens from here on, the workflow keeps the status. */
  ghost predicate IsFinal(s: Sys, w: string, st: WorkflowStatusType) {
    forall events :: IsRun(s, events) ==> HasStatus(After(s, events), w, st)
  }

  /** The task will not give the workflow another status: it is not about to save it, for the first or the second
      time, with another status, and it is not about to run the body or running it unless the workflow is cancelled. */
  predicate TaskLeaves(t: Task, w: string, st: WorkflowStatusType) {
    t.workflow == w ==>
      match t.pc
      case ToSave(_) => false
      case ToFinish(copy) => copy.status == st
      case Resaving(row, final) => row.status == st && (final || st == Cancelled)
      case Ready => st == Cancelled
      case Running => st == Cancelled
      case _ => true
  }

  ghost predicate TasksLeave(s: Sys, w: string, st: WorkflowStatusType) {
    forall i :: 0 <= i < |s.tasks| ==> TaskLeaves(s.tasks[i], w, st)
  }

  ghost predicate OutstandingLeave(s: Sys, w: string, st: WorkflowStatusType) {
    forall r :: r in s.outstanding && r.id == w ==> r.status == st
  }

  ghost predicate CancelsLeave(s: Sys, w: string, st: WorkflowStatusType) {
    forall c :: c in s.cancels && c.row.id == w ==> c.row.status == st
  }

  ghost predicate PromotionsLeave(s: Sys, w: string) {
    forall i :: 0 <= i < |s.promotions| ==> s.promotions[i].id != w
  }

  /** No task, no write whose fate is unknown, no cancel under way and no pending promotion can give the workflow a
      status other than `st`. */
  ghost predicate Steady(s: Sys, w: string, st: WorkflowStatusType) {
    TasksLeave(s, w, st) && OutstandingLeave(s, w, st) && CancelsLeave(s, w, st) && PromotionsLeave(s, w)
  }

  ghost predicate Resting(s: Sys, w: string, st: WorkflowStatusType) {
    IdsMatch(s) && HasStatus(s, w, st) && st.IsTerminal() && Steady(s, w, st)
  }

  // ----- ids keep matching -----

  lemma StepKeepsIds(s: Sys, e: Event)
    requires IdsMatch(s) && Enabled(s, e)
    ensures IdsMatch(Step(s, e))
  {
    if IsPopulationStep(e) {
      PopulationKeepsIds(s, e);
    } else if IsClaimStep(e) {
      ClaimKeepsIds(s, e);
    } else if IsMoveStep(e) || IsSaveStep(e) {
      TaskKeepsIds(s, e);
    } else if IsSupervisorStep(e) {
      SupervisorKeepsIds(s, e);
    } else if e.CancelAcked? || e.Write? {
      LateWriteKeepsIds(s, e);
    } else {
      CancelKeepsIds(s, e);
    }
  }

  predicate IsClaimStep(e: Event) {
    e.ClaimAtomic? || e.ClaimBegin? || e.ClaimAcked? || e.ClaimLost? || e.ClaimResolve? || e.LateCommit?
  }

  /** A task moves on without writing. */
  predicate IsMoveStep(e: Event) {
    e.Read? || e.Reread? || e.Enter? || e.FinalRead? || e.Stop?
  }

  predicate IsSaveStep(e: Event) {
    e.SavePending? || e.SaveFinal? || e.SaveLost? || e.SaveAgain? || e.SaveFails?
  }

  predicate IsLostSave(e: Event) {
    e.SaveLost? || e.SaveFails?
  }

  predicate IsPopulationStep(e: Event) {
    e.Insert? || e.Spawn? || e.Crash? || e.Recover?
  }

  lemma ClaimKeepsCopies(s: Sys, e: Event)
    requires IdsMatch(s) && Enabled(s, e) && IsClaimStep(e) && !e.ClaimAtomic?
    ensures forall i :: 0 <= i < |Step(s, e).tasks| ==> HoldsOwnCopy(Step(s, e).tasks[i])
  {
    var s' := Step(s, e);
    forall i | 0 <= i < |s'.tasks|
      ensures HoldsOwnCopy(s'.tasks[i])
    {
      assert HoldsOwnCopy(s.tasks[i]);
    }
  }

  lemma ClaimAtomicKeepsCopies(s: Sys, e: Event)
    requires IdsMatch(s) && Enabled(s, e) && e.ClaimAtomic?
    ensures forall i :: 0 <= i < |Step(s, e).tasks| ==> HoldsOwnCopy(Step(s, e).tasks[i])
  {
    var s' := Step(s, e);
    forall i | 0 <= i < |s'.tasks|
      ensures HoldsOwnCopy(s'.tasks[i])
    {
      assert HoldsOwnCopy(s.tasks[i]);
    }
  }

  lemma ClaimKeepsRowIds(s: Sys, e: Event)
    requires RowsMatch(s.rows) && Enabled(s, e) && IsClaimStep(e)
    ensures RowsMatch(Step(s, e).rows)
  {
    match e
    case ClaimAcked(i, now) => GuardedUpdateKeepsRowIds(s, s.tasks[i].workflow, s.tasks[i].executor, s.tasks[i].pc.execution, now);
    case LateCommit(execution, now) => GuardedUpdateKeepsRowIds(s, s.h.minted[execution].0, s.h.minted[execution].1, execution, now);
    case _ =>
  }

  lemma ClaimKeepsIds(s: Sys, e: Event)
    requires IdsMatch(s) && Enabled(s, e) && IsClaimStep(e)
    ensures IdsMatch(Step(s, e))
  {
    ClaimKeepsRowIds(s, e);
    OthersLeavePromotions(s, e);
    if e.ClaimAtomic? {
      ClaimAtomicKeepsCopies(s, e);
    } else {
      ClaimKeepsCopies(s, e);
    }
  }

  lemma GuardedUpdateKeepsRowIds(s: Sys, v: string, executor: string, execution: string, now: Time)
    requires RowsMatch(s.rows)
    ensures RowsMatch(GuardedUpdate(s, v, executor, execution, now).rows)
  {
  }

  /** The row that the step writes blindly, if any. */
  function SavedRow(s: Sys, e: Event): Option<WorkflowStatus>
    requires Enabled(s, e)
  {
    match e
    case SavePending(i, now) => Some(PendingCopy(s.tasks[i].pc.copy, now))
    case SaveFinal(i) => Some(s.tasks[i].pc.copy)
    case SaveAgain(i) => Some(s.tasks[i].pc.row)
    case CancelAcked(cancel) => Some(cancel.row)
    case Write(row) => Some(row)
    case Promote(now) => Some(PromotedCopy(s.promotions[0], now))
    case PromoteAgain => s.promoting
    case _ => None
  }

  function RowsAfter(rows: Rows, saved: Option<WorkflowStatus>): Rows {
    if saved.Some? then SaveWorkflow(rows, saved.value) else rows
  }

  lemma SavingKeepsRowIds(rows: Rows, saved: Option<WorkflowStatus>)
    requires RowsMatch(rows)
    ensures RowsMatch(RowsAfter(rows, saved))
  {
  }

  lemma TaskSaves(s: Sys, e: Event)
    requires Enabled(s, e) && (IsMoveStep(e) || IsSaveStep(e))
    ensures Step(s, e).rows == RowsAfter(s.rows, SavedRow(s, e))
  {
  }

  lemma TaskKeepsIds(s: Sys, e: Event)
    requires IdsMatch(s) && Enabled(s, e) && (IsMoveStep(e) || IsSaveStep(e))
    ensures IdsMatch(Step(s, e))
  {
    if IsMoveStep(e) {
      TaskKeepsCopies(s, e);
    } else {
      SaveKeepsCopies(s, e);
    }
    OthersLeavePromotions(s, e);
    TaskSaves(s, e);
    SavingKeepsRowIds(s.rows, SavedRow(s, e));
  }

  lemma SavedKeepsIds(s: Sys, s': Sys, saved: Option<WorkflowStatus>)
    requires IdsMatch(s) && s'.rows == RowsAfter(s.rows, saved) && s'.tasks == s.tasks
    requires PromotingMatches(s'.promotions, s'.promoting)
    ensures IdsMatch(s')
  {
    SavingKeepsRowIds(s.rows, saved);
  }

  lemma CancelKeepsIds(s: Sys, e: Event)
    requires IdsMatch(s) && Enabled(s, e) && IsCancelStep(e) && !e.CancelAcked?
    ensures IdsMatch(Step(s, e))
  {
    assert Step(s, e).rows == s.rows && Step(s, e).tasks == s.tasks;
  }

  lemma LateWriteKeepsIds(s: Sys, e: Event)
    requires IdsMatch(s) && Enabled(s, e) && (e.CancelAcked? || e.Write?)
    ensures IdsMatch(Step(s, e))
  {
    SavedKeepsIds(s, Step(s, e), SavedRow(s, e));
  }

  lemma SupervisorSaves(s: Sys, e: Event)
    requires Enabled(s, e) && IsSupervisorStep(e)
    ensures Step(s, e).rows == RowsAfter(s.rows, SavedRow(s, e)) && Step(s, e).tasks == s.tasks
  {
  }

  lemma SupervisorKeepsIds(s: Sys, e: Event)
    requires IdsMatch(s) && Enabled(s, e) && IsSupervisorStep(e)
    ensures IdsMatch(Step(s, e))
  {
    SupervisorSaves(s, e);
    SupervisorKeepsPromoting(s, e);
    SavedKeepsIds(s, Step(s, e), SavedRow(s, e));
  }

  lemma PopulationKeepsIds(s: Sys, e: Event)
    requires IdsMatch(s) && Enabled(s, e) && IsPopulationStep(e)
    ensures IdsMatch(Step(s, e))
  {
    OthersLeavePromotions(s, e);
    var s' := Step(s, e);
    if e.Recover? {
      RecoverKeepsCopies(s, e);
    } else {
      forall i | 0 <= i < |s'.tasks|
        ensures HoldsOwnCopy(s'.tasks[i])
      {
        if i < |s.tasks| {
          assert HoldsOwnCopy(s.tasks[i]);
        }
      }
    }
  }

  lemma SupervisorKeepsPromoting(s: Sys, e: Event)
    requires IdsMatch(s) && Enabled(s, e) && IsSupervisorStep(e)
    ensures PromotingMatches(Step(s, e).promotions, Step(s, e).promoting)
  {
  }

  lemma OthersLeavePromotions(s: Sys, e: Event)
    requires Enabled(s, e) && !IsSupervisorStep(e)
    ensures Step(s, e).promotions == s.promotions && Step(s, e).promoting == s.promoting
  {
  }

  lemma RecoverKeepsCopies(s: Sys, e: Event)
    requires IdsMatch(s) && Enabled(s, e) && e.Recover?
    ensures forall i :: 0 <= i < |Step(s, e).tasks| ==> HoldsOwnCopy(Step(s, e).tasks[i])
  {
    var listing := ListRows(RowsInOrder(s.rows, e.order), RecoveryOptions());
    var added := RecoveryTasks(listing, e.executor, e.executorIds);
    RestartsAreStarts(listing, e.executor, e.executorIds);
    var all := s.tasks + added;
    forall i | 0 <= i < |all|
      ensures HoldsOwnCopy(all[i])
    {
      if i < |s.tasks| {
        assert HoldsOwnCopy(s.tasks[i]);
      } else {
        assert all[i] in added;
      }
    }
  }

  lemma TaskKeepsCopies(s: Sys, e: Event)
    requires IdsMatch(s) && Enabled(s, e) && IsMoveStep(e)
    ensures forall i :: 0 <= i < |Step(s, e).tasks| ==> HoldsOwnCopy(Step(s, e).tasks[i])
  {
    var s' := Step(s, e);
    forall i | 0 <= i < |s'.tasks|
      ensures HoldsOwnCopy(s'.tasks[i])
    {
      assert HoldsOwnCopy(s.tasks[i]);
    }
  }

  lemma SaveKeepsCopies(s: Sys, e: Event)
    requires IdsMatch(s) && Enabled(s, e) && IsSaveStep(e)
    ensures forall i :: 0 <= i < |Step(s, e).tasks| ==> HoldsOwnCopy(Step(s, e).tasks[i])
  {
    var s' := Step(s, e);
    forall i | 0 <= i < |s'.tasks|
      ensures HoldsOwnCopy(s'.tasks[i])
    {
      assert HoldsOwnCopy(s.tasks[i]);
    }
  }

  lemma {:induction false} RestartsAreStarts(listing: seq<WorkflowStatus>, executor: string, executorIds: seq<string>)
    ensures forall t :: t in RecoveryTasks(listing, executor, executorIds) ==> t.pc.Start?
  {
    if listing != [] {
      RestartsAreStarts(listing[1..], executor, executorIds);
    }
  }

  lemma {:induction false} RunKeepsIds(s: Sys, events: seq<Event>)
    requires IdsMatch(s) && IsRun(s, events)
    ensures IdsMatch(After(s, events))
    decreases |events|
  {
    if events != [] {
      StepKeepsIds(s, events[0]);
      RunKeepsIds(Step(s, events[0]), events[1..]);
    }
  }

  // ----- a steady status stays -----

  lemma MoveRests(s: Sys, i: nat, pc: Pc, w: string, st: WorkflowStatusType)
    requires Resting(s, w, st) && i < |s.tasks|
    requires TaskLeaves(s.tasks[i].(pc := pc), w, st) && HoldsOwnCopy(s.tasks[i].(pc := pc))
    ensures Resting(MoveTo(s, i, pc), w, st)
  {
  }

  lemma TaskStepRests(s: Sys, e: Event, w: string, st: WorkflowStatusType)
    requires Resting(s, w, st) && Enabled(s, e) && IsMoveStep(e)
    ensures Resting(Step(s, e), w, st)
  {
    assert TaskLeaves(s.tasks[e.i], w, st);
    match e
    case Read(i) => MoveRests(s, i, AfterRead(GetWorkflow(s.rows, s.tasks[i].workflow), s.tasks[i].executor, s.tasks[i].resume), w, st);
    case Reread(i) => MoveRests(s, i, AfterReread(GetWorkflow(s.rows, s.tasks[i].workflow)), w, st);
    case Enter(i) => MoveRests(s.(entered := s.entered + multiset{s.tasks[i].workflow}), i, Running, w, st);
    case FinalRead(i, outcome, now) => MoveRests(s, i, AfterRun(GetWorkflow(s.rows, s.tasks[i].workflow), outcome, now), w, st);
    case Stop(i) => MoveRests(s, i, Done, w, st);
  }

  /** A write of another workflow, or of this one with the same status. */
  lemma WriteRests(s: Sys, r: WorkflowStatus, w: string, st: WorkflowStatusType)
    requires Resting(s, w, st) && (r.id == w ==> r.status == st)
    ensures Resting(Save(s, r), w, st) && Resting(LeaveOutstanding(s, r), w, st)
  {
  }

  lemma SaveStepRests(s: Sys, e: Event, w: string, st: WorkflowStatusType)
    requires Resting(s, w, st) && Enabled(s, e) && IsSaveStep(e) && !IsLostSave(e)
    ensures Resting(Step(s, e), w, st)
  {
    assert TaskLeaves(s.tasks[e.i], w, st) && HoldsOwnCopy(s.tasks[e.i]);
    match e
    case SavePending(i, now) => SavedRests(s, i, PendingCopy(s.tasks[i].pc.copy, now), Ready, w, st);
    case SaveFinal(i) => SavedRests(s, i, s.tasks[i].pc.copy, Done, w, st);
    case SaveAgain(i) => SavedRests(s, i, s.tasks[i].pc.row, if s.tasks[i].pc.final then Done else Ready, w, st);
  }

  lemma LostSaveRests(s: Sys, e: Event, w: string, st: WorkflowStatusType)
    requires Resting(s, w, st) && Enabled(s, e) && IsLostSave(e)
    ensures Resting(Step(s, e), w, st)
  {
    assert TaskLeaves(s.tasks[e.i], w, st) && HoldsOwnCopy(s.tasks[e.i]);
    match e
    case SaveLost(i, now) =>
      var r := RowToSave(s.tasks[i].pc, now);
      LostRests(s, i, r, Resaving(r, s.tasks[i].pc.ToFinish?), w, st);
    case SaveFails(i) => LostRests(s, i, s.tasks[i].pc.row, Done, w, st);
  }

  lemma SavedRests(s: Sys, i: nat, r: WorkflowStatus, pc: Pc, w: string, st: WorkflowStatusType)
    requires Resting(s, w, st) && (r.id == w ==> r.status == st) && i < |s.tasks|
    requires TaskLeaves(s.tasks[i].(pc := pc), w, st) && HoldsOwnCopy(s.tasks[i].(pc := pc))
    ensures Resting(MoveTo(Save(s, r), i, pc), w, st)
  {
    WriteRests(s, r, w, st);
    MoveRests(Save(s, r), i, pc, w, st);
  }

  lemma LostRests(s: Sys, i: nat, r: WorkflowStatus, pc: Pc, w: string, st: WorkflowStatusType)
    requires Resting(s, w, st) && (r.id == w ==> r.status == st) && i < |s.tasks|
    requires TaskLeaves(s.tasks[i].(pc := pc), w, st) && HoldsOwnCopy(s.tasks[i].(pc := pc))
    ensures Resting(MoveTo(LeaveOutstanding(s, r), i, pc), w, st)
  {
    WriteRests(s, r, w, st);
    MoveRests(LeaveOutstanding(s, r), i, pc, w, st);
  }

  /** A claim of another workflow's row; a terminal row is not claimable. */
  lemma GuardedUpdateRests(s: Sys, v: string, executor: string, execution: string, now: Time, w: string, st: WorkflowStatusType)
    requires Resting(s, w, st)
    ensures Resting(GuardedUpdate(s, v, executor, execution, now), w, st)
  {
  }

  lemma MintRests(s: Sys, i: nat, execution: string, w: string, st: WorkflowStatusType)
    requires Resting(s, w, st) && i < |s.tasks|
    ensures Resting(Mint(s, i, execution), w, st)
  {
  }

  lemma GrantRests(s: Sys, i: nat, execution: string, w: string, st: WorkflowStatusType)
    requires Resting(s, w, st) && i < |s.tasks|
    ensures Resting(Grant(s, i, execution), w, st)
  {
  }

  lemma ClaimAtomicRests(s: Sys, i: nat, execution: string, now: Time, w: string, st: WorkflowStatusType)
    requires Resting(s, w, st) && Enabled(s, ClaimAtomic(i, execution, now))
    ensures Resting(Step(s, ClaimAtomic(i, execution, now)), w, st)
  {
    var t := s.tasks[i];
    var m := Mint(s, i, execution);
    MintRests(s, i, execution, w, st);
    var (rows', claimed) := ClaimWorkflowExecution(s.rows, t.workflow, t.executor, execution, now);
    var m' := m.(rows := rows', h := m.h.(owner := m.h.owner[t.workflow := Owner(t.executor, Some(execution))]));
    if claimed {
      assert Resting(m', w, st);
      GrantRests(m', i, execution, w, st);
    } else {
      MoveRests(m, i, Done, w, st);
    }
  }

  lemma ClaimStepRests(s: Sys, e: Event, w: string, st: WorkflowStatusType)
    requires Resting(s, w, st) && Enabled(s, e) && IsClaimStep(e) && !e.ClaimAtomic?
    ensures Resting(Step(s, e), w, st)
  {
    match e
    case ClaimBegin(i, execution) => MintRests(s, i, execution, w, st);
    case ClaimAcked(i, now) =>
      var t := s.tasks[i];
      if t.workflow in s.rows && Claimable(s.rows[t.workflow]) {
        GuardedUpdateRests(s, t.workflow, t.executor, t.pc.execution, now, w, st);
        GrantRests(GuardedUpdate(s, t.workflow, t.executor, t.pc.execution, now), i, t.pc.execution, w, st);
      } else {
        MoveRests(s, i, Resolving(t.pc.execution), w, st);
      }
    case ClaimLost(i) =>
      var pc := s.tasks[i].pc;
      MoveRests(s.(inFlight := s.inFlight + {pc.execution}), i,
                if pc.attempt == 0 then Claiming(pc.execution, 1) else Resolving(pc.execution), w, st);
    case LateCommit(execution, now) => GuardedUpdateRests(s, s.h.minted[execution].0, s.h.minted[execution].1, execution, now, w, st);
    case ClaimResolve(i) =>
      var t := s.tasks[i];
      GrantRests(s, i, t.pc.execution, w, st);
      MoveRests(s, i, Done, w, st);
  }

  lemma AddedTasksRest(s: Sys, added: seq<Task>, resumed: multiset<string>, w: string, st: WorkflowStatusType)
    requires Resting(s, w, st) && forall t :: t in added ==> t.pc.Start?
    ensures Resting(s.(tasks := s.tasks + added, resumed := resumed), w, st)
  {
    var all := s.tasks + added;
    forall i | 0 <= i < |all|
      ensures TaskLeaves(all[i], w, st) && HoldsOwnCopy(all[i])
    {
      if i < |s.tasks| {
        assert TaskLeaves(s.tasks[i], w, st) && HoldsOwnCopy(s.tasks[i]);
      } else {
        assert all[i] in added;
      }
    }
  }

  lemma PopulationStepRests(s: Sys, e: Event, w: string, st: WorkflowStatusType)
    requires Resting(s, w, st) && Enabled(s, e) && IsPopulationStep(e)
    ensures Resting(Step(s, e), w, st)
  {
    match e
    case Insert(_, _) =>
    case Spawn(workflow, executor) =>
      AddedTasksRest(s, [Task(workflow, executor, false, Start)], s.resumed, w, st);
    case Crash(executor) =>
      forall i | 0 <= i < |s.tasks|
        ensures TaskLeaves(CrashTasks(s.tasks, executor)[i], w, st) && HoldsOwnCopy(CrashTasks(s.tasks, executor)[i])
      {
        assert TaskLeaves(s.tasks[i], w, st) && HoldsOwnCopy(s.tasks[i]);
      }
    case Recover(executor, executorIds, order) =>
      var listing := ListRows(RowsInOrder(s.rows, order), RecoveryOptions());
      RestartsAreStarts(listing, executor, executorIds);
      AddedTasksRest(s, RecoveryTasks(listing, executor, executorIds), s.resumed + OwnResumes(listing, executor, executorIds), w, st);
  }

  lemma CancelStepRests(s: Sys, e: Event, w: string, st: WorkflowStatusType)
    requires Resting(s, w, st) && Enabled(s, e) && IsCancelStep(e) && !e.CancelLost?
    ensures Resting(Step(s, e), w, st)
  {
    match e
    case CancelRead(workflow, now) => CancelsRest(s, s.cancels + multiset{Cancel(CancelledCopy(s.rows[workflow], now), false)}, w, st);
    case CancelAcked(cancel) =>
      WriteRests(s, cancel.row, w, st);
      CancelsRest(Save(s, cancel.row), s.cancels - multiset{cancel}, w, st);
    case CancelStops(cancel) => CancelsRest(s, s.cancels - multiset{cancel}, w, st);
  }

  lemma CancelLostRests(s: Sys, cancel: Cancel, rest: multiset<Cancel>, w: string, st: WorkflowStatusType)
    requires Resting(s, w, st) && cancel in s.cancels
    requires rest == s.cancels - multiset{cancel} + if cancel.retried then multiset{} else multiset{Cancel(cancel.row, true)}
    ensures Resting(LeaveOutstanding(s, cancel.row).(cancels := rest), w, st)
  {
    WriteRests(s, cancel.row, w, st);
    CancelsRest(LeaveOutstanding(s, cancel.row), rest, w, st);
  }

  lemma LateWriteRests(s: Sys, row: WorkflowStatus, w: string, st: WorkflowStatusType)
    requires Resting(s, w, st) && row in s.outstanding
    ensures Resting(Save(s, row).(outstanding := s.outstanding - multiset{row}), w, st)
  {
    WriteRests(s, row, w, st);
  }

  lemma CancelsRest(s: Sys, cancels: multiset<Cancel>, w: string, st: WorkflowStatusType)
    requires Resting(s, w, st) && forall c :: c in cancels && c.row.id == w ==> c.row.status == st
    ensures Resting(s.(cancels := cancels), w, st)
  {
  }

  lemma SupervisorStepRests(s: Sys, e: Event, w: string, st: WorkflowStatusType)
    requires Resting(s, w, st) && Enabled(s, e) && IsSupervisorStep(e)
    ensures Resting(Step(s, e), w, st)
  {
    match e
    case ListDelayed(order, now) =>
      DelayedLeave(s, order, now, w, st);
      PromotionsRest(s, Promotions(s.rows, order, now), None, w, st);
    case Promote(now) => PromotedRests(s, PromotedCopy(s.promotions[0], now), w, st);
    case PromoteLost(now) => PromotionLostRests(s, PromotedCopy(s.promotions[0], now), Some(PromotedCopy(s.promotions[0], now)), s.promotions, w, st);
    case PromoteAgain => PromotedRests(s, s.promoting.value, w, st);
    case PromoteFails => PromotionLostRests(s, s.promoting.value, None, [], w, st);
    case AbandonPromotions => PromotionsRest(s, [], None, w, st);
  }

  lemma PromotedRests(s: Sys, r: WorkflowStatus, w: string, st: WorkflowStatusType)
    requires Resting(s, w, st) && s.promotions != [] && r.id == s.promotions[0].id
    ensures Resting(Save(s, r).(promotions := s.promotions[1..], promoting := None), w, st)
  {
    WriteRests(s, r, w, st);
    PromotionsRest(Save(s, r), s.promotions[1..], None, w, st);
  }

  lemma PromotionLostRests(s: Sys, r: WorkflowStatus, promoting: Option<WorkflowStatus>, promotions: seq<WorkflowStatus>, w: string, st: WorkflowStatusType)
    requires Resting(s, w, st) && s.promotions != [] && r.id == s.promotions[0].id
    requires PromotingMatches(promotions, promoting) && (promotions == [] || promotions == s.promotions)
    ensures Resting(LeaveOutstanding(s, r).(promotions := promotions, promoting := promoting), w, st)
  {
    WriteRests(s, r, w, st);
    PromotionsRest(LeaveOutstanding(s, r), promotions, promoting, w, st);
  }

  lemma PromotionsRest(s: Sys, promotions: seq<WorkflowStatus>, promoting: Option<WorkflowStatus>, w: string, st: WorkflowStatusType)
    requires Resting(s, w, st) && PromotingMatches(promotions, promoting)
    requires forall i :: 0 <= i < |promotions| ==> promotions[i].id != w
    ensures Resting(s.(promotions := promotions, promoting := promoting), w, st)
  {
  }

  /** Only delayed rows are listed for promotion. */
  lemma DelayedLeave(s: Sys, order: seq<string>, now: Time, w: string, st: WorkflowStatusType)
    requires IdsMatch(s) && HasStatus(s, w, st) && st.IsTerminal() && Enumerates(order, s.rows)
    ensures forall i :: 0 <= i < |Promotions(s.rows, order, now)| ==> Promotions(s.rows, order, now)[i].id != w
  {
    var all := RowsInOrder(s.rows, order);
    FilterMembers(all, DueAt(now));
    var listed := Promotions(s.rows, order, now);
    forall i | 0 <= i < |listed|
      ensures listed[i].id != w
    {
      assert listed[i] in listed;
      var j :| 0 <= j < |all| && all[j] == listed[i];
      assert all[j] == s.rows[order[j]];
    }
  }

  lemma StepRests(s: Sys, e: Event, w: string, st: WorkflowStatusType)
    requires Resting(s, w, st) && Enabled(s, e)
    ensures Resting(Step(s, e), w, st)
  {
    if IsMoveStep(e) {
      TaskStepRests(s, e, w, st);
    } else if IsLostSave(e) {
      LostSaveRests(s, e, w, st);
    } else if IsSaveStep(e) {
      SaveStepRests(s, e, w, st);
    } else if e.ClaimAtomic? {
      ClaimAtomicRests(s, e.i, e.execution, e.now, w, st);
    } else if IsClaimStep(e) {
      ClaimStepRests(s, e, w, st);
    } else if IsPopulationStep(e) {
      PopulationStepRests(s, e, w, st);
    } else if e.CancelLost? {
      var cancel := e.cancel;
      CancelLostRests(s, cancel, s.cancels - multiset{cancel} + if cancel.retried then multiset{} else multiset{Cancel(cancel.row, true)}, w, st);
    } else if IsCancelStep(e) {
      CancelStepRests(s, e, w, st);
    } else if e.Write? {
      LateWriteRests(s, e.row, w, st);
    } else {
      SupervisorStepRests(s, e, w, st);
    }
  }

  lemma {:induction false} RunRests(s: Sys, events: seq<Event>, w: string, st: WorkflowStatusType)
    requires Resting(s, w, st) && IsRun(s, events)
    ensures HasStatus(After(s, events), w, st)
    decreases |events|
  {
    if events != [] {
      StepRests(s, events[0], w, st);
      RunRests(Step(s, events[0]), events[1..], w, st);
    }
  }

  // ----- an unsteady status can change -----

  /** The run gives the workflow another status. */
  ghost predicate Changes(s: Sys, w: string, st: WorkflowStatusType, events: seq<Event>) {
    IsRun(s, events) && !HasStatus(After(s, events), w, st)
  }

  lemma PendingSaveChanges(s: Sys, i: nat, w: string, st: WorkflowStatusType)
    requires IdsMatch(s) && st.IsTerminal() && i < |s.tasks| && s.tasks[i].workflow == w && s.tasks[i].pc.ToSave?
    ensures Changes(s, w, st, [SavePending(i, 0)] + [])
    ensures HasStatus(After(s, [SavePending(i, 0)] + []), w, Pending)
  {
    assert HoldsOwnCopy(s.tasks[i]);
    Prepend(s, SavePending(i, 0), []);
    assert Step(s, SavePending(i, 0)).rows[w].status == Pending;
  }

  lemma FinalSaveChanges(s: Sys, i: nat, w: string, st: WorkflowStatusType)
    requires IdsMatch(s) && i < |s.tasks| && s.tasks[i].workflow == w && s.tasks[i].pc.ToFinish? && s.tasks[i].pc.copy.status != st
    ensures Changes(s, w, st, [SaveFinal(i)] + [])
  {
    assert HoldsOwnCopy(s.tasks[i]);
    Prepend(s, SaveFinal(i), []);
  }

  /** The body ends with an outcome that the status does not record. */
  lemma RunningChanges(s: Sys, i: nat, w: string, st: WorkflowStatusType, outcome: Outcome)
    requires IdsMatch(s) && HasStatus(s, w, st) && st != Cancelled && i < |s.tasks| && s.tasks[i].workflow == w && s.tasks[i].pc.Running?
    requires outcome == if st == Success then Failed("") else Completed(None, "")
    ensures Changes(s, w, st, [FinalRead(i, outcome, 0)] + ([SaveFinal(i)] + []))
  {
    var s1 := Step(s, FinalRead(i, outcome, 0));
    var copy := FinishedCopy(s.rows[w], outcome, 0);
    assert s1 == MoveTo(s, i, ToFinish(copy));
    StepKeepsIds(s, FinalRead(i, outcome, 0));
    FinalSaveChanges(s1, i, w, st);
    Prepend(s, FinalRead(i, outcome, 0), [SaveFinal(i)] + []);
  }

  lemma ReadyChanges(s: Sys, i: nat, w: string, st: WorkflowStatusType, outcome: Outcome)
    requires IdsMatch(s) && HasStatus(s, w, st) && st != Cancelled && i < |s.tasks| && s.tasks[i].workflow == w && s.tasks[i].pc.Ready?
    requires outcome == if st == Success then Failed("") else Completed(None, "")
    ensures Changes(s, w, st, [Enter(i)] + ([FinalRead(i, outcome, 0)] + ([SaveFinal(i)] + [])))
  {
    StepKeepsIds(s, Enter(i));
    RunningChanges(Step(s, Enter(i)), i, w, st, outcome);
    Prepend(s, Enter(i), [FinalRead(i, outcome, 0)] + ([SaveFinal(i)] + []));
  }

  /** The second attempt writes another status, or makes the task run the body. */
  lemma ResavingChanges(s: Sys, i: nat, w: string, st: WorkflowStatusType, outcome: Outcome) returns (events: seq<Event>)
    requires IdsMatch(s) && i < |s.tasks| && s.tasks[i].workflow == w && s.tasks[i].pc.Resaving? && !TaskLeaves(s.tasks[i], w, st)
    requires outcome == if st == Success then Failed("") else Completed(None, "")
    ensures Changes(s, w, st, events)
  {
    assert HoldsOwnCopy(s.tasks[i]);
    var pc := s.tasks[i].pc;
    var s1 := Step(s, SaveAgain(i));
    assert s1.rows == s.rows[w := pc.row] && s1.tasks[i] == s.tasks[i].(pc := if pc.final then Done else Ready);
    if pc.row.status != st {
      Prepend(s, SaveAgain(i), []);
      events := [SaveAgain(i)] + [];
    } else {
      StepKeepsIds(s, SaveAgain(i));
      ReadyChanges(s1, i, w, st, outcome);
      var rest := [Enter(i)] + ([FinalRead(i, outcome, 0)] + ([SaveFinal(i)] + []));
      Prepend(s, SaveAgain(i), rest);
      events := [SaveAgain(i)] + rest;
    }
  }

  lemma UnsteadyTaskChanges(s: Sys, i: nat, w: string, st: WorkflowStatusType) returns (events: seq<Event>)
    requires IdsMatch(s) && HasStatus(s, w, st) && st.IsTerminal() && i < |s.tasks| && !TaskLeaves(s.tasks[i], w, st)
    ensures Changes(s, w, st, events)
  {
    var outcome := if st == Success then Failed("") else Completed(None, "");
    match s.tasks[i].pc
    case ToSave(_) =>
      PendingSaveChanges(s, i, w, st);
      events := [SavePending(i, 0)] + [];
    case ToFinish(_) =>
      FinalSaveChanges(s, i, w, st);
      events := [SaveFinal(i)] + [];
    case Ready =>
      ReadyChanges(s, i, w, st, outcome);
      events := [Enter(i)] + ([FinalRead(i, outcome, 0)] + ([SaveFinal(i)] + []));
    case Running =>
      RunningChanges(s, i, w, st, outcome);
      events := [FinalRead(i, outcome, 0)] + ([SaveFinal(i)] + []);
    case Resaving(_, _) =>
      events := ResavingChanges(s, i, w, st, outcome);
  }

  lemma LateWriteChanges(s: Sys, r: WorkflowStatus, w: string, st: WorkflowStatusType)
    requires r in s.outstanding && r.id == w && r.status != st
    ensures Changes(s, w, st, [Write(r)] + [])
  {
    Prepend(s, Write(r), []);
  }

  lemma CancelChanges(s: Sys, c: Cancel, w: string, st: WorkflowStatusType)
    requires c in s.cancels && c.row.id == w && c.row.status != st
    ensures Changes(s, w, st, [CancelAcked(c)] + [])
  {
    Prepend(s, CancelAcked(c), []);
  }

  /** The supervisor gets to the promotion of the workflow. */
  lemma {:induction false} PromotionChanges(s: Sys, k: nat, w: string, st: WorkflowStatusType) returns (events: seq<Event>)
    requires PromotingMatches(s.promotions, s.promoting) && k < |s.promotions| && s.promotions[k].id == w && st.IsTerminal()
    ensures Changes(s, w, st, events)
    decreases k
  {
    var e := if s.promoting.Some? then PromoteAgain else Promote(0);
    var s1 := Step(s, e);
    assert s1.promotions == s.promotions[1..] && s1.promoting.None?;
    if k == 0 {
      assert s1.rows[w].status == Enqueued;
      Prepend(s, e, []);
      events := [e] + [];
    } else {
      var rest := PromotionChanges(s1, k - 1, w, st);
      Prepend(s, e, rest);
      events := [e] + rest;
    }
  }

  lemma UnsteadyChanges(s: Sys, w: string, st: WorkflowStatusType) returns (events: seq<Event>)
    requires IdsMatch(s) && HasStatus(s, w, st) && st.IsTerminal() && !Steady(s, w, st)
    ensures Changes(s, w, st, events)
  {
    if !TasksLeave(s, w, st) {
      var i :| 0 <= i < |s.tasks| && !TaskLeaves(s.tasks[i], w, st);
      events := UnsteadyTaskChanges(s, i, w, st);
    } else if !OutstandingLeave(s, w, st) {
      var r :| r in s.outstanding && r.id == w && r.status != st;
      LateWriteChanges(s, r, w, st);
      events := [Write(r)] + [];
    } else if !CancelsLeave(s, w, st) {
      var c :| c in s.cancels && c.row.id == w && c.row.status != st;
      CancelChanges(s, c, w, st);
      events := [CancelAcked(c)] + [];
    } else {
      var k :| 0 <= k < |s.promotions| && s.promotions[k].id == w;
      events := PromotionChanges(s, k, w, st);
    }
  }

  // ----- the exact condition -----

  /** A terminal status never changes again, over all interleavings, if and only if no task is about to save the
      workflow with another status, none will run or runs its body while it is not cancelled, no write whose
      fate is unknown and no cancel under way says otherwise, and no promotion of it is pending. */
  lemma TerminalIsFinalIff(s: Sys, w: string, st: WorkflowStatusType)
    requires IdsMatch(s) && HasStatus(s, w, st) && st.IsTerminal()
    ensures IsFinal(s, w, st) <==> Steady(s, w, st)
  {
    if Steady(s, w, st) {
      forall events | IsRun(s, events)
        ensures HasStatus(After(s, events), w, st)
      {
        RunRests(s, events, w, st);
      }
    } else {
      var events := UnsteadyChanges(s, w, st);
      assert IsRun(s, events);
    }
  }

  /** The same for every state that any run reaches. */
  lemma ReachedTerminalIsFinalIff(events: seq<Event>, w: string, st: WorkflowStatusType)
    requires IsRun(INIT, events) && HasStatus(After(INIT, events), w, st) && st.IsTerminal()
    ensures IsFinal(After(INIT, events), w, st) <==> Steady(After(INIT, events), w, st)
  {
    RunKeepsIds(INIT, events);
    TerminalIsFinalIff(After(INIT, events), w, st);
  }

  // ----- results -----

  /** Among tasks that exclude one another, the one with the result is alone: once its result is acknowledged, the
      result is final if and only if no write of the workflow whose fate is unknown and no cancel under way says
      otherwise, and no promotion of it is pending. */
  lemma ResultIsFinalIff(s: Sys, i: nat)
    requires Inv(s) && IdsMatch(s) && Enabled(s, SaveFinal(i))
    ensures var w, st := s.tasks[i].workflow, s.tasks[i].pc.copy.status;
            && HasStatus(Step(s, SaveFinal(i)), w, st) && st.IsTerminal()
            && (IsFinal(Step(s, SaveFinal(i)), w, st) <==> OutstandingLeave(s, w, st) && CancelsLeave(s, w, st) && PromotionsLeave(s, w))
  {
    var w, st := s.tasks[i].workflow, s.tasks[i].pc.copy.status;
    assert HoldsOwnCopy(s.tasks[i]);
    StepKeepsIds(s, SaveFinal(i));
    ResultSteadyIff(s, MoveTo(Save(s, s.tasks[i].pc.copy), i, Done), i, w, st);
    TerminalIsFinalIff(Step(s, SaveFinal(i)), w, st);
  }

  lemma ResultSteadyIff(s: Sys, s': Sys, i: nat, w: string, st: WorkflowStatusType)
    requires i < |s.tasks| && HoldersUnique(s.h, s.tasks) && PastClaim(s.tasks[i]) && s.tasks[i].workflow == w
    requires s'.tasks == s.tasks[i := s.tasks[i].(pc := Done)] && SameWriters(s, s')
    ensures Steady(s', w, st) <==> OutstandingLeave(s, w, st) && CancelsLeave(s, w, st) && PromotionsLeave(s, w)
  {
    HolderIsAlone(s.h, s.tasks, i, st);
    forall j | 0 <= j < |s'.tasks|
      ensures TaskLeaves(s'.tasks[j], w, st)
    {
      assert j != i ==> s'.tasks[j] == s.tasks[j];
    }
  }

  lemma HolderIsAlone(h: History, tasks: seq<Task>, i: nat, st: WorkflowStatusType)
    requires HoldersUnique(h, tasks) && i < |tasks| && PastClaim(tasks[i])
    ensures forall j :: 0 <= j < |tasks| && j != i ==> TaskLeaves(tasks[j], tasks[i].workflow, st)
  {
    forall j | 0 <= j < |tasks| && j != i
      ensures TaskLeaves(tasks[j], tasks[i].workflow, st)
    {
      var a, b := if i < j then i else j, if i < j then j else i;
      assert !Conflict(h, tasks[a], tasks[b]);
    }
  }

  /** The same for every state that a disciplined run reaches. */
  lemma ReachedResultIsFinalIff(events: seq<Event>, i: nat)
    requires IsRun(INIT, events) && IsDisciplinedRun(INIT, events) && Enabled(After(INIT, events), SaveFinal(i))
    ensures var s := After(INIT, events);
            var w, st := s.tasks[i].workflow, s.tasks[i].pc.copy.status;
            IsFinal(Step(s, SaveFinal(i)), w, st) <==> OutstandingLeave(s, w, st) && CancelsLeave(s, w, st) && PromotionsLeave(s, w)
  {
    InitInv();
    RunKeepsInv(INIT, events);
    RunKeepsIds(INIT, events);
    ResultIsFinalIff(After(INIT, events), i);
  }

  /** Nobody but task `i` is past the claim of the workflow, and no write of it is outstanding, under way or planned. */
  ghost predicate Undisturbed(s: Sys, i: nat, w: string) {
    && (forall j :: 0 <= j < |s.tasks| && j != i ==> s.tasks[j].workflow == w ==> !PastClaim(s.tasks[j]))
    && (forall r :: r in s.outstanding ==> r.id != w)
    && (forall c :: c in s.cancels ==> c.row.id != w)
    && PromotionsLeave(s, w)
  }

  /** What an undisturbed execution records is final, whatever happens afterwards. */
  lemma UndisturbedResultIsFinal(s: Sys, i: nat, execution: string, claimedAt: Time, startedAt: Time, finishedAt: Time, outcome: Outcome)
    requires IdsMatch(s) && MayClaim(s, i, execution) && Undisturbed(s, i, s.tasks[i].workflow)
    ensures var events := ExecuteEvents(i, execution, claimedAt, startedAt, finishedAt, outcome);
            IsRun(s, events) && IsFinal(After(s, events), s.tasks[i].workflow, if outcome.Completed? then Success else Error)
  {
    var w, st := s.tasks[i].workflow, if outcome.Completed? then Success else Error;
    var events := ExecuteEvents(i, execution, claimedAt, startedAt, finishedAt, outcome);
    ExecuteAlone(s, i, execution, claimedAt, startedAt, finishedAt, outcome);
    RunKeepsIds(s, events);
    UndisturbedEndsSteady(s, After(s, events), i, w, st);
    TerminalIsFinalIff(After(s, events), w, st);
  }

  lemma UndisturbedEndsSteady(s: Sys, s': Sys, i: nat, w: string, st: WorkflowStatusType)
    requires i < |s.tasks| && s'.tasks == s.tasks[i := s.tasks[i].(pc := Done)] && SameWriters(s, s') && Undisturbed(s, i, w)
    ensures Steady(s', w, st)
  {
    forall j | 0 <= j < |s'.tasks|
      ensures TaskLeaves(s'.tasks[j], w, st)
    {
      assert j != i ==> s'.tasks[j] == s.tasks[j];
    }
  }

  /** An instance: started from nothing and left alone, a workflow ends in a status that never changes again. */
  lemma FirstResultIsFinal(row: WorkflowStatus, executor: string, outcome: Outcome) returns (events: seq<Event>)
    requires Claimable(row) && row.executionId.None?
    ensures IsRun(INIT, events) && IsFinal(After(INIT, events), row.id, if outcome.Completed? then Success else Error)
  {
    FirstInsert(row);
    var s1 := INIT.(rows := map[row.id := row]);
    var s2 := s1.(tasks := [Task(row.id, executor, false, Start)]);
    UndisturbedResultIsFinal(s2, 0, "x", 1, 2, 3, outcome);
    var rest := ExecuteEvents(0, "x", 1, 2, 3, outcome);
    PrependTo(s1, s2, Spawn(row.id, executor), rest, [Spawn(row.id, executor)] + rest);
    rest := [Spawn(row.id, executor)] + rest;
    events := [Insert(row, true)] + rest;
    PrependTo(INIT, s1, Insert(row, true), rest, events);
  }

  /** An instance: a task that read the row before a cancel writes its stale copy back after it. */
  lemma StaleSaveRevivesCancelled(row: WorkflowStatus, executor: string) returns (before: seq<Event>, late: Event)
    requires Claimable(row) && row.executionId.None?
    ensures IsRun(INIT, before) && HasStatus(After(INIT, before), row.id, Cancelled)
    ensures !Steady(After(INIT, before), row.id, Cancelled)
    ensures late.SavePending? && IsRun(INIT, before + [late]) && HasStatus(After(INIT, before + [late]), row.id, Pending)
  {
    ClaimFromScratch(row, executor);
    CancelAfterReread(row, executor);
    before := ClaimEvents(row, executor) + CancelEvents(row, executor);
    RunsCompose(INIT, ClaimEvents(row, executor), CancelEvents(row, executor));
    var s := After(INIT, before);
    RunKeepsIds(INIT, before);
    assert !TaskLeaves(s.tasks[0], row.id, Cancelled);
    late := SavePending(0, 0);
    PendingSaveChanges(s, 0, row.id, Cancelled);
    assert [late] + [] == [late];
    RunsCompose(INIT, before, [late]);
  }

  /** An instance with a result: the first attempt to save the row as pending is not acknowledged, the second is, the
      body runs and its result is acknowledged; then the first attempt commits. */
  lemma LateSaveRevivesFinished(row: WorkflowStatus, executor: string, outcome: Outcome) returns (before: seq<Event>, late: Event)
    requires Claimable(row) && row.executionId.None?
    ensures IsRun(INIT, before) && HasStatus(After(INIT, before), row.id, if outcome.Completed? then Success else Error)
    ensures late.Write? && IsRun(INIT, before + [late]) && HasStatus(After(INIT, before + [late]), row.id, Pending)
  {
    ClaimFromScratch(row, executor);
    var s := ClaimedState(row, executor);
    var pending := PendingCopy(s.rows[row.id], 2);
    var resave := ResaveAlone(s, 0, 2);
    var s1 := After(s, resave);
    FinishAlone(s1, 0, 3, outcome);
    var finish := FinishEvents(0, 3, outcome);
    var s2 := After(s1, finish);
    late := Write(pending);
    Prepend(s2, late, []);
    RunsCompose(s, resave, finish);
    RunsCompose(INIT, ClaimEvents(row, executor), resave + finish);
    before := ClaimEvents(row, executor) + (resave + finish);
    assert [late] + [] == [late];
    RunsCompose(INIT, before, [late]);
  }

  /** A granted task saves its row as pending at the second attempt; the first stays outstanding. */
  lemma ResaveAlone(s: Sys, i: nat, now: Time) returns (events: seq<Event>)
    requires i < |s.tasks| && s.tasks[i].pc == Granted
    requires var w := s.tasks[i].workflow; w in s.rows && s.rows[w].id == w && !s.rows[w].status.IsTerminal()
    ensures IsRun(s, events)
    ensures var t, s' := s.tasks[i], After(s, events);
            var pending := PendingCopy(s.rows[t.workflow], now);
            && s'.rows == s.rows[t.workflow := pending] && s'.tasks == s.tasks[i := t.(pc := Ready)]
            && s'.outstanding == s.outstanding + multiset{pending}
  {
    var t := s.tasks[i];
    var pending := PendingCopy(s.rows[t.workflow], now);
    var s1 := MoveTo(s, i, ToSave(s.rows[t.workflow]));
    var s2 := MoveTo(LeaveOutstanding(s1, pending), i, Resaving(pending, false));
    Prepend(s2, SaveAgain(i), []);
    PrependTo(s1, s2, SaveLost(i, now), [SaveAgain(i)] + [], [SaveLost(i, now)] + ([SaveAgain(i)] + []));
    events := [Reread(i)] + ([SaveLost(i, now)] + ([SaveAgain(i)] + []));
    PrependTo(s, s1, Reread(i), [SaveLost(i, now)] + ([SaveAgain(i)] + []), events);
  }
}
