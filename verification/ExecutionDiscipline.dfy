/** Which steps endanger exclusive execution: exactly the recovery passes that restart a workflow some live task
    works on, and the promotions of rows without an owner that are left without an acknowledgement. */
module ExecutionDiscipline {
  import opened Types
  import opened Sequences
  import opened StoreSpec
  import opened Listing
  import opened Execution
  import opened ExecutionSafety
  import opened ExecutionRuns

  /** Exclusive execution holds now and after every disciplined continuation. */
  ghost predicate StaysExclusive(s: Sys) {
    forall events :: IsRun(s, events) && IsDisciplinedRun(s, events) ==> Exclusive(After(s, events))
  }

  ghost predicate AllOrdinary(events: seq<Event>) {
    forall e :: e in events ==> Ordinary(e)
  }

  lemma {:induction false} OrdinaryRunsAreDisciplined(s: Sys, events: seq<Event>)
    requires IsRun(s, events) && AllOrdinary(events)
    ensures IsDisciplinedRun(s, events)
    decreases |events|
  {
    if events != [] {
      assert events[0] in events;
      OrdinaryRunsAreDisciplined(Step(s, events[0]), events[1..]);
    }
  }

  // ----- a recovery pass meets a task that works on what it restarts -----

  ghost predicate CanTakeUp(s: Sys, i: nat, w: string) {
    && i < |s.tasks| && w in s.rows && s.rows[w].id == w
    && !s.rows[w].status.IsTerminal() && s.rows[w].executorId.Some?
    && WorksOn(s.rows[w], s.tasks[i])
  }

  /** The run touches nothing but task `i`, which ends past the claim of `w`. */
  ghost predicate TakesUp(s: Sys, i: nat, w: string, events: seq<Event>) {
    && i < |s.tasks| && IsRun(s, events) && AllOrdinary(events)
    && var s' := After(s, events);
       && s'.rows == s.rows && |s'.tasks| == |s.tasks|
       && (forall j :: 0 <= j < |s.tasks| && j != i ==> s'.tasks[j] == s.tasks[j])
       && PastClaim(s'.tasks[i]) && s'.tasks[i].workflow == w
  }

  lemma RestartedTakesUp(s: Sys, i: nat, w: string)
    requires CanTakeUp(s, i, w) && s.tasks[i].pc.Start?
    ensures TakesUp(s, i, w, [Read(i)] + [])
  {
    assert Step(s, Read(i)) == MoveTo(s, i, ToSave(s.rows[w]));
    Prepend(s, Read(i), []);
  }

  lemma ResolvingTakesUp(s: Sys, i: nat, w: string)
    requires CanTakeUp(s, i, w) && s.tasks[i].pc.Resolving?
    ensures TakesUp(s, i, w, [ClaimResolve(i)] + [])
  {
    assert Step(s, ClaimResolve(i)) == Grant(s, i, s.tasks[i].pc.execution);
    Prepend(s, ClaimResolve(i), []);
  }

  lemma ClaimingTakesUp(s: Sys, i: nat, w: string)
    requires CanTakeUp(s, i, w) && s.tasks[i].pc.Claiming?
    ensures TakesUp(s, i, w, [ClaimAcked(i, 0)] + ([ClaimResolve(i)] + []))
  {
    var s1 := Step(s, ClaimAcked(i, 0));
    assert s1 == MoveTo(s, i, Resolving(s.tasks[i].pc.execution));
    ResolvingTakesUp(s1, i, w);
    Prepend(s, ClaimAcked(i, 0), [ClaimResolve(i)] + []);
  }

  lemma TakeUp(s: Sys, i: nat, w: string) returns (events: seq<Event>)
    requires CanTakeUp(s, i, w)
    ensures TakesUp(s, i, w, events)
  {
    match s.tasks[i].pc
    case Start =>
      RestartedTakesUp(s, i, w);
      events := [Read(i)] + [];
    case Claiming(_, _) =>
      ClaimingTakesUp(s, i, w);
      events := [ClaimAcked(i, 0)] + ([ClaimResolve(i)] + []);
    case Resolving(_) =>
      ResolvingTakesUp(s, i, w);
      events := [ClaimResolve(i)] + [];
    case _ =>
      events := [];
  }

  /** The pass adds a task that restarts the workflow. */
  lemma RecoveryRestarts(s: Sys, executor: string, executorIds: seq<string>, order: seq<string>, w: string) returns (k: nat)
    requires Inv(s) && Enumerates(order, s.rows) && w in s.rows && Restarts(s.rows[w], executor, executorIds)
    ensures var s' := Step(s, Recover(executor, executorIds, order));
            && s'.rows == s.rows && s.tasks <= s'.tasks && |s.tasks| <= k < |s'.tasks|
            && s'.tasks[k] == Task(w, executor, true, Start)
  {
    var j := PlanRestarts(s.rows, order, executor, executorIds, w);
    k := |s.tasks| + j;
    var added := RecoveryTasks(ListRows(RowsInOrder(s.rows, order), RecoveryOptions()), executor, executorIds);
    assert Step(s, Recover(executor, executorIds, order)).tasks == s.tasks + added;
  }

  lemma PlanRestarts(rows: Rows, order: seq<string>, executor: string, executorIds: seq<string>, w: string) returns (j: nat)
    requires Enumerates(order, rows) && forall v :: v in rows ==> rows[v].id == v
    requires w in rows && Restarts(rows[w], executor, executorIds)
    ensures var added := RecoveryTasks(ListRows(RowsInOrder(rows, order), RecoveryOptions()), executor, executorIds);
            j < |added| && added[j] == Task(w, executor, true, Start)
  {
    var listing := ListRows(RowsInOrder(rows, order), RecoveryOptions());
    ListedRows(rows, order, RecoveryOptions());
    PlanStartsTheUnfinished(rows, listing, executor, executorIds);
    var added := RecoveryTasks(listing, executor, executorIds);
    var restart := Task(w, executor, true, Start);
    assert ShouldStart(rows, restart, executor, executorIds);
    j :| 0 <= j < |added| && added[j] == restart;
  }

  lemma TwoTakeUp(s: Sys, i: nat, k: nat, w: string) returns (events: seq<Event>)
    requires CanTakeUp(s, i, w) && CanTakeUp(s, k, w) && i != k
    ensures IsRun(s, events) && AllOrdinary(events) && !Exclusive(After(s, events))
  {
    var first := TakeUp(s, i, w);
    var s1 := After(s, first);
    var second := TakeUp(s1, k, w);
    var s2 := After(s1, second);
    RunsCompose(s, first, second);
    events := first + second;
    var a, b := if i < k then i else k, if i < k then k else i;
    assert PastClaim(s2.tasks[a]) && PastClaim(s2.tasks[b]) && s2.tasks[a].workflow == s2.tasks[b].workflow;
  }

  lemma CarelessRecoveryBreaks(s: Sys, executor: string, executorIds: seq<string>, order: seq<string>) returns (events: seq<Event>)
    requires Inv(s) && Enumerates(order, s.rows) && !Disciplined(s, Recover(executor, executorIds, order))
    ensures var s' := Step(s, Recover(executor, executorIds, order));
            IsRun(s', events) && AllOrdinary(events) && !Exclusive(After(s', events))
  {
    var w, i :| w in s.rows && Restarts(s.rows[w], executor, executorIds) && 0 <= i < |s.tasks| && WorksOn(s.rows[w], s.tasks[i]);
    var k := RecoveryRestarts(s, executor, executorIds, order, w);
    var s' := Step(s, Recover(executor, executorIds, order));
    assert s'.tasks[i] == s.tasks[i];
    events := TwoTakeUp(s', i, k, w);
  }

  // ----- a promotion that may commit late -----

  lemma {:induction false} LongerThanAll(ids: set<string>) returns (n: nat)
    ensures forall x :: x in ids ==> |x| < n
    decreases |ids|
  {
    n := 0;
    if ids != {} {
      var x :| x in ids;
      n := LongerThanAll(ids - {x});
      n := if |x| < n then n else |x| + 1;
    }
  }

  lemma FreshId(ids: set<string>) returns (e: string)
    ensures e !in ids
  {
    var n := LongerThanAll(ids);
    e := seq(n, i => 'x');
  }

  /** The event writes the version back: a late commit, or the supervisor's second attempt. */
  predicate PutsBack(s: Sys, r: WorkflowStatus, e: Event) {
    || (e == Write(r) && r in s.outstanding)
    || (e == PromoteAgain && s.promotions != [] && s.promoting == Some(r))
  }

  /** Nothing in the version keeps an execution id never used before from claiming it. */
  predicate OpenToClaims(h: History, r: WorkflowStatus) {
    Claimable(r) && (r.executionId.Some? ==> r.executionId.value in h.seen)
  }

  lemma PutBackAndClaim(s: Sys, r: WorkflowStatus, e: Event) returns (events: seq<Event>)
    requires PutsBack(s, r, e) && OpenToClaims(s.h, r)
    ensures IsRun(s, events) && AllOrdinary(events)
    ensures var s' := After(s, events);
            && OpenToClaims(s'.h, r) && s'.tasks == s.tasks + [Task(r.id, "x", false, Granted)]
            && (e.Write? ==> s'.promotions == s.promotions && s'.promoting == s.promoting)
  {
    var s1 := Step(s, e);
    assert s1.rows[r.id] == r && s1.tasks == s.tasks && s1.h == s.h;
    var start := SpawnAndClaim(s1, r);
    events := [e] + start;
    PrependTo(s, s1, e, start, events);
  }

  lemma SpawnAndClaim(s: Sys, r: WorkflowStatus) returns (events: seq<Event>)
    requires r.id in s.rows && s.rows[r.id] == r && OpenToClaims(s.h, r)
    ensures IsRun(s, events) && AllOrdinary(events)
    ensures var s' := After(s, events);
            OpenToClaims(s'.h, r) && s'.tasks == s.tasks + [Task(r.id, "x", false, Granted)] && SameWriters(s, s')
  {
    var n := |s.tasks|;
    var unused := FreshId(s.h.seen);
    var s1 := s.(tasks := s.tasks + [Task(r.id, "x", false, Start)]);
    ReadAndClaim(s1, n, unused, r);
    assert s1.tasks[n := Task(r.id, "x", false, Granted)] == s.tasks + [Task(r.id, "x", false, Granted)];
    var claim := [Read(n)] + ([ClaimAtomic(n, unused, 0)] + []);
    events := [Spawn(r.id, "x")] + claim;
    PrependTo(s, s1, Spawn(r.id, "x"), claim, events);
  }

  lemma ReadAndClaim(s: Sys, n: nat, unused: string, r: WorkflowStatus)
    requires n < |s.tasks| && s.tasks[n].pc.Start? && s.tasks[n].workflow == r.id && unused !in s.h.seen
    requires r.id in s.rows && s.rows[r.id] == r && OpenToClaims(s.h, r)
    ensures var events := [Read(n)] + ([ClaimAtomic(n, unused, 0)] + []);
            && IsRun(s, events) && AllOrdinary(events)
            && var s' := After(s, events);
               OpenToClaims(s'.h, r) && s'.tasks == s.tasks[n := s.tasks[n].(pc := Granted)] && SameWriters(s, s')
  {
    var s1 := MoveTo(s, n, ToClaim);
    ClaimAlone(s1, n, unused, 0);
    var s2 := Step(s1, ClaimAtomic(n, unused, 0));
    assert s.h.seen <= s2.h.seen;
    Prepend(s1, ClaimAtomic(n, unused, 0), []);
    var rest := [ClaimAtomic(n, unused, 0)] + [];
    PrependTo(s, s1, Read(n), rest, [Read(n)] + rest);
  }

  /** The lost attempt commits and the row is claimed; then the second attempt makes the row claimable once more. */
  lemma CarelessPromotionBreaks(s: Sys, now: Time) returns (events: seq<Event>)
    requires Inv(s) && Enabled(s, PromoteLost(now)) && !Disciplined(s, PromoteLost(now))
    ensures var s' := Step(s, PromoteLost(now));
            IsRun(s', events) && AllOrdinary(events) && !Exclusive(After(s', events))
  {
    assert PromotionOk(s.h, s.rows, s.promotions[0]);
    var r := PromotedCopy(s.promotions[0], now);
    var s0 := Step(s, PromoteLost(now));
    assert s0 == LeaveOutstanding(s, r).(promoting := Some(r));
    events := TwoPutsBreak(s0, r);
  }

  lemma TwoPutsBreak(s: Sys, r: WorkflowStatus) returns (events: seq<Event>)
    requires PutsBack(s, r, Write(r)) && PutsBack(s, r, PromoteAgain) && OpenToClaims(s.h, r)
    ensures IsRun(s, events) && AllOrdinary(events) && !Exclusive(After(s, events))
  {
    var first := PutBackAndClaim(s, r, Write(r));
    var s1 := After(s, first);
    var second := PutBackAndClaim(s1, r, PromoteAgain);
    var s2 := After(s1, second);
    RunsCompose(s, first, second);
    events := first + second;
    var a, b := s2.tasks[|s.tasks|], s2.tasks[|s.tasks| + 1];
    assert PastClaim(a) && PastClaim(b) && a.workflow == b.workflow;
  }

  // ----- the exact condition -----

  lemma InvStaysExclusive(s: Sys)
    requires Inv(s)
    ensures StaysExclusive(s)
  {
    forall events | IsRun(s, events) && IsDisciplinedRun(s, events)
      ensures Exclusive(After(s, events))
    {
      RunKeepsInv(s, events);
      InvImpliesExclusive(After(s, events));
    }
  }

  /** In every state that the protocol can reach, a step leaves exclusive execution safe for good if and only if it
      is disciplined: a recovery pass exactly when no live task works on a workflow it restarts, a promotion left
      without an acknowledgement exactly when the promoted row has an owner, any other step always. */
  lemma DisciplineIsExact(s: Sys, e: Event)
    requires Inv(s) && Enabled(s, e)
    ensures Disciplined(s, e) <==> StaysExclusive(Step(s, e))
  {
    if Disciplined(s, e) {
      StepKeepsInv(s, e);
      InvStaysExclusive(Step(s, e));
    } else {
      var events: seq<Event>;
      match e {
        case Recover(executor, executorIds, order) => events := CarelessRecoveryBreaks(s, executor, executorIds, order);
        case PromoteLost(now) => events := CarelessPromotionBreaks(s, now);
      }
      OrdinaryRunsAreDisciplined(Step(s, e), events);
    }
  }

  /** The condition over whole runs: a reached state and a next step. */
  lemma ReachedStepIsSafeIff(events: seq<Event>, e: Event)
    requires IsRun(INIT, events) && IsDisciplinedRun(INIT, events) && Enabled(After(INIT, events), e)
    ensures Disciplined(After(INIT, events), e) <==> StaysExclusive(Step(After(INIT, events), e))
  {
    InitInv();
    RunKeepsInv(INIT, events);
    DisciplineIsExact(After(INIT, events), e);
  }

  lemma ClaimedStateIsReached(row: WorkflowStatus, executor: string)
    requires Claimable(row) && row.executionId.None?
    ensures IsRun(INIT, ClaimEvents(row, executor))
    ensures After(INIT, ClaimEvents(row, executor)) == ClaimedState(row, executor) && Inv(ClaimedState(row, executor))
  {
    ClaimFromScratch(row, executor);
    OrdinaryRunsAreDisciplined(INIT, ClaimEvents(row, executor));
    InitInv();
    RunKeepsInv(INIT, ClaimEvents(row, executor));
  }

  /** An instance: a recovery pass taken while the executor is already working on the workflow, as when launching
      starts the queue supervisor first, puts two live tasks past its claim. */
  lemma RecoveryWhileLiveBreaksExclusion(row: WorkflowStatus, executor: string) returns (events: seq<Event>)
    requires Claimable(row) && row.executionId.None?
    ensures IsRun(INIT, events) && !Exclusive(After(INIT, events))
  {
    ClaimedStateIsReached(row, executor);
    var s := ClaimedState(row, executor);
    var claim := ClaimEvents(row, executor);
    var e := Recover(executor, [executor], [row.id]);
    assert Restarts(s.rows[row.id], executor, [executor]) && WorksOn(s.rows[row.id], s.tasks[0]);
    var rest := CarelessRecoveryBreaks(s, executor, [executor], [row.id]);
    Prepend(s, e, rest);
    events := claim + ([e] + rest);
    RunsCompose(INIT, claim, [e] + rest);
  }
}
