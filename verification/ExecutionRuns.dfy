/** Runs of the execution protocol: how they compose, what one undisturbed task achieves, and the short runs from
    which the witnesses of `ExecutionDiscipline` and `ExecutionFinality` are built. */
module ExecutionRuns {
  import opened Types
  import opened Sequences
  import opened StoreSpec
  import opened Listing
  import opened Execution
  import opened ExecutionSafety

  lemma Prepend(s: Sys, e: Event, rest: seq<Event>)
    requires Enabled(s, e) && IsRun(Step(s, e), rest)
    ensures IsRun(s, [e] + rest) && After(s, [e] + rest) == After(Step(s, e), rest)
  {
    assert ([e] + rest)[1..] == rest;
  }

  lemma PrependTo(s: Sys, s1: Sys, e: Event, rest: seq<Event>, whole: seq<Event>)
    requires Enabled(s, e) && s1 == Step(s, e) && IsRun(s1, rest)
    requires whole != [] && whole[0] == e && whole[1..] == rest
    ensures IsRun(s, whole) && After(s, whole) == After(s1, rest)
  {
  }

  lemma Unroll(s: Sys, events: seq<Event>) returns (s1: Sys)
    requires events != [] && IsRun(s, events)
    ensures Enabled(s, events[0]) && s1 == Step(s, events[0])
    ensures IsRun(s1, events[1..]) && After(s, events) == After(s1, events[1..])
  {
    s1 := Step(s, events[0]);
  }

  lemma ConcatFrontDrop<T>(a: seq<T>, b: seq<T>)
    ensures if a == [] then a + b == b else a + b != [] && (a + b)[0] == a[0] && (a + b)[1..] == a[1..] + b
  {
    if a != [] {
      assert a == [a[0]] + a[1..];
    }
  }

  lemma {:induction false} RunsCompose(s: Sys, a: seq<Event>, b: seq<Event>)
    requires IsRun(s, a) && IsRun(After(s, a), b)
    ensures IsRun(s, a + b) && After(s, a + b) == After(After(s, a), b)
    decreases |a|
  {
    ConcatFrontDrop(a, b);
    if a != [] {
      var s1 := Unroll(s, a);
      RunsCompose(s1, a[1..], b);
      PrependTo(s, s1, a[0], a[1..] + b, a + b);
    }
  }

  /** The store calls of `execute_workflow` in order, for a task that claims. */
  function ExecuteEvents(i: nat, execution: string, claimedAt: Time, startedAt: Time, finishedAt: Time, outcome: Outcome): seq<Event> {
    AcquireEvents(i, execution, claimedAt, startedAt) + FinishEvents(i, finishedAt, outcome)
  }

  function AcquireEvents(i: nat, execution: string, claimedAt: Time, startedAt: Time): seq<Event> {
    [Read(i)] + ([ClaimAtomic(i, execution, claimedAt)] + ([Reread(i)] + ([SavePending(i, startedAt)] + [])))
  }

  function FinishEvents(i: nat, now: Time, outcome: Outcome): seq<Event> {
    [Enter(i)] + ([FinalRead(i, outcome, now)] + ([SaveFinal(i)] + []))
  }

  /** Nobody else is closer to, or further from, writing anything. */
  predicate SameWriters(s: Sys, s': Sys) {
    s'.outstanding == s.outstanding && s'.cancels == s.cancels && s'.promotions == s.promotions && s'.promoting == s.promoting
  }

  /** A ready task left alone runs the body once and records its outcome. */
  lemma FinishAlone(s: Sys, i: nat, now: Time, outcome: Outcome)
    requires i < |s.tasks| && s.tasks[i].pc == Ready
    requires s.tasks[i].workflow in s.rows && s.rows[s.tasks[i].workflow].status == Pending && s.rows[s.tasks[i].workflow].id == s.tasks[i].workflow
    ensures IsRun(s, FinishEvents(i, now, outcome))
    ensures var t, s' := s.tasks[i], After(s, FinishEvents(i, now, outcome));
            && s'.rows == s.rows[t.workflow := FinishedCopy(s.rows[t.workflow], outcome, now)]
            && s'.tasks == s.tasks[i := t.(pc := Done)] && s'.entered == s.entered + multiset{t.workflow} && SameWriters(s, s')
  {
    var t := s.tasks[i];
    var s1 := s.(tasks := s.tasks[i := t.(pc := Running)], entered := s.entered + multiset{t.workflow});
    RecordAlone(s1, i, now, outcome);
    assert s1.tasks[i := t.(pc := Done)] == s.tasks[i := t.(pc := Done)];
    var rest := [FinalRead(i, outcome, now)] + ([SaveFinal(i)] + []);
    PrependTo(s, s1, Enter(i), rest, [Enter(i)] + rest);
  }

  lemma RecordAlone(s: Sys, i: nat, now: Time, outcome: Outcome)
    requires i < |s.tasks| && s.tasks[i].pc == Running
    requires var w := s.tasks[i].workflow; w in s.rows && s.rows[w].status == Pending && s.rows[w].id == w
    ensures var events := [FinalRead(i, outcome, now)] + ([SaveFinal(i)] + []);
            && IsRun(s, events)
            && var t, s' := s.tasks[i], After(s, events);
               && s'.rows == s.rows[t.workflow := FinishedCopy(s.rows[t.workflow], outcome, now)]
               && s'.tasks == s.tasks[i := t.(pc := Done)] && s'.entered == s.entered && SameWriters(s, s')
  {
    var s1 := Step(s, FinalRead(i, outcome, now));
    assert s1 == MoveTo(s, i, ToFinish(FinishedCopy(s.rows[s.tasks[i].workflow], outcome, now)));
    Prepend(s1, SaveFinal(i), []);
    Prepend(s, FinalRead(i, outcome, now), [SaveFinal(i)] + []);
  }

  /** The task reads a row that it may claim, under an execution id never used before. */
  predicate MayClaim(s: Sys, i: nat, execution: string) {
    && i < |s.tasks| && s.tasks[i].pc == Start && execution !in s.h.seen
    && var w := s.tasks[i].workflow;
       w in s.rows && Claimable(s.rows[w]) && s.rows[w].id == w && s.rows[w].executionId != Some(execution)
  }

  lemma AcquireAlone(s: Sys, i: nat, execution: string, claimedAt: Time, startedAt: Time)
    requires MayClaim(s, i, execution)
    ensures IsRun(s, AcquireEvents(i, execution, claimedAt, startedAt))
    ensures var t, s' := s.tasks[i], After(s, AcquireEvents(i, execution, claimedAt, startedAt));
            && s'.rows == s.rows[t.workflow := PendingCopy(ClaimedRow(s.rows[t.workflow], t.executor, execution, claimedAt), startedAt)]
            && s'.tasks == s.tasks[i := t.(pc := Ready)]
            && s'.entered == s.entered && SameWriters(s, s')
  {
    var s1 := Step(s, Read(i));
    assert s1 == MoveTo(s, i, ToClaim);
    ClaimAndSaveAlone(s1, i, execution, claimedAt, startedAt);
    Prepend(s, Read(i), [ClaimAtomic(i, execution, claimedAt)] + ([Reread(i)] + ([SavePending(i, startedAt)] + [])));
  }

  lemma ClaimAndSaveAlone(s: Sys, i: nat, execution: string, claimedAt: Time, startedAt: Time)
    requires i < |s.tasks| && s.tasks[i].pc == ToClaim && execution !in s.h.seen
    requires var w := s.tasks[i].workflow; w in s.rows && Claimable(s.rows[w]) && s.rows[w].id == w && s.rows[w].executionId != Some(execution)
    ensures var events := [ClaimAtomic(i, execution, claimedAt)] + ([Reread(i)] + ([SavePending(i, startedAt)] + []));
            && IsRun(s, events)
            && var t, s' := s.tasks[i], After(s, events);
               && s'.rows == s.rows[t.workflow := PendingCopy(ClaimedRow(s.rows[t.workflow], t.executor, execution, claimedAt), startedAt)]
               && s'.tasks == s.tasks[i := t.(pc := Ready)]
               && s'.entered == s.entered && SameWriters(s, s')
  {
    ClaimAlone(s, i, execution, claimedAt);
    SaveAlone(Step(s, ClaimAtomic(i, execution, claimedAt)), i, startedAt);
    Prepend(s, ClaimAtomic(i, execution, claimedAt), [Reread(i)] + ([SavePending(i, startedAt)] + []));
  }

  lemma ClaimAlone(s: Sys, i: nat, execution: string, now: Time)
    requires i < |s.tasks| && s.tasks[i].pc == ToClaim && execution !in s.h.seen
    requires var w := s.tasks[i].workflow; w in s.rows && Claimable(s.rows[w]) && s.rows[w].executionId != Some(execution)
    ensures Enabled(s, ClaimAtomic(i, execution, now))
    ensures var t, s' := s.tasks[i], Step(s, ClaimAtomic(i, execution, now));
            && s'.rows == s.rows[t.workflow := ClaimedRow(s.rows[t.workflow], t.executor, execution, now)]
            && s'.tasks == s.tasks[i := t.(pc := Granted)]
            && s'.entered == s.entered && SameWriters(s, s')
  {
  }

  lemma SaveAlone(s: Sys, i: nat, now: Time)
    requires i < |s.tasks| && s.tasks[i].pc == Granted
    requires var w := s.tasks[i].workflow; w in s.rows && s.rows[w].id == w && !s.rows[w].status.IsTerminal()
    ensures var events := [Reread(i)] + ([SavePending(i, now)] + []);
            && IsRun(s, events)
            && var t, s' := s.tasks[i], After(s, events);
               && s'.rows == s.rows[t.workflow := PendingCopy(s.rows[t.workflow], now)]
               && s'.tasks == s.tasks[i := t.(pc := Ready)]
               && s'.entered == s.entered && SameWriters(s, s')
  {
    var s1 := Step(s, Reread(i));
    assert s1 == MoveTo(s, i, ToSave(s.rows[s.tasks[i].workflow]));
    Prepend(s1, SavePending(i, now), []);
    Prepend(s, Reread(i), [SavePending(i, now)] + []);
  }

  /** One task, undisturbed, takes a claimable row through claim, run and completion: the body is entered exactly
      once, the row ends finished under the task's executor with one more attempt, and no other row changes. */
  lemma ExecuteAlone(s: Sys, i: nat, execution: string, claimedAt: Time, startedAt: Time, finishedAt: Time, outcome: Outcome)
    requires MayClaim(s, i, execution)
    ensures IsRun(s, ExecuteEvents(i, execution, claimedAt, startedAt, finishedAt, outcome))
    ensures var t, s' := s.tasks[i], After(s, ExecuteEvents(i, execution, claimedAt, startedAt, finishedAt, outcome));
            && s'.rows.Keys == s.rows.Keys
            && (forall v :: v in s.rows && v != t.workflow ==> s'.rows[v] == s.rows[v])
            && s'.rows[t.workflow].status == (if outcome.Completed? then Success else Error)
            && s'.rows[t.workflow].executorId == Some(t.executor)
            && s'.rows[t.workflow].executionId == Some(execution)
            && (s.rows[t.workflow].attempts < MAX_U32 ==> s'.rows[t.workflow].attempts == s.rows[t.workflow].attempts + 1)
            && s'.entered == s.entered + multiset{t.workflow}
            && s'.tasks == s.tasks[i := t.(pc := Done)] && SameWriters(s, s')
  {
    AcquireAlone(s, i, execution, claimedAt, startedAt);
    var ready := After(s, AcquireEvents(i, execution, claimedAt, startedAt));
    FinishAlone(ready, i, finishedAt, outcome);
    RunsCompose(s, AcquireEvents(i, execution, claimedAt, startedAt), FinishEvents(i, finishedAt, outcome));
  }

  function ClaimEvents(row: WorkflowStatus, executor: string): seq<Event> {
    [Insert(row, true)] + ([Spawn(row.id, executor)] + ([Read(0)] + ([ClaimAtomic(0, "x", 1)] + [])))
  }

  function ClaimedState(row: WorkflowStatus, executor: string): Sys {
    var owned := ClaimedRow(row, executor, "x", 1);
    Sys(map[row.id := owned], [Task(row.id, executor, false, Granted)], multiset{}, {}, multiset{}, [], None,
        History(map[row.id := Owner(executor, Some("x"))], map["x" := (row.id, executor)], {"x"}), {(row.id, "x")}, multiset{}, multiset{})
  }

  lemma ClaimFromScratch(row: WorkflowStatus, executor: string)
    requires Claimable(row) && row.executionId.None?
    ensures IsRun(INIT, ClaimEvents(row, executor)) && After(INIT, ClaimEvents(row, executor)) == ClaimedState(row, executor)
  {
    var s1 := INIT.(rows := map[row.id := row]);
    var s2 := s1.(tasks := [Task(row.id, executor, false, Start)]);
    ReadAndClaimFirst(row, executor, s2);
    var claims := [Read(0)] + ([ClaimAtomic(0, "x", 1)] + []);
    var starts := [Spawn(row.id, executor)] + claims;
    PrependTo(s1, s2, Spawn(row.id, executor), claims, starts);
    FirstInsert(row);
    PrependTo(INIT, s1, Insert(row, true), starts, [Insert(row, true)] + starts);
  }

  lemma FirstInsert(row: WorkflowStatus)
    requires row.executorId.None? && row.executionId.None?
    ensures Enabled(INIT, Insert(row, true)) && Step(INIT, Insert(row, true)) == INIT.(rows := map[row.id := row])
  {
  }

  lemma ReadAndClaimFirst(row: WorkflowStatus, executor: string, s: Sys)
    requires Claimable(row) && row.executionId.None?
    requires s == INIT.(rows := map[row.id := row], tasks := [Task(row.id, executor, false, Start)])
    ensures var events := [Read(0)] + ([ClaimAtomic(0, "x", 1)] + []); IsRun(s, events) && After(s, events) == ClaimedState(row, executor)
  {
    var s1 := s.(tasks := [Task(row.id, executor, false, ToClaim)]);
    ClaimFirst(row, executor, s1);
    Prepend(s1, ClaimAtomic(0, "x", 1), []);
    PrependTo(s, s1, Read(0), [ClaimAtomic(0, "x", 1)] + [], [Read(0)] + ([ClaimAtomic(0, "x", 1)] + []));
  }

  lemma ClaimFirst(row: WorkflowStatus, executor: string, s: Sys)
    requires Claimable(row) && row.executionId.None?
    requires s == INIT.(rows := map[row.id := row], tasks := [Task(row.id, executor, false, ToClaim)])
    ensures Enabled(s, ClaimAtomic(0, "x", 1)) && Step(s, ClaimAtomic(0, "x", 1)) == ClaimedState(row, executor)
  {
    var s', c := Step(s, ClaimAtomic(0, "x", 1)), ClaimedState(row, executor);
    assert s'.rows == c.rows && s'.tasks == c.tasks && s'.told == c.told && s'.h == c.h;
  }

  /** The claiming task re-reads its row, then the row is cancelled. */
  function CancelEvents(row: WorkflowStatus, executor: string): seq<Event> {
    [Reread(0)] + ([CancelRead(row.id, 2)] + ([CancelAcked(Cancel(CancelledCopy(ClaimedRow(row, executor, "x", 1), 2), false))] + []))
  }

  lemma CancelAfterReread(row: WorkflowStatus, executor: string)
    requires Claimable(row) && row.executionId.None?
    ensures var s := ClaimedState(row, executor);
            && IsRun(s, CancelEvents(row, executor))
            && var s' := After(s, CancelEvents(row, executor));
               s'.rows == map[row.id := CancelledCopy(s.rows[row.id], 2)] && s'.tasks == [Task(row.id, executor, false, ToSave(s.rows[row.id]))]
  {
    var s := ClaimedState(row, executor);
    var owned := s.rows[row.id];
    var cancelled := CancelledCopy(owned, 2);
    var answered := CancelAcked(Cancel(cancelled, false));
    var s1 := Step(s, Reread(0));
    assert s1.rows == s.rows && s1.tasks == [Task(row.id, executor, false, ToSave(owned))];
    CancelAlone(s1, row.id, 2);
    assert s1.rows[row.id := cancelled] == map[row.id := cancelled];
    Prepend(s, Reread(0), [CancelRead(row.id, 2)] + ([answered] + []));
  }

  /** A cancel that nothing interrupts. */
  lemma CancelAlone(s: Sys, w: string, now: Time)
    requires w in s.rows && s.rows[w].id == w && !s.rows[w].status.IsTerminal()
    ensures var cancelled := CancelledCopy(s.rows[w], now);
            var events := [CancelRead(w, now)] + ([CancelAcked(Cancel(cancelled, false))] + []);
            && IsRun(s, events)
            && var s' := After(s, events); s'.rows == s.rows[w := cancelled] && s'.tasks == s.tasks && SameWriters(s, s')
  {
    var cancel := Cancel(CancelledCopy(s.rows[w], now), false);
    var s1 := Step(s, CancelRead(w, now));
    assert s1 == s.(cancels := s.cancels + multiset{cancel});
    assert s.cancels + multiset{cancel} - multiset{cancel} == s.cancels;
    Prepend(s1, CancelAcked(cancel), []);
    Prepend(s, CancelRead(w, now), [CancelAcked(cancel)] + []);
  }
}
