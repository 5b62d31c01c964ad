/** Every undisturbed call of `Context` that reads, computes and writes rows is a run of the execution protocol:
    the steps of one participant taken in a row, with the same effect on the row table. */
module ContextProtocol {
  import opened Types
  import opened Sequences
  import opened Listing
  import opened StoreSpec
  import opened Serialization
  import opened Execution
  import opened ExecutionRuns
  import C = Context
  import D = Deduplication

  /** Task `i` alone gets to `pc` by these events; the rows are then `rows`, and `entered` bodies were entered. */
  ghost predicate LeadsTo(s: Sys, i: nat, events: seq<Event>, rows: Rows, pc: Pc, entered: multiset<string>) {
    && i < |s.tasks| && IsRun(s, events)
    && var s' := After(s, events);
       && s'.rows == rows && s'.tasks == s.tasks[i := s.tasks[i].(pc := pc)]
       && s'.entered == s.entered + entered && SameWriters(s, s')
  }

  lemma Then(s: Sys, i: nat, a: seq<Event>, rows1: Rows, pc1: Pc, entered1: multiset<string>,
             b: seq<Event>, rows2: Rows, pc2: Pc, entered2: multiset<string>)
    requires LeadsTo(s, i, a, rows1, pc1, entered1) && LeadsTo(After(s, a), i, b, rows2, pc2, entered2)
    ensures LeadsTo(s, i, a + b, rows2, pc2, entered1 + entered2)
  {
    RunsCompose(s, a, b);
    assert s.tasks[i := s.tasks[i].(pc := pc1)][i := s.tasks[i].(pc := pc2)] == s.tasks[i := s.tasks[i].(pc := pc2)];
    assert s.entered + entered1 + entered2 == s.entered + (entered1 + entered2);
  }

  lemma OneStep(s: Sys, i: nat, e: Event, s1: Sys, pc: Pc, entered: multiset<string>)
    requires i < |s.tasks| && Enabled(s, e) && s1 == Step(s, e)
    requires s1.tasks == s.tasks[i := s.tasks[i].(pc := pc)] && s1.entered == s.entered + entered && SameWriters(s, s1)
    ensures LeadsTo(s, i, [e], s1.rows, pc, entered) && After(s, [e]) == s1
  {
    PrependTo(s, s1, e, [], [e]);
  }

  // ----- the parts of an execution -----

  /** The row is there under its own id, and the execution id was never used. */
  predicate IsStart(s: Sys, i: nat, execution: string) {
    && i < |s.tasks| && s.tasks[i].pc == Start && execution !in s.h.seen
    && var w := s.tasks[i].workflow;
       w in s.rows ==> s.rows[w].id == w && s.rows[w].executionId != Some(execution)
  }

  lemma ReadAlone(s: Sys, i: nat, pc: Pc)
    requires i < |s.tasks| && s.tasks[i].pc == Start
    requires pc == AfterRead(GetWorkflow(s.rows, s.tasks[i].workflow), s.tasks[i].executor, s.tasks[i].resume)
    ensures LeadsTo(s, i, [Read(i)], s.rows, pc, multiset{}) && After(s, [Read(i)]) == MoveTo(s, i, pc)
  {
    OneStep(s, i, Read(i), MoveTo(s, i, pc), pc, multiset{});
  }

  lemma RefusedClaimAlone(s: Sys, i: nat, execution: string, now: Time)
    requires i < |s.tasks| && s.tasks[i].pc == ToClaim && execution !in s.h.seen
    requires s.tasks[i].workflow in s.rows && !Claimable(s.rows[s.tasks[i].workflow]) && s.rows[s.tasks[i].workflow].executionId != Some(execution)
    ensures LeadsTo(s, i, [ClaimAtomic(i, execution, now)], s.rows, Done, multiset{})
  {
    var s1 := Step(s, ClaimAtomic(i, execution, now));
    assert s1 == MoveTo(Mint(s, i, execution), i, Done);
    OneStep(s, i, ClaimAtomic(i, execution, now), s1, Done, multiset{});
  }

  lemma RefusedAlone(s: Sys, i: nat, execution: string, now: Time) returns (events: seq<Event>)
    requires IsStart(s, i, execution)
    requires var t := s.tasks[i]; t.workflow in s.rows ==> !C.MayRun(s.rows[t.workflow], t.executor, t.resume)
    ensures LeadsTo(s, i, events, s.rows, Done, multiset{})
  {
    var t := s.tasks[i];
    var pc := AfterRead(GetWorkflow(s.rows, t.workflow), t.executor, t.resume);
    ReadAlone(s, i, pc);
    events := [Read(i)];
    if pc == ToClaim {
      RefusedClaimAlone(After(s, events), i, execution, now);
      Then(s, i, events, s.rows, pc, multiset{}, [ClaimAtomic(i, execution, now)], s.rows, Done, multiset{});
      events := events + [ClaimAtomic(i, execution, now)];
    }
  }

  lemma GrantedAlone(s: Sys, i: nat, execution: string, now: Time, owned: WorkflowStatus) returns (events: seq<Event>)
    requires i < |s.tasks| && s.tasks[i].pc == ToClaim && execution !in s.h.seen
    requires var w := s.tasks[i].workflow; w in s.rows && Claimable(s.rows[w]) && s.rows[w].executionId != Some(execution)
    requires owned == ClaimedRow(s.rows[s.tasks[i].workflow], s.tasks[i].executor, execution, now)
    ensures LeadsTo(s, i, events, s.rows[s.tasks[i].workflow := owned], ToSave(owned), multiset{})
  {
    ClaimAlone(s, i, execution, now);
    var s1 := Step(s, ClaimAtomic(i, execution, now));
    OneStep(s, i, ClaimAtomic(i, execution, now), s1, Granted, multiset{});
    OneStep(s1, i, Reread(i), MoveTo(s1, i, ToSave(owned)), ToSave(owned), multiset{});
    Then(s, i, [ClaimAtomic(i, execution, now)], s1.rows, Granted, multiset{}, [Reread(i)], s1.rows, ToSave(owned), multiset{});
    events := [ClaimAtomic(i, execution, now)] + [Reread(i)];
  }

  /** By a claim or as the resuming owner, the task gets its row. */
  lemma TakeAlone(s: Sys, i: nat, execution: string, now: Time, taken: WorkflowStatus) returns (events: seq<Event>)
    requires IsStart(s, i, execution)
    requires var t := s.tasks[i]; t.workflow in s.rows && C.MayRun(s.rows[t.workflow], t.executor, t.resume)
    requires taken == C.Taken(s.rows[s.tasks[i].workflow], s.tasks[i].executor, execution, now)
    ensures LeadsTo(s, i, events, s.rows[s.tasks[i].workflow := taken], ToSave(taken), multiset{})
  {
    var t := s.tasks[i];
    var pc := AfterRead(GetWorkflow(s.rows, t.workflow), t.executor, t.resume);
    ReadAlone(s, i, pc);
    events := [Read(i)];
    if pc == ToClaim {
      var s1 := After(s, events);
      var claim := GrantedAlone(s1, i, execution, now, taken);
      Then(s, i, events, s.rows, pc, multiset{}, claim, s1.rows[t.workflow := taken], ToSave(taken), multiset{});
      events := events + claim;
    } else {
      assert s.rows[t.workflow := taken] == s.rows;
    }
  }

  lemma StopAlone(s: Sys, i: nat)
    requires i < |s.tasks|
    ensures LeadsTo(s, i, [Stop(i)], s.rows, Done, multiset{})
  {
    OneStep(s, i, Stop(i), MoveTo(s, i, Done), Done, multiset{});
  }

  lemma StartAlone(s: Sys, i: nat, now: Time)
    requires i < |s.tasks| && s.tasks[i].pc.ToSave? && s.tasks[i].pc.copy.id == s.tasks[i].workflow
    ensures LeadsTo(s, i, [SavePending(i, now)], s.rows[s.tasks[i].workflow := PendingCopy(s.tasks[i].pc.copy, now)], Ready, multiset{})
  {
    OneStep(s, i, SavePending(i, now), MoveTo(Save(s, PendingCopy(s.tasks[i].pc.copy, now)), i, Ready), Ready, multiset{});
  }

  lemma EnterAndStop(s: Sys, i: nat)
    requires i < |s.tasks| && s.tasks[i].pc == Ready
    ensures LeadsTo(s, i, [Enter(i)] + [Stop(i)], s.rows, Done, multiset{s.tasks[i].workflow})
  {
    var entered := multiset{s.tasks[i].workflow};
    var s1 := MoveTo(s.(entered := s.entered + entered), i, Running);
    OneStep(s, i, Enter(i), s1, Running, entered);
    StopAlone(s1, i);
    Then(s, i, [Enter(i)], s.rows, Running, entered, [Stop(i)], s.rows, Done, multiset{});
    assert entered + multiset{} == entered;
  }

  /** What a ready task does when its input is unreadable (`outcome` is nothing and the body is not entered), when its
      output cannot be written (nothing, but entered), and when it ends. */
  lemma EndAlone(s: Sys, i: nat, row: WorkflowStatus, enters: bool, outcome: Option<Outcome>, now: Time) returns (events: seq<Event>)
    requires i < |s.tasks| && s.tasks[i].pc == Ready && s.tasks[i].workflow in s.rows && s.rows[s.tasks[i].workflow] == row
    requires row.status == Pending && row.id == s.tasks[i].workflow && (outcome.Some? ==> enters)
    ensures LeadsTo(s, i, events, if outcome.Some? then s.rows[row.id := FinishedCopy(row, outcome.value, now)] else s.rows, Done,
                    if enters then multiset{row.id} else multiset{})
  {
    if outcome.Some? {
      FinishAlone(s, i, now, outcome.value);
      events := FinishEvents(i, now, outcome.value);
    } else if enters {
      EnterAndStop(s, i);
      events := [Enter(i)] + [Stop(i)];
    } else {
      StopAlone(s, i);
      events := [Stop(i)];
    }
  }

  /** After its row is taken the task starts and ends. */
  lemma StartAndEnd(s: Sys, i: nat, taken: WorkflowStatus, startedAt: Time, enters: bool, outcome: Option<Outcome>, finishedAt: Time) returns (events: seq<Event>)
    requires i < |s.tasks| && s.tasks[i].pc == ToSave(taken) && taken.id == s.tasks[i].workflow && (outcome.Some? ==> enters)
    ensures var started := PendingCopy(taken, startedAt);
            LeadsTo(s, i, events,
                    if outcome.Some? then s.rows[taken.id := FinishedCopy(started, outcome.value, finishedAt)] else s.rows[taken.id := started], Done,
                    if enters then multiset{taken.id} else multiset{})
  {
    var started := PendingCopy(taken, startedAt);
    StartAlone(s, i, startedAt);
    var s1 := After(s, [SavePending(i, startedAt)]);
    var ending := EndAlone(s1, i, started, enters, outcome, finishedAt);
    var rows := if outcome.Some? then s1.rows[taken.id := FinishedCopy(started, outcome.value, finishedAt)] else s1.rows;
    var entered := if enters then multiset{taken.id} else multiset{};
    Then(s, i, [SavePending(i, startedAt)], s1.rows, Ready, multiset{}, ending, rows, Done, entered);
    assert multiset{} + entered == entered;
    if outcome.Some? {
      WrittenTwice(s.rows, taken.id, started, FinishedCopy(started, outcome.value, finishedAt));
    }
    events := [SavePending(i, startedAt)] + ending;
  }

  lemma WrittenTwice(rows: Rows, id: string, a: WorkflowStatus, b: WorkflowStatus)
    ensures rows[id := a][id := b] == rows[id := b]
  {
  }

  // ----- whole calls -----

  /** Whatever branch it takes, the undisturbed call of `ExecuteWorkflow` is a run of its task: same rows, the body
      entered as often, the task ended, and nothing else moved. */
  lemma ExecutionFollowsTheProtocol(s: Sys, i: nat, codec: Codec, c: C.Call, rows': Rows, r: Result<()>, entered: bool) returns (events: seq<Event>)
    requires IsStart(s, i, c.execution) && s.tasks[i] == Task(c.id, c.executor, c.resume, Start)
    requires C.Executes(codec, c, s.rows, rows', r, entered)
    ensures LeadsTo(s, i, events, rows', Done, if entered then multiset{c.id} else multiset{})
  {
    if c.id !in s.rows || !C.MayRun(s.rows[c.id], c.executor, c.resume) {
      events := RefusedAlone(s, i, c.execution, c.claimedAt);
    } else {
      var taken := C.Taken(s.rows[c.id], c.executor, c.execution, c.claimedAt);
      var take := TakeAlone(s, i, c.execution, c.claimedAt, taken);
      var rest := TakenFollowsTheProtocol(After(s, take), s.rows, i, codec, c, rows', r, entered);
      Then(s, i, take, s.rows[c.id := taken], ToSave(taken), multiset{}, rest, rows', Done, if entered then multiset{c.id} else multiset{});
      assert multiset{} + (if entered then multiset{c.id} else multiset{}) == if entered then multiset{c.id} else multiset{};
      events := take + rest;
    }
  }

  lemma TakenFollowsTheProtocol(s: Sys, rows: Rows, i: nat, codec: Codec, c: C.Call, rows': Rows, r: Result<()>, entered: bool) returns (events: seq<Event>)
    requires C.Executes(codec, c, rows, rows', r, entered)
    requires c.id in rows && rows[c.id].id == c.id && C.MayRun(rows[c.id], c.executor, c.resume) && i < |s.tasks| && s.tasks[i].workflow == c.id
    requires var taken := C.Taken(rows[c.id], c.executor, c.execution, c.claimedAt);
             s.rows == rows[c.id := taken] && s.tasks[i].pc == ToSave(taken)
    ensures LeadsTo(s, i, events, rows', Done, if entered then multiset{c.id} else multiset{})
  {
    var taken := C.Taken(rows[c.id], c.executor, c.execution, c.claimedAt);
    if c.body.None? {
      StopAlone(s, i);
      events := [Stop(i)];
    } else {
      var started := PendingCopy(taken, c.startedAt);
      var outcome := if entered then EndOf(codec, c, taken, started) else None;
      events := StartAndEnd(s, i, taken, c.startedAt, entered, outcome, c.finishedAt);
      WrittenTwice(rows, c.id, taken, started);
      if outcome.Some? {
        WrittenTwice(rows, c.id, taken, FinishedCopy(started, outcome.value, c.finishedAt));
      }
    }
  }

  /** What the body's run records, if its input can be read and its output written. */
  function EndOf(codec: Codec, c: C.Call, taken: WorkflowStatus, started: WorkflowStatus): Option<Outcome>
    requires c.body.Some?
  {
    var input := DecodeStoredValue(codec, taken.input, taken.serialization);
    if input.Err? then None
    else
      var outcome := C.OutcomeOf(codec, started, c.body.value(input.value));
      if outcome.Err? then None else Some(outcome.value)
  }

  /** The undisturbed `CancelWorkflow` is a cancel whose write is acknowledged, or no step at all. */
  lemma CancelFollowsTheProtocol(s: Sys, id: string, now: Time) returns (events: seq<Event>)
    requires id in s.rows ==> s.rows[id].id == id
    ensures IsRun(s, events) && After(s, events).tasks == s.tasks && SameWriters(s, After(s, events))
    ensures After(s, events).rows == D.Apply(s.rows, D.Cancel(id, now))
  {
    events := [];
    if id in s.rows && !s.rows[id].status.IsTerminal() {
      CancelAlone(s, id, now);
      events := [CancelRead(id, now)] + ([CancelAcked(Cancel(CancelledCopy(s.rows[id], now), false))] + []);
    }
  }

  // ----- the supervisor's promotions -----

  function Promotes(n: nat, now: Time): seq<Event> {
    if n == 0 then [] else [Promote(now)] + Promotes(n - 1, now)
  }

  function PromotedAll(rows: Rows, promotions: seq<WorkflowStatus>, now: Time): Rows
    decreases |promotions|
  {
    if promotions == [] then rows else PromotedAll(SaveWorkflow(rows, PromotedCopy(promotions[0], now)), promotions[1..], now)
  }

  lemma {:induction false} PromoteAllAlone(s: Sys, now: Time)
    requires s.promoting.None?
    ensures IsRun(s, Promotes(|s.promotions|, now))
    ensures var s' := After(s, Promotes(|s.promotions|, now));
            && s'.rows == PromotedAll(s.rows, s.promotions, now) && s'.tasks == s.tasks
            && SameWriters(s.(promotions := []), s')
    decreases |s.promotions|
  {
    if s.promotions != [] {
      var s1 := Save(s, PromotedCopy(s.promotions[0], now)).(promotions := s.promotions[1..]);
      PromoteAllAlone(s1, now);
      var rest := Promotes(|s1.promotions|, now);
      PrependTo(s, s1, Promote(now), rest, [Promote(now)] + rest);
    }
  }

  /** Distinct listed rows are promoted one by one, and no other. */
  lemma {:induction false} PromotedAllRows(rows: Rows, promotions: seq<WorkflowStatus>, now: Time)
    requires DistinctIds(promotions) && forall i :: 0 <= i < |promotions| ==> promotions[i].id in rows
    ensures var rows' := PromotedAll(rows, promotions, now);
            && rows'.Keys == rows.Keys
            && (forall i :: 0 <= i < |promotions| ==> rows'[promotions[i].id] == PromotedCopy(promotions[i], now))
            && (forall id :: id in rows && (forall i :: 0 <= i < |promotions| ==> promotions[i].id != id) ==> rows'[id] == rows[id])
  {
    if promotions != [] {
      PromotedAllRows(SaveWorkflow(rows, PromotedCopy(promotions[0], now)), promotions[1..], now);
    }
  }

  lemma PromotionsAreTheDue(rows: Rows, order: seq<string>, now: Time)
    requires Enumerates(order, rows) && forall id :: id in rows ==> rows[id].id == id
    ensures var listed := Promotions(rows, order, now);
            && DistinctIds(listed)
            && (forall i :: 0 <= i < |listed| ==> listed[i].id in rows && rows[listed[i].id] == listed[i] && Due(listed[i], now))
            && (forall id :: id in rows && Due(rows[id], now) ==> exists i :: 0 <= i < |listed| && listed[i].id == id)
  {
    var all := RowsInOrder(rows, order);
    RowsInOrderAreTheTable(rows, order);
    FilterMembers(all, DueAt(now));
    FilterDistinct(all, DueAt(now));
    var listed := Promotions(rows, order, now);
    assert forall i :: 0 <= i < |listed| ==> listed[i] in listed;
    forall id | id in rows && Due(rows[id], now)
      ensures exists i :: 0 <= i < |listed| && listed[i].id == id
    {
      assert rows[id] in listed;
    }
  }

  /** The undisturbed promotion pass is the listing step followed by one acknowledged promotion for each due row. */
  lemma PromotionFollowsTheProtocol(s: Sys, order: seq<string>, now: Time, rows': Rows) returns (events: seq<Event>)
    requires s.promotions == [] && s.promoting.None? && Enumerates(order, s.rows) && forall id :: id in s.rows ==> s.rows[id].id == id
    requires C.PromotedAmong(s.rows, rows', s.rows.Keys, now)
    ensures IsRun(s, events) && After(s, events).rows == rows' && After(s, events).tasks == s.tasks && SameWriters(s, After(s, events))
  {
    var listed := Promotions(s.rows, order, now);
    var s1 := s.(promotions := listed);
    PromoteAllAlone(s1, now);
    PassPromotesTheDue(s.rows, order, now, rows');
    var rest := Promotes(|listed|, now);
    events := [ListDelayed(order, now)] + rest;
    PrependTo(s, s1, ListDelayed(order, now), rest, events);
  }

  lemma PassPromotesTheDue(rows: Rows, order: seq<string>, now: Time, rows': Rows)
    requires Enumerates(order, rows) && forall id :: id in rows ==> rows[id].id == id
    requires C.PromotedAmong(rows, rows', rows.Keys, now)
    ensures PromotedAll(rows, Promotions(rows, order, now), now) == rows'
  {
    var listed := Promotions(rows, order, now);
    PromotionsAreTheDue(rows, order, now);
    PromotedAllRows(rows, listed, now);
    var promoted := PromotedAll(rows, listed, now);
    forall id | id in rows
      ensures promoted[id] == rows'[id]
    {
      if Due(rows[id], now) {
        var i :| 0 <= i < |listed| && listed[i].id == id;
        assert promoted[listed[i].id] == PromotedCopy(listed[i], now);
      }
    }
  }
}
