/** The SQL system database: one flat table of JSON rows under (kind, id) keys, statements that are retried once
    and whose acknowledgement can be lost, and a claim that is a guarded update resolved by a read. */
module PostgresStore {
  import opened Types
  import opened Sequences
  import opened StoreSpec
  import opened RowChanges
  import opened StateKeys

  datatype Payload =
    | WorkflowRow(w: WorkflowStatus)
    | StepRow(step: StepInfo)
    | EventRow(event: WorkflowEvent)
    | StreamRow(entry: StreamEntry)
    | MessageRow(message: WorkflowMessage)

  /** The kind column of the table. */
  datatype Kind = WorkflowKind | StepKind | EventKind | StreamKind | MessageKind

  type StateTable = map<(Kind, string), Payload>

  function KeyOf(p: Payload): (Kind, string) {
    match p
    case WorkflowRow(w) => (WorkflowKind, w.id)
    case StepRow(s) => (StepKind, StepKey(s.workflowId, s.stepId))
    case EventRow(e) => (EventKind, EventKey(e.workflowId, e.key))
    case StreamRow(e) => (StreamKind, StreamKey(e.workflowId, e.key, e.offset))
    case MessageRow(m) => (MessageKind, MessageKey(m))
  }

  /** The workflow a row belongs to. */
  function OwnerOf(p: Payload): string {
    match p
    case WorkflowRow(w) => w.id
    case StepRow(s) => s.workflowId
    case EventRow(e) => e.workflowId
    case StreamRow(e) => e.workflowId
    case MessageRow(m) => m.destinationId
  }

  /** Every row sits under the key that its payload spells. */
  ghost predicate TableOk(t: StateTable) {
    forall k :: k in t ==> k == KeyOf(t[k])
  }

  ghost predicate Holds(t: StateTable, p: Payload) {
    KeyOf(p) in t && t[KeyOf(p)] == p
  }

  /** The fate of one statement. */
  datatype Fate = Acknowledged | AppliedUnacknowledged | NotApplied

  predicate ClaimableIn(t: StateTable, id: string) {
    var k := (WorkflowKind, id);
    k in t && t[k].WorkflowRow? && Claimable(t[k].w)
  }

  /** The guarded update: it changes a claimable row and no other. */
  function GuardedTable(t: StateTable, id: string, executor: string, execution: string, now: Time): StateTable {
    var k := (WorkflowKind, id);
    if ClaimableIn(t, id) then t[k := WorkflowRow(ClaimedRow(t[k].w, executor, execution, now))] else t
  }

  /** A guarded update that was applied, or not, changed at most four columns of this row, and only of an unowned
      pending or enqueued one. */
  ghost predicate ClaimsAtMost(t: StateTable, t': StateTable, id: string, executor: string, execution: string, now: Time, applied: bool) {
    var k := (WorkflowKind, id);
    && t'.Keys == t.Keys && (forall other :: other in t && other != k ==> t'[other] == t[other])
    && (k in t && t[k].WorkflowRow? ==>
          var w := t[k].w;
          && t'[k].WorkflowRow?
          && if applied && (w.status == Pending || w.status == Enqueued) && w.executorId.None? then IsClaimed(w, t'[k].w, executor, execution, now)
             else t'[k] == t[k])
  }

  /** The resolving read finds this execution id on the row. */
  predicate IsTold(t: StateTable, id: string, execution: string) {
    var k := (WorkflowKind, id);
    k in t && t[k].WorkflowRow? && t[k].w.executionId == Some(execution)
  }

  /** The workflow rows of the table. */
  function WorkflowRows(t: StateTable): Rows {
    map k | k in t && k.0 == WorkflowKind && t[k].WorkflowRow? :: k.1 := t[k].w
  }

  class PostgresStore {
    var table: StateTable

    ghost predicate Valid()
      reads this
    {
      TableOk(table)
    }

    constructor ()
      ensures Valid() && table == map[]
    {
      table := map[];
    }

    /** The upsert may be applied by a first attempt whose acknowledgement is lost, and again by the second. */
    method Put(p: Payload, fates: (Fate, Fate)) returns (ok: bool)
      requires Valid()
      modifies this
      ensures Valid()
      ensures ok <==> fates.0 == Acknowledged || fates.1 == Acknowledged
      ensures ok ==> table == old(table)[KeyOf(p) := p]
      ensures !ok ==> table == old(table) || table == old(table)[KeyOf(p) := p]
    {
      for attempt := 0 to 2
        invariant Valid()
        invariant table == old(table) || table == old(table)[KeyOf(p) := p]
        invariant attempt > 0 ==> fates.0 != Acknowledged
        invariant attempt > 1 ==> fates.1 != Acknowledged
      {
        var fate := if attempt == 0 then fates.0 else fates.1;
        if fate != NotApplied {
          table := table[KeyOf(p) := p];
        }
        if fate == Acknowledged {
          return true;
        }
      }
      return false;
    }

    method Delete(k: (Kind, string))
      requires Valid()
      modifies this
      ensures Valid() && table == old(table) - {k}
    {
      table := table - {k};
    }

    /** All rows of one kind, in no particular order. */
    method List(kind: Kind) returns (r: seq<Payload>)
      requires Valid()
      ensures Distinct(r)
      ensures forall p :: p in r <==> Holds(table, p) && KeyOf(p).0 == kind
    {
      r := [];
      var remaining := table.Keys;
      while remaining != {}
        invariant remaining <= table.Keys
        invariant Distinct(r)
        invariant forall p :: p in r <==> Holds(table, p) && KeyOf(p).0 == kind && KeyOf(p) !in remaining
        decreases remaining
      {
        var k :| k in remaining;
        if k.0 == kind {
          r := r + [table[k]];
        }
        remaining := remaining - {k};
      }
    }

    method RecordStep(step: StepInfo, fates: (Fate, Fate)) returns (ok: bool)
      requires Valid()
      modifies this
      ensures Valid()
      ensures ok ==> table == TableAfter(old(table), Record(step))
    {
      ok := Put(StepRow(step), fates);
    }

    method GetStep(id: string, stepId: int) returns (r: Option<StepInfo>)
      requires Valid()
      ensures TableAnswers(table, Get(id, stepId), Found(r))
    {
      var k := (StepKind, StepKey(id, stepId));
      if k !in table {
        return None;
      }
      return Some(table[k].step);
    }

    method ListSteps(id: string) returns (r: seq<StepInfo>)
      requires Valid()
      ensures TableAnswers(table, ListOf(id), Listed(r))
    {
      var all := List(StepKind);
      var found: seq<StepInfo> := [];
      for i := 0 to |all|
        invariant forall x :: x in found <==> StepRow(x) in all[..i] && x.workflowId == id
        invariant Distinct(found)
      {
        assert all[i] in all;
        if all[i].step.workflowId == id {
          found := found + [all[i].step];
        }
      }
      assert all[..|all|] == all;
      r := StableSort(found, ByStepId());
      StableSortMultiset(found, ByStepId());
      StableSortOrders(found, ByStepId());
      DistinctMultiset(found, r);
      forall a, b | 0 <= a < b < |r|
        ensures r[a].stepId <= r[b].stepId
      {
        assert ByStepId()(r[a], r[b]);
      }
    }

    /** Deletes, one by one, the rows of each kind that belong to each workflow. */
    method DeleteWorkflows(ids: seq<string>)
      requires Valid()
      modifies this
      ensures Valid()
      ensures table == WithoutOwners(old(table), IdSet(ids))
    {
      for i := 0 to |ids|
        invariant Valid()
        invariant table == WithoutOwners(old(table), IdSet(ids[..i]))
      {
        DeleteWorkflow(ids[i]);
        assert IdSet(ids[..i + 1]) == IdSet(ids[..i]) + {ids[i]};
      }
      assert ids[..|ids|] == ids;
    }

    method DeleteWorkflow(id: string)
      requires Valid()
      modifies this
      ensures Valid()
      ensures table == WithoutOwners(old(table), {id})
    {
      KindsDeletedInTurn(table, id);
      Delete((WorkflowKind, id));
      DeleteKindOf(StepKind, id);
      DeleteKindOf(EventKind, id);
      DeleteKindOf(StreamKind, id);
      DeleteKindOf(MessageKind, id);
    }

    method DeleteKindOf(kind: Kind, id: string)
      requires Valid()
      modifies this
      ensures Valid()
      ensures table == WithoutKinds(old(table), {kind}, id)
    {
      var all := List(kind);
      for i := 0 to |all|
        invariant Valid()
        invariant table == WithoutListed(old(table), all[..i], id)
      {
        assert all[i] in all;
        if OwnerOf(all[i]) == id {
          Delete(KeyOf(all[i]));
        }
      }
      assert all[..|all|] == all;
    }

    /** One guarded update; its effect and its acknowledgement have separate fates. */
    method AttemptUpdate(id: string, executor: string, execution: string, now: Time, fate: Fate) returns (updated: bool)
      requires Valid()
      modifies this
      ensures Valid()
      ensures table == if fate == NotApplied then old(table) else GuardedTable(old(table), id, executor, execution, now)
      ensures updated <==> fate == Acknowledged && ClaimableIn(old(table), id)
      ensures ClaimsAtMost(old(table), table, id, executor, execution, now, fate != NotApplied)
    {
      var k := (WorkflowKind, id);
      updated := false;
      if k in table && Claimable(table[k].w) && fate != NotApplied {
        table := table[k := WorkflowRow(ClaimedRow(table[k].w, executor, execution, now))];
        updated := fate == Acknowledged;
      }
    }

    /** The claim; other writers are not interleaved here (see `Execution` for that). */
    method ClaimWorkflowExecution(id: string, executor: string, execution: string, now: Time, fates: (Fate, Fate)) returns (claimed: bool)
      requires Valid()
      modifies this
      ensures Valid()
      ensures table == if fates == (NotApplied, NotApplied) then old(table) else GuardedTable(old(table), id, executor, execution, now)
      ensures claimed <==> IsTold(table, id, execution)
      ensures ClaimsAtMost(old(table), table, id, executor, execution, now, fates != (NotApplied, NotApplied))
    {
      var attempt := 0;
      while attempt < 2
        invariant 0 <= attempt <= 2
        invariant Valid()
        invariant attempt == 0 ==> table == old(table)
        invariant attempt == 1 ==> fates.0 != Acknowledged
        invariant attempt == 1 ==> table == if fates.0 == NotApplied then old(table) else GuardedTable(old(table), id, executor, execution, now)
        invariant attempt == 2 ==> table == if fates == (NotApplied, NotApplied) then old(table) else GuardedTable(old(table), id, executor, execution, now)
      {
        var fate := if attempt == 0 then fates.0 else fates.1;
        var updated := AttemptUpdate(id, executor, execution, now, fate);
        if updated {
          return true;
        }
        if fate == Acknowledged {
          break;
        }
        attempt := attempt + 1;
      }
      var k := (WorkflowKind, id);
      claimed := k in table && table[k].w.executionId == Some(execution);
    }
  }

  function IdSet(ids: seq<string>): set<string> {
    set id | id in ids
  }

  function WithoutKinds(t: StateTable, kinds: set<Kind>, id: string): StateTable {
    map k | k in t && (k.0 !in kinds || OwnerOf(t[k]) != id) :: t[k]
  }

  lemma WithoutKindsCompose(t: StateTable, kinds: set<Kind>, kind: Kind, id: string)
    ensures WithoutKinds(WithoutKinds(t, kinds, id), {kind}, id) == WithoutKinds(t, kinds + {kind}, id)
  {
  }

  lemma WithoutAllKinds(t: StateTable, id: string)
    requires TableOk(t)
    ensures WithoutKinds(t, {WorkflowKind} + {StepKind} + {EventKind} + {StreamKind} + {MessageKind}, id) == WithoutOwners(t, {id})
  {
  }

  lemma WorkflowRowDeleted(t: StateTable, id: string)
    requires TableOk(t)
    ensures t - {(WorkflowKind, id)} == WithoutKinds(t, {WorkflowKind}, id)
  {
  }

  lemma KindsDeletedInTurn(t: StateTable, id: string)
    requires TableOk(t)
    ensures var t1 := t - {(WorkflowKind, id)};
            var t2 := WithoutKinds(t1, {StepKind}, id);
            var t3 := WithoutKinds(t2, {EventKind}, id);
            var t4 := WithoutKinds(t3, {StreamKind}, id);
            WithoutKinds(t4, {MessageKind}, id) == WithoutOwners(t, {id})
  {
    WorkflowRowDeleted(t, id);
    WithoutKindsCompose(t, {WorkflowKind}, StepKind, id);
    WithoutKindsCompose(t, {WorkflowKind} + {StepKind}, EventKind, id);
    WithoutKindsCompose(t, {WorkflowKind} + {StepKind} + {EventKind}, StreamKind, id);
    WithoutKindsCompose(t, {WorkflowKind} + {StepKind} + {EventKind} + {StreamKind}, MessageKind, id);
    WithoutAllKinds(t, id);
  }

  function WithoutListed(t: StateTable, listed: seq<Payload>, id: string): StateTable {
    map k | k in t && !(t[k] in listed && OwnerOf(t[k]) == id) :: t[k]
  }

  function WithoutOwners(t: StateTable, ids: set<string>): StateTable {
    map k | k in t && OwnerOf(t[k]) !in ids :: t[k]
  }

  // ----- the table against the typed maps -----

  datatype StepOp = Record(step: StepInfo) | Get(id: string, stepId: int) | ListOf(id: string)

  datatype StepAnswer = Recorded | Found(found: Option<StepInfo>) | Listed(listed: seq<StepInfo>)

  function TableAfter(t: StateTable, op: StepOp): StateTable {
    if op.Record? then t[KeyOf(StepRow(op.step)) := StepRow(op.step)] else t
  }

  ghost predicate TableAnswers(t: StateTable, op: StepOp, a: StepAnswer) {
    match op
    case Record(_) => a.Recorded?
    case Get(id, n) =>
      var k := (StepKind, StepKey(id, n));
      a.Found? && (k in t ==> a.found.Some? && t[k] == StepRow(a.found.value)) && (k !in t ==> a.found.None?)
    case ListOf(id) =>
      && a.Listed? && Distinct(a.listed)
      && (forall i, j :: 0 <= i < j < |a.listed| ==> a.listed[i].stepId <= a.listed[j].stepId)
      && (forall x :: x in a.listed <==> Holds(t, StepRow(x)) && x.workflowId == id)
  }

  type StepMap = map<(string, int), StepInfo>

  function MemoryAfter(steps: StepMap, op: StepOp): StepMap {
    if op.Record? then RecordStep(steps, op.step) else steps
  }

  ghost predicate MemoryAnswers(steps: StepMap, op: StepOp, a: StepAnswer) {
    match op
    case Record(_) => a.Recorded?
    case Get(id, n) => a == Found(if (id, n) in steps then Some(steps[(id, n)]) else None)
    case ListOf(id) => a.Listed? && IsStepList(steps, id, a.listed)
  }

  ghost predicate TableRun(t: StateTable, ops: seq<StepOp>, answers: seq<StepAnswer>)
    requires |ops| == |answers|
    decreases |ops|
  {
    ops == [] || (TableAnswers(t, ops[0], answers[0]) && TableRun(TableAfter(t, ops[0]), ops[1..], answers[1..]))
  }

  ghost predicate MemoryRun(steps: StepMap, ops: seq<StepOp>, answers: seq<StepAnswer>)
    requires |ops| == |answers|
    decreases |ops|
  {
    ops == [] || (MemoryAnswers(steps, ops[0], answers[0]) && MemoryRun(MemoryAfter(steps, ops[0]), ops[1..], answers[1..]))
  }

  /** The table holds exactly the steps of the map. */
  ghost predicate StepsMatch(t: StateTable, steps: StepMap) {
    && TableOk(t)
    && (forall k :: k in steps ==> k == (steps[k].workflowId, steps[k].stepId) && Holds(t, StepRow(steps[k])))
    && (forall x :: Holds(t, StepRow(x)) ==> (x.workflowId, x.stepId) in steps && steps[(x.workflowId, x.stepId)] == x)
  }

  lemma RecordKeepsMatch(t: StateTable, steps: StepMap, step: StepInfo)
    requires StepsMatch(t, steps)
    ensures StepsMatch(TableAfter(t, Record(step)), MemoryAfter(steps, Record(step)))
  {
    var t', steps' := TableAfter(t, Record(step)), MemoryAfter(steps, Record(step));
    forall k | k in steps'
      ensures k == (steps'[k].workflowId, steps'[k].stepId) && Holds(t', StepRow(steps'[k]))
    {
      if k != (step.workflowId, step.stepId) && StepKey(k.0, k.1) == StepKey(step.workflowId, step.stepId) {
        StepKeyInjective(k.0, k.1, step.workflowId, step.stepId);
      }
    }
    forall x | Holds(t', StepRow(x))
      ensures (x.workflowId, x.stepId) in steps' && steps'[(x.workflowId, x.stepId)] == x
    {
    }
  }

  lemma AnswersAgree(t: StateTable, steps: StepMap, op: StepOp, a: StepAnswer)
    requires StepsMatch(t, steps)
    ensures TableAnswers(t, op, a) <==> MemoryAnswers(steps, op, a)
  {
    match op
    case Record(_) =>
    case Get(id, n) =>
      var k := (StepKind, StepKey(id, n));
      if k in t {
        var x := t[k].step;
        assert Holds(t, StepRow(x));
        StepKeyInjective(id, n, x.workflowId, x.stepId);
      }
    case ListOf(id) =>
      if a.Listed? {
        ListsAgree(t, steps, id, a.listed);
      }
  }

  lemma ListsAgree(t: StateTable, steps: StepMap, id: string, l: seq<StepInfo>)
    requires StepsMatch(t, steps)
    ensures TableAnswers(t, ListOf(id), Listed(l)) <==> IsStepList(steps, id, l)
  {
    assert forall x :: Holds(t, StepRow(x)) && x.workflowId == id <==> (id, x.stepId) in steps && steps[(id, x.stepId)] == x;
    if TableAnswers(t, ListOf(id), Listed(l)) {
      forall i, j | 0 <= i < j < |l|
        ensures l[i].stepId < l[j].stepId
      {
        assert l[i] in l && l[j] in l;
        assert steps[(id, l[i].stepId)] == l[i] && steps[(id, l[j].stepId)] == l[j];
      }
    }
  }

  /** For any workflow ids, any sequence of record, get and list calls gets the same answers from the flat table
      as from the typed map of the in-memory store. */
  lemma {:induction false} TableRefinesStepMap(t: StateTable, steps: StepMap, ops: seq<StepOp>, answers: seq<StepAnswer>)
    requires StepsMatch(t, steps) && |ops| == |answers|
    ensures TableRun(t, ops, answers) <==> MemoryRun(steps, ops, answers)
    decreases |ops|
  {
    if ops != [] {
      AnswersAgree(t, steps, ops[0], answers[0]);
      if ops[0].Record? {
        RecordKeepsMatch(t, steps, ops[0].step);
      }
      TableRefinesStepMap(TableAfter(t, ops[0]), MemoryAfter(steps, ops[0]), ops[1..], answers[1..]);
    }
  }

  // ----- events -----

  type EventMap = map<(string, string), WorkflowEvent>

  /** The table holds exactly the events of the map, all of them of workflows in `ids`. */
  ghost predicate EventsMatch(t: StateTable, events: EventMap, ids: iset<string>) {
    && TableOk(t)
    && (forall k :: k in events ==> k == (events[k].workflowId, events[k].key) && Holds(t, EventRow(events[k])))
    && (forall x :: Holds(t, EventRow(x)) ==>
          x.workflowId in ids && (x.workflowId, x.key) in events && events[(x.workflowId, x.key)] == x)
  }

  datatype EventOp = Set(event: WorkflowEvent) | GetEvent(id: string, key: string) | ListEvents(id: string)

  datatype EventAnswer = Done | FoundEvent(found: Option<WorkflowEvent>) | ListedEvents(listed: seq<WorkflowEvent>)

  ghost predicate UsesIds(op: EventOp, ids: iset<string>) {
    match op
    case Set(event) => event.workflowId in ids
    case GetEvent(id, _) => id in ids
    case ListEvents(id) => id in ids
  }

  ghost predicate AllUseIds(ops: seq<EventOp>, ids: iset<string>) {
    forall op :: op in ops ==> UsesIds(op, ids)
  }

  function EventTableAfter(t: StateTable, op: EventOp): StateTable {
    if op.Set? then t[KeyOf(EventRow(op.event)) := EventRow(op.event)] else t
  }

  function EventsAfter(events: EventMap, op: EventOp): EventMap {
    if op.Set? then SetEvent(events, op.event) else events
  }

  ghost predicate EventTableAnswers(t: StateTable, op: EventOp, a: EventAnswer) {
    match op
    case Set(_) => a.Done?
    case GetEvent(id, key) =>
      var k := (EventKind, EventKey(id, key));
      a.FoundEvent? && (k in t ==> a.found.Some? && t[k] == EventRow(a.found.value)) && (k !in t ==> a.found.None?)
    case ListEvents(id) =>
      && a.ListedEvents? && Distinct(a.listed)
      && (forall i, j :: 0 <= i < j < |a.listed| ==> a.listed[i].createdAt <= a.listed[j].createdAt)
      && (forall x :: x in a.listed <==> Holds(t, EventRow(x)) && x.workflowId == id)
  }

  ghost predicate EventsAnswer(events: EventMap, op: EventOp, a: EventAnswer) {
    match op
    case Set(_) => a.Done?
    case GetEvent(id, key) => a == FoundEvent(if (id, key) in events then Some(events[(id, key)]) else None)
    case ListEvents(id) => a.ListedEvents? && IsEventList(events, id, a.listed)
  }

  ghost predicate EventTableRun(t: StateTable, ops: seq<EventOp>, answers: seq<EventAnswer>)
    requires |ops| == |answers|
    decreases |ops|
  {
    ops == [] || (EventTableAnswers(t, ops[0], answers[0]) && EventTableRun(EventTableAfter(t, ops[0]), ops[1..], answers[1..]))
  }

  ghost predicate EventsRun(events: EventMap, ops: seq<EventOp>, answers: seq<EventAnswer>)
    requires |ops| == |answers|
    decreases |ops|
  {
    ops == [] || (EventsAnswer(events, ops[0], answers[0]) && EventsRun(EventsAfter(events, ops[0]), ops[1..], answers[1..]))
  }

  lemma SetKeepsMatch(t: StateTable, events: EventMap, event: WorkflowEvent, ids: iset<string>)
    requires EventsMatch(t, events, ids) && event.workflowId in ids && Unambiguous(ids)
    ensures EventsMatch(EventTableAfter(t, Set(event)), EventsAfter(events, Set(event)), ids)
  {
    var t', events' := EventTableAfter(t, Set(event)), EventsAfter(events, Set(event));
    forall k | k in events'
      ensures k == (events'[k].workflowId, events'[k].key) && Holds(t', EventRow(events'[k]))
    {
      if k != (event.workflowId, event.key) && EventKey(k.0, k.1) == EventKey(event.workflowId, event.key) {
        assert Holds(t, EventRow(events[k]));
        UnambiguousKeys(ids, k.0, k.1, 0, event.workflowId, event.key, 0);
      }
    }
    forall x | Holds(t', EventRow(x))
      ensures x.workflowId in ids && (x.workflowId, x.key) in events' && events'[(x.workflowId, x.key)] == x
    {
    }
  }

  lemma EventAnswersAgree(t: StateTable, events: EventMap, op: EventOp, a: EventAnswer, ids: iset<string>)
    requires EventsMatch(t, events, ids) && UsesIds(op, ids) && Unambiguous(ids)
    ensures EventTableAnswers(t, op, a) <==> EventsAnswer(events, op, a)
  {
    match op
    case Set(_) =>
    case GetEvent(id, key) =>
      var k := (EventKind, EventKey(id, key));
      if k in t {
        var x := t[k].event;
        assert Holds(t, EventRow(x));
        UnambiguousKeys(ids, id, key, 0, x.workflowId, x.key, 0);
      }
    case ListEvents(id) =>
      if a.ListedEvents? {
        EventListsAgree(t, events, id, a.listed, ids);
      }
  }

  lemma EventListsAgree(t: StateTable, events: EventMap, id: string, l: seq<WorkflowEvent>, ids: iset<string>)
    requires EventsMatch(t, events, ids)
    ensures EventTableAnswers(t, ListEvents(id), ListedEvents(l)) <==> IsEventList(events, id, l)
  {
    assert forall x :: Holds(t, EventRow(x)) && x.workflowId == id <==> (id, x.key) in events && events[(id, x.key)] == x;
    if EventTableAnswers(t, ListEvents(id), ListedEvents(l)) {
      forall i, j | 0 <= i < j < |l|
        ensures l[i].key != l[j].key
      {
        assert l[i] in l && l[j] in l;
        assert events[(id, l[i].key)] == l[i] && events[(id, l[j].key)] == l[j];
      }
    }
  }

  /** For workflow ids none of which continues another with the separator, the same holds for events. */
  lemma {:induction false} TableRefinesEventMap(t: StateTable, events: EventMap, ops: seq<EventOp>, answers: seq<EventAnswer>, ids: iset<string>)
    requires EventsMatch(t, events, ids) && |ops| == |answers|
    requires Unambiguous(ids) && AllUseIds(ops, ids)
    ensures EventTableRun(t, ops, answers) <==> EventsRun(events, ops, answers)
    decreases |ops|
  {
    if ops != [] {
      assert ops[0] in ops;
      EventAnswersAgree(t, events, ops[0], answers[0], ids);
      if ops[0].Set? {
        SetKeepsMatch(t, events, ops[0].event, ids);
      }
      TableRefinesEventMap(EventTableAfter(t, ops[0]), EventsAfter(events, ops[0]), ops[1..], answers[1..], ids);
    }
  }

  /** Every run over workflows of `ids`, starting from nothing, is possible on both or on neither. */
  ghost predicate EventStoresAgree(ids: iset<string>) {
    forall ops, answers :: |ops| == |answers| && AllUseIds(ops, ids) ==>
      (EventTableRun(map[], ops, answers) <==> EventsRun(map[], ops, answers))
  }

  function SomeEvent(workflowId: string, key: string): WorkflowEvent {
    WorkflowEvent(workflowId, key, Null, "", 0)
  }

  /** The run that tells the stores apart: two colliding events, then the first one is asked for. */
  lemma CollisionTellsApart(e1: WorkflowEvent, e2: WorkflowEvent)
    requires (e1.workflowId, e1.key) != (e2.workflowId, e2.key)
    requires EventKey(e1.workflowId, e1.key) == EventKey(e2.workflowId, e2.key)
    ensures var ops := [Set(e1), Set(e2), GetEvent(e1.workflowId, e1.key)];
            var answers := [Done, Done, FoundEvent(Some(e1))];
            EventsRun(map[], ops, answers) && !EventTableRun(map[], ops, answers)
  {
    var ops := [Set(e1), Set(e2), GetEvent(e1.workflowId, e1.key)];
    var answers := [Done, Done, FoundEvent(Some(e1))];
    CollidingEventIsLost(e1, e2);
    var t1, m1 := EventTableAfter(map[], ops[0]), EventsAfter(map[], ops[0]);
    var t2, m2 := EventTableAfter(t1, ops[1]), EventsAfter(m1, ops[1]);
    assert ops[1..][0] == ops[1] && ops[1..][1..] == ops[2..] && answers[1..][0] == answers[1] && answers[1..][1..] == answers[2..];
    assert !EventTableAnswers(t2, ops[2], answers[2]) && EventsAnswer(m2, ops[2], answers[2]);
    assert !EventTableRun(t2, ops[2..], answers[2..]);
    assert ops[2..][1..] == [] && answers[2..][1..] == [];
    assert EventsRun(m2, ops[2..], answers[2..]);
    assert !EventTableRun(t1, ops[1..], answers[1..]) && EventsRun(m1, ops[1..], answers[1..]);
  }

  /** The flat table keeps the events of a set of workflows as the typed map does if and only if no id of the set
      continues another with the separator. */
  lemma EventStoresAgreeIff(ids: iset<string>)
    ensures EventStoresAgree(ids) <==> Unambiguous(ids)
  {
    if Unambiguous(ids) {
      forall ops, answers | |ops| == |answers| && AllUseIds(ops, ids)
        ensures EventTableRun(map[], ops, answers) <==> EventsRun(map[], ops, answers)
      {
        TableRefinesEventMap(map[], map[], ops, answers, ids);
      }
    } else {
      var a, b :| a in ids && b in ids && a != b && a + [SEPARATOR] <= b;
      EventKeysMeet(a, b);
      var k1, k2 :| EventKey(a, k1) == EventKey(b, k2);
      var e1, e2 := SomeEvent(a, k1), SomeEvent(b, k2);
      CollisionTellsApart(e1, e2);
      assert AllUseIds([Set(e1), Set(e2), GetEvent(a, k1)], ids);
    }
  }

  /** Two colliding events: the second overwrites the first in the table, though not in the typed map. */
  lemma CollidingEventIsLost(e1: WorkflowEvent, e2: WorkflowEvent)
    requires (e1.workflowId, e1.key) != (e2.workflowId, e2.key)
    requires EventKey(e1.workflowId, e1.key) == EventKey(e2.workflowId, e2.key)
    ensures var t := EventTableAfter(EventTableAfter(map[], Set(e1)), Set(e2));
            var events := EventsAfter(EventsAfter(map[], Set(e1)), Set(e2));
            var ask := GetEvent(e1.workflowId, e1.key);
            && EventsAnswer(events, ask, FoundEvent(Some(e1)))
            && EventTableAnswers(t, ask, FoundEvent(Some(e2)))
            && e1 != e2
  {
  }

  // ----- deletion -----

  /** Every row of the given workflows is gone, and every other row is as before. */
  lemma DeletionIsExact(t: StateTable, ids: set<string>, p: Payload)
    requires TableOk(t)
    ensures TableOk(WithoutOwners(t, ids))
    ensures Holds(WithoutOwners(t, ids), p) <==> Holds(t, p) && OwnerOf(p) !in ids
    ensures match p
            case WorkflowRow(w) => Holds(WithoutOwners(t, ids), p) <==> Holds(t, p) && w.id !in ids
            case StepRow(step) => Holds(WithoutOwners(t, ids), p) <==> Holds(t, p) && step.workflowId !in ids
            case EventRow(event) => Holds(WithoutOwners(t, ids), p) <==> Holds(t, p) && event.workflowId !in ids
            case StreamRow(entry) => Holds(WithoutOwners(t, ids), p) <==> Holds(t, p) && entry.workflowId !in ids
            case MessageRow(message) => Holds(WithoutOwners(t, ids), p) <==> Holds(t, p) && message.destinationId !in ids
  {
  }

  // ----- the claim against the in-memory claim -----

  lemma WorkflowRowsAt(t: StateTable, id: string)
    requires TableOk(t)
    ensures id in WorkflowRows(t) <==> (WorkflowKind, id) in t
    ensures id in WorkflowRows(t) ==> t[(WorkflowKind, id)] == WorkflowRow(WorkflowRows(t)[id])
  {
    if id in WorkflowRows(t) {
      var k :| k in t && k.0 == WorkflowKind && t[k].WorkflowRow? && k.1 == id && WorkflowRows(t)[id] == t[k].w;
      assert k == (WorkflowKind, id);
    }
  }

  /** Without failures the claim on the table answers exactly as the in-memory claim on the same rows. */
  lemma UnfailingClaimAnswersAlike(t: StateTable, id: string, executor: string, execution: string, now: Time)
    requires TableOk(t)
    ensures IsTold(GuardedTable(t, id, executor, execution, now), id, execution)
            <==> ClaimWorkflowExecution(WorkflowRows(t), id, executor, execution, now).1
  {
    WorkflowRowsAt(t, id);
  }

  /** Without failures the claim leaves the same rows as the in-memory claim exactly when the row is not an
      unowned claimable one that already carries this execution id. */
  lemma UnfailingClaimActsAlikeIff(t: StateTable, id: string, executor: string, execution: string, now: Time)
    requires TableOk(t)
    ensures WorkflowRows(GuardedTable(t, id, executor, execution, now)) == ClaimWorkflowExecution(WorkflowRows(t), id, executor, execution, now).0
            <==> !(ClaimableIn(t, id) && t[(WorkflowKind, id)].w.executionId == Some(execution))
  {
    var t' := GuardedTable(t, id, executor, execution, now);
    var rows, rows' := WorkflowRows(t), WorkflowRows(t');
    forall w
      ensures w in rows' <==> w in rows
      ensures w in rows' && w != id ==> rows'[w] == rows[w]
    {
      WorkflowRowsAt(t, w);
      WorkflowRowsAt(t', w);
    }
    WorkflowRowsAt(t, id);
    WorkflowRowsAt(t', id);
    if ClaimableIn(t, id) {
      assert rows' == rows[id := ClaimedRow(rows[id], executor, execution, now)];
      assert rows'[id].executorId != rows[id].executorId;
    } else {
      assert rows' == rows;
    }
  }
}
