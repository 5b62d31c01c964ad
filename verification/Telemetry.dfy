/** Operation telemetry: counters, the active gauge and duration series, and the guards that must finish once. */
module Telemetry {
  import opened Types

  datatype Operation =
    | Launch | RunWorkflow | ExecuteWorkflow | WorkflowResult | RunStep | QueueSupervisor | QueueDequeue
    | ScheduleReconcile | ScheduleTrigger | MessageSend | MessageReceive | EventSet | EventGet | StreamWrite | StreamRead
  {
    function Index(): nat {
      match this
      case Launch => 0
      case RunWorkflow => 1
      case ExecuteWorkflow => 2
      case WorkflowResult => 3
      case RunStep => 4
      case QueueSupervisor => 5
      case QueueDequeue => 6
      case ScheduleReconcile => 7
      case ScheduleTrigger => 8
      case MessageSend => 9
      case MessageReceive => 10
      case EventSet => 11
      case EventGet => 12
      case StreamWrite => 13
      case StreamRead => 14
    }
  }

  datatype Outcome = Success | Error | Cached | Cancelled | Dropped {
    function Index(): nat {
      match this
      case Success => 0
      case Error => 1
      case Cached => 2
      case Cancelled => 3
      case Dropped => 4
    }
  }

  const OPERATIONS: seq<Operation> :=
    [Launch, RunWorkflow, ExecuteWorkflow, WorkflowResult, RunStep, QueueSupervisor, QueueDequeue, ScheduleReconcile,
     ScheduleTrigger, MessageSend, MessageReceive, EventSet, EventGet, StreamWrite, StreamRead]
  const OUTCOMES: seq<Outcome> := [Outcome.Success, Outcome.Error, Outcome.Cached, Outcome.Cancelled, Outcome.Dropped]

  const OPERATION_COUNT := 15
  const OUTCOME_COUNT := 5
  const FINISHED_OFFSET := OPERATION_COUNT
  const COUNTER_COUNT := FINISHED_OFFSET + OPERATION_COUNT * OUTCOME_COUNT

  function StartedIndex(op: Operation): nat {
    op.Index()
  }

  function FinishedIndex(op: Operation, outcome: Outcome): nat {
    FINISHED_OFFSET + op.Index() * OUTCOME_COUNT + outcome.Index()
  }

  function SeriesIndex(op: Operation, outcome: Outcome): nat {
    op.Index() * OUTCOME_COUNT + outcome.Index()
  }

  lemma IndicesIdentify(op: Operation, op2: Operation, outcome: Outcome, outcome2: Outcome)
    ensures op.Index() < OPERATION_COUNT && outcome.Index() < OUTCOME_COUNT
    ensures op.Index() == op2.Index() ==> op == op2
    ensures outcome.Index() == outcome2.Index() ==> outcome == outcome2
  {
  }

  /** No two counters share a cell and every cell lies within the counter set. */
  lemma CounterIndicesNeverCollide(op: Operation, op2: Operation, outcome: Outcome, outcome2: Outcome)
    ensures StartedIndex(op) < FINISHED_OFFSET <= FinishedIndex(op, outcome) < COUNTER_COUNT
    ensures StartedIndex(op) == StartedIndex(op2) <==> op == op2
    ensures FinishedIndex(op, outcome) == FinishedIndex(op2, outcome2) <==> op == op2 && outcome == outcome2
  {
    IndicesIdentify(op, op2, outcome, outcome2);
    var i, j := op.Index(), op2.Index();
    if i < j {
      assert (i + 1) * OUTCOME_COUNT <= j * OUTCOME_COUNT;
    } else if j < i {
      assert (j + 1) * OUTCOME_COUNT <= i * OUTCOME_COUNT;
    }
  }

  // ----- the metrics as a value -----

  datatype Metrics = Metrics(counters: seq<int>, active: seq<int>, durations: seq<int>) {
    predicate Shaped() {
      |counters| == COUNTER_COUNT && |active| == OPERATION_COUNT && |durations| == OPERATION_COUNT * OUTCOME_COUNT
    }
  }

  function Zeros(n: nat): (z: seq<int>)
    ensures |z| == n && forall i :: 0 <= i < n ==> z[i] == 0
  {
    seq(n, i => 0)
  }

  const NO_METRICS := Metrics(Zeros(COUNTER_COUNT), Zeros(OPERATION_COUNT), Zeros(OPERATION_COUNT * OUTCOME_COUNT))

  function Add(s: seq<int>, i: nat, amount: int): seq<int>
    requires i < |s|
  {
    s[i := s[i] + amount]
  }

  function Started(m: Metrics, op: Operation): (r: Metrics)
    requires m.Shaped()
    ensures r.Shaped()
  {
    IndicesIdentify(op, op, Outcome.Success, Outcome.Success);
    m.(counters := Add(m.counters, StartedIndex(op), 1), active := Add(m.active, op.Index(), 1))
  }

  function Finished(m: Metrics, op: Operation, outcome: Outcome): (r: Metrics)
    requires m.Shaped()
    ensures r.Shaped()
  {
    CounterIndicesNeverCollide(op, op, outcome, outcome);
    m.(counters := Add(m.counters, FinishedIndex(op, outcome), 1),
       durations := Add(m.durations, SeriesIndex(op, outcome), 1),
       active := Add(m.active, op.Index(), -1))
  }

  // ----- the metrics and guards as objects -----

  class DbosMetrics {
    const counters: array<int>
    const active: array<int>
    const durations: array<int>          // samples recorded per operation and outcome

    ghost predicate Valid()
      reads this
    {
      && counters.Length == COUNTER_COUNT && active.Length == OPERATION_COUNT && durations.Length == OPERATION_COUNT * OUTCOME_COUNT
      && counters != active && active != durations && counters != durations
    }

    ghost function View(): Metrics
      reads this, counters, active, durations
    {
      Metrics(counters[..], active[..], durations[..])
    }

    constructor ()
      ensures Valid() && fresh(counters) && fresh(active) && fresh(durations)
      ensures View() == NO_METRICS
    {
      counters := new int[COUNTER_COUNT](i => 0);
      active := new int[OPERATION_COUNT](i => 0);
      durations := new int[OPERATION_COUNT * OUTCOME_COUNT](i => 0);
    }

    method IncOperationStarted(op: Operation)
      requires Valid()
      modifies counters
      ensures View() == old(View()).(counters := Add(old(counters[..]), StartedIndex(op), 1))
    {
      counters[StartedIndex(op)] := counters[StartedIndex(op)] + 1;
    }

    method IncOperationFinished(op: Operation, outcome: Outcome)
      requires Valid()
      modifies counters
      ensures FinishedIndex(op, outcome) < COUNTER_COUNT
      ensures View() == old(View()).(counters := Add(old(counters[..]), FinishedIndex(op, outcome), 1))
    {
      CounterIndicesNeverCollide(op, op, outcome, outcome);
      counters[FinishedIndex(op, outcome)] := counters[FinishedIndex(op, outcome)] + 1;
    }

    method RecordOperationDuration(op: Operation, outcome: Outcome)
      requires Valid()
      modifies durations
      ensures SeriesIndex(op, outcome) < OPERATION_COUNT * OUTCOME_COUNT
      ensures View() == old(View()).(durations := Add(old(durations[..]), SeriesIndex(op, outcome), 1))
    {
      CounterIndicesNeverCollide(op, op, outcome, outcome);
      durations[SeriesIndex(op, outcome)] := durations[SeriesIndex(op, outcome)] + 1;
    }

    method AddActiveOperation(op: Operation, amount: int)
      requires Valid()
      modifies active
      ensures View() == old(View()).(active := Add(old(active[..]), op.Index(), amount))
    {
      active[op.Index()] := active[op.Index()] + amount;
    }

    method OperationsStartedSum() returns (total: int)
      requires Valid()
      ensures total == Sum(View().counters[..FINISHED_OFFSET])
    {
      total := 0;
      for i := 0 to |OPERATIONS|
        invariant total == Sum(counters[..i])
      {
        assert OPERATIONS[i].Index() == i;
        SumLast(counters[..i + 1]);
        assert counters[..i + 1][..i] == counters[..i];
        total := total + counters[StartedIndex(OPERATIONS[i])];
      }
      assert counters[..FINISHED_OFFSET] == View().counters[..FINISHED_OFFSET];
    }

    method OperationsFinishedSum() returns (total: int)
      requires Valid()
      ensures total == Sum(View().counters[FINISHED_OFFSET..])
    {
      total := 0;
      for i := 0 to |OPERATIONS|
        invariant total == Sum(counters[FINISHED_OFFSET..FINISHED_OFFSET + i * OUTCOME_COUNT])
      {
        var b := FINISHED_OFFSET + i * OUTCOME_COUNT;
        assert OPERATIONS[i].Index() == i;
        var finished := FinishedSum(OPERATIONS[i], b);
        SumOfSlices(counters[..], FINISHED_OFFSET, b, b + OUTCOME_COUNT);
        assert counters[FINISHED_OFFSET..b] == counters[..][FINISHED_OFFSET..b];
        assert counters[b..b + OUTCOME_COUNT] == counters[..][b..b + OUTCOME_COUNT];
        assert counters[FINISHED_OFFSET..b + OUTCOME_COUNT] == counters[..][FINISHED_OFFSET..b + OUTCOME_COUNT];
        total := total + finished;
      }
      assert counters[FINISHED_OFFSET..COUNTER_COUNT] == View().counters[FINISHED_OFFSET..];
    }

    method FinishedSum(op: Operation, ghost b: nat) returns (total: int)
      requires Valid() && b == FINISHED_OFFSET + op.Index() * OUTCOME_COUNT && b + OUTCOME_COUNT <= COUNTER_COUNT
      ensures total == Sum(counters[b..b + OUTCOME_COUNT])
    {
      total := 0;
      for j := 0 to |OUTCOMES|
        invariant total == Sum(counters[b..b + j])
      {
        assert OUTCOMES[j].Index() == j;
        SumLast(counters[b..b + j + 1]);
        assert counters[b..b + j + 1][..j] == counters[b..b + j];
        total := total + counters[FinishedIndex(op, OUTCOMES[j])];
      }
    }
  }

  class DbosOperationGuard {
    const metrics: DbosMetrics?        // null in the no-op guard of a disabled handle
    const operation: Operation
    var finished: bool

    ghost predicate Valid()
      reads this, metrics
    {
      metrics != null ==> metrics.Valid()
    }

    constructor (metrics: DbosMetrics?, operation: Operation)
      ensures this.metrics == metrics && this.operation == operation && !finished
    {
      this.metrics := metrics;
      this.operation := operation;
      finished := false;
    }

    /** Only the first call counts. */
    method Finish(outcome: Outcome)
      requires Valid()
      modifies this, if metrics != null then {metrics.counters, metrics.active, metrics.durations} else {}
      ensures metrics != null ==> finished
      ensures metrics != null ==> metrics.View() == if old(finished) then old(metrics.View()) else Finished(old(metrics.View()), operation, outcome)
    {
      if metrics != null {
        if finished {
          return;
        }
        finished := true;
        metrics.IncOperationFinished(operation, outcome);
        metrics.RecordOperationDuration(operation, outcome);
        metrics.AddActiveOperation(operation, -1);
      }
    }

    method Drop()
      requires Valid()
      modifies this, if metrics != null then {metrics.counters, metrics.active, metrics.durations} else {}
      ensures metrics != null ==> finished
      ensures metrics != null ==> metrics.View() == if old(finished) then old(metrics.View()) else Finished(old(metrics.View()), operation, Outcome.Dropped)
    {
      Finish(Outcome.Dropped);
    }
  }

  method StartOperation(metrics: DbosMetrics?, operation: Operation) returns (guard: DbosOperationGuard)
    requires metrics != null ==> metrics.Valid()
    modifies if metrics != null then {metrics.counters, metrics.active} else {}
    ensures fresh(guard) && guard.metrics == metrics && guard.operation == operation && !guard.finished
    ensures metrics != null ==> metrics.View() == Started(old(metrics.View()), operation)
  {
    if metrics != null {
      metrics.IncOperationStarted(operation);
      metrics.AddActiveOperation(operation, 1);
    }
    guard := new DbosOperationGuard(metrics, operation);
  }

  // ----- runs -----

  /** A guard and, once it has finished, the outcome it reported. */
  datatype Guard = Guard(operation: Operation, outcome: Option<Outcome>)

  datatype World = World(metrics: Metrics, guards: seq<Guard>)

  datatype Event = Start(operation: Operation) | Finish(guard: nat, outcome: Outcome) | Drop(guard: nat)

  const START := World(NO_METRICS, [])

  function FinishGuard(w: World, i: nat, outcome: Outcome): World
    requires w.metrics.Shaped()
  {
    if i >= |w.guards| || w.guards[i].outcome.Some? then w
    else World(Finished(w.metrics, w.guards[i].operation, outcome), w.guards[i := w.guards[i].(outcome := Some(outcome))])
  }

  function Step(w: World, e: Event): (r: World)
    requires w.metrics.Shaped()
    ensures r.metrics.Shaped()
  {
    match e
    case Start(op) => World(Started(w.metrics, op), w.guards + [Guard(op, None)])
    case Finish(i, outcome) => FinishGuard(w, i, outcome)
    case Drop(i) => FinishGuard(w, i, Outcome.Dropped)
  }

  function After(w: World, events: seq<Event>): (r: World)
    requires w.metrics.Shaped()
    ensures r.metrics.Shaped()
    decreases |events|
  {
    if events == [] then w else After(Step(w, events[0]), events[1..])
  }

  /** The objects are in the state that the world describes. */
  ghost predicate Tracks(metrics: DbosMetrics, guards: seq<DbosOperationGuard>, w: World)
    reads metrics, metrics.counters, metrics.active, metrics.durations, guards
  {
    && metrics.Valid() && metrics.View() == w.metrics && |guards| == |w.guards|
    && (forall i :: 0 <= i < |guards| ==>
          && guards[i].metrics == metrics && guards[i].operation == w.guards[i].operation
          && (guards[i].finished <==> w.guards[i].outcome.Some?))
    && forall i, j :: 0 <= i < j < |guards| ==> guards[i] != guards[j]
  }

  /** A call on the objects is a step of the world. */
  method Perform(metrics: DbosMetrics, guards: seq<DbosOperationGuard>, e: Event, ghost w: World) returns (guards': seq<DbosOperationGuard>)
    requires Tracks(metrics, guards, w)
    modifies metrics.counters, metrics.active, metrics.durations, guards
    ensures Tracks(metrics, guards', Step(w, e))
    ensures forall g :: g in guards' ==> g in guards || fresh(g)
  {
    guards' := guards;
    match e
    case Start(op) =>
      var guard := StartOperation(metrics, op);
      guards' := guards + [guard];
    case Finish(i, outcome) =>
      if i < |guards| {
        guards[i].Finish(outcome);
      }
    case Drop(i) =>
      if i < |guards| {
        guards[i].Drop();
      }
  }

  /** Whatever calls are made, the objects end as the run of the world does: what is proved of runs holds of them. */
  method PerformAll(events: seq<Event>) returns (metrics: DbosMetrics, guards: seq<DbosOperationGuard>)
    ensures Tracks(metrics, guards, After(START, events))
  {
    metrics := new DbosMetrics();
    guards := [];
    ghost var w := START;
    for k := 0 to |events|
      invariant Tracks(metrics, guards, w) && After(START, events) == After(w, events[k..])
      invariant fresh(metrics) && fresh(metrics.counters) && fresh(metrics.active) && fresh(metrics.durations)
      invariant forall g :: g in guards ==> fresh(g)
    {
      assert events[k..][0] == events[k] && events[k..][1..] == events[k + 1..];
      guards := Perform(metrics, guards, events[k], w);
      w := Step(w, events[k]);
    }
  }

  function Count(guards: seq<Guard>, counted: Guard -> bool): nat {
    if guards == [] then 0 else (if counted(guards[0]) then 1 else 0) + Count(guards[1..], counted)
  }

  function OfOperation(op: Operation): Guard -> bool {
    (g: Guard) => g.operation == op
  }

  function WithOutcome(op: Operation, outcome: Option<Outcome>): Guard -> bool {
    (g: Guard) => g.operation == op && g.outcome == outcome
  }

  function Unfinished(): Guard -> bool {
    (g: Guard) => g.outcome.None?
  }

  function Sum(s: seq<int>): int {
    if s == [] then 0 else s[0] + Sum(s[1..])
  }

  lemma {:induction false} SumLast(s: seq<int>)
    requires s != []
    ensures Sum(s) == Sum(s[..|s| - 1]) + s[|s| - 1]
  {
    if |s| > 1 {
      SumLast(s[1..]);
      assert s[1..][..|s| - 2] == s[..|s| - 1][1..];
    }
  }

  lemma {:induction false} SumConcat(a: seq<int>, b: seq<int>)
    ensures Sum(a + b) == Sum(a) + Sum(b)
  {
    if a == [] {
      assert a + b == b;
    } else {
      SumConcat(a[1..], b);
      assert (a + b)[1..] == a[1..] + b;
    }
  }

  lemma SumOfSlices(s: seq<int>, from: nat, middle: nat, to: nat)
    requires from <= middle <= to <= |s|
    ensures Sum(s[from..to]) == Sum(s[from..middle]) + Sum(s[middle..to])
  {
    SumConcat(s[from..middle], s[middle..to]);
    assert s[from..to] == s[from..middle] + s[middle..to];
  }

  lemma {:induction false} SumUpdate(s: seq<int>, i: nat, v: int)
    requires i < |s|
    ensures Sum(s[i := v]) == Sum(s) - s[i] + v
  {
    if i > 0 {
      SumUpdate(s[1..], i - 1, v);
      assert s[i := v][1..] == s[1..][i - 1 := v];
    } else {
      assert s[i := v][1..] == s[1..];
    }
  }

  lemma {:induction false} SumZeros(s: seq<int>)
    requires forall i :: 0 <= i < |s| ==> s[i] == 0
    ensures Sum(s) == 0
  {
    if s != [] {
      SumZeros(s[1..]);
    }
  }

  lemma {:induction false} CountUpdate(guards: seq<Guard>, i: nat, g: Guard, counted: Guard -> bool)
    requires i < |guards|
    ensures Count(guards[i := g], counted) == Count(guards, counted) - (if counted(guards[i]) then 1 else 0) + (if counted(g) then 1 else 0)
  {
    var updated := guards[i := g];
    if i > 0 {
      CountUpdate(guards[1..], i - 1, g, counted);
      assert updated[1..] == guards[1..][i - 1 := g];
    } else {
      assert updated[1..] == guards[1..];
    }
  }

  lemma {:induction false} CountAppend(guards: seq<Guard>, g: Guard, counted: Guard -> bool)
    ensures Count(guards + [g], counted) == Count(guards, counted) + (if counted(g) then 1 else 0)
  {
    if guards == [] {
      assert guards + [g] == [g];
    } else {
      CountAppend(guards[1..], g, counted);
      assert (guards + [g])[1..] == guards[1..] + [g];
    }
  }

  /** The counters of one operation count its guards: all of them as started, those that reported an outcome as
      finished with that outcome and with one duration sample each, and the others as active. */
  ghost predicate CountsGuards(w: World, op: Operation) {
    && w.metrics.Shaped()
    && w.metrics.counters[op.Index()] == Count(w.guards, OfOperation(op))
    && w.metrics.active[op.Index()] == Count(w.guards, WithOutcome(op, None))
    && forall outcome :: CountsOutcome(w, op, outcome)
  }

  ghost predicate CountsOutcome(w: World, op: Operation, outcome: Outcome)
    requires w.metrics.Shaped()
  {
    && w.metrics.counters[FINISHED_OFFSET + SeriesIndex(op, outcome)] == Count(w.guards, WithOutcome(op, Some(outcome)))
    && w.metrics.durations[SeriesIndex(op, outcome)] == Count(w.guards, WithOutcome(op, Some(outcome)))
  }

  /** And the totals over all operations. */
  ghost predicate TotalsCountGuards(w: World) {
    && w.metrics.Shaped()
    && Sum(w.metrics.counters[..FINISHED_OFFSET]) == |w.guards|
    && Sum(w.metrics.counters[FINISHED_OFFSET..]) == |w.guards| - Count(w.guards, Unfinished())
    && Sum(w.metrics.durations) == |w.guards| - Count(w.guards, Unfinished())
    && Sum(w.metrics.active) == Count(w.guards, Unfinished())
  }

  lemma StartKeepsCounts(w: World, started: Operation, op: Operation)
    requires CountsGuards(w, op)
    ensures CountsGuards(Step(w, Start(started)), op)
  {
    var g := Guard(started, None);
    CountAppend(w.guards, g, OfOperation(op));
    CountAppend(w.guards, g, WithOutcome(op, None));
    IndicesIdentify(started, op, Outcome.Success, Outcome.Success);
    forall outcome
      ensures CountsOutcome(Step(w, Start(started)), op, outcome)
    {
      assert CountsOutcome(w, op, outcome);
      CountAppend(w.guards, g, WithOutcome(op, Some(outcome)));
    }
  }

  /** A finish changes one counter and one series, by one. */
  lemma FinishedCells(m: Metrics, op: Operation, outcome: Outcome, k: nat)
    requires m.Shaped() && k < OPERATION_COUNT * OUTCOME_COUNT
    ensures var m', more := Finished(m, op, outcome), if k == SeriesIndex(op, outcome) then 1 else 0;
            && m'.durations[k] == m.durations[k] + more
            && m'.counters[FINISHED_OFFSET + k] == m.counters[FINISHED_OFFSET + k] + more
  {
  }

  lemma SeriesNeverCollide(op: Operation, op2: Operation, outcome: Outcome, outcome2: Outcome)
    ensures SeriesIndex(op, outcome) < OPERATION_COUNT * OUTCOME_COUNT
    ensures SeriesIndex(op, outcome) == SeriesIndex(op2, outcome2) <==> op == op2 && outcome == outcome2
  {
    CounterIndicesNeverCollide(op, op2, outcome, outcome2);
    assert FinishedIndex(op, outcome) == FINISHED_OFFSET + SeriesIndex(op, outcome);
  }

  lemma FinishKeepsOutcome(w: World, i: nat, outcome: Outcome, op: Operation, other: Outcome)
    requires w.metrics.Shaped() && CountsOutcome(w, op, other)
    requires i < |w.guards| && w.guards[i].outcome.None?
    ensures CountsOutcome(FinishGuard(w, i, outcome), op, other)
  {
    CountUpdate(w.guards, i, w.guards[i].(outcome := Some(outcome)), WithOutcome(op, Some(other)));
    SeriesNeverCollide(op, w.guards[i].operation, other, outcome);
    FinishedCells(w.metrics, w.guards[i].operation, outcome, SeriesIndex(op, other));
  }

  lemma FinishKeepsGauge(w: World, i: nat, outcome: Outcome, op: Operation)
    requires CountsGuards(w, op) && i < |w.guards| && w.guards[i].outcome.None?
    ensures var w' := FinishGuard(w, i, outcome);
            && w'.metrics.counters[op.Index()] == Count(w'.guards, OfOperation(op))
            && w'.metrics.active[op.Index()] == Count(w'.guards, WithOutcome(op, None))
  {
    var g := w.guards[i].(outcome := Some(outcome));
    CountUpdate(w.guards, i, g, OfOperation(op));
    CountUpdate(w.guards, i, g, WithOutcome(op, None));
    IndicesIdentify(w.guards[i].operation, op, outcome, outcome);
  }

  lemma FinishKeepsCounts(w: World, i: nat, outcome: Outcome, op: Operation)
    requires CountsGuards(w, op)
    ensures CountsGuards(FinishGuard(w, i, outcome), op)
  {
    if i < |w.guards| && w.guards[i].outcome.None? {
      FinishKeepsGauge(w, i, outcome, op);
      forall other
        ensures CountsOutcome(FinishGuard(w, i, outcome), op, other)
      {
        assert CountsOutcome(w, op, other);
        FinishKeepsOutcome(w, i, outcome, op, other);
      }
    }
  }

  lemma StartKeepsTotals(w: World, op: Operation)
    requires TotalsCountGuards(w)
    ensures TotalsCountGuards(Step(w, Start(op)))
  {
    var m, m' := w.metrics, Started(w.metrics, op);
    CountAppend(w.guards, Guard(op, None), Unfinished());
    SumUpdate(m.counters[..FINISHED_OFFSET], op.Index(), m.counters[op.Index()] + 1);
    assert m'.counters[..FINISHED_OFFSET] == m.counters[..FINISHED_OFFSET][op.Index() := m.counters[op.Index()] + 1];
    assert m'.counters[FINISHED_OFFSET..] == m.counters[FINISHED_OFFSET..];
    SumUpdate(m.active, op.Index(), m.active[op.Index()] + 1);
  }

  lemma FinishKeepsTotals(w: World, i: nat, outcome: Outcome)
    requires TotalsCountGuards(w)
    ensures TotalsCountGuards(FinishGuard(w, i, outcome))
  {
    if i < |w.guards| && w.guards[i].outcome.None? {
      CountUpdate(w.guards, i, w.guards[i].(outcome := Some(outcome)), Unfinished());
      FinishedTotals(w.metrics, w.guards[i].operation, outcome);
    }
  }

  lemma FinishedTotals(m: Metrics, op: Operation, outcome: Outcome)
    requires m.Shaped()
    ensures var m' := Finished(m, op, outcome);
            && m'.counters[..FINISHED_OFFSET] == m.counters[..FINISHED_OFFSET]
            && Sum(m'.counters[FINISHED_OFFSET..]) == Sum(m.counters[FINISHED_OFFSET..]) + 1
            && Sum(m'.durations) == Sum(m.durations) + 1
            && Sum(m'.active) == Sum(m.active) - 1
  {
    var m' := Finished(m, op, outcome);
    CounterIndicesNeverCollide(op, op, outcome, outcome);
    var k := SeriesIndex(op, outcome);
    SumUpdate(m.counters[FINISHED_OFFSET..], k, m.counters[FINISHED_OFFSET + k] + 1);
    assert m'.counters[FINISHED_OFFSET..] == m.counters[FINISHED_OFFSET..][k := m.counters[FINISHED_OFFSET + k] + 1];
    assert m'.counters[..FINISHED_OFFSET] == m.counters[..FINISHED_OFFSET];
    SumUpdate(m.durations, k, m.durations[k] + 1);
    SumUpdate(m.active, op.Index(), m.active[op.Index()] - 1);
  }

  lemma StepKeepsCounts(w: World, e: Event, op: Operation)
    requires CountsGuards(w, op) && TotalsCountGuards(w)
    ensures CountsGuards(Step(w, e), op) && TotalsCountGuards(Step(w, e))
  {
    match e
    case Start(started) =>
      StartKeepsCounts(w, started, op);
      StartKeepsTotals(w, started);
    case Finish(i, outcome) =>
      FinishKeepsCounts(w, i, outcome, op);
      FinishKeepsTotals(w, i, outcome);
    case Drop(i) =>
      FinishKeepsCounts(w, i, Outcome.Dropped, op);
      FinishKeepsTotals(w, i, Outcome.Dropped);
  }

  lemma {:induction false} RunKeepsCounts(w: World, events: seq<Event>, op: Operation)
    requires CountsGuards(w, op) && TotalsCountGuards(w)
    ensures CountsGuards(After(w, events), op) && TotalsCountGuards(After(w, events))
    decreases |events|
  {
    if events != [] {
      StepKeepsCounts(w, events[0], op);
      RunKeepsCounts(Step(w, events[0]), events[1..], op);
    }
  }

  function FinishedOf(m: Metrics, op: Operation): int
    requires m.Shaped()
  {
    var b := FINISHED_OFFSET + op.Index() * OUTCOME_COUNT;
    m.counters[b] + m.counters[b + 1] + m.counters[b + 2] + m.counters[b + 3] + m.counters[b + 4]
  }

  lemma CountHead(guards: seq<Guard>, counted: Guard -> bool)
    requires guards != []
    ensures Count(guards, counted) == (if counted(guards[0]) then 1 else 0) + Count(guards[1..], counted)
  {
  }

  /** Every guard of an operation is unfinished or has exactly one outcome. */
  lemma {:induction false} OutcomesPartition(guards: seq<Guard>, op: Operation)
    ensures Count(guards, OfOperation(op)) ==
            Count(guards, WithOutcome(op, None)) + Count(guards, WithOutcome(op, Some(Outcome.Success))) + Count(guards, WithOutcome(op, Some(Outcome.Error)))
            + Count(guards, WithOutcome(op, Some(Outcome.Cached))) + Count(guards, WithOutcome(op, Some(Outcome.Cancelled))) + Count(guards, WithOutcome(op, Some(Outcome.Dropped)))
  {
    if guards != [] {
      OutcomesPartition(guards[1..], op);
      var head := guards[0].outcome;
      assert head.None? || head.value.Success? || head.value.Error? || head.value.Cached? || head.value.Cancelled? || head.value.Dropped?;
      CountHead(guards, OfOperation(op));
      CountHead(guards, WithOutcome(op, None));
      forall outcome
        ensures Count(guards, WithOutcome(op, Some(outcome))) ==
                (if guards[0] == Guard(op, Some(outcome)) then 1 else 0) + Count(guards[1..], WithOutcome(op, Some(outcome)))
      {
        CountHead(guards, WithOutcome(op, Some(outcome)));
      }
    }
  }

  /** Over every run of starts, finishes and drops: started minus finished is the active gauge, which is the number
      of unfinished guards, for each operation and in total; and there are as many duration samples as finishes. */
  lemma StartedMinusFinishedIsActive(events: seq<Event>, op: Operation)
    ensures var w := After(START, events);
            && w.metrics.counters[op.Index()] - FinishedOf(w.metrics, op) == w.metrics.active[op.Index()] == Count(w.guards, WithOutcome(op, None))
            && Sum(w.metrics.counters[..FINISHED_OFFSET]) - Sum(w.metrics.counters[FINISHED_OFFSET..]) == Sum(w.metrics.active) == Count(w.guards, Unfinished())
            && Sum(w.metrics.durations) == Sum(w.metrics.counters[FINISHED_OFFSET..])
            && forall outcome :: CountsOutcome(w, op, outcome)
  {
    NothingCounted(op);
    RunKeepsCounts(START, events, op);
    var w := After(START, events);
    OutcomesPartition(w.guards, op);
    FinishedOfCounts(w, op);
  }

  lemma NothingCounted(op: Operation)
    ensures CountsGuards(START, op) && TotalsCountGuards(START)
  {
    SumZeros(START.metrics.counters[..FINISHED_OFFSET]);
    SumZeros(START.metrics.counters[FINISHED_OFFSET..]);
    SumZeros(START.metrics.durations);
    SumZeros(START.metrics.active);
    IndicesIdentify(op, op, Outcome.Success, Outcome.Success);
    forall outcome
      ensures CountsOutcome(START, op, outcome)
    {
      CounterIndicesNeverCollide(op, op, outcome, outcome);
    }
  }

  lemma FinishedOfCounts(w: World, op: Operation)
    requires CountsGuards(w, op)
    ensures FinishedOf(w.metrics, op) ==
            Count(w.guards, WithOutcome(op, Some(Outcome.Success))) + Count(w.guards, WithOutcome(op, Some(Outcome.Error)))
            + Count(w.guards, WithOutcome(op, Some(Outcome.Cached))) + Count(w.guards, WithOutcome(op, Some(Outcome.Cancelled)))
            + Count(w.guards, WithOutcome(op, Some(Outcome.Dropped)))
  {
    assert CountsOutcome(w, op, Outcome.Success) && CountsOutcome(w, op, Outcome.Error) && CountsOutcome(w, op, Outcome.Cached)
           && CountsOutcome(w, op, Outcome.Cancelled) && CountsOutcome(w, op, Outcome.Dropped);
  }

  /** A guard that has finished stays as it is: the outcome of the first finish is the one that counts. */
  lemma {:induction false} FirstFinishWins(w: World, events: seq<Event>, i: nat)
    requires w.metrics.Shaped() && i < |w.guards| && w.guards[i].outcome.Some?
    ensures i < |After(w, events).guards| && After(w, events).guards[i] == w.guards[i]
    decreases |events|
  {
    if events != [] {
      FirstFinishWins(Step(w, events[0]), events[1..], i);
    }
  }

  /** Once every guard has been dropped nothing is active and every start has its finish. */
  lemma AllDroppedMeansBalanced(events: seq<Event>)
    requires forall i :: 0 <= i < |After(START, events).guards| ==> After(START, events).guards[i].outcome.Some?
    ensures var m := After(START, events).metrics;
            Sum(m.active) == 0 && Sum(m.counters[..FINISHED_OFFSET]) == Sum(m.counters[FINISHED_OFFSET..]) == |After(START, events).guards|
  {
    NothingCounted(Launch);
    RunKeepsCounts(START, events, Launch);
    CountNone(After(START, events).guards, Unfinished());
  }

  lemma {:induction false} CountNone(guards: seq<Guard>, counted: Guard -> bool)
    requires forall i :: 0 <= i < |guards| ==> !counted(guards[i])
    ensures Count(guards, counted) == 0
  {
    if guards != [] {
      CountNone(guards[1..], counted);
    }
  }
}
