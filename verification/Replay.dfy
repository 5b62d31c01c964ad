/** Checkpointed steps: a workflow body is re-executed from its start after every crash, and steps that were
    recorded give back their recorded results instead of running again. */
module Replay {
  import opened Types
  import opened RowChanges
  import opened Serialization
  import StoreSpec
  import opened MemoryStore

  type StepMap = map<(string, int), StepInfo>

  const MAX_I32 := 0x7FFF_FFFF

  // ----- one step call -----

  function SuccessRecord(workflow: string, id: int, name: string, e: EncodedValue, startedAt: Time, completedAt: Time): StepInfo {
    StepInfo(workflow, id, name, ToStoredValue(e), None, e.serialization, startedAt, completedAt)
  }

  function FailureRecord(workflow: string, id: int, name: string, message: string, startedAt: Time, completedAt: Time): StepInfo {
    StepInfo(workflow, id, name, None, Some(message), DBOS_JSON, startedAt, completedAt)
  }

  /** What a recorded step answers to a call under `name`. */
  function ReplayStep(c: Codec, recorded: StepInfo, name: string): Result<Value> {
    if recorded.stepName != name then Err(UnexpectedStep(recorded.workflowId, recorded.stepId, name, recorded.stepName))
    else DecodeStoredValue(c, recorded.output, recorded.serialization)
  }

  function ErrorText(e: DbosError): string {
    if e.OperationFailed? then e.message else "error"
  }

  /** One `run_as_step` call under step id `id`: the steps afterwards, the answer, and whether the operation ran.
      `operation` is what the operation yields if it is run. */
  function RunStep(c: Codec, steps: StepMap, workflow: string, id: int, name: string, portable: bool,
                   operation: Result<Value>, startedAt: Time, completedAt: Time): (StepMap, Result<Value>, bool)
  {
    if (workflow, id) in steps then (steps, ReplayStep(c, steps[(workflow, id)], name), false)
    else if operation.Err? then
      (StoreSpec.RecordStep(steps, FailureRecord(workflow, id, name, ErrorText(operation.error), startedAt, completedAt)),
       Err(StepExecution(workflow, name)), true)
    else
      var e := EncodeValue(c, operation.value, portable);
      if e.Err? then (steps, Err(e.error), true)
      else (StoreSpec.RecordStep(steps, SuccessRecord(workflow, id, name, e.value, startedAt, completedAt)), operation, true)
  }

  /** A store call of a step that fails; a failed record may have been applied all the same. */
  datatype Fault = NoFault | ReadFails(error: DbosError) | RecordFails(error: DbosError, applied: bool)

  predicate Records(c: Codec, steps: StepMap, workflow: string, id: int, portable: bool, operation: Result<Value>) {
    (workflow, id) !in steps && (operation.Ok? ==> EncodeValue(c, operation.value, portable).Ok?)
  }

  /** The call under a fault: a failed read ends it before the operation, a failed record hides the operation's answer. */
  function RunStepUnder(fault: Fault, c: Codec, steps: StepMap, workflow: string, id: int, name: string, portable: bool,
                        operation: Result<Value>, startedAt: Time, completedAt: Time): (StepMap, Result<Value>, bool)
  {
    var unfailing := RunStep(c, steps, workflow, id, name, portable, operation, startedAt, completedAt);
    if fault.ReadFails? then (steps, Err(fault.error), false)
    else if fault.RecordFails? && Records(c, steps, workflow, id, portable, operation) then
      (if fault.applied then unfailing.0 else steps, Err(fault.error), true)
    else unfailing
  }

  /** The entry that the call leaves: it names the step and its times, keeps the error's text of a failed operation and
      no output, or reads back as the value of one that succeeded. */
  ghost predicate RecordsOutcome(c: Codec, entry: StepInfo, workflow: string, id: int, name: string, portable: bool,
                                 operation: Result<Value>, startedAt: Time, completedAt: Time) {
    && entry.workflowId == workflow && entry.stepId == id && entry.stepName == name
    && entry.startedAt == startedAt && entry.completedAt == completedAt
    && match operation
       case Ok(v) => entry.error == None && Stores(c, v, portable, entry.output, entry.serialization)
       case Err(error) => Tells(entry.error, error) && entry.output == None
  }

  /** What a call under an id without an entry does: nothing to other entries, and to this one what the operation's
      result asks for, unless the store refuses. */
  ghost predicate HandlesNewStep(c: Codec, steps: StepMap, steps': StepMap, workflow: string, id: int, name: string, portable: bool,
                                 operation: Result<Value>, startedAt: Time, completedAt: Time, fault: Fault, r: Result<Value>, ran: bool) {
    var k := (workflow, id);
    var writable := operation.Ok? ==> EncodeValue(c, operation.value, portable).Ok?;
    && (forall other :: other != k ==> (other in steps' <==> other in steps) && (other in steps ==> steps'[other] == steps[other]))
    && (ran <==> !fault.ReadFails?)
    && (k in steps' <==> ran && writable && (fault.RecordFails? ==> fault.applied))
    && (k in steps' ==> RecordsOutcome(c, steps'[k], workflow, id, name, portable, operation, startedAt, completedAt))
    && (fault.NoFault? ==>
          match operation
          case Ok(v) => if writable then r == Ok(v) else r == Err(EncodeValue(c, v, portable).error)
          case Err(_) => r == Err(StepExecution(workflow, name)))
    && (fault.ReadFails? || (fault.RecordFails? && writable) ==> r == Err(fault.error))
  }

  /** What a call under an id with an entry does: it changes nothing, runs nothing, and answers what is recorded. */
  ghost predicate HandlesOldStep(c: Codec, steps: StepMap, steps': StepMap, entry: StepInfo, name: string, fault: Fault, r: Result<Value>, ran: bool) {
    && steps' == steps && !ran
    && r == if fault.ReadFails? then Err(fault.error)
            else if entry.stepName == name then DecodeStoredValue(c, entry.output, entry.serialization)
            else Err(UnexpectedStep(entry.workflowId, entry.stepId, name, entry.stepName))
  }

  /** The call under any fault does one of the two. */
  lemma CallHandlesItsStep(fault: Fault, c: Codec, steps: StepMap, workflow: string, id: int, name: string, portable: bool,
                           operation: Result<Value>, startedAt: Time, completedAt: Time)
    requires CodecLaws(c)
    ensures var (steps', r, ran) := RunStepUnder(fault, c, steps, workflow, id, name, portable, operation, startedAt, completedAt);
            if (workflow, id) in steps then HandlesOldStep(c, steps, steps', steps[(workflow, id)], name, fault, r, ran)
            else HandlesNewStep(c, steps, steps', workflow, id, name, portable, operation, startedAt, completedAt, fault, r, ran)
  {
    if operation.Ok? && EncodeValue(c, operation.value, portable).Ok? {
      StoredRoundTrip(c, operation.value, portable);
    }
  }

  /** A workflow body in execution; its step counter starts at zero in every execution. */
  class WorkflowRun {
    const workflowId: string
    const portable: bool
    const codec: Codec
    const store: MemoryStore
    var stepId: int

    constructor (workflowId: string, portable: bool, codec: Codec, store: MemoryStore)
      ensures this.workflowId == workflowId && this.portable == portable && this.codec == codec && this.store == store
      ensures stepId == 0
    {
      this.workflowId, this.portable, this.codec, this.store := workflowId, portable, codec, store;
      stepId := 0;
    }

    method NextStepId() returns (id: int)
      modifies this
      ensures id == stepId == old(stepId) + 1
    {
      stepId := stepId + 1;
      id := stepId;
    }

    method RunAsStep(name: string, operation: Result<Value>, startedAt: Time, completedAt: Time, fault: Fault) returns (r: Result<Value>, ran: bool)
      requires store.Valid()
      modifies this, store
      ensures store.Valid()
      ensures stepId == old(stepId) + 1
      ensures (store.steps, r, ran) ==
              RunStepUnder(fault, codec, old(store.steps), workflowId, stepId, name, portable, operation, startedAt, completedAt)
      ensures store.Contents() == old(store.Contents()).(steps := store.steps)
      ensures CodecLaws(codec) ==>
                if (workflowId, stepId) in old(store.steps) then
                  HandlesOldStep(codec, old(store.steps), store.steps, old(store.steps)[(workflowId, stepId)], name, fault, r, ran)
                else
                  HandlesNewStep(codec, old(store.steps), store.steps, workflowId, stepId, name, portable, operation, startedAt, completedAt, fault, r, ran)
    {
      var id := NextStepId();
      if CodecLaws(codec) {
        CallHandlesItsStep(fault, codec, store.steps, workflowId, id, name, portable, operation, startedAt, completedAt);
      }
      if fault.ReadFails? {
        return Err(fault.error), false;
      }
      var recorded := store.GetStep(workflowId, id);
      if recorded.Some? {
        if recorded.value.stepName != name {
          return Err(UnexpectedStep(recorded.value.workflowId, recorded.value.stepId, name, recorded.value.stepName)), false;
        }
        return DecodeStoredValue(codec, recorded.value.output, recorded.value.serialization), false;
      }
      var failure: Option<DbosError>;
      if operation.Err? {
        failure := Record(FailureRecord(workflowId, id, name, ErrorText(operation.error), startedAt, completedAt), fault);
        return Err(if failure.Some? then failure.value else StepExecution(workflowId, name)), true;
      }
      var e := EncodeValue(codec, operation.value, portable);
      if e.Err? {
        return Err(e.error), true;
      }
      failure := Record(SuccessRecord(workflowId, id, name, e.value, startedAt, completedAt), fault);
      r := if failure.Some? then Err(failure.value) else operation;
      return r, true;
    }

    method Record(step: StepInfo, fault: Fault) returns (failure: Option<DbosError>)
      requires store.Valid()
      modifies store
      ensures store.Valid()
      ensures failure == if fault.RecordFails? then Some(fault.error) else None
      ensures store.Contents() == old(store.Contents()).(steps := store.steps)
      ensures store.steps == if fault.RecordFails? && !fault.applied then old(store.steps) else StoreSpec.RecordStep(old(store.steps), step)
    {
      if !fault.RecordFails? || fault.applied {
        store.RecordStep(step);
      }
      failure := if fault.RecordFails? then Some(fault.error) else None;
    }
  }

  /** A second call under the same id and name does not run the operation and leaves the log alone. It gives the
      first answer back exactly when the operation succeeded: a recorded failure replays as null. */
  lemma ReplayGivesFirstAnswerIff(c: Codec, steps: StepMap, workflow: string, id: int, name: string, portable: bool,
                                  operation: Result<Value>, again: Result<Value>, at: Time)
    requires CodecLaws(c) && (workflow, id) !in steps
    requires operation.Ok? ==> EncodeValue(c, operation.value, portable).Ok?
    ensures var (steps1, first, ran1) := RunStep(c, steps, workflow, id, name, portable, operation, at, at);
            var (steps2, second, ran2) := RunStep(c, steps1, workflow, id, name, portable, again, at, at);
            && ran1 && !ran2 && steps2 == steps1
            && (second == first <==> operation.Ok?)
            && (operation.Err? ==> second == Ok(Null))
  {
    if operation.Ok? {
      StoredRoundTrip(c, operation.value, portable);
    }
  }

  // ----- whole executions with crashes and late records -----

  /** What the body does next, given the results of its steps so far. */
  datatype Action = Call(name: string) | Return(value: Value)

  /** A deterministic sequential body. */
  type Program = seq<Value> -> Action

  datatype Round =
    | Idle
    | Active(stepId: int, results: seq<Value>, pending: Option<Value>)   // pending: run, record not yet acknowledged

  datatype Durable = Durable(
    steps: StepMap,
    round: Round,
    outstanding: multiset<StepInfo>,   // records of this workflow whose fate is unknown
    // history
    log: seq<Value>,                   // results of this workflow's steps, in recording order
    performed: multiset<int>,          // how often the operation of a step ran
    acknowledged: multiset<int>,       // how often a record of a step was acknowledged
    lost: multiset<int>,               // how often a crash fell between running and the acknowledgement
    returned: seq<Value>,              // values returned by finished executions
    failures: nat)                     // unexpected-step or decoding errors

  datatype Setup = Setup(codec: Codec, workflow: string, portable: bool, program: Program)

  datatype Event =
    | Begin
    | Replayed
    | Perform(value: Value)
    | Recorded(startedAt: Time, completedAt: Time)
    | RecordLost(startedAt: Time, completedAt: Time)   // an attempt to record without an acknowledgement
    | Late(step: StepInfo)                             // such an attempt commits
    | Finish
    | Crash
    | Foreign(step: StepInfo)    // a step of some other workflow

  predicate Enabled(u: Setup, s: Durable, e: Event) {
    match e
    case Begin => s.round.Idle?
    case Replayed => AtCall(u, s) && s.round.pending.None? && (u.workflow, s.round.stepId + 1) in s.steps
    case Perform(value) =>
      && AtCall(u, s) && s.round.pending.None? && (u.workflow, s.round.stepId + 1) !in s.steps
      && EncodeValue(u.codec, value, u.portable).Ok?
    case Recorded(_, _) => AtRecord(u, s)
    case RecordLost(_, _) => AtRecord(u, s)
    case Late(step) => step in s.outstanding
    case Finish => s.round.Active? && s.round.pending.None? && u.program(s.round.results).Return?
    case Crash => true
    case Foreign(step) => step.workflowId != u.workflow
  }

  predicate AtCall(u: Setup, s: Durable) {
    s.round.Active? && u.program(s.round.results).Call? && s.round.stepId < MAX_I32
  }

  predicate AtRecord(u: Setup, s: Durable) {
    AtCall(u, s) && s.round.pending.Some? && EncodeValue(u.codec, s.round.pending.value, u.portable).Ok?
  }

  /** The record that the running step writes. */
  function PendingRecord(u: Setup, s: Durable, startedAt: Time, completedAt: Time): StepInfo
    requires AtRecord(u, s)
  {
    SuccessRecord(u.workflow, s.round.stepId + 1, u.program(s.round.results).name, EncodeValue(u.codec, s.round.pending.value, u.portable).value,
                  startedAt, completedAt)
  }

  /** What a record answers to a replay. */
  function Answer(u: Setup, step: StepInfo): Result<Value> {
    DecodeStoredValue(u.codec, step.output, step.serialization)
  }

  /** The log grows when the step after the last one is written. */
  function Logged(log: seq<Value>, id: int, answer: Result<Value>): seq<Value> {
    if id == |log| + 1 && answer.Ok? then log + [answer.value] else log
  }

  function Step(u: Setup, s: Durable, e: Event): Durable
    requires Enabled(u, s, e)
  {
    match e
    case Begin => s.(round := Active(0, [], None))
    case Replayed =>
      var id := s.round.stepId + 1;
      var answer := ReplayStep(u.codec, s.steps[(u.workflow, id)], u.program(s.round.results).name);
      if answer.Err? then s.(round := Idle, failures := s.failures + 1)
      else s.(round := Active(id, s.round.results + [answer.value], None))
    case Perform(value) =>
      s.(round := s.round.(pending := Some(value)), performed := s.performed + multiset{s.round.stepId + 1})
    case Recorded(startedAt, completedAt) =>
      var id, v := s.round.stepId + 1, s.round.pending.value;
      s.(steps := StoreSpec.RecordStep(s.steps, PendingRecord(u, s, startedAt, completedAt)), round := Active(id, s.round.results + [v], None),
         log := Logged(s.log, id, Ok(v)), acknowledged := s.acknowledged + multiset{id})
    case RecordLost(startedAt, completedAt) =>
      s.(outstanding := s.outstanding + multiset{PendingRecord(u, s, startedAt, completedAt)})
    case Late(step) =>
      s.(steps := StoreSpec.RecordStep(s.steps, step), outstanding := s.outstanding - multiset{step},
         log := Logged(s.log, step.stepId, Answer(u, step)))
    case Finish => s.(round := Idle, returned := s.returned + [u.program(s.round.results).value])
    case Crash =>
      s.(round := Idle, lost := if s.round.Active? && s.round.pending.Some? then s.lost + multiset{s.round.stepId + 1} else s.lost)
    case Foreign(step) => s.(steps := StoreSpec.RecordStep(s.steps, step))
  }

  /** A step is run again only when no record of it with another answer may still commit. */
  ghost predicate Disciplined(u: Setup, s: Durable, e: Event) {
    e.Perform? && s.round.Active? ==> forall r :: r in s.outstanding && r.stepId == s.round.stepId + 1 ==> Answer(u, r) == Ok(e.value)
  }

  ghost predicate IsRun(u: Setup, s: Durable, events: seq<Event>)
    decreases |events|
  {
    events == [] || (Enabled(u, s, events[0]) && IsRun(u, Step(u, s, events[0]), events[1..]))
  }

  ghost predicate IsDisciplinedRun(u: Setup, s: Durable, events: seq<Event>)
    decreases |events|
  {
    events == [] || (Enabled(u, s, events[0]) && Disciplined(u, s, events[0]) && IsDisciplinedRun(u, Step(u, s, events[0]), events[1..]))
  }

  ghost function After(u: Setup, s: Durable, events: seq<Event>): Durable
    requires IsRun(u, s, events)
    decreases |events|
  {
    if events == [] then s else After(u, Step(u, s, events[0]), events[1..])
  }

  ghost predicate Fresh(u: Setup, s: Durable) {
    && (forall n :: (u.workflow, n) !in s.steps)
    && s == Durable(s.steps, Idle, multiset{}, [], multiset{}, multiset{}, multiset{}, [], 0)
  }

  /** The log entry of step i + 1 answers with the i-th recorded result and carries the name the body asks for. */
  predicate EntryOk(u: Setup, s: Durable, i: nat)
    requires i < |s.log|
  {
    var k := (u.workflow, i + 1);
    && k in s.steps
    && u.program(s.log[..i]) == Call(s.steps[k].stepName)
    && Answer(u, s.steps[k]) == Ok(s.log[i])
  }

  /** The recorded ids are exactly 1..k, and entry after entry the body replays along them. */
  ghost predicate LogOk(u: Setup, s: Durable) {
    && (forall n :: (u.workflow, n) in s.steps <==> 1 <= n <= |s.log|)
    && (forall i: nat :: i < |s.log| ==> EntryOk(u, s, i))
  }

  /** The execution has followed the log. A result still to be recorded is the next one of the log, or the log ends
      before it. */
  ghost predicate RoundOk(u: Setup, s: Durable) {
    s.round.Active? ==>
      && s.round.stepId == |s.round.results| && s.round.results <= s.log
      && (s.round.pending.Some? ==>
            if s.round.results == s.log then u.program(s.log).Call? else s.log[|s.round.results|] == s.round.pending.value)
  }

  /** A record that may still commit answers as the log does, or is of the step after the last one. */
  predicate RecordOk(u: Setup, s: Durable, r: StepInfo) {
    && r.workflowId == u.workflow && 1 <= r.stepId <= |s.log| + 1
    && u.program(s.log[..r.stepId - 1]) == Call(r.stepName) && Answer(u, r).Ok?
    && (r.stepId <= |s.log| ==> Answer(u, r) == Ok(s.log[r.stepId - 1]))
    && (r.stepId == |s.log| + 1 && PendingAt(s, r.stepId) == 1 ==> Answer(u, r) == Ok(s.round.pending.value))
  }

  /** And records of that step agree. */
  ghost predicate OutstandingOk(u: Setup, s: Durable) {
    && (forall r :: r in s.outstanding ==> RecordOk(u, s, r))
    && (forall r, q :: r in s.outstanding && q in s.outstanding && r.stepId == q.stepId == |s.log| + 1 ==> Answer(u, r) == Answer(u, q))
  }

  function PendingAt(s: Durable, n: int): nat {
    if s.round.Active? && s.round.pending.Some? && s.round.stepId + 1 == n then 1 else 0
  }

  /** A record is acknowledged at most once, and then it is there; an operation runs once per acknowledgement, plus
      once for every crash that fell between running it and the acknowledgement. */
  ghost predicate CountsOk(s: Durable) {
    && (forall n :: s.acknowledged[n] <= if 1 <= n <= |s.log| && PendingAt(s, n) == 0 then 1 else 0)
    && (forall n :: s.performed[n] == s.acknowledged[n] + s.lost[n] + PendingAt(s, n))
  }

  ghost predicate ReturnsOk(u: Setup, s: Durable) {
    s.failures == 0 && forall r :: r in s.returned ==> u.program(s.log) == Return(r)
  }

  ghost predicate Inv(u: Setup, s: Durable) {
    LogOk(u, s) && RoundOk(u, s) && OutstandingOk(u, s) && CountsOk(s) && ReturnsOk(u, s)
  }

  lemma FreshInv(u: Setup, s: Durable)
    requires Fresh(u, s)
    ensures Inv(u, s)
  {
  }

  lemma FramedLog(u: Setup, s: Durable, s': Durable)
    requires LogOk(u, s) && s'.log == s.log
    requires forall n :: (u.workflow, n) in s'.steps <==> (u.workflow, n) in s.steps
    requires forall n :: (u.workflow, n) in s.steps ==> s'.steps[(u.workflow, n)] == s.steps[(u.workflow, n)]
    ensures LogOk(u, s')
  {
    forall j: nat | j < |s'.log|
      ensures EntryOk(u, s', j)
    {
      assert EntryOk(u, s, j);
    }
  }

  lemma ReplayedKeepsInv(u: Setup, s: Durable)
    requires Inv(u, s) && Enabled(u, s, Replayed)
    ensures Inv(u, Step(u, s, Replayed))
  {
    var i := s.round.stepId;
    assert EntryOk(u, s, i);
    assert s.log[..i] == s.round.results;
    var s' := Step(u, s, Replayed);
    assert s'.round.results == s.log[..i + 1];
    FramedLog(u, s, s');
    FramedOutstanding(u, s, s');
  }

  /** With the log and the pending step as before, records that may commit stay right. */
  lemma FramedOutstanding(u: Setup, s: Durable, s': Durable)
    requires OutstandingOk(u, s) && s'.log == s.log && s'.outstanding <= s.outstanding
    requires forall n :: PendingAt(s', n) == 1 ==> PendingAt(s, n) == 1 && s'.round.pending == s.round.pending
    ensures OutstandingOk(u, s')
  {
    forall r | r in s'.outstanding
      ensures RecordOk(u, s', r)
    {
      assert r in s.outstanding && RecordOk(u, s, r);
    }
  }

  /** A row for step `id` is written that answers as the log does or extends it. */
  lemma WrittenKeepsLog(u: Setup, s: Durable, s': Durable, step: StepInfo, v: Value)
    requires LogOk(u, s) && step.workflowId == u.workflow && 1 <= step.stepId <= |s.log| + 1 && Answer(u, step) == Ok(v)
    requires u.program(s.log[..step.stepId - 1]) == Call(step.stepName)
    requires step.stepId <= |s.log| ==> s.log[step.stepId - 1] == v
    requires s'.steps == StoreSpec.RecordStep(s.steps, step) && s'.log == Logged(s.log, step.stepId, Ok(v))
    ensures LogOk(u, s')
  {
    forall j: nat | j < |s'.log|
      ensures EntryOk(u, s', j)
    {
      assert s'.log[..j] == s.log[..j];
      if j < |s.log| {
        assert EntryOk(u, s, j);
      }
    }
  }

  /** Records that may commit stay right when the log grows by what they answer. */
  lemma GrownOutstanding(u: Setup, s: Durable, s': Durable, v: Value)
    requires OutstandingOk(u, s) && s'.log == s.log + [v] && s'.outstanding <= s.outstanding
    requires forall r :: r in s.outstanding && r.stepId == |s.log| + 1 ==> Answer(u, r) == Ok(v)
    ensures OutstandingOk(u, s')
  {
    forall r | r in s'.outstanding
      ensures RecordOk(u, s', r) && r.stepId <= |s.log| + 1
    {
      assert r in s.outstanding && RecordOk(u, s, r);
      assert s'.log[..r.stepId - 1] == s.log[..r.stepId - 1];
    }
  }

  lemma RecordedKeepsInv(u: Setup, s: Durable, startedAt: Time, completedAt: Time)
    requires CodecLaws(u.codec) && Inv(u, s) && Enabled(u, s, Recorded(startedAt, completedAt))
    ensures Inv(u, Step(u, s, Recorded(startedAt, completedAt)))
  {
    var s' := Step(u, s, Recorded(startedAt, completedAt));
    var v, step := s.round.pending.value, PendingRecord(u, s, startedAt, completedAt);
    StoredRoundTrip(u.codec, v, u.portable);
    assert s.round.results == s.log[..step.stepId - 1];
    WrittenKeepsLog(u, s, s', step, v);
    if s.round.results == s.log {
      assert PendingAt(s, |s.log| + 1) == 1;
      GrownOutstanding(u, s, s', v);
    } else {
      assert s'.round.results == s.log[..step.stepId];
      FramedOutstanding(u, s, s');
    }
  }

  lemma RecordLostKeepsInv(u: Setup, s: Durable, startedAt: Time, completedAt: Time)
    requires CodecLaws(u.codec) && Inv(u, s) && Enabled(u, s, RecordLost(startedAt, completedAt))
    ensures Inv(u, Step(u, s, RecordLost(startedAt, completedAt)))
  {
    var s' := Step(u, s, RecordLost(startedAt, completedAt));
    FramedLog(u, s, s');
    LostRecordOk(u, s, startedAt, completedAt);
    MoreOutstanding(u, s, s', PendingRecord(u, s, startedAt, completedAt));
  }

  lemma LostRecordOk(u: Setup, s: Durable, startedAt: Time, completedAt: Time)
    requires CodecLaws(u.codec) && RoundOk(u, s) && AtRecord(u, s)
    ensures var step := PendingRecord(u, s, startedAt, completedAt);
            RecordOk(u, s, step) && Answer(u, step) == Ok(s.round.pending.value) && PendingAt(s, step.stepId) == 1
  {
    StoredRoundTrip(u.codec, s.round.pending.value, u.portable);
    assert s.round.results == s.log[..s.round.stepId];
  }

  lemma MoreOutstanding(u: Setup, s: Durable, s': Durable, step: StepInfo)
    requires OutstandingOk(u, s) && RecordOk(u, s, step) && PendingAt(s, step.stepId) == 1 && Answer(u, step) == Ok(s.round.pending.value)
    requires s' == s.(outstanding := s.outstanding + multiset{step})
    ensures OutstandingOk(u, s')
  {
    forall r | r in s'.outstanding
      ensures RecordOk(u, s', r)
    {
      assert r == step || (r in s.outstanding && RecordOk(u, s, r));
    }
  }

  lemma LateKeepsInv(u: Setup, s: Durable, step: StepInfo)
    requires Inv(u, s) && Enabled(u, s, Late(step))
    ensures Inv(u, Step(u, s, Late(step)))
  {
    assert RecordOk(u, s, step);
    WrittenKeepsLog(u, s, Step(u, s, Late(step)), step, Answer(u, step).value);
    if step.stepId == |s.log| + 1 {
      LateGrowsLog(u, s, step);
    } else {
      FramedOutstanding(u, s, Step(u, s, Late(step)));
    }
  }

  /** The record of the step after the last one commits: no execution has finished yet, and a pending one agrees. */
  lemma LateGrowsLog(u: Setup, s: Durable, step: StepInfo)
    requires Inv(u, s) && step in s.outstanding && step.stepId == |s.log| + 1
    ensures var s' := Step(u, s, Late(step)); RoundOk(u, s') && OutstandingOk(u, s') && ReturnsOk(u, s')
  {
    assert RecordOk(u, s, step);
    assert s.log[..|s.log|] == s.log;
    GrownOutstanding(u, s, Step(u, s, Late(step)), Answer(u, step).value);
  }

  lemma PerformKeepsInv(u: Setup, s: Durable, value: Value)
    requires Inv(u, s) && Enabled(u, s, Perform(value)) && Disciplined(u, s, Perform(value))
    ensures Inv(u, Step(u, s, Perform(value)))
  {
    assert s.round.results == s.log;
    FramedLog(u, s, Step(u, s, Perform(value)));
    PerformKeepsOutstanding(u, s, value);
  }

  lemma PerformKeepsOutstanding(u: Setup, s: Durable, value: Value)
    requires OutstandingOk(u, s) && s.round.Active? && s.round.stepId == |s.log|
    requires forall r :: r in s.outstanding && r.stepId == |s.log| + 1 ==> Answer(u, r) == Ok(value)
    ensures OutstandingOk(u, s.(round := s.round.(pending := Some(value)), performed := s.performed + multiset{s.round.stepId + 1}))
  {
    var s' := s.(round := s.round.(pending := Some(value)), performed := s.performed + multiset{s.round.stepId + 1});
    forall r | r in s'.outstanding
      ensures RecordOk(u, s', r)
    {
      assert RecordOk(u, s, r);
    }
  }

  lemma FinishKeepsInv(u: Setup, s: Durable)
    requires Inv(u, s) && Enabled(u, s, Finish)
    ensures Inv(u, Step(u, s, Finish))
  {
    var s' := Step(u, s, Finish);
    forall k: nat | k < |s.log|
      ensures u.program(s.log[..k]).Call?
    {
      assert EntryOk(u, s, k);
    }
    assert s.log[..|s.round.results|] == s.round.results;
    assert s.round.results == s.log;
    FramedLog(u, s, s');
    FramedOutstanding(u, s, s');
  }

  lemma QuietStepKeepsInv(u: Setup, s: Durable, e: Event)
    requires Inv(u, s) && Enabled(u, s, e) && (e.Begin? || e.Crash? || e.Foreign?)
    ensures Inv(u, Step(u, s, e))
  {
    FramedLog(u, s, Step(u, s, e));
    FramedOutstanding(u, s, Step(u, s, e));
  }

  lemma StepKeepsInv(u: Setup, s: Durable, e: Event)
    requires CodecLaws(u.codec) && Inv(u, s) && Enabled(u, s, e) && Disciplined(u, s, e)
    ensures Inv(u, Step(u, s, e))
  {
    match e
    case Replayed => ReplayedKeepsInv(u, s);
    case Perform(value) => PerformKeepsInv(u, s, value);
    case Recorded(startedAt, completedAt) => RecordedKeepsInv(u, s, startedAt, completedAt);
    case RecordLost(startedAt, completedAt) => RecordLostKeepsInv(u, s, startedAt, completedAt);
    case Late(step) => LateKeepsInv(u, s, step);
    case Finish => FinishKeepsInv(u, s);
    case _ => QuietStepKeepsInv(u, s, e);
  }

  lemma {:induction false} RunKeepsInv(u: Setup, s: Durable, events: seq<Event>)
    requires CodecLaws(u.codec) && Inv(u, s) && IsRun(u, s, events) && IsDisciplinedRun(u, s, events)
    ensures Inv(u, After(u, s, events))
    decreases |events|
  {
    if events != [] {
      StepKeepsInv(u, s, events[0]);
      RunKeepsInv(u, Step(u, s, events[0]), events[1..]);
    }
  }

  lemma {:induction false} RunGrowsLog(u: Setup, s: Durable, events: seq<Event>)
    requires IsRun(u, s, events)
    ensures s.log <= After(u, s, events).log
    decreases |events|
  {
    if events != [] {
      RunGrowsLog(u, Step(u, s, events[0]), events[1..]);
    }
  }

  /** Where every record is acknowledged or fails cleanly, as in the in-memory store, every run is disciplined. */
  lemma {:induction false} AcknowledgedRunsAreDisciplined(u: Setup, s: Durable, events: seq<Event>)
    requires s.outstanding == multiset{} && IsRun(u, s, events) && forall e :: e in events ==> !e.RecordLost?
    ensures IsDisciplinedRun(u, s, events)
    decreases |events|
  {
    if events != [] {
      assert events[0] in events;
      AcknowledgedRunsAreDisciplined(u, Step(u, s, events[0]), events[1..]);
    }
  }

  /** After any number of executions and crashes, also when records commit late: the recorded ids are exactly 1..k; no
      execution met an unexpected step or an unreadable result; every finished execution returned the value that
      the body computes from the recorded results; a record is acknowledged at most once, and an operation ran exactly
      once per acknowledgement plus once for every crash between running and the acknowledgement. */
  lemma CrashesAreInvisible(u: Setup, s0: Durable, events: seq<Event>)
    requires CodecLaws(u.codec) && Fresh(u, s0) && IsRun(u, s0, events) && IsDisciplinedRun(u, s0, events)
    ensures var s := After(u, s0, events);
            && (forall n :: (u.workflow, n) in s.steps <==> 1 <= n <= |s.log|)
            && (forall n :: (u.workflow, n) in s.steps ==>
                  ReplayStep(u.codec, s.steps[(u.workflow, n)], s.steps[(u.workflow, n)].stepName) == Ok(s.log[n - 1]))
            && (forall n :: s.acknowledged[n] <= if (u.workflow, n) in s.steps then 1 else 0)
            && s.failures == 0
            && (forall r :: r in s.returned ==> u.program(s.log) == Return(r))
            && (forall n :: s.performed[n] == s.acknowledged[n] + s.lost[n] + PendingAt(s, n))
  {
    FreshInv(u, s0);
    RunKeepsInv(u, s0, events);
    LogReplays(u, After(u, s0, events));
  }

  lemma LogReplays(u: Setup, s: Durable)
    requires LogOk(u, s)
    ensures forall n :: (u.workflow, n) in s.steps ==>
              ReplayStep(u.codec, s.steps[(u.workflow, n)], s.steps[(u.workflow, n)].stepName) == Ok(s.log[n - 1])
  {
    forall n | (u.workflow, n) in s.steps
      ensures ReplayStep(u.codec, s.steps[(u.workflow, n)], s.steps[(u.workflow, n)].stepName) == Ok(s.log[n - 1])
    {
      assert EntryOk(u, s, n - 1);
    }
  }

  /** All executions that finish return the same value. */
  lemma ExecutionsAgree(u: Setup, s0: Durable, events: seq<Event>, i: nat, j: nat)
    requires CodecLaws(u.codec) && Fresh(u, s0) && IsRun(u, s0, events) && IsDisciplinedRun(u, s0, events)
    requires i < |After(u, s0, events).returned| && j < |After(u, s0, events).returned|
    ensures After(u, s0, events).returned[i] == After(u, s0, events).returned[j]
  {
    FreshInv(u, s0);
    RunKeepsInv(u, s0, events);
    var s := After(u, s0, events);
    assert s.returned[i] in s.returned && s.returned[j] in s.returned;
  }

  // ----- which re-runs are safe -----

  /** From here on, in every disciplined continuation, a recorded step keeps its answer. */
  ghost predicate KeepsAnswers(u: Setup, s: Durable) {
    forall events, more, n ::
      IsRun(u, s, events) && IsDisciplinedRun(u, s, events)
      && IsRun(u, After(u, s, events), more) && IsDisciplinedRun(u, After(u, s, events), more) ==>
        SameAnswer(u, After(u, s, events), After(u, After(u, s, events), more), n)
  }

  predicate SameAnswer(u: Setup, s: Durable, s': Durable, n: int) {
    (u.workflow, n) in s.steps ==> (u.workflow, n) in s'.steps && Answer(u, s'.steps[(u.workflow, n)]) == Answer(u, s.steps[(u.workflow, n)])
  }

  /** A recorded step never runs again and keeps its answer; its entry is rewritten only by a record that commits late
      or is acknowledged after that. */
  lemma RecordedIsFinal(u: Setup, s: Durable, e: Event, n: int)
    requires CodecLaws(u.codec) && Inv(u, s) && Enabled(u, s, e) && (u.workflow, n) in s.steps
    ensures var s' := Step(u, s, e);
            && SameAnswer(u, s, s', n) && s'.performed[n] == s.performed[n]
            && (!e.Late? && PendingAt(s, n) == 0 ==> s'.steps[(u.workflow, n)] == s.steps[(u.workflow, n)])
  {
    assert EntryOk(u, s, n - 1);
    if e.Recorded? {
      RecordedKeepsAnswer(u, s, e, n);
    } else if e.Late? {
      assert RecordOk(u, s, e.step);
    }
  }

  lemma RecordedKeepsAnswer(u: Setup, s: Durable, e: Event, n: int)
    requires CodecLaws(u.codec) && Inv(u, s) && Enabled(u, s, e) && e.Recorded? && (u.workflow, n) in s.steps
    ensures SameAnswer(u, s, Step(u, s, e), n)
  {
    assert EntryOk(u, s, n - 1);
    StoredRoundTrip(u.codec, s.round.pending.value, u.portable);
  }

  lemma InvKeepsAnswers(u: Setup, s: Durable)
    requires CodecLaws(u.codec) && Inv(u, s)
    ensures KeepsAnswers(u, s)
  {
    forall events, more, n | IsRun(u, s, events) && IsDisciplinedRun(u, s, events)
                             && IsRun(u, After(u, s, events), more) && IsDisciplinedRun(u, After(u, s, events), more)
      ensures SameAnswer(u, After(u, s, events), After(u, After(u, s, events), more), n)
    {
      var s1 := After(u, s, events);
      RunKeepsInv(u, s, events);
      RunKeepsInv(u, s1, more);
      RunGrowsLog(u, s1, more);
      if (u.workflow, n) in s1.steps {
        assert EntryOk(u, s1, n - 1) && EntryOk(u, After(u, s1, more), n - 1);
      }
    }
  }

  /** The re-run is recorded, and then the record from before commits. */
  lemma UndisciplinedChangesAnswer(u: Setup, s: Durable, value: Value, r: StepInfo)
    requires CodecLaws(u.codec) && Inv(u, s) && Enabled(u, s, Perform(value))
    requires r in s.outstanding && r.stepId == s.round.stepId + 1 && Answer(u, r) != Ok(value)
    ensures !KeepsAnswers(u, Step(u, s, Perform(value)))
  {
    assert RecordOk(u, s, r);
    LateRecordReplaces(u, Step(u, s, Perform(value)), r);
  }

  lemma LateRecordReplaces(u: Setup, s: Durable, r: StepInfo)
    requires CodecLaws(u.codec) && AtRecord(u, s) && r in s.outstanding
    requires r.workflowId == u.workflow && r.stepId == s.round.stepId + 1 && Answer(u, r) != Ok(s.round.pending.value)
    ensures !KeepsAnswers(u, s)
  {
    var s2 := Step(u, s, Recorded(0, 0));
    var s3 := Step(u, s2, Late(r));
    StoredRoundTrip(u.codec, s.round.pending.value, u.portable);
    OneStep(u, s, Recorded(0, 0));
    OneStep(u, s2, Late(r));
    assert !SameAnswer(u, s2, s3, r.stepId);
  }

  lemma OneStep(u: Setup, s: Durable, e: Event)
    requires Enabled(u, s, e) && Disciplined(u, s, e)
    ensures IsRun(u, s, [e]) && IsDisciplinedRun(u, s, [e]) && After(u, s, [e]) == Step(u, s, e)
  {
    assert [e][1..] == [];
  }

  /** In every state that a run can reach, a step keeps the answers of recorded steps for good if and only if it is
      disciplined: a step may be run again exactly when no record of it with another answer may still commit. */
  lemma RerunIsSafeIff(u: Setup, s: Durable, e: Event)
    requires CodecLaws(u.codec) && Inv(u, s) && Enabled(u, s, e)
    ensures Disciplined(u, s, e) <==> KeepsAnswers(u, Step(u, s, e))
  {
    if Disciplined(u, s, e) {
      StepKeepsInv(u, s, e);
      InvKeepsAnswers(u, Step(u, s, e));
    } else {
      var r :| r in s.outstanding && r.stepId == s.round.stepId + 1 && Answer(u, r) != Ok(e.value);
      UndisciplinedChangesAnswer(u, s, e.value, r);
    }
  }

  /** The condition over whole runs. */
  lemma ReachedRerunIsSafeIff(u: Setup, s0: Durable, events: seq<Event>, e: Event)
    requires CodecLaws(u.codec) && Fresh(u, s0) && IsRun(u, s0, events) && IsDisciplinedRun(u, s0, events)
    requires Enabled(u, After(u, s0, events), e)
    ensures Disciplined(u, After(u, s0, events), e) <==> KeepsAnswers(u, Step(u, After(u, s0, events), e))
  {
    FreshInv(u, s0);
    RunKeepsInv(u, s0, events);
    RerunIsSafeIff(u, After(u, s0, events), e);
  }

  /** An instance: the record of the first step is lost, the process crashes, the step runs again with another result
      and is recorded; when the first record commits, the recorded step changes its answer. */
  lemma LateRecordChangesAnswer(u: Setup, s0: Durable, a: Value, b: Value) returns (events: seq<Event>, late: Event)
    requires CodecLaws(u.codec) && Fresh(u, s0) && u.program([]).Call? && a != b
    requires EncodeValue(u.codec, a, u.portable).Ok? && EncodeValue(u.codec, b, u.portable).Ok?
    ensures IsRun(u, s0, events) && Enabled(u, After(u, s0, events), late) && late.Late?
    ensures !SameAnswer(u, After(u, s0, events), Step(u, After(u, s0, events), late), 1)
  {
    var lost := SuccessRecord(u.workflow, 1, u.program([]).name, EncodeValue(u.codec, a, u.portable).value, 0, 0);
    var crashed := s0.(outstanding := multiset{lost}, performed := multiset{1}, lost := multiset{1});
    var again := RunAgain(u, crashed, b);
    StoredRoundTrip(u.codec, a, u.portable);
    events := LoseRecord(u, s0, crashed, a, again);
    late := Late(lost);
  }

  /** The first step runs, its record is lost, and the process crashes. */
  lemma LoseRecord(u: Setup, s0: Durable, crashed: Durable, a: Value, rest: seq<Event>) returns (events: seq<Event>)
    requires Fresh(u, s0) && u.program([]).Call? && EncodeValue(u.codec, a, u.portable).Ok?
    requires var lost := SuccessRecord(u.workflow, 1, u.program([]).name, EncodeValue(u.codec, a, u.portable).value, 0, 0);
             crashed == s0.(outstanding := multiset{lost}, performed := multiset{1}, lost := multiset{1})
    requires IsRun(u, crashed, rest)
    ensures IsRun(u, s0, events) && After(u, s0, events) == After(u, crashed, rest)
  {
    var s1 := s0.(round := Active(0, [], None));
    var s2 := s1.(round := Active(0, [], Some(a)), performed := multiset{1});
    var s3 := s2.(outstanding := crashed.outstanding);
    var e3 := Before(u, s3, Crash, crashed, rest);
    var e2 := Before(u, s2, RecordLost(0, 0), s3, e3);
    var e1 := Before(u, s1, Perform(a), s2, e2);
    events := Before(u, s0, Begin, s1, e1);
  }

  /** The first step runs once more and is recorded. */
  lemma RunAgain(u: Setup, s: Durable, b: Value) returns (events: seq<Event>)
    requires CodecLaws(u.codec) && s.round.Idle? && s.log == [] && (u.workflow, 1) !in s.steps
    requires u.program([]).Call? && EncodeValue(u.codec, b, u.portable).Ok?
    ensures IsRun(u, s, events)
    ensures var s' := After(u, s, events);
            && s'.outstanding == s.outstanding
            && (u.workflow, 1) in s'.steps && Answer(u, s'.steps[(u.workflow, 1)]) == Ok(b)
  {
    var s1 := s.(round := Active(0, [], None));
    var s2 := s1.(round := Active(0, [], Some(b)), performed := s.performed + multiset{1});
    StoredRoundTrip(u.codec, b, u.portable);
    OneStep(u, s2, Recorded(0, 0));
    var e1 := Before(u, s1, Perform(b), s2, [Recorded(0, 0)]);
    events := Before(u, s, Begin, s1, e1);
  }

  lemma Before(u: Setup, s: Durable, e: Event, s1: Durable, rest: seq<Event>) returns (events: seq<Event>)
    requires Enabled(u, s, e) && s1 == Step(u, s, e) && IsRun(u, s1, rest)
    ensures IsRun(u, s, events) && After(u, s, events) == After(u, s1, rest)
  {
    events := [e] + rest;
    assert events[1..] == rest;
  }

  /** A `run_as_step` call that nothing interrupts is the run's own steps in a row: it replays a recorded step, or it
      performs the operation and records it. */
  lemma CallFollowsTheRun(u: Setup, s: Durable, operation: Result<Value>, startedAt: Time, completedAt: Time) returns (events: seq<Event>)
    requires AtCall(u, s) && s.round.pending.None?
    requires (u.workflow, s.round.stepId + 1) !in s.steps ==> operation.Ok? && EncodeValue(u.codec, operation.value, u.portable).Ok?
    ensures IsRun(u, s, events)
    ensures var id := s.round.stepId + 1;
            var s' := After(u, s, events);
            var (steps', r, ran) := RunStep(u.codec, s.steps, u.workflow, id, u.program(s.round.results).name, u.portable, operation, startedAt, completedAt);
            && s'.steps == steps'
            && (ran <==> s'.performed == s.performed + multiset{id})
            && (r.Ok? ==> s'.round == Active(id, s.round.results + [r.value], None) && s'.failures == s.failures)
            && (r.Err? ==> s'.round == Idle && s'.failures == s.failures + 1)
  {
    if (u.workflow, s.round.stepId + 1) in s.steps {
      events := [Replayed];
      assert events[1..] == [];
      assert IsRun(u, Step(u, s, Replayed), []);
      assert s.performed[s.round.stepId + 1] != (s.performed + multiset{s.round.stepId + 1})[s.round.stepId + 1];
    } else {
      events := [Perform(operation.value), Recorded(startedAt, completedAt)];
      var s1 := Step(u, s, events[0]);
      assert events[1..][0] == events[1] && events[1..][1..] == [];
      assert IsRun(u, Step(u, s1, events[1]), []);
      assert IsRun(u, s1, events[1..]);
      assert After(u, s1, events[1..]) == Step(u, s1, events[1]);
    }
  }
}
