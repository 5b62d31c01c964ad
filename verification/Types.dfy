/** Entities of the durable-workflow engine and the small wrapper types used by every module. */
module Types {
  datatype Option<+T> = None | Some(value: T)

  datatype Result<+T> = Ok(value: T) | Err(error: DbosError)

  datatype DbosError =
    | QueueDeduplicated(queueName: string, deduplicationId: string)
    | ConflictingWorkflow(workflowId: string)
    | NonExistentWorkflow(workflowId: string)
    | UnexpectedStep(workflowId: string, stepId: int, expected: string, recorded: string)
    | StepExecution(workflowId: string, stepName: string)
    | InvalidArgument
    | Serialization
    | OperationFailed(message: string)

  /** A JSON value. */
  datatype Value =
    | Null
    | Bool(b: bool)
    | Number(n: int)
    | String(s: string)
    | Array(items: seq<Value>)
    | Object(fields: seq<(string, Value)>)

  /** A clock reading; only its order and its millisecond arithmetic matter. */
  type Time = int

  datatype WorkflowStatusType = Pending | Enqueued | Delayed | Success | Error | Cancelled | MaxRecoveryAttemptsExceeded {
    predicate IsTerminal() {
      Success? || Error? || Cancelled? || MaxRecoveryAttemptsExceeded?
    }
  }

  /** One durable workflow row. */
  datatype WorkflowStatus = WorkflowStatus(
    id: string,
    status: WorkflowStatusType,
    name: string,
    authenticatedUser: Option<string>,
    input: Option<Value>,
    output: Option<Value>,
    error: Option<string>,
    executorId: Option<string>,
    executionId: Option<string>,
    createdAt: Time,
    updatedAt: Time,
    applicationVersion: string,
    attempts: nat,
    queueName: Option<string>,
    startedAt: Option<Time>,
    completedAt: Option<Time>,
    deduplicationId: Option<string>,
    forkedFrom: Option<string>,
    wasForkedFrom: bool,
    parentWorkflowId: Option<string>,
    serialization: string,
    delayUntil: Option<Time>)

  /** `WorkflowStatus::new`: a pending row that nobody owns. */
  function NewWorkflow(id: string, name: string, applicationVersion: string, serialization: string, now: Time): WorkflowStatus {
    WorkflowStatus(id, Pending, name, None, None, None, None, None, None, now, now, applicationVersion, 0, None, None, None, None,
                   None, false, None, serialization, None)
  }

  datatype StepInfo = StepInfo(
    workflowId: string,
    stepId: int,
    stepName: string,
    output: Option<Value>,
    error: Option<string>,
    serialization: string,
    startedAt: Time,
    completedAt: Time)

  datatype StreamEntry = StreamEntry(
    workflowId: string,
    key: string,
    offset: int,
    value: Option<Value>,
    serialization: string,
    closed: bool,
    createdAt: Time)

  datatype WorkflowMessage = WorkflowMessage(
    destinationId: string,
    topic: string,
    message: Value,
    serialization: string,
    createdAt: Time,
    consumed: bool)

  datatype WorkflowEvent = WorkflowEvent(
    workflowId: string,
    key: string,
    value: Value,
    serialization: string,
    createdAt: Time)

  datatype WorkflowInsertResult = Inserted | ExistingExact
}
