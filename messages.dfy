/** The `scheduler.v1` protobuf messages exchanged between callers, the scheduler and
    remote workers, and tonic's `Status`. Only the fields the core reads or writes
    are kept; a `oneof` is an `Option` of its cases, as prost generates it. */
module Messages {
  import opened Common
  import opened ProtoCore

  datatype Code = Aborted | Unimplemented | FailedPrecondition

  /** An RPC error: a status code and its message. */
  datatype Status = Status(code: Code, message: string)

  datatype ExecuteRequest = ExecuteRequest(task: Option<Task>)

  datatype ScheduleRequest = ScheduleRequest(task: Option<Task>)

  datatype ScheduleResponse = ScheduleResponse(scheduledTaskId: string)

  /** `state` is the `TaskState` discriminant, as prost stores enumerations. */
  datatype ExecuteResponse = ExecuteResponse(executionId: string, taskId: string, state: i32)

  const DEFAULT_EXECUTE_RESPONSE := ExecuteResponse("", "", 0)

  datatype WorkerChannelStatus = Ready

  datatype SchedulerMessageType =
    | AssignTask(task: Option<Task>, executionId: string)
    | Ack(message: string, status: WorkerChannelStatus)
    | Heartbeat
    | Disconnect

  datatype SchedulerMessage = SchedulerMessage(kind: Option<SchedulerMessageType>)

  datatype RegistrationRequest = RegistrationRequest(workerId: string, supportedTasks: seq<string>, magicCookie: string)

  /** `state` is the `TaskState` discriminant. */
  datatype TaskCompletion = TaskCompletion(taskId: string, state: i32)

  datatype WorkerMessageType =
    | WorkerHeartbeat
    | Completion(completion: TaskCompletion)
    | Registration(registration: RegistrationRequest)

  datatype WorkerMessage = WorkerMessage(kind: Option<WorkerMessageType>)

  /** One item of a server-to-worker stream: `Result<SchedulerMessage, Status>`. */
  datatype Outbound = Message(message: SchedulerMessage) | Failure(status: Status)

  /** One item of a worker-to-server stream: a message or a transport error. */
  datatype Inbound = Received(message: WorkerMessage) | StreamError(status: Status)
}
