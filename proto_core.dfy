/** The generated `core` protobuf types: tasks, their states, node types and the
    process configuration. Enumerations keep prost's discriminants and the
    `as_str_name` / `from_str_name` name tables. */
module ProtoCore {
  import opened Common

  newtype byte = x: int | 0 <= x < 256

  /** `google.protobuf.Any`: an opaque typed payload. */
  datatype Any = Any(typeUrl: string, value: seq<byte>)

  datatype Task = Task(id: string, payload: Option<Any>)

  datatype TaskState = Pending | Success | Fail

  /** The `#[repr(i32)]` discriminant of a task state. */
  function TaskStateValue(s: TaskState): (r: i32)
    ensures TaskStateFromI32(r) == Some(s)
  {
    match s
    case Pending => 0
    case Success => 1
    case Fail => 2
  }

  /** prost's `from_i32`: the state with that discriminant, if any. */
  function TaskStateFromI32(v: i32): (r: Option<TaskState>)
    ensures r.Some? <==> 0 <= v <= 2
  {
    if v == 0 then Some(Pending)
    else if v == 1 then Some(Success)
    else if v == 2 then Some(Fail)
    else None
  }

  /** `as_str_name`: decoding the name gives the state back. */
  function TaskStateName(s: TaskState): (r: string)
    ensures TaskStateFromName(r) == Some(s)
  {
    match s
    case Pending => "PENDING"
    case Success => "SUCCESS"
    case Fail => "FAIL"
  }

  /** `from_str_name`: only the three exact names decode. */
  function TaskStateFromName(name: string): (r: Option<TaskState>)
    ensures r.Some? <==> name == "PENDING" || name == "SUCCESS" || name == "FAIL"
  {
    match name
    case "PENDING" => Some(Pending)
    case "SUCCESS" => Some(Success)
    case "FAIL" => Some(Fail)
    case _ => None
  }

  /** Decoding the name of a state gives the state back. */
  lemma TaskStateNameRoundTrip(s: TaskState)
    ensures TaskStateFromName(TaskStateName(s)) == Some(s)
  {
  }

  /** Only the three exact, case-sensitive names decode, and each decodes to the
      state whose name it is. */
  lemma TaskStateFromNameExact(name: string)
    ensures TaskStateFromName(name).Some? <==> name == "PENDING" || name == "SUCCESS" || name == "FAIL"
    ensures TaskStateFromName(name).Some? ==> TaskStateName(TaskStateFromName(name).value) == name
  {
  }

  datatype NodeType = SingleProcess | Worker | Scheduler

  function NodeTypeValue(n: NodeType): (r: i32)
    ensures NodeTypeFromI32(r) == Some(n)
  {
    match n
    case SingleProcess => 0
    case Worker => 1
    case Scheduler => 2
  }

  function NodeTypeFromI32(v: i32): (r: Option<NodeType>)
    ensures r.Some? <==> 0 <= v <= 2
  {
    if v == 0 then Some(SingleProcess)
    else if v == 1 then Some(Worker)
    else if v == 2 then Some(Scheduler)
    else None
  }

  function NodeTypeName(n: NodeType): (r: string)
    ensures NodeTypeFromName(r) == Some(n)
  {
    match n
    case SingleProcess => "SINGLE_PROCESS"
    case Worker => "WORKER"
    case Scheduler => "SCHEDULER"
  }

  function NodeTypeFromName(name: string): (r: Option<NodeType>)
    ensures r.Some? <==> name == "SINGLE_PROCESS" || name == "WORKER" || name == "SCHEDULER"
  {
    match name
    case "SINGLE_PROCESS" => Some(SingleProcess)
    case "WORKER" => Some(Worker)
    case "SCHEDULER" => Some(Scheduler)
    case _ => None
  }

  lemma NodeTypeNameRoundTrip(n: NodeType)
    ensures NodeTypeFromName(NodeTypeName(n)) == Some(n)
  {
  }

  lemma NodeTypeFromNameExact(name: string)
    ensures NodeTypeFromName(name).Some? <==> name == "SINGLE_PROCESS" || name == "WORKER" || name == "SCHEDULER"
    ensures NodeTypeFromName(name).Some? ==> NodeTypeName(NodeTypeFromName(name).value) == name
  {
  }

  /** The discriminants the generated enums declare. */
  lemma Discriminants()
    ensures TaskStateValue(Pending) == 0 && TaskStateValue(Success) == 1 && TaskStateValue(Fail) == 2
    ensures NodeTypeValue(SingleProcess) == 0 && NodeTypeValue(Worker) == 1 && NodeTypeValue(Scheduler) == 2
  {
  }

  /** prost's accessor `Config::node_type()`: an unknown discriminant reads as the
      enum's default, `SINGLE_PROCESS`. */
  function NodeTypeOrDefault(v: i32): (r: NodeType)
    ensures 0 <= v <= 2 ==> NodeTypeValue(r) == v
    ensures (v < 0 || v > 2) ==> r == SingleProcess
  {
    match NodeTypeFromI32(v)
    case Some(n) => n
    case None => SingleProcess
  }

  datatype LoadBalancerKind = RoundRobin

  /** `google.protobuf.Duration` as prost generates it. */
  datatype ProstDuration = ProstDuration(seconds: i64, nanos: i32)

  /** A data store entry of the configuration; `kind` 0 is Redis. */
  datatype DataStoreConfig = DataStoreConfig(kind: i32, host: string)

  /** The process configuration message, with the fields `config_load` and `start`
      read and write. */
  datatype Config = Config(
    nodeType: i32,
    numWorkers: i32,
    grpcPort: i32,
    gracefulTimeout: u64,
    loadBalancer: LoadBalancerKind,
    heartbeatInterval: Option<ProstDuration>,
    dataStore: Option<DataStoreConfig>)
}
