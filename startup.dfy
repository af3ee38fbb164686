/** Process start-up (src/lib.rs): choosing the configuration, the node-type and
    data-store decision of `start`, the heartbeat interval conversion and the
    default process options. What `start` dispatches to (the servers) is out of
    this module; a path of `StartPath` names the server the process would run. */
module Startup {
  import opened Common
  import opened ProtoCore
  import opened Errors
  import opened WorkerPool
  import opened Configs

  const NANOS_PER_SEC: int := 1_000_000_000
  const U64_MODULUS: int := 0x1_0000_0000_0000_0000
  const U32_MODULUS: int := 0x1_0000_0000

  /** `std::time::Duration`; `nanos` is always below one second. */
  datatype StdDuration = StdDuration(secs: u64, nanos: u32)

  /** `Duration::new`: nanoseconds of a second or more carry into the seconds, and
      a carry that overflows the seconds panics. */
  function DurationNew(secs: u64, nanos: u32): (r: Outcome<StdDuration>)
    ensures r.Panicked? <==> secs as int + nanos as int / NANOS_PER_SEC >= U64_MODULUS
    ensures r.Returned? ==>
      && r.value.nanos as int < NANOS_PER_SEC
      && r.value.secs as int * NANOS_PER_SEC + r.value.nanos as int == secs as int * NANOS_PER_SEC + nanos as int
  {
    if nanos as int < NANOS_PER_SEC then Returned(StdDuration(secs, nanos))
    else
      var extra := nanos as int / NANOS_PER_SEC;
      if secs as int + extra >= U64_MODULUS then Panicked("overflow in Duration::new")
      else Returned(StdDuration((secs as int + extra) as u64, (nanos as int % NANOS_PER_SEC) as u32))
  }

  /** Rust's `as u64` on an `i64`: the same bits, so negatives wrap. */
  function I64AsU64(x: i64): (r: u64)
    ensures r as int % U64_MODULUS == x as int % U64_MODULUS
    ensures x >= 0 ==> r as int == x as int
  {
    if x < 0 then (x as int + U64_MODULUS) as u64 else x as int as u64
  }

  /** Rust's `as u32` on an `i32`. */
  function I32AsU32(x: i32): (r: u32)
    ensures r as int % U32_MODULUS == x as int % U32_MODULUS
    ensures x >= 0 ==> r as int == x as int
  {
    if x < 0 then (x as int + U32_MODULUS) as u32 else x as int as u32
  }

  /** `prost_duration_to_std_duration`. */
  function ProstToStdDuration(d: Option<ProstDuration>): (r: Outcome<StdDuration>)
    ensures d.None? ==> r == Returned(StdDuration(1, 0))
    ensures r.Returned? ==> r.value.nanos as int < NANOS_PER_SEC
  {
    match d
    case None => Returned(StdDuration(1, 0))
    case Some(p) => DurationNew(I64AsU64(p.seconds), I32AsU32(p.nanos))
  }

  /** No interval means one second; a normalised non-negative interval is kept as
      it is; any interval that converts keeps its total nanoseconds, the fields
      being read as unsigned. */
  lemma ProstToStdDurationValue(d: Option<ProstDuration>)
    ensures d.None? ==> ProstToStdDuration(d) == Returned(StdDuration(1, 0))
    ensures d.Some? && d.value.seconds >= 0 && 0 <= d.value.nanos as int < NANOS_PER_SEC ==>
      ProstToStdDuration(d) == Returned(StdDuration(d.value.seconds as int as u64, d.value.nanos as int as u32))
    ensures d.Some? && ProstToStdDuration(d).Returned? ==>
      var r := ProstToStdDuration(d).value;
      r.secs as int * NANOS_PER_SEC + r.nanos as int
        == I64AsU64(d.value.seconds) as int * NANOS_PER_SEC + I32AsU32(d.value.nanos) as int
  {
  }

  /** Nanoseconds over a second carry: 1.5e9 ns on top of 2 s is 3.5 s. */
  lemma ProstToStdDurationCarries()
    ensures ProstToStdDuration(Some(ProstDuration(2, 1_500_000_000))) == Returned(StdDuration(3, 500_000_000))
  {
  }

  /** Negative fields are reinterpreted, not rejected: -1 ns reads as 2^32 - 1 ns,
      about 4.29 s, and -1 s reads as 2^64 - 1 s, whose carry then overflows. */
  lemma ProstToStdDurationNegative()
    ensures ProstToStdDuration(Some(ProstDuration(0, -1))) == Returned(StdDuration(4, 294_967_295))
    ensures ProstToStdDuration(Some(ProstDuration(-1, 0))) == Returned(StdDuration((U64_MODULUS - 1) as u64, 0))
    ensures ProstToStdDuration(Some(ProstDuration(-1, 1_000_000_000))) == Panicked("overflow in Duration::new")
  {
  }

  /** Where `start` goes: a server to run, an error returned, a process exit or a
      panic. */
  datatype StartPath =
    | ServeSingleProcess(config: Config)
    | ServeDistributed(config: Config, storeHost: string)
    | StartFailed(error: SchedulerError)
    | ExitProcess(code: int)
    | StartPanic(message: string)

  /** The node-type and data-store decision for configuration `cfg`. `openStore`
      stands for `RedisDataStore::new`, whose error `start` propagates. Only a
      scheduler with a Redis store that opens is served distributed; the only panic
      is a scheduler's unsupported store type. */
  function Dispatch(cfg: Config, openStore: string -> Result<(), SchedulerError>): (r: StartPath)
    ensures r.ServeDistributed? <==>
      && NodeTypeOrDefault(cfg.nodeType) == Scheduler && cfg.dataStore.Some? && cfg.dataStore.value.kind == 0
      && openStore(cfg.dataStore.value.host).Ok?
    ensures r.ServeDistributed? ==> r.storeHost == cfg.dataStore.value.host
    ensures r.ServeSingleProcess? <==> NodeTypeOrDefault(cfg.nodeType) == SingleProcess
    ensures r.StartPanic? ==> r.message == "Unsupported data store type" && NodeTypeOrDefault(cfg.nodeType) == Scheduler
    ensures !r.ExitProcess?
  {
    match NodeTypeOrDefault(cfg.nodeType)
    case SingleProcess => ServeSingleProcess(cfg)
    case Scheduler =>
      (match cfg.dataStore
       case None => StartFailed(DataLayerError("Must set up a data store configurations"))
       case Some(db) =>
         if db.kind == 0 then
           match openStore(db.host)
           case Err(e) => StartFailed(e)
           case Ok(_) => ServeDistributed(cfg, db.host)
         else StartPanic("Unsupported data store type"))
    case _ =>
      match NodeTypeFromI32(cfg.nodeType)
      case Some(n) => StartFailed(SchedulerUnimplemented("Unimplemented node type " + NodeTypeName(n)))
      case None => StartPanic("called `Option::unwrap()` on a `None` value")
  }

  /** `start`: the given configuration, or else the one loaded from "configs.yaml"
      (whose read outcome and decoders are parameters), exiting with status 1 when
      that load fails. */
  function Start(configurations: Option<Config>, read: Result<string, string>, yaml: Decoder, json: Decoder,
                 openStore: string -> Result<(), SchedulerError>): (r: StartPath)
    ensures r.ExitProcess? <==> configurations.None? && ConfigLoad("configs.yaml", read, yaml, json).Err?
    ensures r.ExitProcess? ==> r.code == 1
  {
    match configurations
    case Some(cfg) => Dispatch(cfg, openStore)
    case None =>
      match ConfigLoad("configs.yaml", read, yaml, json)
      case Ok(cfg) => Dispatch(cfg, openStore)
      case Err(_) => ExitProcess(1)
  }

  /** Given configurations are used as they are: the file is never looked at. */
  lemma StartUsesGivenConfig(cfg: Config, read: Result<string, string>, otherRead: Result<string, string>,
                             yaml: Decoder, json: Decoder, openStore: string -> Result<(), SchedulerError>)
    ensures Start(Some(cfg), read, yaml, json, openStore) == Start(Some(cfg), otherRead, yaml, json, openStore)
    ensures Start(Some(cfg), read, yaml, json, openStore) == Dispatch(cfg, openStore)
  {
  }

  /** Without configurations, "configs.yaml" is decoded as YAML; a failed read or
      decode exits the process with status 1. */
  lemma StartLoadsDefaultFile(content: string, e: string, yaml: Decoder, json: Decoder, openStore: string -> Result<(), SchedulerError>)
    ensures Start(None, Err(e), yaml, json, openStore) == ExitProcess(1)
    ensures yaml(content).Err? ==> Start(None, Ok(content), yaml, json, openStore) == ExitProcess(1)
    ensures yaml(content).Ok? ==> Start(None, Ok(content), yaml, json, openStore) == Dispatch(ToConfig(yaml(content).value), openStore)
  {
    assert EndsWith("configs.yaml", ".yaml") by {
      assert "configs.yaml"[7..] == ".yaml";
    }
  }

  /** The decision by node type: single-process (also for any unknown discriminant,
      which prost reads as the default), scheduler with its data store checks, and
      worker refused as unimplemented. It panics only for a data store type other
      than Redis: the unwrap on the node type cannot fail. */
  lemma DispatchCases(cfg: Config, openStore: string -> Result<(), SchedulerError>)
    ensures (cfg.nodeType == 0 || cfg.nodeType < 0 || cfg.nodeType > 2) ==> Dispatch(cfg, openStore) == ServeSingleProcess(cfg)
    ensures cfg.nodeType == 1 ==>
      Dispatch(cfg, openStore) == StartFailed(SchedulerUnimplemented("Unimplemented node type WORKER"))
    ensures cfg.nodeType == 2 && cfg.dataStore.None? ==>
      Dispatch(cfg, openStore) == StartFailed(DataLayerError("Must set up a data store configurations"))
    ensures cfg.nodeType == 2 && cfg.dataStore.Some? && cfg.dataStore.value.kind != 0 ==>
      Dispatch(cfg, openStore) == StartPanic("Unsupported data store type")
    ensures cfg.nodeType == 2 && cfg.dataStore.Some? && cfg.dataStore.value.kind == 0 ==>
      Dispatch(cfg, openStore) ==
        if openStore(cfg.dataStore.value.host).Ok? then ServeDistributed(cfg, cfg.dataStore.value.host)
        else StartFailed(openStore(cfg.dataStore.value.host).error)
    ensures Dispatch(cfg, openStore).StartPanic? ==> Dispatch(cfg, openStore).message == "Unsupported data store type"
  {
    if cfg.nodeType == 1 {
      assert NodeTypeOrDefault(cfg.nodeType) == Worker by {
        assert NodeTypeValue(NodeTypeOrDefault(cfg.nodeType)) == 1;
      }
      assert NodeTypeFromI32(cfg.nodeType) == Some(Worker);
      assert "Unimplemented node type " + NodeTypeName(Worker) == "Unimplemented node type WORKER";
    }
    if cfg.nodeType == 2 {
      assert NodeTypeOrDefault(cfg.nodeType) == Scheduler by {
        assert NodeTypeValue(NodeTypeOrDefault(cfg.nodeType)) == 2;
      }
    }
  }

  /** Reading the node type back cannot fail on the worker path, so `start` never
      panics with the unwrap of an absent node type. */
  lemma DispatchNeverFailsUnwrap(cfg: Config, openStore: string -> Result<(), SchedulerError>)
    ensures Dispatch(cfg, openStore) != StartPanic("called `Option::unwrap()` on a `None` value")
  {
  }

  /** `ProcessOptions`. */
  datatype ProcessOptions = ProcessOptions(processName: string, taskExecutors: TaskRegistry)

  /** `ProcessOptions::default`. */
  method DefaultProcessOptions() returns (o: ProcessOptions)
    ensures o.processName == "scheduler"
    ensures fresh(o.taskExecutors) && o.taskExecutors.registry == map[]
  {
    var registry := new ExecutorRegistry<TaskExecutor>();
    o := ProcessOptions("scheduler", registry);
  }

  /** The options `start` builds: the caller's registry under the default name. */
  method StartOptions(registry: TaskRegistry) returns (o: ProcessOptions)
    ensures o.processName == "scheduler" && o.taskExecutors == registry
  {
    var defaults := DefaultProcessOptions();
    o := defaults.(taskExecutors := registry);
  }
}
