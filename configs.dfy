/** Loading the process configuration from a YAML or JSON file
    (src/utils/configs.rs). Reading the file and the serde decoders are external:
    the read's outcome and the two decoders are parameters, and an error is
    represented by its `{:?}` rendering. */
module Configs {
  import opened Common
  import opened ProtoCore
  import opened Errors

  /** The node types as written in a configuration file. */
  datatype FileNodeType = SingleProcessNode | WorkerNode | SchedulerNode

  datatype FileLoadBalancer = RoundRobinBalancing

  datatype WrapperDuration = WrapperDuration(seconds: i64, nanos: i32)

  /** `SerdeConfig`: the configuration as decoded from the file. */
  datatype SerdeConfig = SerdeConfig(
    nodeType: FileNodeType,
    numWorkers: i32,
    grpcPort: i32,
    gracefulTimeout: u64,
    loadBalancer: FileLoadBalancer,
    heartbeatInterval: Option<WrapperDuration>)

  /** A decoder: the decoded configuration or the text of its error. */
  type Decoder = string -> Result<SerdeConfig, string>

  /** The mapping at the end of `config_load`. The message literal there sets no
      data store, so the field keeps its default. */
  function ToConfig(c: SerdeConfig): (r: Config)
    ensures FromConfig(r) == Some(c)
  {
    Config(
      match c.nodeType
      case SchedulerNode => NodeTypeValue(Scheduler)
      case WorkerNode => NodeTypeValue(Worker)
      case _ => NodeTypeValue(SingleProcess),
      c.numWorkers,
      c.grpcPort,
      c.gracefulTimeout,
      match c.loadBalancer case RoundRobinBalancing => RoundRobin,
      match c.heartbeatInterval
      case None => None
      case Some(d) => Some(ProstDuration(d.seconds, d.nanos)),
      None)
  }

  /** The file configuration a message came from, if it came from one: the inverse
      of `ToConfig`, which therefore loses nothing. */
  function FromConfig(cfg: Config): Option<SerdeConfig>
  {
    var nodeType :=
      if cfg.nodeType == 0 then Some(SingleProcessNode)
      else if cfg.nodeType == 1 then Some(WorkerNode)
      else if cfg.nodeType == 2 then Some(SchedulerNode)
      else None;
    if nodeType.None? || cfg.dataStore.Some? then None
    else
      Some(SerdeConfig(
        nodeType.value,
        cfg.numWorkers,
        cfg.grpcPort,
        cfg.gracefulTimeout,
        RoundRobinBalancing,
        match cfg.heartbeatInterval
        case None => None
        case Some(d) => Some(WrapperDuration(d.seconds, d.nanos))))
  }

  /** Two different file configurations never map to the same message. */
  lemma ToConfigInjective(a: SerdeConfig, b: SerdeConfig)
    requires ToConfig(a) == ToConfig(b)
    ensures a == b
  {
    assert Some(a) == FromConfig(ToConfig(a)) == FromConfig(ToConfig(b)) == Some(b);
  }

  /** Field by field: the node type is the file's (read back through prost's
      accessor), the numbers are copied unchanged and the heartbeat interval keeps
      both of its fields. */
  lemma ToConfigFields(c: SerdeConfig)
    ensures NodeTypeOrDefault(ToConfig(c).nodeType) == match c.nodeType
      case SingleProcessNode => SingleProcess
      case WorkerNode => Worker
      case SchedulerNode => Scheduler
    ensures ToConfig(c).numWorkers == c.numWorkers
    ensures ToConfig(c).grpcPort == c.grpcPort
    ensures ToConfig(c).gracefulTimeout == c.gracefulTimeout
    ensures ToConfig(c).loadBalancer == RoundRobin
    ensures ToConfig(c).heartbeatInterval.None? <==> c.heartbeatInterval.None?
    ensures c.heartbeatInterval.Some? ==>
      ToConfig(c).heartbeatInterval.value.seconds == c.heartbeatInterval.value.seconds &&
      ToConfig(c).heartbeatInterval.value.nanos == c.heartbeatInterval.value.nanos
    ensures ToConfig(c).dataStore.None?
  {
  }

  /** `config_load(path)`, given what reading `path` gave. Every failure is a
      configuration load error; a success needs a read that worked and a path ending
      in ".yaml", ".yml" or ".json", and yields a message that came from a file
      configuration. */
  function ConfigLoad(path: string, read: Result<string, string>, yaml: Decoder, json: Decoder): (r: Result<Config, SchedulerError>)
    ensures r.Err? ==> r.error.ConfigLoadError?
    ensures r.Ok? ==> read.Ok? && (EndsWith(path, ".yaml") || EndsWith(path, ".yml") || EndsWith(path, ".json"))
    ensures r.Ok? ==> FromConfig(r.value).Some?
  {
    match read
    case Err(e) => Err(ConfigLoadError("failed to load configurations: " + e))
    case Ok(content) =>
      if EndsWith(path, ".yaml") || EndsWith(path, ".yml") then
        match yaml(content)
        case Err(e) => Err(ConfigLoadError("failed to deserialize from yaml: " + e))
        case Ok(c) => Ok(ToConfig(c))
      else if EndsWith(path, ".json") then
        match json(content)
        case Err(e) => Err(ConfigLoadError("failed to deserialize from json: " + e))
        case Ok(c) => Ok(ToConfig(c))
      else Err(ConfigLoadError("Unsupported configuration file format."))
  }

  /** A failed read fails the load whatever the path's extension. */
  lemma ConfigLoadReadFirst(path: string, e: string, yaml: Decoder, json: Decoder)
    ensures ConfigLoad(path, Err(e), yaml, json) == Err(ConfigLoadError("failed to load configurations: " + e))
  {
  }

  /** A ".yaml" or ".yml" path is decoded as YAML, and the JSON decoder is never
      consulted. */
  lemma ConfigLoadYaml(path: string, content: string, yaml: Decoder, json: Decoder, otherJson: Decoder)
    requires EndsWith(path, ".yaml") || EndsWith(path, ".yml")
    ensures ConfigLoad(path, Ok(content), yaml, json) == ConfigLoad(path, Ok(content), yaml, otherJson)
    ensures yaml(content).Ok? ==> ConfigLoad(path, Ok(content), yaml, json) == Ok(ToConfig(yaml(content).value))
    ensures yaml(content).Err? ==>
      ConfigLoad(path, Ok(content), yaml, json) == Err(ConfigLoadError("failed to deserialize from yaml: " + yaml(content).error))
  {
  }

  /** A ".json" path is decoded as JSON, and the YAML decoder is never consulted: no
      ".json" path also ends in ".yaml" or ".yml". */
  lemma ConfigLoadJson(path: string, content: string, yaml: Decoder, json: Decoder, otherYaml: Decoder)
    requires EndsWith(path, ".json")
    ensures ConfigLoad(path, Ok(content), yaml, json) == ConfigLoad(path, Ok(content), otherYaml, json)
    ensures json(content).Ok? ==> ConfigLoad(path, Ok(content), yaml, json) == Ok(ToConfig(json(content).value))
    ensures json(content).Err? ==>
      ConfigLoad(path, Ok(content), yaml, json) == Err(ConfigLoadError("failed to deserialize from json: " + json(content).error))
  {
    var last := path[|path| - 1];
    assert last == ".json"[4];
    assert !EndsWith(path, ".yaml") by {
      assert ".yaml"[4] != last;
    }
    assert !EndsWith(path, ".yml") by {
      assert ".yml"[3] != last;
    }
  }

  /** Any other path is refused without decoding. */
  lemma ConfigLoadUnsupported(path: string, content: string, yaml: Decoder, json: Decoder)
    requires !EndsWith(path, ".yaml") && !EndsWith(path, ".yml") && !EndsWith(path, ".json")
    ensures ConfigLoad(path, Ok(content), yaml, json) == Err(ConfigLoadError("Unsupported configuration file format."))
  {
  }
}
