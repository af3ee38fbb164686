/** The local worker pool: the name-to-executor registries, the pool builder, the
    counters the pool's threads share and `WorkerPool::execute`. Counters are
    `AtomicUsize`s, so they wrap around as Rust's `fetch_add`/`fetch_sub` do. */
module WorkerPool {
  import opened Common
  import opened ProtoCore
  import opened Messages
  import opened Errors
  import opened Decimal

  /** Declared in src/core/worker.rs; kept here because the builder needs it and a
      module cannot import the worker module that imports this one. */
  datatype WorkerType = Local | Remote

  /** A registered `TaskExecutor` trait object, identified by an opaque handle. */
  datatype TaskExecutor = TaskExecutor(handle: nat)

  /** A registered `AsyncTaskExecutor` trait object. */
  datatype AsyncTaskExecutor = AsyncTaskExecutor(handle: nat)

  /** What `get_executor` answers for `name` in a registry. */
  function Lookup<E>(registry: map<string, E>, name: string): (r: Result<E, SchedulerError>)
    ensures r.Ok? <==> name in registry
    ensures r.Ok? ==> r.value == registry[name]
  {
    if name in registry then Ok(registry[name])
    else Err(TaskExecutionError("Executor not found for task: " + name))
  }

  /** A registered name yields its executor; any other name yields the
      "Executor not found" error naming it. */
  lemma LookupAnswers<E>(registry: map<string, E>, name: string)
    ensures Lookup(registry, name).Ok? <==> name in registry
    ensures name in registry ==> Lookup(registry, name) == Ok(registry[name])
    ensures name !in registry ==> Lookup(registry, name).error == TaskExecutionError("Executor not found for task: " + name)
  {
  }

  /** Registering under a name replaces that name's executor and leaves every other
      name's answer as it was. */
  lemma LookupAfterRegister<E>(registry: map<string, E>, name: string, executor: E, other: string)
    ensures Lookup(registry[name := executor], name) == Ok(executor)
    ensures other != name ==> Lookup(registry[name := executor], other) == Lookup(registry, other)
  {
  }

  /** `TaskRegistry` and `GrpcWorkersRegistry` have the same body and differ only in
      the executor trait they store, so both are this class. */
  class ExecutorRegistry<E> {
    var registry: map<string, E>

    constructor ()
      ensures registry == map[]
    {
      registry := map[];
    }

    method RegisterTask(taskName: string, executor: E)
      modifies this
      ensures registry == old(registry)[taskName := executor]
    {
      registry := registry[taskName := executor];
    }

    method GetExecutor(name: string) returns (r: Result<E, SchedulerError>)
      ensures r == Lookup(registry, name)
    {
      if name in registry {
        r := Ok(registry[name]);
      } else {
        r := Err(TaskExecutionError("Executor not found for task: " + name));
      }
    }

    /** The names `iter_tasks` visits: exactly those `get_executor` answers for. */
    function IterTasks(): (r: set<string>)
      reads this
      ensures forall n :: n in r <==> Lookup(registry, n).Ok?
    {
      registry.Keys
    }
  }

  type TaskRegistry = ExecutorRegistry<TaskExecutor>
  type GrpcWorkersRegistry = ExecutorRegistry<AsyncTaskExecutor>

  /** `init_registry`: the given registry, or a fresh empty one. */
  method InitRegistry(executors: Option<TaskRegistry>) returns (r: TaskRegistry)
    ensures executors.Some? ==> r == executors.value
    ensures executors.None? ==> fresh(r) && r.registry == map[]
  {
    match executors
    case None =>
      r := new ExecutorRegistry<TaskExecutor>();
    case Some(e) =>
      r := e;
  }

  /** What a pool is built with once the builder's defaults are applied. The
      builder's thread stack size is not among them: `initialize_thread_pool`
      passes `None` to the shared data whatever was set. */
  datatype PoolSettings = PoolSettings(numWorkers: usize, forceShutdown: bool, name: Option<string>)

  datatype Builder = Builder(
    name: Option<string>,
    numWorkers: Option<usize>,
    threadStackSize: Option<usize>,
    workersType: WorkerType,
    forceShutdown: Option<bool>,
    executors: Option<TaskRegistry>)
  {
    /** Each setter sets its own option and leaves every other one as it was. */
    function GrpcWorkers(): (r: Builder)
      ensures r.workersType == Remote && r.(workersType := workersType) == this
    {
      this.(workersType := Remote)
    }

    function NumWorkers(n: usize): (r: Builder)
      ensures r.numWorkers == Some(n) && r.(numWorkers := numWorkers) == this
    {
      this.(numWorkers := Some(n))
    }

    function Name(n: string): (r: Builder)
      ensures r.name == Some(n) && r.(name := name) == this
    {
      this.(name := Some(n))
    }

    function ThreadStackSize(size: usize): (r: Builder)
      ensures r.threadStackSize == Some(size) && r.(threadStackSize := threadStackSize) == this
    {
      this.(threadStackSize := Some(size))
    }

    function WithForceShutdown(): (r: Builder)
      ensures r.forceShutdown == Some(true) && r.(forceShutdown := forceShutdown) == this
    {
      this.(forceShutdown := Some(true))
    }

    function Executors(registry: TaskRegistry): (r: Builder)
      ensures r.executors == Some(registry) && r.(executors := executors) == this
    {
      this.(executors := Some(registry))
    }

    /** The checks and defaults of `build`, given the machine's CPU count. */
    function Settings(cpus: usize): (r: Result<PoolSettings, SchedulerError>)
      ensures r.Err? <==> workersType == Remote
      ensures r.Ok? ==>
        && r.value.name == name
        && (numWorkers.Some? ==> r.value.numWorkers == numWorkers.value)
        && (numWorkers.None? ==> r.value.numWorkers == cpus)
        && r.value.forceShutdown == (forceShutdown == Some(true))
    {
      match workersType
      case Local =>
        Ok(PoolSettings(
          match numWorkers case Some(n) => n case None => cpus,
          match forceShutdown case Some(f) => f case None => false,
          name))
      case Remote => Err(PoolCreationError("Cant serve gRPC based workers currently"))
    }
  }

  /** `Builder::new`: nothing set, local workers. */
  function NewBuilder(): (r: Builder)
    ensures forall cpus :: r.Settings(cpus) == Ok(PoolSettings(cpus, false, None))
  {
    Builder(None, None, None, Local, None, None)
  }

  /** A builder asked for gRPC workers never builds, whatever else was set. */
  lemma RemoteRejected(b: Builder, cpus: usize)
    ensures b.GrpcWorkers().Settings(cpus) == Err(PoolCreationError("Cant serve gRPC based workers currently"))
  {
  }

  /** Unset options default to the CPU count and to no forced shutdown; set ones are
      used as given. */
  lemma BuildDefaults(cpus: usize, n: usize, name: string)
    ensures NewBuilder().Settings(cpus) == Ok(PoolSettings(cpus, false, None))
    ensures NewBuilder().NumWorkers(n).Name(name).Settings(cpus) == Ok(PoolSettings(n, false, Some(name)))
    ensures NewBuilder().WithForceShutdown().Settings(cpus).value.forceShutdown
  {
  }

  /** The stack size set on a builder has no effect on what is built. */
  lemma StackSizeIgnored(b: Builder, size: usize, cpus: usize)
    ensures b.ThreadStackSize(size).Settings(cpus) == b.Settings(cpus)
  {
  }

  /** What a submitted job runs: the closure both admin services build, which looks up
      the executor registered under the request's original task id. */
  datatype Closure = RunExecutor(taskName: string)

  datatype Job = Job(id: usize, data: ExecuteRequest, job: Closure)

  /** `WorkerPoolSharedData`: the counters and the receiving end of the job channel
      that the pool and its worker threads share. */
  class WorkerPoolSharedData {
    const name: Option<string>
    const stackSize: Option<usize>
    const forceShutdown: bool
    var queuedCount: usize
    var activeCount: usize
    var maxThreadCount: usize
    var panicCount: usize
    var jobCounter: usize
    /** Jobs sent into the channel and not yet received, oldest first. */
    var queue: seq<Job>
    /** Whether every sending end of the job channel has been dropped. */
    var disconnected: bool

    constructor (numThreads: usize, threadStackSize: Option<usize>, pending: seq<Job>, senderDropped: bool,
                 forceShutdown: bool, poolName: Option<string>)
      ensures queuedCount == 0 && activeCount == 0 && panicCount == 0 && jobCounter == 0
      ensures maxThreadCount == numThreads
      ensures name == poolName && stackSize == threadStackSize && this.forceShutdown == forceShutdown
      ensures queue == pending && disconnected == senderDropped
    {
      name := poolName;
      stackSize := threadStackSize;
      this.forceShutdown := forceShutdown;
      queuedCount := 0;
      activeCount := 0;
      maxThreadCount := numThreads;
      panicCount := 0;
      jobCounter := 0;
      queue := pending;
      disconnected := senderDropped;
    }

    /** Work is pending while a job is queued or running. */
    predicate HasWork()
      reads this
      ensures !HasWork() <==> queuedCount == 0 && activeCount == 0
    {
      queuedCount > 0 || activeCount > 0
    }

    /** `load_thread_metrics`: the active counter first, the thread limit second. */
    function LoadThreadMetrics(): (r: (usize, usize))
      reads this
      ensures r.0 == activeCount && r.1 == maxThreadCount
    {
      (activeCount, maxThreadCount)
    }

    method DecrementThreadActive()
      modifies this`activeCount
      ensures activeCount == WrapDec(old(activeCount))
    {
      activeCount := WrapDec(activeCount);
    }

    method ProcessNewExecutionMetrics()
      modifies this`activeCount, this`queuedCount
      ensures activeCount == WrapInc(old(activeCount))
      ensures queuedCount == WrapDec(old(queuedCount))
    {
      activeCount := WrapInc(activeCount);
      queuedCount := WrapDec(queuedCount);
    }
  }

  /** A freshly created shared state has no work. */
  method NewSharedDataHasNoWork(numThreads: usize) returns (hasWork: bool)
    ensures !hasWork
  {
    var shared := new WorkerPoolSharedData(numThreads, None, [], false, false, None);
    hasWork := shared.HasWork();
  }

  /** Guards a worker thread: while `active`, dropping it would count the thread as
      lost and spawn a replacement (that respawn is not modelled). */
  class Sentinel {
    const workerId: usize
    var active: bool

    constructor (workerId: usize)
      ensures this.workerId == workerId && active
    {
      this.workerId := workerId;
      active := true;
    }

    method Cancel()
      modifies this
      ensures !active
    {
      active := false;
    }
  }

  /** The outcome of one `execute` call: its result and the jobs it sent. */
  datatype Submission = Submission(result: Result<(), SchedulerError>, sent: seq<Job>)

  /** `execute` with job counter `jobCount`; `hasSender` says whether the pool still
      holds the sending end of its job channel. */
  function Submit(jobCount: usize, hasSender: bool, job: Closure, args: ExecuteRequest): (r: Submission)
    ensures r.result.Ok? <==> args.task.Some? && hasSender
    ensures |r.sent| == if r.result.Ok? then 1 else 0
  {
    match args.task
    case None => Submission(Err(TaskExecutionError("task execution must include valid data")), [])
    case Some(t) =>
      var request := ExecuteRequest(Some(t.(id := NatToString(jobCount as nat))));
      if hasSender then Submission(Ok(()), [Job(jobCount, request, job)])
      else Submission(Err(TaskExecutionError("Couldn't excute the job as the WorkerPool is not initalized properly")), [])
  }

  /** A request without a task sends nothing and fails; a request with one is sent
      as a job tagged with the counter, whose task id is the counter in decimal and
      whose payload is the request's. */
  lemma {:induction false} SubmitTagsJob(jobCount: usize, job: Closure, args: ExecuteRequest)
    ensures args.task.None? ==> Submit(jobCount, true, job, args) == Submission(Err(TaskExecutionError("task execution must include valid data")), [])
    ensures args.task.Some? ==>
      var s := Submit(jobCount, true, job, args);
      && s.result == Ok(())
      && |s.sent| == 1
      && s.sent[0].id == jobCount
      && s.sent[0].job == job
      && s.sent[0].data.task.Some?
      && s.sent[0].data.task.value.payload == args.task.value.payload
      && ParseDecimal(s.sent[0].data.task.value.id) == jobCount as nat
  {
    ParseNatToString(jobCount as nat);
  }

  /** The jobs sent by `execute` called on each request in turn, the counter starting
      at `start`. Every call takes a number, including calls that fail. */
  function SubmitAll(start: usize, hasSender: bool, job: Closure, reqs: seq<ExecuteRequest>): seq<Job>
    decreases |reqs|
  {
    if reqs == [] then []
    else Submit(start, hasSender, job, reqs[0]).sent + SubmitAll(WrapInc(start), hasSender, job, reqs[1..])
  }

  /** One more request, numbered after all the earlier ones. */
  lemma {:induction false} SubmitAllSnoc(start: usize, hasSender: bool, job: Closure, reqs: seq<ExecuteRequest>, last: ExecuteRequest)
    requires start as int + |reqs| < USIZE_MODULUS
    ensures SubmitAll(start, hasSender, job, reqs + [last])
      == SubmitAll(start, hasSender, job, reqs) + Submit((start as int + |reqs|) as usize, hasSender, job, last).sent
    decreases |reqs|
  {
    if reqs == [] {
      assert [last][1..] == [];
    } else {
      assert (reqs + [last])[1..] == reqs[1..] + [last];
      SubmitAllSnoc(WrapInc(start), hasSender, job, reqs[1..], last);
    }
  }

  /** Counting from `start`, the call with index `i` adds the job tagged `start + i`,
      whose task id is that number in decimal; a call whose request has no task
      adds nothing but still uses up its number. */
  lemma SubmitAllNumbers(start: usize, job: Closure, reqs: seq<ExecuteRequest>, i: nat)
    requires i < |reqs|
    requires start as int + |reqs| < USIZE_MODULUS
    ensures reqs[i].task.Some? ==>
      SubmitAll(start, true, job, reqs[..i + 1])
        == SubmitAll(start, true, job, reqs[..i])
           + [Job((start as int + i) as usize, ExecuteRequest(Some(reqs[i].task.value.(id := NatToString(start as nat + i)))), job)]
    ensures reqs[i].task.None? ==> SubmitAll(start, true, job, reqs[..i + 1]) == SubmitAll(start, true, job, reqs[..i])
  {
    assert reqs[..i + 1] == reqs[..i] + [reqs[i]];
    SubmitAllSnoc(start, true, job, reqs[..i], reqs[i]);
  }

  class WorkerPool {
    /** Whether the pool holds the sending end of the job channel (`jobs` is `Some`). */
    var jobs: bool
    const shared: WorkerPoolSharedData
    const executors: TaskRegistry

    constructor (shared: WorkerPoolSharedData, executors: TaskRegistry)
      ensures jobs && this.shared == shared && this.executors == executors
    {
      jobs := true;
      this.shared := shared;
      this.executors := executors;
    }

    /** `execute`: both counters are bumped before the request is checked, then the
        job is tagged and sent. */
    method Execute(job: Closure, args: ExecuteRequest) returns (r: Result<(), SchedulerError>)
      modifies shared`jobCounter, shared`queuedCount, shared`queue
      ensures shared.jobCounter == WrapInc(old(shared.jobCounter))
      ensures shared.queuedCount == WrapInc(old(shared.queuedCount))
      ensures r == Submit(old(shared.jobCounter), jobs, job, args).result
      ensures shared.queue == old(shared.queue) + Submit(old(shared.jobCounter), jobs, job, args).sent
    {
      var jobCount := shared.jobCounter;
      shared.jobCounter := WrapInc(shared.jobCounter);
      shared.queuedCount := WrapInc(shared.queuedCount);
      if args.task.None? {
        return Err(TaskExecutionError("task execution must include valid data"));
      }
      var task := args.task.value.(id := NatToString(jobCount as nat));
      var request := ExecuteRequest(Some(task));
      if jobs {
        shared.queue := shared.queue + [Job(jobCount, request, job)];
      } else {
        return Err(TaskExecutionError("Couldn't excute the job as the WorkerPool is not initalized properly"));
      }
      r := Ok(());
    }
  }

  /** `build`: rejects remote workers, applies the defaults and creates the pool's
      shared state and registry. `cpus` is what `num_cpus::get` reports. */
  method Build(b: Builder, cpus: usize) returns (r: Result<WorkerPool, SchedulerError>)
    ensures b.Settings(cpus).Err? ==> r == Err(b.Settings(cpus).error)
    ensures b.Settings(cpus).Ok? ==>
      && r.Ok? && fresh(r.value) && fresh(r.value.shared) && r.value.jobs
      && r.value.shared.maxThreadCount == b.Settings(cpus).value.numWorkers
      && r.value.shared.forceShutdown == b.Settings(cpus).value.forceShutdown
      && r.value.shared.name == b.name && r.value.shared.stackSize == None
      && r.value.shared.queuedCount == 0 && r.value.shared.activeCount == 0 && r.value.shared.jobCounter == 0
      && r.value.shared.queue == [] && !r.value.shared.disconnected
      && (b.executors.Some? ==> r.value.executors == b.executors.value)
      && (b.executors.None? ==> fresh(r.value.executors) && r.value.executors.registry == map[])
  {
    match b.Settings(cpus)
    case Err(e) =>
      r := Err(e);
    case Ok(s) =>
      var shared := new WorkerPoolSharedData(s.numWorkers, None, [], false, s.forceShutdown, s.name);
      var registry := InitRegistry(b.executors);
      var pool := new WorkerPool(shared, registry);
      r := Ok(pool);
  }
}
