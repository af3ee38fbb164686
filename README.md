# ProtoT scheduler core, modelled in Dafny

ProtoT is a task scheduler written in Rust. A caller submits a task through the
admin service's `execute`, and the scheduler runs it in one of two ways:

- in a local pool of worker threads (single-process node);
- on a remote worker (scheduler node). Remote workers keep one bidirectional gRPC
  stream (`communicate`) open to the scheduler. On that stream they register,
  send heartbeats and report completions, and the scheduler assigns them tasks
  round-robin.

This project models the deterministic core of that system and proves what it
promises. The core is:

- the round-robin balancer;
- the shared worker-channel state and the dispatch of a task to one worker;
- the scheduler's per-worker session loop and its heartbeat broadcast;
- the admin services' `execute` and `schedule`;
- the local pool's registry, builder, job submission and counters, and a worker
  thread's job loop;
- configuration loading and start-up decisions;
- the Redis data store's validation and writes;
- the remote worker's builder and stream answers;
- the error rendering, the banner text and the generated protobuf enumerations.

The modules follow the source files:

| module | source |
|---|---|
| `Common` | Rust's `Option`/`Result`, panics, `usize` atomics and integer casts |
| `ProtoCore`, `Messages` | the generated `core` and `scheduler.v1` protobuf types, and tonic's `Status` |
| `Decimal` | `usize::to_string` |
| `Errors` | src/utils/error.rs |
| `LoadBalancer` | src/core/load_balancer.rs |
| `GrpcExecutor` | src/core/grpc_executor.rs |
| `Server` | src/server/mod.rs |
| `WorkerPool` | src/core/worker_pool.rs |
| `Worker` | src/core/worker.rs |
| `Configs` | src/utils/configs.rs |
| `Startup` | src/lib.rs |
| `RedisStore` | src/data/redis_store.rs |
| `Client` | src/client/mod.rs |
| `Utils` | src/utils/mod.rs |

How the model represents the system:

- **Objects the source updates in place are classes.** These are the balancer,
  the gRPC shared state, the registries, the pool's shared data, the sentinel and
  the Redis store. Their methods are proved against pure specification functions:
  `Select`, `Distribute`, `Run`, `Submit`, `Drain`, `ClientSession`, `HSet`.
- **A panic is an `Outcome.Panicked` value, not an abort.** The panics modelled
  are `unwrap` on `None`, `panic!` and the overflow of `Duration::new`.
- **A channel is a `ChannelId`.** What has been sent on each channel is recorded
  in the shared state: the items sent on each outbound channel (`queues`) and
  the number of cancel signals (`cancels`).
- **HashMap iteration order is a parameter.** It is an `order` sequence that
  lists the map's keys exactly once each (`IsKeyOrder`).
- **External calls are parameters.** These are the file read, the serde
  decoders, the Redis client and connection, the CPU count and the arrival time
  of stream items.

## Model

| member | source | states |
|---|---|---|
| Common.WrapInc | src/core/worker_pool.rs:313-314 | `fetch_add(1)` on an `AtomicUsize` leaves the old value plus one, modulo 2^64 |
| Common.WrapDec | src/core/worker_pool.rs:546-555 | `fetch_sub(1)` leaves the old value minus one, modulo 2^64 |
| Common.WrapDecInc | src/core/worker.rs:81-87 | a wrapping decrement undoes a wrapping increment and vice versa, so the bracket around a job leaves the active counter as it found it |
| ProtoCore.TaskStateValue | examples/target/debug/build/protot-3447f9315f72ea62/out/sylklabs.core.rs:10-16 | a state's discriminant decodes back to that state |
| ProtoCore.TaskStateFromI32 | examples/target/debug/build/protot-3447f9315f72ea62/out/sylklabs.core.rs:10-16 | exactly the discriminants 0, 1 and 2 decode |
| ProtoCore.TaskStateNameRoundTrip | examples/target/debug/build/protot-3447f9315f72ea62/out/sylklabs.core.rs:22-37 | `from_str_name(as_str_name(s)) == Some(s)` for every task state |
| ProtoCore.TaskStateFromNameExact | examples/target/debug/build/protot-3447f9315f72ea62/out/sylklabs.core.rs:30-37 | only "PENDING", "SUCCESS" and "FAIL", exactly, decode, each to the state with that name |
| ProtoCore.TaskStateName | examples/target/debug/build/protot-3447f9315f72ea62/out/sylklabs.core.rs:22-28 | `as_str_name` gives a name that `from_str_name` decodes back to the same state |
| ProtoCore.TaskStateFromName | examples/target/debug/build/protot-3447f9315f72ea62/out/sylklabs.core.rs:30-37 | a name decodes exactly when it is "PENDING", "SUCCESS" or "FAIL" |
| ProtoCore.NodeTypeValue | examples/target/debug/build/protot-3447f9315f72ea62/out/sylklabs.core.rs:50-56 | a node type's discriminant decodes back to that node type |
| ProtoCore.NodeTypeFromI32 | examples/target/debug/build/protot-3447f9315f72ea62/out/sylklabs.core.rs:50-56 | exactly the discriminants 0, 1 and 2 decode |
| ProtoCore.NodeTypeNameRoundTrip | examples/target/debug/build/protot-3447f9315f72ea62/out/sylklabs.core.rs:62-77 | `from_str_name(as_str_name(n)) == Some(n)` for every node type |
| ProtoCore.NodeTypeFromNameExact | examples/target/debug/build/protot-3447f9315f72ea62/out/sylklabs.core.rs:70-77 | only "SINGLE_PROCESS", "WORKER" and "SCHEDULER" decode; any other name gives None |
| ProtoCore.NodeTypeName | examples/target/debug/build/protot-3447f9315f72ea62/out/sylklabs.core.rs:62-68 | `as_str_name` gives a name that `from_str_name` decodes back to the same node type |
| ProtoCore.NodeTypeFromName | examples/target/debug/build/protot-3447f9315f72ea62/out/sylklabs.core.rs:70-77 | a name decodes exactly when it is "SINGLE_PROCESS", "WORKER" or "SCHEDULER" |
| ProtoCore.Discriminants | examples/target/debug/build/protot-3447f9315f72ea62/out/sylklabs.core.rs:10-56 | Pending=0, Success=1, Fail=2 and SingleProcess=0, Worker=1, Scheduler=2 |
| ProtoCore.NodeTypeOrDefault | src/lib.rs:134 | prost's `node_type()` accessor: a known discriminant reads as its node type, an unknown one as SingleProcess |
| Decimal.NatToString | src/core/worker_pool.rs:321 | `to_string` writes at least one digit, only digits, and no leading zero |
| Decimal.ParseNatToString | src/core/worker_pool.rs:321 | reading back the decimal text of a job count gives the count |
| Decimal.NatToStringInjective | src/core/worker_pool.rs:321 | distinct job counts get distinct task ids |
| Errors.Display | src/utils/error.rs:67-81 | every rendering is longer than the variant's message and ends with it verbatim |
| Errors.ParsesConfigLoadError | src/utils/error.rs:68 | the error renders as "Config load error: " followed by its message, and that text parses back to the same error: no prefix tried before it matches |
| Errors.ParsesTaskExecutionError | src/utils/error.rs:69 | the error renders as "Task execution error: " followed by its message, and that text parses back to the same error: no prefix tried before it matches |
| Errors.ParsesPoolCreationError | src/utils/error.rs:70 | the error renders as "Pool creation error: " followed by its message, and that text parses back to the same error: no prefix tried before it matches |
| Errors.ParsesSchedulerUnimplemented | src/utils/error.rs:71 | the error renders as "Unimplemented: " followed by its message, and that text parses back to the same error: no prefix tried before it matches |
| Errors.ParsesSchedulerServiceError | src/utils/error.rs:72-74 | the error renders as "Scheduler service error: " followed by its message, and that text parses back to the same error: no prefix tried before it matches |
| Errors.ParsesLoggerSetupError | src/utils/error.rs:75-77 | the error renders as "Scheduler logger error: " followed by its message, and that text parses back to the same error: no prefix tried before it matches |
| Errors.ParsesDataLayerError | src/utils/error.rs:78-80 | the error renders as "Scheduler data layer error: " followed by its message, and that text parses back to the same error: no prefix tried before it matches |
| Errors.ParseDisplay | src/utils/error.rs:67-81 | no variant's prefix is a prefix of another's, so the variant and its message are recovered from the rendering |
| Errors.DisplayInjective | src/utils/error.rs:67-81 | two errors with the same rendering are the same error |
| LoadBalancer.Select | src/core/load_balancer.rs:36-52 | no keys gives None and keeps the cursor; otherwise the key returned is the one at the new cursor minus one, and the cursor is advanced by one, or reset to 1 when it was at or past the end; the new cursor is between 1 and the number of keys |
| LoadBalancer.CallsSplit | src/core/load_balancer.rs:36-52 | calls made in two batches give the same answers as the calls made in one go |
| LoadBalancer.CallsInRange | src/core/load_balancer.rs:48-51 | while the cursor stays inside the keys, successive calls read consecutive keys and the cursor counts the calls |
| LoadBalancer.CallsWrap | src/core/load_balancer.rs:44-46 | a cursor at or past the end behaves as a cursor of 0 |
| LoadBalancer.RoundRobinFair | src/core/load_balancer.rs:36-52 | from a fresh cursor, n calls over n keys return every key once in sequence order, and call n+1 returns the first key again |
| LoadBalancer.RoundRobinBalancer.constructor | src/core/load_balancer.rs:29-31 | a new balancer's cursor is 0 |
| LoadBalancer.RoundRobinBalancer.SelectWorker | src/core/load_balancer.rs:36-52 | the key returned and the cursor left are those of `Select` on the old cursor |
| GrpcExecutor.SendAppends | src/core/grpc_executor.rs:73-77 | a send appends its item to the channel sent on and to no other |
| GrpcExecutor.QueueSize | src/core/grpc_executor.rs:41-45 | the maximum task queue is 100 when none is given, else the given size |
| GrpcExecutor.NewStateQueueSize | src/core/grpc_executor.rs:41-56 | `max_queue_size` on a state made by `new` is 100 when no size was given, and otherwise the size given |
| GrpcExecutor.Respond | src/core/grpc_executor.rs:78-87 | every answer that is returned is in state Pending |
| GrpcExecutor.KeyOrderEmpty | src/core/grpc_executor.rs:68-72 | an iteration order of the channel map is empty exactly when the map is empty |
| GrpcExecutor.Distribute | src/core/grpc_executor.rs:68-92 | the channel, heartbeat and cancel maps are unchanged, and the reply is aborted "No available workers" exactly when no worker is registered |
| GrpcExecutor.RespondIds | src/core/grpc_executor.rs:78-87 | an AssignTask answers with its own task and execution ids, an AssignTask without a task panics, any other message answers "UnknownTaskId"/"UnknownExecutionId", and every answer is Pending |
| GrpcExecutor.DistributeNoWorkers | src/core/grpc_executor.rs:89-91 | with no registered worker nothing is sent, the cursor stays and the reply is aborted "No available workers" |
| GrpcExecutor.DistributeSendsOne | src/core/grpc_executor.rs:68-92 | with a registered worker, the round-robin pick's channel receives the task unchanged exactly once; no other channel, map or cancel count changes; the reply is built from the task whether or not the send reached a listener |
| GrpcExecutor.AliasesOnePerWorker | src/core/grpc_executor.rs:58-66 | a loop over the channel map sends exactly once on each worker's own channel and never on a channel no worker is registered on |
| GrpcExecutor.GrpcSharedState.constructor | src/core/grpc_executor.rs:41-52 | the channel and heartbeat maps start empty, and the queue size is that of `QueueSize` |
| GrpcExecutor.GrpcSharedState.DropWorkers | src/core/grpc_executor.rs:58-66 | each channel's cancel count grows by the number of workers registered on it, which is one per worker when channels are distinct |
| GrpcExecutor.GrpcSharedState.DistributeTask | src/core/grpc_executor.rs:68-92 | the new shared state, cursor and reply are those of `Distribute` on the old state and cursor |
| Server.StepRegistration | src/server/mod.rs:104-120 | registration stores the session's channel under the worker id, overwriting any earlier entry, records the id, and replies with one Ack "worker connected" whose status is Ready |
| Server.StepHeartbeat | src/server/mod.rs:90-99 | a heartbeat on a registered session records its arrival under the id and sends nothing; before registration, with the Debug-level logger installed, the session's task dies and nothing shared changes |
| Server.Step | src/server/mod.rs:86-147 | no item sends a cancel signal; only a heartbeat before registration ends a live session, under the Debug-level logger; a registered id that maps to the session's channel keeps mapping to it |
| Server.StepCompletion | src/server/mod.rs:100-103 | a completion changes nothing and sends nothing |
| Server.StepUnknown | src/server/mod.rs:121-127 | a message of no known type sends exactly one aborted "Unknown worker message or missing data" and the loop goes on |
| Server.StepStreamError | src/server/mod.rs:139-145 | a stream error on a registered session removes exactly that id's channel entry and forgets the id, and changes nothing else; on an unregistered one it changes nothing, so a second error removes nothing |
| Server.StaleErrorRemovesNewerEntry | src/server/mod.rs:104-145 | when two sessions register the same id, an error on the first session removes the entry the second one stored |
| Server.RunStopsWhenDead | src/server/mod.rs:86-147 | once a session's task has died, the rest of its stream has no effect |
| Server.Run | src/server/mod.rs:86-147 | after any stream the session's registered id, if any, maps to the session's own channel, and no cancel signal has been sent |
| Server.StepSends | src/server/mod.rs:131-137 | one step sends its reply on the session's own channel only, and no cancel signal |
| Server.RunSends | src/server/mod.rs:86-147 | a session writes only to its own channel, and there exactly its replies in the order of the items causing them |
| Server.SchedulerServer.constructor | src/server/mod.rs:63-65 | the server holds the given shared state |
| Server.SchedulerServer.Communicate | src/server/mod.rs:72-166 | the shared state, registered id and liveness after the loop are those of `Run` over the inbound stream |
| Server.HeartbeatTick | src/server/mod.rs:228-253 | every channel receives one Heartbeat per map entry registered on it, appended after what it already held |
| Server.Schedule | src/server/mod.rs:481-502 | `schedule` always fails with an Unimplemented status |
| Server.ExecuteOnPool | src/server/mod.rs:435-475 | a request without a task panics and touches nothing; otherwise the pool's `execute` runs, and its error becomes a failed precondition |
| Server.PoolPathSucceeds | src/server/mod.rs:435-475 | on the local path the pool's "must include valid data" error cannot happen, and with a live job channel the call succeeds |
| Server.SchedulerAdminService.constructor | src/server/mod.rs:406-408 | the service holds the given pool and gRPC state |
| Server.SchedulerAdminService.Execute | src/server/mod.rs:414-479 | a request without a task panics; with gRPC state the task goes to `Distribute` as an AssignTask and the pool is untouched; without it the local pool runs it |
| Server.SchedulerSingleProcessAdminService.constructor | src/server/mod.rs:511-513 | the service holds the given pool |
| Server.SchedulerSingleProcessAdminService.Execute | src/server/mod.rs:518-567 | every task goes to the local pool, with the same answers as the admin service's local path |
| Server.DistributedExecuteAnswers | src/server/mod.rs:423-434 | the distributed answer carries the request's task id, an empty execution id and the Pending state, or is "No available workers" when no worker is registered |
| WorkerPool.LookupAnswers | src/core/worker_pool.rs:120-132 | a registered name yields its executor; any other name yields `TaskExecutionError("Executor not found for task: " + name)` |
| WorkerPool.Lookup | src/core/worker_pool.rs:120-132 | the lookup succeeds exactly for a registered name, and then yields that name's executor |
| WorkerPool.ExecutorRegistry.IterTasks | src/core/worker_pool.rs:116-118 | the names visited are exactly those `get_executor` succeeds for |
| WorkerPool.LookupAfterRegister | src/core/worker_pool.rs:108-114 | registering under a name replaces its executor and leaves every other name's answer unchanged |
| WorkerPool.ExecutorRegistry.constructor | src/core/worker_pool.rs:102-106 | a new registry is empty |
| WorkerPool.ExecutorRegistry.RegisterTask | src/core/worker_pool.rs:108-114 | the registry maps the name to the new executor, all else unchanged |
| WorkerPool.ExecutorRegistry.GetExecutor | src/core/worker_pool.rs:120-132 | the answer is the registry's `Lookup` of the name |
| WorkerPool.InitRegistry | src/core/worker_pool.rs:191-205 | `None` gives a fresh empty registry and `Some(r)` gives `r` itself |
| WorkerPool.NewBuilder | src/core/worker_pool.rs:208-218 | a new builder builds, for any CPU count, a pool with that many workers, no forced shutdown and no name |
| WorkerPool.Builder.GrpcWorkers | src/core/worker_pool.rs:220-224 | selects gRPC workers and leaves every other option as it was |
| WorkerPool.Builder.NumWorkers | src/core/worker_pool.rs:226-230 | sets the worker count and leaves every other option as it was |
| WorkerPool.Builder.Name | src/core/worker_pool.rs:232-236 | sets the name and leaves every other option as it was |
| WorkerPool.Builder.ThreadStackSize | src/core/worker_pool.rs:238-242 | sets the stack size and leaves every other option as it was |
| WorkerPool.Builder.WithForceShutdown | src/core/worker_pool.rs:244-247 | turns forced shutdown on and leaves every other option as it was |
| WorkerPool.Builder.Executors | src/core/worker_pool.rs:249-252 | sets the registry and leaves every other option as it was |
| WorkerPool.Builder.Settings | src/core/worker_pool.rs:254-263 | fails exactly for gRPC workers; otherwise the name is the builder's, the worker count is the one set or else the CPU count, and forced shutdown is on only when it was set |
| WorkerPool.RemoteRejected | src/core/worker_pool.rs:259-263 | a builder for gRPC workers fails with `PoolCreationError("Cant serve gRPC based workers currently")`, whatever else is set |
| WorkerPool.BuildDefaults | src/core/worker_pool.rs:254-260 | unset worker count defaults to the CPU count and forced shutdown to false; set values are used as given |
| WorkerPool.StackSizeIgnored | src/core/worker_pool.rs:238-241 | the thread stack size set on a builder has no effect on what is built |
| WorkerPool.WorkerPoolSharedData.constructor | src/core/worker_pool.rs:492-513 | every counter starts at 0 and the thread limit is the thread count |
| WorkerPool.WorkerPoolSharedData.DecrementThreadActive | src/core/worker_pool.rs:546-555 | the active counter drops by one, wrapping |
| WorkerPool.WorkerPoolSharedData.ProcessNewExecutionMetrics | src/core/worker_pool.rs:557-566 | the active counter rises by one and the queued counter drops by one |
| WorkerPool.NewSharedDataHasNoWork | src/core/worker_pool.rs:515-517 | freshly created shared data has no work |
| WorkerPool.WorkerPoolSharedData.HasWork | src/core/worker_pool.rs:515-517 | there is no work exactly when both the queued and the active counter are 0 |
| WorkerPool.Sentinel.constructor | src/core/worker_pool.rs:142-148 | a new sentinel is active, for the given worker id |
| WorkerPool.Sentinel.Cancel | src/core/worker_pool.rs:151-153 | a cancelled sentinel is inactive, so dropping it spawns no replacement |
| WorkerPool.SubmitTagsJob | src/core/worker_pool.rs:309-344 | a request without a task fails and sends nothing; one with a task sends one job tagged with the counter, whose task id reads back as the counter and whose payload is the request's |
| WorkerPool.Submit | src/core/worker_pool.rs:309-344 | the call succeeds exactly when the request has a task and the job channel is open, and then sends one job; otherwise it sends none |
| WorkerPool.SubmitAllSnoc | src/core/worker_pool.rs:313-344 | one more request appends what its own call sends, numbered after all the earlier calls |
| WorkerPool.SubmitAllNumbers | src/core/worker_pool.rs:313-333 | counting from the job counter, the call with index i adds the job tagged counter + i whose task id is that number in decimal; a call whose request has no task adds nothing but still uses up its number |
| WorkerPool.WorkerPool.constructor | src/core/worker_pool.rs:276-281 | a built pool holds the sending end of its job channel, its shared data and its registry |
| WorkerPool.WorkerPool.Execute | src/core/worker_pool.rs:309-344 | the job and queued counters both rise by one before the request is checked, even when it fails; the result and the jobs sent are those of `Submit` |
| WorkerPool.Build | src/core/worker_pool.rs:254-282 | a rejected builder returns its error; otherwise the pool has the builder's thread count, name and shutdown flag, zero counters, no stack size, an empty open channel and the registry of `InitRegistry` |
| Worker.DrainProperties | src/core/worker.rs:47-93 | a pool at its thread limit takes no job; otherwise every queued job runs in the order sent, the queued counter drops by the number run, and a disconnected channel ends the loop; the limit check reads `load_thread_metrics` as (active, limit), src/core/worker_pool.rs:539-545 |
| Worker.Drain | src/core/worker.rs:47-93 | the jobs run followed by the jobs left are the queue as it was; the loop stops for the thread limit exactly when the pool is at it, and otherwise empties the queue and reports a disconnect exactly when the channel is disconnected |
| Worker.ProcessTask | src/core/worker.rs:47-93 | the jobs run, the queue and queued counter left, and the exit reason are those of `Drain`; the active counter ends as it started and the sentinel is cancelled; the limit check reads `load_thread_metrics` as (active, limit), src/core/worker_pool.rs:539-545 |
| Worker.LocalWorker.constructor | src/core/worker.rs:190-200 | a new worker is inactive, with zero jobs and times, on the given shared data |
| Worker.CreateWorker | src/core/worker.rs:23-33 | Local gives a new local worker with the given id; any other type panics "worker type not supported" |
| Worker.LocalWorkerSpawn | src/core/worker.rs:254-277 | a one-thread pool whose empty channel has lost its sender has no work after its worker runs |
| Configs.ToConfig | src/utils/configs.rs:140-160 | the mapped message decodes back to the file configuration, so the mapping loses nothing |
| Configs.ToConfigInjective | src/utils/configs.rs:140-160 | different file configurations map to different messages |
| Configs.ToConfigFields | src/utils/configs.rs:140-160 | node type maps Scheduler, Worker and otherwise SingleProcess; port, worker count and timeout are copied; the heartbeat interval keeps both fields; no data store is set |
| Configs.ConfigLoad | src/utils/configs.rs:116-163 | every failure is a configuration load error; a success needs a successful read and a path ending in ".yaml", ".yml" or ".json", and gives a message that maps back to a file configuration |
| Configs.ConfigLoadReadFirst | src/utils/configs.rs:118-120 | a failed read fails with "failed to load configurations" whatever the extension |
| Configs.ConfigLoadYaml | src/utils/configs.rs:123-126 | ".yaml" and ".yml" paths are decoded as YAML only, and a decoder error is wrapped as "failed to deserialize from yaml" |
| Configs.ConfigLoadJson | src/utils/configs.rs:127-130 | ".json" paths are decoded as JSON only, and a decoder error is wrapped as "failed to deserialize from json" |
| Configs.ConfigLoadUnsupported | src/utils/configs.rs:131-134 | any other path gives "Unsupported configuration file format." without decoding |
| Startup.DurationNew | src/lib.rs:170 | `Duration::new` panics exactly when the carry overflows the seconds; otherwise nanos are below a second and the total nanoseconds are kept |
| Startup.I64AsU64 | src/lib.rs:170 | `as u64` keeps the value modulo 2^64, and non-negative values unchanged |
| Startup.I32AsU32 | src/lib.rs:170 | `as u32` keeps the value modulo 2^32, and non-negative values unchanged |
| Startup.ProstToStdDurationValue | src/lib.rs:166-178 | no interval is one second; a normalised non-negative interval is kept; any interval that converts keeps its total nanoseconds, read as unsigned |
| Startup.ProstToStdDuration | src/lib.rs:166-178 | no interval gives one second, and every converted interval has fewer than 10^9 nanoseconds |
| Startup.ProstToStdDurationCarries | src/lib.rs:167-171 | nanoseconds of a second or more carry into the seconds |
| Startup.ProstToStdDurationNegative | src/lib.rs:167-171 | negative fields are reinterpreted as large unsigned ones rather than rejected, and can panic with an overflow |
| Startup.StartUsesGivenConfig | src/lib.rs:115-116 | given configurations are used as they are and the file is never read |
| Startup.StartLoadsDefaultFile | src/lib.rs:117-126 | without configurations "configs.yaml" is decoded as YAML, and a failed load exits with status 1 |
| Startup.Start | src/lib.rs:106-163 | the process exits exactly when no configurations were given and loading "configs.yaml" fails, and then with status 1 |
| Startup.DispatchCases | src/lib.rs:134-160 | SingleProcess, or an unknown discriminant, serves single-process; Scheduler needs a data store of type 0 to serve distributed and fails or panics otherwise; Worker fails as "Unimplemented node type WORKER" |
| Startup.Dispatch | src/lib.rs:134-160 | only a scheduler whose data store is of type 0 and opens is served distributed, on that store's host; exactly the SingleProcess reading serves single-process; the only panic is a scheduler's "Unsupported data store type" |
| Startup.DispatchNeverFailsUnwrap | src/lib.rs:154-159 | the unwrap of the worker node type never panics |
| Startup.DefaultProcessOptions | src/lib.rs:224-231 | the default options are named "scheduler" and have a fresh empty registry |
| Startup.StartOptions | src/lib.rs:129-132 | `start` uses the caller's registry under the default name |
| RedisStore.CleanUrl | src/data/redis_store.rs:22 | the cleaned URL has no double quote and is no longer than the original |
| RedisStore.CleanUrlKeepsPlainUrl | src/data/redis_store.rs:22 | a URL without quotes is used unchanged |
| RedisStore.CleanUrlIdempotent | src/data/redis_store.rs:22 | cleaning twice is cleaning once |
| RedisStore.CleanUrlConcat | src/data/redis_store.rs:22 | cleaning works piece by piece over a concatenation |
| RedisStore.QuotedUrl | src/data/redis_store.rs:22 | a quoted URL loses just its surrounding quotes |
| RedisStore.Open | src/data/redis_store.rs:21-31 | opening succeeds exactly when the client and the connection to the cleaned URL do, to that host; every failure is a data layer error |
| RedisStore.OpenUsesCleanUrl | src/data/redis_store.rs:21-31 | the client and the connection only see the cleaned URL, opening succeeds iff both do, and every failure is a data layer error |
| RedisStore.TaskKeyInjective | src/data/redis_store.rs:49 | different task ids never share a key |
| RedisStore.TaskKey | src/data/redis_store.rs:49 | the key is "task:" followed by the id |
| RedisStore.ExecutionEntryChecks | src/data/redis_store.rs:39-53 | the task is checked before its payload, each with its own error; a valid request is keyed "task:" and its id, with type URL and bytes unchanged |
| RedisStore.ExecutionEntry | src/data/redis_store.rs:39-53 | there is an entry exactly when the request has a task with a payload, keyed by the task key of its id and holding the payload; every failure is a data layer error |
| RedisStore.HSetChangesOneField | src/data/redis_store.rs:55 | a write sets one field of one hash and nothing else |
| RedisStore.HSet | src/data/redis_store.rs:55 | the hash keys gain just the key written, whose field then holds the value, and an existing hash gains just that field |
| RedisStore.RedisDataStore.constructor | src/data/redis_store.rs:30 | the store holds the given connection and database |
| RedisStore.RedisDataStore.AddTaskExecution | src/data/redis_store.rs:36-60 | an invalid request or a refused write returns its error and writes nothing; otherwise field "execution" of the task's key holds the payload |
| RedisStore.NewRedisDataStore | src/data/redis_store.rs:21-31 | a failed open returns its error; otherwise the store is connected to the cleaned host |
| Client.AddTasksInOrder | src/client/mod.rs:93-96 | tasks are appended in the order added, after the existing ones, and nothing else changes |
| Client.GrpcWorkerBuilder.WithId | src/client/mod.rs:88-91 | sets the worker id and leaves the tasks and the cookie as they were |
| Client.GrpcWorkerBuilder.AddTask | src/client/mod.rs:93-96 | appends the task after the existing ones and changes nothing else |
| Client.GrpcWorkerBuilder.Build | src/client/mod.rs:98-110 | the registration carries the tasks as added, and the id and cookie set, or else "SomeWorkerId" and "SomeSecert" |
| Client.NewWorkerBuilder | src/client/mod.rs:80-86 | a new builder, built as it is, registers as "SomeWorkerId" with no tasks and cookie "SomeSecert" |
| Client.DefaultGrpcWorker | src/client/mod.rs:65-71 | the default worker registers as "SomeWorkerId" with no tasks and cookie "SomeSecert" |
| Client.BuilderDefaults | src/client/mod.rs:65-110 | the default worker registers as "SomeWorkerId" with no tasks and cookie "SomeSecert"; `with_id` only replaces the id; built workers register the tasks as added |
| Client.ClientSessionShape | src/client/mod.rs:120-163 | the first message sent is the registration, and every later one is a Completion in state Success |
| Client.ClientStep | src/client/mod.rs:151-178 | one item appends at most one message and removes none; an item that ends the call sends nothing; a stream error ends the call with that status and nothing else changes |
| Client.ClientSession | src/client/mod.rs:120-178 | the registration is the first message, and at most one more message is sent per item from the scheduler |
| Client.EveryAssignmentCompleted | src/client/mod.rs:155-163 | each assignment is answered by one Completion with that task's id, in order, and the call keeps reading |
| Client.ClientStopsWhenDone | src/client/mod.rs:151-180 | once an error or a panic has ended the call, nothing more is read |
| Client.Communicate | src/client/mod.rs:115-180 | what is sent and how the call ends are those of `ClientSession` over the scheduler's stream |
| Utils.GetAsciiLogo | src/utils/mod.rs:36-46 | the logo is the fixed 199-character text, starting with a newline and ending with three spaces |
| Utils.PadRight | src/utils/mod.rs:64 | `{:<16}` left-aligns, pads with spaces to at least the width, and never cuts |
| Utils.EntryLineLayout | src/utils/mod.rs:63-65 | a key of at most 16 characters fills exactly 16 columns, the value follows, then one newline |
| Utils.MetadataFraming | src/utils/mod.rs:57-69 | the banner opens with 60 '=' and a newline and ends with 60 '=' and no newline |
| Utils.MetadataOrder | src/utils/mod.rs:49-55 | the entry lines come in the order Application, Version, Authors, Description, Github |
| Utils.KeysPadded | src/utils/mod.rs:49-65 | each of the five keys is padded to 16 columns with spaces |
| Utils.GetProtoTMetadata | src/utils/mod.rs:48-70 | the text built push by push is the banner of the five entries |

## Left out

- Tokio tasks, mutexes, mpsc mechanics and signals are not modelled: this is concurrency. The session loop, the heartbeat tick and `distribute_task` each run as one sequential call on the shared state. Also left out: the spawned cancel listener and `cancel_client`, the graceful-timeout timer, shutdown handling and tonic server binding.
- The heartbeat loop's sleep and repetition are not modelled: one tick is. The arrival time of a stream item is a parameter instead of `Instant::now()`.
- A send whose receiver is gone is only logged by the source, so in the model every send records its item.
- The thread pool's concurrency is not modelled: `WorkerPool::join`, the `Drop` implementations, respawn when a sentinel is dropped while active, and thread spawning. `initialize_thread_pool` is covered only by what `Build` states about the shared data; the worker thread it spawns is left out.
- Worker.ProcessTask: drains the jobs already in the channel; jobs sent while it runs are not modelled. It has no timeout, and running a job is recorded rather than calling the executor. So the panic of the job closure built by both admin services' `execute` is not modelled: it calls `get_executor(&task_name).unwrap()` (src/server/mod.rs:447 and :538), which panics when no executor is registered under the task's id, and the panicking thread's active sentinel then spawns a replacement worker.
- The stats-feature `process_task`, `collect_stats` and src/server/metrics.rs are not modelled. They are Prometheus calls and floating-point utilisation.
- File reading, serde decoding, the Redis client and connection, and `num_cpus::get` are parameters of the model. The three DataStore methods left as `todo!()` have no behaviour to model.
- RedisStore.RedisDataStore.AddTaskExecution: stores the protobuf `Any` value itself, not its `to_string` text, because that rendering is protobuf library code.
- Errors are values; the `{:?}` text of a library error is a string parameter.
- Logging (src/utils/logger.rs), `println!` output and `current_timestamp` (which reads the clock) are not modelled.
- src/core/job.rs is not modelled separately: a job is a value with its id, its request and a closure named by the task it runs. src/utils/shared.rs is only a type alias. src/data/data_store.rs is a trait with no bodies.
- The demo programs, the generated Python stubs, the test script, build.rs and src/main.rs are not part of this model.
- Two call sites in the repository do not match the definitions they call:
  - src/lib.rs:202-209 passes six arguments to a four-parameter function;
  - src/server/mod.rs:216 calls a two-parameter constructor with one argument.

  Each function is modelled as written at its definition. The servers `start` dispatches to are named by a `StartPath` value and not run.
- The execution id and the data store are modelled with protobuf defaults:
  - the `AssignTaskRequest` built by the distributed `execute` (src/server/mod.rs:429) sets no execution id, so it is the default "";
  - the `Config` built by `config_load` sets no data store, so it is None.
- Client.Communicate: models only the stream after the connection is made. A failed connection, a failed internal send and the two-second sleep per task are not modelled. The Completions travel through an internal channel that preserves their order.
- A heartbeat before registration is modelled as the end of the session's task. The model assumes the Debug-level logger of src/utils/logger.rs:44 is installed. Then the `debug!` at src/server/mod.rs:92 evaluates its arguments and unwraps the missing id before the guard at :93, and that unwrap panics. `start` ignores the result of `logger::init()` (src/lib.rs:111), and the init fails when, for example, log/output.log cannot be created (src/utils/logger.rs:26-31). With no logger installed the arguments are never evaluated, so such a heartbeat is ignored and the session goes on. That case is not modelled.
