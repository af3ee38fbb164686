/** The scheduler's services (src/server/mod.rs): the worker-session handler
    `communicate`, one tick of the heartbeat broadcast and the admin services'
    `execute` and `schedule`.

    A session is the task `communicate` spawns for one worker stream. Its inbound
    stream is a sequence of items, each paired with the instant it arrived; its
    outbound sender and cancel sender are the `ChannelId` it was opened with. */
module Server {
  import opened Common
  import opened ProtoCore
  import opened Messages
  import opened GrpcExecutor
  import opened WorkerPool
  import opened Errors

  const UNKNOWN_MESSAGE: Outbound := Failure(Status(Aborted, "Unknown worker message or missing data"))
  const CONNECTED: Outbound := Message(SchedulerMessage(Some(Ack("worker connected", Ready))))
  const HEARTBEAT: Outbound := Message(SchedulerMessage(Some(Heartbeat)))

  /** One inbound stream item and the instant it was handled. */
  datatype Arrival = Arrival(item: Inbound, at: Instant)

  /** A session's view: the shared state, the id it registered, and whether its task
      is still running. */
  datatype Session = Session(hub: Hub, registered: Option<string>, alive: bool)

  /** The id a session holds, if any, is stored with the session's own channel. */
  predicate HoldsOwnEntry(s: Session, ch: ChannelId)
  {
    s.registered.Some? ==> s.registered.value in s.hub.channels && s.hub.channels[s.registered.value] == ch
  }

  /** Handling one inbound item on the session opened with channel `ch`. A heartbeat
      before any registration panics the session's task: with the Debug-level logger
      `start` installs, the debug log unwraps the absent id before the id is
      checked. Only that case ends the session, no case
      sends a cancel signal, and a session whose id maps to its channel keeps it so. */
  function Step(s: Session, ch: ChannelId, a: Arrival): (r: Session)
    ensures r.hub.cancels == s.hub.cancels
    ensures r.alive != s.alive <==> a.item == Received(WorkerMessage(Some(WorkerHeartbeat))) && s.registered.None? && s.alive
    ensures HoldsOwnEntry(s, ch) ==> HoldsOwnEntry(r, ch)
  {
    match a.item
    case Received(m) =>
      (match m.kind
       case Some(WorkerHeartbeat) =>
         (match s.registered
          case None => s.(alive := false)
          case Some(id) => s.(hub := s.hub.(heartbeats := s.hub.heartbeats[id := a.at])))
       case Some(Completion(_)) => s
       case Some(Registration(req)) =>
         s.(hub := s.hub.(channels := s.hub.channels[req.workerId := ch], queues := Send(s.hub.queues, ch, CONNECTED)),
            registered := Some(req.workerId))
       case None => s.(hub := s.hub.(queues := Send(s.hub.queues, ch, UNKNOWN_MESSAGE))))
    case StreamError(_) =>
      match s.registered
      case Some(id) => s.(hub := s.hub.(channels := s.hub.channels - {id}), registered := None)
      case None => s
  }

  /** A session that starts on shared state `h` and handles `items` in order, stopping
      for good if its task panics. */
  function Run(h: Hub, ch: ChannelId, items: seq<Arrival>): (r: Session)
    ensures HoldsOwnEntry(r, ch)
    ensures r.hub.cancels == h.cancels
    decreases |items|
  {
    if items == [] then Session(h, None, true)
    else
      var s := Run(h, ch, items[..|items| - 1]);
      if s.alive then Step(s, ch, items[|items| - 1]) else s
  }

  /** What a session sends in reply to one item. */
  function Reply(a: Arrival): seq<Outbound>
  {
    match a.item
    case Received(m) =>
      (match m.kind
       case None => [UNKNOWN_MESSAGE]
       case Some(Registration(_)) => [CONNECTED]
       case Some(_) => [])
    case StreamError(_) => []
  }

  /** The replies to `items`, in order. */
  function Replies(items: seq<Arrival>): seq<Outbound>
    decreases |items|
  {
    if items == [] then [] else Replies(items[..|items| - 1]) + Reply(items[|items| - 1])
  }

  /** Registration stores the session's channel under the worker id, replacing any
      entry the id had, records the id, and replies with one Ack "worker connected"
      whose status is Ready; the heartbeat map is untouched. */
  lemma StepRegistration(s: Session, ch: ChannelId, req: RegistrationRequest, at: Instant)
    ensures var t := Step(s, ch, Arrival(Received(WorkerMessage(Some(Registration(req)))), at));
      && t.hub.channels == s.hub.channels[req.workerId := ch]
      && t.hub.channels[req.workerId] == ch
      && t.registered == Some(req.workerId)
      && t.alive == s.alive
      && QueueOf(t.hub.queues, ch) == QueueOf(s.hub.queues, ch) + [Message(SchedulerMessage(Some(Ack("worker connected", Ready))))]
      && t.hub.heartbeats == s.hub.heartbeats && t.hub.cancels == s.hub.cancels
  {
  }

  /** A heartbeat on a registered session records its arrival under the registered
      id and sends nothing; before registration it ends the session and changes
      nothing shared. */
  lemma StepHeartbeat(s: Session, ch: ChannelId, at: Instant)
    ensures var t := Step(s, ch, Arrival(Received(WorkerMessage(Some(WorkerHeartbeat))), at));
      && (s.registered.Some? ==> t == s.(hub := s.hub.(heartbeats := s.hub.heartbeats[s.registered.value := at])))
      && (s.registered.None? ==> t.hub == s.hub && !t.alive)
  {
  }

  /** A completion changes nothing and sends nothing. */
  lemma StepCompletion(s: Session, ch: ChannelId, c: TaskCompletion, at: Instant)
    ensures Step(s, ch, Arrival(Received(WorkerMessage(Some(Completion(c)))), at)) == s
  {
  }

  /** A message with no recognised type sends one aborted error and changes nothing
      else; the session goes on. */
  lemma StepUnknown(s: Session, ch: ChannelId, at: Instant)
    ensures var t := Step(s, ch, Arrival(Received(WorkerMessage(None)), at));
      && t.registered == s.registered && t.alive == s.alive
      && t.hub.channels == s.hub.channels && t.hub.heartbeats == s.hub.heartbeats
      && QueueOf(t.hub.queues, ch) == QueueOf(s.hub.queues, ch) + [Failure(Status(Aborted, "Unknown worker message or missing data"))]
  {
  }

  /** A stream error removes the registered id's entry and forgets the id, so a
      second error removes nothing more. */
  lemma StepStreamError(s: Session, ch: ChannelId, e1: Status, e2: Status, at1: Instant, at2: Instant)
    ensures var t := Step(s, ch, Arrival(StreamError(e1), at1));
      && t.registered == None
      && (s.registered.Some? ==> t == s.(hub := s.hub.(channels := s.hub.channels - {s.registered.value}), registered := None))
      && (s.registered.None? ==> t == s)
      && Step(t, ch, Arrival(StreamError(e2), at2)) == t
  {
  }

  /** Registration is not guarded against a live session holding the same id: when
      session A registers `w`, session B then registers `w` too, and A's stream
      fails, the entry removed is the one B just stored. */
  lemma StaleErrorRemovesNewerEntry(h: Hub, a: ChannelId, b: ChannelId, w: string, e: Status, t0: Instant, t1: Instant, t2: Instant)
    requires a != b
    ensures
      var reg := Arrival(Received(WorkerMessage(Some(Registration(RegistrationRequest(w, [], ""))))), t0);
      var sessionA := Step(Session(h, None, true), a, reg);
      var sessionB := Step(Session(sessionA.hub, None, true), b, reg.(at := t1));
      && sessionB.hub.channels[w] == b
      && var afterError := Step(sessionA.(hub := sessionB.hub), a, Arrival(StreamError(e), t2));
      && w !in afterError.hub.channels
      && sessionB.registered == Some(w)
  {
  }

  /** Once a session's task has panicked, the rest of its stream is never read. */
  lemma {:induction false} RunStopsWhenDead(h: Hub, ch: ChannelId, items: seq<Arrival>, i: nat)
    requires i <= |items|
    requires !Run(h, ch, items[..i]).alive
    ensures Run(h, ch, items) == Run(h, ch, items[..i])
    decreases |items|
  {
    if i < |items| {
      var front := items[..|items| - 1];
      assert front[..i] == items[..i];
      RunStopsWhenDead(h, ch, front, i);
    } else {
      assert items[..i] == items;
    }
  }

  /** One step sends its reply on the session's own channel and nothing on any
      other channel, and sends no cancel signal. */
  lemma StepSends(s: Session, ch: ChannelId, a: Arrival)
    ensures Step(s, ch, a).alive ==> QueueOf(Step(s, ch, a).hub.queues, ch) == QueueOf(s.hub.queues, ch) + Reply(a)
    ensures forall c :: c != ch ==> QueueOf(Step(s, ch, a).hub.queues, c) == QueueOf(s.hub.queues, c)
    ensures Step(s, ch, a).hub.cancels == s.hub.cancels
  {
  }

  /** A session writes only to its own channel, and there exactly its replies in the
      order of the items that caused them: one Ack per registration, one error per
      unrecognised message, nothing else. */
  lemma {:induction false} RunSends(h: Hub, ch: ChannelId, items: seq<Arrival>)
    ensures Run(h, ch, items).alive ==> QueueOf(Run(h, ch, items).hub.queues, ch) == QueueOf(h.queues, ch) + Replies(items)
    ensures forall c :: c != ch ==> QueueOf(Run(h, ch, items).hub.queues, c) == QueueOf(h.queues, c)
    ensures Run(h, ch, items).hub.cancels == h.cancels
    decreases |items|
  {
    if items != [] {
      var front := items[..|items| - 1];
      RunSends(h, ch, front);
      StepSends(Run(h, ch, front), ch, items[|items| - 1]);
    }
  }

  class SchedulerServer {
    const sharedState: GrpcSharedState

    constructor (sharedState: GrpcSharedState)
      ensures this.sharedState == sharedState
    {
      this.sharedState := sharedState;
    }

    /** The body of the task `communicate` spawns for a worker stream opened with
        channel `ch`. It returns the session's registered id and whether the task
        was still running when the stream ended. */
    method Communicate(ch: ChannelId, inbound: seq<Arrival>) returns (registered: Option<string>, alive: bool)
      modifies sharedState`channels, sharedState`heartbeats, sharedState`queues
      ensures Session(sharedState.View(), registered, alive) == Run(old(sharedState.View()), ch, inbound)
    {
      registered := None;
      alive := true;
      var i := 0;
      while i < |inbound| && alive
        invariant 0 <= i <= |inbound|
        invariant Session(sharedState.View(), registered, alive) == Run(old(sharedState.View()), ch, inbound[..i])
      {
        var arrival := inbound[i];
        match arrival.item {
          case Received(message) =>
            var response := SchedulerMessage(None);
            match message.kind {
              case Some(WorkerHeartbeat) =>
                if registered.None? {
                  alive := false;
                } else {
                  sharedState.heartbeats := sharedState.heartbeats[registered.value := arrival.at];
                }
              case Some(Completion(_)) =>
              case Some(Registration(request)) =>
                sharedState.channels := sharedState.channels[request.workerId := ch];
                registered := Some(request.workerId);
                response := SchedulerMessage(Some(Ack("worker connected", Ready)));
              case None =>
                sharedState.queues := Send(sharedState.queues, ch, Failure(Status(Aborted, "Unknown worker message or missing data")));
            }
            if response.kind.Some? {
              sharedState.queues := Send(sharedState.queues, ch, Message(response));
            }
          case StreamError(_) =>
            if registered.Some? {
              sharedState.channels := sharedState.channels - {registered.value};
              registered := None;
            }
        }
        assert inbound[..i + 1][..i] == inbound[..i];
        i := i + 1;
      }
      if i < |inbound| {
        RunStopsWhenDead(old(sharedState.View()), ch, inbound, i);
      } else {
        assert inbound[..i] == inbound;
      }
    }
  }

  /** One more entry visited by the heartbeat loop. */
  lemma TickStep(q0: map<ChannelId, seq<Outbound>>, q: map<ChannelId, seq<Outbound>>, channels: map<string, ChannelId>,
                 order: seq<string>, i: nat, d: ChannelId)
    requires i < |order|
    requires forall j :: 0 <= j < |order| ==> order[j] in channels
    requires QueueOf(q, d) == QueueOf(q0, d) + Repeat(HEARTBEAT, Aliases(order[..i], channels, d))
    ensures QueueOf(Send(q, channels[order[i]], HEARTBEAT), d) == QueueOf(q0, d) + Repeat(HEARTBEAT, Aliases(order[..i + 1], channels, d))
  {
    var n := Aliases(order[..i], channels, d);
    SendAppends(q, channels[order[i]], HEARTBEAT, d);
    AliasesStep(order, channels, i, d);
    if channels[order[i]] == d {
      assert Repeat(HEARTBEAT, n + 1) == Repeat(HEARTBEAT, n) + [HEARTBEAT];
    }
  }

  /** One tick of the heartbeat broadcast: a Heartbeat on the outbound channel of
      every entry of the channel map, visited in `order`. */
  method HeartbeatTick(state: GrpcSharedState, order: seq<string>)
    requires IsKeyOrder(order, state.channels)
    modifies state`queues
    ensures forall c :: QueueOf(state.queues, c) == QueueOf(old(state.queues), c) + Repeat(HEARTBEAT, Aliases(order, state.channels, c))
  {
    var i := 0;
    while i < |order|
      invariant 0 <= i <= |order|
      invariant forall c :: QueueOf(state.queues, c) == QueueOf(old(state.queues), c) + Repeat(HEARTBEAT, Aliases(order[..i], state.channels, c))
    {
      var c := state.channels[order[i]];
      ghost var before := state.queues;
      state.queues := Send(state.queues, c, Message(SchedulerMessage(Some(Heartbeat))));
      forall d
        ensures QueueOf(state.queues, d) == QueueOf(old(state.queues), d) + Repeat(HEARTBEAT, Aliases(order[..i + 1], state.channels, d))
      {
        TickStep(old(state.queues), before, state.channels, order, i, d);
      }
      i := i + 1;
    }
    assert order[..|order|] == order;
  }

  /** Both admin services' `schedule`: scheduling is not supported, whatever the
      request. */
  function Schedule(request: ScheduleRequest): (r: Result<ScheduleResponse, Status>)
    ensures r.Err? && r.error.code == Unimplemented
  {
    Err(Status(Unimplemented, "request contains invalid arguments"))
  }

  /** The message the distributed `execute` dispatches: the request's task, with the
      execution id left at its default. */
  function AssignFor(request: ExecuteRequest): SchedulerMessage
  {
    SchedulerMessage(Some(AssignTask(request.task, "")))
  }

  /** The answer the local path gives for the pool's result. */
  function PoolReply(r: Result<(), SchedulerError>): Result<ExecuteResponse, Status>
  {
    if r.Ok? then Ok(DEFAULT_EXECUTE_RESPONSE) else Err(Status(FailedPrecondition, "request contains invalid arguments"))
  }

  const NO_TASK_PANIC := "called `Option::unwrap()` on a `None` value"

  /** The local path both admin services share: submit a job that runs the executor
      registered under the task's id, and turn the pool's error into a failed
      precondition. */
  method ExecuteOnPool(pool: WorkerPool, request: ExecuteRequest) returns (r: Outcome<Result<ExecuteResponse, Status>>)
    modifies pool.shared`jobCounter, pool.shared`queuedCount, pool.shared`queue
    ensures request.task.None? ==> r == Panicked(NO_TASK_PANIC) && unchanged(pool.shared)
    ensures request.task.Some? ==>
      var s := Submit(old(pool.shared.jobCounter), pool.jobs, RunExecutor(request.task.value.id), request);
      && r == Returned(PoolReply(s.result))
      && pool.shared.queue == old(pool.shared.queue) + s.sent
      && pool.shared.jobCounter == WrapInc(old(pool.shared.jobCounter))
      && pool.shared.queuedCount == WrapInc(old(pool.shared.queuedCount))
  {
    if request.task.None? {
      return Panicked(NO_TASK_PANIC);
    }
    var taskName := request.task.value.id;
    var result := pool.Execute(RunExecutor(taskName), request);
    if result.Ok? {
      r := Returned(Ok(DEFAULT_EXECUTE_RESPONSE));
    } else {
      r := Returned(Err(Status(FailedPrecondition, "request contains invalid arguments")));
    }
  }

  /** A request that reaches the pool always carries a task, so the pool's own
      "task execution must include valid data" error cannot happen on this path, and
      with a live job channel the call succeeds. */
  lemma PoolPathSucceeds(jobCount: usize, request: ExecuteRequest)
    requires request.task.Some?
    ensures PoolReply(Submit(jobCount, true, RunExecutor(request.task.value.id), request).result) == Ok(DEFAULT_EXECUTE_RESPONSE)
    ensures PoolReply(Submit(jobCount, false, RunExecutor(request.task.value.id), request).result).Err?
  {
  }

  /** The scheduler's admin service: tasks go to remote workers when there is gRPC
      state, and to the local pool otherwise. */
  class SchedulerAdminService {
    const pool: WorkerPool
    const grpc: Option<GrpcSharedState>

    constructor (pool: WorkerPool, grpc: Option<GrpcSharedState>)
      ensures this.pool == pool && this.grpc == grpc
    {
      this.pool := pool;
      this.grpc := grpc;
    }

    method Execute(request: ExecuteRequest, order: seq<string>) returns (r: Outcome<Result<ExecuteResponse, Status>>)
      requires grpc.Some? ==> IsKeyOrder(order, grpc.value.channels)
      modifies pool.shared`jobCounter, pool.shared`queuedCount, pool.shared`queue
      modifies if grpc.Some? then {grpc.value, grpc.value.balancer} else {}
      ensures request.task.None? ==> r == Panicked(NO_TASK_PANIC) && unchanged(pool.shared)
      ensures request.task.None? && grpc.Some? ==> unchanged(grpc.value, grpc.value.balancer)
      ensures request.task.Some? && grpc.Some? ==>
        && Dispatch(grpc.value.View(), grpc.value.balancer.currentWorker, r)
           == Distribute(old(grpc.value.View()), old(grpc.value.balancer.currentWorker), order, AssignFor(request))
        && unchanged(pool.shared)
      ensures request.task.Some? && grpc.None? ==>
        var s := Submit(old(pool.shared.jobCounter), pool.jobs, RunExecutor(request.task.value.id), request);
        && r == Returned(PoolReply(s.result))
        && pool.shared.queue == old(pool.shared.queue) + s.sent
        && pool.shared.jobCounter == WrapInc(old(pool.shared.jobCounter))
        && pool.shared.queuedCount == WrapInc(old(pool.shared.queuedCount))
    {
      if request.task.None? {
        return Panicked(NO_TASK_PANIC);
      }
      match grpc
      case Some(state) =>
        r := state.DistributeTask(AssignFor(request), order);
      case None =>
        r := ExecuteOnPool(pool, request);
    }
  }

  /** The single-process admin service: every task goes to the local pool. */
  class SchedulerSingleProcessAdminService {
    const pool: WorkerPool

    constructor (pool: WorkerPool)
      ensures this.pool == pool
    {
      this.pool := pool;
    }

    method Execute(request: ExecuteRequest) returns (r: Outcome<Result<ExecuteResponse, Status>>)
      modifies pool.shared`jobCounter, pool.shared`queuedCount, pool.shared`queue
      ensures request.task.None? ==> r == Panicked(NO_TASK_PANIC) && unchanged(pool.shared)
      ensures request.task.Some? ==>
        var s := Submit(old(pool.shared.jobCounter), pool.jobs, RunExecutor(request.task.value.id), request);
        && r == Returned(PoolReply(s.result))
        && pool.shared.queue == old(pool.shared.queue) + s.sent
        && pool.shared.jobCounter == WrapInc(old(pool.shared.jobCounter))
        && pool.shared.queuedCount == WrapInc(old(pool.shared.queuedCount))
    {
      r := ExecuteOnPool(pool, request);
    }
  }

  /** A distributed `execute` of a request with a task assigns that very task to the
      round-robin pick and answers with the task's id, an empty execution id and the
      Pending state; with no worker registered it fails with "No available workers". */
  lemma DistributedExecuteAnswers(h: Hub, cursor: nat, order: seq<string>, request: ExecuteRequest)
    requires IsKeyOrder(order, h.channels)
    requires request.task.Some?
    ensures order != [] ==>
      Distribute(h, cursor, order, AssignFor(request)).reply
        == Returned(Ok(ExecuteResponse("", request.task.value.id, TaskStateValue(Pending))))
    ensures order == [] ==>
      Distribute(h, cursor, order, AssignFor(request)).reply == Returned(Err(Status(Aborted, "No available workers")))
  {
    if order != [] {
      assert order[0] in h.channels;
      DistributeSendsOne(h, cursor, order, AssignFor(request));
      RespondIds(AssignFor(request));
    }
  }
}
