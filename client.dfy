/** The remote worker client (src/client/mod.rs): the builder of its registration
    details and the worker side of a `communicate` stream. */
module Client {
  import opened Common
  import opened ProtoCore
  import opened Messages

  const DEFAULT_WORKER_ID := "SomeWorkerId"
  const DEFAULT_COOKIE := "SomeSecert"

  datatype GrpcWorker = GrpcWorker(registrationDetails: RegistrationRequest)

  datatype GrpcWorkerBuilder = GrpcWorkerBuilder(workerId: Option<string>, tasks: seq<string>, cookie: Option<string>)
  {
    /** Sets the worker id and leaves the tasks and the cookie as they were. */
    function WithId(id: string): (r: GrpcWorkerBuilder)
      ensures r.workerId == Some(id) && r.(workerId := workerId) == this
    {
      this.(workerId := Some(id))
    }

    /** Appends one task after the ones already added; nothing else changes. */
    function AddTask(taskName: string): (r: GrpcWorkerBuilder)
      ensures r.tasks == tasks + [taskName] && r.(tasks := tasks) == this
    {
      this.(tasks := tasks + [taskName])
    }

    /** The registration carries the tasks as added, and the id and cookie that were
        set, falling back to "SomeWorkerId" and "SomeSecert". */
    function Build(): (r: GrpcWorker)
      ensures r.registrationDetails.supportedTasks == tasks
      ensures r.registrationDetails.workerId == if workerId.Some? then workerId.value else "SomeWorkerId"
      ensures r.registrationDetails.magicCookie == if cookie.Some? then cookie.value else "SomeSecert"
    {
      GrpcWorker(RegistrationRequest(
        match workerId case Some(id) => id case None => DEFAULT_WORKER_ID,
        tasks,
        match cookie case Some(c) => c case None => DEFAULT_COOKIE))
    }
  }

  /** `GrpcWorkerBuilder::new`: built as it is, it registers as "SomeWorkerId" with
      no tasks and the cookie "SomeSecert". */
  function NewWorkerBuilder(): (r: GrpcWorkerBuilder)
    ensures r.Build() == GrpcWorker(RegistrationRequest("SomeWorkerId", [], "SomeSecert"))
  {
    GrpcWorkerBuilder(Some(DEFAULT_WORKER_ID), [], None)
  }

  /** `GrpcWorker::default`: the worker a new builder builds. */
  function DefaultGrpcWorker(): (r: GrpcWorker)
    ensures r.registrationDetails == RegistrationRequest("SomeWorkerId", [], "SomeSecert")
  {
    NewWorkerBuilder().Build()
  }

  /** Adding each of `names` in turn. */
  function AddTasks(b: GrpcWorkerBuilder, names: seq<string>): GrpcWorkerBuilder
    decreases |names|
  {
    if names == [] then b else AddTasks(b.AddTask(names[0]), names[1..])
  }

  /** Tasks are kept in the order they were added, after the ones already there;
      nothing else changes. */
  lemma {:induction false} AddTasksInOrder(b: GrpcWorkerBuilder, names: seq<string>)
    ensures AddTasks(b, names) == b.(tasks := b.tasks + names)
    decreases |names|
  {
    if names != [] {
      AddTasksInOrder(b.AddTask(names[0]), names[1..]);
      assert b.tasks + [names[0]] + names[1..] == b.tasks + names;
    }
  }

  /** The defaults: a new builder registers as "SomeWorkerId" with no tasks and the
      cookie "SomeSecert"; `with_id` only replaces the id; a built worker registers
      the tasks as added. */
  lemma BuilderDefaults(b: GrpcWorkerBuilder, id: string, names: seq<string>)
    ensures DefaultGrpcWorker() == GrpcWorker(RegistrationRequest("SomeWorkerId", [], "SomeSecert"))
    ensures b.WithId(id).Build().registrationDetails.workerId == id
    ensures b.WithId(id).tasks == b.tasks && b.WithId(id).cookie == b.cookie
    ensures AddTasks(NewWorkerBuilder(), names).Build() == GrpcWorker(RegistrationRequest("SomeWorkerId", names, "SomeSecert"))
  {
    AddTasksInOrder(NewWorkerBuilder(), names);
  }

  /** What the worker has sent on its stream and how `communicate` ended so far
      (`Returned(Ok(()))` while it is still reading). */
  datatype ClientState = ClientState(sent: seq<WorkerMessage>, result: Outcome<Result<(), Status>>)

  const STILL_READING: Outcome<Result<(), Status>> := Returned(Ok(()))

  /** The worker's answer to one item from the scheduler: a Completion in state
      Success for an assigned task, an error that ends the call, and nothing for
      anything else. The assigned task is unwrapped, which panics when it is absent. */
  function ClientStep(s: ClientState, item: Outbound): (r: ClientState)
    ensures s.sent <= r.sent && |r.sent| <= |s.sent| + 1
    ensures r.result != s.result ==> r.sent == s.sent
    ensures item.Failure? ==> r == s.(result := Returned(Err(item.status)))
  {
    match item
    case Failure(status) => s.(result := Returned(Err(status)))
    case Message(m) =>
      match m.kind
      case Some(AssignTask(t, _)) =>
        if t.None? then s.(result := Panicked("called `Option::unwrap()` on a `None` value"))
        else s.(sent := s.sent + [WorkerMessage(Some(Completion(TaskCompletion(t.value.id, TaskStateValue(Success)))))])
      case _ => s
  }

  /** The worker side of a stream on which the scheduler sent `inbound`: the
      registration goes first, then the answers, until an error or a panic. */
  function ClientSession(details: RegistrationRequest, inbound: seq<Outbound>): (r: ClientState)
    ensures 1 <= |r.sent| <= |inbound| + 1
    ensures r.sent[0] == WorkerMessage(Some(Registration(details)))
    decreases |inbound|
  {
    if inbound == [] then ClientState([WorkerMessage(Some(Registration(details)))], STILL_READING)
    else
      var s := ClientSession(details, inbound[..|inbound| - 1]);
      if s.result == STILL_READING then ClientStep(s, inbound[|inbound| - 1]) else s
  }

  /** The first message is the registration; every later one is a Completion in
      state Success. */
  lemma {:induction false} ClientSessionShape(details: RegistrationRequest, inbound: seq<Outbound>)
    ensures |ClientSession(details, inbound).sent| >= 1
    ensures ClientSession(details, inbound).sent[0] == WorkerMessage(Some(Registration(details)))
    ensures forall i :: 1 <= i < |ClientSession(details, inbound).sent| ==>
      var m := ClientSession(details, inbound).sent[i];
      m.kind.Some? && m.kind.value.Completion? && TaskStateFromI32(m.kind.value.completion.state) == Some(Success)
    decreases |inbound|
  {
    if inbound != [] {
      ClientSessionShape(details, inbound[..|inbound| - 1]);
    }
  }

  /** The scheduler assigning the tasks `ids` in turn. */
  function Assignments(ids: seq<string>): (r: seq<Outbound>)
    ensures |r| == |ids|
    decreases |ids|
  {
    if ids == [] then [] else Assignments(ids[..|ids| - 1]) + [Message(SchedulerMessage(Some(AssignTask(Some(Task(ids[|ids| - 1], None)), ""))))]
  }

  /** Each assignment is answered by one Completion with that task's id, in order. */
  lemma {:induction false} EveryAssignmentCompleted(details: RegistrationRequest, ids: seq<string>)
    ensures ClientSession(details, Assignments(ids)).result == STILL_READING
    ensures |ClientSession(details, Assignments(ids)).sent| == |ids| + 1
    ensures forall i :: 0 <= i < |ids| ==>
      ClientSession(details, Assignments(ids)).sent[i + 1] == WorkerMessage(Some(Completion(TaskCompletion(ids[i], 1))))
    decreases |ids|
  {
    if ids != [] {
      var front := ids[..|ids| - 1];
      EveryAssignmentCompleted(details, front);
      assert Assignments(ids)[..|ids| - 1] == Assignments(front);
    }
  }

  /** `communicate` after the connection is made: yield the registration, then read
      the scheduler's stream and answer it. */
  method Communicate(worker: GrpcWorker, inbound: seq<Outbound>) returns (sent: seq<WorkerMessage>, result: Outcome<Result<(), Status>>)
    ensures ClientState(sent, result) == ClientSession(worker.registrationDetails, inbound)
  {
    sent := [WorkerMessage(Some(Registration(worker.registrationDetails)))];
    result := STILL_READING;
    var i := 0;
    while i < |inbound| && result == STILL_READING
      invariant 0 <= i <= |inbound|
      invariant ClientState(sent, result) == ClientSession(worker.registrationDetails, inbound[..i])
    {
      match inbound[i] {
        case Failure(status) =>
          result := Returned(Err(status));
        case Message(m) =>
          match m.kind {
            case Some(AssignTask(t, _)) =>
              if t.None? {
                result := Panicked("called `Option::unwrap()` on a `None` value");
              } else {
                sent := sent + [WorkerMessage(Some(Completion(TaskCompletion(t.value.id, TaskStateValue(Success)))))];
              }
            case _ =>
          }
      }
      assert inbound[..i + 1][..i] == inbound[..i];
      i := i + 1;
    }
    if i < |inbound| {
      ClientStopsWhenDone(worker.registrationDetails, inbound, i);
    } else {
      assert inbound[..i] == inbound;
    }
  }

  /** Once an error or a panic has ended the call, nothing more is read. */
  lemma {:induction false} ClientStopsWhenDone(details: RegistrationRequest, inbound: seq<Outbound>, i: nat)
    requires i <= |inbound|
    requires ClientSession(details, inbound[..i]).result != STILL_READING
    ensures ClientSession(details, inbound) == ClientSession(details, inbound[..i])
    decreases |inbound|
  {
    if i < |inbound| {
      var front := inbound[..|inbound| - 1];
      assert front[..i] == inbound[..i];
      ClientStopsWhenDone(details, front, i);
    } else {
      assert inbound[..i] == inbound;
    }
  }
}
