/** The state the distributed scheduler shares between worker sessions
    (src/core/grpc_executor.rs): the worker-channel map, the heartbeat map and the
    balancer, and the dispatch of one task to one worker.

    Each worker session's outbound sender and cancel sender are named by a
    `ChannelId`. What has been sent on them is recorded here: `queues` holds the
    items sent on each outbound channel, oldest first, and `cancels` the number of
    cancel signals sent. A send whose receiver is gone is only logged by the source,
    so a send always records its item. */
module GrpcExecutor {
  import opened Common
  import opened ProtoCore
  import opened Messages
  import opened LoadBalancer

  type ChannelId = nat

  /** A point in time, as `Instant::now()` reads it. */
  type Instant = int

  /** The shared maps and what has been sent on each channel. */
  datatype Hub = Hub(
    channels: map<string, ChannelId>,
    heartbeats: map<string, Instant>,
    queues: map<ChannelId, seq<Outbound>>,
    cancels: map<ChannelId, nat>)

  /** The items sent so far on channel `c`. */
  function QueueOf(queues: map<ChannelId, seq<Outbound>>, c: ChannelId): seq<Outbound>
  {
    if c in queues then queues[c] else []
  }

  /** Sending `item` on channel `c`. */
  function Send(queues: map<ChannelId, seq<Outbound>>, c: ChannelId, item: Outbound): map<ChannelId, seq<Outbound>>
  {
    queues[c := QueueOf(queues, c) + [item]]
  }

  /** Sending appends to the channel sent on and to no other. */
  lemma SendAppends(queues: map<ChannelId, seq<Outbound>>, c: ChannelId, item: Outbound, d: ChannelId)
    ensures QueueOf(Send(queues, c, item), c) == QueueOf(queues, c) + [item]
    ensures d != c ==> QueueOf(Send(queues, c, item), d) == QueueOf(queues, d)
  {
  }

  /** The cancel signals sent so far on channel `c`. */
  function CancelsOf(cancels: map<ChannelId, nat>, c: ChannelId): nat
  {
    if c in cancels then cancels[c] else 0
  }

  /** How many of the workers in `order` are registered on channel `c`. */
  function Aliases(order: seq<string>, channels: map<string, ChannelId>, c: ChannelId): nat
    requires forall i :: 0 <= i < |order| ==> order[i] in channels
    decreases |order|
  {
    if order == [] then 0
    else Aliases(order[..|order| - 1], channels, c) + (if channels[order[|order| - 1]] == c then 1 else 0)
  }

  /** Visiting one more entry of the map adds that entry's channel. */
  lemma AliasesStep(order: seq<string>, channels: map<string, ChannelId>, i: nat, c: ChannelId)
    requires i < |order|
    requires forall j :: 0 <= j < |order| ==> order[j] in channels
    ensures Aliases(order[..i + 1], channels, c) == Aliases(order[..i], channels, c) + (if channels[order[i]] == c then 1 else 0)
  {
    assert order[..i + 1][..i] == order[..i];
  }

  /** A channel no listed worker is registered on counts zero; a channel on which
      exactly one worker is registered counts one. */
  lemma {:induction false} AliasesCount(order: seq<string>, channels: map<string, ChannelId>, w: string)
    requires forall i :: 0 <= i < |order| ==> order[i] in channels
    requires forall i, j :: 0 <= i < j < |order| ==> order[i] != order[j]
    requires w in channels
    requires forall v :: v in channels && channels[v] == channels[w] ==> v == w
    ensures Aliases(order, channels, channels[w]) == if w in order then 1 else 0
    decreases |order|
  {
    if order != [] {
      var front := order[..|order| - 1];
      AliasesCount(front, channels, w);
      if order[|order| - 1] == w {
        forall i | 0 <= i < |front|
          ensures front[i] != w
        {
          assert front[i] == order[i];
        }
      } else {
        assert w in order <==> w in front by {
          assert order == front + [order[|order| - 1]];
        }
      }
    }
  }

  lemma {:induction false} AliasesNone(order: seq<string>, channels: map<string, ChannelId>, c: ChannelId)
    requires forall i :: 0 <= i < |order| ==> order[i] in channels
    requires forall v :: v in channels ==> channels[v] != c
    ensures Aliases(order, channels, c) == 0
    decreases |order|
  {
    if order != [] {
      AliasesNone(order[..|order| - 1], channels, c);
    }
  }

  /** `GrpcSharedState::new`'s queue size: 100 unless one is given. */
  function QueueSize(maxTaskQueue: Option<usize>): (r: usize)
    ensures maxTaskQueue.None? ==> r == 100
    ensures maxTaskQueue.Some? ==> r == maxTaskQueue.value
  {
    match maxTaskQueue
    case None => 100
    case Some(size) => size
  }

  /** The response `distribute_task` builds from the message it sent. The task of an
      `AssignTask` is unwrapped, which panics when it is absent. */
  function Respond(task: SchedulerMessage): (r: Outcome<ExecuteResponse>)
    ensures r.Returned? ==> TaskStateFromI32(r.value.state) == Some(Pending)
  {
    match task.kind
    case Some(AssignTask(t, executionId)) =>
      if t.Some? then Returned(ExecuteResponse(executionId, t.value.id, TaskStateValue(Pending)))
      else Panicked("called `Option::unwrap()` on a `None` value")
    case _ => Returned(ExecuteResponse("UnknownExecutionId", "UnknownTaskId", TaskStateValue(Pending)))
  }

  /** An `AssignTask` answers with its own task and execution ids, anything else with
      the "Unknown" placeholders; every answer is in the Pending state. */
  lemma RespondIds(task: SchedulerMessage)
    ensures Respond(task).Returned? ==> TaskStateFromI32(Respond(task).value.state) == Some(Pending)
    ensures (task.kind.Some? && task.kind.value.AssignTask? && task.kind.value.task.Some?) ==>
      && Respond(task).Returned?
      && Respond(task).value.taskId == task.kind.value.task.value.id
      && Respond(task).value.executionId == task.kind.value.executionId
    ensures (task.kind.Some? && task.kind.value.AssignTask? && task.kind.value.task.None?) ==> Respond(task).Panicked?
    ensures !(task.kind.Some? && task.kind.value.AssignTask?) ==>
      Respond(task) == Returned(ExecuteResponse("UnknownExecutionId", "UnknownTaskId", 0))
  {
  }

  /** A map has no keys to iterate exactly when it is empty. */
  lemma KeyOrderEmpty<V>(order: seq<string>, m: map<string, V>)
    requires IsKeyOrder(order, m)
    ensures order == [] <==> m == map[]
  {
    if m != map[] {
      var k :| k in m;
      assert k in order;
    }
    if order != [] {
      assert order[0] in m;
    }
  }

  /** One `distribute_task` call: the shared state after it, the balancer's cursor
      and the call's result. */
  datatype Dispatch = Dispatch(hub: Hub, cursor: nat, reply: Outcome<Result<ExecuteResponse, Status>>)

  /** `distribute_task` on state `h` with cursor `cursor`, the channel map's keys
      being iterated in `order`. */
  function Distribute(h: Hub, cursor: nat, order: seq<string>, task: SchedulerMessage): (r: Dispatch)
    requires IsKeyOrder(order, h.channels)
    ensures r.hub.channels == h.channels && r.hub.heartbeats == h.heartbeats && r.hub.cancels == h.cancels
    ensures r.reply == Returned(Err(Status(Aborted, "No available workers"))) <==> h.channels == map[]
  {
    KeyOrderEmpty(order, h.channels);
    var sel := Select(cursor, order);
    match sel.worker
    case None => Dispatch(h, sel.cursor, Returned(Err(Status(Aborted, "No available workers"))))
    case Some(key) =>
      Dispatch(
        h.(queues := Send(h.queues, h.channels[key], Message(task))),
        sel.cursor,
        match Respond(task)
        case Returned(response) => Returned(Ok(response))
        case Panicked(m) => Panicked(m))
  }

  /** With no key to choose from (so no worker registered), nothing is sent, the
      cursor stays and the call fails with an aborted "No available workers". */
  lemma DistributeNoWorkers(h: Hub, cursor: nat, order: seq<string>, task: SchedulerMessage)
    requires IsKeyOrder(order, h.channels)
    requires order == []
    ensures h.channels == map[]
    ensures Distribute(h, cursor, order, task) == Dispatch(h, cursor, Returned(Err(Status(Aborted, "No available workers"))))
  {
  }

  /** With a worker registered, the round-robin pick receives the task unchanged,
      exactly once; no other channel and neither map changes; and the reply is the
      response built from the task, whether or not the worker is still listening. */
  lemma DistributeSendsOne(h: Hub, cursor: nat, order: seq<string>, task: SchedulerMessage)
    requires IsKeyOrder(order, h.channels)
    requires h.channels != map[]
    ensures var d := Distribute(h, cursor, order, task);
      && d.cursor == Select(cursor, order).cursor
      && var key := order[d.cursor - 1];
      && key in h.channels
      && Select(cursor, order).worker == Some(key)
      && QueueOf(d.hub.queues, h.channels[key]) == QueueOf(h.queues, h.channels[key]) + [Message(task)]
      && (forall c :: c != h.channels[key] ==> QueueOf(d.hub.queues, c) == QueueOf(h.queues, c))
      && d.hub.channels == h.channels && d.hub.heartbeats == h.heartbeats && d.hub.cancels == h.cancels
      && (Respond(task).Returned? ==> d.reply == Returned(Ok(Respond(task).value)))
  {
    var k :| k in h.channels;
    assert order != [];
    var key := order[Select(cursor, order).cursor - 1];
    forall c | c != h.channels[key]
      ensures QueueOf(Distribute(h, cursor, order, task).hub.queues, c) == QueueOf(h.queues, c)
    {
      SendAppends(h.queues, h.channels[key], Message(task), c);
    }
  }

  /** `GrpcSharedState`, with the balancer fixed to the round-robin one. */
  class GrpcSharedState {
    var channels: map<string, ChannelId>
    var heartbeats: map<string, Instant>
    var queues: map<ChannelId, seq<Outbound>>
    var cancels: map<ChannelId, nat>
    const balancer: RoundRobinBalancer
    const maxTaskQueue: usize

    function View(): Hub
      reads this
    {
      Hub(channels, heartbeats, queues, cancels)
    }

    constructor (balancer: RoundRobinBalancer, maxTaskQueue: Option<usize>)
      ensures this.balancer == balancer
      ensures this.maxTaskQueue == QueueSize(maxTaskQueue)
      ensures View() == Hub(map[], map[], map[], map[])
    {
      this.balancer := balancer;
      this.maxTaskQueue := QueueSize(maxTaskQueue);
      channels := map[];
      heartbeats := map[];
      queues := map[];
      cancels := map[];
    }

    /** `max_queue_size`: the size fixed when the state was created. */
    function MaxQueueSize(): (r: usize)
      ensures r == maxTaskQueue
    {
      maxTaskQueue
    }

    /** `drop_workers`: one cancel signal per registered worker, on that worker's
        cancel channel; `order` is the map's iteration order. */
    method DropWorkers(order: seq<string>)
      requires IsKeyOrder(order, channels)
      modifies this`cancels
      ensures forall c :: CancelsOf(cancels, c) == CancelsOf(old(cancels), c) + Aliases(order, channels, c)
    {
      var i := 0;
      while i < |order|
        invariant 0 <= i <= |order|
        invariant forall c :: CancelsOf(cancels, c) == CancelsOf(old(cancels), c) + Aliases(order[..i], channels, c)
      {
        var c := channels[order[i]];
        cancels := cancels[c := CancelsOf(cancels, c) + 1];
        assert order[..i + 1][..i] == order[..i];
        i := i + 1;
      }
      assert order[..|order|] == order;
    }

    /** `distribute_task`: ask the balancer for a worker, send it the task and answer
        from the task's ids. */
    method DistributeTask(task: SchedulerMessage, order: seq<string>) returns (r: Outcome<Result<ExecuteResponse, Status>>)
      requires IsKeyOrder(order, channels)
      modifies this`queues, balancer
      ensures Dispatch(View(), balancer.currentWorker, r) == Distribute(old(View()), old(balancer.currentWorker), order, task)
    {
      var key := balancer.SelectWorker(order);
      if key.Some? {
        var sender := channels[key.value];
        queues := Send(queues, sender, Message(task));
        match task.kind
        case Some(AssignTask(t, executionId)) =>
          if t.None? {
            return Panicked("called `Option::unwrap()` on a `None` value");
          }
          r := Returned(Ok(ExecuteResponse(executionId, t.value.id, TaskStateValue(Pending))));
        case _ =>
          r := Returned(Ok(ExecuteResponse("UnknownExecutionId", "UnknownTaskId", TaskStateValue(Pending))));
      } else {
        r := Returned(Err(Status(Aborted, "No available workers")));
      }
    }
  }

  /** `max_queue_size` on a state created by `new`: 100 when no size was given,
      otherwise the size given. */
  method NewStateQueueSize(balancer: RoundRobinBalancer, size: Option<usize>) returns (r: usize)
    ensures size.None? ==> r == 100
    ensures size.Some? ==> r == size.value
  {
    var state := new GrpcSharedState(balancer, size);
    r := state.MaxQueueSize();
  }

  /** When every registered worker has a channel of its own, a loop over the map
      that sends once per entry (`drop_workers`, the heartbeat tick) sends exactly
      once on each worker's channel and never on a channel nobody is registered on. */
  lemma AliasesOnePerWorker(order: seq<string>, channels: map<string, ChannelId>, w: string, c: ChannelId)
    requires IsKeyOrder(order, channels)
    requires w in channels
    requires forall v :: v in channels && channels[v] == channels[w] ==> v == w
    requires forall v :: v in channels ==> channels[v] != c
    ensures Aliases(order, channels, channels[w]) == 1
    ensures Aliases(order, channels, c) == 0
  {
    AliasesCount(order, channels, w);
    AliasesNone(order, channels, c);
  }
}
