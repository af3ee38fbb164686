/** A local worker thread (src/core/worker.rs): creation and the job-processing
    loop of `process_task`, run single-threaded over the jobs already in the pool's
    channel. */
module Worker {
  import opened Common
  import opened WorkerPool

  /** Why `process_task`'s loop stopped. `Blocked` is where the thread would wait
      in `recv` for a job: the channel is empty but a sender is still alive. */
  datatype LoopExit = PoolShrunk | Disconnected | Blocked

  /** What a drain leaves behind: the jobs run, in order, the jobs still queued,
      the queued counter and the reason the loop stopped. */
  datatype Drained = Drained(ran: seq<Job>, queue: seq<Job>, queued: usize, exit: LoopExit)

  /** The loop's overall effect, given the counters and the channel when it starts.
      The active counter is checked before every job, but each job leaves it as it
      found it, so only the first check can stop the loop. */
  function Drain(active: usize, max: usize, queued: usize, queue: seq<Job>, disconnected: bool): (r: Drained)
    ensures r.ran + r.queue == queue
    ensures r.exit == PoolShrunk <==> active >= max
    ensures r.exit != PoolShrunk ==> r.queue == [] && (r.exit == Disconnected <==> disconnected)
  {
    if active >= max then Drained([], queue, queued, PoolShrunk)
    else Drained(queue, [], WrapSub(queued, |queue|), if disconnected then Disconnected else Blocked)
  }

  /** Taking one more job lowers the queued counter by one more. */
  lemma {:induction false} WrapSubStep(x: usize, n: nat)
    ensures WrapSub(x, n + 1) == WrapDec(WrapSub(x, n))
    decreases n
  {
    if n > 0 {
      WrapSubStep(WrapDec(x), n - 1);
    }
  }

  /** A pool already at its thread limit takes no job; otherwise every queued job is
      run in the order it was sent, and when the queued counter covered the queue it
      drops by exactly the number of jobs run. */
  lemma DrainProperties(active: usize, max: usize, queued: usize, queue: seq<Job>, disconnected: bool)
    ensures active >= max ==> Drain(active, max, queued, queue, disconnected) == Drained([], queue, queued, PoolShrunk)
    ensures active < max ==> Drain(active, max, queued, queue, disconnected).ran == queue
    ensures active < max && |queue| <= queued as int ==>
      Drain(active, max, queued, queue, disconnected).queued as int == queued as int - |queue|
    ensures active < max && disconnected ==> Drain(active, max, queued, queue, disconnected).exit == Disconnected
  {
    if active < max && |queue| <= queued as int {
      WrapSubNoUnderflow(queued, |queue|);
    }
  }

  /** The non-stats `process_task`: check the thread limit, take the next job, bracket
      its run with the counter updates, and on leaving the loop cancel the sentinel.
      Running a job is recorded by appending it to `ran`. */
  method ProcessTask(shared: WorkerPoolSharedData, sentinel: Sentinel) returns (ran: seq<Job>, exit: LoopExit)
    modifies shared`queue, shared`queuedCount, shared`activeCount, sentinel
    ensures !sentinel.active
    ensures shared.activeCount == old(shared.activeCount)
    ensures Drained(ran, shared.queue, shared.queuedCount, exit)
         == Drain(old(shared.activeCount), shared.maxThreadCount, old(shared.queuedCount), old(shared.queue), shared.disconnected)
  {
    ran := [];
    while true
      invariant shared.activeCount == old(shared.activeCount)
      invariant ran + shared.queue == old(shared.queue)
      invariant shared.queuedCount == WrapSub(old(shared.queuedCount), |ran|)
      invariant old(shared.activeCount) >= shared.maxThreadCount ==> ran == []
      decreases |shared.queue|
    {
      var (active, max) := shared.LoadThreadMetrics();
      if active >= max {
        exit := PoolShrunk;
        break;
      }
      if shared.queue == [] {
        exit := if shared.disconnected then Disconnected else Blocked;
        break;
      }
      var job := shared.queue[0];
      shared.queue := shared.queue[1..];
      shared.ProcessNewExecutionMetrics();
      WrapSubStep(old(shared.queuedCount), |ran|);
      ran := ran + [job];
      shared.DecrementThreadActive();
      WrapDecInc(active);
    }
    sentinel.Cancel();
  }

  class LocalWorker {
    const id: usize
    var isActive: bool
    var jobsProcessed: usize
    var activeTime: usize
    var idleTime: usize
    const shared: WorkerPoolSharedData

    constructor (id: usize, shared: WorkerPoolSharedData)
      ensures this.id == id && this.shared == shared
      ensures !isActive && jobsProcessed == 0 && activeTime == 0 && idleTime == 0
    {
      this.id := id;
      this.shared := shared;
      isActive := false;
      jobsProcessed := 0;
      activeTime := 0;
      idleTime := 0;
    }
  }

  /** `create_worker`: a local worker for `Local`, a panic for any other type. */
  method CreateWorker(workerType: WorkerType, id: usize, shared: WorkerPoolSharedData) returns (r: Outcome<LocalWorker>)
    ensures workerType == Local ==> r.Returned? && fresh(r.value) && r.value.id == id && r.value.shared == shared
    ensures workerType == Remote ==> r == Panicked("worker type not supported")
  {
    match workerType
    case Local =>
      var w := new LocalWorker(id, shared);
      r := Returned(w);
    case Remote =>
      r := Panicked("worker type not supported");
  }

  /** The module's test: a one-thread pool whose channel is empty and whose sender
      has been dropped; its worker thread runs to completion and the pool then has
      no work. */
  method LocalWorkerSpawn() returns (hasWork: bool)
    ensures !hasWork
  {
    var shared := new WorkerPoolSharedData(1, None, [], true, false, Some("Test"));
    var worker := new LocalWorker(1, shared);
    var sentinel := new Sentinel(worker.id);
    var ran, exit := ProcessTask(shared, sentinel);
    hasWork := shared.HasWork();
  }
}
