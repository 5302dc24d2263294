/** The shared state of `ThreadPool` and its atomic regions: every block that runs
    under `mtx_`, and every access to an atomic field, is one function on this state.
    The class at the end performs the same regions in place. */
module ThreadPools {
  import opened Options

  /** What the pool executes. `Handoff` is the closure that `Strand::scheduleNext`
      submits: it runs one strand job and then schedules the next. */
  datatype Task = Plain(id: nat) | Handoff(job: nat)

  datatype PoolState = PoolState(queue: seq<Task>, taskNum: int, waiting: int, running: bool)

  function PushRegion(p: PoolState, task: Task): PoolState {
    p.(queue := p.queue + [task], taskNum := p.taskNum + 1)
  }

  /** The predicate handed to `cv_.wait`. */
  predicate MayProceed(p: PoolState) {
    !p.running || p.queue != []
  }

  predicate MustExit(p: PoolState) {
    !p.running && p.queue == []
  }

  function TakeRegion(p: PoolState): PoolState {
    if p.queue == [] then p else p.(queue := p.queue[1..], taskNum := p.taskNum - 1)
  }

  /** How a worker leaves the locked part of its loop. */
  datatype Outcome = MustWait | Exits | Takes(task: Task)

  /** The locked part of the worker's loop, if nobody interferes. */
  function WorkerRegion(p: PoolState): (PoolState, Outcome) {
    if !MayProceed(p) then (p.(waiting := p.waiting + 1), MustWait)
    else if MustExit(p) then (p, Exits)
    else (TakeRegion(p), Takes(p.queue[0]))
  }

  function ClearRegion(p: PoolState): PoolState {
    p.(queue := [], taskNum := p.taskNum - |p.queue|)
  }

  class ThreadPool {
    var taskQueue: seq<Task>
    var taskNum: int
    var waitingThreads: int
    var running: bool

    function View(): PoolState
      reads this
    {
      PoolState(taskQueue, taskNum, waitingThreads, running)
    }

    constructor ()
      ensures View() == PoolState([], 0, 0, false)
    {
      taskQueue, taskNum, waitingThreads, running := [], 0, 0, false;
    }

    /** The locked part of `_addTask`. */
    method Push(task: Task)
      modifies this
      ensures View() == PushRegion(old(View()), task)
    {
      taskQueue := taskQueue + [task];
      taskNum := taskNum + 1;
    }

    /** `_addTask`, if nobody interferes: whether to notify is read after the push. */
    method AddTask(task: Task) returns (notify: bool)
      modifies this
      ensures View() == PushRegion(old(View()), task)
      ensures notify <==> old(View()).waiting > 0
    {
      Push(task);
      notify := waitingThreads > 0;
    }

    /** Removes the oldest task, if there is one. */
    method Take() returns (task: Option<Task>)
      modifies this
      ensures View() == TakeRegion(old(View()))
      ensures task == if old(taskQueue) == [] then None else Some(old(taskQueue)[0])
    {
      task := None;
      if |taskQueue| > 0 {
        task := Some(taskQueue[0]);
        taskQueue := taskQueue[1..];
        taskNum := taskNum - 1;
      }
    }

    /** One pass of the worker through the locked part of its loop. */
    method NextTask() returns (outcome: Outcome)
      modifies this
      ensures (View(), outcome) == WorkerRegion(old(View()))
      ensures outcome.Takes? ==> [outcome.task] + taskQueue == old(taskQueue)
      ensures outcome.MustWait? ==> running && taskQueue == []
      ensures waitingThreads == old(waitingThreads) + if outcome.MustWait? then 1 else 0
    {
      waitingThreads := waitingThreads + 1;
      if running && |taskQueue| == 0 {
        return MustWait;
      }
      waitingThreads := waitingThreads - 1;
      if !running && |taskQueue| == 0 {
        return Exits;
      }
      var task := Take();
      outcome := Takes(task.value);
    }

    /** `running_.exchange(value)`, used by `run` and `stop`. */
    method ExchangeRunning(value: bool) returns (was: bool)
      modifies this
      ensures was == old(running)
      ensures View() == old(View()).(running := value)
    {
      was := running;
      running := value;
    }

    /** The last region of `stop`: drop what nobody will run. */
    method Clear()
      modifies this
      ensures View() == ClearRegion(old(View()))
    {
      while |taskQueue| > 0
        invariant |taskQueue| <= old(|taskQueue|)
        invariant taskNum - |taskQueue| == old(taskNum) - old(|taskQueue|)
        invariant waitingThreads == old(waitingThreads) && running == old(running)
      {
        taskQueue := taskQueue[1..];
        taskNum := taskNum - 1;
      }
    }
  }
}
