/** One strand composed with one thread pool: any number of worker threads, any number of
    outside threads, one `run` and one effective `stop`.  Every locked region and every
    atomic access is one step, and the scheduler picks the steps.

    The mutex of the pool is explicit, because `running_` and `waiting_threads_` are also
    accessed by threads that do not hold it. */
module Executor {
  import opened Options
  import opened ThreadPools
  import opened Strands

  /** Where a thread is inside `ThreadPool::_addTask`, `Strand::addTask` or
      `Strand::scheduleNext`. */
  datatype Call =
    | NoCall
    | PoolPush(task: Task)     // before the locked push
    | PoolCheck                // pushed, `waiting_threads_` not yet read
    | PoolNotify               // saw a waiter, `notify_one` not yet called
    | StrandPush(job: nat)     // before the locked region of `Strand::addTask`
    | SchedNext                // before the locked region of `scheduleNext`

  /** Outside threads run user code; workers are somewhere in `ThreadPool::worker`. */
  datatype Role =
    | Outside
    | Unborn                   // worker not yet created by `run`
    | AtLoop                   // before taking the mutex
    | Entered                  // holds the mutex, `waiting_threads_` not yet raised
    | Testing                  // holds the mutex, about to evaluate the wait predicate
    | Parking                  // holds the mutex, the predicate was false
    | Blocked                  // asleep in `cv_.wait`
    | Woken                    // notified, must take the mutex again
    | Leaving                  // holds the mutex, the predicate was true
    | Checking                 // holds the mutex, about to test for exit
    | Taking                   // holds the mutex, about to pop
    | Running(task: Task, ticket: nat, inBody: bool)
    | Exited

  datatype Thread = Thread(role: Role, call: Call)

  datatype StopPhase = NotStopped | Flipped | Notified | Joined | Returned

  /** Everything but the threads.  `pushed`, `late`, `taken`, `dropped`, `finished`,
      `strandPushed` and `strandDone` are histories.  A task's ticket is its position in
      `pushed`; `late[i]` says that an outside thread pushed it after `stop` had cleared
      `running_`. */
  datatype Shared = Shared(
    pool: PoolState,
    owner: Option<nat>,
    strand: StrandState,
    started: bool,
    stop: StopPhase,
    pushed: seq<Task>,
    late: seq<bool>,
    taken: seq<Task>,
    dropped: seq<Task>,
    finished: seq<nat>,
    strandPushed: seq<nat>,
    strandDone: seq<nat>)

  datatype Sys = Sys(sh: Shared, threads: seq<Thread>)

  /** What one thread can do on its own. */
  datatype Action =
    | Spawn
    | BeginPoolAdd(id: nat)
    | BeginStrandAdd(job: nat)
    | Push
    | CheckWaiters
    | StrandAdd
    | Schedule
    | Acquire
    | Enter
    | Test
    | Park
    | WakeSpuriously
    | Reacquire
    | Leave
    | CheckExit
    | Take
    | EndBody
    | EndTask

  datatype Step =
    | Act(t: nat, action: Action)
    | NotifyOne(t: nat, w: nat)     // `notify_one` wakes w
    | NotifyNobody(t: nat)          // `notify_one` finds nobody asleep
    | StartPool
    | Flip
    | NotifyAll
    | JoinAll
    | Clear

  predicate IsWorker(th: Thread) {
    !th.role.Outside?
  }

  predicate HoldsMutex(th: Thread) {
    th.role.Entered? || th.role.Testing? || th.role.Parking? || th.role.Leaving? ||
    th.role.Checking? || th.role.Taking?
  }

  /** User code is in control: an outside thread, or a task body on a worker. */
  predicate InUserCode(th: Thread) {
    th.call.NoCall? && (th.role.Outside? || (th.role.Running? && th.role.inBody))
  }

  predicate AllExited(threads: seq<Thread>) {
    forall i | 0 <= i < |threads| :: IsWorker(threads[i]) ==> threads[i].role.Exited?
  }

  predicate InitShared(sh: Shared) {
    && sh.pool == PoolState([], 0, 0, false)
    && sh.owner == None
    && sh.strand == StrandState([], false)
    && !sh.started && sh.stop == NotStopped
    && sh.pushed == [] && sh.late == [] && sh.taken == [] && sh.dropped == [] && sh.finished == []
    && sh.strandPushed == [] && sh.strandDone == []
  }

  /** At least one worker is to be created; any number of outside threads. */
  predicate Init(s: Sys) {
    && InitShared(s.sh)
    && (forall i | 0 <= i < |s.threads| ::
          (s.threads[i].role.Outside? || s.threads[i].role.Unborn?) && s.threads[i].call.NoCall?)
    && (exists i | 0 <= i < |s.threads| :: s.threads[i].role.Unborn?)
  }

  predicate CanAct(sh: Shared, th: Thread, a: Action) {
    match a
    case Spawn => sh.started && sh.stop == NotStopped && th.role.Unborn?
    case BeginPoolAdd(_) => InUserCode(th)
    case BeginStrandAdd(_) => InUserCode(th)
    case Push => th.call.PoolPush? && sh.owner == None
    case CheckWaiters => th.call.PoolCheck?
    case StrandAdd => th.call.StrandPush?
    case Schedule => th.call.SchedNext?
    case Acquire => th.role.AtLoop? && sh.owner == None
    case Enter => th.role.Entered?
    case Test => th.role.Testing?
    case Park => th.role.Parking?
    case WakeSpuriously => th.role.Blocked?
    case Reacquire => th.role.Woken? && sh.owner == None
    case Leave => th.role.Leaving?
    case CheckExit => th.role.Checking?
    case Take => th.role.Taking?
    case EndBody => th.role.Running? && InUserCode(th)
    case EndTask => th.role.Running? && !th.role.inBody && th.call.NoCall?
  }

  /** The acting thread afterwards. */
  function ActThread(sh: Shared, th: Thread, a: Action): Thread
    requires CanAct(sh, th, a)
  {
    match a
    case Spawn => th.(role := AtLoop)
    case BeginPoolAdd(id) => th.(call := PoolPush(Plain(id)))
    case BeginStrandAdd(job) => th.(call := StrandPush(job))
    case Push => th.(call := PoolCheck)
    case CheckWaiters => th.(call := if sh.pool.waiting > 0 then PoolNotify else NoCall)
    case StrandAdd => th.(call := if AddRegion(sh.strand, th.call.job).1 then SchedNext else NoCall)
    case Schedule =>
      var next := ScheduleRegion(sh.strand).1;
      th.(call := if next.None? then NoCall else PoolPush(Handoff(next.value)))
    case Acquire => th.(role := Entered)
    case Enter => th.(role := Testing)
    case Test => th.(role := if MayProceed(sh.pool) then Leaving else Parking)
    case Park => th.(role := Blocked)
    case WakeSpuriously => th.(role := Woken)
    case Reacquire => th.(role := Testing)
    case Leave => th.(role := Checking)
    case CheckExit => th.(role := if MustExit(sh.pool) then Exited else Taking)
    case Take =>
      th.(role := if sh.pool.queue == [] then AtLoop else Running(sh.pool.queue[0], |sh.taken|, true))
    case EndBody =>
      if th.role.task.Plain? then th.(role := AtLoop)
      else Thread(th.role.(inBody := false), SchedNext)
    case EndTask => th.(role := AtLoop)
  }

  /** The shared state after thread `t`, in state `th`, has acted. */
  function ActShared(sh: Shared, t: nat, th: Thread, a: Action): Shared
    requires CanAct(sh, th, a)
  {
    match a
    case Spawn | BeginPoolAdd(_) | BeginStrandAdd(_) | CheckWaiters | Test | WakeSpuriously => sh
    case Push =>
      sh.(pool := PushRegion(sh.pool, th.call.task),
          pushed := sh.pushed + [th.call.task],
          late := sh.late + [th.role.Outside? && sh.stop != NotStopped])
    case StrandAdd =>
      sh.(strand := AddRegion(sh.strand, th.call.job).0,
          strandPushed := sh.strandPushed + [th.call.job])
    case Schedule => sh.(strand := ScheduleRegion(sh.strand).0)
    case Acquire => sh.(owner := Some(t))
    case Enter => sh.(pool := sh.pool.(waiting := sh.pool.waiting + 1))
    case Park => sh.(owner := None)
    case Reacquire => sh.(owner := Some(t))
    case Leave => sh.(pool := sh.pool.(waiting := sh.pool.waiting - 1))
    case CheckExit => if MustExit(sh.pool) then sh.(owner := None) else sh
    case Take =>
      if sh.pool.queue == [] then sh.(owner := None)
      else sh.(owner := None, pool := TakeRegion(sh.pool), taken := sh.taken + [sh.pool.queue[0]])
    case EndBody =>
      if th.role.task.Plain? then sh.(finished := sh.finished + [th.role.ticket])
      else sh.(strandDone := sh.strandDone + [th.role.task.job])
    case EndTask => sh.(finished := sh.finished + [th.role.ticket])
  }

  function WakeAll(threads: seq<Thread>): (r: seq<Thread>)
    ensures |r| == |threads|
    ensures forall i | 0 <= i < |r| ::
              r[i] == if threads[i].role.Blocked? then threads[i].(role := Woken) else threads[i]
  {
    seq(|threads|, i requires 0 <= i < |threads| =>
      if threads[i].role.Blocked? then threads[i].(role := Woken) else threads[i])
  }

  predicate Enabled(s: Sys, l: Step) {
    match l
    case Act(t, a) => t < |s.threads| && CanAct(s.sh, s.threads[t], a)
    case NotifyOne(t, w) =>
      t < |s.threads| && s.threads[t].call.PoolNotify? && w < |s.threads| && w != t && s.threads[w].role.Blocked?
    case NotifyNobody(t) =>
      t < |s.threads| && s.threads[t].call.PoolNotify? &&
      forall i | 0 <= i < |s.threads| :: !s.threads[i].role.Blocked?
    case StartPool => !s.sh.started
    case Flip =>
      s.sh.started && s.sh.stop == NotStopped && forall i | 0 <= i < |s.threads| :: !s.threads[i].role.Unborn?
    case NotifyAll => s.sh.stop == Flipped
    case JoinAll => s.sh.stop == Notified && AllExited(s.threads)
    case Clear => s.sh.stop == Joined && s.sh.owner == None
  }

  function Apply(s: Sys, l: Step): Sys
    requires Enabled(s, l)
  {
    match l
    case Act(t, a) =>
      Sys(ActShared(s.sh, t, s.threads[t], a), s.threads[t := ActThread(s.sh, s.threads[t], a)])
    case NotifyOne(t, w) =>
      s.(threads := s.threads[t := s.threads[t].(call := NoCall)][w := s.threads[w].(role := Woken)])
    case NotifyNobody(t) => s.(threads := s.threads[t := s.threads[t].(call := NoCall)])
    case StartPool => s.(sh := s.sh.(started := true, pool := s.sh.pool.(running := true)))
    case Flip => s.(sh := s.sh.(stop := Flipped, pool := s.sh.pool.(running := false)))
    case NotifyAll => Sys(s.sh.(stop := Notified), WakeAll(s.threads))
    case JoinAll => s.(sh := s.sh.(stop := Joined))
    case Clear =>
      s.(sh := s.sh.(stop := Returned, pool := ClearRegion(s.sh.pool), dropped := s.sh.dropped + s.sh.pool.queue))
  }

  /** A finite run: `states[i]` takes step `steps[i]` to `states[i+1]`. */
  predicate IsRun(states: seq<Sys>, steps: seq<Step>) {
    && |states| == |steps| + 1
    && Init(states[0])
    && forall i | 0 <= i < |steps| ::
         Enabled(states[i], steps[i]) && states[i + 1] == Apply(states[i], steps[i])
  }
}
