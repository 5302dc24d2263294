/** The coroutine scheduler of `Scheduler.hpp` as a step system.  Every access to an atomic,
    also inside the locked region, is a step of its own: `task_num_` is raised without the lock. */
module Schedulers {
  import opened Options
  import opened Sums

  /** Where a call of `add_coroutine` is. */
  datatype Add = NotAdding | Pushes(coro: nat) | Peeks | Notifies | Counts

  /** Where a thread is.  A client is outside; a worker runs `worker`, and while it resumes
      a coroutine that coroutine may add others. */
  datatype Pc =
    | Client
    | OuterRunning | OuterCount | Locks
    | TestCount | TestRunning | Announces | Blocks | Waits | Relocks | Retracts
    | CheckCount | CheckRunning | Pops | Decrements(coro: nat)
    | Resumes(coro: nat)
    | Exited

  datatype Thread = Thread(pc: Pc, add: Add)

  datatype StopPhase = Up | Flipped | Joined

  /** `calm` records whether no client was inside `add_coroutine` when `stop` cleared
      `running_`; `pushed`, `popped` and `resumed` are histories. */
  datatype Shared = Shared(
    queue: seq<nat>, taskNum: int, waiting: int, running: bool, mutex: Option<nat>,
    stop: StopPhase, calm: bool, pushed: seq<nat>, popped: seq<nat>, resumed: seq<nat>)

  datatype Sys = Sys(sh: Shared, threads: seq<Thread>)

  /** `Wake` is a notification or a spurious wake-up. */
  datatype Step = Begin(t: nat, coro: nat) | Act(t: nat) | Wake(t: nat) | Flip | Join

  ghost predicate Init(s: Sys) {
    && s.sh == Shared([], 0, 0, true, None, Up, false, [], [], [])
    && forall t | 0 <= t < |s.threads| ::
         (s.threads[t].pc.Client? || s.threads[t].pc.OuterRunning?) && s.threads[t].add.NotAdding?
  }

  /** Whether the thread's next statement can be executed: locking waits for the mutex. */
  predicate CanAct(sh: Shared, th: Thread) {
    match th.add
    case Pushes(_) => sh.mutex.None?
    case Peeks => true
    case Notifies => true
    case Counts => true
    case NotAdding =>
      match th.pc
      case Client => false
      case Locks => sh.mutex.None?
      case Waits => false
      case Relocks => sh.mutex.None?
      case Pops => sh.queue != []
      case Exited => false
      case _ => true
  }

  function ActThread(sh: Shared, th: Thread): Thread {
    match th.add
    case Pushes(_) => th.(add := Peeks)
    case Peeks => th.(add := if sh.waiting > 0 then Notifies else Counts)
    case Notifies => th.(add := Counts)
    case Counts => th.(add := NotAdding)
    case NotAdding => th.(pc := NextPc(sh, th.pc))
  }

  function NextPc(sh: Shared, pc: Pc): Pc {
    match pc
    case OuterRunning => if sh.running then Locks else OuterCount
    case OuterCount => if sh.taskNum > 0 then Locks else Exited
    case Locks => TestCount
    case TestCount => if sh.taskNum == 0 then TestRunning else CheckCount
    case TestRunning => if sh.running then Announces else CheckCount
    case Announces => Blocks
    case Blocks => Waits
    case Relocks => Retracts
    case Retracts => TestCount
    case CheckCount => if sh.taskNum == 0 then CheckRunning else Pops
    case CheckRunning => if sh.running then Pops else Exited
    case Pops => if sh.queue == [] then Pops else Decrements(sh.queue[0])
    case Decrements(coro) => Resumes(coro)
    case Resumes(_) => OuterRunning
    case _ => pc
  }

  function ActShared(sh: Shared, t: nat, th: Thread): Shared
    requires CanAct(sh, th)
  {
    match th.add
    case Pushes(coro) => sh.(queue := sh.queue + [coro], pushed := sh.pushed + [coro])
    case Counts => sh.(taskNum := sh.taskNum + 1)
    case NotAdding =>
      (match th.pc
       case Locks => sh.(mutex := Some(t))
       case Relocks => sh.(mutex := Some(t))
       case Announces => sh.(waiting := sh.waiting + 1)
       case Retracts => sh.(waiting := sh.waiting - 1)
       case Blocks => sh.(mutex := None)
       case CheckRunning => if sh.running then sh else sh.(mutex := None)
       case Pops => sh.(queue := sh.queue[1..], popped := sh.popped + [sh.queue[0]])
       case Decrements(coro) => sh.(taskNum := sh.taskNum - 1, mutex := None, resumed := sh.resumed + [coro])
       case _ => sh)
    case _ => sh
  }

  /** Coroutines resumed by a worker may still be adding. */
  predicate NoClientAdds(threads: seq<Thread>) {
    forall t | 0 <= t < |threads| :: threads[t].pc.Client? ==> threads[t].add.NotAdding?
  }

  predicate WorkersGone(threads: seq<Thread>) {
    forall t | 0 <= t < |threads| :: threads[t].pc.Client? || threads[t].pc.Exited?
  }

  /** `Begin` is the assertion that opens `add_coroutine`: it passes only while running. */
  ghost predicate Enabled(s: Sys, l: Step) {
    match l
    case Begin(t, _) =>
      t < |s.threads| && s.threads[t].add.NotAdding? && (s.threads[t].pc.Client? || s.threads[t].pc.Resumes?) && s.sh.running
    case Act(t) => t < |s.threads| && CanAct(s.sh, s.threads[t])
    case Wake(t) => t < |s.threads| && s.threads[t].pc.Waits?
    case Flip => s.sh.stop.Up?
    case Join => s.sh.stop.Flipped? && WorkersGone(s.threads)
  }

  ghost function Apply(s: Sys, l: Step): Sys
    requires Enabled(s, l)
  {
    match l
    case Begin(t, coro) => s.(threads := s.threads[t := s.threads[t].(add := Pushes(coro))])
    case Act(t) =>
      Sys(ActShared(s.sh, t, s.threads[t]), s.threads[t := ActThread(s.sh, s.threads[t])])
    case Wake(t) => s.(threads := s.threads[t := s.threads[t].(pc := Relocks)])
    case Flip => s.(sh := s.sh.(running := false, stop := Flipped, calm := NoClientAdds(s.threads)))
    case Join => s.(sh := s.sh.(stop := Joined))
  }

  /** Steps taken one after the other, from any state. */
  ghost predicate IsChain(states: seq<Sys>, steps: seq<Step>) {
    && |states| == |steps| + 1
    && forall i | 0 <= i < |steps| ::
         Enabled(states[i], steps[i]) && states[i + 1] == Apply(states[i], steps[i])
  }

  ghost predicate IsRun(states: seq<Sys>, steps: seq<Step>) {
    IsChain(states, steps) && Init(states[0])
  }

  // ---------------------------------------------------------------- invariant

  predicate Holds(pc: Pc) {
    match pc
    case TestCount => true
    case TestRunning => true
    case Announces => true
    case Blocks => true
    case Retracts => true
    case CheckCount => true
    case CheckRunning => true
    case Pops => true
    case Decrements(_) => true
    case _ => false
  }

  /** An adder between its push and its increment. */
  ghost function InFlight(): Thread -> nat {
    (th: Thread) => if th.add.Peeks? || th.add.Notifies? || th.add.Counts? then 1 else 0
  }

  /** A worker between its pop and its decrement. */
  ghost function Popping(): Thread -> nat {
    (th: Thread) => if th.pc.Decrements? then 1 else 0
  }

  ghost predicate SharedOk(sh: Shared) {
    && sh.taskNum >= 0
    && (sh.running <==> sh.stop.Up?)
    && (sh.calm ==> !sh.running)
    && sh.pushed == sh.popped + sh.queue
  }

  ghost predicate ThreadOk(sh: Shared, t: nat, th: Thread) {
    && (Holds(th.pc) <==> sh.mutex == Some(t))
    && (th.add.NotAdding? || th.pc.Client? || th.pc.Resumes?)
    && (sh.calm && th.pc.Client? ==> th.add.NotAdding?)
    && (th.pc.OuterCount? ==> !sh.running)
    && (th.pc.CheckCount? ==> sh.taskNum > 0 || !sh.running)
    && (th.pc.CheckRunning? ==> !sh.running)
    && (th.pc.Pops? || th.pc.Decrements? ==> sh.taskNum > 0)
    && (th.pc.Exited? ==> !sh.running)
    && (sh.stop.Joined? ==> th.pc.Client? || th.pc.Exited?)
  }

  ghost predicate ThreadsOk(s: Sys) {
    && (s.sh.mutex.Some? ==> s.sh.mutex.value < |s.threads|)
    && forall t | 0 <= t < |s.threads| :: ThreadOk(s.sh, t, s.threads[t])
  }

  predicate IsWorker(th: Thread) {
    !th.pc.Client?
  }

  /** A worker that will look at the counter once more before it exits. */
  predicate WillLook(th: Thread) {
    IsWorker(th) && !th.pc.Exited? && !th.pc.CheckRunning?
  }

  ghost predicate HasWorker(s: Sys) {
    exists t | 0 <= t < |s.threads| :: IsWorker(s.threads[t])
  }

  ghost predicate SomeoneWillLook(s: Sys) {
    exists t | 0 <= t < |s.threads| :: WillLook(s.threads[t])
  }

  /** After a calm stop, counted coroutines are never left to workers that are done looking. */
  ghost predicate Watched(s: Sys) {
    s.sh.calm && s.sh.taskNum > 0 && HasWorker(s) ==> SomeoneWillLook(s)
  }

  /** The queue holds one coroutine for each one counted, one more for each adder that has
      not counted yet, and one less if a worker has popped but not yet decremented. */
  ghost predicate Counted(s: Sys) {
    |s.sh.queue| + Sum(s.threads, Popping()) == s.sh.taskNum + Sum(s.threads, InFlight())
  }

  ghost predicate Inv(s: Sys) {
    SharedOk(s.sh) && ThreadsOk(s) && Counted(s) && Watched(s)
  }

  lemma InvInit(s: Sys)
    requires Init(s)
    ensures Inv(s)
  {
    SumZero(s.threads, Popping());
    SumZero(s.threads, InFlight());
  }

  // ---------------------------------------------------------------- steps

  lemma OwnThread(sh: Shared, t: nat, th: Thread)
    requires SharedOk(sh) && ThreadOk(sh, t, th) && CanAct(sh, th)
    ensures SharedOk(ActShared(sh, t, th))
    ensures ThreadOk(ActShared(sh, t, th), t, ActThread(sh, th))
  {
  }

  lemma OtherThread(sh: Shared, t: nat, th: Thread, u: nat, other: Thread)
    requires SharedOk(sh) && ThreadOk(sh, t, th) && CanAct(sh, th)
    requires t != u && ThreadOk(sh, u, other)
    ensures ThreadOk(ActShared(sh, t, th), u, other)
  {
  }

  lemma ActThreads(s: Sys, t: nat)
    requires SharedOk(s.sh) && ThreadsOk(s) && Enabled(s, Act(t))
    ensures SharedOk(Apply(s, Act(t)).sh) && ThreadsOk(Apply(s, Act(t)))
  {
    var s' := Apply(s, Act(t));
    OwnThread(s.sh, t, s.threads[t]);
    forall u | 0 <= u < |s.threads| ensures ThreadOk(s'.sh, u, s'.threads[u]) {
      if u != t {
        OtherThread(s.sh, t, s.threads[t], u, s.threads[u]);
      }
    }
  }

  /** One thread's own share of the count. */
  lemma ActBalance(sh: Shared, t: nat, th: Thread)
    requires SharedOk(sh) && ThreadOk(sh, t, th) && CanAct(sh, th)
    ensures var sh', th' := ActShared(sh, t, th), ActThread(sh, th);
            |sh'.queue| + Popping()(th') + sh.taskNum + InFlight()(th)
            == |sh.queue| + Popping()(th) + sh'.taskNum + InFlight()(th')
  {
  }

  lemma ActCounted(s: Sys, t: nat)
    requires Inv(s) && Enabled(s, Act(t))
    ensures Counted(Apply(s, Act(t)))
  {
    var th' := ActThread(s.sh, s.threads[t]);
    ActBalance(s.sh, t, s.threads[t]);
    SumUpdate(s.threads, t, th', Popping());
    SumUpdate(s.threads, t, th', InFlight());
  }

  /** A worker stops looking only when the counter is zero. */
  lemma ActKeepsLooking(sh: Shared, t: nat, th: Thread)
    requires SharedOk(sh) && ThreadOk(sh, t, th) && CanAct(sh, th)
    ensures IsWorker(ActThread(sh, th)) <==> IsWorker(th)
    ensures sh.calm && ActShared(sh, t, th).taskNum > 0 && WillLook(th) ==> WillLook(ActThread(sh, th))
    ensures sh.calm && ActShared(sh, t, th).taskNum > sh.taskNum ==> WillLook(ActThread(sh, th))
    ensures ActShared(sh, t, th).calm == sh.calm
  {
  }

  lemma ActWatched(s: Sys, t: nat)
    requires SharedOk(s.sh) && ThreadsOk(s) && Watched(s) && Enabled(s, Act(t))
    ensures Watched(Apply(s, Act(t)))
  {
    var s' := Apply(s, Act(t));
    assert ThreadOk(s.sh, t, s.threads[t]);
    ActKeepsLooking(s.sh, t, s.threads[t]);
    if s'.sh.calm && s'.sh.taskNum > 0 && HasWorker(s') {
      var w :| 0 <= w < |s'.threads| && IsWorker(s'.threads[w]);
      assert IsWorker(s.threads[w]);
      if s'.sh.taskNum > s.sh.taskNum {
        assert WillLook(s'.threads[t]);
      } else {
        var u :| 0 <= u < |s.threads| && WillLook(s.threads[u]);
        assert WillLook(s'.threads[u]);
      }
    }
  }

  lemma FlipWatched(s: Sys)
    requires ThreadsOk(s) && s.sh.running
    ensures HasWorker(s) ==> SomeoneWillLook(s)
  {
    if w :| 0 <= w < |s.threads| && IsWorker(s.threads[w]) {
      assert ThreadOk(s.sh, w, s.threads[w]);
      assert WillLook(s.threads[w]);
    }
  }

  lemma BeginOrWakeWatched(s: Sys, l: Step)
    requires Watched(s) && Enabled(s, l) && (l.Begin? || l.Wake?)
    ensures Watched(Apply(s, l))
  {
    var s' := Apply(s, l);
    forall u | 0 <= u < |s.threads|
      ensures (IsWorker(s'.threads[u]) <==> IsWorker(s.threads[u])) && (WillLook(s.threads[u]) ==> WillLook(s'.threads[u]))
    {
    }
    if HasWorker(s') {
      var w :| 0 <= w < |s'.threads| && IsWorker(s'.threads[w]);
      assert IsWorker(s.threads[w]);
      if SomeoneWillLook(s) {
        var u :| 0 <= u < |s.threads| && WillLook(s.threads[u]);
        assert WillLook(s'.threads[u]);
      }
    }
  }

  lemma BeginOrWake(s: Sys, l: Step)
    requires Inv(s) && Enabled(s, l) && (l.Begin? || l.Wake?)
    ensures Inv(Apply(s, l))
  {
    var th' := Apply(s, l).threads[l.t];
    assert ThreadOk(s.sh, l.t, s.threads[l.t]);
    SumUpdate(s.threads, l.t, th', Popping());
    SumUpdate(s.threads, l.t, th', InFlight());
    BeginOrWakeWatched(s, l);
  }

  lemma InvStep(s: Sys, l: Step)
    requires Inv(s) && Enabled(s, l)
    ensures Inv(Apply(s, l))
  {
    match l
    case Begin(_, _) => BeginOrWake(s, l);
    case Wake(_) => BeginOrWake(s, l);
    case Act(t) =>
      ActThreads(s, t);
      ActCounted(s, t);
      ActWatched(s, t);
    case Flip => FlipWatched(s);
    case Join =>
  }

  lemma {:induction false} InvRun(states: seq<Sys>, steps: seq<Step>, i: nat)
    requires IsRun(states, steps) && i < |states|
    ensures Inv(states[i])
  {
    if i == 0 {
      InvInit(states[0]);
    } else {
      InvRun(states, steps, i - 1);
      InvStep(states[i - 1], steps[i - 1]);
    }
  }

  // ---------------------------------------------------------------- theorems

  /** The counter is loose, but by no more than the calls in progress, and never negative. */
  lemma CounterMatchesQueue(states: seq<Sys>, steps: seq<Step>, i: nat)
    requires IsRun(states, steps) && i < |states|
    ensures var s := states[i];
            && s.sh.taskNum >= 0
            && |s.sh.queue| + Sum(s.threads, Popping()) == s.sh.taskNum + Sum(s.threads, InFlight())
            && s.sh.pushed == s.sh.popped + s.sh.queue
  {
    InvRun(states, steps, i);
  }

  lemma {:induction false} NobodyElsePops(threads: seq<Thread>, sh: Shared, from: nat, t: nat)
    requires forall u | 0 <= u < |threads| :: ThreadOk(sh, from + u, threads[u])
    requires sh.mutex == Some(t) && (from <= t < from + |threads| ==> !threads[t - from].pc.Decrements?)
    ensures Sum(threads, Popping()) == 0
  {
    if threads != [] {
      assert ThreadOk(sh, from + 0, threads[0]);
      forall u | 0 <= u < |threads[1..]| ensures ThreadOk(sh, from + 1 + u, threads[1..][u]) {
        assert ThreadOk(sh, from + (u + 1), threads[u + 1]);
      }
      NobodyElsePops(threads[1..], sh, from + 1, t);
    }
  }

  /** The assertion before the pop never fails. */
  lemma PopFindsCoroutine(states: seq<Sys>, steps: seq<Step>, i: nat, t: nat)
    requires IsRun(states, steps) && i < |states| && t < |states[i].threads| && states[i].threads[t].pc.Pops?
    ensures states[i].sh.queue != []
  {
    InvRun(states, steps, i);
    var s := states[i];
    assert ThreadOk(s.sh, t, s.threads[t]);
    NobodyElsePops(s.threads, s.sh, 0, t);
  }

  lemma {:induction false} RolesStay(states: seq<Sys>, steps: seq<Step>, i: nat, t: nat)
    requires IsRun(states, steps) && i < |states| && t < |states[0].threads|
    ensures |states[i].threads| == |states[0].threads|
    ensures states[i].threads[t].pc.Client? <==> states[0].threads[t].pc.Client?
  {
    if i > 0 {
      RolesStay(states, steps, i - 1, t);
      RoleStays(states[i - 1], steps[i - 1], t);
    }
  }

  lemma RoleStays(s: Sys, l: Step, t: nat)
    requires Enabled(s, l) && t < |s.threads|
    ensures Apply(s, l).threads[t].pc.Client? <==> s.threads[t].pc.Client?
  {
  }

  /** With the workers gone, a calm stop leaves nothing. */
  lemma GoneIsDrained(s: Sys)
    requires Inv(s) && HasWorker(s) && s.sh.stop.Joined? && s.sh.calm
    ensures s.sh.taskNum == 0 && s.sh.queue == [] && s.sh.popped == s.sh.pushed
  {
    forall t | 0 <= t < |s.threads| ensures InFlight()(s.threads[t]) == 0 && !WillLook(s.threads[t]) {
      assert ThreadOk(s.sh, t, s.threads[t]);
    }
    SumZero(s.threads, InFlight());
  }

  /** If no client was inside `add_coroutine` when `stop` cleared the flag, then once the
      workers are joined the final assertion holds, and every coroutine ever added, also by
      coroutines that were running then, has been taken, in the order of the pushes. */
  lemma CalmStopDrains(states: seq<Sys>, steps: seq<Step>, i: nat, w: nat)
    requires IsRun(states, steps) && i < |states| && w < |states[0].threads| && IsWorker(states[0].threads[w])
    requires states[i].sh.stop.Joined? && states[i].sh.calm
    ensures states[i].sh.taskNum == 0 && states[i].sh.queue == [] && states[i].sh.popped == states[i].sh.pushed
  {
    InvRun(states, steps, i);
    RolesStay(states, steps, i, w);
    GoneIsDrained(states[i]);
  }
}
