/** Exactly when the assertion at the end of `Scheduler::stop` is safe. */
module SchedulerStop {
  import opened Options
  import opened Sums
  import opened Schedulers

  // ---------------------------------------------------------------- workers can always exit

  /** How far a worker is from exiting once `running_` is clear, but for the coroutines it
      may take on the way. */
  ghost function Distance(): Thread -> nat {
    (th: Thread) => PcDistance(th.pc) + if th.pc.Client? then 0 else AddDistance(th.add)
  }

  function PcDistance(pc: Pc): nat {
    match pc
    case Client => 0
    case Exited => 0
    case CheckRunning => 1
    case Decrements(_) => 2
    case Pops => 3
    case CheckCount => 4
    case TestRunning => 5
    case TestCount => 6
    case Retracts => 7
    case Relocks => 8
    case Waits => 9
    case Blocks => 10
    case Announces => 11
    case Locks => 7
    case OuterCount => 8
    case OuterRunning => 9
    case Resumes(_) => 10
  }

  function AddDistance(add: Add): nat {
    match add
    case NotAdding => 0
    case Counts => 17
    case Notifies => 18
    case Peeks => 19
    case Pushes(_) => 20
  }

  /** Each counted coroutine may cost one round of the loop. */
  ghost function Measure(s: Sys): nat
    requires s.sh.taskNum >= 0
  {
    16 * s.sh.taskNum + Sum(s.threads, Distance())
  }

  predicate CanMove(sh: Shared, th: Thread) {
    IsWorker(th) && !th.pc.Exited? && (th.pc.Waits? || CanAct(sh, th))
  }

  /** The holder of the mutex can move; if nobody holds it, every worker can. */
  lemma WorkerCanMove(s: Sys) returns (t: nat)
    requires Inv(s) && !WorkersGone(s.threads)
    ensures t < |s.threads| && CanMove(s.sh, s.threads[t])
  {
    if s.sh.mutex.Some? {
      t := s.sh.mutex.value;
      assert ThreadOk(s.sh, t, s.threads[t]);
      if s.threads[t].pc.Pops? {
        NobodyElsePops(s.threads, s.sh, 0, t);
      }
    } else {
      t :| 0 <= t < |s.threads| && IsWorker(s.threads[t]) && !s.threads[t].pc.Exited?;
      assert ThreadOk(s.sh, t, s.threads[t]);
    }
  }

  function MoveOf(th: Thread, t: nat): Step {
    if th.pc.Waits? then Wake(t) else Act(t)
  }

  /** Moving a worker brings it nearer to its exit. */
  lemma ActIsNearer(sh: Shared, t: nat, th: Thread)
    requires SharedOk(sh) && ThreadOk(sh, t, th) && IsWorker(th) && CanAct(sh, th) && !sh.running
    ensures var sh', th' := ActShared(sh, t, th), ActThread(sh, th);
            && 16 * sh'.taskNum + Distance()(th') < 16 * sh.taskNum + Distance()(th)
            && sh'.stop == sh.stop
  {
  }

  ghost predicate SameClients(s: Sys, s': Sys) {
    && |s'.threads| == |s.threads|
    && forall t | 0 <= t < |s.threads| && s.threads[t].pc.Client? :: s'.threads[t] == s.threads[t]
  }

  lemma MoveIsNearer(s: Sys, t: nat)
    requires Inv(s) && !s.sh.running && t < |s.threads| && CanMove(s.sh, s.threads[t])
    ensures var l := MoveOf(s.threads[t], t);
            && Enabled(s, l) && Inv(Apply(s, l)) && Apply(s, l).sh.stop == s.sh.stop
            && Measure(Apply(s, l)) < Measure(s) && SameClients(s, Apply(s, l))
  {
    var l := MoveOf(s.threads[t], t);
    var s' := Apply(s, l);
    InvStep(s, l);
    assert ThreadOk(s.sh, t, s.threads[t]);
    SumUpdate(s.threads, t, s'.threads[t], Distance());
    if !s.threads[t].pc.Waits? {
      ActIsNearer(s.sh, t, s.threads[t]);
    }
  }

  lemma ChainFrom(s: Sys, l: Step, states: seq<Sys>, steps: seq<Step>)
    requires Enabled(s, l) && IsChain(states, steps) && states[0] == Apply(s, l)
    ensures IsChain([s] + states, [l] + steps)
  {
  }

  /** With the clients held where they are, all workers can be brought to exit. */
  lemma {:induction false} WorkersExit(s: Sys) returns (states: seq<Sys>, steps: seq<Step>)
    requires Inv(s) && s.sh.stop.Flipped?
    ensures IsChain(states, steps) && states[0] == s
    ensures var end := states[|steps|];
            Inv(end) && end.sh.stop.Flipped? && WorkersGone(end.threads) && SameClients(s, end)
    decreases Measure(s)
  {
    if WorkersGone(s.threads) {
      states, steps := [s], [];
    } else {
      var t := WorkerCanMove(s);
      MoveIsNearer(s, t);
      var l := MoveOf(s.threads[t], t);
      var next, more := WorkersExit(Apply(s, l));
      ChainFrom(s, l, next, more);
      states, steps := [s] + next, [l] + more;
    }
  }

  // ---------------------------------------------------------------- a call completes late

  lemma MutexIsFree(s: Sys)
    requires ThreadsOk(s) && WorkersGone(s.threads)
    ensures s.sh.mutex.None?
  {
    forall t | 0 <= t < |s.threads| ensures s.sh.mutex != Some(t) {
      assert ThreadOk(s.sh, t, s.threads[t]);
    }
  }

  lemma {:induction false} CallCompletes(s: Sys, c: nat) returns (states: seq<Sys>, steps: seq<Step>)
    requires Inv(s) && s.sh.stop.Joined? && c < |s.threads| && s.threads[c].pc.Client? && !s.threads[c].add.NotAdding?
    ensures IsChain(states, steps) && states[0] == s
    ensures states[|steps|].sh.stop.Joined? && states[|steps|].sh.taskNum > 0
    decreases AddDistance(s.threads[c].add)
  {
    forall t | 0 <= t < |s.threads| ensures s.threads[t].pc.Client? || s.threads[t].pc.Exited? {
      assert ThreadOk(s.sh, t, s.threads[t]);
    }
    MutexIsFree(s);
    var s' := Apply(s, Act(c));
    InvStep(s, Act(c));
    var next, more := [s'], [];
    if !s.threads[c].add.Counts? {
      next, more := CallCompletes(s', c);
    }
    ChainFrom(s, Act(c), next, more);
    states, steps := [s] + next, [Act(c)] + more;
  }

  lemma ChainsJoin(states: seq<Sys>, steps: seq<Step>, states': seq<Sys>, steps': seq<Step>)
    requires IsChain(states, steps) && IsChain(states', steps') && states[|steps|] == states'[0]
    ensures IsChain(states + states'[1..], steps + steps')
    ensures (states + states'[1..])[|steps + steps'|] == states'[|steps'|]
  {
    var all, ls := states + states'[1..], steps + steps';
    forall i | 0 <= i < |ls| ensures Enabled(all[i], ls[i]) && all[i + 1] == Apply(all[i], ls[i]) {
      if i < |steps| {
        assert all[i] == states[i] && all[i + 1] == states[i + 1] && ls[i] == steps[i];
      } else {
        var j := i - |steps|;
        assert all[i] == states'[j] && all[i + 1] == states'[j + 1] && ls[i] == steps'[j];
      }
    }
  }

  /** From any state in which a client is inside `add_coroutine`, `stop` can be run so that
      its final assertion fails. */
  lemma LateAddFailsStop(s: Sys, c: nat) returns (states: seq<Sys>, steps: seq<Step>)
    requires Inv(s) && s.sh.stop.Up? && c < |s.threads| && s.threads[c].pc.Client? && !s.threads[c].add.NotAdding?
    ensures StopsFrom(s, states, steps) && states[|steps|].sh.taskNum > 0
  {
    var flipped := Apply(s, Flip);
    InvStep(s, Flip);
    var out, outSteps := WorkersExit(flipped);
    var end := out[|outSteps|];
    var joined := Apply(end, Join);
    InvStep(end, Join);
    var late, lateSteps := CallCompletes(joined, c);
    ChainFrom(end, Join, late, lateSteps);
    ChainsJoin(out, outSteps, [end] + late, [Join] + lateSteps);
    var all, ls := out + ([end] + late)[1..], outSteps + ([Join] + lateSteps);
    ChainFrom(s, Flip, all, ls);
    states, steps := [s] + all, [Flip] + ls;
  }

  // ---------------------------------------------------------------- exactly

  ghost predicate Reachable(s: Sys) {
    exists states, steps :: IsRun(states, steps) && states[|steps|] == s
  }

  /** `stop` begins in `s`, and the workers have been joined at the end. */
  ghost predicate StopsFrom(s: Sys, states: seq<Sys>, steps: seq<Step>) {
    IsChain(states, steps) && states[0] == s && steps != [] && steps[0] == Flip && states[|steps|].sh.stop.Joined?
  }

  lemma CalmStays(s: Sys, l: Step)
    requires Enabled(s, l) && !s.sh.stop.Up?
    ensures Apply(s, l).sh.calm == s.sh.calm && !Apply(s, l).sh.stop.Up?
  {
  }

  lemma WorkerStays(s: Sys, l: Step)
    requires HasWorker(s) && Enabled(s, l)
    ensures HasWorker(Apply(s, l))
  {
    var w :| 0 <= w < |s.threads| && IsWorker(s.threads[w]);
    RoleStays(s, l, w);
    assert IsWorker(Apply(s, l).threads[w]);
  }

  lemma {:induction false} StopIsWatched(s: Sys, states: seq<Sys>, steps: seq<Step>, i: nat)
    requires Inv(s) && s.sh.stop.Up? && HasWorker(s) && NoClientAdds(s.threads)
    requires IsChain(states, steps) && states[0] == s && steps != [] && steps[0] == Flip && 0 < i < |states|
    ensures Inv(states[i]) && HasWorker(states[i]) && states[i].sh.calm && !states[i].sh.stop.Up?
  {
    if i == 1 {
      InvStep(s, Flip);
      WorkerStays(s, Flip);
    } else {
      StopIsWatched(s, states, steps, i - 1);
      InvStep(states[i - 1], steps[i - 1]);
      WorkerStays(states[i - 1], steps[i - 1]);
      CalmStays(states[i - 1], steps[i - 1]);
    }
  }

  /** Without workers nothing moves once nobody adds. */
  ghost predicate Still(s: Sys) {
    && !s.sh.running && s.sh.taskNum == 0
    && forall t | 0 <= t < |s.threads| :: s.threads[t] == Thread(Client, NotAdding)
  }

  lemma {:induction false} StaysStill(states: seq<Sys>, steps: seq<Step>, i: nat)
    requires IsChain(states, steps) && 0 < i < |states| && Still(states[1]) && states[1].sh.stop.Flipped?
    ensures Still(states[i]) && !states[i].sh.stop.Up?
  {
    if i > 1 {
      StaysStill(states, steps, i - 1);
      assert Enabled(states[i - 1], steps[i - 1]);
    }
  }

  /** Where no worker was started, what is counted stays counted. */
  lemma NoWorkerFailsStop(s: Sys) returns (states: seq<Sys>, steps: seq<Step>)
    requires s.sh.stop.Up? && !HasWorker(s) && s.sh.taskNum > 0
    ensures StopsFrom(s, states, steps) && states[|steps|].sh.taskNum > 0
  {
    var flipped := Apply(s, Flip);
    assert WorkersGone(flipped.threads);
    states, steps := [s, flipped, Apply(flipped, Join)], [Flip, Join];
  }

  /** In whatever state `stop` is called, the assertion at its end holds in every way the
      run may go on if and only if no client is inside `add_coroutine` then and there is a
      worker or nothing to do. */
  lemma StopAssertionIff(s: Sys)
    requires Reachable(s) && s.sh.stop.Up?
    ensures (forall states: seq<Sys>, steps: seq<Step> | StopsFrom(s, states, steps) :: states[|steps|].sh.taskNum == 0)
       <==> NoClientAdds(s.threads) && (HasWorker(s) || s.sh.taskNum == 0)
  {
    var run, runSteps :| IsRun(run, runSteps) && run[|runSteps|] == s;
    InvRun(run, runSteps, |runSteps|);
    if !NoClientAdds(s.threads) {
      var c :| 0 <= c < |s.threads| && s.threads[c].pc.Client? && !s.threads[c].add.NotAdding?;
      var states, steps := LateAddFailsStop(s, c);
      assert StopsFrom(s, states, steps);
    } else if HasWorker(s) {
      forall states: seq<Sys>, steps: seq<Step> | StopsFrom(s, states, steps) ensures states[|steps|].sh.taskNum == 0 {
        StopIsWatched(s, states, steps, |steps|);
        GoneIsDrained(states[|steps|]);
      }
    } else if s.sh.taskNum > 0 {
      var states, steps := NoWorkerFailsStop(s);
      assert StopsFrom(s, states, steps);
    } else {
      assert Still(Apply(s, Flip));
      forall states: seq<Sys>, steps: seq<Step> | StopsFrom(s, states, steps) ensures states[|steps|].sh.taskNum == 0 {
        StaysStill(states, steps, |steps|);
      }
    }
  }
}
