/** A run in which `stop` destroys a strand's hand-off, so that the strand never runs again. */
module ExecutorWitness {
  import opened Options
  import opened ThreadPools
  import opened Strands
  import opened Executor
  import opened ExecutorTheorems

  ghost predicate Reachable(s: Sys) {
    exists states, steps :: IsRun(states, steps) && states[|steps|] == s
  }

  lemma Reaches(s: Sys, l: Step, next: Sys)
    requires Reachable(s) && Enabled(s, l) && next == Apply(s, l)
    ensures Reachable(next)
  {
    var states, steps :| IsRun(states, steps) && states[|steps|] == s;
    var states', steps' := states + [next], steps + [l];
    forall i | 0 <= i < |steps'| ensures Enabled(states'[i], steps'[i]) && states'[i + 1] == Apply(states'[i], steps'[i]) {
      if i < |steps| {
        assert states'[i] == states[i] && states'[i + 1] == states[i + 1] && steps'[i] == steps[i];
      }
    }
    assert IsRun(states', steps');
  }

  lemma Starts(s: Sys)
    requires Init(s)
    ensures Reachable(s)
  {
    assert IsRun([s], []);
  }

  function Bare(waiting: int, running: bool, owner: Option<nat>, stop: StopPhase): Shared {
    Shared(PoolState([], 0, waiting, running), owner, StrandState([], false), true, stop, [], [], [], [], [], [], [])
  }

  /** An outside thread inside some call, and one worker. */
  function Beside(role: Role, call: Call): seq<Thread> {
    [Thread(Outside, call), Thread(role, NoCall)]
  }

  lemma WorkerActs(sh: Shared, role: Role, a: Action, sh': Shared, role': Role)
    requires Reachable(Sys(sh, Beside(role, NoCall))) && CanAct(sh, Thread(role, NoCall), a)
    requires sh' == ActShared(sh, 1, Thread(role, NoCall), a)
    requires Thread(role', NoCall) == ActThread(sh, Thread(role, NoCall), a)
    ensures Reachable(Sys(sh', Beside(role', NoCall)))
  {
    assert Beside(role, NoCall)[1 := Thread(role', NoCall)] == Beside(role', NoCall);
    Reaches(Sys(sh, Beside(role, NoCall)), Act(1, a), Sys(sh', Beside(role', NoCall)));
  }

  lemma OutsideActs(sh: Shared, call: Call, a: Action, sh': Shared, call': Call)
    requires Reachable(Sys(sh, Beside(Exited, call))) && CanAct(sh, Thread(Outside, call), a)
    requires sh' == ActShared(sh, 0, Thread(Outside, call), a)
    requires Thread(Outside, call') == ActThread(sh, Thread(Outside, call), a)
    ensures Reachable(Sys(sh', Beside(Exited, call')))
  {
    assert Beside(Exited, call)[0 := Thread(Outside, call')] == Beside(Exited, call');
    Reaches(Sys(sh, Beside(Exited, call)), Act(0, a), Sys(sh', Beside(Exited, call')));
  }

  lemma PoolStarts()
    ensures Reachable(Sys(Bare(0, true, None, NotStopped), Beside(Unborn, NoCall)))
  {
    var s := Sys(Bare(0, false, None, NotStopped).(started := false), Beside(Unborn, NoCall));
    assert s.threads[1].role.Unborn?;
    Starts(s);
    Reaches(s, StartPool, Sys(Bare(0, true, None, NotStopped), Beside(Unborn, NoCall)));
  }

  /** The pool is stopped before its worker has looked at anything. */
  lemma StopsAtOnce()
    ensures Reachable(Sys(Bare(0, false, None, Notified), Beside(AtLoop, NoCall)))
  {
    PoolStarts();
    WorkerActs(Bare(0, true, None, NotStopped), Unborn, Spawn, Bare(0, true, None, NotStopped), AtLoop);
    var s := Sys(Bare(0, false, None, Flipped), Beside(AtLoop, NoCall));
    Reaches(Sys(Bare(0, true, None, NotStopped), Beside(AtLoop, NoCall)), Flip, s);
    assert WakeAll(s.threads) == s.threads;
    Reaches(s, NotifyAll, Sys(Bare(0, false, None, Notified), Beside(AtLoop, NoCall)));
  }

  /** The worker enters the wait and leaves it, because `running_` is clear. */
  lemma WorkerTests()
    ensures Reachable(Sys(Bare(1, false, Some(1), Notified), Beside(Leaving, NoCall)))
  {
    StopsAtOnce();
    var held, waits := Bare(0, false, Some(1), Notified), Bare(1, false, Some(1), Notified);
    WorkerActs(Bare(0, false, None, Notified), AtLoop, Acquire, held, Entered);
    WorkerActs(held, Entered, Enter, waits, Testing);
    WorkerActs(waits, Testing, Test, waits, Leaving);
  }

  lemma WorkerExitsIdle()
    ensures Reachable(Sys(Bare(0, false, None, Joined), Beside(Exited, NoCall)))
  {
    WorkerTests();
    var free, held := Bare(0, false, None, Notified), Bare(0, false, Some(1), Notified);
    WorkerActs(Bare(1, false, Some(1), Notified), Leaving, Leave, held, Checking);
    WorkerActs(held, Checking, CheckExit, free, Exited);
    Reaches(Sys(free, Beside(Exited, NoCall)), JoinAll, Sys(free.(stop := Joined), Beside(Exited, NoCall)));
  }

  /** After the job was popped from the strand and its hand-off pushed. */
  function LatePushed(job: nat): Shared {
    Bare(0, false, None, Joined).(
      strand := StrandState([], true), strandPushed := [job],
      pushed := [Handoff(job)], late := [true], pool := PoolState([Handoff(job)], 1, 0, false))
  }

  lemma LatePushReached(job: nat)
    ensures Reachable(Sys(LatePushed(job), Beside(Exited, NoCall)))
  {
    WorkerExitsIdle();
    var sh := Bare(0, false, None, Joined);
    var queued := sh.(strandPushed := [job], strand := StrandState([job], true));
    var popped := sh.(strandPushed := [job], strand := StrandState([], true));
    OutsideActs(sh, NoCall, BeginStrandAdd(job), sh, StrandPush(job));
    OutsideActs(sh, StrandPush(job), StrandAdd, queued, SchedNext);
    OutsideActs(queued, SchedNext, Schedule, popped, PoolPush(Handoff(job)));
    OutsideActs(popped, PoolPush(Handoff(job)), Push, LatePushed(job), PoolCheck);
    OutsideActs(LatePushed(job), PoolCheck, CheckWaiters, LatePushed(job), NoCall);
  }

  /** A `Strand::addTask` between the join and the clearing of the queue: its hand-off is
      destroyed and `running_` stays set with no token anywhere. */
  lemma StopDestroysHandoff(job: nat) returns (s: Sys)
    ensures Reachable(s) && s.sh.stop == Returned
    ensures HandoffDestroyed(s) && !TokenInPlay(s) && s.sh.strand.running
    ensures s.sh.strandPushed == [job] && s.sh.strandDone == []
  {
    LatePushReached(job);
    var end := LatePushed(job).(stop := Returned, pool := PoolState([], 0, 0, false), dropped := [Handoff(job)]);
    s := Sys(end, Beside(Exited, NoCall));
    Reaches(Sys(LatePushed(job), Beside(Exited, NoCall)), Clear, s);
    assert s.sh.dropped[0].Handoff?;
  }
}
