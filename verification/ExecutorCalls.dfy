/** From the caller's side: what a call submits is what is queued and run, and whom `stop` wakes. */
module ExecutorCalls {
  import opened ThreadPools
  import opened Executor
  import opened ExecutorInvariants
  import opened ExecutorHistory
  import opened ExecutorTheorems

  // ---------------------------------------------------------------- what was submitted is what runs

  /** A call, once begun, carries its task until its own push, whatever the others do. */
  lemma CallStays(s: Sys, l: Step, t: nat)
    requires Discipline(s) && Enabled(s, l) && t < |s.threads|
    ensures s.threads[t].call.PoolPush? && l != Act(t, Push) ==> Apply(s, l).threads[t].call == s.threads[t].call
    ensures s.threads[t].call.StrandPush? && l != Act(t, StrandAdd) ==> Apply(s, l).threads[t].call == s.threads[t].call
    ensures |Apply(s, l).threads| == |s.threads|
  {
    assert ThreadOk(s.sh, t, s.threads[t]);
  }

  lemma {:induction false} PoolCallStays(states: seq<Sys>, steps: seq<Step>, t: nat, j: nat, k: nat, id: nat)
    requires IsRun(states, steps) && j < k < |states| && steps[j] == Act(t, BeginPoolAdd(id))
    requires forall m | j < m < k :: steps[m] != Act(t, Push)
    ensures t < |states[k].threads| && states[k].threads[t].call == PoolPush(Plain(id))
  {
    if k == j + 1 {
      assert Enabled(states[j], steps[j]);
    } else {
      PoolCallStays(states, steps, t, j, k - 1, id);
      DisciplineRun(states, steps, k - 1);
      CallStays(states[k - 1], steps[k - 1], t);
    }
  }

  /** The task passed to `addTask` is the one queued: the first push of the thread after the
      call began appends it to the history, where its ticket is. */
  lemma SubmittedIsQueued(states: seq<Sys>, steps: seq<Step>, t: nat, j: nat, k: nat, id: nat)
    requires IsRun(states, steps) && j < k < |steps|
    requires steps[j] == Act(t, BeginPoolAdd(id)) && steps[k] == Act(t, Push)
    requires forall m | j < m < k :: steps[m] != Act(t, Push)
    ensures states[k + 1].sh.pushed == states[k].sh.pushed + [Plain(id)]
    ensures states[k + 1].sh.pool.queue == states[k].sh.pool.queue + [Plain(id)]
  {
    PoolCallStays(states, steps, t, j, k, id);
  }

  lemma TakenOfPushed(s: Sys, k: nat)
    requires Logs(s) && k < |s.sh.taken|
    ensures k < |s.sh.pushed| && s.sh.taken[k] == s.sh.pushed[k]
  {
  }

  /** And it is the one that runs: a worker runs under a ticket exactly the task pushed with it. */
  lemma WorkersRunWhatWasPushed(states: seq<Sys>, steps: seq<Step>, i: nat, w: nat)
    requires IsRun(states, steps) && i < |states| && w < |states[i].threads| && states[i].threads[w].role.Running?
    ensures var role := states[i].threads[w].role;
            role.ticket < |states[i].sh.pushed| && states[i].sh.pushed[role.ticket] == role.task
  {
    InvRun(states, steps, i);
    assert RunsOwnTicket(states[i].sh, states[i].threads[w]);
    TakenOfPushed(states[i], states[i].threads[w].role.ticket);
  }

  /** A task submitted before the flip, or by a task on a worker, has been taken under its ticket and
      executed exactly once when `stop` has returned. */
  lemma SubmittedIsRun(states: seq<Sys>, steps: seq<Step>, t: nat, j: nat, k: nat, id: nat, i: nat)
    requires IsRun(states, steps) && j < k < i < |states|
    requires steps[j] == Act(t, BeginPoolAdd(id)) && steps[k] == Act(t, Push)
    requires forall m | j < m < k :: steps[m] != Act(t, Push)
    requires states[k].sh.stop == NotStopped || IsWorker(states[k].threads[t])
    requires states[i].sh.stop == Returned
    ensures var ticket := |states[k].sh.pushed|;
            && ticket < |states[i].sh.taken| && states[i].sh.taken[ticket] == Plain(id)
            && multiset(states[i].sh.finished)[ticket] == 1
  {
    var ticket := |states[k].sh.pushed|;
    SubmittedIsQueued(states, steps, t, j, k, id);
    DrainOnStop(states, steps, k, t, i);
    LogsGrow(states, steps, k + 1, i);
    assert states[k + 1].sh.pushed[ticket] == Plain(id);
    FinishedIsTaken(states, steps, i, ticket);
  }

  lemma FinishedIsTaken(states: seq<Sys>, steps: seq<Step>, i: nat, ticket: nat)
    requires IsRun(states, steps) && i < |states| && multiset(states[i].sh.finished)[ticket] == 1
    ensures ticket < |states[i].sh.taken| && ticket < |states[i].sh.pushed|
    ensures states[i].sh.taken[ticket] == states[i].sh.pushed[ticket]
  {
    InvRun(states, steps, i);
    assert Executions(states[i], ticket) >= 1;
    TakenOfPushed(states[i], ticket);
  }

  lemma {:induction false} StrandCallStays(states: seq<Sys>, steps: seq<Step>, t: nat, j: nat, k: nat, job: nat)
    requires IsRun(states, steps) && j < k < |states| && steps[j] == Act(t, BeginStrandAdd(job))
    requires forall m | j < m < k :: steps[m] != Act(t, StrandAdd)
    ensures t < |states[k].threads| && states[k].threads[t].call == StrandPush(job)
  {
    if k == j + 1 {
      assert Enabled(states[j], steps[j]);
    } else {
      StrandCallStays(states, steps, t, j, k - 1, job);
      DisciplineRun(states, steps, k - 1);
      CallStays(states[k - 1], steps[k - 1], t);
    }
  }

  /** The job passed to `Strand::addTask` is the one queued on the strand. */
  lemma SubmittedJobIsQueued(states: seq<Sys>, steps: seq<Step>, t: nat, j: nat, k: nat, job: nat)
    requires IsRun(states, steps) && j < k < |steps|
    requires steps[j] == Act(t, BeginStrandAdd(job)) && steps[k] == Act(t, StrandAdd)
    requires forall m | j < m < k :: steps[m] != Act(t, StrandAdd)
    ensures states[k + 1].sh.strandPushed == states[k].sh.strandPushed + [job]
    ensures states[k + 1].sh.strand.queue == states[k].sh.strand.queue + [job] && states[k + 1].sh.strand.running
  {
    StrandCallStays(states, steps, t, j, k, job);
  }

  // ---------------------------------------------------------------- who stop wakes

  predicate Dozing(th: Thread) {
    th.role.Parking? || th.role.Blocked?
  }

  predicate DozesAsBefore(th: Thread, th': Thread) {
    (Dozing(th') ==> Dozing(th)) && (th'.role.Parking? ==> th.role.Parking?)
  }

  /** Once `running_` is clear, no test of the wait predicate ends in waiting. */
  lemma NobodyDozesOff(s: Sys, l: Step, w: nat)
    requires Discipline(s) && Enabled(s, l) && s.sh.stop != NotStopped && w < |s.threads|
    ensures w < |Apply(s, l).threads| && Apply(s, l).sh.stop != NotStopped
    ensures DozesAsBefore(s.threads[w], Apply(s, l).threads[w])
    ensures l.NotifyAll? ==> !Apply(s, l).threads[w].role.Blocked?
  {
  }

  lemma {:induction false} DozedSince(states: seq<Sys>, steps: seq<Step>, w: nat, f: nat, i: nat)
    requires IsRun(states, steps) && f <= i < |states| && states[f].sh.stop != NotStopped && w < |states[f].threads|
    ensures w < |states[i].threads| && states[i].sh.stop != NotStopped
    ensures DozesAsBefore(states[f].threads[w], states[i].threads[w])
  {
    if f < i {
      DozedSince(states, steps, w, f, i - 1);
      DisciplineRun(states, steps, i - 1);
      var s, l := states[i - 1], steps[i - 1];
      assert Enabled(s, l) && states[i] == Apply(s, l);
      NobodyDozesOff(s, l, w);
    }
  }

  /** Right after `notify_all` nobody is asleep; and a worker found asleep later had tested its
      predicate before the flip and was then on its way into the wait: the window in which a
      notification without the mutex is missed. */
  lemma NotifyAllMisses(states: seq<Sys>, steps: seq<Step>, n: nat, i: nat, w: nat)
    requires IsRun(states, steps) && n < i < |states| && steps[n] == NotifyAll && w < |states[i].threads|
    ensures i == n + 1 ==> !states[i].threads[w].role.Blocked?
    ensures states[i].threads[w].role.Blocked? ==> w < |states[n].threads| && states[n].threads[w].role.Parking?
  {
    assert Enabled(states[n], steps[n]);
    DisciplineRun(states, steps, n);
    ThreadsStay(states, steps, n, i);
    NobodyDozesOff(states[n], steps[n], w);
    DozedSince(states, steps, w, n + 1, i);
  }

  /** And it had been there since the flip. */
  lemma MissedSinceFlip(states: seq<Sys>, steps: seq<Step>, f: nat, n: nat, i: nat, w: nat)
    requires IsRun(states, steps) && f < n < i < |states| && steps[f] == Flip && steps[n] == NotifyAll
    requires w < |states[i].threads| && states[i].threads[w].role.Blocked?
    ensures w < |states[f].threads| && states[f].threads[w].role.Parking?
  {
    NotifyAllMisses(states, steps, n, i, w);
    ThreadsStay(states, steps, f, n);
    assert Enabled(states[f], steps[f]);
    assert states[f + 1].sh.stop == Flipped && states[f + 1].threads == states[f].threads;
    DozedSince(states, steps, w, f + 1, n);
  }

  lemma {:induction false} ThreadsStay(states: seq<Sys>, steps: seq<Step>, j: nat, i: nat)
    requires IsRun(states, steps) && j <= i < |states|
    ensures |states[i].threads| == |states[j].threads|
  {
    if j < i {
      ThreadsStay(states, steps, j, i - 1);
      assert states[i] == Apply(states[i - 1], steps[i - 1]);
    }
  }
}
