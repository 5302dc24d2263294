/** The inductive invariants of the composed system, one predicate per concern, each with
    the lemma that every step keeps it. */
module ExecutorInvariants {
  import opened Options
  import opened ThreadPools
  import opened Sums
  import opened Executor

  // ---------------------------------------------------------------- mutex and lifecycle

  ghost predicate SharedOk(sh: Shared) {
    && (sh.started ==> (sh.pool.running <==> sh.stop == NotStopped))
    && (!sh.started ==> !sh.pool.running && sh.stop == NotStopped)
  }

  ghost predicate ThreadOk(sh: Shared, i: nat, th: Thread) {
    && (HoldsMutex(th) <==> sh.owner == Some(i))
    && (th.role.Parking? ==> sh.pool.queue == [])
    && (th.role.Leaving? || th.role.Checking? ==> MayProceed(sh.pool))
    && (th.role.Taking? ==> sh.pool.queue != [])
    && (!th.call.NoCall? ==> th.role.Outside? || th.role.Running?)
    && (th.role.Running? && !th.role.inBody ==> th.role.task.Handoff?)
    && (!sh.started ==> th.role.Outside? || th.role.Unborn?)
    && (sh.stop != NotStopped ==> !th.role.Unborn?)
    && (th.role.Exited? ==> sh.stop != NotStopped)
  }

  ghost predicate Discipline(s: Sys) {
    && SharedOk(s.sh)
    && (s.sh.owner.Some? ==> s.sh.owner.value < |s.threads|)
    && (forall i | 0 <= i < |s.threads| :: ThreadOk(s.sh, i, s.threads[i]))
    && (exists i | 0 <= i < |s.threads| :: IsWorker(s.threads[i]))
    && (s.sh.stop == Joined || s.sh.stop == Returned ==> AllExited(s.threads))
  }

  lemma ActingThreadOk(sh: Shared, t: nat, th: Thread, a: Action)
    requires SharedOk(sh) && ThreadOk(sh, t, th) && CanAct(sh, th, a)
    ensures SharedOk(ActShared(sh, t, th, a))
    ensures ThreadOk(ActShared(sh, t, th, a), t, ActThread(sh, th, a))
    ensures IsWorker(ActThread(sh, th, a)) <==> IsWorker(th)
    ensures th.role.Exited? ==> ActThread(sh, th, a) == th
    ensures ActShared(sh, t, th, a).owner in {sh.owner, Some(t), None}
    ensures ActShared(sh, t, th, a).stop == sh.stop
  {
  }

  lemma OtherThreadOk(sh: Shared, t: nat, th: Thread, a: Action, i: nat, other: Thread)
    requires SharedOk(sh) && ThreadOk(sh, t, th) && CanAct(sh, th, a)
    requires i != t && ThreadOk(sh, i, other)
    ensures ThreadOk(ActShared(sh, t, th, a), i, other)
  {
  }

  lemma DisciplineAct(s: Sys, t: nat, a: Action)
    requires Discipline(s) && Enabled(s, Act(t, a))
    ensures Discipline(Apply(s, Act(t, a)))
  {
    var s' := Apply(s, Act(t, a));
    ActingThreadOk(s.sh, t, s.threads[t], a);
    forall i | 0 <= i < |s.threads| && i != t
      ensures ThreadOk(s'.sh, i, s'.threads[i])
    {
      OtherThreadOk(s.sh, t, s.threads[t], a, i, s.threads[i]);
    }
    var w :| 0 <= w < |s.threads| && IsWorker(s.threads[w]);
    assert IsWorker(s'.threads[w]);
  }

  lemma DisciplineStep(s: Sys, l: Step)
    requires Discipline(s) && Enabled(s, l)
    ensures Discipline(Apply(s, l))
  {
    if l.Act? {
      DisciplineAct(s, l.t, l.action);
    } else {
      var s' := Apply(s, l);
      forall i | 0 <= i < |s.threads|
        ensures ThreadOk(s'.sh, i, s'.threads[i])
        ensures IsWorker(s'.threads[i]) <==> IsWorker(s.threads[i])
        ensures s.threads[i].role.Exited? ==> s'.threads[i].role.Exited?
      {
        assert ThreadOk(s.sh, i, s.threads[i]);
      }
      var w :| 0 <= w < |s.threads| && IsWorker(s.threads[w]);
      assert IsWorker(s'.threads[w]);
    }
  }

  // ---------------------------------------------------------------- counters

  function Waits(th: Thread): nat {
    if th.role.Testing? || th.role.Parking? || th.role.Blocked? || th.role.Woken? || th.role.Leaving?
    then 1 else 0
  }

  ghost predicate Counters(s: Sys) {
    && s.sh.pool.waiting == Sum(s.threads, Waits)
    && s.sh.pool.taskNum == |s.sh.pool.queue|
  }

  /** Steps other than `Act` do not change a sum that ignores waking and notifying. */
  lemma SumOtherStep(s: Sys, l: Step, f: Thread -> nat)
    requires Enabled(s, l) && !l.Act?
    requires forall th: Thread :: th.role.Blocked? ==> f(th.(role := Woken)) == f(th)
    requires forall th: Thread :: th.call.PoolNotify? ==> f(th.(call := NoCall)) == f(th)
    ensures Sum(Apply(s, l).threads, f) == Sum(s.threads, f)
  {
    SumPointwise(s.threads, Apply(s, l).threads, f);
  }

  lemma CountersStep(s: Sys, l: Step)
    requires Counters(s) && Discipline(s) && Enabled(s, l)
    ensures Counters(Apply(s, l))
  {
    if l.Act? {
      assert ThreadOk(s.sh, l.t, s.threads[l.t]);
      SumUpdate(s.threads, l.t, ActThread(s.sh, s.threads[l.t], l.action), Waits);
    } else {
      SumOtherStep(s, l, Waits);
    }
  }

  // ---------------------------------------------------------------- no lost wake-up

  predicate PushedNotNotified(th: Thread) {
    th.call.PoolCheck? || th.call.PoolNotify?
  }

  predicate AsleepOrGone(th: Thread) {
    th.role.Outside? || th.role.Unborn? || th.role.Exited? || th.role.Blocked?
  }

  /** Every worker that was started and has not exited is asleep, and there is one. */
  predicate AllAsleep(s: Sys) {
    && (exists i | 0 <= i < |s.threads| :: s.threads[i].role.Blocked?)
    && (forall i | 0 <= i < |s.threads| :: AsleepOrGone(s.threads[i]))
  }

  predicate NotificationDue(s: Sys) {
    exists i | 0 <= i < |s.threads| :: PushedNotNotified(s.threads[i])
  }

  ghost predicate NoLostWakeup(s: Sys) {
    AllAsleep(s) && s.sh.pool.queue != [] ==> NotificationDue(s)
  }

  /** What an action can be if everybody is asleep after it and work is queued. */
  lemma ActionWhileAsleep(sh: Shared, t: nat, th: Thread, a: Action)
    requires SharedOk(sh) && ThreadOk(sh, t, th) && CanAct(sh, th, a)
    requires AsleepOrGone(ActThread(sh, th, a)) && ActShared(sh, t, th, a).pool.queue != []
    ensures th.role.Outside? && ActThread(sh, th, a).role == th.role
    ensures !PushedNotNotified(ActThread(sh, th, a)) ==>
              ActShared(sh, t, th, a).pool.queue == sh.pool.queue &&
              (PushedNotNotified(th) ==> sh.pool.waiting <= 0)
  {
  }

  lemma WakeupAct(s: Sys, t: nat, a: Action)
    requires NoLostWakeup(s) && Counters(s) && Discipline(s) && Enabled(s, Act(t, a))
    ensures NoLostWakeup(Apply(s, Act(t, a)))
  {
    var s' := Apply(s, Act(t, a));
    if AllAsleep(s') && s'.sh.pool.queue != [] {
      assert AsleepOrGone(s'.threads[t]) && ThreadOk(s.sh, t, s.threads[t]);
      ActionWhileAsleep(s.sh, t, s.threads[t], a);
      var b :| 0 <= b < |s.threads| && s'.threads[b].role.Blocked?;
      assert s.threads[b].role.Blocked?;
      SumMember(s.threads, b, Waits);
      if PushedNotNotified(s'.threads[t]) {
      } else {
        forall i | 0 <= i < |s.threads| ensures AsleepOrGone(s.threads[i]) {
          assert AsleepOrGone(s'.threads[i]);
        }
        var i :| 0 <= i < |s.threads| && PushedNotNotified(s.threads[i]);
        assert PushedNotNotified(s'.threads[i]);
      }
    }
  }

  lemma WakeupStep(s: Sys, l: Step)
    requires NoLostWakeup(s) && Counters(s) && Discipline(s) && Enabled(s, l)
    ensures NoLostWakeup(Apply(s, l))
  {
    var s' := Apply(s, l);
    match l
    case Act(t, a) => WakeupAct(s, t, a);
    case NotifyOne(t, w) => assert !AsleepOrGone(s'.threads[w]);
    case NotifyNobody(t) =>
      assert forall i | 0 <= i < |s.threads| :: s'.threads[i].role == s.threads[i].role;
    case NotifyAll =>
    case Clear =>
    case StartPool | Flip | JoinAll =>
      assert AllAsleep(s') ==> AllAsleep(s);
      assert NotificationDue(s) ==> NotificationDue(s');
  }
}
