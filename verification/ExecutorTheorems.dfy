/** The guarantees of the strand and the pool, for every state of every run. */
module ExecutorTheorems {
  import opened ThreadPools
  import opened Strands
  import opened Sums
  import opened Executor
  import opened ExecutorInvariants
  import opened ExecutorHistory

  ghost predicate Inv(s: Sys) {
    && Discipline(s) && Counters(s) && NoLostWakeup(s)
    && Logs(s) && Tickets(s) && Drained(s)
    && exists p :: StrandOk(s, p)
  }

  lemma DisciplineInit(s: Sys)
    requires Init(s)
    ensures Discipline(s) && Counters(s) && NoLostWakeup(s)
  {
    SumZero(s.threads, Waits);
    var w :| 0 <= w < |s.threads| && s.threads[w].role.Unborn?;
    assert IsWorker(s.threads[w]);
  }

  lemma InvInit(s: Sys)
    requires Init(s)
    ensures Inv(s)
  {
    DisciplineInit(s);
    forall k: nat ensures Executions(s, k) == 0 {
      SumZero(s.threads, RunsTicket(k));
    }
    assert StrandOk(s, Nowhere);
  }

  lemma InvStep(s: Sys, l: Step)
    requires Inv(s) && Enabled(s, l)
    ensures Inv(Apply(s, l))
  {
    DisciplineStep(s, l);
    CountersStep(s, l);
    WakeupStep(s, l);
    LogsStep(s, l);
    TicketsStep(s, l);
    DrainedStep(s, l);
    var p :| StrandOk(s, p);
    var p' := StrandStep(s, l, p);
  }

  lemma {:induction false} InvRun(states: seq<Sys>, steps: seq<Step>, i: nat)
    requires IsRun(states, steps) && i < |states|
    ensures Inv(states[i])
  {
    if i == 0 {
      InvInit(states[0]);
    } else {
      InvRun(states, steps, i - 1);
      InvStep(states[i - 1], steps[i - 1]);
    }
  }

  // ---------------------------------------------------------------- serialisation

  lemma TokenIsUnique(s: Sys, p: Place, q: Place)
    requires TokenAt(s, p) && TokenAt(s, q)
    ensures p == q
  {
    assert p.AtThread? ==> Tokens(s.threads[p.t]) == 1;
    assert q.AtThread? ==> Tokens(s.threads[q.t]) == 1;
    assert p.InPool? ==> s.sh.pool.queue[p.i].Handoff?;
    assert q.InPool? ==> s.sh.pool.queue[q.i].Handoff?;
    assert p.Destroyed? ==> s.sh.dropped[p.i].Handoff?;
    assert q.Destroyed? ==> s.sh.dropped[q.i].Handoff?;
  }

  lemma TokenRun(states: seq<Sys>, steps: seq<Step>, i: nat) returns (p: Place)
    requires IsRun(states, steps) && i < |states|
    ensures StrandOk(states[i], p)
  {
    InvRun(states, steps, i);
    p :| StrandOk(states[i], p);
  }

  /** A thread holds the hand-off token, or it waits in the pool's queue. */
  ghost predicate TokenInPlay(s: Sys) {
    || (exists t | 0 <= t < |s.threads| :: Tokens(s.threads[t]) > 0)
    || (exists i | 0 <= i < |s.sh.pool.queue| :: s.sh.pool.queue[i].Handoff?)
  }

  /** `stop` has destroyed a hand-off together with the pool's queue. */
  ghost predicate HandoffDestroyed(s: Sys) {
    exists i | 0 <= i < |s.sh.dropped| :: s.sh.dropped[i].Handoff?
  }

  lemma PlaceMeans(s: Sys, p: Place)
    requires TokenAt(s, p)
    ensures TokenInPlay(s) <==> p.AtThread? || p.InPool?
    ensures HandoffDestroyed(s) <==> p.Destroyed?
  {
    if p.AtThread? {
      assert Tokens(s.threads[p.t]) == 1;
    }
    if p.InPool? {
      assert s.sh.pool.queue[p.i].Handoff?;
    }
    if p.Destroyed? {
      assert s.sh.dropped[p.i].Handoff?;
    }
  }

  /** Strand jobs run one at a time and in push order: the finished ones, then the one popped
      and not finished, then the queue are the jobs pushed.  There is one token at most, and a
      job is queued only while the flag is set. */
  lemma StrandSerialises(states: seq<Sys>, steps: seq<Step>, i: nat)
    requires IsRun(states, steps) && i < |states|
    ensures var s := states[i];
            && (forall t, u | 0 <= t < |s.threads| && 0 <= u < |s.threads| ::
                  RunsJob(s.threads[t]) && RunsJob(s.threads[u]) ==> t == u)
            && (exists p ::
                  && TokenAt(s, p) && |InFlight(s, p)| <= 1
                  && s.sh.strandDone + InFlight(s, p) + s.sh.strand.queue == s.sh.strandPushed
                  && (forall t | 0 <= t < |s.threads| && RunsJob(s.threads[t]) ::
                        p == AtThread(t) && InFlight(s, p) == [s.threads[t].role.task.job]))
            && (forall p, q :: TokenAt(s, p) && TokenAt(s, q) ==> p == q)
            && (s.sh.strand.queue != [] ==> s.sh.strand.running)
  {
    var s := states[i];
    var p := TokenRun(states, steps, i);
    forall t | 0 <= t < |s.threads| && RunsJob(s.threads[t])
      ensures p == AtThread(t) && InFlight(s, p) == [s.threads[t].role.task.job]
    {
      assert Tokens(s.threads[t]) > 0;
    }
    forall p, q | TokenAt(s, p) && TokenAt(s, q) ensures p == q {
      TokenIsUnique(s, p, q);
    }
  }

  /** `running_` is set exactly while the token is in play, if and only if `stop` has not
      destroyed it; and it is set in either case. */
  lemma FlagFollowsToken(states: seq<Sys>, steps: seq<Step>, i: nat)
    requires IsRun(states, steps) && i < |states|
    ensures var s := states[i];
            && ((s.sh.strand.running <==> TokenInPlay(s)) <==> !HandoffDestroyed(s))
            && (s.sh.strand.running <==> TokenInPlay(s) || HandoffDestroyed(s))
            && !(TokenInPlay(s) && HandoffDestroyed(s))
  {
    var p := TokenRun(states, steps, i);
    PlaceMeans(states[i], p);
  }

  lemma DestroyedIsLate(s: Sys, k: nat)
    requires Discipline(s) && Logs(s) && Drained(s) && k < |s.sh.dropped|
    ensures |s.sh.taken| + k < |s.sh.pushed| && |s.sh.late| == |s.sh.pushed|
    ensures s.sh.pushed[|s.sh.taken| + k] == s.sh.dropped[k] && s.sh.late[|s.sh.taken| + k]
  {
    assert s.sh.pushed[|s.sh.taken| + k] == Untaken(s.sh)[k];
  }

  /** What `stop` destroys was pushed by an outside thread after the flag was cleared. */
  lemma OnlyLateTasksAreDestroyed(states: seq<Sys>, steps: seq<Step>, i: nat, k: nat)
    requires IsRun(states, steps) && i < |states| && k < |states[i].sh.dropped|
    ensures var sh := states[i].sh;
            && |sh.taken| + k < |sh.pushed| == |sh.late|
            && sh.pushed[|sh.taken| + k] == sh.dropped[k] && sh.late[|sh.taken| + k]
  {
    InvRun(states, steps, i);
    DestroyedIsLate(states[i], k);
  }

  lemma DestroyedStays(s: Sys, l: Step, p: Place)
    requires StrandOk(s, p) && HandoffDestroyed(s) && Enabled(s, l)
    ensures HandoffDestroyed(Apply(s, l)) && Apply(s, l).sh.strandDone == s.sh.strandDone
  {
    PlaceMeans(s, p);
    var k :| 0 <= k < |s.sh.dropped| && s.sh.dropped[k].Handoff?;
    assert Apply(s, l).sh.dropped[k].Handoff?;
    assert l.Act? ==> Tokens(s.threads[l.t]) == 0;
  }

  /** Once a hand-off is destroyed the strand is dead: the flag stays set and no job is ever
      finished again, whatever is submitted. */
  lemma {:induction false} DestroyedStrandIsDead(states: seq<Sys>, steps: seq<Step>, j: nat, i: nat)
    requires IsRun(states, steps) && j <= i < |states| && HandoffDestroyed(states[j])
    ensures HandoffDestroyed(states[i]) && states[i].sh.strand.running
    ensures states[i].sh.strandDone == states[j].sh.strandDone
  {
    if j < i {
      DestroyedStrandIsDead(states, steps, j, i - 1);
      var p := TokenRun(states, steps, i - 1);
      DestroyedStays(states[i - 1], steps[i - 1], p);
    }
    FlagFollowsToken(states, steps, i);
  }

  // ---------------------------------------------------------------- wake-up

  predicate Live(th: Thread) {
    IsWorker(th) && !th.role.Unborn? && !th.role.Exited?
  }

  /** While a started worker is left and a task is queued, some worker is awake or some
      thread is between its push and its notification; and in the second case the
      unlocked read of `waiting_threads_` cannot skip the notification. */
  lemma NoSubmissionIsLost(states: seq<Sys>, steps: seq<Step>, i: nat)
    requires IsRun(states, steps) && i < |states|
    ensures var s := states[i];
            s.sh.pool.queue != [] && (exists w | 0 <= w < |s.threads| :: Live(s.threads[w])) ==>
              || (exists w | 0 <= w < |s.threads| :: Live(s.threads[w]) && !s.threads[w].role.Blocked?)
              || (NotificationDue(s) && s.sh.pool.waiting > 0)
  {
    InvRun(states, steps, i);
    var s := states[i];
    if w :| 0 <= w < |s.threads| && Live(s.threads[w]) {
      if s.threads[w].role.Blocked? {
        SumMember(s.threads, w, Waits);
        if forall v | 0 <= v < |s.threads| :: Live(s.threads[v]) ==> s.threads[v].role.Blocked? {
          assert AllAsleep(s);
        }
      }
    }
  }

  lemma DisciplineRun(states: seq<Sys>, steps: seq<Step>, i: nat)
    requires IsRun(states, steps) && i < |states|
    ensures Discipline(states[i])
  {
    InvRun(states, steps, i);
  }

  lemma TakerSeesTask(s: Sys, w: nat)
    requires Discipline(s) && Enabled(s, Act(w, Take))
    ensures s.sh.pool.queue != []
  {
    assert ThreadOk(s.sh, w, s.threads[w]);
  }

  /** A worker that reaches the pop always finds a task. */
  lemma PopFindsTask(states: seq<Sys>, steps: seq<Step>, i: nat, w: nat)
    requires IsRun(states, steps) && i < |steps| && steps[i] == Act(w, Take)
    ensures states[i].sh.pool.queue != []
  {
    DisciplineRun(states, steps, i);
    TakerSeesTask(states[i], w);
  }

  /** A worker alone in the locked part of its loop takes the steps that make up the region. */
  lemma RegionIsItsSteps(sh: Shared, t: nat)
    ensures var entered := Thread(Entered, NoCall);
            var sh1, tested := ActShared(sh, t, entered, Enter), ActThread(sh, entered, Enter);
            var sh2, left := ActShared(sh1, t, tested, Test), ActThread(sh1, tested, Test);
            var (pool, outcome) := WorkerRegion(sh.pool);
            && (outcome.MustWait? <==> left.role.Parking?) && (left.role.Parking? ==> sh2.pool == pool)
            && (left.role.Leaving? ==>
                  var sh3, checks := ActShared(sh2, t, left, Leave), ActThread(sh2, left, Leave);
                  var sh4, takes := ActShared(sh3, t, checks, CheckExit), ActThread(sh3, checks, CheckExit);
                  && (outcome.Exits? <==> takes.role.Exited?) && (takes.role.Exited? ==> sh4.pool == pool)
                  && (takes.role.Taking? ==>
                        && ActShared(sh4, t, takes, Take).pool == pool && outcome.Takes?
                        && ActThread(sh4, takes, Take).role == Running(outcome.task, |sh.taken|, true)))
  {
  }

  // ---------------------------------------------------------------- drain on stop

  predicate Grown(sh: Shared, sh': Shared) {
    sh.pushed <= sh'.pushed && sh.late <= sh'.late
  }

  lemma LogsGrowOnce(s: Sys, l: Step)
    requires Enabled(s, l)
    ensures Grown(s.sh, Apply(s, l).sh)
  {
  }

  lemma GrownTwice(a: Shared, b: Shared, c: Shared)
    requires Grown(a, b) && Grown(b, c)
    ensures Grown(a, c)
  {
  }

  lemma {:induction false} GrownAlong(shs: seq<Shared>, j: nat, i: nat)
    requires forall k | 0 < k < |shs| :: Grown(shs[k - 1], shs[k])
    requires j <= i < |shs|
    ensures Grown(shs[j], shs[i])
  {
    if j < i {
      GrownAlong(shs, j, i - 1);
      GrownTwice(shs[j], shs[i - 1], shs[i]);
    }
  }

  lemma LogsGrow(states: seq<Sys>, steps: seq<Step>, j: nat, i: nat)
    requires IsRun(states, steps) && j <= i < |states|
    ensures Grown(states[j].sh, states[i].sh)
  {
    var shs := seq(|states|, k requires 0 <= k < |states| => states[k].sh);
    forall k | 0 < k < |shs| ensures Grown(shs[k - 1], shs[k]) {
      LogsGrowOnce(states[k - 1], steps[k - 1]);
    }
    GrownAlong(shs, j, i);
  }

  /** When `stop` has returned, every task pushed before it cleared `running_`, and every
      task pushed by a task that a worker ran, has been executed exactly once. */
  lemma DrainOnStop(states: seq<Sys>, steps: seq<Step>, j: nat, t: nat, i: nat)
    requires IsRun(states, steps) && j < i < |states|
    requires steps[j] == Act(t, Push)
    requires states[j].sh.stop == NotStopped || IsWorker(states[j].threads[t])
    requires states[i].sh.stop == Returned
    ensures multiset(states[i].sh.finished)[|states[j].sh.pushed|] == 1
  {
    var k := |states[j].sh.pushed|;
    var s := states[i];
    InvRun(states, steps, j);
    InvRun(states, steps, j + 1);
    InvRun(states, steps, i);
    LogsGrow(states, steps, j + 1, i);
    assert states[j + 1] == Apply(states[j], steps[j]);
    assert !states[j + 1].sh.late[k];
    assert !s.sh.late[k];
    assert k < |s.sh.taken|;
    assert Executions(s, k) == 1;
    SumZero(s.threads, RunsTicket(k));
  }

  /** No task is executed twice, whatever is stopped or dropped. */
  lemma AtMostOnce(states: seq<Sys>, steps: seq<Step>, i: nat, k: nat)
    requires IsRun(states, steps) && i < |states|
    ensures multiset(states[i].sh.finished)[k] <= 1
  {
    InvRun(states, steps, i);
    assert Executions(states[i], k) <= 1;
  }

  // ---------------------------------------------------------------- strands and stop

  predicate InStrandCall(th: Thread) {
    th.call.StrandPush? || th.call.SchedNext? || CarriesHandoff(th)
  }

  /** No outside thread is inside `Strand::addTask`, and none has pushed a hand-off late. */
  ghost predicate StrandQuiet(s: Sys) {
    && (forall t | 0 <= t < |s.threads| && s.threads[t].role.Outside? :: !InStrandCall(s.threads[t]))
    && |s.sh.late| == |s.sh.pushed|
    && (forall k | 0 <= k < |s.sh.late| :: s.sh.late[k] ==> s.sh.pushed[k].Plain?)
  }

  lemma StrandQuietStep(s: Sys, l: Step)
    requires Discipline(s) && StrandQuiet(s) && Enabled(s, l)
    requires l.Act? && s.threads[l.t].role.Outside? ==> !l.action.BeginStrandAdd?
    ensures StrandQuiet(Apply(s, l))
  {
    var s' := Apply(s, l);
    forall t | 0 <= t < |s.threads| && s'.threads[t].role.Outside?
      ensures !InStrandCall(s'.threads[t])
    {
      assert ThreadOk(s.sh, t, s.threads[t]);
    }
  }

  lemma {:induction false} StrandStaysQuiet(states: seq<Sys>, steps: seq<Step>, f: nat, i: nat)
    requires IsRun(states, steps) && f <= i < |states|
    requires StrandQuiet(states[f])
    requires forall j | f <= j < i ::
               steps[j].Act? && steps[j].action.BeginStrandAdd? ==> IsWorker(states[j].threads[steps[j].t])
    ensures StrandQuiet(states[i])
  {
    if f < i {
      StrandStaysQuiet(states, steps, f, i - 1);
      DisciplineRun(states, steps, i - 1);
      StrandQuietStep(states[i - 1], steps[i - 1]);
    }
  }

  /** If every outside call of `Strand::addTask` had returned when `stop` cleared
      `running_`, and none began later, then a returned `stop` leaves the strand empty and
      idle, with all its jobs done in push order. */
  lemma StrandDrainsOnStop(states: seq<Sys>, steps: seq<Step>, f: nat, i: nat)
    requires IsRun(states, steps) && f < i < |states| && steps[f] == Flip
    requires forall t | 0 <= t < |states[f].threads| ::
               states[f].threads[t].role.Outside? ==> !InStrandCall(states[f].threads[t])
    requires forall j | f <= j < i ::
               steps[j].Act? && steps[j].action.BeginStrandAdd? ==>
                 IsWorker(states[j].threads[steps[j].t])
    requires states[i].sh.stop == Returned
    ensures states[i].sh.strand == StrandState([], false)
    ensures states[i].sh.strandDone == states[i].sh.strandPushed
  {
    InvRun(states, steps, f);
    assert Enabled(states[f], steps[f]);
    StrandStaysQuiet(states, steps, f, i);
    InvRun(states, steps, i);
    QuietHasNoToken(states[i]);
    var p := TokenRun(states, steps, i);
    TokenIsUnique(states[i], p, Nowhere);
  }

  lemma QuietHasNoToken(s: Sys)
    requires Discipline(s) && Logs(s) && Drained(s) && StrandQuiet(s) && s.sh.stop == Returned
    ensures TokenAt(s, Nowhere)
  {
    forall k | 0 <= k < |Untaken(s.sh)| ensures Untaken(s.sh)[k].Plain? {
      assert s.sh.late[|s.sh.taken| + k];
      assert s.sh.pushed[|s.sh.taken| + k] == Untaken(s.sh)[k];
    }
    forall k | 0 <= k < |s.sh.dropped| ensures s.sh.dropped[k].Plain? {
      assert s.sh.dropped[k] == Untaken(s.sh)[k];
    }
    forall k | 0 <= k < |s.sh.pool.queue| ensures s.sh.pool.queue[k].Plain? {
      assert s.sh.pool.queue[k] == Untaken(s.sh)[|s.sh.dropped| + k];
    }
    forall t | 0 <= t < |s.threads| ensures Tokens(s.threads[t]) == 0 {
      assert ThreadOk(s.sh, t, s.threads[t]);
    }
  }
}
