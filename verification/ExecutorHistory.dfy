/** What the histories of the composed system say: tickets are executed once, a stopped pool
    has drained, and the strand's hand-off token never splits. */
module ExecutorHistory {
  import opened ThreadPools
  import opened Sums
  import opened Executor
  import opened ExecutorInvariants

  // ---------------------------------------------------------------- tickets

  /** Pushed tasks no worker has taken. */
  function Untaken(sh: Shared): seq<Task> {
    sh.dropped + sh.pool.queue
  }

  ghost function RunsTicket(k: nat): Thread -> nat {
    (th: Thread) => if th.role.Running? && th.role.ticket == k then 1 else 0
  }

  /** How often ticket `k` has been executed, counting an execution in progress. */
  ghost function Executions(s: Sys, k: nat): nat {
    multiset(s.sh.finished)[k] + Sum(s.threads, RunsTicket(k))
  }

  predicate LogsShared(sh: Shared) {
    && sh.pushed == sh.taken + Untaken(sh)
    && |sh.late| == |sh.pushed|
    && (sh.stop == NotStopped ==> true !in sh.late)
    && (sh.dropped != [] ==> sh.stop == Returned)
  }

  /** A running task is the one its ticket names. */
  predicate RunsOwnTicket(sh: Shared, th: Thread) {
    th.role.Running? ==> th.role.ticket < |sh.taken| && th.role.task == sh.taken[th.role.ticket]
  }

  ghost predicate Logs(s: Sys) {
    LogsShared(s.sh) && forall i | 0 <= i < |s.threads| :: RunsOwnTicket(s.sh, s.threads[i])
  }

  ghost predicate Tickets(s: Sys) {
    forall k: nat :: Executions(s, k) == if k < |s.sh.taken| then 1 else 0
  }

  lemma NotDroppedYet(s: Sys, t: nat)
    requires Discipline(s) && Logs(s) && t < |s.threads|
    requires IsWorker(s.threads[t]) && !s.threads[t].role.Exited?
    ensures s.sh.dropped == [] && s.sh.stop != Returned
  {
  }

  lemma LogsAct(sh: Shared, t: nat, th: Thread, a: Action)
    requires LogsShared(sh) && RunsOwnTicket(sh, th) && CanAct(sh, th, a) && (a.Take? ==> sh.dropped == [])
    ensures LogsShared(ActShared(sh, t, th, a))
    ensures RunsOwnTicket(ActShared(sh, t, th, a), ActThread(sh, th, a))
    ensures sh.taken <= ActShared(sh, t, th, a).taken
  {
    var sh' := ActShared(sh, t, th, a);
    if a.Take? && sh.pool.queue != [] {
      assert Untaken(sh) == [sh.pool.queue[0]] + Untaken(sh');
    } else if a.Push? {
      assert Untaken(sh') == Untaken(sh) + [th.call.task];
    } else {
      assert Untaken(sh') == Untaken(sh);
    }
  }

  lemma LogsStep(s: Sys, l: Step)
    requires Discipline(s) && Logs(s) && Enabled(s, l)
    ensures Logs(Apply(s, l))
  {
    if l.Act? {
      if l.action.Take? {
        NotDroppedYet(s, l.t);
      }
      LogsAct(s.sh, l.t, s.threads[l.t], l.action);
    } else {
      assert Untaken(Apply(s, l).sh) == Untaken(s.sh);
    }
  }

  lemma TicketStep(s: Sys, l: Step, k: nat)
    requires Discipline(s) && Logs(s) && Enabled(s, l)
    requires Executions(s, k) == if k < |s.sh.taken| then 1 else 0
    ensures Executions(Apply(s, l), k) == if k < |Apply(s, l).sh.taken| then 1 else 0
  {
    if l.Act? {
      assert ThreadOk(s.sh, l.t, s.threads[l.t]);
      SumUpdate(s.threads, l.t, ActThread(s.sh, s.threads[l.t], l.action), RunsTicket(k));
    } else {
      SumOtherStep(s, l, RunsTicket(k));
    }
  }

  lemma TicketsStep(s: Sys, l: Step)
    requires Discipline(s) && Logs(s) && Tickets(s) && Enabled(s, l)
    ensures Tickets(Apply(s, l))
  {
    forall k: nat ensures Executions(Apply(s, l), k) == if k < |Apply(s, l).sh.taken| then 1 else 0 {
      TicketStep(s, l, k);
    }
  }

  // ---------------------------------------------------------------- drain

  /** Once every worker is gone, only tasks that outside threads pushed after the flip are
      left over. */
  ghost predicate Drained(s: Sys) {
    AllExited(s.threads) && |s.sh.late| == |s.sh.pushed| ==>
      forall k | |s.sh.taken| <= k < |s.sh.pushed| :: s.sh.late[k]
  }

  lemma DrainedOther(s: Sys, l: Step)
    requires Drained(s) && Enabled(s, l) && !l.Act?
    ensures Drained(Apply(s, l))
  {
    var s' := Apply(s, l);
    forall i | 0 <= i < |s.threads|
      ensures IsWorker(s'.threads[i]) <==> IsWorker(s.threads[i])
      ensures s'.threads[i].role.Exited? <==> s.threads[i].role.Exited?
    {
    }
  }

  lemma DrainedAct(s: Sys, t: nat, a: Action)
    requires Discipline(s) && Logs(s) && Drained(s) && Enabled(s, Act(t, a))
    ensures Drained(Apply(s, Act(t, a)))
  {
    var s' := Apply(s, Act(t, a));
    if AllExited(s'.threads) {
      assert ThreadOk(s.sh, t, s.threads[t]);
      ActingThreadOk(s.sh, t, s.threads[t], a);
      assert forall i | 0 <= i < |s.threads| && i != t :: s'.threads[i] == s.threads[i];
      if IsWorker(s.threads[t]) {
        assert s'.threads[t].role.Exited?;
        NotDroppedYet(s, t);
      } else {
        var w :| 0 <= w < |s.threads| && IsWorker(s.threads[w]);
        assert s'.threads[w].role.Exited? && ThreadOk(s.sh, w, s.threads[w]);
      }
    }
  }

  lemma DrainedStep(s: Sys, l: Step)
    requires Discipline(s) && Logs(s) && Drained(s) && Enabled(s, l)
    ensures Drained(Apply(s, l))
  {
    if l.Act? {
      DrainedAct(s, l.t, l.action);
    } else {
      DrainedOther(s, l);
    }
  }

  // ---------------------------------------------------------------- the strand's token

  /** Where the right to run the strand's next job is: nobody has it, a thread does, it waits
      in the pool's queue, or `stop` destroyed it with the queue. */
  datatype Place = Nowhere | AtThread(t: nat) | InPool(i: nat) | Destroyed(i: nat)

  predicate RunsJob(th: Thread) {
    th.role.Running? && th.role.inBody && th.role.task.Handoff?
  }

  predicate CarriesHandoff(th: Thread) {
    th.call.PoolPush? && th.call.task.Handoff?
  }

  function Tokens(th: Thread): nat {
    (if RunsJob(th) then 1 else 0) + (if th.call.SchedNext? || CarriesHandoff(th) then 1 else 0)
  }

  predicate NoHandoffs(tasks: seq<Task>) {
    forall i | 0 <= i < |tasks| :: tasks[i].Plain?
  }

  predicate OnlyHandoff(tasks: seq<Task>, k: nat) {
    k < |tasks| && forall i | 0 <= i < |tasks| :: tasks[i].Handoff? <==> i == k
  }

  predicate TasksAt(queue: seq<Task>, dropped: seq<Task>, p: Place) {
    && (if p.InPool? then OnlyHandoff(queue, p.i) else NoHandoffs(queue))
    && (if p.Destroyed? then OnlyHandoff(dropped, p.i) else NoHandoffs(dropped))
  }

  predicate ThreadsAt(threads: seq<Thread>, p: Place) {
    && (p.AtThread? ==> p.t < |threads|)
    && forall i | 0 <= i < |threads| :: Tokens(threads[i]) == if p == AtThread(i) then 1 else 0
  }

  predicate TokenAt(s: Sys, p: Place) {
    TasksAt(s.sh.pool.queue, s.sh.dropped, p) && ThreadsAt(s.threads, p)
  }

  function JobOf(th: Thread): seq<nat> {
    if RunsJob(th) then [th.role.task.job]
    else if CarriesHandoff(th) then [th.call.task.job]
    else []
  }

  /** The job that was popped from the strand's queue and has not finished, if any. */
  function InFlight(s: Sys, p: Place): seq<nat>
    requires TokenAt(s, p)
  {
    match p
    case Nowhere => []
    case AtThread(t) => JobOf(s.threads[t])
    case InPool(i) => [s.sh.pool.queue[i].job]
    case Destroyed(i) => [s.sh.dropped[i].job]
  }

  ghost predicate StrandOk(s: Sys, p: Place) {
    && TokenAt(s, p)
    && (s.sh.strand.running <==> p != Nowhere)
    && (s.sh.strand.queue != [] ==> s.sh.strand.running)
    && s.sh.strandDone + InFlight(s, p) + s.sh.strand.queue == s.sh.strandPushed
  }

  predicate SameStrand(sh: Shared, sh': Shared) {
    sh'.strand == sh.strand && sh'.strandDone == sh.strandDone && sh'.strandPushed == sh.strandPushed
  }

  /** Actions that neither pass the token on nor touch the strand. */
  predicate LeavesTokenAlone(th: Thread, a: Action) {
    && !a.StrandAdd? && !a.Schedule? && !a.Take?
    && !(a.Push? && CarriesHandoff(th))
    && !(a.EndBody? && RunsJob(th))
  }

  /** One thread changes without its token, and plain tasks may be pushed. */
  lemma TokenStays(s: Sys, s': Sys, t: nat, th: Thread, extra: seq<Task>, p: Place)
    requires StrandOk(s, p) && t < |s.threads| && s'.threads == s.threads[t := th]
    requires Tokens(th) == Tokens(s.threads[t]) && JobOf(th) == JobOf(s.threads[t])
    requires s'.sh.pool.queue == s.sh.pool.queue + extra && NoHandoffs(extra) && s'.sh.dropped == s.sh.dropped
    requires SameStrand(s.sh, s'.sh)
    ensures StrandOk(s', p)
  {
    assert TokenAt(s', p);
    assert InFlight(s', p) == InFlight(s, p);
  }

  lemma TokenLeftAlone(sh: Shared, t: nat, th: Thread, a: Action) returns (extra: seq<Task>)
    requires ThreadOk(sh, t, th) && CanAct(sh, th, a) && LeavesTokenAlone(th, a)
    ensures Tokens(ActThread(sh, th, a)) == Tokens(th) && JobOf(ActThread(sh, th, a)) == JobOf(th)
    ensures var sh' := ActShared(sh, t, th, a);
            && SameStrand(sh, sh') && sh'.dropped == sh.dropped
            && sh'.pool.queue == sh.pool.queue + extra && NoHandoffs(extra)
  {
    extra := if a.Push? then [th.call.task] else [];
  }

  lemma TokenUntouched(s: Sys, t: nat, a: Action, p: Place)
    requires Discipline(s) && StrandOk(s, p) && Enabled(s, Act(t, a))
    requires LeavesTokenAlone(s.threads[t], a)
    ensures StrandOk(Apply(s, Act(t, a)), p)
  {
    assert ThreadOk(s.sh, t, s.threads[t]);
    var extra := TokenLeftAlone(s.sh, t, s.threads[t], a);
    TokenStays(s, Apply(s, Act(t, a)), t, ActThread(s.sh, s.threads[t], a), extra, p);
  }

  lemma TokenOnSubmit(s: Sys, t: nat, p: Place) returns (p': Place)
    requires Discipline(s) && StrandOk(s, p) && Enabled(s, Act(t, StrandAdd))
    ensures StrandOk(Apply(s, Act(t, StrandAdd)), p')
  {
    var s' := Apply(s, Act(t, StrandAdd));
    assert ThreadOk(s.sh, t, s.threads[t]);
    if s.sh.strand.running {
      p' := p;
      assert Tokens(s'.threads[t]) == Tokens(s.threads[t]) && JobOf(s'.threads[t]) == JobOf(s.threads[t]);
      assert InFlight(s', p') == InFlight(s, p);
    } else {
      p' := AtThread(t);
      assert Tokens(s.threads[t]) == 0;
    }
  }

  lemma TokenOnSchedule(s: Sys, t: nat, p: Place) returns (p': Place)
    requires Discipline(s) && StrandOk(s, p) && Enabled(s, Act(t, Schedule))
    ensures StrandOk(Apply(s, Act(t, Schedule)), p')
  {
    assert Tokens(s.threads[t]) > 0;
    assert p == AtThread(t);
    p' := if s.sh.strand.queue == [] then Nowhere else p;
  }

  lemma TokenOnPush(s: Sys, t: nat, p: Place) returns (p': Place)
    requires Discipline(s) && StrandOk(s, p) && Enabled(s, Act(t, Push)) && CarriesHandoff(s.threads[t])
    ensures StrandOk(Apply(s, Act(t, Push)), p')
  {
    assert Tokens(s.threads[t]) > 0;
    assert p == AtThread(t);
    p' := InPool(|s.sh.pool.queue|);
  }

  lemma TokenOnTake(s: Sys, t: nat, p: Place) returns (p': Place)
    requires Discipline(s) && StrandOk(s, p) && Enabled(s, Act(t, Take))
    ensures StrandOk(Apply(s, Act(t, Take)), p')
  {
    var s' := Apply(s, Act(t, Take));
    assert ThreadOk(s.sh, t, s.threads[t]);
    var queue, queue' := s.sh.pool.queue, s'.sh.pool.queue;
    assert queue' == queue[1..];
    if queue[0].Handoff? {
      assert p == InPool(0);
      p' := AtThread(t);
    } else if p.InPool? {
      p' := InPool(p.i - 1);
      forall i | 0 <= i < |queue'| ensures queue'[i].Handoff? <==> i == p.i - 1 {
        assert queue'[i] == queue[i + 1];
      }
    } else {
      p' := p;
    }
  }

  lemma TokenOnJobEnd(s: Sys, t: nat, p: Place)
    requires Discipline(s) && StrandOk(s, p) && Enabled(s, Act(t, EndBody)) && RunsJob(s.threads[t])
    ensures StrandOk(Apply(s, Act(t, EndBody)), p)
  {
    assert Tokens(s.threads[t]) > 0;
    assert p == AtThread(t);
  }

  /** The end of `stop` destroys what is queued, a hand-off too. */
  lemma TokenOnClear(s: Sys, p: Place) returns (p': Place)
    requires LogsShared(s.sh) && StrandOk(s, p) && Enabled(s, Clear)
    ensures StrandOk(Apply(s, Clear), p')
  {
    p' := if p.InPool? then Destroyed(p.i) else p;
    assert s.sh.dropped + s.sh.pool.queue == s.sh.pool.queue;
    assert TokenAt(Apply(s, Clear), p');
  }

  lemma TokensSame(s: Sys, s': Sys, p: Place)
    requires StrandOk(s, p) && |s'.threads| == |s.threads|
    requires forall i | 0 <= i < |s.threads| ::
               Tokens(s'.threads[i]) == Tokens(s.threads[i]) && JobOf(s'.threads[i]) == JobOf(s.threads[i])
    requires s'.sh.pool.queue == s.sh.pool.queue && s'.sh.dropped == s.sh.dropped && SameStrand(s.sh, s'.sh)
    ensures StrandOk(s', p)
  {
    assert TokenAt(s', p);
    assert InFlight(s', p) == InFlight(s, p);
  }

  /** Waking up and being notified are no concern of the token. */
  lemma TokensIgnoreWaking(th: Thread)
    ensures th.role.Blocked? ==> Tokens(th.(role := Woken)) == Tokens(th) && JobOf(th.(role := Woken)) == JobOf(th)
    ensures th.call.PoolNotify? ==> Tokens(th.(call := NoCall)) == Tokens(th) && JobOf(th.(call := NoCall)) == JobOf(th)
  {
  }

  lemma TokenOtherStep(s: Sys, l: Step, p: Place)
    requires StrandOk(s, p) && Enabled(s, l) && !l.Act? && !l.Clear?
    ensures StrandOk(Apply(s, l), p)
  {
    var s' := Apply(s, l);
    forall i | 0 <= i < |s.threads|
      ensures Tokens(s'.threads[i]) == Tokens(s.threads[i]) && JobOf(s'.threads[i]) == JobOf(s.threads[i])
    {
      TokensIgnoreWaking(s.threads[i]);
    }
    TokensSame(s, s', p);
  }

  lemma StrandStep(s: Sys, l: Step, p: Place) returns (p': Place)
    requires Discipline(s) && Logs(s) && StrandOk(s, p) && Enabled(s, l)
    ensures StrandOk(Apply(s, l), p')
  {
    p' := p;
    if l.Clear? {
      p' := TokenOnClear(s, p);
    } else if !l.Act? {
      TokenOtherStep(s, l, p);
    } else if l.action.StrandAdd? {
      p' := TokenOnSubmit(s, l.t, p);
    } else if l.action.Schedule? {
      p' := TokenOnSchedule(s, l.t, p);
    } else if l.action.Take? {
      p' := TokenOnTake(s, l.t, p);
    } else if l.action.Push? && CarriesHandoff(s.threads[l.t]) {
      p' := TokenOnPush(s, l.t, p);
    } else if l.action.EndBody? && RunsJob(s.threads[l.t]) {
      TokenOnJobEnd(s, l.t, p);
    } else {
      TokenUntouched(s, l.t, l.action, p);
    }
  }
}
