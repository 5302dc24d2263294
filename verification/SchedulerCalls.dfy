/** What is added is what is queued and resumed, and who is told about it. */
module SchedulerCalls {
  import opened Sums
  import opened Schedulers

  // ---------------------------------------------------------------- the waiter count

  /** A worker between raising `waiting_threads_` and lowering it. */
  predicate Announced(th: Thread) {
    th.pc.Blocks? || th.pc.Waits? || th.pc.Relocks? || th.pc.Retracts?
  }

  ghost function Announcing(): Thread -> nat {
    (th: Thread) => if Announced(th) then 1 else 0
  }

  ghost predicate WaitersCounted(s: Sys) {
    s.sh.waiting == Sum(s.threads, Announcing())
  }

  lemma ActWaiters(sh: Shared, t: nat, th: Thread)
    requires ThreadOk(sh, t, th) && CanAct(sh, th)
    ensures ActShared(sh, t, th).waiting + Announcing()(th) == sh.waiting + Announcing()(ActThread(sh, th))
  {
  }

  lemma WaitersStep(s: Sys, l: Step)
    requires Inv(s) && WaitersCounted(s) && Enabled(s, l)
    ensures WaitersCounted(Apply(s, l))
  {
    if !l.Flip? && !l.Join? {
      assert ThreadOk(s.sh, l.t, s.threads[l.t]);
      SumUpdate(s.threads, l.t, Apply(s, l).threads[l.t], Announcing());
      if l.Act? {
        ActWaiters(s.sh, l.t, s.threads[l.t]);
      }
    }
  }

  // ---------------------------------------------------------------- what is resumed

  ghost function Holding(coro: nat): Thread -> nat {
    (th: Thread) => if th.pc == Decrements(coro) then 1 else 0
  }

  /** Each coroutine popped has been resumed, or the worker that popped it is about to. */
  ghost predicate Accounted(s: Sys) {
    forall c: nat :: multiset(s.sh.popped)[c] == multiset(s.sh.resumed)[c] + Sum(s.threads, Holding(c))
  }

  lemma ActAccount(sh: Shared, t: nat, th: Thread, c: nat)
    requires ThreadOk(sh, t, th) && CanAct(sh, th)
    ensures var sh', th' := ActShared(sh, t, th), ActThread(sh, th);
            multiset(sh'.popped)[c] + multiset(sh.resumed)[c] + Holding(c)(th)
            == multiset(sh.popped)[c] + multiset(sh'.resumed)[c] + Holding(c)(th')
  {
  }

  lemma AccountStep(s: Sys, l: Step)
    requires Inv(s) && Accounted(s) && Enabled(s, l)
    ensures Accounted(Apply(s, l))
  {
    var s' := Apply(s, l);
    forall c: nat ensures multiset(s'.sh.popped)[c] == multiset(s'.sh.resumed)[c] + Sum(s'.threads, Holding(c)) {
      assert multiset(s.sh.popped)[c] == multiset(s.sh.resumed)[c] + Sum(s.threads, Holding(c));
      if !l.Flip? && !l.Join? {
        assert ThreadOk(s.sh, l.t, s.threads[l.t]);
        SumUpdate(s.threads, l.t, s'.threads[l.t], Holding(c));
        if l.Act? {
          ActAccount(s.sh, l.t, s.threads[l.t], c);
        }
      }
    }
  }

  lemma {:induction false} BooksRun(states: seq<Sys>, steps: seq<Step>, i: nat)
    requires IsRun(states, steps) && i < |states|
    ensures WaitersCounted(states[i]) && Accounted(states[i])
  {
    if i == 0 {
      SumZero(states[0].threads, Announcing());
      forall c: nat ensures Sum(states[0].threads, Holding(c)) == 0 {
        SumZero(states[0].threads, Holding(c));
      }
    } else {
      BooksRun(states, steps, i - 1);
      InvRun(states, steps, i - 1);
      WaitersStep(states[i - 1], steps[i - 1]);
      AccountStep(states[i - 1], steps[i - 1]);
    }
  }

  // ---------------------------------------------------------------- theorems

  /** An adder notifies exactly if, when it looks, some worker has announced that it waits. */
  lemma AdderNotifiesIff(states: seq<Sys>, steps: seq<Step>, i: nat, t: nat)
    requires IsRun(states, steps) && i < |steps| && steps[i] == Act(t) && states[i].threads[t].add.Peeks?
    ensures var waited := exists w | 0 <= w < |states[i].threads| :: Announced(states[i].threads[w]);
            states[i + 1].threads[t].add == if waited then Notifies else Counts
  {
    BooksRun(states, steps, i);
    var s := states[i];
    if w :| 0 <= w < |s.threads| && Announced(s.threads[w]) {
      SumMember(s.threads, w, Announcing());
    } else {
      SumZero(s.threads, Announcing());
    }
  }

  /** After a stop without adding clients, every coroutine ever added was resumed exactly as
      often as it was added. */
  lemma CalmStopResumesAll(states: seq<Sys>, steps: seq<Step>, i: nat, w: nat)
    requires IsRun(states, steps) && i < |states| && w < |states[0].threads| && IsWorker(states[0].threads[w])
    requires states[i].sh.stop.Joined? && states[i].sh.calm
    ensures multiset(states[i].sh.resumed) == multiset(states[i].sh.pushed)
  {
    CalmStopDrains(states, steps, i, w);
    BooksRun(states, steps, i);
    InvRun(states, steps, i);
    var s := states[i];
    forall c: nat ensures multiset(s.sh.resumed)[c] == multiset(s.sh.pushed)[c] {
      forall t | 0 <= t < |s.threads| ensures Holding(c)(s.threads[t]) == 0 {
        assert ThreadOk(s.sh, t, s.threads[t]);
      }
      SumZero(s.threads, Holding(c));
    }
  }

  /** At any time, nothing is resumed that was not added, nor more often. */
  lemma ResumedWasAdded(states: seq<Sys>, steps: seq<Step>, i: nat, c: nat)
    requires IsRun(states, steps) && i < |states|
    ensures multiset(states[i].sh.resumed)[c] <= multiset(states[i].sh.popped)[c] <= multiset(states[i].sh.pushed)[c]
  {
    BooksRun(states, steps, i);
    InvRun(states, steps, i);
    assert multiset(states[i].sh.popped)[c] == multiset(states[i].sh.resumed)[c] + Sum(states[i].threads, Holding(c));
  }

  lemma CallStays(s: Sys, l: Step, t: nat)
    requires Inv(s) && Enabled(s, l) && t < |s.threads| && s.threads[t].add.Pushes? && l != Act(t)
    ensures t < |Apply(s, l).threads| && Apply(s, l).threads[t].add == s.threads[t].add
  {
    assert ThreadOk(s.sh, t, s.threads[t]);
  }

  lemma AddBegins(s: Sys, t: nat, coro: nat)
    requires Enabled(s, Begin(t, coro))
    ensures t < |Apply(s, Begin(t, coro)).threads| && Apply(s, Begin(t, coro)).threads[t].add == Pushes(coro)
  {
  }

  lemma {:induction false} AddStays(states: seq<Sys>, steps: seq<Step>, t: nat, j: nat, k: nat, coro: nat)
    requires IsRun(states, steps) && j < k < |states| && steps[j] == Begin(t, coro)
    requires forall m | j < m < k :: steps[m] != Act(t)
    ensures t < |states[k].threads| && states[k].threads[t].add == Pushes(coro)
  {
    if k == j + 1 {
      AddBegins(states[j], t, coro);
    } else {
      AddStays(states, steps, t, j, k - 1, coro);
      InvRun(states, steps, k - 1);
      CallStays(states[k - 1], steps[k - 1], t);
    }
  }

  /** The coroutine passed to `add_coroutine` is the one queued by the thread's next step. */
  lemma AddedIsQueued(states: seq<Sys>, steps: seq<Step>, t: nat, j: nat, k: nat, coro: nat)
    requires IsRun(states, steps) && j < k < |steps| && steps[j] == Begin(t, coro) && steps[k] == Act(t)
    requires forall m | j < m < k :: steps[m] != Act(t)
    ensures states[k + 1].sh.pushed == states[k].sh.pushed + [coro]
    ensures states[k + 1].sh.queue == states[k].sh.queue + [coro]
  {
    AddStays(states, steps, t, j, k, coro);
  }
}
