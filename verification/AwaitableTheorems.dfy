/** Awaiting through the pool refines direct evaluation, for every run. */
module AwaitableTheorems {
  import opened Options
  import opened Sums
  import opened Awaitables
  import opened AwaitableInvariants
  import opened AwaitableSteps

  lemma InvInit(s: State)
    requires Init(s)
    ensures Inv(s)
  {
    forall f: nat ensures Holders(s, f) == 0 && Sum(s.workers, IsCarrying(f)) == 0 {
      SumZero(s.workers, IsAbout(f));
      SumZero(s.workers, IsCarrying(f));
    }
  }

  lemma {:induction false} InvRun(states: seq<State>, steps: seq<Step>, i: nat)
    requires IsRun(states, steps) && i < |states|
    ensures Inv(states[i])
  {
    if i == 0 {
      InvInit(states[0]);
    } else {
      InvRun(states, steps, i - 1);
      InvStep(states[i - 1], steps[i - 1]);
    }
  }

  /** `f` has a resume in the pool's queue, or a worker is busy with it. */
  ghost predicate PendingOrRunning(s: State, f: nat) {
    f in s.queue || exists w | 0 <= w < |s.workers| :: About(s.workers[w]) == Some(f)
  }

  lemma BusyMayRun(s: State, f: nat)
    requires WorkersOk(s) && HoldersOk(s) && PendingOrRunning(s, f)
    ensures f in s.frames && MayRun(s.frames[f].phase) && Holders(s, f) == 1
  {
    assert Holders(s, f) <= 1;
    if f in s.queue {
      assert f in multiset(s.queue);
    } else {
      var w :| 0 <= w < |s.workers| && About(s.workers[w]) == Some(f);
      assert WorkerOk(s, s.workers[w]);
      SumMember(s.workers, w, IsAbout(f));
    }
  }

  /** Each root has at most one pending or running resume in its whole tree. */
  lemma OneResumePerRoot(states: seq<State>, steps: seq<Step>, i: nat, f: nat, g: nat)
    requires IsRun(states, steps) && i < |states|
    requires PendingOrRunning(states[i], f) && PendingOrRunning(states[i], g)
    ensures f in states[i].frames && g in states[i].frames
    ensures states[i].frames[f].root == states[i].frames[g].root ==> f == g
    ensures Holders(states[i], f) == 1
  {
    InvRun(states, steps, i);
    BusyMayRun(states[i], f);
    BusyMayRun(states[i], g);
  }

  /** What is resumed is suspended: a pool task resumes a frame at its start that is pending
      just once, and a finished coroutine resumes a frame that is waiting for it. */
  lemma ResumesAreOfSuspended(states: seq<State>, steps: seq<Step>, i: nat)
    requires IsRun(states, steps) && i < |states|
    ensures var s := states[i];
            && (s.queue != [] ==>
                  s.queue[0] in s.frames && s.frames[s.queue[0]].phase.Ready? && s.queue[0] !in s.queue[1..])
            && (forall w | 0 <= w < |s.workers| && s.workers[w].Finishes? ::
                  && s.workers[w].f in s.frames
                  && var fr := s.frames[s.workers[w].f];
                     fr.awaiting.Some? ==>
                       fr.awaiting.value in s.frames && s.frames[fr.awaiting.value].phase == Waiting(s.workers[w].f))
  {
    InvRun(states, steps, i);
    var s := states[i];
    if s.queue != [] {
      forall j | 0 <= j < |s.queue[1..]| ensures s.queue[1..][j] != s.queue[0] {
        PendingOnce(s, 0, j + 1);
      }
    }
    forall w | 0 <= w < |s.workers| && s.workers[w].Finishes? ensures s.workers[w].f in s.frames {
      assert WorkerOk(s, s.workers[w]);
    }
    forall f | f in s.frames ensures LinkOk(s.frames, f) {
    }
  }

  /** The assertion in `await_suspend` never fails. */
  lemma ExecutorIsSet(states: seq<State>, steps: seq<Step>, i: nat, w: nat)
    requires IsRun(states, steps) && i < |steps| && steps[i] == Suspend(w)
    ensures states[i].frames[states[i].workers[w].c].executor
  {
    InvRun(states, steps, i);
    assert WorkerOk(states[i], states[i].workers[w]);
  }

  /** `co_await` yields the value or exception of directly evaluating the awaited coroutine. */
  lemma AwaitYieldsDirectResult(states: seq<State>, steps: seq<Step>, i: nat, w: nat)
    requires IsRun(states, steps) && i < |steps| && steps[i] == ResumeParent(w)
    ensures var s := states[i];
            var f := s.workers[w].f;
            var p := s.frames[f].awaiting.value;
            && s.frames[p].code.Await? && Total(s.frames[p].code)
            && s.frames[f].outcome == Some(Eval(s.frames[p].code.child))
            && p in states[i + 1].frames
            && states[i + 1].frames[p].code == s.frames[p].code.k[Eval(s.frames[p].code.child)]
  {
    var s := states[i];
    InvRun(states, steps, i);
    assert WorkerOk(s, s.workers[w]);
    var f := s.workers[w].f;
    var p := s.frames[f].awaiting.value;
    assert LinkOk(s.frames, f) && LinkOk(s.frames, p);
    assert ShapeOk(p, s.frames[p]) && MeaningOk(s.frames[p]) && MeaningOk(s.frames[f]);
    ResumeMeaning(s.frames[p], s.frames[f]);
  }

  // ---------------------------------------------------------------- order

  /** The frame whose resume the step from `s` to `s'` hands to the pool, if it does. */
  ghost function HandedOver(s: State, l: Step, s': State): seq<nat> {
    if l.Spawn? then [s.next]
    else if l.Submit? && l.w < |s.workers| && s.workers[l.w].Submits? then [s.workers[l.w].c]
    else []
  }

  /** The frame that a pool task starts in the step from `s` to `s'`, if one does. */
  ghost function Started(s: State, l: Step, s': State): seq<nat> {
    if l.Take? && l.w < |s'.workers| && s'.workers[l.w].Runs? then [s'.workers[l.w].f] else []
  }

  /** `of` collected over the first `n` steps. */
  ghost function Collected(states: seq<State>, steps: seq<Step>, n: nat, of: (State, Step, State) -> seq<nat>): seq<nat>
    requires n <= |steps| < |states|
  {
    if n == 0 then []
    else Collected(states, steps, n - 1, of) + of(states[n - 1], steps[n - 1], states[n])
  }

  lemma QueueStep(s: State, l: Step)
    requires Enabled(s, l)
    ensures s.queue + HandedOver(s, l, Apply(s, l)) == Started(s, l, Apply(s, l)) + Apply(s, l).queue
  {
  }

  lemma Exchange(a: seq<nat>, b: seq<nat>, c: seq<nat>, d: seq<nat>, e: seq<nat>)
    requires b + c == d + e
    ensures a + b + c == a + d + e
  {
    assert a + b + c == a + (b + c);
  }

  /** Pool tasks start frames in the order in which their resumes were handed over. */
  lemma {:induction false} StartedInOrder(states: seq<State>, steps: seq<Step>, i: nat)
    requires IsRun(states, steps) && i < |states|
    ensures Collected(states, steps, i, HandedOver) == Collected(states, steps, i, Started) + states[i].queue
  {
    if i > 0 {
      StartedInOrder(states, steps, i - 1);
      QueueStep(states[i - 1], steps[i - 1]);
      Exchange(Collected(states, steps, i - 1, Started), states[i - 1].queue,
               HandedOver(states[i - 1], steps[i - 1], states[i]),
               Started(states[i - 1], steps[i - 1], states[i]), states[i].queue);
    }
  }

  // ---------------------------------------------------------------- whole roots

  ghost predicate IsRootOf(s: State, r: nat, program: Coro) {
    r in s.frames && s.frames[r].program == program && s.frames[r].root == r && r in s.cursor
  }

  lemma RootStaysOneStep(s: State, l: Step, r: nat, program: Coro)
    requires Enabled(s, l) && IsRootOf(s, r, program)
    requires l.ResumeParent? ==> s.workers[l.w].f != r
    ensures IsRootOf(Apply(s, l), r, program)
  {
  }

  /** A coroutine that resumes its parent is no root. */
  lemma RootsHaveNoParent(s: State, w: nat, r: nat, program: Coro)
    requires ShapesOk(s) && WorkersOk(s) && Enabled(s, ResumeParent(w)) && IsRootOf(s, r, program)
    ensures s.workers[w].f != r
  {
    assert WorkerOk(s, s.workers[w]);
    assert ShapeOk(r, s.frames[r]);
  }

  lemma RootStaysInRun(states: seq<State>, steps: seq<Step>, i: nat, r: nat, program: Coro)
    requires IsRun(states, steps) && i < |steps| && IsRootOf(states[i], r, program)
    ensures IsRootOf(states[i + 1], r, program)
  {
    if steps[i].ResumeParent? {
      InvRun(states, steps, i);
      RootsHaveNoParent(states[i], steps[i].w, r, program);
    }
    RootStaysOneStep(states[i], steps[i], r, program);
  }

  lemma {:induction false} RootStays(states: seq<State>, steps: seq<Step>, j: nat, i: nat)
    requires IsRun(states, steps) && j < i < |states| && steps[j].Spawn?
    ensures IsRootOf(states[i], states[j].next, steps[j].program)
  {
    if i > j + 1 {
      RootStays(states, steps, j, i - 1);
      RootStaysInRun(states, steps, i - 1, states[j].next, steps[j].program);
    } else {
      assert states[j + 1] == Apply(states[j], steps[j]);
    }
  }

  /** A spawned coroutine that has ended has ended with what direct evaluation gives; and
      when the pool has gone quiet, every spawned coroutine has ended. */
  lemma SpawnedRefinesDirect(states: seq<State>, steps: seq<Step>, j: nat, i: nat)
    requires IsRun(states, steps) && j < i < |states| && steps[j].Spawn?
    ensures var s, r := states[i], states[j].next;
            && r in s.frames && Total(steps[j].program)
            && (s.frames[r].phase.Ended? ==> s.frames[r].outcome == Some(Eval(steps[j].program)))
            && (s.queue == [] && (forall w | 0 <= w < |s.workers| :: s.workers[w].Idle?) ==> s.frames[r].phase.Ended?)
  {
    InvRun(states, steps, i);
    RootStays(states, steps, j, i);
    var s, r := states[i], states[j].next;
    assert MeaningOk(s.frames[r]);
    if s.queue == [] && (forall w | 0 <= w < |s.workers| :: s.workers[w].Idle?) {
      var f := s.cursor[r];
      SumZero(s.workers, IsAbout(f));
      assert Holders(s, f) == 0;
      assert !NeedsHolder(s.frames[f]);
      assert ShapeOk(f, s.frames[f]);
      assert f == r;
    }
  }
}
