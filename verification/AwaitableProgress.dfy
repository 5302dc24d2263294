/** The coroutine runtime never gets stuck and never runs on: total correctness. */
module AwaitableProgress {
  import opened Options
  import opened Sums
  import opened Awaitables
  import opened AwaitableInvariants
  import opened AwaitableSteps
  import opened AwaitableTheorems

  // ---------------------------------------------------------------- no deadlock

  predicate Quiet(s: State) {
    s.queue == [] && forall w | 0 <= w < |s.workers| :: s.workers[w].Idle?
  }

  /** The step a busy worker takes next. */
  ghost function NextStep(s: State, w: nat): Step
    requires w < |s.workers| && !s.workers[w].Idle? && WorkerOk(s, s.workers[w])
  {
    match s.workers[w]
    case Runs(f) => if s.frames[f].code.Done? then Finish(w) else CallChild(w)
    case Called(_, _) => Transform(w)
    case Transformed(_, _) => Suspend(w)
    case Submits(_) => Submit(w)
    case Finishes(f) => if s.frames[f].awaiting.Some? then ResumeParent(w) else EndRoot(w)
  }

  lemma BusyWorkerMoves(s: State, w: nat)
    requires ShapesOk(s) && LinksOk(s) && w < |s.workers| && !s.workers[w].Idle? && WorkerOk(s, s.workers[w])
    ensures Enabled(s, NextStep(s, w)) && !NextStep(s, w).Spawn?
  {
    assert s.next !in s.frames;
    assert s.workers[w].Finishes? ==> LinkOk(s.frames, s.workers[w].f);
  }

  lemma {:induction false} WorkersStay(states: seq<State>, steps: seq<Step>, i: nat)
    requires IsRun(states, steps) && i < |states|
    ensures |states[i].workers| == |states[0].workers| > 0
  {
    if i > 0 {
      WorkersStay(states, steps, i - 1);
    }
  }

  /** The runtime stops exactly when the queue is empty and every worker is idle. */
  lemma NeverStuck(states: seq<State>, steps: seq<Step>, i: nat)
    requires IsRun(states, steps) && i < |states|
    ensures Quiet(states[i]) <==> forall l :: Enabled(states[i], l) ==> l.Spawn?
  {
    var s := states[i];
    if !Quiet(s) {
      InvRun(states, steps, i);
      if w :| 0 <= w < |s.workers| && !s.workers[w].Idle? {
        BusyWorkerMoves(s, w);
      } else {
        WorkersStay(states, steps, i);
        assert Enabled(s, Take(0));
      }
    }
  }

  // ---------------------------------------------------------------- no endless run

  /** A bound on the steps that running a body takes, were it evaluated directly. */
  ghost function Cost(c: Coro): nat
    requires Total(c)
  {
    match c
    case Done(_) => 0
    case Await(child, k) => 8 + Cost(child) + Cost(k[Eval(child)])
  }

  ghost function FrameCost(fr: Frame): nat {
    if !Total(fr.code) then 0 else
    match fr.phase
    case Fresh => 0
    case Ready => Cost(fr.code) + 4
    case Active => Cost(fr.code)
    case Waiting(_) => if fr.code.Await? then Cost(fr.code.k[Eval(fr.code.child)]) + 3 else 0
    case Ended => 0
  }

  ghost function WorkerCost(): Worker -> nat {
    (w: Worker) => match w
                   case Idle => 0
                   case Runs(_) => 3
                   case Called(_, _) => 2
                   case _ => 1
  }

  ghost function CostAt(frames: map<nat, Frame>, f: nat): nat {
    if f in frames then FrameCost(frames[f]) else 0
  }

  ghost function CostBelow(frames: map<nat, Frame>, n: nat): nat {
    if n == 0 then 0 else CostBelow(frames, n - 1) + CostAt(frames, n - 1)
  }

  ghost function Potential(s: State): nat {
    CostBelow(s.frames, s.next) + Sum(s.workers, WorkerCost())
  }

  ghost predicate AgreeBut(a: map<nat, Frame>, b: map<nat, Frame>, f: nat) {
    forall g: nat | g != f :: CostAt(a, g) == CostAt(b, g)
  }

  lemma {:induction false} CostChange(a: map<nat, Frame>, b: map<nat, Frame>, n: nat, f: nat)
    requires AgreeBut(a, b, f)
    ensures CostBelow(b, n) + (if f < n then CostAt(a, f) else 0) == CostBelow(a, n) + (if f < n then CostAt(b, f) else 0)
  {
    if n > 0 {
      CostChange(a, b, n - 1, f);
      assert n - 1 != f ==> CostAt(a, n - 1) == CostAt(b, n - 1);
    }
  }

  /** One frame and one worker change. */
  lemma PotentialMove(s: State, s': State, w: nat, b: Worker, f: nat)
    requires w < |s.workers| && s'.workers == s.workers[w := b] && s'.next == s.next && f < s.next
    requires AgreeBut(s.frames, s'.frames, f)
    ensures Potential(s') + CostAt(s.frames, f) + WorkerCost()(s.workers[w])
         == Potential(s) + CostAt(s'.frames, f) + WorkerCost()(b)
  {
    CostChange(s.frames, s'.frames, s.next, f);
    SumUpdate(s.workers, w, b, WorkerCost());
  }

  /** Two frames and one worker change. */
  lemma PotentialMoveTwo(s: State, s': State, w: nat, b: Worker, mid: map<nat, Frame>, f: nat, g: nat)
    requires w < |s.workers| && s'.workers == s.workers[w := b] && s'.next == s.next && f < s.next && g < s.next
    requires AgreeBut(s.frames, mid, f) && AgreeBut(mid, s'.frames, g)
    ensures Potential(s') + CostAt(s.frames, f) + CostAt(mid, g) + WorkerCost()(s.workers[w])
         == Potential(s) + CostAt(mid, f) + CostAt(s'.frames, g) + WorkerCost()(b)
  {
    CostChange(s.frames, mid, s.next, f);
    CostChange(mid, s'.frames, s.next, g);
    SumUpdate(s.workers, w, b, WorkerCost());
  }

  lemma SpawnCost(s: State, program: Coro)
    requires ShapesOk(s) && Enabled(s, Spawn(program))
    ensures Potential(Apply(s, Spawn(program))) == Potential(s) + Cost(program) + 4
  {
    CostChange(s.frames, Apply(s, Spawn(program)).frames, s.next, s.next);
  }

  lemma CallCost(s: State, w: nat)
    requires Enabled(s, CallChild(w))
    ensures Potential(Apply(s, CallChild(w))) < Potential(s)
  {
    var s' := Apply(s, CallChild(w));
    CostChange(s.frames, s'.frames, s.next, s.next);
    SumUpdate(s.workers, w, s'.workers[w], WorkerCost());
  }

  lemma TakeCost(s: State, w: nat)
    requires Enabled(s, Take(w)) && HeadReady(s, Take(w)) && s.queue[0] < s.next && MeaningOk(s.frames[s.queue[0]])
    ensures Potential(Apply(s, Take(w))) < Potential(s)
  {
    PotentialMove(s, Apply(s, Take(w)), w, Runs(s.queue[0]), s.queue[0]);
  }

  lemma TransformCost(s: State, w: nat)
    requires Enabled(s, Transform(w)) && s.workers[w].c < s.next
    ensures Potential(Apply(s, Transform(w))) < Potential(s)
  {
    var Called(f, c) := s.workers[w];
    PotentialMove(s, Apply(s, Transform(w)), w, Transformed(f, c), c);
  }

  lemma SuspendCost(s: State, w: nat)
    requires Enabled(s, Suspend(w)) && WorkerOk(s, s.workers[w])
    requires s.workers[w].f < s.next && s.workers[w].c < s.next && MeaningOk(s.frames[s.workers[w].f])
    ensures Potential(Apply(s, Suspend(w))) < Potential(s)
  {
    var Transformed(f, c) := s.workers[w];
    var mid := s.frames[f := s.frames[f].(phase := Waiting(c))];
    PotentialMoveTwo(s, Apply(s, Suspend(w)), w, Submits(c), mid, f, c);
  }

  lemma QuietWorkerCost(s: State, l: Step)
    requires Enabled(s, l) && (l.Submit? || l.EndRoot?)
    ensures Potential(Apply(s, l)) < Potential(s)
  {
    SumUpdate(s.workers, l.w, Idle, WorkerCost());
  }

  lemma FinishCost(s: State, w: nat)
    requires Enabled(s, Finish(w)) && s.workers[w].f < s.next
    ensures Potential(Apply(s, Finish(w))) < Potential(s)
  {
    var f := s.workers[w].f;
    PotentialMove(s, Apply(s, Finish(w)), w, Finishes(f), f);
  }

  lemma ResumeCost(s: State, w: nat)
    requires Enabled(s, ResumeParent(w))
    requires var f := s.workers[w].f;
             var p := s.frames[f].awaiting.value;
             && f < s.next && p < s.next && p != f
             && MeaningOk(s.frames[p]) && s.frames[p].phase.Waiting? && s.frames[p].code.Await?
             && MeaningOk(s.frames[f]) && s.frames[f].phase.Ended? && s.frames[f].program == s.frames[p].code.child
    ensures Potential(Apply(s, ResumeParent(w))) < Potential(s)
  {
    var f := s.workers[w].f;
    var p := s.frames[f].awaiting.value;
    ResumeMeaning(s.frames[p], s.frames[f]);
    PotentialMoveTwo(s, Apply(s, ResumeParent(w)), w, Runs(p), s.frames - {f}, f, p);
  }

  /** Every step but a spawn uses up some of what the spawned programs may cost. */
  lemma StepCost(s: State, l: Step)
    requires Inv(s) && Enabled(s, l) && !l.Spawn?
    ensures Potential(Apply(s, l)) < Potential(s)
  {
    assert WorkerOk(s, s.workers[l.w]);
    match l
    case Take(w) => TakeCost(s, w);
    case CallChild(w) => CallCost(s, w);
    case Transform(w) => TransformCost(s, w);
    case Suspend(w) => SuspendCost(s, w);
    case Submit(w) => QuietWorkerCost(s, l);
    case Finish(w) => FinishCost(s, w);
    case ResumeParent(w) =>
      var f := s.workers[w].f;
      assert LinkOk(s.frames, f) && LinkOk(s.frames, s.frames[f].awaiting.value);
      assert ShapeOk(s.frames[f].awaiting.value, s.frames[s.frames[f].awaiting.value]);
      ResumeCost(s, w);
    case EndRoot(w) => QuietWorkerCost(s, l);
  }

  /** What the programs spawned in the first `n` steps may cost. */
  ghost function Granted(steps: seq<Step>, n: nat): nat
    requires n <= |steps|
  {
    if n == 0 then 0
    else Granted(steps, n - 1) + match steps[n - 1]
                                 case Spawn(program) => if Total(program) then Cost(program) + 4 else 0
                                 case _ => 0
  }

  /** How many of the first `n` steps were not spawns. */
  ghost function Worked(steps: seq<Step>, n: nat): nat
    requires n <= |steps|
  {
    if n == 0 then 0 else Worked(steps, n - 1) + if steps[n - 1].Spawn? then 0 else 1
  }

  lemma {:induction false} PotentialRun(states: seq<State>, steps: seq<Step>, i: nat)
    requires IsRun(states, steps) && i < |states|
    ensures Worked(steps, i) + Potential(states[i]) <= Granted(steps, i)
  {
    if i == 0 {
      SumZero(states[0].workers, WorkerCost());
      EmptyCost(states[0].next);
    } else {
      PotentialRun(states, steps, i - 1);
      InvRun(states, steps, i - 1);
      PotentialStep(states[i - 1], steps[i - 1]);
    }
  }

  lemma {:induction false} EmptyCost(n: nat)
    ensures CostBelow(map[], n) == 0
  {
    if n > 0 {
      EmptyCost(n - 1);
    }
  }

  lemma PotentialStep(s: State, l: Step)
    requires Inv(s) && Enabled(s, l)
    ensures match l
            case Spawn(program) => Potential(Apply(s, l)) == Potential(s) + Cost(program) + 4
            case _ => Potential(Apply(s, l)) < Potential(s)
  {
    if l.Spawn? {
      SpawnCost(s, l.program);
    } else {
      StepCost(s, l);
    }
  }

  /** However the workers interleave, the runtime takes a bounded number of steps, and when
      it can take no more, every coroutine spawned has ended as direct evaluation ends. */
  lemma RuntimeTerminatesCorrectly(states: seq<State>, steps: seq<Step>)
    requires IsRun(states, steps)
    ensures Worked(steps, |steps|) <= Granted(steps, |steps|)
    ensures (forall l :: Enabled(states[|steps|], l) ==> l.Spawn?) ==>
              forall j | 0 <= j < |steps| && steps[j].Spawn? ::
                && states[j].next in states[|steps|].frames && Total(steps[j].program)
                && states[|steps|].frames[states[j].next].outcome == Some(Eval(steps[j].program))
  {
    PotentialRun(states, steps, |steps|);
    NeverStuck(states, steps, |steps|);
    if Quiet(states[|steps|]) {
      forall j | 0 <= j < |steps| && steps[j].Spawn?
        ensures states[j].next in states[|steps|].frames && Total(steps[j].program)
        ensures states[|steps|].frames[states[j].next].outcome == Some(Eval(steps[j].program))
      {
        SpawnedRefinesDirect(states, steps, j, |steps|);
      }
    }
  }
}
