/** Coroutines that await coroutines, started by `co_spawn` and resumed by the workers of a
    pool.  A step is one statement of `Awaitable.hpp` that another thread could observe. */
module Awaitables {
  import opened Options

  /** What a coroutine ends with: `return_value` or `unhandled_exception`. */
  datatype Outcome = Returned(v: int) | Threw(e: int)

  /** A coroutine body: it ends, or it awaits a coroutine and goes on with what that one
      ended with.  The continuation of a thrown exception may catch it or end with it. */
  datatype Coro = Done(out: Outcome) | Await(child: Coro, k: imap<Outcome, Coro>)

  ghost predicate Total(c: Coro) {
    match c
    case Done(_) => true
    case Await(child, k) => Total(child) && (forall o :: o in k) && (forall o | o in k :: Total(k[o]))
  }

  /** Direct, sequential evaluation. */
  ghost function Eval(c: Coro): Outcome
    requires Total(c)
  {
    match c
    case Done(o) => o
    case Await(child, k) => Eval(k[Eval(child)])
  }

  // ---------------------------------------------------------------- the runtime

  datatype Phase =
    | Fresh              // created, still owned by the expression that will await it
    | Ready              // suspended at the start, to be resumed by a pool task
    | Active             // running
    | Waiting(on: nat)   // suspended in `co_await`
    | Ended              // at its final suspend point

  /** The promise and the frame.  `executor` says whether the pointer is set; `code` is what is
      left of the body; `program` (what the body was) and `root` are histories. */
  datatype Frame = Frame(
    executor: bool, awaiting: Option<nat>, outcome: Option<Outcome>,
    phase: Phase, code: Coro, program: Coro, root: nat)

  datatype Worker =
    | Idle
    | Runs(f: nat)
    | Called(f: nat, c: nat)        // f evaluated the awaited call, which created c
    | Transformed(f: nat, c: nat)   // `await_transform` returned
    | Submits(c: nat)               // `await_suspend` has set `awaiting`, not yet `addTask`
    | Finishes(f: nat)              // f is in `final_awaiter::await_suspend`

  /** `cursor` maps each spawned root to the frame that may run on its behalf. */
  datatype State = State(
    frames: map<nat, Frame>, queue: seq<nat>, workers: seq<Worker>, next: nat, cursor: map<nat, nat>)

  datatype Step =
    | Spawn(program: Coro)
    | Take(w: nat)
    | CallChild(w: nat)
    | Transform(w: nat)
    | Suspend(w: nat)
    | Submit(w: nat)
    | Finish(w: nat)
    | ResumeParent(w: nat)
    | EndRoot(w: nat)

  ghost predicate Init(s: State) {
    s.frames == map[] && s.queue == [] && s.cursor == map[] && |s.workers| > 0 &&
    forall i | 0 <= i < |s.workers| :: s.workers[i].Idle?
  }

  ghost predicate Enabled(s: State, l: Step) {
    match l
    case Spawn(program) => Total(program) && s.next !in s.frames && s.next !in s.cursor
    case Take(w) => w < |s.workers| && s.workers[w].Idle? && s.queue != [] && s.queue[0] in s.frames
    case CallChild(w) =>
      w < |s.workers| && s.workers[w].Runs? && s.workers[w].f in s.frames &&
      s.frames[s.workers[w].f].code.Await? && s.next !in s.frames
    case Transform(w) =>
      w < |s.workers| && s.workers[w].Called? && s.workers[w].f in s.frames && s.workers[w].c in s.frames
    case Suspend(w) =>
      w < |s.workers| && s.workers[w].Transformed? && s.workers[w].f in s.frames && s.workers[w].c in s.frames
    case Submit(w) => w < |s.workers| && s.workers[w].Submits?
    case Finish(w) =>
      w < |s.workers| && s.workers[w].Runs? && s.workers[w].f in s.frames && s.frames[s.workers[w].f].code.Done?
    case ResumeParent(w) =>
      w < |s.workers| && s.workers[w].Finishes? && s.workers[w].f in s.frames &&
      s.frames[s.workers[w].f].awaiting.Some? && s.frames[s.workers[w].f].awaiting.value in s.frames
    case EndRoot(w) =>
      w < |s.workers| && s.workers[w].Finishes? && s.workers[w].f in s.frames &&
      s.frames[s.workers[w].f].awaiting.None?
  }

  /** What `await_resume` hands to the continuation: the awaited coroutine's value or exception. */
  ghost function Continue(code: Coro, o: Option<Outcome>): Coro {
    if code.Await? && o.Some? && o.value in code.k then code.k[o.value] else code
  }

  ghost function Apply(s: State, l: Step): State
    requires Enabled(s, l)
  {
    match l
    case Spawn(program) =>
      var r := s.next;
      s.(frames := s.frames[r := Frame(true, None, None, Ready, program, program, r)],
         queue := s.queue + [r], next := r + 1, cursor := s.cursor[r := r])
    case Take(w) =>
      var f := s.queue[0];
      s.(frames := s.frames[f := s.frames[f].(phase := Active)],
         queue := s.queue[1..], workers := s.workers[w := Runs(f)])
    case CallChild(w) =>
      var f, c := s.workers[w].f, s.next;
      var child := s.frames[f].code.child;
      s.(frames := s.frames[c := Frame(false, None, None, Fresh, child, child, s.frames[f].root)],
         workers := s.workers[w := Called(f, c)], next := c + 1)
    case Transform(w) =>
      var Called(f, c) := s.workers[w];
      s.(frames := s.frames[c := s.frames[c].(executor := s.frames[f].executor)],
         workers := s.workers[w := Transformed(f, c)])
    case Suspend(w) =>
      var Transformed(f, c) := s.workers[w];
      s.(frames := s.frames[f := s.frames[f].(phase := Waiting(c))][c := s.frames[c].(phase := Ready, awaiting := Some(f))],
         workers := s.workers[w := Submits(c)], cursor := s.cursor[s.frames[c].root := c])
    case Submit(w) =>
      s.(queue := s.queue + [s.workers[w].c], workers := s.workers[w := Idle])
    case Finish(w) =>
      var f := s.workers[w].f;
      s.(frames := s.frames[f := s.frames[f].(phase := Ended, outcome := Some(s.frames[f].code.out))],
         workers := s.workers[w := Finishes(f)])
    case ResumeParent(w) =>
      var f := s.workers[w].f;
      var p := s.frames[f].awaiting.value;
      s.(frames := (s.frames - {f})[p := s.frames[p].(phase := Active,
                                                      code := Continue(s.frames[p].code, s.frames[f].outcome))],
         workers := s.workers[w := Runs(p)], cursor := s.cursor[s.frames[f].root := p])
    case EndRoot(w) => s.(workers := s.workers[w := Idle])
  }

  ghost predicate IsRun(states: seq<State>, steps: seq<Step>) {
    && |states| == |steps| + 1
    && Init(states[0])
    && forall i | 0 <= i < |steps| ::
         Enabled(states[i], steps[i]) && states[i + 1] == Apply(states[i], steps[i])
  }
}
