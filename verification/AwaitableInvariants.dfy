/** What every step of the coroutine runtime keeps. */
module AwaitableInvariants {
  import opened Options
  import opened Sums
  import opened Awaitables

  /** The frame a worker is responsible for. */
  function About(w: Worker): Option<nat> {
    match w
    case Idle => None
    case Runs(f) => Some(f)
    case Called(f, _) => Some(f)
    case Transformed(f, _) => Some(f)
    case Submits(c) => Some(c)
    case Finishes(f) => Some(f)
  }

  /** The fresh coroutine a worker is about to await. */
  function Carries(w: Worker): Option<nat> {
    if w.Called? || w.Transformed? then Some(w.c) else None
  }

  ghost function IsAbout(f: nat): Worker -> nat {
    (w: Worker) => if About(w) == Some(f) then 1 else 0
  }

  ghost function IsCarrying(c: nat): Worker -> nat {
    (w: Worker) => if Carries(w) == Some(c) then 1 else 0
  }

  /** Pending resumes of `f` plus workers busy with it. */
  ghost function Holders(s: State, f: nat): nat {
    multiset(s.queue)[f] + Sum(s.workers, IsAbout(f))
  }

  // ---------------------------------------------------------------- frames

  predicate MayRun(p: Phase) {
    p.Ready? || p.Active? || p.Ended?
  }

  /** What is left of the body means what the body meant; an ended frame has its outcome. */
  ghost predicate MeaningOk(fr: Frame) {
    && Total(fr.program) && Total(fr.code)
    && if fr.phase.Ended? then fr.outcome == Some(Eval(fr.program))
       else fr.outcome == None && Eval(fr.code) == Eval(fr.program)
  }

  predicate ShapeOk(f: nat, fr: Frame) {
    && (fr.phase.Waiting? ==> fr.code.Await?)
    && (fr.phase.Fresh? ==> fr.awaiting.None? && fr.root < f)
    && (!fr.phase.Fresh? ==> fr.executor && (fr.awaiting.None? <==> f == fr.root))
    && fr.root <= f
  }

  /** How a suspended parent and the coroutine it awaits point at each other. */
  ghost predicate LinkOk(frames: map<nat, Frame>, f: nat)
    requires f in frames
  {
    var fr := frames[f];
    && (fr.phase.Waiting? ==>
          && fr.phase.on in frames
          && frames[fr.phase.on].awaiting == Some(f)
          && frames[fr.phase.on].root == fr.root
          && (fr.code.Await? ==> frames[fr.phase.on].program == fr.code.child))
    && (fr.awaiting.Some? ==>
          && fr.awaiting.value in frames
          && frames[fr.awaiting.value].phase == Waiting(f)
          && frames[fr.awaiting.value].root == fr.root)
  }

  ghost predicate CursorOk(s: State) {
    && (forall r | r in s.cursor :: r < s.next && s.cursor[r] in s.frames && s.frames[s.cursor[r]].root == r)
    && (forall f | f in s.frames ::
          s.frames[f].root in s.cursor && (MayRun(s.frames[f].phase) <==> s.cursor[s.frames[f].root] == f))
  }

  ghost predicate WorkerOk(s: State, w: Worker) {
    match w
    case Idle => true
    case Runs(f) => f in s.frames && s.frames[f].phase.Active?
    case Called(f, c) => f in s.frames && s.frames[f].phase.Active? && CarriedOk(s, f, c)
    case Transformed(f, c) =>
      f in s.frames && s.frames[f].phase.Active? && CarriedOk(s, f, c) && s.frames[c].executor
    case Submits(c) => c in s.frames && s.frames[c].phase.Ready?
    case Finishes(f) => f in s.frames && s.frames[f].phase.Ended?
  }

  ghost predicate CarriedOk(s: State, f: nat, c: nat)
    requires f in s.frames
  {
    && c in s.frames && c != f
    && s.frames[c].phase.Fresh?
    && s.frames[c].root == s.frames[f].root
    && s.frames[f].code.Await? && s.frames[c].program == s.frames[f].code.child
    && s.frames[c].code == s.frames[c].program
  }

  /** Somebody must be about to resume, be running, or be finishing this frame. */
  predicate NeedsHolder(fr: Frame) {
    fr.phase.Ready? || fr.phase.Active? || (fr.phase.Ended? && fr.awaiting.Some?)
  }

  ghost predicate HoldersOk(s: State) {
    && (forall i | 0 <= i < |s.queue| :: s.queue[i] in s.frames && s.frames[s.queue[i]].phase.Ready?)
    && (forall f: nat :: Holders(s, f) <= 1)
    && (forall f | f in s.frames && NeedsHolder(s.frames[f]) :: Holders(s, f) == 1)
    && (forall c: nat :: Sum(s.workers, IsCarrying(c)) <= 1)
  }

  ghost predicate MeaningsOk(s: State) {
    forall f | f in s.frames :: MeaningOk(s.frames[f])
  }

  ghost predicate ShapesOk(s: State) {
    forall f | f in s.frames :: f < s.next && ShapeOk(f, s.frames[f])
  }

  ghost predicate LinksOk(s: State) {
    forall f | f in s.frames :: LinkOk(s.frames, f)
  }

  ghost predicate WorkersOk(s: State) {
    forall i | 0 <= i < |s.workers| :: WorkerOk(s, s.workers[i])
  }

  ghost predicate Inv(s: State) {
    MeaningsOk(s) && ShapesOk(s) && LinksOk(s) && CursorOk(s) && WorkersOk(s) && HoldersOk(s)
  }

  // ---------------------------------------------------------------- who holds what

  /** Two workers are never about the same frame, nor about a frame with a pending resume. */
  lemma {:induction false} SumTwo<A>(xs: seq<A>, i: nat, j: nat, f: A -> nat)
    requires i < j < |xs|
    ensures f(xs[i]) + f(xs[j]) <= Sum(xs, f)
  {
    if i == 0 {
      SumMember(xs[1..], j - 1, f);
    } else {
      SumTwo(xs[1..], i - 1, j - 1, f);
    }
  }

  lemma OthersAreAboutOthers(s: State, w: nat, v: nat)
    requires HoldersOk(s) && w < |s.workers| && v < |s.workers| && w != v
    ensures About(s.workers[w]).Some? ==> About(s.workers[v]) != About(s.workers[w])
    ensures Carries(s.workers[w]).Some? ==> Carries(s.workers[v]) != Carries(s.workers[w])
  {
    var i, j := if w < v then w else v, if w < v then v else w;
    if About(s.workers[w]).Some? {
      var f := About(s.workers[w]).value;
      SumTwo(s.workers, i, j, IsAbout(f));
      assert Holders(s, f) <= 1;
    }
    if Carries(s.workers[w]).Some? {
      var c := Carries(s.workers[w]).value;
      SumTwo(s.workers, i, j, IsCarrying(c));
    }
  }

  /** A worker does not notice changes to frames it is neither about nor carrying. */
  lemma WorkerUnaffected(s: State, s': State, w: Worker)
    requires WorkerOk(s, w)
    requires About(w).Some? ==> About(w).value in s'.frames && s'.frames[About(w).value] == s.frames[About(w).value]
    requires Carries(w).Some? ==> Carries(w).value in s'.frames && s'.frames[Carries(w).value] == s.frames[Carries(w).value]
    ensures WorkerOk(s', w)
  {
  }

  /** A frame with a pending resume is not a worker's. */
  lemma PendingIsNobodys(s: State, i: nat, v: nat)
    requires HoldersOk(s) && i < |s.queue| && v < |s.workers|
    ensures About(s.workers[v]) != Some(s.queue[i])
  {
    var f := s.queue[i];
    assert f in multiset(s.queue);
    SumMember(s.workers, v, IsAbout(f));
    assert Holders(s, f) <= 1;
  }

  lemma CountedTwice(xs: seq<nat>, i: nat, j: nat)
    requires i < j < |xs| && xs[i] == xs[j]
    ensures multiset(xs)[xs[i]] >= 2
  {
    assert xs == xs[..j] + [xs[j]] + xs[j + 1..];
    assert xs[..j][i] == xs[i];
    assert xs[i] in multiset(xs[..j]);
  }

  lemma PendingOnce(s: State, i: nat, j: nat)
    requires HoldersOk(s) && i < j < |s.queue|
    ensures s.queue[i] != s.queue[j]
  {
    assert Holders(s, s.queue[i]) <= 1;
    if s.queue[i] == s.queue[j] {
      CountedTwice(s.queue, i, j);
    }
  }

  /** What other frames look at. */
  predicate SameToParent(a: Frame, b: Frame) {
    a.awaiting == b.awaiting && a.root == b.root && a.program == b.program
  }

  predicate SameToChild(a: Frame, b: Frame) {
    a.phase == b.phase && a.root == b.root
  }

  lemma LinkUnaffected(frames: map<nat, Frame>, frames': map<nat, Frame>, g: nat)
    requires g in frames && LinkOk(frames, g) && g in frames'
    requires SameToParent(frames[g], frames'[g]) && SameToChild(frames[g], frames'[g]) && frames[g].code == frames'[g].code
    requires frames[g].phase.Waiting? ==>
               frames[g].phase.on in frames' && SameToParent(frames[frames[g].phase.on], frames'[frames[g].phase.on])
    requires frames[g].awaiting.Some? ==>
               frames[g].awaiting.value in frames' &&
               SameToChild(frames[frames[g].awaiting.value], frames'[frames[g].awaiting.value])
    ensures LinkOk(frames', g)
  {
  }
}
