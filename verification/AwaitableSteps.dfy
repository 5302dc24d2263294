/** Every step keeps the invariant of the coroutine runtime. */
module AwaitableSteps {
  import opened Options
  import opened Sums
  import opened Awaitables
  import opened AwaitableInvariants

  /** The structural part of the invariant, which does not speak of evaluation. */
  ghost predicate Structure(s: State) {
    ShapesOk(s) && LinksOk(s) && CursorOk(s) && WorkersOk(s) && HoldersOk(s)
  }

  // ---------------------------------------------------------------- meanings

  lemma FinishMeaning(fr: Frame)
    requires MeaningOk(fr) && fr.phase.Active? && fr.code.Done?
    ensures MeaningOk(fr.(phase := Ended, outcome := Some(fr.code.out)))
  {
  }

  /** The continuation gets exactly what direct evaluation of the awaited coroutine gives. */
  lemma ResumeMeaning(pa: Frame, fr: Frame)
    requires MeaningOk(pa) && pa.phase.Waiting? && pa.code.Await?
    requires MeaningOk(fr) && fr.phase.Ended? && fr.program == pa.code.child
    ensures fr.outcome == Some(Eval(pa.code.child))
    ensures MeaningOk(pa.(phase := Active, code := Continue(pa.code, fr.outcome)))
  {
  }

  lemma ChildMeaning(fr: Frame, root: nat)
    requires MeaningOk(fr) && fr.code.Await?
    ensures MeaningOk(Frame(false, None, None, Fresh, fr.code.child, fr.code.child, root))
  {
  }

  lemma MeaningsStep(s: State, l: Step)
    requires MeaningsOk(s) && ShapesOk(s) && LinksOk(s) && WorkersOk(s) && Enabled(s, l)
    requires l.Take? ==> s.frames[s.queue[0]].phase.Ready?
    ensures MeaningsOk(Apply(s, l))
  {
    var s' := Apply(s, l);
    match l
    case Spawn(_) =>
    case Take(_) =>
    case CallChild(w) => ChildMeaning(s.frames[s.workers[w].f], s.frames[s.workers[w].f].root);
    case Transform(_) =>
    case Suspend(w) => assert WorkerOk(s, s.workers[w]);
    case Submit(_) =>
    case Finish(w) =>
      assert WorkerOk(s, s.workers[w]);
      FinishMeaning(s.frames[s.workers[w].f]);
    case ResumeParent(w) =>
      assert WorkerOk(s, s.workers[w]);
      var f := s.workers[w].f;
      var p := s.frames[f].awaiting.value;
      assert LinkOk(s.frames, f) && LinkOk(s.frames, p);
      ResumeMeaning(s.frames[p], s.frames[f]);
    case EndRoot(_) =>
  }

  // ---------------------------------------------------------------- shapes and links

  /** The frames that steps look at are in the phase they expect. */
  ghost predicate HeadReady(s: State, l: Step) {
    l.Take? ==> s.queue != [] && s.queue[0] in s.frames && s.frames[s.queue[0]].phase.Ready?
  }

  lemma ShapesStep(s: State, l: Step)
    requires ShapesOk(s) && LinksOk(s) && WorkersOk(s) && Enabled(s, l) && HeadReady(s, l)
    ensures ShapesOk(Apply(s, l))
  {
    var s' := Apply(s, l);
    forall g | g in s'.frames ensures g < s'.next && ShapeOk(g, s'.frames[g]) {
      assert g in s.frames ==> ShapeOk(g, s.frames[g]);
      match l
      case Transform(w) => assert WorkerOk(s, s.workers[w]);
      case Suspend(w) => assert WorkerOk(s, s.workers[w]);
      case Finish(w) => assert WorkerOk(s, s.workers[w]);
      case ResumeParent(w) =>
        assert WorkerOk(s, s.workers[w]);
        assert LinkOk(s.frames, s.workers[w].f);
      case _ =>
    }
  }

  lemma SuspendLinks(s: State, w: nat)
    requires ShapesOk(s) && LinksOk(s) && WorkersOk(s) && Enabled(s, Suspend(w))
    ensures LinksOk(Apply(s, Suspend(w)))
  {
    var s' := Apply(s, Suspend(w));
    var Transformed(f, c) := s.workers[w];
    assert WorkerOk(s, s.workers[w]);
    assert ShapeOk(c, s.frames[c]);
    forall g | g in s'.frames ensures LinkOk(s'.frames, g) {
      assert LinkOk(s.frames, g);
      if g != f && g != c {
        LinkUnaffected(s.frames, s'.frames, g);
      }
    }
  }

  lemma ResumeLinks(s: State, w: nat)
    requires ShapesOk(s) && LinksOk(s) && WorkersOk(s) && Enabled(s, ResumeParent(w))
    ensures LinksOk(Apply(s, ResumeParent(w)))
  {
    var s' := Apply(s, ResumeParent(w));
    var f := s.workers[w].f;
    var p := s.frames[f].awaiting.value;
    assert WorkerOk(s, s.workers[w]);
    assert LinkOk(s.frames, f) && LinkOk(s.frames, p);
    forall g | g in s'.frames ensures LinkOk(s'.frames, g) {
      assert LinkOk(s.frames, g);
      if g != p {
        LinkUnaffected(s.frames, s'.frames, g);
      }
    }
  }

  lemma OtherLinks(s: State, l: Step)
    requires ShapesOk(s) && LinksOk(s) && WorkersOk(s) && Enabled(s, l) && HeadReady(s, l)
    requires !l.Suspend? && !l.ResumeParent?
    ensures LinksOk(Apply(s, l))
  {
    var s' := Apply(s, l);
    if l.Transform? || l.Finish? {
      assert WorkerOk(s, s.workers[l.w]);
    }
    forall g | g in s'.frames ensures LinkOk(s'.frames, g) {
      if g in s.frames {
        assert LinkOk(s.frames, g);
        if s.frames[g].phase == s'.frames[g].phase {
          LinkUnaffected(s.frames, s'.frames, g);
        }
      }
    }
  }

  lemma LinksStep(s: State, l: Step)
    requires ShapesOk(s) && LinksOk(s) && WorkersOk(s) && Enabled(s, l) && HeadReady(s, l)
    ensures LinksOk(Apply(s, l))
  {
    match l
    case Suspend(w) => SuspendLinks(s, w);
    case ResumeParent(w) => ResumeLinks(s, w);
    case _ => OtherLinks(s, l);
  }

  // ---------------------------------------------------------------- the cursor

  /** The right to run passes from one frame of a root to another. */
  lemma CursorMoves(s: State, s': State, r: nat, from: nat, to: nat)
    requires CursorOk(s) && r in s.cursor && s.cursor[r] == from
    requires s'.cursor == s.cursor[r := to] && s'.next == s.next
    requires to in s'.frames && s'.frames[to].root == r && MayRun(s'.frames[to].phase)
    requires forall g | g in s'.frames ::
               && g in s.frames && s'.frames[g].root == s.frames[g].root
               && (g != to ==> (MayRun(s'.frames[g].phase) <==> MayRun(s.frames[g].phase) && g != from))
    requires forall g | g in s.frames && g != from :: g in s'.frames
    ensures CursorOk(s')
  {
  }

  /** Other steps leave it where it is, and a coroutine just created has none. */
  lemma CursorStays(s: State, s': State)
    requires CursorOk(s) && s'.cursor == s.cursor && s.next <= s'.next
    requires forall g | g in s.frames ::
               && g in s'.frames && s'.frames[g].root == s.frames[g].root
               && (MayRun(s'.frames[g].phase) <==> MayRun(s.frames[g].phase))
    requires forall g | g in s'.frames && g !in s.frames ::
               && s'.frames[g].root in s.cursor && !MayRun(s'.frames[g].phase)
               && s.cursor[s'.frames[g].root] in s.frames
    ensures CursorOk(s')
  {
  }

  lemma SuspendCursor(s: State, w: nat)
    requires CursorOk(s) && Enabled(s, Suspend(w)) && WorkerOk(s, s.workers[w])
    ensures CursorOk(Apply(s, Suspend(w)))
  {
    var Transformed(f, c) := s.workers[w];
    CursorMoves(s, Apply(s, Suspend(w)), s.frames[f].root, f, c);
  }

  lemma ResumeCursor(s: State, w: nat)
    requires CursorOk(s) && Enabled(s, ResumeParent(w)) && WorkerOk(s, s.workers[w])
    requires LinkOk(s.frames, s.workers[w].f)
    ensures CursorOk(Apply(s, ResumeParent(w)))
  {
    var f := s.workers[w].f;
    CursorMoves(s, Apply(s, ResumeParent(w)), s.frames[f].root, f, s.frames[f].awaiting.value);
  }

  lemma OtherCursor(s: State, l: Step)
    requires CursorOk(s) && Enabled(s, l) && HeadReady(s, l)
    requires !l.Spawn? && !l.Suspend? && !l.ResumeParent? && WorkerOk(s, s.workers[l.w])
    ensures CursorOk(Apply(s, l))
  {
    CursorStays(s, Apply(s, l));
  }

  lemma CursorStep(s: State, l: Step)
    requires ShapesOk(s) && LinksOk(s) && CursorOk(s) && WorkersOk(s) && Enabled(s, l) && HeadReady(s, l)
    ensures CursorOk(Apply(s, l))
  {
    if l.Spawn? {
      SpawnCursor(s, l.program);
    } else {
      assert WorkerOk(s, s.workers[l.w]);
      match l
      case Suspend(w) => SuspendCursor(s, w);
      case ResumeParent(w) => ResumeCursor(s, w);
      case _ => OtherCursor(s, l);
    }
  }

  lemma SpawnCursor(s: State, program: Coro)
    requires ShapesOk(s) && CursorOk(s) && Enabled(s, Spawn(program))
    ensures CursorOk(Apply(s, Spawn(program)))
  {
  }

  // ---------------------------------------------------------------- workers

  /** The frames a step may change are nobody else's. */
  lemma WorkersStep(s: State, l: Step)
    requires Structure(s) && Enabled(s, l)
    ensures WorkersOk(Apply(s, l))
  {
    var s' := Apply(s, l);
    forall v | 0 <= v < |s.workers| ensures WorkerOk(s', s'.workers[v]) {
      assert WorkerOk(s, s.workers[v]);
      if l.Spawn? {
        WorkerUnaffected(s, s', s.workers[v]);
      } else {
        assert WorkerOk(s, s.workers[l.w]);
        if l.Take? {
          PendingIsNobodys(s, 0, v);
        }
        if v != l.w {
          OthersAreAboutOthers(s, l.w, v);
          OtherWorker(s, l, v);
        } else {
          OwnWorker(s, l);
        }
      }
    }
  }

  lemma OtherWorker(s: State, l: Step, v: nat)
    requires ShapesOk(s) && LinksOk(s) && Enabled(s, l) && HeadReady(s, l) && !l.Spawn?
    requires v < |s.workers| && v != l.w && WorkerOk(s, s.workers[v]) && WorkerOk(s, s.workers[l.w])
    requires About(s.workers[l.w]).Some? ==> About(s.workers[v]) != About(s.workers[l.w])
    requires Carries(s.workers[l.w]).Some? ==> Carries(s.workers[v]) != Carries(s.workers[l.w])
    requires l.Take? ==> About(s.workers[v]) != Some(s.queue[0])
    ensures WorkerOk(Apply(s, l), s.workers[v])
  {
    if l.ResumeParent? {
      assert LinkOk(s.frames, s.workers[l.w].f);
    }
    WorkerUnaffected(s, Apply(s, l), s.workers[v]);
  }

  lemma OwnWorker(s: State, l: Step)
    requires ShapesOk(s) && LinksOk(s) && Enabled(s, l) && HeadReady(s, l) && !l.Spawn?
    requires WorkerOk(s, s.workers[l.w])
    ensures WorkerOk(Apply(s, l), Apply(s, l).workers[l.w])
  {
  }

  // ---------------------------------------------------------------- holders

  /** Nobody holds a frame that does not exist. */
  lemma NobodyHoldsUnknown(s: State, f: nat)
    requires WorkersOk(s) && HoldersOk(s) && f !in s.frames
    ensures Holders(s, f) == 0 && Sum(s.workers, IsCarrying(f)) == 0
  {
    assert f !in multiset(s.queue);
    forall i | 0 <= i < |s.workers| ensures IsAbout(f)(s.workers[i]) == 0 && IsCarrying(f)(s.workers[i]) == 0 {
      assert WorkerOk(s, s.workers[i]);
    }
    SumZero(s.workers, IsAbout(f));
    SumZero(s.workers, IsCarrying(f));
  }

  lemma SpawnHolders(s: State, program: Coro)
    requires ShapesOk(s) && WorkersOk(s) && HoldersOk(s) && Enabled(s, Spawn(program))
    ensures HoldersOk(Apply(s, Spawn(program)))
  {
    var s' := Apply(s, Spawn(program));
    var r := s.next;
    NobodyHoldsUnknown(s, r);
    forall f: nat ensures Holders(s', f) == Holders(s, f) + if f == r then 1 else 0 {
    }
  }

  function AboutCount(w: Worker, f: nat): nat {
    if About(w) == Some(f) then 1 else 0
  }

  function CarryCount(w: Worker, c: nat): nat {
    if Carries(w) == Some(c) then 1 else 0
  }

  /** What one worker's move and a change of the queue do to the counts. */
  ghost predicate CountsMoved(s: State, s': State, a: Worker, b: Worker) {
    && (forall f: nat :: Holders(s', f) + multiset(s.queue)[f] + AboutCount(a, f)
                         == Holders(s, f) + multiset(s'.queue)[f] + AboutCount(b, f))
    && (forall c: nat :: Sum(s'.workers, IsCarrying(c)) + CarryCount(a, c)
                         == Sum(s.workers, IsCarrying(c)) + CarryCount(b, c))
  }

  lemma CountsMove(s: State, s': State, w: nat, b: Worker)
    requires w < |s.workers| && s'.workers == s.workers[w := b]
    ensures CountsMoved(s, s', s.workers[w], b)
  {
    forall f: nat
      ensures Holders(s', f) + multiset(s.queue)[f] + AboutCount(s.workers[w], f)
           == Holders(s, f) + multiset(s'.queue)[f] + AboutCount(b, f)
    {
      SumUpdate(s.workers, w, b, IsAbout(f));
    }
    forall c: nat
      ensures Sum(s'.workers, IsCarrying(c)) + CarryCount(s.workers[w], c)
           == Sum(s.workers, IsCarrying(c)) + CarryCount(b, c)
    {
      SumUpdate(s.workers, w, b, IsCarrying(c));
    }
  }

  /** Every frame keeps its holders, but for one that gains its holder and one that loses it. */
  ghost predicate Shifted(s: State, s': State, gained: Option<nat>, lost: Option<nat>) {
    forall f: nat ::
      Holders(s', f) + (if lost == Some(f) then 1 else 0) == Holders(s, f) + (if gained == Some(f) then 1 else 0)
  }

  lemma ShiftBy(s: State, s': State, a: Worker, b: Worker, gained: Option<nat>, lost: Option<nat>)
    requires CountsMoved(s, s', a, b)
    requires forall f: nat ::
               multiset(s'.queue)[f] + AboutCount(b, f) + (if lost == Some(f) then 1 else 0)
               == multiset(s.queue)[f] + AboutCount(a, f) + (if gained == Some(f) then 1 else 0)
    ensures Shifted(s, s', gained, lost)
  {
    forall f: nat
      ensures Holders(s', f) + (if lost == Some(f) then 1 else 0) == Holders(s, f) + (if gained == Some(f) then 1 else 0)
    {
      assert Holders(s', f) + multiset(s.queue)[f] + AboutCount(a, f)
          == Holders(s, f) + multiset(s'.queue)[f] + AboutCount(b, f);
    }
  }

  lemma CarryingFrom(s: State, s': State, a: Worker, b: Worker)
    requires HoldersOk(s) && CountsMoved(s, s', a, b)
    requires Carries(b).Some? ==> Carries(a) == Carries(b) || Sum(s.workers, IsCarrying(Carries(b).value)) == 0
    ensures forall c: nat :: Sum(s'.workers, IsCarrying(c)) <= 1
  {
    forall c: nat ensures Sum(s'.workers, IsCarrying(c)) <= 1 {
      assert Sum(s.workers, IsCarrying(c)) <= 1;
    }
  }

  lemma HoldersFrom(s: State, s': State, gained: Option<nat>, lost: Option<nat>)
    requires HoldersOk(s) && Shifted(s, s', gained, lost)
    requires gained.Some? ==> Holders(s, gained.value) == 0 && gained != lost
    requires forall c: nat :: Sum(s'.workers, IsCarrying(c)) <= 1
    requires forall i | 0 <= i < |s'.queue| :: s'.queue[i] in s'.frames && s'.frames[s'.queue[i]].phase.Ready?
    requires forall f | f in s'.frames && Some(f) != gained && NeedsHolder(s'.frames[f]) ::
               f in s.frames && NeedsHolder(s.frames[f]) && Some(f) != lost
    ensures HoldersOk(s')
  {
    forall f: nat ensures Holders(s', f) <= 1 {
      assert Holders(s, f) <= 1;
    }
    forall f | f in s'.frames && NeedsHolder(s'.frames[f]) ensures Holders(s', f) == 1 {
      assert Some(f) != gained ==> Holders(s, f) == 1;
    }
  }

  /** A coroutine that waits, or is still carried, has no holder. */
  lemma NobodyHoldsSuspended(s: State, f: nat)
    requires WorkersOk(s) && HoldersOk(s) && f in s.frames && (s.frames[f].phase.Fresh? || s.frames[f].phase.Waiting?)
    ensures Holders(s, f) == 0
  {
    assert f !in multiset(s.queue);
    forall i | 0 <= i < |s.workers| ensures IsAbout(f)(s.workers[i]) == 0 {
      assert WorkerOk(s, s.workers[i]);
    }
    SumZero(s.workers, IsAbout(f));
  }

  lemma TakeHolders(s: State, w: nat)
    requires HoldersOk(s) && Enabled(s, Take(w))
    ensures HoldersOk(Apply(s, Take(w)))
  {
    var s' := Apply(s, Take(w));
    var f := s.queue[0];
    assert s.queue == [f] + s.queue[1..];
    assert multiset(s.queue) == multiset{f} + multiset(s.queue[1..]);
    CountsMove(s, s', w, Runs(f));
    ShiftBy(s, s', Idle, Runs(f), None, None);
    CarryingFrom(s, s', Idle, Runs(f));
    forall i | 0 <= i < |s'.queue| ensures s'.queue[i] in s'.frames && s'.frames[s'.queue[i]].phase.Ready? {
      PendingOnce(s, 0, i + 1);
    }
    HoldersFrom(s, s', None, None);
  }

  lemma CallHolders(s: State, w: nat)
    requires ShapesOk(s) && WorkersOk(s) && HoldersOk(s) && Enabled(s, CallChild(w))
    ensures HoldersOk(Apply(s, CallChild(w)))
  {
    var s' := Apply(s, CallChild(w));
    NobodyHoldsUnknown(s, s.next);
    CountsMove(s, s', w, s'.workers[w]);
    ShiftBy(s, s', s.workers[w], s'.workers[w], None, None);
    CarryingFrom(s, s', s.workers[w], s'.workers[w]);
    HoldersFrom(s, s', None, None);
  }

  lemma SuspendHolders(s: State, w: nat)
    requires WorkersOk(s) && HoldersOk(s) && Enabled(s, Suspend(w))
    ensures HoldersOk(Apply(s, Suspend(w)))
  {
    var s' := Apply(s, Suspend(w));
    var Transformed(f, c) := s.workers[w];
    assert WorkerOk(s, s.workers[w]);
    NobodyHoldsSuspended(s, c);
    CountsMove(s, s', w, Submits(c));
    ShiftBy(s, s', s.workers[w], Submits(c), Some(c), Some(f));
    CarryingFrom(s, s', s.workers[w], Submits(c));
    HoldersFrom(s, s', Some(c), Some(f));
  }

  lemma SubmitHolders(s: State, w: nat)
    requires WorkersOk(s) && HoldersOk(s) && Enabled(s, Submit(w))
    ensures HoldersOk(Apply(s, Submit(w)))
  {
    var s' := Apply(s, Submit(w));
    assert WorkerOk(s, s.workers[w]);
    CountsMove(s, s', w, Idle);
    ShiftBy(s, s', s.workers[w], Idle, None, None);
    CarryingFrom(s, s', s.workers[w], Idle);
    HoldersFrom(s, s', None, None);
  }

  lemma ResumeHolders(s: State, w: nat)
    requires LinksOk(s) && WorkersOk(s) && HoldersOk(s) && Enabled(s, ResumeParent(w))
    ensures HoldersOk(Apply(s, ResumeParent(w)))
  {
    var s' := Apply(s, ResumeParent(w));
    var f := s.workers[w].f;
    var p := s.frames[f].awaiting.value;
    assert WorkerOk(s, s.workers[w]) && LinkOk(s.frames, f);
    NobodyHoldsSuspended(s, p);
    CountsMove(s, s', w, Runs(p));
    ShiftBy(s, s', s.workers[w], Runs(p), Some(p), Some(f));
    CarryingFrom(s, s', s.workers[w], Runs(p));
    HoldersFrom(s, s', Some(p), Some(f));
  }

  lemma TransformHolders(s: State, w: nat)
    requires WorkersOk(s) && HoldersOk(s) && Enabled(s, Transform(w))
    ensures HoldersOk(Apply(s, Transform(w)))
  {
    var s' := Apply(s, Transform(w));
    assert WorkerOk(s, s.workers[w]);
    CountsMove(s, s', w, s'.workers[w]);
    ShiftBy(s, s', s.workers[w], s'.workers[w], None, None);
    CarryingFrom(s, s', s.workers[w], s'.workers[w]);
    HoldersFrom(s, s', None, None);
  }

  /** A running frame has no pending resume. */
  lemma FinishHolders(s: State, w: nat)
    requires WorkersOk(s) && HoldersOk(s) && Enabled(s, Finish(w))
    ensures HoldersOk(Apply(s, Finish(w)))
  {
    var s' := Apply(s, Finish(w));
    assert WorkerOk(s, s.workers[w]);
    CountsMove(s, s', w, s'.workers[w]);
    ShiftBy(s, s', s.workers[w], s'.workers[w], None, None);
    CarryingFrom(s, s', s.workers[w], s'.workers[w]);
    HoldersFrom(s, s', None, None);
  }

  lemma EndHolders(s: State, w: nat)
    requires WorkersOk(s) && HoldersOk(s) && Enabled(s, EndRoot(w))
    ensures HoldersOk(Apply(s, EndRoot(w)))
  {
    var s' := Apply(s, EndRoot(w));
    var f := s.workers[w].f;
    assert WorkerOk(s, s.workers[w]);
    CountsMove(s, s', w, Idle);
    ShiftBy(s, s', s.workers[w], Idle, None, Some(f));
    CarryingFrom(s, s', s.workers[w], Idle);
    HoldersFrom(s, s', None, Some(f));
  }

  lemma HoldersStep(s: State, l: Step)
    requires Structure(s) && Enabled(s, l)
    ensures HoldersOk(Apply(s, l))
  {
    match l
    case Spawn(program) => SpawnHolders(s, program);
    case Take(w) => TakeHolders(s, w);
    case CallChild(w) => CallHolders(s, w);
    case Suspend(w) => SuspendHolders(s, w);
    case Submit(w) => SubmitHolders(s, w);
    case ResumeParent(w) => ResumeHolders(s, w);
    case Transform(w) => TransformHolders(s, w);
    case Finish(w) => FinishHolders(s, w);
    case EndRoot(w) => EndHolders(s, w);
  }

  // ---------------------------------------------------------------- all together

  lemma InvStep(s: State, l: Step)
    requires Inv(s) && Enabled(s, l)
    ensures Inv(Apply(s, l))
  {
    MeaningsStep(s, l);
    ShapesStep(s, l);
    LinksStep(s, l);
    CursorStep(s, l);
    WorkersStep(s, l);
    HoldersStep(s, l);
  }
}
