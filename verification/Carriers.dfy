/**
  What carries a session on while it has no child: with all four restrictions but the opener's,
  an active session without a child always has an attempt to give it one under way.
*/
module Carriers {
  import opened Wrappers
  import opened Sessions
  import opened Protocol
  import opened TaskFrames
  import opened Footprints
  import opened LockInvariants
  import opened HandleInvariants
  import opened LockTheorems
  import opened SessionMoves
  import opened RestrictedRuns
  import opened Children

  const QUIET := Restrictions(true, true, false, true, false, false)
  const CARRY := Restrictions(true, true, true, true, false, false)

  predicate Idle(s: Session) {
    s.active && s.childPid.None?
  }

  predicate Quiet(s: Session) {
    Idle(s) ==> s.awaiting.None?
  }

  /* ---- Nothing is awaited without a child ---- */

  /** A step that leaves the session idle found it idle, in the same generation. */
  lemma IdleWasIdle(y: System, st: Step)
    requires Enabled(y, st) && Idle(SessionAfter(y, st))
    requires !st.AcquireStart? && !st.SetUpStart? && !st.Exit? && !st.Decide?
    ensures Idle(y.s) && SessionAfter(y, st).generation == y.s.generation
  {
    if Turns(st) || TouchesSlot(st) {
      hide ReadersDone;
    } else {
      hide SessionAfter, Enabled;
      OthersKeepPhase(y, st);
      OthersKeepSlotFields(y, st);
    }
  }

  lemma SingleKeepsQuiet(y: System, st: Step)
    requires Sound(y) && Quiet(y.s) && Enabled(y, st) && Respects(QUIET, y, Single(st))
    ensures Quiet(SessionAfter(y, st))
  {
    hide Enabled, SessionAfter, StopUnderWay;
    if Idle(SessionAfter(y, st)) {
      IdleWasIdle(y, st);
      if st.RaiseInput? {
        RaisedByChild(y, st.i, st.prompt);
      } else {
        OthersRaiseNothing(y, st);
      }
    }
  }

  lemma RaisedByChild(y: System, c: TaskId, p: Prompt)
    requires Enabled(y, RaiseInput(c, p))
    ensures Supervised(y, c)
  {
  }

  lemma EndKeepsQuiet(y: System, i: TaskId)
    requires Owned(y) && Feasible(y, EndChild(i))
    ensures Quiet(MoveSession(y, EndChild(i)))
  {
    ExitIsJoined(y, i);
    hide Enabled;
  }

  ghost predicate OwnedQuietly(y: System) {
    Owned(y) && Quiet(y.s)
  }

  lemma MoreThanChild(y: System, m: Move)
    requires Respects(QUIET, y, m)
    ensures Respects(CHILD, y, m)
  {
    hide Supervised;
  }

  lemma QuietKept(y: System, m: Move, z: System)
    requires Sound(y) && OwnedQuietly(y) && Respects(QUIET, y, m) && MovesTo(y, m, z)
    ensures OwnedQuietly(z)
  {
    hide Owned, Run, Quiet, Enabled, Numbered, Slotted, TokensBounded, Aimed, SessionAfter, Moves;
    MoreThanChild(y, m);
    OwnedKept(y, m, z);
    MoveAchieves(y, m, z);
    match m
    case StartSession(_) => StartIsQuiet(y.s, m.options);
    case EndChild(i) => EndKeepsQuiet(y, i);
    case Single(st) => SingleKeepsQuiet(y, st);
    case _ =>
  }

  lemma StartIsQuiet(s: Session, options: Options)
    ensures Quiet(SetUp(Acquired(s), options))
  {
  }

  lemma QuietAlways(r: Restrictions, y: System)
    requires r.start && r.exit && r.captcha && ReachableUnder(r, y)
    ensures Sound(y) && OwnedQuietly(y)
  {
    hide Sound, OwnedQuietly, Respects, MovesTo, ReachableUnder;
    ReachableUnderLess(r, QUIET, y);
    InitiallyQuiet();
    forall x, m, w | Sound(x) && OwnedQuietly(x) && Respects(QUIET, x, m) && MovesTo(x, m, w)
      ensures OwnedQuietly(w)
    {
      QuietKept(x, m, w);
    }
    HoldsAlways(QUIET, x => OwnedQuietly(x), y);
  }

  lemma InitiallyQuiet()
    ensures OwnedQuietly(INITIAL)
  {
    InitiallyOwned();
  }

  /* ---- Something carries an idle session on ---- */

  /** A start, a retry or a pending `schedule_retry` of generation `gen` under way. */
  predicate Carries(t: Task, gen: nat) {
    || t.Scheduling?
    || ((t.Spawning? || t.Registering? || t.StartFailed? || t.TimerSleeping? || t.RetryChecked?
         || t.RetryAnnounced?) && t.gen == gen)
  }

  ghost predicate Carried(y: System) {
    Idle(y.s) ==> exists i :: i in y.tasks && Carries(y.tasks[i], y.s.generation)
  }

  lemma CarriedBy(z: System, k: TaskId)
    requires k in z.tasks && Carries(z.tasks[k], z.s.generation)
    ensures Carried(z)
  {
  }

  /** A carrier that steps is followed by itself, or gives the session a child or ends it. */
  lemma CarrierGoesOn(y: System, st: Step)
    requires Enabled(y, st) && Subject(st).Some? && !st.BumpAttempt?
    requires Carries(y.tasks[Subject(st).value], y.s.generation)
    requires Idle(y.s) && Quiet(y.s) && Idle(SessionAfter(y, st))
    ensures var c := ChangeOf(y, st);
      c.after.Some? && Carries(c.after.value, y.s.generation)
  {
    hide Aborts, ReadersDone;
  }

  lemma CarrierStays(y: System, st: Step, z: System, k: TaskId)
    requires Aimed(y) && Enabled(y, st) && Moves(y, ChangeOf(y, st), z) && Subject(st) != Some(k)
    requires !st.AcquireStart? && !st.ArmTimer?
    requires k in y.tasks && Carries(y.tasks[k], y.s.generation)
    ensures k in z.tasks && z.tasks[k] == y.tasks[k]
  {
    hide Aimed, Enabled, After, Fresh, Aborts, Subject;
    if k in ChangeOf(y, st).aborts && y.tasks[k].Abortable() {
      AbortedTimer(y, st, k);
    }
  }

  lemma SingleKeepsCarried(y: System, st: Step, z: System)
    requires Sound(y) && Quiet(y.s) && Carried(y) && Enabled(y, st)
    requires Respects(CARRY, y, Single(st))
    requires Moves(y, ChangeOf(y, st), z) && z.s == SessionAfter(y, st)
    ensures Carried(z)
  {
    hide Aimed, Numbered, Enabled, ChangeOf, SessionAfter, Moves, Carries, Quiet;
    if Idle(z.s) {
      IdleWasIdle(y, st);
      var k :| k in y.tasks && Carries(y.tasks[k], y.s.generation);
      if Subject(st) == Some(k) {
        CarrierGoesOn(y, st);
        SubjectCarries(y, st, z);
      } else {
        CarrierStays(y, st, z, k);
      }
      CarriedBy(z, k);
    }
  }

  lemma SubjectCarries(y: System, st: Step, z: System)
    requires Enabled(y, st) && Subject(st).Some? && ChangeOf(y, st).after.Some?
    requires Moves(y, ChangeOf(y, st), z)
    ensures Subject(st).value in z.tasks && z.tasks[Subject(st).value] == ChangeOf(y, st).after.value
  {
    hide Enabled, Subject, After, Fresh, Aborts;
  }

  lemma GroupKeepsCarried(y: System, m: Move, z: System)
    requires Owned(y) && Feasible(y, m) && Moves(y, MoveChange(y, m), z) && z.s == MoveSession(y, m)
    requires m.StartSession? || m.EndChild? || m.Reschedule?
    ensures Carried(z)
  {
    if m.EndChild? {
      ExitIsJoined(y, m.i);
    }
    hide Enabled;
    if Idle(z.s) {
      CarriedBy(z, if m.EndChild? then m.i else y.next);
    }
  }

  ghost predicate OwnedCarried(y: System) {
    OwnedQuietly(y) && Carried(y)
  }

  lemma CarriedKept(y: System, m: Move, z: System)
    requires Sound(y) && OwnedCarried(y) && Respects(CARRY, y, m) && MovesTo(y, m, z)
    ensures OwnedCarried(z)
  {
    hide Owned, Run, Quiet, Enabled, Numbered, Slotted, TokensBounded, Aimed, SessionAfter, Moves,
      Carried, ChangeOf;
    MoveAchieves(y, m, z);
    match m
    case Single(st) =>
      QuietKept(y, m, z);
      SingleKeepsCarried(y, st, z);
    case Reschedule(i) =>
      RescheduleKeepsQuiet(y, i, z);
      GroupKeepsCarried(y, m, z);
    case OpenBrowser(_, _) =>
    case GoAhead(_) =>
    case _ =>
      QuietKept(y, m, z);
      GroupKeepsCarried(y, m, z);
  }

  lemma RescheduleKeepsQuiet(y: System, i: TaskId, z: System)
    requires Sound(y) && OwnedQuietly(y) && MovesTo(y, Reschedule(i), z)
    ensures OwnedQuietly(z)
  {
    hide Sound, OwnedQuietly, Enabled, Next;
    var x := Next(y, BumpAttempt(i));
    RunTwo(y, BumpAttempt(i), ArmTimer(i), z);
    SoundKept(y, BumpAttempt(i));
    RunsOne(y, BumpAttempt(i));
    RunsOne(x, ArmTimer(i));
    QuietKept(y, Single(BumpAttempt(i)), x);
    QuietKept(x, Single(ArmTimer(i)), z);
  }

  lemma CarriedAlways(r: Restrictions, y: System)
    requires r.start && r.exit && r.captcha && r.schedule && ReachableUnder(r, y)
    ensures Sound(y) && OwnedCarried(y)
  {
    hide Sound, OwnedCarried, Respects, MovesTo, ReachableUnder;
    ReachableUnderLess(r, CARRY, y);
    InitiallyCarried();
    forall x, m, w | Sound(x) && OwnedCarried(x) && Respects(CARRY, x, m) && MovesTo(x, m, w)
      ensures OwnedCarried(w)
    {
      CarriedKept(x, m, w);
    }
    HoldsAlways(CARRY, x => OwnedCarried(x), y);
  }

  lemma InitiallyCarried()
    ensures OwnedCarried(INITIAL)
  {
    InitiallyQuiet();
  }
}
