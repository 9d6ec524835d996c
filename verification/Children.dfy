/**
  The child of a session when neither a manual start nor a supervisor's clear and decision is
  interrupted: it belongs to the current generation, and "connected" means that it is there.
*/
module Children {
  import opened Wrappers
  import opened Sessions
  import opened Protocol
  import opened TaskFrames
  import opened StepEffects
  import opened Footprints
  import opened LockInvariants
  import opened LockTheorems
  import opened SessionMoves
  import opened RestrictedRuns
  import opened Readiness

  const CHILD := Restrictions(true, true, false, false, false, false)
  const EXIT := Restrictions(false, true, false, false, false, false)

  /** Some task serves the readiness wait of generation `gen`. */
  ghost predicate Awaited(y: System, gen: nat) {
    exists i :: i in y.tasks && Awaits(y.tasks[i]) && y.tasks[i].gen == gen
  }

  /** The child of a session that has ended has had its stop channel claimed. */
  predicate Claimed(s: Session) {
    !s.active && s.childPid.Some? ==> s.stopTx.None?
  }

  ghost predicate ChildIsCurrent(y: System) {
    && (forall c: TaskId :: Supervised(y, c) && y.s.active ==> y.tasks[c].gen == y.s.generation)
    && Claimed(y.s)
  }

  ghost predicate RegisteredOnce(s: Session, registrations: seq<nat>) {
    && Increasing(registrations)
    && (forall g <- registrations :: g <= s.generation && (Current(s, g) ==> s.childPid.Some?))
  }

  ghost predicate Truthful(y: System) {
    && (y.s.ready ==> y.s.active && y.s.childPid.Some?)
    && (y.s.active && Awaited(y, y.s.generation) ==> y.s.childPid.Some?)
  }

  ghost predicate Owned(y: System) {
    ChildIsCurrent(y) && RegisteredOnce(y.s, y.h.registrations) && Truthful(y)
  }

  /* ---- Where children and waits come from ---- */

  lemma ChildWasThere(y: System, st: Step, z: System, c: TaskId)
    requires Enabled(y, st) && Moves(y, ChangeOf(y, st), z) && Supervised(z, c)
    requires !st.Register? && !st.Exit? && !st.Decide?
    ensures Supervised(y, c) && y.tasks[c] == z.tasks[c]
  {
    hide Enabled, ChangeOf, Moves, Spares;
    StepSpares(y, st, Family.Children);
    SparedFamily(y, ChangeOf(y, st), z, Family.Children);
  }

  lemma PassedFrom(y: System, i: TaskId, c: Change, z: System, gen: nat)
    requires c.subject == Some(i) && Moves(y, c, z) && Passes(y.tasks[i], c) && Awaited(z, gen)
    ensures Awaited(y, gen)
  {
    var k :| k in z.tasks && Awaits(z.tasks[k]) && z.tasks[k].gen == gen;
    if k in y.tasks && y.tasks[k] == z.tasks[k] {
      assert Awaited(y, gen);
    } else {
      assert Awaits(y.tasks[i]) && y.tasks[i].gen == gen;
    }
  }

  lemma WaitWasThere(y: System, st: Step, z: System, gen: nat)
    requires Enabled(y, st) && Moves(y, ChangeOf(y, st), z) && !st.BeginWait? && Awaited(z, gen)
    ensures Awaited(y, gen)
  {
    hide Enabled, ChangeOf, Moves, Spares, Passes, Awaited;
    if Actor(st) == Some(Waits) {
      WaitStepPasses(y, st);
      PassedFrom(y, ChangeOf(y, st).subject.value, ChangeOf(y, st), z, gen);
    } else {
      StepSpares(y, st, Waits);
      SparedFamily(y, ChangeOf(y, st), z, Waits);
      SparedAwaited(y, ChangeOf(y, st), z, gen);
    }
  }

  lemma SparedAwaited(y: System, c: Change, z: System, gen: nat)
    requires SameFamily(y, c, z, Waits) && Awaited(z, gen)
    ensures Awaited(y, gen)
  {
    var k :| k in z.tasks && Awaits(z.tasks[k]) && z.tasks[k].gen == gen;
    assert FamilyOf(z.tasks[k]) == Waits;
  }

  lemma AwaitedIsPast(y: System, gen: nat)
    requires TokensBounded(y) && Awaited(y, gen)
    ensures gen <= y.s.generation
  {
    var k :| k in y.tasks && Awaits(y.tasks[k]) && y.tasks[k].gen == gen;
    assert TokenAtMost(y.tasks[k], y.s.generation);
  }

  /* ---- Single steps ---- */

  predicate SameOwner(s: Session, s2: Session) {
    && s2.active == s.active && s2.generation == s.generation && s2.ready == s.ready
    && s2.childPid == s.childPid && s2.stopTx == s.stopTx
  }

  lemma OthersKeepOwner(y: System, st: Step)
    requires Enabled(y, st) && !Turns(st) && !TouchesSlot(st) && !st.MarkReady?
    ensures SameOwner(y.s, SessionAfter(y, st))
    ensures HistoryAfter(y, st).registrations == y.h.registrations
  {
    hide SessionAfter, HistoryAfter, Enabled;
    OthersKeepPhase(y, st);
    OthersKeepReady(y, st);
    OthersKeepSlotFields(y, st);
    OthersLogNothing(y, st);
  }

  lemma OtherStepKeeps(y: System, st: Step, z: System)
    requires Owned(y) && Enabled(y, st) && Moves(y, ChangeOf(y, st), z)
    requires !Turns(st) && !TouchesSlot(st) && !st.MarkReady? && !st.BeginWait?
    requires z.s == SessionAfter(y, st) && z.h == HistoryAfter(y, st)
    ensures Owned(z)
  {
    hide Enabled, ChangeOf, SessionAfter, HistoryAfter, Moves, Awaited;
    OthersKeepOwner(y, st);
    forall c: TaskId | Supervised(z, c) ensures Supervised(y, c) && y.tasks[c] == z.tasks[c] {
      ChildWasThere(y, st, z, c);
    }
    if Awaited(z, z.s.generation) {
      WaitWasThere(y, st, z, z.s.generation);
    }
  }

  lemma BeginWaitKeepsOwned(y: System, c: TaskId, z: System)
    requires Owned(y) && Slotted(y) && Enabled(y, BeginWait(c)) && Moves(y, ChangeOf(y, BeginWait(c)), z)
    requires z.s == SessionAfter(y, BeginWait(c)) && z.h == HistoryAfter(y, BeginWait(c))
    ensures Owned(z)
  {
    hide Enabled, ChangeOf, SessionAfter, HistoryAfter, Moves, Awaited, StopUnderWay;
    BeginWaitIsAllowed(y, c);
    OthersKeepOwner(y, BeginWait(c));
    forall d: TaskId | Supervised(z, d) ensures Supervised(y, d) && y.tasks[d] == z.tasks[d] {
      ChildWasThere(y, BeginWait(c), z, d);
    }
  }

  lemma MarkReadyKeepsOwned(y: System, i: TaskId, z: System)
    requires Owned(y) && Enabled(y, MarkReady(i)) && Moves(y, ChangeOf(y, MarkReady(i)), z)
    requires z.s == SessionAfter(y, MarkReady(i)) && z.h == HistoryAfter(y, MarkReady(i))
    ensures Owned(z)
  {
    hide Enabled, ChangeOf, SessionAfter, HistoryAfter, Moves;
    SubjectIsThere(y, MarkReady(i));
    MarkReadyDoes(y, i, y.tasks[i].gen, y.tasks[i].owner);
    forall c: TaskId | Supervised(z, c) ensures Supervised(y, c) && y.tasks[c] == z.tasks[c] {
      ChildWasThere(y, MarkReady(i), z, c);
    }
    if Awaited(z, z.s.generation) {
      WaitWasThere(y, MarkReady(i), z, z.s.generation);
    }
  }

  lemma RegisterKeepsOwned(y: System, i: TaskId, z: System)
    requires Owned(y) && Slotted(y) && Slotted(z) && Enabled(y, Register(i))
    requires Moves(y, ChangeOf(y, Register(i)), z)
    requires z.s == SessionAfter(y, Register(i)) && z.h == HistoryAfter(y, Register(i))
    ensures Owned(z)
  {
    hide Enabled, ChangeOf, SessionAfter, HistoryAfter, StopUnderWay;
    SubjectIsThere(y, Register(i));
    var t := y.tasks[i];
    if SpawnGuardViolated(y.s, t.gen) {
      RejectDoes(y, i, t.gen, t.pid, t.origin);
      hide Moves, Awaited;
      RejectedKeepsOwned(y, i, z);
    } else {
      RegisterDoes(y, i, t.gen, t.pid, t.origin);
      IncreasingExtends(y.h.registrations, t.gen);
    }
  }

  lemma RejectedKeepsOwned(y: System, i: TaskId, z: System)
    requires Owned(y) && Enabled(y, Register(i)) && Moves(y, ChangeOf(y, Register(i)), z)
    requires ChangeOf(y, Register(i)).spawned.None? && z.s == y.s && z.h == y.h
    ensures Owned(z)
  {
    hide Enabled, ChangeOf, Awaited;
    AfterIsOfFamily(y, Register(i));
    forall c: TaskId | Supervised(z, c) ensures Supervised(y, c) && y.tasks[c] == z.tasks[c] {
      assert FamilyOf(z.tasks[c]) == Family.Children;
    }
    if Awaited(z, z.s.generation) {
      WaitWasThere(y, Register(i), z, z.s.generation);
    }
  }

  lemma StopKeepsOwned(y: System, z: System)
    requires Owned(y) && Moves(y, ChangeOf(y, Stop), z)
    requires z.s == Stopped(y.s) && z.h.registrations == y.h.registrations
    ensures Owned(z)
  {
    hide Moves, Awaited;
  }

  lemma CleanUpKeepsOwned(y: System, i: TaskId, z: System)
    requires Owned(y) && Enabled(y, CleanUp(i)) && Moves(y, ChangeOf(y, CleanUp(i)), z)
    requires z.s == SessionAfter(y, CleanUp(i)) && z.h == HistoryAfter(y, CleanUp(i))
    ensures Owned(z)
  {
    hide Enabled, ChangeOf, SessionAfter, HistoryAfter, Moves, Awaited;
    SubjectIsThere(y, CleanUp(i));
    CleanUpDoes(y, i, y.tasks[i].gen);
    forall c: TaskId | Supervised(z, c) ensures Supervised(y, c) && y.tasks[c] == z.tasks[c] {
      ChildWasThere(y, CleanUp(i), z, c);
    }
    if Awaited(z, z.s.generation) {
      WaitWasThere(y, CleanUp(i), z, z.s.generation);
    }
  }

  lemma SingleKeepsOwned(y: System, st: Step)
    requires Sound(y) && Owned(y) && Enabled(y, st)
    requires !st.AcquireStart? && !st.SetUpStart? && !st.Exit? && !st.Decide?
    ensures Owned(Next(y, st))
  {
    hide Owned, Enabled, Next, SessionAfter, HistoryAfter, ChangeOf, Moves, Slotted, Numbered;
    var z := Next(y, st);
    NextParts(y, st);
    if st.Register? {
      SlottedKept(y, st);
      RegisterKeepsOwned(y, st.i, z);
    } else if st.CleanUp? {
      CleanUpKeepsOwned(y, st.i, z);
    } else if st.Stop? {
      StopDoes(y);
      StopKeepsOwned(y, z);
    } else if st.MarkReady? {
      MarkReadyKeepsOwned(y, st.i, z);
    } else if st.BeginWait? {
      BeginWaitKeepsOwned(y, st.i, z);
    } else {
      OtherStepKeeps(y, st, z);
    }
  }

  /* ---- The grouped moves ---- */

  lemma NoChildIsLeft(z: System)
    requires Slotted(z) && z.s.childPid.None?
    ensures forall c: TaskId :: !Supervised(z, c)
  {
  }

  lemma StartKeepsOwned(y: System, options: Options, z: System)
    requires Sound(y) && Owned(y) && Slotted(z) && MovesTo(y, StartSession(options), z)
    ensures Owned(z)
  {
    hide Run, Moves, Enabled, Numbered, Slotted, TokensBounded, Awaited;
    StartAchieves(y, options, z);
    StartIsFree(y, options);
    NoChildIsLeft(z);
    NewSessionIsNotAwaited(y, options, z);
  }

  lemma NewSessionIsNotAwaited(y: System, options: Options, z: System)
    requires TokensBounded(y) && Feasible(y, StartSession(options))
    requires Moves(y, MoveChange(y, StartSession(options)), z)
    ensures !Awaited(z, y.s.generation + 1)
  {
    hide Moves, Awaited, Enabled, TokensBounded;
    var c := MoveChange(y, StartSession(options));
    SparedFamily(y, c, z, Waits);
    if Awaited(z, y.s.generation + 1) {
      SparedAwaited(y, c, z, y.s.generation + 1);
      AwaitedIsPast(y, y.s.generation + 1);
    }
  }

  lemma EndKeepsOwned(y: System, i: TaskId, z: System)
    requires Sound(y) && Owned(y) && Slotted(z) && MovesTo(y, EndChild(i), z)
    ensures Owned(z)
  {
    hide Run, Moves, Enabled, Numbered, Slotted, TokensBounded, Awaited;
    EndAchieves(y, i, z);
    ExitIsJoined(y, i);
    NoChildIsLeft(z);
    NextSessionIsNotAwaited(y, i, z);
  }

  lemma NextSessionIsNotAwaited(y: System, i: TaskId, z: System)
    requires TokensBounded(y) && Feasible(y, EndChild(i)) && y.tasks[i].Supervising?
    requires Moves(y, MoveChange(y, EndChild(i)), z)
    ensures !Awaited(z, y.s.generation + 1)
  {
    hide Moves, Awaited, Enabled, TokensBounded, ExitDecision;
    var c := MoveChange(y, EndChild(i));
    ActorIsSubject(y, Exit(i));
    SparedFamily(y, c, z, Waits);
    if Awaited(z, y.s.generation + 1) {
      SparedAwaited(y, c, z, y.s.generation + 1);
      AwaitedIsPast(y, y.s.generation + 1);
    }
  }

  lemma OwnedKept(y: System, m: Move, z: System)
    requires Sound(y) && Owned(y) && Respects(CHILD, y, m) && MovesTo(y, m, z)
    ensures Owned(z)
  {
    hide Sound, Owned, Run;
    SoundAlong(y, Expansion(y, m), z);
    SoundIsSlotted(z);
    match m
    case StartSession(options) => StartKeepsOwned(y, options, z);
    case EndChild(i) => EndKeepsOwned(y, i, z);
    case Single(st) => RunOne(y, st, z); SingleKeepsOwned(y, st);
    case _ =>
  }

  lemma OwnedAlways(r: Restrictions, y: System)
    requires r.start && r.exit && ReachableUnder(r, y)
    ensures Sound(y) && Owned(y)
  {
    hide Sound, Owned, Respects, MovesTo, ReachableUnder;
    ReachableUnderLess(r, CHILD, y);
    InitiallyOwned();
    forall x, m, w | Sound(x) && Owned(x) && Respects(CHILD, x, m) && MovesTo(x, m, w)
      ensures Owned(w)
    {
      OwnedKept(x, m, w);
    }
    HoldsAlways(CHILD, x => Owned(x), y);
  }

  lemma InitiallyOwned()
    ensures Owned(INITIAL)
  {
  }

  /* ---- The child of a session that has ended ---- */

  lemma StepKeepsClaimed(y: System, st: Step)
    requires Claimed(y.s) && Enabled(y, st) && !st.Exit? && !st.Decide?
    ensures Claimed(SessionAfter(y, st))
  {
    if Turns(st) || TouchesSlot(st) {
      hide ReadersDone;
    } else {
      hide SessionAfter, Enabled;
      OthersKeepPhase(y, st);
      OthersKeepSlotFields(y, st);
    }
  }

  lemma EndKeepsClaimed(y: System, i: TaskId)
    requires Feasible(y, EndChild(i))
    ensures Claimed(MoveSession(y, EndChild(i)))
  {
    ExitIsJoined(y, i);
    hide Enabled;
  }

  lemma ClaimedKept(y: System, m: Move, z: System)
    requires Sound(y) && Claimed(y.s) && Respects(EXIT, y, m) && MovesTo(y, m, z)
    ensures Claimed(z.s)
  {
    hide Claimed, Run, Enabled, Slotted, TokensBounded, Numbered, Moves, SessionAfter, Dated,
      AnsweredOnce, AttemptsCounted;
    MoveAchieves(y, m, z);
    match m
    case EndChild(i) => EndKeepsClaimed(y, i);
    case Single(st) => StepKeepsClaimed(y, st);
    case _ =>
  }

  lemma ClaimedAlways(r: Restrictions, y: System)
    requires r.exit && ReachableUnder(r, y)
    ensures Sound(y) && Claimed(y.s)
  {
    hide Sound, Claimed, Respects, MovesTo, ReachableUnder;
    ReachableUnderLess(r, EXIT, y);
    InitiallyOwned();
    forall x, m, w | Sound(x) && Claimed(x.s) && Respects(EXIT, x, m) && MovesTo(x, m, w)
      ensures Claimed(w.s)
    {
      ClaimedKept(x, m, w);
    }
    HoldsAlways(EXIT, (x: System) => Claimed(x.s), y);
  }
}
