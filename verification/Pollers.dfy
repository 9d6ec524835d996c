/**
  Readiness waits under the restrictions of module `Children`: a wait that has begun is served
  until the session is ready, since no late poller can abort the one that serves it.
*/
module Pollers {
  import opened Wrappers
  import opened Sessions
  import opened Protocol
  import opened TaskFrames
  import opened StepEffects
  import opened Footprints
  import opened LockInvariants
  import opened HandleInvariants
  import opened LockTheorems
  import opened SessionMoves
  import opened RestrictedRuns
  import opened Readiness
  import opened Children

  /* ---- What is kept ---- */

  /** The reader that began a wait belongs to a child of the wait's own generation. */
  ghost predicate ReaderFits(y: System, t: Task) {
    t.Waiting? || t.PollerArming? ==>
      Supervised(y, t.reader) && y.tasks[t.reader].gen == t.gen
  }

  ghost predicate ReadersFit(y: System) {
    forall i :: i in y.tasks ==> ReaderFits(y, y.tasks[i])
  }

  /** A poller that is about to be registered is the one task that serves its generation. */
  predicate ArmsServer(i: TaskId, t: Task, j: TaskId, u: Task) {
    && (t.PollerArming? && Awaits(u) && t.gen == u.gen ==> j == t.poller && !u.Waiting?)
    && (t.PollerArming? && u.PollerArming? && t.poller == u.poller ==> i == j)
  }

  ghost predicate ArmsServers(y: System) {
    forall i, j :: i in y.tasks && j in y.tasks ==> ArmsServer(i, y.tasks[i], j, y.tasks[j])
  }

  predicate NotRegistered(s: Session, t: Task) {
    t.PollerArming? ==> s.readinessHandle != Some(t.poller)
  }

  ghost predicate ArmsOnce(y: System) {
    forall i :: i in y.tasks ==> NotRegistered(y.s, y.tasks[i])
  }

  predicate MustServe(s: Session) {
    s.active && !s.ready && s.readyWaitGen == s.generation
  }

  ghost predicate Watched(y: System) {
    ReadersFit(y) && ArmsServers(y) && ArmsOnce(y) && (MustServe(y.s) ==> Awaited(y, y.s.generation))
  }

  /* ---- Readers ---- */

  lemma ChildStays(y: System, st: Step, z: System, c: TaskId)
    requires Enabled(y, st) && Moves(y, ChangeOf(y, st), z) && Supervised(y, c)
    requires !st.Exit? && !st.Decide?
    ensures Supervised(z, c) && z.tasks[c] == y.tasks[c]
  {
    hide Enabled, After, Fresh, Aborts;
    ActorIsSubject(y, st);
  }

  lemma AfterKeepsReader(y: System, st: Step)
    requires Enabled(y, st)
    ensures var c := ChangeOf(y, st);
      && (c.after.Some? && (c.after.value.Waiting? || c.after.value.PollerArming?) ==>
            && y.tasks[c.subject.value].Waiting?
            && c.after.value.reader == y.tasks[c.subject.value].reader
            && c.after.value.gen == y.tasks[c.subject.value].gen)
      && (c.spawned.Some? && (c.spawned.value.Waiting? || c.spawned.value.PollerArming?) ==>
            st.BeginWait? && c.spawned.value == Waiting(y.s.generation, st.i))
  {
    hide SessionAfter, Aborts, SpawnGuardViolated, MayMarkReady, EipValid, RetryValid,
      ContinuesWait, ExitDecision;
  }

  lemma SingleKeepsReaders(y: System, st: Step, z: System)
    requires ReadersFit(y) && ChildIsCurrent(y) && Enabled(y, st) && Moves(y, ChangeOf(y, st), z)
    requires !st.Exit? && !st.Decide?
    ensures ReadersFit(z)
  {
    hide Enabled, ChangeOf, ReadersDone;
    AfterKeepsReader(y, st);
    if st.BeginWait? {
      BeginWaitIsAllowed(y, st.i);
    }
    forall k | k in z.tasks ensures ReaderFits(z, z.tasks[k]) {
      var t := z.tasks[k];
      if t.Waiting? || t.PollerArming? {
        assert Supervised(y, t.reader) && y.tasks[t.reader].gen == t.gen by {
          if k in y.tasks && y.tasks[k] == t {
            assert ReaderFits(y, y.tasks[k]);
          } else if ChangeOf(y, st).subject == Some(k) {
            assert ReaderFits(y, y.tasks[k]);
          }
        }
        ChildStays(y, st, z, t.reader);
      }
    }
  }

  /* ---- Registering pollers ---- */

  lemma SparedArms(y: System, c: Change, z: System)
    requires ArmsServers(y) && ArmsOnce(y) && SameFamily(y, c, z, Waits)
    requires SameOrNone(z.s.readinessHandle, y.s.readinessHandle)
    ensures ArmsServers(z) && ArmsOnce(z)
  {
    forall i, j | i in z.tasks && j in z.tasks ensures ArmsServer(i, z.tasks[i], j, z.tasks[j]) {
      if FamilyOf(z.tasks[i]) == Waits && FamilyOf(z.tasks[j]) == Waits {
        assert ArmsServer(i, y.tasks[i], j, y.tasks[j]);
      }
    }
    forall i | i in z.tasks ensures NotRegistered(z.s, z.tasks[i]) {
      if FamilyOf(z.tasks[i]) == Waits {
        assert NotRegistered(y.s, y.tasks[i]);
      }
    }
  }

  /** No poller of a generation is being registered before its wait begins. */
  lemma NoneArmsYet(y: System, k: TaskId)
    requires Waited(y) && MayBeginWait(y.s) && k in y.tasks && y.tasks[k].PollerArming?
    ensures y.tasks[k].gen < y.s.generation
  {
    NotWaitedYet(y.s, y.h.waits);
    assert WaitFits(y.s, y.h.waits, y.tasks[k]);
  }

  lemma BeginWaitKeepsArms(y: System, c: TaskId, z: System)
    requires ArmsServers(y) && ArmsOnce(y) && Waited(y) && MayBeginWait(y.s)
    requires Moves(y, Appearing(Waiting(y.s.generation, c)), z) && z.s == WaitBegun(y.s)
    ensures ArmsServers(z) && ArmsOnce(z)
  {
    hide Waited;
    forall i, j | i in z.tasks && j in z.tasks ensures ArmsServer(i, z.tasks[i], j, z.tasks[j]) {
      if i in y.tasks && j in y.tasks {
        assert ArmsServer(i, y.tasks[i], j, y.tasks[j]);
      } else if i in y.tasks && y.tasks[i].PollerArming? {
        NoneArmsYet(y, i);
      }
    }
    forall i | i in z.tasks ensures NotRegistered(z.s, z.tasks[i]) {
      if i in y.tasks {
        assert NotRegistered(y.s, y.tasks[i]);
      }
    }
  }

  /** A wait that goes on as the same task, past its beginning. */
  predicate GoesOn(t: Task, c: Change) {
    && Awaits(t) && c.spawned.None?
    && (c.after.Some? && FamilyOf(c.after.value) == Waits ==>
          Awaits(c.after.value) && !c.after.value.Waiting? && c.after.value.gen == t.gen)
  }

  lemma GoingOnKeepsArms(y: System, i: TaskId, c: Change, z: System)
    requires ArmsServers(y) && ArmsOnce(y) && c.subject == Some(i) && Moves(y, c, z)
    requires GoesOn(y.tasks[i], c) && z.s.readinessHandle == y.s.readinessHandle
    ensures ArmsServers(z) && ArmsOnce(z)
  {
    forall a | a in z.tasks
      ensures a in y.tasks && (z.tasks[a] == y.tasks[a] || LaterStage(y.tasks[a], z.tasks[a]))
    {
    }
    hide Moves, GoesOn;
    forall a, b | a in z.tasks && b in z.tasks ensures ArmsServer(a, z.tasks[a], b, z.tasks[b]) {
      assert ArmsServer(a, y.tasks[a], b, y.tasks[b]);
    }
    forall a | a in z.tasks ensures NotRegistered(z.s, z.tasks[a]) {
      assert NotRegistered(y.s, y.tasks[a]);
    }
  }

  /** What a waiting task may have become: a later stage of its wait, or no wait at all. */
  predicate LaterStage(t: Task, u: Task) {
    Awaits(t) && !u.PollerArming? && (Awaits(u) ==> !u.Waiting? && u.gen == t.gen)
  }

  lemma ArmingPair(y: System, i: TaskId, z: System, a: TaskId, b: TaskId)
    requires i in y.tasks && y.tasks[i].Waiting? && y.next !in y.tasks
    requires var t := y.tasks[i];
      Moves(y, Change(Some(i), Some(PollerArming(t.gen, t.reader, y.next)), Some(Polling(t.gen, false)), {}), z)
    requires a in z.tasks && b in z.tasks
    requires var oa, ob := Source(y, i, a), Source(y, i, b);
      && ArmsServer(oa, y.tasks[oa], ob, y.tasks[ob])
      && SameWait(oa, y.tasks[oa], ob, y.tasks[ob])
      && HandlesBelow(y.tasks[oa], y.next) && HandlesBelow(y.tasks[ob], y.next)
    ensures ArmsServer(a, z.tasks[a], b, z.tasks[b])
  {
  }

  lemma SpawnPollerKeepsArms(y: System, i: TaskId, z: System)
    requires Numbered(y) && Unique(y) && ArmsServers(y) && ArmsOnce(y)
    requires i in y.tasks && y.tasks[i].Waiting?
    requires var t := y.tasks[i];
      Moves(y, Change(Some(i), Some(PollerArming(t.gen, t.reader, y.next)), Some(Polling(t.gen, false)), {}), z)
    requires z.s == y.s
    ensures ArmsServers(z) && ArmsOnce(z)
  {
    hide ArmsServer, SameWait;
    forall a, b | a in z.tasks && b in z.tasks ensures ArmsServer(a, z.tasks[a], b, z.tasks[b]) {
      ArmingPair(y, i, z, a, b);
    }
    forall a | a in z.tasks ensures NotRegistered(z.s, z.tasks[a]) {
      if a in y.tasks {
        assert NotRegistered(y.s, y.tasks[a]);
      }
    }
  }

  lemma ArmPollerKeepsArms(y: System, i: TaskId, z: System)
    requires ArmsServers(y) && ArmsOnce(y) && i in y.tasks && y.tasks[i].PollerArming?
    requires Moves(y, Change(Some(i), None, None, AbortedBy(y.s.readinessHandle)), z)
    requires z.s.readinessHandle == Some(y.tasks[i].poller)
    ensures ArmsServers(z) && ArmsOnce(z)
  {
    forall a, b | a in z.tasks && b in z.tasks ensures ArmsServer(a, z.tasks[a], b, z.tasks[b]) {
      assert ArmsServer(a, y.tasks[a], b, y.tasks[b]);
    }
    forall a | a in z.tasks ensures NotRegistered(z.s, z.tasks[a]) {
      assert ArmsServer(a, y.tasks[a], i, y.tasks[i]);
    }
  }

  predicate PassesOn(st: Step) {
    st.SkipDial? || st.CheckPoll? || st.DialFails? || st.DialSucceeds? || st.MarkReady?
  }

  lemma StepGoesOn(y: System, st: Step)
    requires Enabled(y, st) && PassesOn(st)
    ensures var c := ChangeOf(y, st);
      c.subject.Some? && c.subject.value in y.tasks && GoesOn(y.tasks[c.subject.value], c)
  {
    hide SessionAfter, Aborts, ContinuesWait, MayMarkReady;
  }

  lemma SingleKeepsArms(y: System, st: Step, z: System)
    requires Numbered(y) && Waited(y) && ArmsServers(y) && ArmsOnce(y) && Enabled(y, st)
    requires Moves(y, ChangeOf(y, st), z) && z.s == SessionAfter(y, st)
    ensures ArmsServers(z) && ArmsOnce(z)
  {
    hide Enabled, ChangeOf, SessionAfter, Moves, Numbered, ArmsServers, ArmsOnce, Waited, Unique,
      Spares, GoesOn;
    if st.BeginWait? {
      BeginWaitIsAllowed(y, st.i);
      BeginWaitDoes(y, st.i);
      BeginWaitKeepsArms(y, st.i, z);
    } else if st.SpawnPoller? {
      SubjectIsThere(y, st);
      SpawnPollerDoes(y, st.i, y.tasks[st.i].gen, y.tasks[st.i].reader);
      WaitedIsUnique(y);
      SpawnPollerKeepsArms(y, st.i, z);
    } else if st.ArmPoller? {
      SubjectIsThere(y, st);
      var t := y.tasks[st.i];
      ArmPollerDoes(y, st.i, t.gen, t.reader, t.poller);
      ArmPollerKeepsArms(y, st.i, z);
    } else if PassesOn(st) {
      OthersSetNoHandle(y, st);
      StepGoesOn(y, st);
      PassingSetsNoHandle(y, st);
      GoingOnKeepsArms(y, ChangeOf(y, st).subject.value, ChangeOf(y, st), z);
    } else {
      OthersSetNoPoller(y, st);
      StepSpares(y, st, Waits);
      SparedFamily(y, ChangeOf(y, st), z, Waits);
      SparedArms(y, ChangeOf(y, st), z);
    }
  }

  lemma PassingSetsNoHandle(y: System, st: Step)
    requires Enabled(y, st) && PassesOn(st)
    ensures SessionAfter(y, st).readinessHandle == y.s.readinessHandle
  {
    hide Enabled, MayMarkReady;
  }

  lemma WaitedIsUnique(y: System)
    requires Waited(y)
    ensures Unique(y)
  {
  }

  /* ---- Something serves a wait ---- */

  lemma ServedBy(z: System, k: TaskId, gen: nat)
    requires k in z.tasks && Awaits(z.tasks[k]) && z.tasks[k].gen == gen
    ensures Awaited(z, gen)
  {
  }

  /** The server of the current generation is not the poller that a registration replaces. */
  lemma ServerIsNotReplaced(y: System, i: TaskId, k: TaskId)
    requires ChildIsCurrent(y) && ReadersFit(y) && ArmsServers(y) && ArmsOnce(y)
    requires i in y.tasks && y.tasks[i].PollerArming?
    requires k in y.tasks && Awaits(y.tasks[k]) && Current(y.s, y.tasks[k].gen)
    ensures y.s.readinessHandle != Some(k)
  {
    assert ReaderFits(y, y.tasks[i]) && NotRegistered(y.s, y.tasks[i]);
    assert ArmsServer(i, y.tasks[i], k, y.tasks[k]);
  }

  lemma ServerStays(y: System, st: Step, z: System, k: TaskId)
    requires Aimed(y) && ChildIsCurrent(y) && ReadersFit(y) && ArmsServers(y) && ArmsOnce(y)
    requires Enabled(y, st) && Moves(y, ChangeOf(y, st), z) && Subject(st) != Some(k)
    requires k in y.tasks && Awaits(y.tasks[k]) && Current(y.s, y.tasks[k].gen)
    ensures Awaited(z, y.tasks[k].gen)
  {
    hide Aimed, ChildIsCurrent, ReadersFit, ArmsServers, ArmsOnce, Enabled, After, Fresh, Aborts;
    if k in ChangeOf(y, st).aborts && y.tasks[k].Abortable() {
      AbortedPoller(y, st, k);
      SubjectIsThere(y, st);
      ServerIsNotReplaced(y, st.i, k);
    } else {
      ServedBy(z, k, y.tasks[k].gen);
    }
  }

  /** A server that steps is followed by another, or the session becomes ready. */
  lemma ServerGoesOn(y: System, st: Step)
    requires Enabled(y, st) && MustServe(y.s) && Subject(st).Some? && !st.MarkReady?
    requires var t := y.tasks[Subject(st).value]; Awaits(t) && t.gen == y.s.generation
    ensures var c := ChangeOf(y, st);
      || (c.after.Some? && Awaits(c.after.value) && c.after.value.gen == y.s.generation)
      || (c.spawned.Some? && Awaits(c.spawned.value) && c.spawned.value.gen == y.s.generation)
  {
    hide SessionAfter, Aborts;
  }

  lemma ServedOn(y: System, c: Change, z: System, gen: nat)
    requires Moves(y, c, z) && c.subject.Some?
    requires (c.after.Some? && Awaits(c.after.value) && c.after.value.gen == gen)
      || (c.spawned.Some? && Awaits(c.spawned.value) && c.spawned.value.gen == gen)
    ensures Awaited(z, gen)
  {
    if c.after.Some? && Awaits(c.after.value) && c.after.value.gen == gen {
      ServedBy(z, c.subject.value, gen);
    } else {
      ServedBy(z, y.next, gen);
    }
  }

  /** The session still waits for the generation for which it waited before. */
  lemma StillWaits(y: System, st: Step)
    requires Enabled(y, st) && Calm(y.s) && MustServe(SessionAfter(y, st))
    requires !st.AcquireStart? && !st.SetUpStart? && !st.BeginWait?
    ensures MustServe(y.s) && SessionAfter(y, st).generation == y.s.generation
    ensures st.MarkReady? ==> !(Awaits(y.tasks[st.i]) && y.tasks[st.i].gen == y.s.generation)
  {
    if st.MarkReady? {
      hide Calm;
    } else {
      hide SessionAfter, Enabled;
      StepIsSteady(y, st);
    }
  }

  lemma SingleKeepsServed(y: System, st: Step, z: System)
    requires Sound(y) && Waited(y) && ChildIsCurrent(y) && Watched(y) && Enabled(y, st)
    requires !st.AcquireStart? && !st.SetUpStart?
    requires Moves(y, ChangeOf(y, st), z) && z.s == SessionAfter(y, st)
    ensures MustServe(z.s) ==> Awaited(z, z.s.generation)
  {
    hide Aimed, Numbered, Calm, Logged, AllFit, Unique, ChildIsCurrent, ReadersFit, ArmsServers,
      ArmsOnce, Enabled, ChangeOf, SessionAfter, Moves, Awaited;
    if st.BeginWait? {
      BeginWaitIsAllowed(y, st.i);
      BeginWaitDoes(y, st.i);
      BegunIsServed(y, st.i, z);
    } else if MustServe(z.s) {
      StillWaits(y, st);
      var k := Server(y);
      if Subject(st) == Some(k) {
        ServerGoesOn(y, st);
        ServedOn(y, ChangeOf(y, st), z, y.s.generation) by { SubjectOfChange(y, st); }
      } else {
        ServerStays(y, st, z, k);
      }
    }
  }

  lemma SubjectOfChange(y: System, st: Step)
    requires Enabled(y, st)
    ensures ChangeOf(y, st).subject == Subject(st)
  {
    hide Enabled, Subject, After, Fresh, Aborts;
  }

  ghost function Server(y: System): (k: TaskId)
    requires Awaited(y, y.s.generation)
    ensures k in y.tasks && Awaits(y.tasks[k]) && y.tasks[k].gen == y.s.generation
  {
    var k :| k in y.tasks && Awaits(y.tasks[k]) && y.tasks[k].gen == y.s.generation;
    k
  }

  lemma BegunIsServed(y: System, c: TaskId, z: System)
    requires Moves(y, Appearing(Waiting(y.s.generation, c)), z)
    ensures Awaited(z, y.s.generation)
  {
    ServedBy(z, y.next, y.s.generation);
  }

  /* ---- Every move ---- */

  lemma SingleKeepsWatched(y: System, st: Step)
    requires Sound(y) && Waited(y) && Owned(y) && Watched(y) && Enabled(y, st)
    requires !st.AcquireStart? && !st.SetUpStart? && !st.Exit? && !st.Decide?
    ensures Watched(Next(y, st))
  {
    hide Waited, Enabled, Next, SessionAfter, HistoryAfter, ChangeOf, Moves, Numbered,
      ReadersFit, ArmsServers, ArmsOnce, Awaited, ChildIsCurrent;
    NextParts(y, st);
    SingleKeepsReaders(y, st, Next(y, st));
    SingleKeepsArms(y, st, Next(y, st));
    SingleKeepsServed(y, st, Next(y, st));
  }

  /** Nothing is read while no child is there. */
  lemma NoReaders(y: System)
    requires ReadersFit(y) && (forall c: TaskId :: !Supervised(y, c))
    ensures forall i :: i in y.tasks ==> !y.tasks[i].Waiting? && !y.tasks[i].PollerArming?
  {
    forall i | i in y.tasks ensures !y.tasks[i].Waiting? && !y.tasks[i].PollerArming? {
      assert ReaderFits(y, y.tasks[i]);
    }
  }

  lemma StartKeepsWatched(y: System, options: Options, z: System)
    requires Sound(y) && Waited(y) && Watched(y) && MovesTo(y, StartSession(options), z)
    ensures Watched(z)
  {
    hide Run, Enabled, Numbered, Slotted, TokensBounded, Awaited, Waited, ArmsServers, ArmsOnce,
      Moves;
    StartAchieves(y, options, z);
    StartIsFree(y, options);
    SoundIsSlotted(y);
    NoChildIsLeft(y);
    NoReaders(y);
    var c := MoveChange(y, StartSession(options));
    SparedFamily(y, c, z, Waits);
    SparedArms(y, c, z);
    forall k | k in z.tasks ensures ReaderFits(z, z.tasks[k]) {
      assert FamilyOf(z.tasks[k]) == Waits ==> k in y.tasks && y.tasks[k] == z.tasks[k];
    }
  }

  /** A child exits only when its readers are done, and there is no other child. */
  lemma ExitIsRead(y: System, i: TaskId)
    requires Slotted(y) && ReadersFit(y) && Enabled(y, Exit(i))
    ensures forall k :: k in y.tasks ==> !y.tasks[k].Waiting? && !y.tasks[k].PollerArming?
  {
    ExitIsJoined(y, i);
    hide Enabled, StopUnderWay;
    forall k | k in y.tasks ensures !y.tasks[k].Waiting? && !y.tasks[k].PollerArming? {
      assert ReaderFits(y, y.tasks[k]);
    }
  }

  lemma EndIsSteady(y: System, i: TaskId)
    requires Calm(y.s) && ChildIsCurrent(y) && Feasible(y, EndChild(i))
    ensures Steady(y.s, MoveSession(y, EndChild(i))) && !MustServe(MoveSession(y, EndChild(i)))
    ensures SameOrNone(MoveSession(y, EndChild(i)).readinessHandle, y.s.readinessHandle)
  {
    ExitIsJoined(y, i);
    hide Enabled;
  }

  lemma EndKeepsWatched(y: System, i: TaskId, z: System)
    requires Sound(y) && Waited(y) && Owned(y) && Watched(y) && MovesTo(y, EndChild(i), z)
    ensures Watched(z)
  {
    hide Run, Enabled, Numbered, Slotted, TokensBounded, Awaited, ArmsServers, ArmsOnce, Moves,
      Logged, AllFit, Unique, ChildIsCurrent, ExitDecision, MoveSession, Steady;
    EndAchieves(y, i, z);
    ExitIsRead(y, i);
    ExitIsJoined(y, i);
    EndIsSteady(y, i);
    var c := MoveChange(y, EndChild(i));
    ActorIsSubject(y, Exit(i));
    SparedFamily(y, c, z, Waits);
    SparedArms(y, c, z);
    forall k | k in z.tasks ensures ReaderFits(z, z.tasks[k]) {
      assert FamilyOf(z.tasks[k]) == Waits ==> k in y.tasks && y.tasks[k] == z.tasks[k];
    }
  }

  ghost predicate Served(y: System) {
    Waited(y) && Owned(y) && Watched(y)
  }

  lemma ServedKept(y: System, m: Move, z: System)
    requires Sound(y) && Served(y) && Respects(CHILD, y, m) && MovesTo(y, m, z)
    ensures Served(z)
  {
    hide Sound, Waited, Owned, Watched, Run;
    OwnedKept(y, m, z);
    match m
    case StartSession(options) =>
      StartKeepsWaits(y, options, z);
      StartKeepsWatched(y, options, z);
    case EndChild(i) =>
      EndKeepsWaits(y, i, z);
      EndKeepsWatched(y, i, z);
    case Single(st) =>
      RunOne(y, st, z);
      SingleKeepsWaits(y, st);
      SingleKeepsWatched(y, st);
    case _ =>
  }

  lemma EndKeepsWaits(y: System, i: TaskId, z: System)
    requires Sound(y) && Waited(y) && MovesTo(y, EndChild(i), z)
    ensures Waited(z)
  {
    hide Sound, Waited, Enabled, Next;
    RunTwo(y, Exit(i), Decide(i), z);
    SoundKept(y, Exit(i));
    SingleKeepsWaits(y, Exit(i));
    SingleKeepsWaits(Next(y, Exit(i)), Decide(i));
  }

  lemma ServedAlways(r: Restrictions, y: System)
    requires r.start && r.exit && ReachableUnder(r, y)
    ensures Sound(y) && Served(y)
  {
    hide Sound, Served, Respects, MovesTo, ReachableUnder;
    ReachableUnderLess(r, CHILD, y);
    InitiallyServed();
    forall x, m, w | Sound(x) && Served(x) && Respects(CHILD, x, m) && MovesTo(x, m, w)
      ensures Served(w)
    {
      ServedKept(x, m, w);
    }
    HoldsAlways(CHILD, x => Served(x), y);
  }

  lemma InitiallyServed()
    ensures Served(INITIAL)
  {
  }
}
