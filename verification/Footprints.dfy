/**
  What a lock-section step leaves alone: the fields of the session, the logs of the history,
  and the families of tasks that it does not concern.
*/
module Footprints {
  import opened Wrappers
  import opened Sessions
  import opened Protocol
  import opened TaskFrames

  /* ---- The session ---- */

  /** The steps that can end a session, begin one or move the generation on. */
  predicate Turns(st: Step) {
    st.AcquireStart? || st.SetUpStart? || st.CleanUp? || st.Stop? || st.Decide?
  }

  lemma OthersKeepActive(y: System, st: Step)
    requires Enabled(y, st) && !Turns(st)
    ensures SessionAfter(y, st).active == y.s.active
  {
    hide Enabled, Poised, Subject, Submission, MayMarkReady, EipValid, SpawnGuardViolated,
      Listening;
    hide Decided, SetUp, Acquired, Stopped, CleanedUp, ExitDecision, CleanUpSkips;
  }

  lemma OthersKeepGeneration(y: System, st: Step)
    requires Enabled(y, st) && !Turns(st)
    ensures SessionAfter(y, st).generation == y.s.generation
  {
    hide Enabled, Poised, Subject, Submission, MayMarkReady, EipValid, SpawnGuardViolated,
      Listening;
    hide Decided, SetUp, Acquired, Stopped, CleanedUp, ExitDecision, CleanUpSkips;
  }

  lemma OthersKeepPhase(y: System, st: Step)
    requires Enabled(y, st) && !Turns(st)
    ensures var s := SessionAfter(y, st);
      s.active == y.s.active && s.generation == y.s.generation
  {
    hide SessionAfter, Enabled;
    OthersKeepActive(y, st);
    OthersKeepGeneration(y, st);
  }

  lemma OthersKeepReady(y: System, st: Step)
    requires Enabled(y, st) && !Turns(st) && !st.MarkReady?
    ensures SessionAfter(y, st).ready == y.s.ready
  {
    hide Enabled, Poised, Subject, Submission, EipValid, SpawnGuardViolated, Listening;
    hide Decided, SetUp, Acquired, Stopped, CleanedUp, ExitDecision, CleanUpSkips;
  }

  lemma OthersKeepWaitGen(y: System, st: Step)
    requires Enabled(y, st) && !Turns(st) && !st.MarkReady? && !st.BeginWait?
    ensures SessionAfter(y, st).readyWaitGen == y.s.readyWaitGen
  {
    hide Enabled, Poised, Subject, Submission, EipValid, SpawnGuardViolated, Listening;
    hide Decided, SetUp, Acquired, Stopped, CleanedUp, ExitDecision, CleanUpSkips;
  }

  lemma OthersKeepOpened(y: System, st: Step)
    requires Enabled(y, st) && !Turns(st) && !st.MarkEip?
    ensures SessionAfter(y, st).eipOpened == y.s.eipOpened
  {
    hide Enabled, Poised, Subject, Submission, MayMarkReady, SpawnGuardViolated, Listening;
    hide Decided, SetUp, Acquired, Stopped, CleanedUp, ExitDecision, CleanUpSkips;
  }

  lemma OthersRaiseNothing(y: System, st: Step)
    requires Enabled(y, st) && !st.RaiseInput? && !st.RaiseCaptcha?
    ensures var awaiting := SessionAfter(y, st).awaiting;
      awaiting == y.s.awaiting || awaiting == None
  {
    hide Enabled, Poised, Subject, Submission, EipValid, MayMarkReady, SpawnGuardViolated,
      CleanUpSkips, Listening;
    if Turns(st) {
      TurnsRaiseNothing(y, st);
    }
  }

  lemma TurnsRaiseNothing(y: System, st: Step)
    requires Enabled(y, st) && Turns(st)
    ensures var awaiting := SessionAfter(y, st).awaiting;
      awaiting == y.s.awaiting || awaiting == None
  {
    hide Enabled, Poised, Subject;
  }

  lemma OthersKeepLastOptions(y: System, st: Step)
    requires Enabled(y, st) && !st.SetUpStart?
    ensures SessionAfter(y, st).lastOptions == y.s.lastOptions
  {
    hide Enabled, Poised, Subject, Submission, EipValid, MayMarkReady, SpawnGuardViolated,
      CleanUpSkips, Listening, SetUp;
  }

  lemma OthersKeepEipOptions(y: System, st: Step)
    requires Enabled(y, st) && !st.SetUpStart? && !st.PrepareRetry?
    ensures SessionAfter(y, st).eipOptions == y.s.eipOptions
  {
    hide Enabled, Poised, Subject, Submission, EipValid, MayMarkReady, SpawnGuardViolated,
      CleanUpSkips, Listening, SetUp;
    if Turns(st) {
      hide MarkedReady, CaptchaRequested, Bumped, Registered;
    } else {
      hide Decided, Acquired, Stopped, CleanedUp, ExitDecision;
    }
  }

  /** The steps that set the attempt counter. */
  predicate Counts(st: Step) {
    st.SetUpStart? || st.Stop? || st.MarkReady? || st.Decide? || st.BumpAttempt?
  }

  lemma OthersKeepAttempt(y: System, st: Step)
    requires Enabled(y, st) && !Counts(st)
    ensures SessionAfter(y, st).retryAttempt == y.s.retryAttempt
  {
    hide Enabled, Poised, Subject, Submission, EipValid, SpawnGuardViolated, CleanUpSkips,
      Listening;
  }

  predicate TouchesSlot(st: Step) {
    st.Register? || st.CleanUp? || st.Stop? || st.Exit?
  }

  lemma TurnsKeepSlot(y: System, st: Step)
    requires Enabled(y, st) && (st.AcquireStart? || st.SetUpStart? || st.Decide?)
    ensures var s := SessionAfter(y, st);
      s.childPid == y.s.childPid && s.stdinTx == y.s.stdinTx && s.stopTx == y.s.stopTx
  {
    hide Enabled;
  }

  lemma OthersKeepPid(y: System, st: Step)
    requires Enabled(y, st) && !TouchesSlot(st)
    ensures SessionAfter(y, st).childPid == y.s.childPid
  {
    hide Enabled, Poised, Subject, Submission, MayMarkReady, EipValid, Listening, CleanUpSkips,
      SpawnGuardViolated, Registered, Cleared, CleanedUp, Stopped;
    if Turns(st) {
      hide SessionAfter;
      TurnsKeepSlot(y, st);
    } else {
      hide Decided, SetUp, Acquired, ExitDecision;
    }
  }

  lemma OthersKeepStdin(y: System, st: Step)
    requires Enabled(y, st) && !TouchesSlot(st)
    ensures SessionAfter(y, st).stdinTx == y.s.stdinTx
  {
    hide Enabled, Poised, Subject, Submission, MayMarkReady, EipValid, Listening, CleanUpSkips,
      SpawnGuardViolated, Registered, Cleared, CleanedUp, Stopped;
    if Turns(st) {
      hide SessionAfter;
      TurnsKeepSlot(y, st);
    } else {
      hide Decided, SetUp, Acquired, ExitDecision;
    }
  }

  lemma OthersKeepStop(y: System, st: Step)
    requires Enabled(y, st) && !TouchesSlot(st)
    ensures SessionAfter(y, st).stopTx == y.s.stopTx
  {
    hide Enabled, Poised, Subject, Submission, MayMarkReady, EipValid, Listening, CleanUpSkips,
      SpawnGuardViolated, Registered, Cleared, CleanedUp, Stopped;
    if Turns(st) {
      hide SessionAfter;
      TurnsKeepSlot(y, st);
    } else {
      hide Decided, SetUp, Acquired, ExitDecision;
    }
  }

  lemma OthersKeepSlotFields(y: System, st: Step)
    requires Enabled(y, st) && !TouchesSlot(st)
    ensures var s := SessionAfter(y, st);
      s.childPid == y.s.childPid && s.stdinTx == y.s.stdinTx && s.stopTx == y.s.stopTx
  {
    hide SessionAfter, Enabled;
    OthersKeepPid(y, st);
    OthersKeepStdin(y, st);
    OthersKeepStop(y, st);
  }

  /* ---- The history ---- */

  lemma OthersLogNothing(y: System, st: Step)
    requires Enabled(y, st)
    ensures !st.Register? ==> HistoryAfter(y, st).registrations == y.h.registrations
    ensures !st.BeginWait? ==> HistoryAfter(y, st).waits == y.h.waits
    ensures !st.SetUpStart? && !st.OpenEip? ==> HistoryAfter(y, st).opens == y.h.opens
    ensures !st.SetUpStart? ==> HistoryAfter(y, st).options == y.h.options
  {
    hide Enabled, Poised, Subject, Submission, MayMarkReady, ExitDecision, SpawnGuardViolated,
      Listening, Raised;
  }

  lemma OthersTallyNothing(y: System, st: Step)
    requires Enabled(y, st) && !st.Submit? && !st.RaiseInput? && !st.RaiseCaptcha?
    ensures HistoryAfter(y, st).raised == y.h.raised
    ensures HistoryAfter(y, st).answered == y.h.answered
  {
    hide Enabled, Poised, Subject, MayMarkReady, ExitDecision, SpawnGuardViolated;
  }

  lemma OthersKeepAttempts(y: System, st: Step)
    requires Enabled(y, st) && !Counts(st)
    ensures HistoryAfter(y, st).attempts == y.h.attempts
  {
    hide Enabled, Poised, Subject, Submission, SpawnGuardViolated, Raised, Listening;
  }

  /* ---- Families of tasks ---- */

  datatype Family = Starts | Attempts | Children | Stops | Waits | Openers

  function FamilyOf(t: Task): Family {
    match t
    case Starting(_) => Starts
    case Spawning(_, _) | Registering(_, _, _) | StartFailed(_) | Scheduling | TimerArming(_)
       | TimerSleeping(_) | RetryChecked(_, _) | RetryAnnounced(_, _) => Attempts
    case Supervising(_, _) | Deciding(_) => Children
    case Stopping(_, _, _, _) | StopSending(_) => Stops
    case Waiting(_, _) | PollerArming(_, _, _) | Polling(_, _) | MarkingReady(_, _) => Waits
    case EipSpawning(_, _) | EipArming(_, _) | EipSleeping(_) | EipOpening(_) | EipMarking(_) =>
      Openers
  }

  /** The family of the task that takes the step. */
  function Actor(st: Step): Option<Family> {
    match st
    case SetUpStart(_) => Some(Starts)
    case FailSpawn(_) | SpawnChild(_, _) | Register(_) | CleanUp(_) | BumpAttempt(_)
       | ArmTimer(_) | CheckRetry(_) | RecheckRetry(_) | PrepareRetry(_) => Some(Attempts)
    case Exit(_) | Decide(_) => Some(Children)
    case AbortStopped(_) | SendStop(_) => Some(Stops)
    case SkipDial(_) | SpawnPoller(_) | ArmPoller(_) | CheckPoll(_) | DialFails(_)
       | DialSucceeds(_) | MarkReady(_) => Some(Waits)
    case SpawnOpener(_) | ArmOpener(_) | CheckEip(_) | OpenEip(_, _) | MarkEip(_) => Some(Openers)
    case _ => None
  }

  /** The family to which that task belongs afterwards, if it goes on. */
  function Becomes(st: Step): Option<Family> {
    if st.SetUpStart? || st.Decide? then Some(Attempts)
    else if st.MarkReady? then Some(Openers)
    else Actor(st)
  }

  /** The family of the task that the step spawns, if it does. */
  function Spawns(st: Step): Option<Family> {
    match st
    case AcquireStart(_) => Some(Starts)
    case Register(_) => Some(Children)
    case Stop => Some(Stops)
    case BeginWait(_) | SpawnPoller(_) => Some(Waits)
    case SpawnOpener(_) => Some(Openers)
    case BumpAttempt(_) => Some(Attempts)
    case _ => None
  }

  lemma ActorIsSubject(y: System, st: Step)
    requires Enabled(y, st)
    ensures Subject(st).Some? <==> Actor(st).Some?
    ensures Subject(st).Some? ==>
      Subject(st).value in y.tasks && FamilyOf(y.tasks[Subject(st).value]) == Actor(st).value
  {
  }

  lemma AfterIsOfFamily(y: System, st: Step)
    requires Enabled(y, st)
    ensures ChangeOf(y, st).after.Some? ==>
      Becomes(st) == Some(FamilyOf(ChangeOf(y, st).after.value))
  {
    hide SessionAfter, Fresh, Aborts, MayMarkReady, EipValid, RetryValid, ContinuesWait,
      SpawnGuardViolated, ExitDecision;
  }

  lemma SpawnedIsOfFamily(y: System, st: Step)
    requires Enabled(y, st)
    ensures ChangeOf(y, st).spawned.Some? ==>
      Spawns(st) == Some(FamilyOf(ChangeOf(y, st).spawned.value))
  {
    hide SessionAfter, After, Aborts, SpawnGuardViolated, Enabled, Poised;
  }

  /** A change that involves no task of family `f`, other than by aborting it. */
  ghost predicate Spares(y: System, c: Change, f: Family) {
    && (c.subject.Some? ==> c.subject.value in y.tasks && FamilyOf(y.tasks[c.subject.value]) != f)
    && (c.after.Some? ==> FamilyOf(c.after.value) != f)
    && (c.spawned.Some? ==> FamilyOf(c.spawned.value) != f)
  }

  lemma StepSpares(y: System, st: Step, f: Family)
    requires Enabled(y, st)
    requires Actor(st) != Some(f) && Becomes(st) != Some(f) && Spawns(st) != Some(f)
    ensures Spares(y, ChangeOf(y, st), f)
  {
    hide Enabled, Actor, Becomes, Spawns, FamilyOf, After, Fresh, Aborts, Subject;
    ActorIsSubject(y, st);
    AfterIsOfFamily(y, st);
    SpawnedIsOfFamily(y, st);
  }

  /** What becomes of a family that is spared: nothing is added, and only an abort takes away. */
  ghost predicate SameFamily(y: System, c: Change, z: System, f: Family) {
    && (forall k :: k in z.tasks && FamilyOf(z.tasks[k]) == f ==>
          k in y.tasks && y.tasks[k] == z.tasks[k])
    && (forall k :: k in y.tasks && FamilyOf(y.tasks[k]) == f ==>
          || (k in z.tasks && z.tasks[k] == y.tasks[k])
          || (k in c.aborts && y.tasks[k].Abortable()))
  }

  lemma SparedFamily(y: System, c: Change, z: System, f: Family)
    requires Moves(y, c, z) && Spares(y, c, f)
    ensures SameFamily(y, c, z, f)
  {
  }
}
