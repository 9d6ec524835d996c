/**
  Runs that go wrong when one of the restrictions is lifted and all others are kept. Each lemma
  plays a run and returns the state it ends in.
*/
module SplitRuns {
  import opened Wrappers
  import opened Sessions
  import opened Protocol
  import opened StepEffects
  import opened SessionMoves
  import opened Scenarios

  const EIP_OPTIONS := Options(true, false, "")

  /** An active session with no child and nothing at all under way. */
  predicate Stranded(y: System) {
    y.s.active && y.s.childPid.None? && y.tasks == map[]
  }

  function Started(options: Options): Session {
    SetUp(Acquired(FRESH), options)
  }

  function Connected(options: Options): Session {
    Registered(Started(options), 7, 1)
  }

  const DROPPED := Decided(Cleared(Connected(NO_OPTIONS)), 1)

  lemma FirstStart(r: Restrictions, options: Options) returns (y: System)
    ensures ReachableUnder(r, y) && y.s == Started(options)
    ensures y.h.registrations == [] && y.h.opens == 0 && y.h.options == options
    ensures y.tasks == map[0 := Spawning(1, FromStart)] && y.next == 1
  {
    hide Enabled, SessionAfter, HistoryAfter, ChangeOf, ReachableUnder;
    y := Begins(r);
    y := Starts(r, y, options);
  }

  lemma FirstChild(r: Restrictions, options: Options) returns (y: System)
    ensures ReachableUnder(r, y)
    ensures y.s == Connected(options) && y.h.registrations == [1] && y.h.opens == 0
    ensures y.tasks == map[1 := Supervising(1, 7)] && y.next == 2
    ensures y.h.options == options
  {
    hide Enabled, SessionAfter, HistoryAfter, ChangeOf, ReachableUnder;
    y := FirstStart(r, options);
    SpawnDoes(y, 0, 1, FromStart, 7);
    y := Then(r, y, SpawnChild(0, 7));
    RegisterDoes(y, 0, 1, 7, FromStart);
    y := Then(r, y, Register(0));
  }

  lemma ChildDrops(r: Restrictions) returns (y: System)
    ensures ReachableUnder(r, y)
    ensures y.s == DROPPED && y.h.registrations == [1]
    ensures y.tasks == map[1 := Scheduling] && y.next == 2
  {
    hide Enabled, SessionAfter, HistoryAfter, ChangeOf, ReachableUnder;
    y := FirstChild(r, NO_OPTIONS);
    y := Ends(r, y, 1, 1, 7);
  }

  /* ---- A captcha file noticed late ---- */

  lemma LateCaptcha(r: Restrictions) returns (y: System)
    requires r.start && !r.captcha
    ensures ReachableUnder(r, y)
    ensures y.s == CaptchaRequested(DROPPED) && y.tasks == map[1 := Scheduling] && y.next == 2
  {
    hide Enabled, SessionAfter, HistoryAfter, ChangeOf, ReachableUnder;
    y := ChildDrops(r);
    RaiseCaptchaDoes(y, 1);
    y := Then(r, y, RaiseCaptcha(1));
  }

  /** The captcha file of a child that has just exited is noticed: the retry finds a prompt
      awaited, gives way to it, and nobody will ever answer. */
  lemma LateCaptchaStrands(r: Restrictions) returns (y: System)
    requires r.start && r.schedule && !r.captcha
    ensures ReachableUnder(r, y) && Stranded(y)
  {
    hide Enabled, SessionAfter, HistoryAfter, ChangeOf, ReachableUnder;
    y := LateCaptcha(r);
    y := Reschedules(r, y, 1);
    CheckRetryDoes(y, 2, 2);
    y := Then(r, y, CheckRetry(2));
  }

  /* ---- A timer registered late ---- */

  lemma TimerFiresEarly(r: Restrictions) returns (y: System)
    requires r.start && !r.schedule
    ensures ReachableUnder(r, y) && y.s == Bumped(DROPPED) && y.next == 3
    ensures y.tasks == map[1 := TimerArming(2), 2 := RetryChecked(2, NO_OPTIONS)]
  {
    hide Enabled, SessionAfter, HistoryAfter, ChangeOf, ReachableUnder;
    y := ChildDrops(r);
    BumpDoes(y, 1);
    y := Then(r, y, BumpAttempt(1));
    CheckRetryDoes(y, 2, 2);
    y := Then(r, y, CheckRetry(2));
  }

  lemma RetryFails(r: Restrictions) returns (y: System)
    requires r.start && !r.schedule
    ensures ReachableUnder(r, y) && y.s == Bumped(DROPPED) && y.next == 3
    ensures y.tasks == map[1 := TimerArming(2), 2 := Scheduling]
  {
    hide Enabled, SessionAfter, HistoryAfter, ChangeOf, ReachableUnder;
    y := TimerFiresEarly(r);
    y := GoesAhead(r, y, 2, 2, NO_OPTIONS);
    FailDoes(y, 2, 2, FromRetry);
    y := Then(r, y, FailSpawn(2));
  }

  /** The second section of `schedule_retry` comes after its timer has fired and the next one
      was registered, and cancels that one. */
  lemma LateTimerStrands(r: Restrictions) returns (y: System)
    requires r.start && !r.schedule
    ensures ReachableUnder(r, y) && Stranded(y)
  {
    hide Enabled, SessionAfter, HistoryAfter, ChangeOf, ReachableUnder;
    y := RetryFails(r);
    BumpDoes(y, 2);
    y := Then(r, y, BumpAttempt(2));
    ArmTimerDoes(y, 2, 3);
    y := Then(r, y, ArmTimer(2));
    ArmTimerDoes(y, 1, 2);
    y := ThenAborting(r, y, ArmTimer(1), 3);
  }

  /* ---- A decision taken late ---- */

  lemma FirstChildIsWaited(r: Restrictions, options: Options) returns (y: System)
    ensures ReachableUnder(r, y) && y.s == WaitBegun(Connected(options))
    ensures y.next == 3 && y.h.opens == 0 && y.h.options == options
    ensures y.tasks == map[1 := Supervising(1, 7), 2 := Waiting(1, 1)]
  {
    hide Enabled, SessionAfter, HistoryAfter, ChangeOf, ReachableUnder;
    y := FirstChild(r, options);
    BeginWaitDoes(y, 1);
    y := Then(r, y, BeginWait(1));
  }

  lemma FirstChildIsReady(r: Restrictions, options: Options) returns (y: System)
    requires r.start
    ensures ReachableUnder(r, y) && y.s == MarkedReady(WaitBegun(Connected(options)))
    ensures y.next == 3 && y.h.opens == 0
    ensures y.tasks ==
      if options.eipAutoOpen then map[1 := Supervising(1, 7), 2 := EipSpawning(1, Some(1))]
      else map[1 := Supervising(1, 7)]
    ensures y.h.options == options
  {
    hide Enabled, SessionAfter, HistoryAfter, ChangeOf, ReachableUnder;
    y := FirstChildIsWaited(r, options);
    SkipDialDoes(y, 2, 1, 1);
    y := Then(r, y, SkipDial(2));
    MarkReadyDoes(y, 2, 1, Some(1));
    y := Then(r, y, MarkReady(2));
  }

  lemma ExitWhileReady(r: Restrictions) returns (y: System)
    requires r.start && !r.exit
    ensures ReachableUnder(r, y) && y.s.ready && y.s.stdinTx.None?
    ensures y.tasks == map[1 := Deciding(1)]
  {
    hide Enabled, SessionAfter, HistoryAfter, ChangeOf, ReachableUnder;
    y := FirstChildIsReady(r, NO_OPTIONS);
    ExitDoes(y, 1, 1, 7);
    y := Then(r, y, Exit(1));
  }

  lemma ExitWhileAsking(r: Restrictions) returns (y: System)
    requires r.start && !r.exit
    ensures ReachableUnder(r, y) && y.s.active && y.s.childPid.None? && y.s.awaiting.Some?
  {
    hide Enabled, SessionAfter, HistoryAfter, ChangeOf, ReachableUnder;
    y := FirstChild(r, NO_OPTIONS);
    RaiseInputDoes(y, 1, Sms);
    y := Then(r, y, RaiseInput(1, Sms));
    ExitDoes(y, 1, 1, 7);
    y := Then(r, y, Exit(1));
  }

  /** A manual start overtakes a pending `schedule_retry`, which then schedules its retry under
      the new generation. */
  const OVERTAKEN := Bumped(SetUp(Acquired(DROPPED), NO_OPTIONS)).(retryHandle := Some(3))

  lemma StartOvertakesRetry(r: Restrictions) returns (y: System)
    requires r.start && r.schedule
    ensures ReachableUnder(r, y) && y.s == OVERTAKEN && y.h.registrations == [1] && y.next == 4
    ensures y.tasks == map[2 := Registering(3, 8, FromStart), 3 := TimerSleeping(3)]
  {
    hide Enabled, SessionAfter, HistoryAfter, ChangeOf, ReachableUnder;
    y := ChildDrops(r);
    y := Starts(r, y, NO_OPTIONS);
    y := Reschedules(r, y, 1);
    SpawnDoes(y, 2, 3, FromStart, 8);
    y := Then(r, y, SpawnChild(2, 8));
  }

  lemma RetryIsChecked(r: Restrictions) returns (y: System)
    requires r.start && r.schedule
    ensures ReachableUnder(r, y) && y.s == OVERTAKEN && y.h.registrations == [1] && y.next == 4
    ensures y.tasks == map[2 := Registering(3, 8, FromStart), 3 := RetryChecked(3, NO_OPTIONS)]
  {
    hide Enabled, SessionAfter, HistoryAfter, ChangeOf, ReachableUnder;
    y := StartOvertakesRetry(r);
    CheckRetryDoes(y, 3, 3);
    y := Then(r, y, CheckRetry(3));
  }

  lemma RetryCatchesUp(r: Restrictions) returns (y: System)
    requires r.start && r.schedule
    ensures ReachableUnder(r, y) && y.s == OVERTAKEN && y.h.registrations == [1] && y.next == 4
    ensures y.tasks == map[2 := Registering(3, 8, FromStart), 3 := Registering(3, 9, FromRetry)]
  {
    hide Enabled, SessionAfter, HistoryAfter, ChangeOf, ReachableUnder;
    y := RetryIsChecked(r);
    y := GoesAhead(r, y, 3, 3, NO_OPTIONS);
    SpawnDoes(y, 3, 3, FromRetry, 9);
    y := Then(r, y, SpawnChild(3, 9));
  }

  lemma RetryRegisters(r: Restrictions) returns (y: System)
    requires r.start && r.schedule && !r.exit
    ensures ReachableUnder(r, y) && y.s == OVERTAKEN && y.h.registrations == [1, 3] && y.next == 5
    ensures y.tasks == map[2 := Registering(3, 8, FromStart), 4 := Deciding(3)]
  {
    hide Enabled, SessionAfter, HistoryAfter, ChangeOf, ReachableUnder;
    y := RetryCatchesUp(r);
    RegisterDoes(y, 3, 3, 9, FromRetry);
    y := Then(r, y, Register(3));
    ExitDoes(y, 4, 3, 9);
    y := Then(r, y, Exit(4));
  }

  /** Both children register under generation 3, the second one between the first one's clear
      and its decision. */
  lemma BothRegister(r: Restrictions) returns (y: System)
    requires r.start && r.schedule && !r.exit
    ensures ReachableUnder(r, y) && y.s == Registered(OVERTAKEN, 8, 5) && y.next == 6
    ensures y.h.registrations == [1, 3, 3]
    ensures y.tasks == map[4 := Deciding(3), 5 := Supervising(3, 8)]
  {
    hide Enabled, SessionAfter, HistoryAfter, ChangeOf, ReachableUnder;
    y := RetryRegisters(r);
    RegisterDoes(y, 2, 3, 8, FromStart);
    y := Then(r, y, Register(2));
  }

  /** The second child asks, and the first one's decision ends the session over it. */
  lemma LateDecisionEndsSession(r: Restrictions) returns (y: System)
    requires r.start && r.schedule && !r.exit
    ensures ReachableUnder(r, y) && !y.s.active && y.s.stopTx == Some(5)
    ensures Is(y, 5, Supervising(3, 8))
  {
    hide Enabled, SessionAfter, HistoryAfter, ChangeOf, ReachableUnder;
    y := BothRegister(r);
    RaiseInputDoes(y, 5, Sms);
    y := Then(r, y, RaiseInput(5, Sms));
    DecideDoes(y, 4, 3);
    y := Then(r, y, Decide(4));
  }

  const OUTRUN := Decided(Registered(OVERTAKEN, 8, 5), 3)

  /** The first one's decision moves the generation on under the second child. */
  lemma ChildIsOutrun(r: Restrictions) returns (y: System)
    requires r.start && r.schedule && !r.exit
    ensures ReachableUnder(r, y) && y.s == OUTRUN && y.next == 6
    ensures y.tasks == map[4 := Scheduling, 5 := Supervising(3, 8)]
  {
    hide Enabled, SessionAfter, HistoryAfter, ChangeOf, ReachableUnder;
    y := BothRegister(r);
    DecideDoes(y, 4, 3);
    y := Then(r, y, Decide(4));
  }

  lemma RetryStepsAside(r: Restrictions) returns (y: System)
    requires r.start && r.schedule && !r.exit
    ensures ReachableUnder(r, y) && y.s == Bumped(OUTRUN).(retryHandle := Some(6))
    ensures y.tasks == map[5 := Supervising(3, 8)]
  {
    hide Enabled, SessionAfter, HistoryAfter, ChangeOf, ReachableUnder;
    y := ChildIsOutrun(r);
    y := Reschedules(r, y, 4);
    CheckRetryDoes(y, 6, 4);
    y := Then(r, y, CheckRetry(6));
  }

  /** The second child's own exit is ignored, since it belongs to the past generation. */
  lemma LateDecisionStrands(r: Restrictions) returns (y: System)
    requires r.start && r.schedule && !r.exit
    ensures ReachableUnder(r, y) && Stranded(y)
  {
    hide Enabled, SessionAfter, HistoryAfter, ChangeOf, ReachableUnder;
    y := RetryStepsAside(r);
    ExitDoes(y, 5, 3, 8);
    y := Then(r, y, Exit(5));
    DecideDoes(y, 5, 3);
    y := Then(r, y, Decide(5));
  }

  lemma WaitsOnSecondChild(r: Restrictions) returns (y: System)
    requires r.start && r.schedule && !r.exit
    ensures ReachableUnder(r, y) && y.s == WaitBegun(Registered(OVERTAKEN, 8, 5)) && y.next == 8
    ensures y.tasks == map[4 := Deciding(3), 5 := Supervising(3, 8), 6 := PollerArming(3, 5, 7), 7 := Polling(3, false)]
  {
    hide Enabled, SessionAfter, HistoryAfter, ChangeOf, ReachableUnder;
    y := BothRegister(r);
    BeginWaitDoes(y, 5);
    y := Then(r, y, BeginWait(5));
    SpawnPollerDoes(y, 6, 3, 5);
    y := Then(r, y, SpawnPoller(6));
  }

  lemma WaitsAcrossDecision(r: Restrictions) returns (y: System)
    requires r.start && r.schedule && !r.exit
    ensures ReachableUnder(r, y)
    ensures y.s == Decided(WaitBegun(Registered(OVERTAKEN, 8, 5)), 3) && y.next == 8
    ensures y.tasks == map[4 := Scheduling, 5 := Supervising(3, 8), 6 := PollerArming(3, 5, 7), 7 := Polling(3, false)]
  {
    hide Enabled, SessionAfter, HistoryAfter, ChangeOf, ReachableUnder;
    y := WaitsOnSecondChild(r);
    DecideDoes(y, 4, 3);
    y := Then(r, y, Decide(4));
  }

  lemma WaitsAgain(r: Restrictions) returns (y: System)
    requires r.start && r.schedule && !r.exit
    ensures ReachableUnder(r, y) && y.s.active && !y.s.ready && y.s.readyWaitGen == y.s.generation == 4
    ensures y.tasks == map[4 := Scheduling, 5 := Supervising(3, 8),
                           6 := PollerArming(3, 5, 7), 7 := Polling(3, false),
                           8 := PollerArming(4, 5, 9), 9 := Polling(4, false)]
    ensures y.s.readinessHandle == None
  {
    hide Enabled, SessionAfter, HistoryAfter, ChangeOf, ReachableUnder;
    y := WaitsAcrossDecision(r);
    BeginWaitDoes(y, 5);
    y := Then(r, y, BeginWait(5));
    SpawnPollerDoes(y, 8, 4, 5);
    y := Then(r, y, SpawnPoller(8));
  }

  /** The poller of the generation before is registered last, and aborts the current one. */
  lemma LatePollerLosesWait(r: Restrictions) returns (y: System)
    requires r.start && r.schedule && !r.exit
    ensures ReachableUnder(r, y) && y.s.active && !y.s.ready && y.s.readyWaitGen == y.s.generation == 4
    ensures y.tasks == map[4 := Scheduling, 5 := Supervising(3, 8), 7 := Polling(3, false)]
  {
    hide Enabled, SessionAfter, HistoryAfter, ChangeOf, ReachableUnder;
    y := WaitsAgain(r);
    ArmPollerDoes(y, 8, 4, 5, 9);
    y := Then(r, y, ArmPoller(8));
    ArmPollerDoes(y, 6, 3, 5, 7);
    y := ThenAborting(r, y, ArmPoller(6), 9);
  }

  /* ---- A start interrupted by another ---- */

  const ACQUIRED_TWICE := Acquired(Acquired(FRESH))

  function Shared(options: Options): Session {
    Registered(SetUp(ACQUIRED_TWICE, options), 7, 2)
  }

  lemma BothAcquire(r: Restrictions, options: Options) returns (y: System)
    requires !r.start
    ensures ReachableUnder(r, y) && y.s == ACQUIRED_TWICE && y.next == 2
    ensures y.h.registrations == [] && y.h.waits == []
    ensures y.tasks == map[0 := Starting(options), 1 := Starting(options)]
  {
    hide Enabled, SessionAfter, HistoryAfter, ChangeOf, ReachableUnder;
    y := Begins(r);
    AcquireDoes(y, options);
    y := Then(r, y, AcquireStart(options));
    AcquireDoes(y, options);
    y := Then(r, y, AcquireStart(options));
  }

  lemma SecondSetsUp(r: Restrictions, options: Options) returns (y: System)
    requires !r.start
    ensures ReachableUnder(r, y) && y.s == SetUp(ACQUIRED_TWICE, options) && y.next == 2
    ensures y.h.registrations == [] && y.h.waits == [] && y.h.opens == 0
    ensures y.tasks == map[0 := Starting(options), 1 := Spawning(2, FromStart)]
  {
    hide Enabled, SessionAfter, HistoryAfter, ChangeOf, ReachableUnder;
    y := BothAcquire(r, options);
    SetUpDoes(y, 1, options);
    y := Then(r, y, SetUpStart(1));
  }

  /** Two starts both raise the generation; the second one goes on and gets its child. */
  lemma StartInterrupted(r: Restrictions, options: Options) returns (y: System)
    requires !r.start
    ensures ReachableUnder(r, y) && y.s == Shared(options) && y.next == 3
    ensures y.h.registrations == [2] && y.h.waits == [] && y.h.opens == 0
    ensures y.tasks == map[0 := Starting(options), 2 := Supervising(2, 7)]
  {
    hide Enabled, SessionAfter, HistoryAfter, ChangeOf, ReachableUnder;
    y := SecondSetsUp(r, options);
    SpawnDoes(y, 1, 2, FromStart, 7);
    y := Then(r, y, SpawnChild(1, 7));
    RegisterDoes(y, 1, 2, 7, FromStart);
    y := Then(r, y, Register(1));
  }

  lemma FirstOfTwoWaits(r: Restrictions) returns (y: System)
    requires !r.start
    ensures ReachableUnder(r, y) && y.s == WaitBegun(Shared(NO_OPTIONS)) && y.next == 5
    ensures y.h.waits == [2]
    ensures y.tasks == map[0 := Starting(NO_OPTIONS), 2 := Supervising(2, 7),
                           3 := PollerArming(2, 2, 4), 4 := Polling(2, false)]
  {
    hide Enabled, SessionAfter, HistoryAfter, ChangeOf, ReachableUnder;
    y := StartInterrupted(r, NO_OPTIONS);
    BeginWaitDoes(y, 2);
    y := Then(r, y, BeginWait(2));
    SpawnPollerDoes(y, 3, 2, 2);
    y := Then(r, y, SpawnPoller(3));
  }

  lemma LateSetUpForgetsWait(r: Restrictions) returns (y: System)
    requires !r.start
    ensures ReachableUnder(r, y) && y.next == 5 && y.h.waits == [2] && MayBeginWait(y.s)
    ensures y.s.generation == 2 && Is(y, 2, Supervising(2, 7)) && Is(y, 4, Polling(2, false))
  {
    hide Enabled, SessionAfter, HistoryAfter, ChangeOf, ReachableUnder;
    y := FirstOfTwoWaits(r);
    SetUpDoes(y, 0, NO_OPTIONS);
    y := Then(r, y, SetUpStart(0));
  }

  /** The first start's second section forgets the wait, and the generation begins another. */
  lemma LateSetUpWaitsTwice(r: Restrictions) returns (y: System)
    requires !r.start
    ensures ReachableUnder(r, y) && y.h.waits == [2, 2]
    ensures Is(y, 4, Polling(2, false)) && Is(y, 6, Polling(2, false))
  {
    hide Enabled, SessionAfter, HistoryAfter, ChangeOf, ReachableUnder;
    y := LateSetUpForgetsWait(r);
    BeginWaitDoes(y, 2);
    y := Then(r, y, BeginWait(2));
    SpawnPollerDoes(y, 5, 2, 2);
    y := Then(r, y, SpawnPoller(5));
  }

  /** The child asks and exits; the first start then revives the session it ended. */
  lemma LateSetUpRegistersTwice(r: Restrictions) returns (y: System)
    requires !r.start && r.exit
    ensures ReachableUnder(r, y) && y.h.registrations == [2, 2]
  {
    hide Enabled, SessionAfter, HistoryAfter, ChangeOf, ReachableUnder;
    y := AskingChildEnds(r);
    SetUpDoes(y, 0, NO_OPTIONS);
    y := Then(r, y, SetUpStart(0));
    SpawnDoes(y, 0, 2, FromStart, 8);
    y := Then(r, y, SpawnChild(0, 8));
    RegisterDoes(y, 0, 2, 8, FromStart);
    y := Then(r, y, Register(0));
  }

  lemma AskingChildEnds(r: Restrictions) returns (y: System)
    requires !r.start && r.exit
    ensures ReachableUnder(r, y) && y.h.registrations == [2] && y.s.generation == 2
    ensures y.s.childPid.None? && y.tasks == map[0 := Starting(NO_OPTIONS)] && y.next == 3
  {
    hide Enabled, SessionAfter, HistoryAfter, ChangeOf, ReachableUnder;
    y := StartInterrupted(r, NO_OPTIONS);
    RaiseInputDoes(y, 2, Sms);
    y := Then(r, y, RaiseInput(2, Sms));
    y := Ends(r, y, 2, 2, 7);
  }

  const REVIVED := SetUp(Stopped(Shared(NO_OPTIONS)), NO_OPTIONS)
  const STOPPING := Stopping(Some(2), None, None, None)

  /** A stop claims the child, and the first start then opens a session over it. */
  lemma StartRevives(r: Restrictions) returns (y: System)
    requires !r.start
    ensures ReachableUnder(r, y) && y.s == REVIVED && y.next == 4
    ensures y.tasks == map[0 := Spawning(3, FromStart), 2 := Supervising(2, 7), 3 := STOPPING]
  {
    hide Enabled, SessionAfter, HistoryAfter, ChangeOf, ReachableUnder;
    y := StartInterrupted(r, NO_OPTIONS);
    StopDoes(y);
    y := Then(r, y, Stop);
    SetUpDoes(y, 0, NO_OPTIONS);
    y := Then(r, y, SetUpStart(0));
  }

  lemma OldChildAsksLast(r: Restrictions) returns (y: System)
    requires !r.start && r.exit
    ensures ReachableUnder(r, y) && y.s.active && y.s.childPid.None? && y.s.awaiting.Some?
  {
    hide Enabled, SessionAfter, HistoryAfter, ChangeOf, ReachableUnder;
    y := StartRevives(r);
    RaiseInputDoes(y, 2, Sms);
    y := Then(r, y, RaiseInput(2, Sms));
    y := Ends(r, y, 2, 2, 7);
  }

  lemma OldChildIsWaited(r: Restrictions) returns (y: System)
    requires !r.start
    ensures ReachableUnder(r, y) && y.next == 5 && MayMarkReady(y.s, 3)
    ensures y.s.stdinTx == Some(2) && Is(y, 2, Supervising(2, 7)) && Is(y, 4, Waiting(3, 2))
  {
    hide Enabled, SessionAfter, HistoryAfter, ChangeOf, ReachableUnder;
    y := StartRevives(r);
    BeginWaitDoes(y, 2);
    y := Then(r, y, BeginWait(2));
  }

  lemma OldChildIsReady(r: Restrictions) returns (y: System)
    requires !r.start
    ensures ReachableUnder(r, y) && y.s.ready && y.s.generation == 3
    ensures y.s.stdinTx == Some(2) && Is(y, 2, Supervising(2, 7))
  {
    hide Enabled, SessionAfter, HistoryAfter, ChangeOf, ReachableUnder;
    y := OldChildIsWaited(r);
    SkipDialDoes(y, 4, 3, 2);
    y := Then(r, y, SkipDial(4));
    MarkReadyDoes(y, 4, 3, Some(2));
    y := Then(r, y, MarkReady(4));
  }

  lemma NewChildIsRejected(r: Restrictions) returns (y: System)
    requires !r.start
    ensures ReachableUnder(r, y) && y.s == REVIVED && y.next == 4
    ensures y.tasks == map[0 := StartFailed(3), 2 := Supervising(2, 7), 3 := STOPPING]
  {
    hide Enabled, SessionAfter, HistoryAfter, ChangeOf, ReachableUnder;
    y := StartRevives(r);
    SpawnDoes(y, 0, 3, FromStart, 8);
    y := Then(r, y, SpawnChild(0, 8));
    RejectDoes(y, 0, 3, 8, FromStart);
    y := Then(r, y, Register(0));
  }

  /** The revived session's own child gives way to the old one, whose exit is then ignored. */
  lemma NewChildGivesWay(r: Restrictions) returns (y: System)
    requires !r.start
    ensures ReachableUnder(r, y) && y.s == REVIVED && y.next == 4
    ensures y.tasks == map[2 := Supervising(2, 7), 3 := STOPPING]
  {
    hide Enabled, SessionAfter, HistoryAfter, ChangeOf, ReachableUnder;
    y := NewChildIsRejected(r);
    CleanUpDoes(y, 0, 3);
    y := Then(r, y, CleanUp(0));
  }

  lemma LateSetUpStrands(r: Restrictions) returns (y: System)
    requires !r.start && r.exit
    ensures ReachableUnder(r, y) && Stranded(y)
  {
    hide Enabled, SessionAfter, HistoryAfter, ChangeOf, ReachableUnder;
    y := NewChildGivesWay(r);
    AbortDoes(y, 3);
    y := Then(r, y, AbortStopped(3));
    SendDoes(y, 3, 2);
    y := Then(r, y, SendStop(3));
    y := Ends(r, y, 2, 2, 7);
  }

  lemma StopsWhileWaiting(r: Restrictions) returns (y: System)
    requires !r.start
    ensures ReachableUnder(r, y) && y.next == 6
    ensures y.s == Stopped(WaitBegun(Shared(NO_OPTIONS)))
    ensures y.tasks == map[0 := Starting(NO_OPTIONS), 2 := Supervising(2, 7),
                           3 := PollerArming(2, 2, 4), 4 := Polling(2, false), 5 := STOPPING]
  {
    hide Enabled, SessionAfter, HistoryAfter, ChangeOf, ReachableUnder;
    y := FirstOfTwoWaits(r);
    StopDoes(y);
    y := Then(r, y, Stop);
  }

  lemma WaitsAcrossStop(r: Restrictions) returns (y: System)
    requires !r.start
    ensures ReachableUnder(r, y) && y.next == 6
    ensures y.s == SetUp(Stopped(WaitBegun(Shared(NO_OPTIONS))), NO_OPTIONS)
    ensures y.tasks == map[0 := Spawning(3, FromStart), 2 := Supervising(2, 7),
                           3 := PollerArming(2, 2, 4), 4 := Polling(2, false), 5 := STOPPING]
  {
    hide Enabled, SessionAfter, HistoryAfter, ChangeOf, ReachableUnder;
    y := StopsWhileWaiting(r);
    SetUpDoes(y, 0, NO_OPTIONS);
    y := Then(r, y, SetUpStart(0));
  }

  lemma NewWaitBegins(r: Restrictions) returns (y: System)
    requires !r.start
    ensures ReachableUnder(r, y) && y.s.active && !y.s.ready && y.s.readyWaitGen == y.s.generation == 3
    ensures y.s.readinessHandle == None
    ensures y.tasks == map[0 := Spawning(3, FromStart), 2 := Supervising(2, 7),
                           3 := PollerArming(2, 2, 4), 4 := Polling(2, false), 5 := STOPPING,
                           6 := PollerArming(3, 2, 7), 7 := Polling(3, false)]
  {
    hide Enabled, SessionAfter, HistoryAfter, ChangeOf, ReachableUnder;
    y := WaitsAcrossStop(r);
    BeginWaitDoes(y, 2);
    y := Then(r, y, BeginWait(2));
    SpawnPollerDoes(y, 6, 3, 2);
    y := Then(r, y, SpawnPoller(6));
  }

  lemma NewPollerIsArmed(r: Restrictions) returns (y: System)
    requires !r.start
    ensures ReachableUnder(r, y) && y.s.active && !y.s.ready && y.s.readyWaitGen == y.s.generation == 3
    ensures y.s.readinessHandle == Some(7)
    ensures y.tasks == map[0 := Spawning(3, FromStart), 2 := Supervising(2, 7),
                           3 := PollerArming(2, 2, 4), 4 := Polling(2, false), 5 := STOPPING,
                           7 := Polling(3, false)]
  {
    hide Enabled, SessionAfter, HistoryAfter, ChangeOf, ReachableUnder;
    y := NewWaitBegins(r);
    ArmPollerDoes(y, 6, 3, 2, 7);
    y := Then(r, y, ArmPoller(6));
  }

  lemma OldPollerLosesWait(r: Restrictions) returns (y: System)
    requires !r.start
    ensures ReachableUnder(r, y) && y.s.active && !y.s.ready && y.s.readyWaitGen == y.s.generation == 3
    ensures y.tasks == map[0 := Spawning(3, FromStart), 2 := Supervising(2, 7), 4 := Polling(2, false), 5 := STOPPING]
  {
    hide Enabled, SessionAfter, HistoryAfter, ChangeOf, ReachableUnder;
    y := NewPollerIsArmed(r);
    ArmPollerDoes(y, 3, 2, 2, 4);
    y := ThenAborting(r, y, ArmPoller(3), 7);
  }

  /* ---- The browser opened twice ---- */

  lemma SharedChildIsReady(r: Restrictions) returns (y: System)
    requires !r.start
    ensures ReachableUnder(r, y) && y.next == 4 && y.h.opens == 0
    ensures y.s == MarkedReady(WaitBegun(Shared(EIP_OPTIONS)))
    ensures y.tasks == map[0 := Starting(EIP_OPTIONS), 2 := Supervising(2, 7), 3 := EipSpawning(2, Some(2))]
  {
    hide Enabled, SessionAfter, HistoryAfter, ChangeOf, ReachableUnder;
    y := StartInterrupted(r, EIP_OPTIONS);
    BeginWaitDoes(y, 2);
    y := Then(r, y, BeginWait(2));
    SkipDialDoes(y, 3, 2, 2);
    y := Then(r, y, SkipDial(3));
    MarkReadyDoes(y, 3, 2, Some(2));
    y := Then(r, y, MarkReady(3));
  }

  lemma LateSetUpForgetsReady(r: Restrictions) returns (y: System)
    requires !r.start
    ensures ReachableUnder(r, y) && y.next == 5 && y.h.opens == 0 && MayBeginWait(y.s)
    ensures y.s.generation == 2 && WantsEip(y.s)
    ensures Is(y, 2, Supervising(2, 7)) && Is(y, 4, EipSleeping(2))
  {
    hide Enabled, SessionAfter, HistoryAfter, ChangeOf, ReachableUnder;
    y := SharedChildIsReady(r);
    SpawnOpenerDoes(y, 3, 2, Some(2));
    y := Then(r, y, SpawnOpener(3));
    SetUpDoes(y, 0, EIP_OPTIONS);
    y := Then(r, y, SetUpStart(0));
  }

  lemma ReadyOnceMore(r: Restrictions) returns (y: System)
    requires !r.start
    ensures ReachableUnder(r, y) && y.next == 6 && y.h.opens == 0
    ensures y.s.generation == 2 && y.s.active && y.s.ready
    ensures Is(y, 4, EipSleeping(2)) && Is(y, 5, EipSpawning(2, Some(2)))
  {
    hide Enabled, SessionAfter, HistoryAfter, ChangeOf, ReachableUnder;
    y := LateSetUpForgetsReady(r);
    BeginWaitDoes(y, 2);
    y := Then(r, y, BeginWait(2));
    SkipDialDoes(y, 5, 2, 2);
    y := Then(r, y, SkipDial(5));
    MarkReadyDoes(y, 5, 2, Some(2));
    y := Then(r, y, MarkReady(5));
  }

  /** The first start's second section makes the same generation ready once more. */
  lemma LateSetUpOpensTwice(r: Restrictions) returns (y: System)
    requires !r.start && r.eip
    ensures ReachableUnder(r, y) && y.h.opens == 2
  {
    hide Enabled, SessionAfter, HistoryAfter, ChangeOf, ReachableUnder;
    y := ReadyOnceMore(r);
    SpawnOpenerDoes(y, 5, 2, Some(2));
    y := Then(r, y, SpawnOpener(5));
    y := Opens(r, y, 4, 2);
    y := Opens(r, y, 6, 2);
  }

  lemma OpenerSleeps(r: Restrictions) returns (y: System)
    requires r.start
    ensures ReachableUnder(r, y) && y.next == 4 && y.h.opens == 0
    ensures y.s == MarkedReady(WaitBegun(Connected(EIP_OPTIONS)))
    ensures y.tasks == map[1 := Supervising(1, 7), 2 := EipArming(3, Some(1)), 3 := EipSleeping(1)]
    ensures y.h.options == EIP_OPTIONS
  {
    hide Enabled, SessionAfter, HistoryAfter, ChangeOf, ReachableUnder;
    y := FirstChildIsReady(r, EIP_OPTIONS);
    SpawnOpenerDoes(y, 2, 1, Some(1));
    y := Then(r, y, SpawnOpener(2));
  }

  lemma BrowserIsLaunching(r: Restrictions) returns (y: System)
    requires r.start && !r.eip
    ensures ReachableUnder(r, y) && y.next == 4 && y.h.opens == 0
    ensures y.s == MarkedReady(WaitBegun(Connected(EIP_OPTIONS))).(delayedEip := Some(3))
    ensures y.tasks == map[1 := Supervising(1, 7), 3 := EipOpening(1)]
    ensures y.h.options == EIP_OPTIONS
  {
    hide Enabled, SessionAfter, HistoryAfter, ChangeOf, ReachableUnder;
    y := OpenerSleeps(r);
    ArmOpenerDoes(y, 2, 3, Some(1));
    y := Then(r, y, ArmOpener(2));
    CheckEipDoes(y, 3, 1);
    y := Then(r, y, CheckEip(3));
  }

  /** The child drops while the browser is being launched. */
  lemma DropWhileOpening(r: Restrictions) returns (y: System)
    requires r.start && r.exit && !r.eip
    ensures ReachableUnder(r, y) && y.next == 4 && y.h.opens == 0
    ensures y.s == Decided(Cleared(MarkedReady(WaitBegun(Connected(EIP_OPTIONS))).(delayedEip := Some(3))), 1)
    ensures y.tasks == map[1 := Scheduling, 3 := EipOpening(1)]
    ensures y.h.options == EIP_OPTIONS
  {
    hide Enabled, SessionAfter, HistoryAfter, ChangeOf, ReachableUnder;
    y := BrowserIsLaunching(r);
    y := Ends(r, y, 1, 1, 7);
  }

  /** The browser was launched, but the mark comes too late to count. */
  lemma MarkIsRejected(r: Restrictions) returns (y: System)
    requires r.start && r.exit && r.schedule && !r.eip
    ensures ReachableUnder(r, y) && y.next == 5 && y.h.opens == 1
    ensures y.s.active && y.s.generation == 2 && y.s.childPid.None? && y.s.awaiting.None?
    ensures !y.s.ready && y.s.readyWaitGen != 2 && !y.s.eipOpened && y.s.lastOptions == EIP_OPTIONS
    ensures y.tasks == map[4 := TimerSleeping(2)]
    ensures y.h.options == EIP_OPTIONS
  {
    hide Enabled, SessionAfter, HistoryAfter, ChangeOf, ReachableUnder;
    y := DropWhileOpening(r);
    OpenEipDoes(y, 3, 1, true);
    y := Then(r, y, OpenEip(3, true));
    MarkEipDoes(y, 3, 1);
    y := Then(r, y, MarkEip(3));
    y := Reschedules(r, y, 1);
  }

  lemma ReconnectIsPrepared(r: Restrictions) returns (y: System)
    requires r.start && r.exit && r.schedule && !r.eip
    ensures ReachableUnder(r, y) && y.next == 5 && y.h.opens == 1
    ensures y.s.active && y.s.generation == 2 && y.s.childPid.None? && y.s.eipOptions == EIP_OPTIONS
    ensures !y.s.ready && y.s.readyWaitGen != 2 && !y.s.eipOpened
    ensures y.tasks == map[4 := Spawning(2, FromRetry)]
    ensures y.h.options == EIP_OPTIONS
  {
    hide Enabled, SessionAfter, HistoryAfter, ChangeOf, ReachableUnder;
    y := MarkIsRejected(r);
    CheckRetryDoes(y, 4, 2);
    y := Then(r, y, CheckRetry(4));
    y := GoesAhead(r, y, 4, 2, EIP_OPTIONS);
  }

  lemma RetryReconnects(r: Restrictions) returns (y: System)
    requires r.start && r.exit && r.schedule && !r.eip
    ensures ReachableUnder(r, y) && y.next == 6 && y.h.opens == 1
    ensures y.s.active && y.s.generation == 2 && y.s.eipOptions == EIP_OPTIONS
    ensures !y.s.ready && y.s.readyWaitGen != 2 && !y.s.eipOpened
    ensures y.tasks == map[5 := Supervising(2, 8)]
    ensures y.h.options == EIP_OPTIONS
  {
    hide Enabled, SessionAfter, HistoryAfter, ChangeOf, ReachableUnder;
    y := ReconnectIsPrepared(r);
    SpawnDoes(y, 4, 2, FromRetry, 8);
    y := Then(r, y, SpawnChild(4, 8));
    RegisterDoes(y, 4, 2, 8, FromRetry);
    y := Then(r, y, Register(4));
  }

  /** The session is about to be ready again, and does not know that its browser was opened. */
  lemma ReadyAfterLateMark(r: Restrictions) returns (y: System)
    requires r.start && r.exit && r.schedule && !r.eip
    ensures ReachableUnder(r, y) && y.h.opens == 1 && y.h.options == EIP_OPTIONS && y.next == 7
    ensures y.s.active && y.s.generation == 2 && !y.s.ready && WantsEip(y.s)
    ensures Is(y, 6, MarkingReady(2, Some(5)))
  {
    hide Enabled, SessionAfter, HistoryAfter, ChangeOf, ReachableUnder;
    y := RetryReconnects(r);
    BeginWaitDoes(y, 5);
    y := Then(r, y, BeginWait(5));
    SkipDialDoes(y, 6, 2, 5);
    y := Then(r, y, SkipDial(6));
  }

  lemma NextOpenerSleeps(r: Restrictions) returns (y: System)
    requires r.start && r.exit && r.schedule && !r.eip
    ensures ReachableUnder(r, y) && y.h.opens == 1
    ensures y.s.active && y.s.generation == 2 && y.s.ready && Is(y, 7, EipSleeping(2))
  {
    hide Enabled, SessionAfter, HistoryAfter, ChangeOf, ReachableUnder;
    y := ReadyAfterLateMark(r);
    MarkReadyDoes(y, 6, 2, Some(5));
    y := Then(r, y, MarkReady(6));
    SpawnOpenerDoes(y, 6, 2, Some(5));
    y := Then(r, y, SpawnOpener(6));
  }

  lemma LateMarkOpensTwice(r: Restrictions) returns (y: System)
    requires r.start && r.exit && r.schedule && !r.eip
    ensures ReachableUnder(r, y) && y.h.opens == 2
  {
    hide Enabled, SessionAfter, HistoryAfter, ChangeOf, ReachableUnder;
    y := NextOpenerSleeps(r);
    CheckEipDoes(y, 7, 2);
    y := Then(r, y, CheckEip(7));
    OpenEipDoes(y, 7, 2, true);
    y := Then(r, y, OpenEip(7, true));
  }

  /* ---- Options that are not the start's ---- */

  lemma RetryIsAnnounced(r: Restrictions) returns (y: System)
    requires !r.retry
    ensures ReachableUnder(r, y) && y.next == 3
    ensures y.s == Bumped(DROPPED).(retryHandle := Some(2))
    ensures y.tasks == map[2 := RetryAnnounced(2, NO_OPTIONS)]
  {
    hide Enabled, SessionAfter, HistoryAfter, ChangeOf, ReachableUnder;
    y := ChildDrops(r);
    y := Reschedules(r, y, 1);
    CheckRetryDoes(y, 2, 2);
    y := Then(r, y, CheckRetry(2));
    RecheckRetryDoes(y, 2, 2, NO_OPTIONS);
    y := Then(r, y, RecheckRetry(2));
  }

  /** A retry of the session before stores its options over those of the new one. */
  lemma LateRetryStores(r: Restrictions) returns (y: System)
    requires !r.retry
    ensures ReachableUnder(r, y) && y.next == 4
    ensures y.s == SetUp(Acquired(Bumped(DROPPED)), EIP_OPTIONS).(eipOptions := NO_OPTIONS)
    ensures y.h.options == EIP_OPTIONS && y.h.opens == 0
    ensures Is(y, 3, Spawning(3, FromStart))
  {
    hide Enabled, SessionAfter, HistoryAfter, ChangeOf, ReachableUnder;
    y := RetryIsAnnounced(r);
    y := Starts(r, y, EIP_OPTIONS);
    PrepareDoes(y, 2, 2, NO_OPTIONS);
    y := Then(r, y, PrepareRetry(2));
  }

  lemma NewChildOfOldOptions(r: Restrictions) returns (y: System)
    requires !r.retry
    ensures ReachableUnder(r, y) && y.next == 5 && y.h.options == EIP_OPTIONS && y.h.opens == 0
    ensures MayBeginWait(y.s) && y.s.generation == 3 && y.s.eipOptions == NO_OPTIONS
    ensures Is(y, 4, Supervising(3, 8))
  {
    hide Enabled, SessionAfter, HistoryAfter, ChangeOf, ReachableUnder;
    y := LateRetryStores(r);
    SpawnDoes(y, 3, 3, FromStart, 8);
    y := Then(r, y, SpawnChild(3, 8));
    RegisterDoes(y, 3, 3, 8, FromStart);
    y := Then(r, y, Register(3));
  }

  /** The session is about to be ready, and will not open the browser that its start asked for. */
  lemma ReadyWithOldOptions(r: Restrictions) returns (y: System)
    requires !r.retry
    ensures ReachableUnder(r, y) && y.h.options == EIP_OPTIONS && y.h.opens == 0
    ensures y.s.generation == 3 && y.s.eipOptions == NO_OPTIONS
    ensures Is(y, 5, MarkingReady(3, Some(4))) && MayMarkReady(y.s, 3)
  {
    hide Enabled, SessionAfter, HistoryAfter, ChangeOf, ReachableUnder;
    y := NewChildOfOldOptions(r);
    BeginWaitDoes(y, 4);
    y := Then(r, y, BeginWait(4));
    SkipDialDoes(y, 5, 3, 4);
    y := Then(r, y, SkipDial(5));
  }

  lemma StartIsHalfway(r: Restrictions) returns (y: System)
    requires !r.start
    ensures ReachableUnder(r, y) && y.next == 3 && y.s == Acquired(DROPPED)
    ensures y.tasks == map[1 := Scheduling, 2 := Starting(EIP_OPTIONS)]
  {
    hide Enabled, SessionAfter, HistoryAfter, ChangeOf, ReachableUnder;
    y := ChildDrops(r);
    AcquireDoes(y, EIP_OPTIONS);
    y := Then(r, y, AcquireStart(EIP_OPTIONS));
  }

  lemma RetryReadsTooEarly(r: Restrictions) returns (y: System)
    requires !r.start
    ensures ReachableUnder(r, y) && y.next == 4
    ensures y.s == Bumped(Acquired(DROPPED)).(retryHandle := Some(3))
    ensures y.tasks == map[2 := Starting(EIP_OPTIONS), 3 := RetryChecked(3, NO_OPTIONS)]
  {
    hide Enabled, SessionAfter, HistoryAfter, ChangeOf, ReachableUnder;
    y := StartIsHalfway(r);
    y := Reschedules(r, y, 1);
    CheckRetryDoes(y, 3, 3);
    y := Then(r, y, CheckRetry(3));
  }

  /** A retry of the new generation has read the options before the start set its own. */
  lemma RetryCarriesOldOptions(r: Restrictions) returns (y: System)
    requires !r.start
    ensures ReachableUnder(r, y) && y.next == 4 && y.h.options == EIP_OPTIONS && y.h.opens == 0
    ensures y.s == SetUp(Acquired(DROPPED), EIP_OPTIONS).(retryHandle := Some(3))
    ensures y.tasks == map[2 := Spawning(3, FromStart), 3 := RetryChecked(3, NO_OPTIONS)]
  {
    hide Enabled, SessionAfter, HistoryAfter, ChangeOf, ReachableUnder;
    y := RetryReadsTooEarly(r);
    SetUpDoes(y, 2, EIP_OPTIONS);
    y := Then(r, y, SetUpStart(2));
  }

  lemma EarlyRetryStores(r: Restrictions) returns (y: System)
    requires !r.start
    ensures ReachableUnder(r, y) && y.next == 5 && y.h.options == EIP_OPTIONS && y.h.opens == 0
    ensures MayBeginWait(y.s) && y.s.generation == 3 && y.s.eipOptions == NO_OPTIONS
    ensures Is(y, 4, Supervising(3, 8))
  {
    hide Enabled, SessionAfter, HistoryAfter, ChangeOf, ReachableUnder;
    y := RetryCarriesOldOptions(r);
    y := GoesAhead(r, y, 3, 3, NO_OPTIONS);
    SpawnDoes(y, 2, 3, FromStart, 8);
    y := Then(r, y, SpawnChild(2, 8));
    RegisterDoes(y, 2, 3, 8, FromStart);
    y := Then(r, y, Register(2));
  }

  lemma ReadyWithEarlyOptions(r: Restrictions) returns (y: System)
    requires !r.start
    ensures ReachableUnder(r, y) && y.h.options == EIP_OPTIONS && y.h.opens == 0
    ensures y.s.generation == 3 && y.s.eipOptions == NO_OPTIONS
    ensures Is(y, 5, MarkingReady(3, Some(4))) && MayMarkReady(y.s, 3)
  {
    hide Enabled, SessionAfter, HistoryAfter, ChangeOf, ReachableUnder;
    y := EarlyRetryStores(r);
    BeginWaitDoes(y, 4);
    y := Then(r, y, BeginWait(4));
    SkipDialDoes(y, 5, 3, 4);
    y := Then(r, y, SkipDial(5));
  }
}
