/**
  The effect of each lock-section step in three parts: the session, the history and the change
  of the task map.
*/
module StepEffects {
  import opened Wrappers
  import opened Sessions
  import opened Protocol

  ghost predicate Does(y: System, st: Step, s: Session, h: History, c: Change) {
    && Enabled(y, st)
    && SessionAfter(y, st) == s && HistoryAfter(y, st) == h && ChangeOf(y, st) == c
  }

  predicate Is(y: System, i: TaskId, t: Task) {
    i in y.tasks && y.tasks[i] == t
  }

  function Ending(i: TaskId): Change {
    Change(Some(i), None, None, {})
  }

  function Becoming(i: TaskId, t: Task): Change {
    Change(Some(i), Some(t), None, {})
  }

  function Appearing(t: Task): Change {
    Change(None, None, Some(t), {})
  }

  /* ---- start ---- */

  lemma AcquireDoes(y: System, options: Options)
    requires y.s.childPid.None?
    ensures Does(y, AcquireStart(options), Acquired(y.s), y.h,
                 Change(None, None, Some(Starting(options)),
                        AbortedBy(y.s.retryHandle) + AbortedBy(y.s.delayedEip)))
  {
  }

  lemma SetUpDoes(y: System, i: TaskId, options: Options)
    requires Is(y, i, Starting(options))
    ensures Does(y, SetUpStart(i), SetUp(y.s, options),
                 y.h.(opens := 0, attempts := [], options := options),
                 Becoming(i, Spawning(y.s.generation, FromStart)))
  {
  }

  lemma FailDoes(y: System, i: TaskId, gen: nat, origin: Origin)
    requires Is(y, i, Spawning(gen, origin))
    ensures Does(y, FailSpawn(i), y.s, y.h, Becoming(i, if origin.FromStart? then StartFailed(gen) else Scheduling))
  {
  }

  lemma SpawnDoes(y: System, i: TaskId, gen: nat, origin: Origin, pid: nat)
    requires Is(y, i, Spawning(gen, origin))
    ensures Does(y, SpawnChild(i, pid), y.s, y.h, Becoming(i, Registering(gen, pid, origin)))
  {
  }

  lemma RegisterDoes(y: System, i: TaskId, gen: nat, pid: nat, origin: Origin)
    requires Is(y, i, Registering(gen, pid, origin)) && !SpawnGuardViolated(y.s, gen)
    ensures Does(y, Register(i), Registered(y.s, pid, y.next),
                 y.h.(registrations := y.h.registrations + [gen]),
                 Change(Some(i), None, Some(Supervising(gen, pid)), {}))
  {
  }

  lemma RejectDoes(y: System, i: TaskId, gen: nat, pid: nat, origin: Origin)
    requires Is(y, i, Registering(gen, pid, origin)) && SpawnGuardViolated(y.s, gen)
    ensures Does(y, Register(i), y.s, y.h,
                 Change(Some(i), OnlyIf(origin.FromStart?, StartFailed(gen)), None, {}))
  {
  }

  lemma CleanUpDoes(y: System, i: TaskId, gen: nat)
    requires Is(y, i, StartFailed(gen))
    ensures Does(y, CleanUp(i), if CleanUpSkips(y.s, gen) then y.s else CleanedUp(y.s), y.h, Ending(i))
  {
  }

  /* ---- stop ---- */

  lemma StopDoes(y: System)
    ensures Does(y, Stop, Stopped(y.s), y.h.(attempts := []),
                 Appearing(Stopping(y.s.stopTx, y.s.retryHandle, y.s.readinessHandle, y.s.delayedEip)))
  {
  }

  lemma AbortDoes(y: System, i: TaskId)
    requires i in y.tasks && y.tasks[i].Stopping?
    ensures var t := y.tasks[i];
      Does(y, AbortStopped(i), y.s, y.h,
           if t.retry.Some? then Change(Some(i), Some(t.(retry := None)), None, {t.retry.value})
           else if t.readiness.Some? then
             Change(Some(i), Some(t.(readiness := None)), None, {t.readiness.value})
           else if t.delayed.Some? then
             Change(Some(i), Some(t.(delayed := None)), None, {t.delayed.value})
           else if t.stop.Some? then Becoming(i, StopSending(t.stop.value))
           else Ending(i))
  {
  }

  lemma SendDoes(y: System, i: TaskId, c: TaskId)
    requires Is(y, i, StopSending(c))
    ensures Does(y, SendStop(i), y.s, y.h, Ending(i))
  {
  }

  /* ---- prompts ---- */

  lemma RaiseInputDoes(y: System, c: TaskId, p: Prompt)
    requires Supervised(y, c) && !p.Captcha?
    ensures Does(y, RaiseInput(c, p), InputRequested(y.s, p),
                 if y.s.awaiting == Some(p) then y.h else y.h.(raised := y.h.raised.Plus(p)),
                 Change(None, None, None, {}))
  {
  }

  lemma RaiseCaptchaDoes(y: System, c: TaskId)
    ensures Does(y, RaiseCaptcha(c), CaptchaRequested(y.s),
                 if y.s.awaiting == Some(Captcha) then y.h
                 else y.h.(raised := y.h.raised.Plus(Captcha)),
                 Change(None, None, None, {}))
  {
  }

  /* ---- readiness ---- */

  lemma BeginWaitDoes(y: System, c: TaskId)
    requires Supervised(y, c) && MayBeginWait(y.s)
    ensures Does(y, BeginWait(c), WaitBegun(y.s), y.h.(waits := y.h.waits + [y.s.generation]),
                 Appearing(Waiting(y.s.generation, c)))
  {
  }

  lemma SkipDialDoes(y: System, i: TaskId, gen: nat, c: TaskId)
    requires Is(y, i, Waiting(gen, c))
    ensures Does(y, SkipDial(i), y.s, y.h, Becoming(i, MarkingReady(gen, Some(c))))
  {
  }

  lemma SpawnPollerDoes(y: System, i: TaskId, gen: nat, c: TaskId)
    requires Is(y, i, Waiting(gen, c))
    ensures Does(y, SpawnPoller(i), y.s, y.h,
                 Change(Some(i), Some(PollerArming(gen, c, y.next)), Some(Polling(gen, false)), {}))
  {
  }

  lemma ArmPollerDoes(y: System, i: TaskId, gen: nat, c: TaskId, poller: TaskId)
    requires Is(y, i, PollerArming(gen, c, poller))
    ensures Does(y, ArmPoller(i), y.s.(readinessHandle := Some(poller)), y.h,
                 Change(Some(i), None, None, AbortedBy(y.s.readinessHandle)))
  {
  }

  lemma CheckPollDoes(y: System, i: TaskId, gen: nat)
    requires Is(y, i, Polling(gen, false))
    ensures Does(y, CheckPoll(i), y.s, y.h,
                 Change(Some(i), OnlyIf(ContinuesWait(y.s, gen), Polling(gen, true)), None, {}))
  {
  }

  lemma DialFailsDoes(y: System, i: TaskId, gen: nat)
    requires Is(y, i, Polling(gen, true))
    ensures Does(y, DialFails(i), y.s, y.h, Becoming(i, Polling(gen, false)))
  {
  }

  lemma DialSucceedsDoes(y: System, i: TaskId, gen: nat)
    requires Is(y, i, Polling(gen, true))
    ensures Does(y, DialSucceeds(i), y.s, y.h, Becoming(i, MarkingReady(gen, None)))
  {
  }

  lemma MarkReadyDoes(y: System, i: TaskId, gen: nat, owner: Option<TaskId>)
    requires Is(y, i, MarkingReady(gen, owner))
    ensures
      var marked := MayMarkReady(y.s, gen);
      Does(y, MarkReady(i), if marked then MarkedReady(y.s) else y.s,
           if marked then y.h.(attempts := []) else y.h,
           Change(Some(i), OnlyIf(marked && WantsEip(y.s), EipSpawning(gen, owner)), None, {}))
  {
  }

  /* ---- the EIP opener ---- */

  lemma SpawnOpenerDoes(y: System, i: TaskId, gen: nat, owner: Option<TaskId>)
    requires Is(y, i, EipSpawning(gen, owner))
    ensures Does(y, SpawnOpener(i), y.s, y.h,
                 Change(Some(i), Some(EipArming(y.next, owner)), Some(EipSleeping(gen)), {}))
  {
  }

  lemma ArmOpenerDoes(y: System, i: TaskId, opener: TaskId, owner: Option<TaskId>)
    requires Is(y, i, EipArming(opener, owner))
    ensures Does(y, ArmOpener(i), y.s.(delayedEip := Some(opener)), y.h,
                 Change(Some(i), None, None, AbortedBy(y.s.delayedEip)))
  {
  }

  lemma CheckEipDoes(y: System, i: TaskId, gen: nat)
    requires Is(y, i, EipSleeping(gen))
    ensures Does(y, CheckEip(i), y.s, y.h,
                 Change(Some(i), OnlyIf(EipValid(y.s, gen), EipOpening(gen)), None, {}))
  {
  }

  lemma OpenEipDoes(y: System, i: TaskId, gen: nat, launched: bool)
    requires Is(y, i, EipOpening(gen))
    ensures Does(y, OpenEip(i, launched), y.s, if launched then y.h.(opens := y.h.opens + 1) else y.h,
                 Change(Some(i), OnlyIf(launched, EipMarking(gen)), None, {}))
  {
  }

  lemma MarkEipDoes(y: System, i: TaskId, gen: nat)
    requires Is(y, i, EipMarking(gen))
    ensures Does(y, MarkEip(i), if EipValid(y.s, gen) then y.s.(eipOpened := true) else y.s, y.h,
                 Ending(i))
  {
  }

  /* ---- exit and retry ---- */

  lemma ExitDoes(y: System, i: TaskId, gen: nat, pid: nat)
    requires Is(y, i, Supervising(gen, pid)) && ReadersDone(y, i)
    ensures Does(y, Exit(i), Cleared(y.s), y.h, Becoming(i, Deciding(gen)))
  {
  }

  /** A decision that ends the session resets the attempts. */
  function DecidedHistory(h: History, action: ExitAction): History {
    if action.EmitStopped? || action.AwaitingBlocked? then h.(attempts := []) else h
  }

  lemma DecideDoes(y: System, i: TaskId, gen: nat)
    requires Is(y, i, Deciding(gen))
    ensures
      var action := ExitDecision(y.s, gen);
      Does(y, Decide(i), Decided(y.s, gen), DecidedHistory(y.h, action),
           Change(Some(i), OnlyIf(action.ScheduleRetry?, Scheduling), None,
                  if action.Ignore? then {} else AbortedBy(y.s.delayedEip)))
  {
    hide Decided;
  }

  lemma BumpDoes(y: System, i: TaskId)
    requires Is(y, i, Scheduling)
    ensures Does(y, BumpAttempt(i), Bumped(y.s),
                 y.h.(attempts := y.h.attempts + [Bumped(y.s).retryAttempt]),
                 Change(Some(i), Some(TimerArming(y.next)), Some(TimerSleeping(y.s.generation)), {}))
  {
  }

  lemma ArmTimerDoes(y: System, i: TaskId, timer: TaskId)
    requires Is(y, i, TimerArming(timer))
    ensures Does(y, ArmTimer(i), y.s.(retryHandle := Some(timer)), y.h,
                 Change(Some(i), None, None, AbortedBy(y.s.retryHandle)))
  {
  }

  lemma CheckRetryDoes(y: System, i: TaskId, gen: nat)
    requires Is(y, i, TimerSleeping(gen))
    ensures Does(y, CheckRetry(i), y.s, y.h,
                 Change(Some(i), OnlyIf(RetryValid(y.s, gen), RetryChecked(gen, y.s.lastOptions)), None, {}))
  {
  }

  lemma RecheckRetryDoes(y: System, i: TaskId, gen: nat, options: Options)
    requires Is(y, i, RetryChecked(gen, options))
    ensures Does(y, RecheckRetry(i), y.s, y.h,
                 Change(Some(i), OnlyIf(RetryValid(y.s, gen), RetryAnnounced(gen, options)), None, {}))
  {
  }

  lemma PrepareDoes(y: System, i: TaskId, gen: nat, options: Options)
    requires Is(y, i, RetryAnnounced(gen, options))
    ensures Does(y, PrepareRetry(i), y.s.(eipOptions := options), y.h, Becoming(i, Spawning(gen, FromRetry)))
  {
  }
}
