/**
  What whole runs guarantee of a session. Each theorem comes twice: under the restrictions it
  needs, and as an equivalence (`...Exactly`): it holds of all runs iff those are imposed.
*/
module SessionTheorems {
  import opened Wrappers
  import opened Sessions
  import opened Protocol
  import opened LockInvariants
  import opened LockTheorems
  import opened StepEffects
  import opened SessionMoves
  import opened Readiness
  import opened Children
  import opened Pollers
  import opened Carriers
  import opened Browser
  import opened LaunchOptions
  import opened SplitRuns

  const WITHOUT_START := Restrictions(false, true, true, true, true, true)
  const WITHOUT_EXIT := Restrictions(true, false, true, true, true, true)
  const WITHOUT_SCHEDULE := Restrictions(true, true, false, true, true, true)
  const WITHOUT_CAPTCHA := Restrictions(true, true, true, false, true, true)
  const WITHOUT_EIP := Restrictions(true, true, true, true, false, true)
  const WITHOUT_RETRY := Restrictions(true, true, true, true, true, false)

  /* ---- No stranded session ---- */

  predicate StartInFlight(t: Task, gen: nat) {
    || ((t.Spawning? || t.Registering?) && t.gen == gen && t.origin.FromStart?)
    || (t.StartFailed? && t.gen == gen)
  }

  predicate RetryInFlight(t: Task, gen: nat) {
    || ((t.TimerSleeping? || t.RetryChecked? || t.RetryAnnounced?) && t.gen == gen)
    || ((t.Spawning? || t.Registering?) && t.gen == gen && t.origin.FromRetry?)
  }

  /** An active session has a child of its generation, or something is under way that will try
      to give it one or end it: a start, a retry, or an exit whose retry is being scheduled. */
  ghost predicate NotStranded(y: System) {
    y.s.active ==>
      || (exists c: TaskId :: Supervised(y, c) && y.tasks[c].gen == y.s.generation)
      || (exists i :: i in y.tasks
            && (StartInFlight(y.tasks[i], y.s.generation)
                || RetryInFlight(y.tasks[i], y.s.generation)
                || y.tasks[i].Scheduling?))
  }

  lemma NoSessionIsStranded(r: Restrictions, y: System)
    requires r.start && r.exit && r.schedule && r.captcha && ReachableUnder(r, y)
    ensures NotStranded(y)
  {
    hide ReachableUnder;
    CarriedAlways(r, y);
    if y.s.active {
      if y.s.childPid.Some? {
        var c := y.s.stdinTx.value;
        assert Supervised(y, c) && y.tasks[c].gen == y.s.generation;
      } else {
        var i :| i in y.tasks && Carries(y.tasks[i], y.s.generation);
      }
    }
  }

  lemma StrandedIsNot(y: System)
    requires Stranded(y)
    ensures !NotStranded(y)
  {
  }

  /** No session is ever stranded iff start, exit and `schedule_retry` are uninterrupted and
      captcha files are noticed only in time; the opener does not matter. */
  lemma NoSessionIsStrandedExactly(r: Restrictions)
    ensures (forall y :: ReachableUnder(r, y) ==> NotStranded(y))
      <==> r.start && r.exit && r.schedule && r.captcha
  {
    hide ReachableUnder, NotStranded, Stranded;
    if r.start && r.exit && r.schedule && r.captcha {
      forall y | ReachableUnder(r, y) ensures NotStranded(y) {
        NoSessionIsStranded(r, y);
      }
    } else {
      var y := StrandingRun(r);
      StrandedIsNot(y);
    }
  }

  lemma StrandingRun(r: Restrictions) returns (y: System)
    requires !(r.start && r.exit && r.schedule && r.captcha)
    ensures ReachableUnder(r, y) && Stranded(y)
  {
    hide ReachableUnder, Stranded;
    if !r.start {
      y := LateSetUpStrands(WITHOUT_START);
      ReachableUnderLess(WITHOUT_START, r, y);
    } else if !r.exit {
      y := LateDecisionStrands(WITHOUT_EXIT);
      ReachableUnderLess(WITHOUT_EXIT, r, y);
    } else if !r.schedule {
      y := LateTimerStrands(WITHOUT_SCHEDULE);
      ReachableUnderLess(WITHOUT_SCHEDULE, r, y);
    } else {
      y := LateCaptchaStrands(WITHOUT_CAPTCHA);
      ReachableUnderLess(WITHOUT_CAPTCHA, r, y);
    }
  }

  /* ---- The child belongs to its session ---- */

  /** A supervised child of an active session belongs to the current generation, and one of an
      inactive session is being stopped. */
  ghost predicate ChildBelongs(y: System) {
    forall c: TaskId :: Supervised(y, c) ==>
      if y.s.active then y.tasks[c].gen == y.s.generation
      else y.s.stopTx.None? && StopUnderWay(y, c)
  }

  lemma ChildBelongsToItsSession(r: Restrictions, y: System)
    requires r.start && r.exit && ReachableUnder(r, y)
    ensures ChildBelongs(y)
  {
    hide ReachableUnder, StopUnderWay;
    OwnedAlways(r, y);
  }

  lemma ChildBelongsExactly(r: Restrictions)
    ensures (forall y :: ReachableUnder(r, y) ==> ChildBelongs(y)) <==> r.start && r.exit
  {
    hide ReachableUnder, StopUnderWay;
    if r.start && r.exit {
      forall y | ReachableUnder(r, y) ensures ChildBelongs(y) {
        ChildBelongsToItsSession(r, y);
      }
    } else if !r.start {
      var y := StartRevives(WITHOUT_START);
      ReachableUnderLess(WITHOUT_START, r, y);
      assert Supervised(y, 2);
    } else {
      var y := ChildIsOutrun(WITHOUT_EXIT);
      ReachableUnderLess(WITHOUT_EXIT, r, y);
      assert Supervised(y, 5);
    }
  }

  /** Each generation registers at most one child. */
  lemma OneChildPerGeneration(r: Restrictions, y: System)
    requires r.start && r.exit && ReachableUnder(r, y)
    ensures Increasing(y.h.registrations)
  {
    hide ReachableUnder;
    OwnedAlways(r, y);
  }

  lemma OneChildExactly(r: Restrictions)
    ensures (forall y :: ReachableUnder(r, y) ==> Increasing(y.h.registrations))
      <==> r.start && r.exit
  {
    hide ReachableUnder;
    if r.start && r.exit {
      forall y | ReachableUnder(r, y) ensures Increasing(y.h.registrations) {
        OneChildPerGeneration(r, y);
      }
    } else if !r.start {
      var y := LateSetUpRegistersTwice(WITHOUT_START);
      ReachableUnderLess(WITHOUT_START, r, y);
      assert y.h.registrations[0] == y.h.registrations[1];
    } else {
      var y := BothRegister(WITHOUT_EXIT);
      ReachableUnderLess(WITHOUT_EXIT, r, y);
      assert y.h.registrations[1] == y.h.registrations[2];
    }
  }

  /** "Connected" is shown only while the session is active and its child is there. */
  ghost predicate TrulyReady(y: System) {
    y.s.ready ==>
      && y.s.active && y.s.stdinTx.Some? && Supervised(y, y.s.stdinTx.value)
      && y.tasks[y.s.stdinTx.value].gen == y.s.generation
  }

  lemma ReadyHasItsChild(r: Restrictions, y: System)
    requires r.start && r.exit && ReachableUnder(r, y)
    ensures TrulyReady(y)
  {
    hide ReachableUnder, StopUnderWay;
    OwnedAlways(r, y);
  }

  lemma ReadyExactly(r: Restrictions)
    ensures (forall y :: ReachableUnder(r, y) ==> TrulyReady(y)) <==> r.start && r.exit
  {
    hide ReachableUnder;
    if r.start && r.exit {
      forall y | ReachableUnder(r, y) ensures TrulyReady(y) {
        ReadyHasItsChild(r, y);
      }
    } else if !r.start {
      var y := OldChildIsReady(WITHOUT_START);
      ReachableUnderLess(WITHOUT_START, r, y);
    } else {
      var y := ExitWhileReady(WITHOUT_EXIT);
      ReachableUnderLess(WITHOUT_EXIT, r, y);
    }
  }

  /** The child of a session that has ended is being stopped. */
  ghost predicate EndedChildClaimed(y: System) {
    forall c: TaskId :: Supervised(y, c) && !y.s.active ==> y.s.stopTx.None? && StopUnderWay(y, c)
  }

  lemma EndedChildIsStopped(r: Restrictions, y: System)
    requires r.exit && ReachableUnder(r, y)
    ensures EndedChildClaimed(y)
  {
    hide ReachableUnder, StopUnderWay;
    ClaimedAlways(r, y);
  }

  lemma EndedChildExactly(r: Restrictions)
    ensures (forall y :: ReachableUnder(r, y) ==> EndedChildClaimed(y)) <==> r.exit
  {
    hide ReachableUnder, StopUnderWay;
    if r.exit {
      forall y | ReachableUnder(r, y) ensures EndedChildClaimed(y) {
        EndedChildIsStopped(r, y);
      }
    } else {
      var y := LateDecisionEndsSession(WITHOUT_EXIT);
      ReachableUnderLess(WITHOUT_EXIT, r, y);
      assert Supervised(y, 5);
    }
  }

  /** No child that exits belongs to a past generation while a session is active. */
  ghost predicate NoStaleExit(y: System) {
    forall i :: Feasible(y, EndChild(i)) ==> !ExitDecision(Cleared(y.s), y.tasks[i].gen).Ignore?
  }

  lemma NoExitIsIgnored(r: Restrictions, y: System)
    requires r.start && r.exit && ReachableUnder(r, y)
    ensures NoStaleExit(y)
  {
    hide ReachableUnder;
    OwnedAlways(r, y);
    forall i | Feasible(y, EndChild(i))
      ensures !ExitDecision(Cleared(y.s), y.tasks[i].gen).Ignore?
    {
      ExitIsJoined(y, i);
      hide Enabled;
    }
  }

  lemma StaleExit(y: System, i: TaskId, gen: nat, pid: nat)
    requires Is(y, i, Supervising(gen, pid)) && ReadersDone(y, i)
    requires y.s.active && gen != y.s.generation
    ensures !NoStaleExit(y)
  {
    hide ReadersDone;
    assert Feasible(y, EndChild(i));
  }

  lemma NoExitIsIgnoredExactly(r: Restrictions)
    ensures (forall y :: ReachableUnder(r, y) ==> NoStaleExit(y)) <==> r.start && r.exit
  {
    hide ReachableUnder, NoStaleExit;
    if r.start && r.exit {
      forall y | ReachableUnder(r, y) ensures NoStaleExit(y) {
        NoExitIsIgnored(r, y);
      }
    } else if !r.start {
      var y := StartRevives(WITHOUT_START);
      ReachableUnderLess(WITHOUT_START, r, y);
      StaleExit(y, 2, 2, 7);
    } else {
      var y := ChildIsOutrun(WITHOUT_EXIT);
      ReachableUnderLess(WITHOUT_EXIT, r, y);
      StaleExit(y, 5, 3, 8);
    }
  }

  /** While no child holds the slot of an active session, no prompt is awaited. */
  lemma NothingAwaitedWithoutChild(r: Restrictions, y: System)
    requires r.start && r.exit && r.captcha && ReachableUnder(r, y)
    ensures y.s.active && y.s.childPid.None? ==> y.s.awaiting.None?
  {
    hide ReachableUnder, Owned;
    QuietAlways(r, y);
  }

  lemma NothingAwaitedExactly(r: Restrictions)
    ensures (forall y :: ReachableUnder(r, y) && y.s.active && y.s.childPid.None? ==> y.s.awaiting.None?)
      <==> r.start && r.exit && r.captcha
  {
    hide ReachableUnder;
    if r.start && r.exit && r.captcha {
      forall y | ReachableUnder(r, y) && y.s.active && y.s.childPid.None? ensures y.s.awaiting.None? {
        NothingAwaitedWithoutChild(r, y);
      }
    } else if !r.start {
      var y := OldChildAsksLast(WITHOUT_START);
      ReachableUnderLess(WITHOUT_START, r, y);
    } else if !r.exit {
      var y := ExitWhileAsking(WITHOUT_EXIT);
      ReachableUnderLess(WITHOUT_EXIT, r, y);
    } else {
      var y := LateCaptcha(WITHOUT_CAPTCHA);
      ReachableUnderLess(WITHOUT_CAPTCHA, r, y);
    }
  }

  /* ---- Readiness ---- */

  /** Each generation begins at most one readiness wait. */
  lemma OneWaitPerGeneration(r: Restrictions, y: System)
    requires r.start && ReachableUnder(r, y)
    ensures Increasing(y.h.waits)
  {
    hide ReachableUnder;
    WaitedAlways(r, y);
  }

  lemma OneWaitExactly(r: Restrictions)
    ensures (forall y :: ReachableUnder(r, y) ==> Increasing(y.h.waits)) <==> r.start
  {
    hide ReachableUnder;
    if r.start {
      forall y | ReachableUnder(r, y) ensures Increasing(y.h.waits) {
        OneWaitPerGeneration(r, y);
      }
    } else {
      var y := LateSetUpWaitsTwice(WITHOUT_START);
      ReachableUnderLess(WITHOUT_START, r, y);
      assert y.h.waits[0] == y.h.waits[1];
    }
  }

  /** At any time at most one poller of a generation is alive. */
  ghost predicate OnePoller(y: System) {
    forall i, j ::
      (i in y.tasks && j in y.tasks && y.tasks[i].Polling? && y.tasks[j].Polling?
       && y.tasks[i].gen == y.tasks[j].gen) ==> i == j
  }

  lemma OnePollerPerGeneration(r: Restrictions, y: System)
    requires r.start && ReachableUnder(r, y)
    ensures OnePoller(y)
  {
    hide ReachableUnder, Sound;
    WaitedAlways(r, y);
    forall i, j | i in y.tasks && j in y.tasks && y.tasks[i].Polling? && y.tasks[j].Polling?
                  && y.tasks[i].gen == y.tasks[j].gen
      ensures i == j
    {
      assert SameWait(i, y.tasks[i], j, y.tasks[j]);
    }
  }

  lemma OnePollerExactly(r: Restrictions)
    ensures (forall y :: ReachableUnder(r, y) ==> OnePoller(y)) <==> r.start
  {
    hide ReachableUnder;
    if r.start {
      forall y | ReachableUnder(r, y) ensures OnePoller(y) {
        OnePollerPerGeneration(r, y);
      }
    } else {
      var y := LateSetUpWaitsTwice(WITHOUT_START);
      ReachableUnderLess(WITHOUT_START, r, y);
    }
  }

  /** A wait that has begun for the current generation is being served until the session is
      ready. */
  ghost predicate WaitServed(y: System) {
    y.s.active && !y.s.ready && y.s.readyWaitGen == y.s.generation ==> Awaited(y, y.s.generation)
  }

  lemma WaitIsNeverLost(r: Restrictions, y: System)
    requires r.start && r.exit && ReachableUnder(r, y)
    ensures WaitServed(y)
  {
    hide ReachableUnder, Sound, Owned, Awaited;
    ServedAlways(r, y);
  }

  lemma WaitIsNeverLostExactly(r: Restrictions)
    ensures (forall y :: ReachableUnder(r, y) ==> WaitServed(y)) <==> r.start && r.exit
  {
    hide ReachableUnder;
    if r.start && r.exit {
      forall y | ReachableUnder(r, y) ensures WaitServed(y) {
        WaitIsNeverLost(r, y);
      }
    } else if !r.start {
      var y := OldPollerLosesWait(WITHOUT_START);
      ReachableUnderLess(WITHOUT_START, r, y);
    } else {
      var y := LatePollerLosesWait(WITHOUT_EXIT);
      ReachableUnderLess(WITHOUT_EXIT, r, y);
    }
  }

  /* ---- The EIP browser ---- */

  /** Across all reconnects the browser is opened at most once per manual start, and
      `eip_opened` says whether it was. */
  lemma BrowserOpensOnce(r: Restrictions, y: System)
    requires r.start && r.eip && ReachableUnder(r, y)
    ensures y.h.opens <= 1
    ensures y.s.active ==> (y.s.eipOpened <==> y.h.opens == 1)
  {
    hide ReachableUnder, Sound;
    OpenedOnceAlways(r, y);
  }

  /** Whatever else is uninterrupted, lifting one of the two lets the browser open twice. */
  lemma BrowserExactly(r: Restrictions)
    ensures (forall y :: ReachableUnder(r, y) ==> y.h.opens <= 1) <==> r.start && r.eip
  {
    hide ReachableUnder;
    if r.start && r.eip {
      forall y | ReachableUnder(r, y) ensures y.h.opens <= 1 {
        BrowserOpensOnce(r, y);
      }
    } else if !r.start {
      var y := LateSetUpOpensTwice(WITHOUT_START);
      ReachableUnderLess(WITHOUT_START, r, y);
    } else {
      var y := LateMarkOpensTwice(WITHOUT_EIP);
      ReachableUnderLess(WITHOUT_EIP, r, y);
    }
  }

  /** The flag says whether the browser was opened since the manual start. */
  lemma FlagTellsOpens(r: Restrictions, y: System)
    requires r.eip && ReachableUnder(r, y)
    ensures y.s.active ==> (y.s.eipOpened <==> y.h.opens >= 1)
  {
    hide ReachableUnder;
    FlaggedAlways(r, y);
  }

  lemma FlagExactly(r: Restrictions)
    ensures (forall y :: ReachableUnder(r, y) && y.s.active ==> (y.s.eipOpened <==> y.h.opens >= 1))
      <==> r.eip
  {
    hide ReachableUnder;
    if r.eip {
      forall y | ReachableUnder(r, y) && y.s.active ensures y.s.eipOpened <==> y.h.opens >= 1 {
        FlagTellsOpens(r, y);
      }
    } else {
      var y := ReadyAfterLateMark(WITHOUT_EIP);
      ReachableUnderLess(WITHOUT_EIP, r, y);
    }
  }

  ghost predicate SchedulesOpener(y: System, i: TaskId)
    requires Enabled(y, MarkReady(i)) && MayMarkReady(y.s, y.tasks[i].gen)
  {
    Is(Next(y, MarkReady(i)), i, EipSpawning(y.s.generation, y.tasks[i].owner))
  }

  /** A session that becomes ready schedules an opener iff it wants one and none has opened
      yet: an open that a drop cancelled is tried again on the next ready. */
  ghost predicate ReopensIfDue(y: System) {
    forall i :: Enabled(y, MarkReady(i)) && MayMarkReady(y.s, y.tasks[i].gen) ==>
      (SchedulesOpener(y, i) <==> (y.s.eipOptions.eipAutoOpen && y.h.opens == 0))
  }

  lemma CancelledOpenIsRetried(r: Restrictions, y: System)
    requires r.eip && ReachableUnder(r, y)
    ensures ReopensIfDue(y)
  {
    hide ReachableUnder, Next;
    FlagTellsOpens(r, y);
    forall i | Enabled(y, MarkReady(i)) && MayMarkReady(y.s, y.tasks[i].gen)
      ensures SchedulesOpener(y, i) <==> (y.s.eipOptions.eipAutoOpen && y.h.opens == 0)
    {
      ReadyAfter(y, i);
    }
  }

  lemma CancelledOpenExactly(r: Restrictions)
    ensures (forall y :: ReachableUnder(r, y) ==> ReopensIfDue(y)) <==> r.eip
  {
    hide ReachableUnder, ReopensIfDue;
    if r.eip {
      forall y | ReachableUnder(r, y) ensures ReopensIfDue(y) {
        CancelledOpenIsRetried(r, y);
      }
    } else {
      var y := ReadyAfterLateMark(WITHOUT_EIP);
      ReachableUnderLess(WITHOUT_EIP, r, y);
      OpensOnceTooOften(y, 6, 2, Some(5));
    }
  }

  lemma OpensOnceTooOften(y: System, i: TaskId, gen: nat, owner: Option<TaskId>)
    requires Is(y, i, MarkingReady(gen, owner)) && MayMarkReady(y.s, gen) && WantsEip(y.s)
    requires y.h.opens == 1
    ensures !ReopensIfDue(y)
  {
    MarkReadyDoes(y, i, gen, owner);
    hide Enabled, Next;
    ReadyAfter(y, i);
    assert SchedulesOpener(y, i);
  }

  lemma ReadyAfter(y: System, i: TaskId)
    requires Enabled(y, MarkReady(i)) && MayMarkReady(y.s, y.tasks[i].gen)
    ensures var z := Next(y, MarkReady(i));
      if WantsEip(y.s) then i in z.tasks && z.tasks[i] == EipSpawning(y.s.generation, y.tasks[i].owner)
      else i !in z.tasks
  {
    hide HistoryAfter, PipesAfter, SessionAfter;
  }

  /* ---- Options ---- */

  /** A retry that still counts carries the options of the start that set the session up. */
  ghost predicate RetriesAsStarted(y: System) {
    forall i :: (i in y.tasks && (y.tasks[i].RetryChecked? || y.tasks[i].RetryAnnounced?)
                 && y.s.active && y.tasks[i].gen == y.s.generation) ==>
      y.tasks[i].options == y.h.options
  }

  lemma RetryCarriesTheOptions(r: Restrictions, y: System)
    requires r.start && ReachableUnder(r, y)
    ensures RetriesAsStarted(y)
  {
    hide ReachableUnder;
    RetriesFitAlways(r, y);
    forall i | i in y.tasks && (y.tasks[i].RetryChecked? || y.tasks[i].RetryAnnounced?)
               && y.s.active && y.tasks[i].gen == y.s.generation
      ensures y.tasks[i].options == y.h.options
    {
      assert RetryFits(y.s, y.h.options, y.tasks[i]);
    }
  }

  lemma RetryCarriesExactly(r: Restrictions)
    ensures (forall y :: ReachableUnder(r, y) ==> RetriesAsStarted(y)) <==> r.start
  {
    hide ReachableUnder;
    if r.start {
      forall y | ReachableUnder(r, y) ensures RetriesAsStarted(y) {
        RetryCarriesTheOptions(r, y);
      }
    } else {
      var y := RetryCarriesOldOptions(WITHOUT_START);
      ReachableUnderLess(WITHOUT_START, r, y);
      assert 3 in y.tasks && y.tasks[3].options != y.h.options;
    }
  }

  /** The options that decide about the mode and the EIP browser are those of the start. */
  lemma SessionKeepsTheOptions(r: Restrictions, y: System)
    requires r.start && r.retry && ReachableUnder(r, y)
    ensures y.s.eipOptions == y.h.options
  {
    hide ReachableUnder;
    StoredAlways(r, y);
  }

  lemma SessionKeepsExactly(r: Restrictions)
    ensures (forall y :: ReachableUnder(r, y) ==> y.s.eipOptions == y.h.options)
      <==> r.start && r.retry
  {
    hide ReachableUnder;
    if r.start && r.retry {
      forall y | ReachableUnder(r, y) ensures y.s.eipOptions == y.h.options {
        SessionKeepsTheOptions(r, y);
      }
    } else if !r.start {
      var y := EarlyRetryStores(WITHOUT_START);
      ReachableUnderLess(WITHOUT_START, r, y);
    } else {
      var y := LateRetryStores(WITHOUT_RETRY);
      ReachableUnderLess(WITHOUT_RETRY, r, y);
    }
  }

  /** A session that becomes ready schedules an opener iff its start asked for one and none has
      opened since. */
  ghost predicate OpensAsStarted(y: System) {
    forall i :: Enabled(y, MarkReady(i)) && MayMarkReady(y.s, y.tasks[i].gen) ==>
      (SchedulesOpener(y, i) <==> (y.h.options.eipAutoOpen && y.h.opens == 0))
  }

  lemma BrowserOpensAsStarted(r: Restrictions, y: System)
    requires r.start && r.eip && r.retry && ReachableUnder(r, y)
    ensures OpensAsStarted(y)
  {
    hide ReachableUnder, Enabled, SchedulesOpener;
    CancelledOpenIsRetried(r, y);
    SessionKeepsTheOptions(r, y);
  }

  lemma NotAsStarted(y: System, i: TaskId, gen: nat, owner: Option<TaskId>)
    requires Is(y, i, MarkingReady(gen, owner)) && MayMarkReady(y.s, gen)
    requires WantsEip(y.s) != (y.h.options.eipAutoOpen && y.h.opens == 0)
    ensures !OpensAsStarted(y)
  {
    MarkReadyDoes(y, i, gen, owner);
    hide Enabled, Next;
    ReadyAfter(y, i);
    assert SchedulesOpener(y, i) <==> WantsEip(y.s);
  }

  lemma BrowserOpensAsStartedExactly(r: Restrictions)
    ensures (forall y :: ReachableUnder(r, y) ==> OpensAsStarted(y)) <==> r.start && r.eip && r.retry
  {
    hide ReachableUnder, OpensAsStarted;
    if r.start && r.eip && r.retry {
      forall y | ReachableUnder(r, y) ensures OpensAsStarted(y) {
        BrowserOpensAsStarted(r, y);
      }
    } else if !r.start {
      var y := ReadyWithEarlyOptions(WITHOUT_START);
      ReachableUnderLess(WITHOUT_START, r, y);
      NotAsStarted(y, 5, 3, Some(4));
    } else if !r.eip {
      var y := ReadyAfterLateMark(WITHOUT_EIP);
      ReachableUnderLess(WITHOUT_EIP, r, y);
      NotAsStarted(y, 6, 2, Some(5));
    } else {
      var y := ReadyWithOldOptions(WITHOUT_RETRY);
      ReachableUnderLess(WITHOUT_RETRY, r, y);
      NotAsStarted(y, 5, 3, Some(4));
    }
  }
}
