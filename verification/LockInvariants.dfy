/**
  What every lock-section step keeps, under every interleaving (level L1).
*/
module LockInvariants {
  import opened Wrappers
  import opened Sessions
  import opened Protocol
  import opened TaskFrames
  import opened Footprints

  /* ---- Who holds the child slot ---- */

  /** A stop has taken the stop channel of `c` and has reached it or is about to. */
  ghost predicate StopUnderWay(y: System, c: TaskId) {
    c in y.signalled || exists k :: k in y.tasks && Reaches(y.tasks[k], c)
  }

  predicate Reaches(t: Task, c: TaskId) {
    t == StopSending(c) || (t.Stopping? && t.stop == Some(c))
  }

  /** Child `c` holds the slot: its pid and both channel ends, or the stop end was claimed. */
  ghost predicate Holds(y: System, c: TaskId) {
    && Supervised(y, c)
    && y.s.childPid == Some(y.tasks[c].pid)
    && y.s.stdinTx == Some(c)
    && (y.s.stopTx == Some(c) || (y.s.stopTx == None && StopUnderWay(y, c)))
  }

  ghost predicate Slotted(y: System) {
    && (y.s.childPid.None? <==> y.s.stdinTx.None?)
    && (y.s.childPid.None? ==> y.s.stopTx.None?)
    && (y.s.stdinTx.Some? ==> Holds(y, y.s.stdinTx.value))
    && (forall i: TaskId :: Supervised(y, i) ==> y.s.stdinTx == Some(i))
  }

  predicate HoldsOrStops(t: Task) {
    t.Supervising? || t.Stopping? || t.StopSending?
  }

  /** The change leaves the slot's holder and the stops on their way alone. */
  ghost predicate LeavesSlot(y: System, c: Change) {
    && (c.subject.Some? ==> c.subject.value in y.tasks && !HoldsOrStops(y.tasks[c.subject.value]))
    && (c.after.Some? ==> !c.after.value.Supervising?)
    && (c.spawned.Some? ==> !c.spawned.value.Supervising?)
  }

  lemma SlotFrame(y: System, c: Change, z: System)
    requires Slotted(y) && Moves(y, c, z) && LeavesSlot(y, c)
    requires z.s.childPid == y.s.childPid && z.s.stdinTx == y.s.stdinTx && z.s.stopTx == y.s.stopTx
    requires y.signalled <= z.signalled
    ensures Slotted(z)
  {
    if y.s.stdinTx.Some? {
      var holder := y.s.stdinTx.value;
      if y.s.stopTx == None && holder !in y.signalled {
        var k :| k in y.tasks && Reaches(y.tasks[k], holder);
        assert k in z.tasks && Reaches(z.tasks[k], holder);
      }
    }
  }

  predicate StopSteps(st: Step) {
    st.AbortStopped? || st.SendStop?
  }

  lemma OthersLeaveSlot(y: System, st: Step)
    requires Enabled(y, st) && !TouchesSlot(st) && !StopSteps(st)
    ensures LeavesSlot(y, ChangeOf(y, st))
  {
    hide SessionAfter, Aborts, PipesAfter, HistoryAfter;
  }

  lemma RegisterKeepsSlot(y: System, i: TaskId)
    requires Slotted(y) && Numbered(y) && Enabled(y, Register(i))
    ensures Slotted(Next(y, Register(i)))
  {
    var z := Next(y, Register(i));
    NextMoves(y, Register(i));
    if SpawnGuardViolated(y.s, y.tasks[i].gen) {
      SlotFrame(y, ChangeOf(y, Register(i)), z);
    }
  }

  lemma CleanUpKeepsSlot(y: System, i: TaskId)
    requires Slotted(y) && Numbered(y) && Enabled(y, CleanUp(i))
    ensures Slotted(Next(y, CleanUp(i)))
  {
    NextMoves(y, CleanUp(i));
    SlotFrame(y, ChangeOf(y, CleanUp(i)), Next(y, CleanUp(i)));
  }

  lemma StopStep(y: System)
    requires Enabled(y, Stop)
    ensures var z := Next(y, Stop);
      && z.s == Stopped(y.s) && z.signalled == y.signalled
      && ChangeOf(y, Stop) ==
           Change(None, None, Some(Stopping(y.s.stopTx, y.s.retryHandle, y.s.readinessHandle, y.s.delayedEip)), {})
  {
    hide Enabled, Changed, PipesAfter, HistoryAfter;
  }

  lemma StopKeepsSlot(y: System)
    requires Slotted(y) && Numbered(y) && Enabled(y, Stop)
    ensures Slotted(Next(y, Stop))
  {
    hide StopUnderWay, Next, ChangeOf, Numbered, Enabled;
    NextMoves(y, Stop);
    StopStep(y);
    if y.s.stdinTx.Some? {
      StopIsUnderWay(y, y.s.stdinTx.value);
    }
  }

  /** A stop takes the channel of the child in the slot, or another stop has it already. */
  lemma StopIsUnderWay(y: System, c: TaskId)
    requires Numbered(y) && Enabled(y, Stop)
    requires y.s.stopTx == Some(c) || StopUnderWay(y, c)
    ensures StopUnderWay(Next(y, Stop), c)
  {
    hide Next, ChangeOf, Numbered, Enabled;
    var z := Next(y, Stop);
    NextMoves(y, Stop);
    StopStep(y);
    if y.s.stopTx == Some(c) {
      assert y.next in z.tasks && Reaches(z.tasks[y.next], c);
    } else if c !in y.signalled {
      var k :| k in y.tasks && Reaches(y.tasks[k], c);
      assert k in z.tasks && Reaches(z.tasks[k], c);
    }
  }

  /** A step of a stop on its way to `c` takes it further or reaches `c`. */
  lemma StopMovesOn(y: System, st: Step, k: TaskId, c: TaskId)
    requires Enabled(y, st) && Subject(st) == Some(k) && Reaches(y.tasks[k], c)
    ensures var after := After(y, y.tasks[k], st);
      || (after.Some? && Reaches(after.value, c))
      || (st.SendStop? && y.tasks[st.i].target == c)
  {
  }

  /** A stop on its way to a child stays on its way until it arrives. */
  lemma StopGetsThere(y: System, st: Step, c: TaskId)
    requires Numbered(y) && Enabled(y, st) && StopUnderWay(y, c)
    ensures StopUnderWay(Next(y, st), c)
  {
    hide SessionAfter, After, Fresh, Aborts, Changed, PipesAfter, HistoryAfter, Numbered, Enabled,
      Poised;
    NextMoves(y, st);
    var z := Next(y, st);
    if c !in z.signalled {
      var k :| k in y.tasks && Reaches(y.tasks[k], c);
      if Subject(st) == Some(k) {
        StopMovesOn(y, st, k, c);
      }
      assert k in z.tasks && Reaches(z.tasks[k], c);
    }
  }

  lemma StopProgressKeepsSlot(y: System, st: Step)
    requires Slotted(y) && Numbered(y) && Enabled(y, st) && StopSteps(st)
    ensures Slotted(Next(y, st))
  {
    hide PipesAfter, HistoryAfter, Aborts, Changed, Numbered, StopUnderWay;
    NextMoves(y, st);
    if y.s.stdinTx.Some? && y.s.stopTx == None {
      StopGetsThere(y, st, y.s.stdinTx.value);
    }
  }

  lemma ExitKeepsSlot(y: System, i: TaskId)
    requires Slotted(y) && Numbered(y) && Enabled(y, Exit(i))
    ensures Slotted(Next(y, Exit(i)))
  {
    NextMoves(y, Exit(i));
  }

  lemma OthersKeepSlot(y: System, st: Step)
    requires Slotted(y) && Numbered(y) && Enabled(y, st) && !TouchesSlot(st) && !StopSteps(st)
    ensures Slotted(Next(y, st))
  {
    hide SessionAfter, ChangeOf, PipesAfter, HistoryAfter, Changed, Moves, Slotted, LeavesSlot,
      TouchesSlot;
    NextMoves(y, st);
    OthersKeepSlotFields(y, st);
    OthersLeaveSlot(y, st);
    SlotFrame(y, ChangeOf(y, st), Next(y, st));
  }

  lemma SlottedKept(y: System, st: Step)
    requires Slotted(y) && Numbered(y) && Enabled(y, st)
    ensures Slotted(Next(y, st))
  {
    hide Slotted, Numbered, Next, Enabled;
    match st
    case Register(i) => RegisterKeepsSlot(y, i);
    case CleanUp(i) => CleanUpKeepsSlot(y, i);
    case Stop => StopKeepsSlot(y);
    case AbortStopped(_) => StopProgressKeepsSlot(y, st);
    case SendStop(_) => StopProgressKeepsSlot(y, st);
    case Exit(i) => ExitKeepsSlot(y, i);
    case _ => OthersKeepSlot(y, st);
  }

  /* ---- Tokens ---- */

  ghost predicate TokensBounded(y: System) {
    forall i :: i in y.tasks ==> TokenAtMost(y.tasks[i], y.s.generation)
  }

  predicate TokenAtMost(t: Task, gen: nat) {
    t.Token().Some? ==> t.Token().value <= gen
  }

  /** A task that gave its token up, as a retry does when it schedules the next one. */
  predicate Spent(t: Task) {
    t.Token().None? && !t.Starting?
  }

  /** A token is taken once, and kept until the task ends or gives it up. */
  predicate KeepsToken(t: Task, u: Task) {
    && (t.Token().Some? ==> u.Token() == t.Token() || Spent(u))
    && (Spent(t) ==> Spent(u))
  }

  lemma GenerationGrows(y: System, st: Step)
    requires Enabled(y, st)
    ensures y.s.generation <= SessionAfter(y, st).generation
  {
    hide Enabled, Poised, Subject, Submission;
    if !Turns(st) {
      hide SessionAfter;
      OthersKeepPhase(y, st);
    }
  }

  lemma AfterKeepsToken(y: System, st: Step)
    requires Enabled(y, st) && Subject(st).Some?
    ensures var t := y.tasks[Subject(st).value];
      var after := After(y, t, st);
      after.Some? ==>
        KeepsToken(t, after.value)
        && (t.Starting? ==> after.value.Token() == Some(y.s.generation))
  {
    hide SpawnGuardViolated, MayMarkReady, EipValid, RetryValid, ContinuesWait, ExitDecision;
  }

  lemma SpawnedToken(y: System, st: Step)
    requires Enabled(y, st)
    ensures var spawned := Fresh(y, st);
      spawned.Some? && spawned.value.Token().Some? ==>
        || spawned.value.Token() == Some(y.s.generation)
        || (Subject(st).Some? && spawned.value.Token() == y.tasks[Subject(st).value].Token())
  {
    hide SpawnGuardViolated, MayBeginWait;
  }

  lemma TokenOfChange(y: System, st: Step)
    requires Enabled(y, st)
    ensures var c := ChangeOf(y, st);
      && (c.spawned.Some? && TokensBounded(y) ==> TokenAtMost(c.spawned.value, y.s.generation))
      && (c.after.Some? ==>
            && KeepsToken(y.tasks[c.subject.value], c.after.value)
            && (TokensBounded(y) ==> TokenAtMost(c.after.value, y.s.generation)))
  {
    hide After, Fresh, Aborts, Enabled, Poised;
    SpawnedToken(y, st);
    if Subject(st).Some? {
      SubjectIsThere(y, st);
      AfterKeepsToken(y, st);
    }
  }

  lemma TokensKept(y: System, st: Step)
    requires Numbered(y) && TokensBounded(y) && Enabled(y, st)
    ensures TokensBounded(Next(y, st))
  {
    hide SessionAfter, ChangeOf, PipesAfter, HistoryAfter, Changed, Numbered;
    NextMoves(y, st);
    GenerationGrows(y, st);
    TokenOfChange(y, st);
  }

  /* ---- Prompts ---- */

  function AwaitedOnce(s: Session, p: Prompt): nat {
    if s.awaiting == Some(p) then 1 else 0
  }

  ghost predicate AnsweredOnce(y: System) {
    forall p: Prompt :: y.h.answered.Of(p) + AwaitedOnce(y.s, p) <= y.h.raised.Of(p)
  }

  lemma SubmitAnswersOnce(y: System, st: Step, p: Prompt)
    requires AnsweredOnce(y) && Enabled(y, st) && st.Submit?
    ensures HistoryAfter(y, st).answered.Of(p) + AwaitedOnce(SessionAfter(y, st), p)
      <= HistoryAfter(y, st).raised.Of(p)
  {
    hide Enabled, Listening, Submission, PipesAfter, ChangeOf, Poised, Subject;
    if Submission(y.s, st.raw, st.kind, Listening(y)).Success? {
      SuccessIsAwaited(y.s, st.raw, st.kind, Listening(y));
    }
    assert y.h.answered.Of(p) + AwaitedOnce(y.s, p) <= y.h.raised.Of(p);
    hide AnsweredOnce;
  }

  lemma SuccessIsAwaited(s: Session, raw: string, kind: Option<string>, listening: bool)
    requires Submission(s, raw, kind, listening).Success?
    ensures s.awaiting.Some? && s.stdinTx.Some? && listening
  {
    hide CheckedValue;
  }

  lemma RaisingAsksOnce(y: System, st: Step, p: Prompt)
    requires AnsweredOnce(y) && Enabled(y, st) && (st.RaiseInput? || st.RaiseCaptcha?)
    ensures HistoryAfter(y, st).answered.Of(p) + AwaitedOnce(SessionAfter(y, st), p)
      <= HistoryAfter(y, st).raised.Of(p)
  {
    hide Enabled;
  }

  lemma AnsweredOnceKept(y: System, st: Step)
    requires AnsweredOnce(y) && Enabled(y, st)
    ensures AnsweredOnce(Next(y, st))
  {
    hide ChangeOf, Changed, PipesAfter, Fresh, SessionAfter, HistoryAfter, Enabled;
    forall p: Prompt
      ensures Next(y, st).h.answered.Of(p) + AwaitedOnce(Next(y, st).s, p) <= Next(y, st).h.raised.Of(p)
    {
      if st.Submit? {
        SubmitAnswersOnce(y, st, p);
      } else if st.RaiseInput? || st.RaiseCaptcha? {
        RaisingAsksOnce(y, st, p);
      } else {
        OthersRaiseNothing(y, st);
        OthersTallyNothing(y, st);
      }
    }
  }

  /* ---- Attempts ---- */

  ghost predicate AttemptsCounted(y: System) {
    && y.s.retryAttempt == Saturated(|y.h.attempts|)
    && forall j :: 0 <= j < |y.h.attempts| ==> y.h.attempts[j] == Saturated(j + 1)
  }

  lemma CountingKeepsAttempts(y: System, st: Step)
    requires AttemptsCounted(y) && Enabled(y, st) && Counts(st)
    ensures var attempts := HistoryAfter(y, st).attempts;
      && (attempts == y.h.attempts || attempts == []
          || attempts == y.h.attempts + [Saturated(|y.h.attempts| + 1)])
      && SessionAfter(y, st).retryAttempt == Saturated(|attempts|)
  {
    assert y.s.retryAttempt == Saturated(|y.h.attempts|);
    hide AttemptsCounted, Enabled;
  }

  lemma AttemptsKept(y: System, st: Step)
    requires AttemptsCounted(y) && Enabled(y, st)
    ensures AttemptsCounted(Next(y, st))
  {
    hide ChangeOf, Changed, PipesAfter, Fresh, SessionAfter, HistoryAfter, Enabled;
    if Counts(st) {
      CountingKeepsAttempts(y, st);
    } else {
      OthersKeepAttempt(y, st);
      OthersKeepAttempts(y, st);
    }
  }

  /* ---- Generations ---- */

  predicate Calm(s: Session) {
    (s.active ==> 1 <= s.generation) && s.readyWaitGen <= s.generation
  }

  ghost predicate Dated(y: System) {
    && Calm(y.s)
    && (forall i :: i in y.tasks && y.tasks[i].Starting? ==> 1 <= y.s.generation)
    && (forall g <- y.h.registrations :: g <= y.s.generation)
    && (forall g <- y.h.waits :: g <= y.s.generation)
  }

  lemma StepKeepsCalm(y: System, st: Step)
    requires Dated(y) && Enabled(y, st)
    ensures Calm(SessionAfter(y, st))
  {
    if Turns(st) {
      hide ReadersDone;
    } else {
      OthersKeepPhase(y, st);
      if st.MarkReady? || st.BeginWait? {
        hide Enabled;
      } else {
        hide SessionAfter, Enabled;
        OthersKeepWaitGen(y, st);
      }
    }
  }

  lemma LogsCurrent(y: System, st: Step)
    requires Enabled(y, st)
    ensures forall g <- HistoryAfter(y, st).registrations ::
      g in y.h.registrations || g == y.s.generation
    ensures forall g <- HistoryAfter(y, st).waits :: g in y.h.waits || g == y.s.generation
  {
    OthersLogNothing(y, st);
    if !st.Register? && !st.BeginWait? {
      hide HistoryAfter;
    }
  }

  lemma SetUpIsSpawning(y: System, i: TaskId)
    requires Enabled(y, SetUpStart(i))
    ensures ChangeOf(y, SetUpStart(i)) == Change(Some(i), Some(Spawning(y.s.generation, FromStart)), None, {})
  {
  }

  lemma OnlyAcquireStarts(y: System, st: Step, z: System)
    requires Enabled(y, st) && Moves(y, ChangeOf(y, st), z) && !st.AcquireStart?
    ensures forall i :: i in z.tasks && z.tasks[i].Starting? ==> i in y.tasks && y.tasks[i] == z.tasks[i]
  {
    hide Enabled, ChangeOf;
    if st.SetUpStart? {
      SetUpIsSpawning(y, st.i);
    } else {
      hide Moves, Spares;
      StepSpares(y, st, Starts);
      SparedFamily(y, ChangeOf(y, st), z, Starts);
    }
  }

  lemma DatedKept(y: System, st: Step)
    requires Numbered(y) && Dated(y) && Enabled(y, st)
    ensures Dated(Next(y, st))
  {
    hide Enabled, SessionAfter, HistoryAfter, ChangeOf, Changed, PipesAfter, Fresh, Numbered, Moves,
      Calm;
    NextMoves(y, st);
    GenerationGrows(y, st);
    StepKeepsCalm(y, st);
    LogsCurrent(y, st);
    if st.AcquireStart? {
      AcquireRaises(y, st);
    } else {
      OnlyAcquireStarts(y, st, Next(y, st));
    }
  }

  lemma AcquireRaises(y: System, st: Step)
    requires Enabled(y, st) && st.AcquireStart?
    ensures 1 <= SessionAfter(y, st).generation
  {
    hide Enabled;
  }

  /* ---- Options ---- */

  predicate Remembered(y: System) {
    y.s.lastOptions == y.h.options
  }

  lemma RememberedKept(y: System, st: Step)
    requires Remembered(y) && Enabled(y, st)
    ensures Remembered(Next(y, st))
  {
    hide ChangeOf, Changed, PipesAfter, Fresh, Enabled;
    if !st.SetUpStart? {
      hide SessionAfter, HistoryAfter;
      OthersKeepLastOptions(y, st);
      OthersLogNothing(y, st);
    }
  }
}
