/**
  Safety over whole runs at level L1: any number of starts, stops, retries, exits and
  readers interleaved lock section by lock section.
*/
module LockTheorems {
  import opened Wrappers
  import opened Text
  import opened Sessions
  import opened Protocol
  import opened TaskFrames
  import opened Footprints
  import opened LockInvariants
  import opened HandleInvariants
  import opened StdinFraming

  ghost predicate Sound(y: System) {
    && Numbered(y) && Slotted(y) && TokensBounded(y) && Aimed(y)
    && Dated(y) && Remembered(y) && AnsweredOnce(y) && AttemptsCounted(y) && PipesFramed(y)
  }

  lemma InitiallySound()
    ensures Sound(INITIAL)
  {
  }

  lemma SoundKept(y: System, st: Step)
    requires Sound(y) && Enabled(y, st)
    ensures Sound(Next(y, st))
  {
    hide Enabled, Next, Numbered, Slotted, TokensBounded, Aimed, Dated, Remembered,
      AnsweredOnce, AttemptsCounted, PipesFramed;
    NumberedKept(y, st);
    SlottedKept(y, st);
    TokensKept(y, st);
    AimedKept(y, st);
    DatedKept(y, st);
    RememberedKept(y, st);
    AnsweredOnceKept(y, st);
    AttemptsKept(y, st);
    PipesFramedKept(y, st);
  }

  lemma {:induction false} SoundAlong(y: System, steps: seq<Step>, z: System)
    requires Sound(y) && Run(y, steps, z)
    ensures Sound(z)
    decreases |steps|
  {
    hide Sound, Enabled, Next;
    if steps != [] {
      SoundKept(y, steps[0]);
      SoundAlong(Next(y, steps[0]), steps[1..], z);
    }
  }

  ghost predicate Reachable(y: System) {
    exists steps :: Run(INITIAL, steps, y)
  }

  lemma ReachableIsSound(y: System)
    requires Reachable(y)
    ensures Sound(y)
  {
    hide Sound, Enabled, Next;
    InitiallySound();
    var steps :| Run(INITIAL, steps, y);
    SoundAlong(INITIAL, steps, y);
  }

  /* ---- Slot ownership ---- */

  /** The slot is taken iff exactly one child is supervised, and it is that child's: its
      pid, its stdin, and its stop channel unless a stop has claimed it and reaches it. */
  lemma SlotBelongsToOneChild(y: System)
    requires Reachable(y)
    ensures y.s.childPid.Some? <==> exists c: TaskId :: Supervised(y, c)
    ensures y.s.childPid.Some? <==> y.s.stdinTx.Some?
    ensures forall c, d: TaskId :: Supervised(y, c) && Supervised(y, d) ==> c == d
    ensures forall c: TaskId :: Supervised(y, c) ==>
      && y.s.childPid == Some(y.tasks[c].pid)
      && y.s.stdinTx == Some(c)
      && (y.s.stopTx == Some(c) || (y.s.stopTx == None && StopUnderWay(y, c)))
  {
    hide Sound, Run;
    ReachableIsSound(y);
    assert Slotted(y) by { SoundIsSlotted(y); }
  }

  lemma SoundIsSlotted(y: System)
    requires Sound(y)
    ensures Slotted(y) && Numbered(y)
  {
  }

  /** Only the exit of the child that holds the slot ever empties it: no cleanup of a losing
      start, no stop and no other child's exit does. */
  lemma OnlyItsOwnExitEmptiesTheSlot(y: System, st: Step, c: TaskId)
    requires Reachable(y) && Supervised(y, c) && Enabled(y, st)
    ensures var z := Next(y, st);
      if st == Exit(c) then z.s.childPid == None && z.s.stdinTx == None && z.s.stopTx == None
      else z.s.childPid == y.s.childPid && z.s.stdinTx == y.s.stdinTx && Supervised(z, c)
  {
    hide Run, Sound, Slotted, Numbered, PipesAfter, HistoryAfter, Aborts;
    ReachableIsSound(y);
    SoundIsSlotted(y);
    if st != Exit(c) {
      SlotKeepsPid(y, st, c);
      SlotKeepsSupervisor(y, st, c);
    }
  }

  lemma SlotKeepsPid(y: System, st: Step, c: TaskId)
    requires Slotted(y) && Supervised(y, c) && Enabled(y, st) && st != Exit(c)
    ensures var s := SessionAfter(y, st);
      s.childPid == y.s.childPid && s.stdinTx == y.s.stdinTx
  {
    assert y.s.stdinTx == Some(c) && y.s.childPid.Some?;
    if TouchesSlot(st) {
      hide ReadersDone, StopUnderWay;
    } else {
      hide SessionAfter;
      OthersKeepSlotFields(y, st);
    }
  }

  lemma SlotKeepsSupervisor(y: System, st: Step, c: TaskId)
    requires Numbered(y) && Supervised(y, c) && Enabled(y, st) && st != Exit(c)
    ensures Supervised(Next(y, st), c)
  {
    hide SessionAfter, After, Fresh, Aborts, Changed, PipesAfter, HistoryAfter, Numbered,
      ReadersDone;
    NextMoves(y, st);
  }

  /** A stop that took the stop channel of a child still held reaches that child. */
  lemma StopReachesItsChild(y: System, steps: seq<Step>, z: System, c: TaskId)
    requires Reachable(y) && Run(y, steps, z) && StopUnderWay(y, c)
    ensures StopUnderWay(z, c)
    decreases |steps|
  {
    hide Sound, Enabled, Next, StopUnderWay, Numbered;
    ReachableIsSound(y);
    SoundIsSlotted(y);
    if steps != [] {
      ReachableNext(y, steps[0]);
      StopGetsThere(y, steps[0], c);
      StopReachesItsChild(Next(y, steps[0]), steps[1..], z, c);
    }
  }

  lemma ReachableNext(y: System, st: Step)
    requires Reachable(y) && Enabled(y, st)
    ensures Reachable(Next(y, st))
  {
    hide Enabled, Next;
    var steps :| Run(INITIAL, steps, y);
    assert Run(Next(y, st), [], Next(y, st));
    assert [st][1..] == [];
    assert Run(y, [st], Next(y, st));
    RunsCompose(INITIAL, steps, y, [st], Next(y, st));
  }

  /* ---- Tokens ---- */

  lemma {:induction false} GenerationNeverDecreases(y: System, steps: seq<Step>, z: System)
    requires Run(y, steps, z)
    ensures y.s.generation <= z.s.generation
    decreases |steps|
  {
    hide Enabled, SessionAfter, ChangeOf, Changed, PipesAfter, HistoryAfter;
    if steps != [] {
      GenerationGrows(y, steps[0]);
      GenerationNeverDecreases(Next(y, steps[0]), steps[1..], z);
    }
  }

  /** No task is ahead of the shared generation. */
  lemma NoTokenIsAhead(y: System, i: TaskId)
    requires Reachable(y) && i in y.tasks && y.tasks[i].Token().Some?
    ensures y.tasks[i].Token().value <= y.s.generation
  {
    hide Run;
    ReachableIsSound(y);
  }

  /** The generation is at least 1 whenever a session is active, so the sentinel 0 never stands
      for a wait; and nothing was ever registered or waited for ahead of it. */
  lemma GenerationIsAhead(y: System)
    requires Reachable(y)
    ensures y.s.active ==> 1 <= y.s.generation
    ensures y.s.readyWaitGen <= y.s.generation
    ensures forall g <- y.h.registrations + y.h.waits :: g <= y.s.generation
  {
    hide Run;
    ReachableIsSound(y);
  }

  /** What a retry would use are the options of the last start that set a session up. */
  lemma LastOptionsAreTheStarts(y: System)
    requires Reachable(y)
    ensures y.s.lastOptions == y.h.options
  {
    hide Run;
    ReachableIsSound(y);
  }

  lemma SoundIsCalm(y: System)
    requires Sound(y)
    ensures Calm(y.s)
  {
  }

  /** Every guard that compares a token with the generation rejects token `gen`. */
  ghost predicate Rejected(s: Session, gen: nat) {
    && SpawnGuardViolated(s, gen)
    && CleanUpSkips(s, gen)
    && !ContinuesWait(s, gen)
    && !MayMarkReady(s, gen)
    && !EipValid(s, gen)
    && !RetryValid(s, gen)
    && (s.active ==> ExitDecision(s, gen).Ignore? && Decided(s, gen) == s)
  }

  /** Once the generation has moved past a token, no guard ever accepts it again. */
  lemma StaleTokensStayStale(y: System, steps: seq<Step>, z: System, gen: nat)
    requires Run(y, steps, z) && gen < y.s.generation
    ensures Rejected(z.s, gen)
  {
    hide Run;
    GenerationNeverDecreases(y, steps, z);
  }

  /** Until it ends, a task holds the token it took, or has given it up for good. */
  lemma {:induction false} TokenIsHeldAlong(y: System, steps: seq<Step>, z: System, i: TaskId)
    requires Numbered(y) && Run(y, steps, z) && i in y.tasks && i in z.tasks
    ensures KeepsToken(y.tasks[i], z.tasks[i])
    decreases |steps|
  {
    hide Enabled, Next, Numbered;
    if steps != [] {
      NumberedKept(y, steps[0]);
      StillThere(Next(y, steps[0]), steps[1..], z, i) by { BelowNext(y, steps[0], i); }
      TokenIsHeld(y, steps[0], i);
      TokenIsHeldAlong(Next(y, steps[0]), steps[1..], z, i);
    }
  }

  lemma BelowNext(y: System, st: Step, i: TaskId)
    requires Numbered(y) && Enabled(y, st) && i in y.tasks
    ensures i < Next(y, st).next
  {
    hide SessionAfter, After, Aborts, Changed, PipesAfter, HistoryAfter;
  }

  /** Identities are not used twice: a task that is there at the end was there all along. */
  lemma {:induction false} StillThere(y: System, steps: seq<Step>, z: System, i: TaskId)
    requires Numbered(y) && Run(y, steps, z) && i < y.next && i in z.tasks
    ensures i in y.tasks
    decreases |steps|
  {
    hide Enabled, Next, Numbered;
    if steps != [] {
      NumberedKept(y, steps[0]);
      NotBefore(y, steps[0], i);
      StillThere(Next(y, steps[0]), steps[1..], z, i);
    }
  }

  lemma NotBefore(y: System, st: Step, i: TaskId)
    requires Numbered(y) && Enabled(y, st) && i < y.next
    ensures i < Next(y, st).next
    ensures i in Next(y, st).tasks ==> i in y.tasks
  {
    hide SessionAfter, After, Fresh, Aborts, Changed, PipesAfter, HistoryAfter, Numbered;
    NextMoves(y, st);
  }

  lemma TokenIsHeld(y: System, st: Step, i: TaskId)
    requires Numbered(y) && Enabled(y, st) && i in y.tasks && i in Next(y, st).tasks
    ensures KeepsToken(y.tasks[i], Next(y, st).tasks[i])
  {
    hide SessionAfter, ChangeOf, PipesAfter, HistoryAfter, Changed;
    NextMoves(y, st);
    TokenOfChange(y, st);
  }

  /** When a start takes over, every child registered before it has left the slot and can at
      most be about to decide; from then on that changes nothing while a session is active. */
  lemma OldExitsChangeNothing(y: System, options: Options, steps: seq<Step>, z: System,
                              child: TaskId)
    requires Reachable(y) && Enabled(y, AcquireStart(options))
    requires Run(Next(y, AcquireStart(options)), steps, z)
    requires child in y.tasks && y.tasks[child].Deciding?
    requires Enabled(z, Decide(child)) && z.s.active
    ensures Next(z, Decide(child)) == z.(tasks := z.tasks - {child})
  {
    hide Run, Sound, Numbered, Slotted;
    var start := AcquireStart(options);
    var x := Next(y, start);
    ReachableIsSound(y);
    SoundIsSlotted(y);
    SoundIsBounded(y);
    StartKeepsTasks(y, options, child, steps, z);
    StaleTokensStayStale(x, steps, z, z.tasks[child].gen);
    IgnoredExit(z, child);
  }

  lemma IgnoredExit(z: System, i: TaskId)
    requires Enabled(z, Decide(i)) && ExitDecision(z.s, z.tasks[i].gen).Ignore?
    ensures Next(z, Decide(i)) == z.(tasks := z.tasks - {i})
  {
    hide Enabled;
    assert ChangeOf(z, Decide(i)) == Change(Some(i), None, None, {});
    assert Changed(z.tasks, ChangeOf(z, Decide(i)), z.next) == z.tasks - {i};
  }

  lemma SoundIsBounded(y: System)
    requires Sound(y)
    ensures TokensBounded(y)
  {
  }

  lemma StartKeepsTasks(y: System, options: Options, i: TaskId, steps: seq<Step>, z: System)
    requires Numbered(y) && TokensBounded(y) && Enabled(y, AcquireStart(options))
    requires Run(Next(y, AcquireStart(options)), steps, z)
    requires i in y.tasks && y.tasks[i].Deciding?
    requires i in z.tasks && z.tasks[i].Deciding?
    ensures z.tasks[i].gen < Next(y, AcquireStart(options)).s.generation
  {
    hide Run, Numbered, Aborts, Changed, PipesAfter, HistoryAfter;
    var start := AcquireStart(options);
    NumberedKept(y, start);
    NextMoves(y, start);
    BelowNext(y, start, i);
    StillThere(Next(y, start), steps, z, i);
    TokenIsHeldAlong(Next(y, start), steps, z, i);
  }

  /* ---- Stop is final ---- */

  ghost predicate StartsNothing(steps: seq<Step>) {
    forall st <- steps :: !st.SetUpStart?
  }

  predicate PassesNothing(s: Session, gen: nat) {
    && SpawnGuardViolated(s, gen) && !ContinuesWait(s, gen) && !MayMarkReady(s, gen)
    && !EipValid(s, gen) && !RetryValid(s, gen)
  }

  /** After a stop, until some start sets a session up, no session comes back to life, no
      child is registered and no guard passes, for any token at all. */
  lemma StopIsFinal(y: System, steps: seq<Step>, z: System)
    requires Run(Next(y, Stop), steps, z) && StartsNothing(steps)
    ensures !z.s.active && !z.s.ready
    ensures z.h.registrations == y.h.registrations
    ensures !MayBeginWait(z.s)
    ensures forall gen: nat :: PassesNothing(z.s, gen)
  {
    hide Run;
    StaysDown(Next(y, Stop), steps, z);
  }

  lemma {:induction false} StaysDown(y: System, steps: seq<Step>, z: System)
    requires !y.s.active && !y.s.ready && Run(y, steps, z) && StartsNothing(steps)
    ensures !z.s.active && !z.s.ready && z.h.registrations == y.h.registrations
    decreases |steps|
  {
    hide Enabled, SessionAfter, HistoryAfter, ChangeOf, Changed, PipesAfter;
    if steps != [] {
      DownStepStaysDown(y, steps[0]);
      StaysDown(Next(y, steps[0]), steps[1..], z);
    }
  }

  lemma DownStepStaysDown(y: System, st: Step)
    requires !y.s.active && !y.s.ready && Enabled(y, st) && !st.SetUpStart?
    ensures var s := SessionAfter(y, st); !s.active && !s.ready
    ensures HistoryAfter(y, st).registrations == y.h.registrations
  {
    OthersLogNothing(y, st);
    if !Turns(st) && !st.MarkReady? {
      hide SessionAfter, HistoryAfter;
      OthersKeepPhase(y, st);
      OthersKeepReady(y, st);
      if st.Register? {
        RegistersOnlyIfActive(y, st.i);
      }
    }
  }

  lemma RegistersOnlyIfActive(y: System, i: TaskId)
    requires !y.s.active && Enabled(y, Register(i))
    ensures HistoryAfter(y, Register(i)) == y.h
  {
  }

  /** What was in flight when the stop came is dead for good, whatever is started later: each
      of its tokens is rejected by every guard of every later state. */
  lemma StopOutdatesEverything(y: System, steps: seq<Step>, z: System, i: TaskId)
    requires Reachable(y) && Run(Next(y, Stop), steps, z)
    requires i in y.tasks && y.tasks[i].Token().Some?
    ensures Rejected(z.s, y.tasks[i].Token().value)
  {
    hide Run, Rejected;
    NoTokenIsAhead(y, i);
    StaleTokensStayStale(Next(y, Stop), steps, z, y.tasks[i].Token().value);
  }

  /* ---- Prompts and stdin ---- */

  /** No prompt is answered more often than it was raised; while it is awaited there is one
      answer still to come. */
  lemma OneAnswerPerPrompt(y: System, p: Prompt)
    requires Reachable(y)
    ensures y.h.answered.Of(p) + AwaitedOnce(y.s, p) <= y.h.raised.Of(p)
  {
    hide Run;
    ReachableIsSound(y);
  }

  /** A child reads exactly the values accepted for it, one per line and in order, up to the
      ones still queued; a write cut short leaves the beginning of the next value. */
  lemma StdinCarriesTheAnswers(y: System, c: TaskId)
    requires Reachable(y) && c in y.pipes
    ensures var p := y.pipes[c];
      var (lines, rest) := SplitOnLf(p.written);
      && p.delivered <= |p.accepted| && p.queue == p.accepted[p.delivered..]
      && lines == Encoded(p.accepted[..p.delivered])
      && (if p.delivered < |p.accepted| then rest <= Utf8(p.accepted[p.delivered]) else rest == [])
  {
    hide Run;
    ReachableIsSound(y);
    FramedReadsBack(y.pipes[c]);
  }

  /** Between two resets the attempts are 1, 2, 3, ..., up to the limit of a u32. */
  lemma AttemptsCountUp(y: System, j: nat)
    requires Reachable(y) && j < |y.h.attempts|
    ensures y.h.attempts[j] == if j < 0xFFFF_FFFF then j + 1 else 0xFFFF_FFFF
    ensures y.s.retryAttempt ==
      if |y.h.attempts| < 0xFFFF_FFFF then |y.h.attempts| else 0xFFFF_FFFF
  {
    hide Run;
    ReachableIsSound(y);
  }
}
