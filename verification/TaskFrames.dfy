/**
  How one step changes the task map, seen task by task, and the numbering that keeps task
  identities apart.
*/
module TaskFrames {
  import opened Wrappers
  import opened Sessions
  import opened Protocol

  predicate Below(h: Option<TaskId>, bound: nat) {
    h.Some? ==> h.value < bound
  }

  predicate HandlesBelow(t: Task, bound: nat) {
    match t
    case TimerArming(h) => h < bound
    case PollerArming(_, _, h) => h < bound
    case EipArming(h, _) => h < bound
    case Stopping(_, r, p, d) => Below(r, bound) && Below(p, bound) && Below(d, bound)
    case _ => true
  }

  predicate SessionHandlesBelow(s: Session, bound: nat) {
    && Below(s.retryHandle, bound) && Below(s.delayedEip, bound)
    && Below(s.readinessHandle, bound) && Below(s.stdinTx, bound)
  }

  /** Identities in use lie below `next`, so a new task collides with nothing. */
  ghost predicate Numbered(y: System) {
    && (forall i :: i in y.tasks ==> i < y.next && HandlesBelow(y.tasks[i], y.next))
    && (forall i :: i in y.pipes ==> i < y.next)
    && SessionHandlesBelow(y.s, y.next)
  }

  /** The tasks of `z` are those of `y` after the change `c`, seen from both sides. */
  ghost predicate Moves(y: System, c: Change, z: System) {
    && (c.subject.Some? ==> c.subject.value in y.tasks)
    && z.next == (if c.spawned.Some? then y.next + 1 else y.next)
    && (forall k :: k in z.tasks ==>
          || (k in y.tasks && z.tasks[k] == y.tasks[k] && c.subject != Some(k))
          || (c.subject == Some(k) && c.after == Some(z.tasks[k]))
          || (k == y.next && c.spawned == Some(z.tasks[k])))
    && (forall k :: k in y.tasks ==>
          || (k in z.tasks && z.tasks[k] == y.tasks[k])
          || c.subject == Some(k)
          || (k in c.aborts && y.tasks[k].Abortable()))
    && (c.subject.Some? && c.after.Some? ==>
          c.subject.value in z.tasks && z.tasks[c.subject.value] == c.after.value)
    && (c.spawned.Some? ==> y.next in z.tasks && z.tasks[y.next] == c.spawned.value)
  }

  lemma ChangedMoves(y: System, c: Change, z: System)
    requires Numbered(y) && (c.subject.Some? ==> c.subject.value in y.tasks)
    requires z.tasks == Changed(y.tasks, c, y.next)
    requires z.next == if c.spawned.Some? then y.next + 1 else y.next
    ensures Moves(y, c, z)
  {
  }

  lemma NextMoves(y: System, st: Step)
    requires Numbered(y) && Enabled(y, st)
    ensures Moves(y, ChangeOf(y, st), Next(y, st))
  {
    hide After, SessionAfter, Aborts, Fresh, PipesAfter, HistoryAfter, Changed, Moves;
    ChangedMoves(y, ChangeOf(y, st), Next(y, st));
  }

  lemma SubjectIsThere(y: System, st: Step)
    requires Enabled(y, st) && Subject(st).Some?
    ensures Subject(st).value in y.tasks && Poised(y.tasks[Subject(st).value], st)
  {
    hide Subject, Poised;
  }

  lemma HandlesKept(y: System, c: Change, z: System)
    requires Numbered(y) && Moves(y, c, z) && SessionHandlesBelow(z.s, z.next)
    requires c.after.Some? ==> HandlesBelow(c.after.value, z.next)
    requires c.spawned.Some? ==> HandlesBelow(c.spawned.value, z.next)
    requires forall i :: i in z.pipes ==> i < z.next
    ensures Numbered(z)
  {
  }

  predicate SetsHandle(st: Step) {
    st.Register? || st.ArmPoller? || st.ArmOpener? || st.ArmTimer?
  }

  predicate SameOrNone(h: Option<TaskId>, was: Option<TaskId>) {
    h == was || h == None
  }

  lemma OthersSetNoTimer(y: System, st: Step)
    requires Enabled(y, st) && !st.ArmTimer?
    ensures SameOrNone(SessionAfter(y, st).retryHandle, y.s.retryHandle)
  {
    hide Enabled, Poised, Subject, Submission, MayMarkReady, EipValid, CleanUpSkips,
      SpawnGuardViolated, Listening;
    if st.AcquireStart? || st.SetUpStart? || st.Stop? || st.Decide? {
      hide MarkedReady, CaptchaRequested, Bumped, Cleared, CleanedUp;
    } else {
      hide Decided, SetUp, Acquired, Stopped, ExitDecision;
    }
  }

  lemma OthersSetNoOpener(y: System, st: Step)
    requires Enabled(y, st) && !st.ArmOpener?
    ensures SameOrNone(SessionAfter(y, st).delayedEip, y.s.delayedEip)
  {
    hide Enabled, Poised, Subject, Submission, MayMarkReady, EipValid, CleanUpSkips,
      SpawnGuardViolated, Listening;
    if st.AcquireStart? || st.SetUpStart? || st.Stop? || st.Decide? {
      hide MarkedReady, CaptchaRequested, Bumped, Cleared, CleanedUp;
    } else {
      hide Decided, SetUp, Acquired, Stopped, ExitDecision;
    }
  }

  lemma OthersSetNoPoller(y: System, st: Step)
    requires Enabled(y, st) && !st.ArmPoller?
    ensures SameOrNone(SessionAfter(y, st).readinessHandle, y.s.readinessHandle)
  {
    hide Enabled, Poised, Subject, Submission, MayMarkReady, EipValid, CleanUpSkips,
      SpawnGuardViolated, Listening;
    if st.AcquireStart? || st.SetUpStart? || st.Stop? || st.Decide? {
      hide MarkedReady, CaptchaRequested, Bumped, Cleared, CleanedUp;
    } else {
      hide Decided, SetUp, Acquired, Stopped, ExitDecision;
    }
  }

  lemma OthersSetNoStdin(y: System, st: Step)
    requires Enabled(y, st) && !st.Register?
    ensures SameOrNone(SessionAfter(y, st).stdinTx, y.s.stdinTx)
  {
    hide Enabled, Poised, Subject, Submission, MayMarkReady, EipValid, CleanUpSkips,
      SpawnGuardViolated, Listening;
    if st.AcquireStart? || st.SetUpStart? || st.Stop? || st.Decide? {
      hide MarkedReady, CaptchaRequested, Bumped, Cleared, CleanedUp;
    } else {
      hide Decided, SetUp, Acquired, Stopped, ExitDecision;
    }
  }

  lemma SessionHandlesKept(y: System, st: Step)
    requires Numbered(y) && Enabled(y, st)
    ensures SessionHandlesBelow(SessionAfter(y, st), if Fresh(y, st).Some? then y.next + 1 else y.next)
  {
    if SetsHandle(st) {
      assert HandlesBelow(y.tasks[Subject(st).value], y.next);
      hide Numbered;
    } else {
      OthersSetNoTimer(y, st);
      OthersSetNoOpener(y, st);
      OthersSetNoPoller(y, st);
      OthersSetNoStdin(y, st);
      hide SessionAfter, Enabled, Fresh;
    }
  }

  lemma TaskHandlesKept(y: System, st: Step)
    requires Numbered(y) && Enabled(y, st)
    ensures var c := ChangeOf(y, st);
      && (c.after.Some? ==>
            HandlesBelow(c.after.value, if c.spawned.Some? then y.next + 1 else y.next))
      && (c.spawned.Some? ==> HandlesBelow(c.spawned.value, y.next + 1))
  {
  }

  lemma OthersKeepPipes(y: System, st: Step)
    requires Enabled(y, st)
    requires !st.Submit? && !st.Forward? && !st.BreakPipe? && !st.Register?
    ensures PipesAfter(y, st) == y.pipes
  {
    hide Enabled;
  }

  lemma PipesKept(y: System, st: Step)
    requires Numbered(y) && Enabled(y, st)
    ensures forall i :: i in PipesAfter(y, st) ==> i in y.pipes || i == y.next
    ensures forall i :: i in y.pipes ==> i in PipesAfter(y, st)
    ensures forall i :: i in PipesAfter(y, st) && i !in y.pipes ==> Fresh(y, st).Some?
  {
    if st.Submit? || st.Forward? || st.BreakPipe? || st.Register? {
      hide CheckedValue;
    } else {
      hide PipesAfter, Fresh, Enabled;
      OthersKeepPipes(y, st);
    }
  }

  lemma NumberedKept(y: System, st: Step)
    requires Numbered(y) && Enabled(y, st)
    ensures Numbered(Next(y, st))
  {
    hide After, SessionAfter, Aborts, Fresh, PipesAfter, HistoryAfter, Changed, Moves, Numbered,
      HandlesBelow, SessionHandlesBelow;
    var z := Next(y, st);
    NextMoves(y, st);
    SessionHandlesKept(y, st);
    TaskHandlesKept(y, st);
    PipesKept(y, st);
    PipesNumbered(y, st, z);
    HandlesKept(y, ChangeOf(y, st), z);
  }

  lemma PipesNumbered(y: System, st: Step, z: System)
    requires Numbered(y) && Enabled(y, st)
    requires z.pipes == PipesAfter(y, st)
    requires z.next == if Fresh(y, st).Some? then y.next + 1 else y.next
    ensures forall i :: i in z.pipes ==> i < z.next
  {
    hide SessionAfter, ChangeOf, HistoryAfter, PipesAfter, Fresh;
    PipesKept(y, st);
  }
}
