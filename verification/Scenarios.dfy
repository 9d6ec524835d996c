/**
  Playing concrete runs: each move of a restricted run with the exact state that it leads to.
*/
module Scenarios {
  import opened Wrappers
  import opened Sessions
  import opened Protocol
  import opened StepEffects
  import opened SessionMoves

  function Rest(tasks: map<TaskId, Task>, c: Change): map<TaskId, Task> {
    if c.subject.Some? then tasks - {c.subject.value} else tasks
  }

  /** The change of the task map when its aborts hit nothing. */
  function Applied(tasks: map<TaskId, Task>, c: Change, next: TaskId): map<TaskId, Task> {
    var moved :=
      if c.subject.Some? && c.after.Some? then tasks[c.subject.value := c.after.value]
      else Rest(tasks, c);
    if c.spawned.Some? then moved[next := c.spawned.value] else moved
  }

  ghost predicate HitsNothing(tasks: map<TaskId, Task>, c: Change) {
    forall k <- c.aborts :: k in tasks && tasks[k].Abortable() ==> c.subject == Some(k)
  }

  lemma ChangedIsApplied(tasks: map<TaskId, Task>, c: Change, next: TaskId)
    requires HitsNothing(tasks, c)
    ensures Changed(tasks, c, next) == Applied(tasks, c, next)
  {
  }

  lemma ChangedAfterAbort(tasks: map<TaskId, Task>, c: Change, k: TaskId, next: TaskId)
    requires k in tasks && tasks[k].Abortable() && c.aborts == {k} && c.subject != Some(k)
    ensures Changed(tasks, c, next) == Applied(tasks - {k}, c, next)
  {
  }

  lemma Then(r: Restrictions, y: System, st: Step) returns (z: System)
    requires ReachableUnder(r, y) && Enabled(y, st) && Respects(r, y, Single(st))
    ensures ReachableUnder(r, z) && z.s == SessionAfter(y, st) && z.h == HistoryAfter(y, st)
    ensures HitsNothing(y.tasks, ChangeOf(y, st)) ==>
      z.tasks == Applied(y.tasks, ChangeOf(y, st), y.next)
    ensures z.next == if ChangeOf(y, st).spawned.Some? then y.next + 1 else y.next
  {
    hide Enabled, SessionAfter, HistoryAfter, PipesAfter, Changed, After, Aborts, Fresh,
      ReachableUnder, Respects, Applied, HitsNothing;
    z := Next(y, st);
    RunsOne(y, st);
    ReachableNextMove(r, y, Single(st), z);
    if HitsNothing(y.tasks, ChangeOf(y, st)) {
      ChangedIsApplied(y.tasks, ChangeOf(y, st), y.next);
    }
  }

  lemma ThenAborting(r: Restrictions, y: System, st: Step, k: TaskId) returns (z: System)
    requires ReachableUnder(r, y) && Enabled(y, st) && Respects(r, y, Single(st))
    requires k in y.tasks && y.tasks[k].Abortable()
    requires ChangeOf(y, st).aborts == {k} && ChangeOf(y, st).subject != Some(k)
    ensures ReachableUnder(r, z) && z.s == SessionAfter(y, st) && z.h == HistoryAfter(y, st)
    ensures z.tasks == Applied(y.tasks - {k}, ChangeOf(y, st), y.next)
    ensures z.next == if ChangeOf(y, st).spawned.Some? then y.next + 1 else y.next
  {
    hide Enabled, SessionAfter, HistoryAfter, PipesAfter, Changed, After, Aborts, Fresh,
      ReachableUnder, Respects, Applied;
    z := Next(y, st);
    RunsOne(y, st);
    ReachableNextMove(r, y, Single(st), z);
    ChangedAfterAbort(y.tasks, ChangeOf(y, st), k, y.next);
  }

  /* ---- Groups of steps, in one move or one by one ---- */

  lemma RunsTwo(y: System, a: Step, b: Step)
    requires Enabled(y, a) && Enabled(Next(y, a), b)
    ensures Run(y, [a, b], Next(Next(y, a), b))
  {
    hide Enabled, Next;
    var x, z := Next(y, a), Next(Next(y, a), b);
    RunsOne(x, b);
    assert [a, b][1..] == [b];
  }

  predicate HandleIsSpent(y: System, h: Option<TaskId>) {
    h.Some? && h.value in y.tasks ==> !y.tasks[h.value].Abortable()
  }

  lemma Begins(r: Restrictions) returns (z: System)
    ensures ReachableUnder(r, z) && z == INITIAL
  {
    z := INITIAL;
    assert RestrictedRun(r, z, [], z);
  }

  lemma Starts(r: Restrictions, y: System, options: Options) returns (z: System)
    requires ReachableUnder(r, y) && y.s.childPid.None?
    requires HandleIsSpent(y, y.s.retryHandle) && HandleIsSpent(y, y.s.delayedEip)
    requires y.next !in y.tasks
    ensures ReachableUnder(r, z) && z.s == SetUp(Acquired(y.s), options)
    ensures z.h == y.h.(opens := 0, attempts := [], options := options)
    ensures z.tasks == y.tasks[y.next := Spawning(y.s.generation + 1, FromStart)]
    ensures z.next == y.next + 1
  {
    hide Enabled, SessionAfter, HistoryAfter, ChangeOf, Changed, PipesAfter, ReachableUnder, Fresh,
      SetUp;
    var a, b := AcquireStart(options), SetUpStart(y.next);
    AcquireDoes(y, options);
    var x := Next(y, a);
    ChangedIsApplied(y.tasks, ChangeOf(y, a), y.next);
    SpawnedNext(y, a);
    SetUpDoes(x, y.next, options);
    z := Next(x, b);
    ChangedIsApplied(x.tasks, ChangeOf(x, b), x.next);
    SpawnedNext(x, b);
    if r.start {
      RunsTwo(y, a, b);
      ReachableNextMove(r, y, StartSession(options), z);
    } else {
      ReachableNextTwo(r, y, a, b);
    }
  }

  lemma ReachableNextTwo(r: Restrictions, y: System, a: Step, b: Step)
    requires ReachableUnder(r, y) && Enabled(y, a) && Enabled(Next(y, a), b)
    requires !Grouped(r, a) && !Grouped(r, b) && !a.RaiseCaptcha? && !b.RaiseCaptcha?
    ensures ReachableUnder(r, Next(Next(y, a), b))
  {
    hide Enabled, Next, ReachableUnder, Grouped;
    RunsOne(y, a);
    ReachableNextMove(r, y, Single(a), Next(y, a));
    RunsOne(Next(y, a), b);
    ReachableNextMove(r, Next(y, a), Single(b), Next(Next(y, a), b));
  }

  lemma SpawnedNext(y: System, st: Step)
    requires Enabled(y, st)
    ensures Next(y, st).next == if ChangeOf(y, st).spawned.Some? then y.next + 1 else y.next
  {
    hide Enabled, SessionAfter, HistoryAfter, Changed, PipesAfter, Fresh, After, Aborts;
  }

  lemma Ends(r: Restrictions, y: System, i: TaskId, gen: nat, pid: nat) returns (z: System)
    requires ReachableUnder(r, y) && Is(y, i, Supervising(gen, pid)) && ReadersDone(y, i)
    requires HandleIsSpent(y, y.s.delayedEip)
    ensures var action := ExitDecision(Cleared(y.s), gen);
      && ReachableUnder(r, z) && z.s == Decided(Cleared(y.s), gen)
      && z.h == DecidedHistory(y.h, action)
      && z.tasks == (if action.ScheduleRetry? then y.tasks[i := Scheduling] else y.tasks - {i})
      && z.next == y.next
  {
    hide Enabled, SessionAfter, HistoryAfter, ChangeOf, Changed, PipesAfter, ReachableUnder, Fresh,
      Decided, ExitDecision, DecidedHistory;
    ExitDoes(y, i, gen, pid);
    var x := Next(y, Exit(i));
    ChangedIsApplied(y.tasks, ChangeOf(y, Exit(i)), y.next);
    SpawnedNext(y, Exit(i));
    DecideDoes(x, i, gen);
    z := Next(x, Decide(i));
    ChangedIsApplied(x.tasks, ChangeOf(x, Decide(i)), x.next);
    SpawnedNext(x, Decide(i));
    assert x.tasks - {i} == y.tasks - {i};
    if r.exit {
      RunsTwo(y, Exit(i), Decide(i));
      ReachableNextMove(r, y, EndChild(i), z);
    } else {
      ReachableNextTwo(r, y, Exit(i), Decide(i));
    }
  }

  lemma Reschedules(r: Restrictions, y: System, i: TaskId) returns (z: System)
    requires ReachableUnder(r, y) && Is(y, i, Scheduling) && y.next !in y.tasks
    requires HandleIsSpent(y, y.s.retryHandle) && y.s.retryHandle != Some(y.next)
    ensures ReachableUnder(r, z) && z.s == Bumped(y.s).(retryHandle := Some(y.next))
    ensures z.h == y.h.(attempts := y.h.attempts + [Bumped(y.s).retryAttempt])
    ensures z.tasks == (y.tasks - {i})[y.next := TimerSleeping(y.s.generation)]
    ensures z.next == y.next + 1
  {
    hide Enabled, SessionAfter, HistoryAfter, ChangeOf, Changed, PipesAfter, ReachableUnder, Fresh,
      Saturated;
    BumpDoes(y, i);
    var x := Next(y, BumpAttempt(i));
    ChangedIsApplied(y.tasks, ChangeOf(y, BumpAttempt(i)), y.next);
    SpawnedNext(y, BumpAttempt(i));
    ArmTimerDoes(x, i, y.next);
    z := Next(x, ArmTimer(i));
    ChangedIsApplied(x.tasks, ChangeOf(x, ArmTimer(i)), x.next);
    SpawnedNext(x, ArmTimer(i));
    if r.schedule {
      RunsTwo(y, BumpAttempt(i), ArmTimer(i));
      ReachableNextMove(r, y, Reschedule(i), z);
    } else {
      ReachableNextTwo(r, y, BumpAttempt(i), ArmTimer(i));
    }
  }

  lemma Opens(r: Restrictions, y: System, i: TaskId, gen: nat) returns (z: System)
    requires r.eip && ReachableUnder(r, y) && Is(y, i, EipSleeping(gen)) && EipValid(y.s, gen)
    ensures ReachableUnder(r, z) && z.s == y.s.(eipOpened := true)
    ensures z.h == y.h.(opens := y.h.opens + 1)
    ensures z.tasks == y.tasks - {i} && z.next == y.next
  {
    hide Enabled, SessionAfter, HistoryAfter, ChangeOf, Changed, PipesAfter, ReachableUnder, Fresh,
      EipValid;
    CheckEipDoes(y, i, gen);
    var x := Next(y, CheckEip(i));
    ChangedIsApplied(y.tasks, ChangeOf(y, CheckEip(i)), y.next);
    SpawnedNext(y, CheckEip(i));
    OpenEipDoes(x, i, gen, true);
    var w := Next(x, OpenEip(i, true));
    ChangedIsApplied(x.tasks, ChangeOf(x, OpenEip(i, true)), x.next);
    SpawnedNext(x, OpenEip(i, true));
    MarkEipDoes(w, i, gen);
    z := Next(w, MarkEip(i));
    ChangedIsApplied(w.tasks, ChangeOf(w, MarkEip(i)), w.next);
    SpawnedNext(w, MarkEip(i));
    RunsThree(y, CheckEip(i), OpenEip(i, true), MarkEip(i));
    ReachableNextMove(r, y, OpenBrowser(i, true), z);
  }

  /** A retry that is still valid goes ahead, in one move or in two. */
  lemma GoesAhead(r: Restrictions, y: System, i: TaskId, gen: nat, options: Options)
    returns (z: System)
    requires ReachableUnder(r, y) && Is(y, i, RetryChecked(gen, options)) && RetryValid(y.s, gen)
    ensures ReachableUnder(r, z) && z.s == y.s.(eipOptions := options) && z.h == y.h
    ensures z.tasks == y.tasks[i := Spawning(gen, FromRetry)] && z.next == y.next
  {
    hide Enabled, SessionAfter, HistoryAfter, ChangeOf, Changed, PipesAfter, ReachableUnder, Fresh,
      RetryValid, SetUp;
    RecheckRetryDoes(y, i, gen, options);
    var x := Next(y, RecheckRetry(i));
    ChangedIsApplied(y.tasks, ChangeOf(y, RecheckRetry(i)), y.next);
    SpawnedNext(y, RecheckRetry(i));
    PrepareDoes(x, i, gen, options);
    z := Next(x, PrepareRetry(i));
    ChangedIsApplied(x.tasks, ChangeOf(x, PrepareRetry(i)), x.next);
    SpawnedNext(x, PrepareRetry(i));
    if r.retry {
      RunsTwo(y, RecheckRetry(i), PrepareRetry(i));
      ReachableNextMove(r, y, GoAhead(i), z);
    } else {
      ReachableNextTwo(r, y, RecheckRetry(i), PrepareRetry(i));
    }
  }

  lemma RunsThree(y: System, a: Step, b: Step, c: Step)
    requires Enabled(y, a) && Enabled(Next(y, a), b) && Enabled(Next(Next(y, a), b), c)
    ensures Run(y, [a, b, c], Next(Next(Next(y, a), b), c))
  {
    hide Enabled, Next;
    RunsTwo(Next(y, a), b, c);
    assert [a, b, c][1..] == [b, c];
  }
}
