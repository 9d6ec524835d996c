/**
  Coarser granularities. A move is one lock-section step, or one of four groups of steps taken
  without interruption; `Restrictions` says which groups must not be interrupted. Every
  restricted run is a run of lock steps (level L1), so the L1 theorems hold of it.
*/
module SessionMoves {
  import opened Wrappers
  import opened Sessions
  import opened Protocol
  import opened TaskFrames
  import opened StepEffects

  /** What is never interrupted: the two sections of a manual start; a supervisor's clear and
      decision; the two sections of `schedule_retry`; the EIP opener's check, launch and mark;
      `retry`, a retry's second check and the section that stores its options. And `captcha`:
      a captcha file is noticed only while its child holds the slot. */
  datatype Restrictions =
    Restrictions(start: bool, exit: bool, schedule: bool, captcha: bool, eip: bool, retry: bool)
  {
    predicate Implies(r: Restrictions) {
      && (r.start ==> start) && (r.exit ==> exit) && (r.schedule ==> schedule)
      && (r.captcha ==> captcha) && (r.eip ==> eip) && (r.retry ==> retry)
    }
  }

  const NONE := Restrictions(false, false, false, false, false, false)

  datatype Move =
    | StartSession(options: Options)
    | EndChild(i: TaskId)
    | Reschedule(i: TaskId)
    | OpenBrowser(i: TaskId, launched: bool)
    | GoAhead(i: TaskId)
    | Single(st: Step)

  /** The steps that are taken only within their group. */
  predicate Grouped(r: Restrictions, st: Step) {
    || (r.start && (st.AcquireStart? || st.SetUpStart?))
    || (r.exit && (st.Exit? || st.Decide?))
    || (r.schedule && (st.BumpAttempt? || st.ArmTimer?))
    || (r.eip && (st.CheckEip? || st.OpenEip? || st.MarkEip?))
    || (r.retry && (st.RecheckRetry? || st.PrepareRetry?))
  }

  ghost predicate Respects(r: Restrictions, y: System, m: Move) {
    match m
    case StartSession(_) => r.start
    case EndChild(_) => r.exit
    case Reschedule(_) => r.schedule
    case OpenBrowser(_, _) => r.eip
    case GoAhead(_) => r.retry
    case Single(st) =>
      !Grouped(r, st) && (r.captcha && st.RaiseCaptcha? ==> Supervised(y, st.i))
  }

  function FirstStep(m: Move): Step {
    match m
    case StartSession(options) => AcquireStart(options)
    case EndChild(i) => Exit(i)
    case Reschedule(i) => BumpAttempt(i)
    case OpenBrowser(i, _) => CheckEip(i)
    case GoAhead(i) => RecheckRetry(i)
    case Single(st) => st
  }

  ghost predicate Feasible(y: System, m: Move) {
    Enabled(y, FirstStep(m))
  }

  ghost function Expansion(y: System, m: Move): seq<Step>
    requires Feasible(y, m)
  {
    match m
    case StartSession(options) => [AcquireStart(options), SetUpStart(y.next)]
    case EndChild(i) => [Exit(i), Decide(i)]
    case Reschedule(i) => [BumpAttempt(i), ArmTimer(i)]
    case OpenBrowser(i, launched) =>
      if !EipValid(y.s, y.tasks[i].gen) then [CheckEip(i)]
      else if launched then [CheckEip(i), OpenEip(i, true), MarkEip(i)]
      else [CheckEip(i), OpenEip(i, false)]
    case GoAhead(i) =>
      if RetryValid(y.s, y.tasks[i].gen) then [RecheckRetry(i), PrepareRetry(i)]
      else [RecheckRetry(i)]
    case Single(st) => [st]
  }

  ghost predicate MovesTo(y: System, m: Move, z: System) {
    Feasible(y, m) && Run(y, Expansion(y, m), z)
  }

  ghost predicate RestrictedRun(r: Restrictions, y: System, moves: seq<Move>, z: System)
    decreases |moves|
  {
    if moves == [] then z == y
    else exists x ::
      Respects(r, y, moves[0]) && MovesTo(y, moves[0], x) && RestrictedRun(r, x, moves[1..], z)
  }

  ghost predicate ReachableUnder(r: Restrictions, y: System) {
    exists moves :: RestrictedRun(r, INITIAL, moves, y)
  }

  lemma {:induction false} RestrictedRunIsRun(r: Restrictions, y: System, moves: seq<Move>, z: System)
    requires RestrictedRun(r, y, moves, z)
    ensures exists steps :: Run(y, steps, z)
    decreases |moves|
  {
    hide Feasible, Run, Expansion, Respects;
    if moves == [] {
      NoSteps(y);
      assert Run(y, [], z);
    } else {
      var x :| Respects(r, y, moves[0]) && MovesTo(y, moves[0], x) && RestrictedRun(r, x, moves[1..], z);
      RestrictedRunIsRun(r, x, moves[1..], z);
      var steps :| Run(x, steps, z);
      RunsCompose(y, Expansion(y, moves[0]), x, steps, z);
    }
  }

  lemma NoSteps(y: System)
    ensures Run(y, [], y)
  {
  }

  /* ---- Fewer restrictions allow more ---- */

  /** The steps of a group, taken one by one. */
  lemma {:induction false} Ungrouped(r: Restrictions, y: System, steps: seq<Step>, x: System,
                                     moves: seq<Move>, z: System)
    requires Run(y, steps, x) && RestrictedRun(r, x, moves, z)
    requires forall st <- steps :: !Grouped(r, st) && !(r.captcha && st.RaiseCaptcha?)
    ensures exists more :: RestrictedRun(r, y, more, z)
    decreases |steps|
  {
    hide Enabled, Next, Grouped;
    if steps != [] {
      var st, w := steps[0], Next(y, steps[0]);
      assert st in steps && forall rest <- steps[1..] :: rest in steps;
      Ungrouped(r, w, steps[1..], x, moves, z);
      var more :| RestrictedRun(r, w, more, z);
      Prepend(r, y, Single(st), w, more, z) by { RunsOne(y, st); }
    }
  }

  lemma RunsOne(y: System, st: Step)
    requires Enabled(y, st)
    ensures MovesTo(y, Single(st), Next(y, st))
  {
    hide Enabled, Next;
    var z := Next(y, st);
    assert [st][1..] == [] && Run(z, [], z);
    assert Run(y, [st], z);
  }

  lemma Prepend(r: Restrictions, y: System, m: Move, x: System, moves: seq<Move>, z: System)
    requires Respects(r, y, m) && MovesTo(y, m, x) && RestrictedRun(r, x, moves, z)
    ensures exists more :: RestrictedRun(r, y, more, z)
  {
    hide Respects, MovesTo;
    var more := [m] + moves;
    assert more[0] == m && more[1..] == moves;
    assert RestrictedRun(r, y, more, z);
  }

  lemma {:induction false} Loosened(r: Restrictions, less: Restrictions, y: System,
                                    moves: seq<Move>, z: System)
    requires r.Implies(less) && RestrictedRun(r, y, moves, z)
    ensures exists more :: RestrictedRun(less, y, more, z)
    decreases |moves|
  {
    hide Run, Expansion, Feasible, Respects;
    if moves == [] {
      assert RestrictedRun(less, y, [], z);
    } else {
      var m := moves[0];
      var x :| Respects(r, y, m) && MovesTo(y, m, x) && RestrictedRun(r, x, moves[1..], z);
      Loosened(r, less, x, moves[1..], z);
      var more :| RestrictedRun(less, x, more, z);
      if Respects(less, y, m) {
        Prepend(less, y, m, x, more, z);
      } else {
        GroupIsLoose(r, less, y, m);
        Ungrouped(less, y, Expansion(y, m), x, more, z);
      }
    }
  }

  lemma GroupIsLoose(r: Restrictions, less: Restrictions, y: System, m: Move)
    requires r.Implies(less) && Feasible(y, m) && Respects(r, y, m) && !Respects(less, y, m)
    ensures forall st <- Expansion(y, m) :: !Grouped(less, st) && !st.RaiseCaptcha?
  {
    hide Enabled, EipValid, RetryValid, Supervised;
  }

  lemma ReachableUnderLess(r: Restrictions, less: Restrictions, y: System)
    requires r.Implies(less) && ReachableUnder(r, y)
    ensures ReachableUnder(less, y)
  {
    hide RestrictedRun;
    var moves :| RestrictedRun(r, INITIAL, moves, y);
    Loosened(r, less, INITIAL, moves, y);
  }

  lemma {:induction false} Appended(r: Restrictions, y: System, moves: seq<Move>, z: System,
                                    m: Move, w: System)
    requires RestrictedRun(r, y, moves, z) && Respects(r, z, m) && MovesTo(z, m, w)
    ensures exists more :: RestrictedRun(r, y, more, w)
    decreases |moves|
  {
    hide Respects, MovesTo;
    if moves == [] {
      assert RestrictedRun(r, w, [], w);
      Prepend(r, y, m, w, [], w);
    } else {
      var x :| Respects(r, y, moves[0]) && MovesTo(y, moves[0], x) && RestrictedRun(r, x, moves[1..], z);
      Appended(r, x, moves[1..], z, m, w);
      var more :| RestrictedRun(r, x, more, w);
      Prepend(r, y, moves[0], x, more, w);
    }
  }

  lemma ReachableNextMove(r: Restrictions, y: System, m: Move, z: System)
    requires ReachableUnder(r, y) && Respects(r, y, m) && MovesTo(y, m, z)
    ensures ReachableUnder(r, z)
  {
    hide RestrictedRun, Respects, MovesTo;
    var moves :| RestrictedRun(r, INITIAL, moves, y);
    Appended(r, INITIAL, moves, y, m, z);
  }

  /* ---- What a move does as a whole ---- */

  ghost function MoveSession(y: System, m: Move): Session
    requires Feasible(y, m)
  {
    match m
    case StartSession(options) => SetUp(Acquired(y.s), options)
    case EndChild(i) => Decided(Cleared(y.s), y.tasks[i].gen)
    case Reschedule(_) => Bumped(y.s).(retryHandle := Some(y.next))
    case OpenBrowser(i, launched) =>
      if launched && EipValid(y.s, y.tasks[i].gen) then y.s.(eipOpened := true) else y.s
    case GoAhead(i) =>
      if RetryValid(y.s, y.tasks[i].gen) then y.s.(eipOptions := y.tasks[i].options) else y.s
    case Single(st) => SessionAfter(y, st)
  }

  ghost function MoveChange(y: System, m: Move): Change
    requires Feasible(y, m)
  {
    match m
    case StartSession(_) =>
      Change(None, None, Some(Spawning(y.s.generation + 1, FromStart)),
             AbortedBy(y.s.retryHandle) + AbortedBy(y.s.delayedEip))
    case EndChild(i) =>
      var action := ExitDecision(Cleared(y.s), y.tasks[i].gen);
      Change(Some(i), OnlyIf(action.ScheduleRetry?, Scheduling), None,
             if action.Ignore? then {} else AbortedBy(y.s.delayedEip))
    case Reschedule(i) =>
      Change(Some(i), None, Some(TimerSleeping(y.s.generation)), AbortedBy(y.s.retryHandle))
    case OpenBrowser(i, _) => Change(Some(i), None, None, {})
    case GoAhead(i) =>
      Change(Some(i), OnlyIf(RetryValid(y.s, y.tasks[i].gen), Spawning(y.tasks[i].gen, FromRetry)),
             None, {})
    case Single(st) => ChangeOf(y, st)
  }

  ghost function MoveHistory(y: System, m: Move): History
    requires Feasible(y, m)
  {
    var h := y.h;
    match m
    case StartSession(options) => h.(opens := 0, attempts := [], options := options)
    case EndChild(i) => DecidedHistory(h, ExitDecision(Cleared(y.s), y.tasks[i].gen))
    case Reschedule(_) => h.(attempts := h.attempts + [Bumped(y.s).retryAttempt])
    case OpenBrowser(i, launched) =>
      if launched && EipValid(y.s, y.tasks[i].gen) then h.(opens := h.opens + 1) else h
    case GoAhead(_) => h
    case Single(st) => HistoryAfter(y, st)
  }

  ghost predicate Achieves(y: System, m: Move, z: System)
    requires Feasible(y, m)
  {
    && z.s == MoveSession(y, m)
    && z.h == MoveHistory(y, m)
    && Moves(y, MoveChange(y, m), z)
  }

  lemma RunOne(y: System, st: Step, z: System)
    requires Run(y, [st], z)
    ensures Enabled(y, st) && z == Next(y, st)
  {
    hide Enabled, Next;
  }

  lemma RunTwo(y: System, a: Step, b: Step, z: System)
    requires Run(y, [a, b], z)
    ensures Enabled(y, a) && Enabled(Next(y, a), b) && z == Next(Next(y, a), b)
  {
    hide Enabled, Next;
    assert [a, b][1..] == [b];
    RunOne(Next(y, a), b, z);
  }

  lemma RunThree(y: System, a: Step, b: Step, c: Step, z: System)
    requires Run(y, [a, b, c], z)
    ensures Enabled(y, a) && Enabled(Next(y, a), b) && Enabled(Next(Next(y, a), b), c)
    ensures z == Next(Next(Next(y, a), b), c)
  {
    hide Enabled, Next;
    assert [a, b, c][1..] == [b, c];
    RunTwo(Next(y, a), b, c, z);
  }

  /** Two changes by the same task make one. */
  lemma SameTaskTwice(y: System, b: Change, x: System, c: Change, z: System)
    requires Moves(y, b, x) && Moves(x, c, z)
    requires b.subject.Some? && b.after.Some? && c.subject == b.subject && c.spawned.None?
    requires b.subject.value < y.next && y.next !in c.aborts
    ensures Moves(y, Change(b.subject, c.after, b.spawned, b.aborts + c.aborts), z)
  {
  }

  /** A task that is spawned and then changed is spawned changed. */
  lemma SpawnedThenMoved(y: System, b: Change, x: System, c: Change, z: System)
    requires Moves(y, b, x) && Moves(x, c, z)
    requires b.spawned.Some? && b.subject.None? && c.subject == Some(y.next)
    requires c.spawned.None? && c.after.Some? && c.aborts == {}
    requires forall i :: i in y.tasks ==> i < y.next
    ensures Moves(y, Change(None, None, c.after, b.aborts), z)
  {
  }

  lemma StartAchieves(y: System, options: Options, z: System)
    requires Numbered(y) && MovesTo(y, StartSession(options), z)
    ensures Achieves(y, StartSession(options), z)
  {
    hide Enabled, SessionAfter, HistoryAfter, ChangeOf, Changed, PipesAfter, Run, Moves, SetUp;
    var a, b := AcquireStart(options), SetUpStart(y.next);
    RunTwo(y, a, b, z);
    StartIsFree(y, options);
    var x := Next(y, a);
    NumberedKept(y, a);
    NextMoves(y, a);
    NextMoves(x, b);
    AcquireDoes(y, options);
    SpawnedIsThere(y, ChangeOf(y, a), x);
    SetUpDoes(x, y.next, options);
    SpawnedThenMoved(y, ChangeOf(y, a), x, ChangeOf(x, b), z);
  }

  lemma StartIsFree(y: System, options: Options)
    requires Enabled(y, AcquireStart(options))
    ensures y.s.childPid.None?
  {
  }

  lemma SpawnedIsThere(y: System, c: Change, x: System)
    requires Moves(y, c, x) && c.spawned.Some?
    ensures y.next in x.tasks && x.tasks[y.next] == c.spawned.value
  {
  }

  lemma AfterIsThere(y: System, c: Change, x: System)
    requires Moves(y, c, x) && c.subject.Some? && c.after.Some?
    ensures c.subject.value in x.tasks && x.tasks[c.subject.value] == c.after.value
  {
  }

  lemma ExitIsJoined(y: System, i: TaskId)
    requires Enabled(y, Exit(i))
    ensures i in y.tasks && y.tasks[i].Supervising? && ReadersDone(y, i)
  {
    hide ReadersDone;
  }

  lemma HandlesAreOld(y: System)
    requires Numbered(y)
    ensures y.next !in AbortedBy(y.s.retryHandle) && y.next !in AbortedBy(y.s.delayedEip)
  {
  }

  lemma EndAchieves(y: System, i: TaskId, z: System)
    requires Numbered(y) && MovesTo(y, EndChild(i), z)
    ensures Achieves(y, EndChild(i), z)
  {
    hide Enabled, SessionAfter, HistoryAfter, ChangeOf, Changed, PipesAfter, Run, Moves, Decided,
      ExitDecision, ReadersDone, Numbered;
    HandlesAreOld(y);
    BelowNextId(y, i) by { ExitIsJoined(y, i); }
    RunTwo(y, Exit(i), Decide(i), z);
    ExitIsJoined(y, i);
    var t, x := y.tasks[i], Next(y, Exit(i));
    NumberedKept(y, Exit(i));
    NextMoves(y, Exit(i));
    NextMoves(x, Decide(i));
    ExitDoes(y, i, t.gen, t.pid);
    AfterIsThere(y, ChangeOf(y, Exit(i)), x);
    DecideDoes(x, i, t.gen);
    var c := ChangeOf(x, Decide(i));
    assert y.next !in c.aborts;
    SameTaskTwice(y, ChangeOf(y, Exit(i)), x, c, z);
    assert {} + c.aborts == c.aborts;
  }

  lemma SchedulerIsThere(y: System, i: TaskId)
    requires Enabled(y, BumpAttempt(i))
    ensures Is(y, i, Scheduling)
  {
  }

  /** The parts of the next state that a move is about. */
  lemma NextParts(y: System, st: Step)
    requires Numbered(y) && Enabled(y, st)
    ensures Next(y, st).s == SessionAfter(y, st) && Next(y, st).h == HistoryAfter(y, st)
    ensures Moves(y, ChangeOf(y, st), Next(y, st)) && Numbered(Next(y, st))
  {
    hide Enabled, SessionAfter, HistoryAfter, ChangeOf, Changed, PipesAfter, Moves, Numbered, Fresh;
    NextMoves(y, st);
    NumberedKept(y, st);
  }

  lemma RescheduleAchieves(y: System, i: TaskId, z: System)
    requires Numbered(y) && MovesTo(y, Reschedule(i), z)
    ensures Achieves(y, Reschedule(i), z)
  {
    hide Enabled, SessionAfter, HistoryAfter, ChangeOf, Next, Run, Moves, Numbered, Bumped;
    RunTwo(y, BumpAttempt(i), ArmTimer(i), z);
    SchedulerIsThere(y, i);
    HandlesAreOld(y);
    BelowNextId(y, i);
    var x := Next(y, BumpAttempt(i));
    NextParts(y, BumpAttempt(i));
    NextParts(x, ArmTimer(i));
    BumpDoes(y, i);
    BumpKeepsTimer(y.s);
    AfterIsThere(y, ChangeOf(y, BumpAttempt(i)), x);
    ArmTimerDoes(x, i, y.next);
    var c := ChangeOf(x, ArmTimer(i));
    SameTaskTwice(y, ChangeOf(y, BumpAttempt(i)), x, c, z);
    assert {} + c.aborts == c.aborts;
  }

  lemma BumpKeepsTimer(s: Session)
    ensures Bumped(s).retryHandle == s.retryHandle
  {
  }

  /** The check and the launch together. */
  lemma LaunchAchieves(y: System, i: TaskId, gen: nat, launched: bool)
    requires Numbered(y) && Is(y, i, EipSleeping(gen)) && EipValid(y.s, gen)
    requires Enabled(y, CheckEip(i)) && Enabled(Next(y, CheckEip(i)), OpenEip(i, launched))
    ensures var x := Next(Next(y, CheckEip(i)), OpenEip(i, launched));
      && x.s == y.s && x.h == (if launched then y.h.(opens := y.h.opens + 1) else y.h)
      && Moves(y, Change(Some(i), OnlyIf(launched, EipMarking(gen)), None, {}), x) && Numbered(x)
  {
    hide Enabled, SessionAfter, HistoryAfter, ChangeOf, Changed, PipesAfter, Run, Moves, Numbered;
    var w := Next(y, CheckEip(i));
    NumberedKept(y, CheckEip(i));
    NextMoves(y, CheckEip(i));
    CheckEipDoes(y, i, gen);
    AfterIsThere(y, ChangeOf(y, CheckEip(i)), w);
    OpenEipDoes(w, i, gen, launched);
    NumberedKept(w, OpenEip(i, launched));
    NextMoves(w, OpenEip(i, launched));
    BelowNextId(y, i);
    SameTaskTwice(y, ChangeOf(y, CheckEip(i)), w, ChangeOf(w, OpenEip(i, launched)),
                  Next(w, OpenEip(i, launched)));
    assert {} + ChangeOf(w, OpenEip(i, launched)).aborts == {};
  }

  lemma BelowNextId(y: System, i: TaskId)
    requires Numbered(y) && i in y.tasks
    ensures i < y.next
  {
  }

  lemma OpenAchieves(y: System, i: TaskId, launched: bool, z: System)
    requires Numbered(y) && MovesTo(y, OpenBrowser(i, launched), z)
    ensures Achieves(y, OpenBrowser(i, launched), z)
  {
    hide Enabled, SessionAfter, HistoryAfter, ChangeOf, Changed, PipesAfter, Run, Moves, Numbered,
      EipValid;
    SubjectIsThere(y, CheckEip(i));
    var gen := y.tasks[i].gen;
    if !EipValid(y.s, gen) {
      RunOne(y, CheckEip(i), z);
      CheckEipDoes(y, i, gen);
      NextMoves(y, CheckEip(i));
    } else if !launched {
      RunTwo(y, CheckEip(i), OpenEip(i, false), z);
      LaunchAchieves(y, i, gen, false);
    } else {
      RunThree(y, CheckEip(i), OpenEip(i, true), MarkEip(i), z);
      LaunchAchieves(y, i, gen, true);
      var x := Next(Next(y, CheckEip(i)), OpenEip(i, true));
      var b := Becoming(i, EipMarking(gen));
      AfterIsThere(y, b, x);
      MarkEipDoes(x, i, gen);
      NextMoves(x, MarkEip(i));
      BelowNextId(y, i);
      SameTaskTwice(y, b, x, ChangeOf(x, MarkEip(i)), z);
      assert b.aborts + ChangeOf(x, MarkEip(i)).aborts == {};
    }
  }

  lemma GoAheadAchieves(y: System, i: TaskId, z: System)
    requires Numbered(y) && MovesTo(y, GoAhead(i), z)
    ensures Achieves(y, GoAhead(i), z)
  {
    hide Enabled, SessionAfter, HistoryAfter, ChangeOf, Next, Run, Moves, Numbered, RetryValid;
    SubjectIsThere(y, RecheckRetry(i));
    var t := y.tasks[i];
    var x := Next(y, RecheckRetry(i));
    RecheckRetryDoes(y, i, t.gen, t.options);
    NextParts(y, RecheckRetry(i));
    if !RetryValid(y.s, t.gen) {
      RunOne(y, RecheckRetry(i), z);
    } else {
      RunTwo(y, RecheckRetry(i), PrepareRetry(i), z);
      AfterIsThere(y, ChangeOf(y, RecheckRetry(i)), x);
      PrepareDoes(x, i, t.gen, t.options);
      NextParts(x, PrepareRetry(i));
      BelowNextId(y, i);
      SameTaskTwice(y, ChangeOf(y, RecheckRetry(i)), x, ChangeOf(x, PrepareRetry(i)), z);
      assert {} + ChangeOf(x, PrepareRetry(i)).aborts == {};
    }
  }

  lemma SingleAchieves(y: System, st: Step, z: System)
    requires Numbered(y) && MovesTo(y, Single(st), z)
    ensures z == Next(y, st) && Achieves(y, Single(st), z)
  {
    hide Enabled, SessionAfter, HistoryAfter, ChangeOf, Changed, PipesAfter, Run, Moves, Numbered;
    RunOne(y, st, z);
    NextMoves(y, st);
  }

  /** Every move achieves its whole effect. */
  lemma MoveAchieves(y: System, m: Move, z: System)
    requires Numbered(y) && MovesTo(y, m, z)
    ensures Achieves(y, m, z)
  {
    hide MovesTo, Achieves, Numbered;
    match m
    case StartSession(options) => StartAchieves(y, options, z);
    case EndChild(i) => EndAchieves(y, i, z);
    case Reschedule(i) => RescheduleAchieves(y, i, z);
    case OpenBrowser(i, launched) => OpenAchieves(y, i, launched, z);
    case GoAhead(i) => GoAheadAchieves(y, i, z);
    case Single(st) => SingleAchieves(y, st, z);
  }
}
