/**
  What the handles can still abort, under every interleaving (level L1): each refers to its own
  kind of task, and those that a stop has taken to tasks of earlier generations.
*/
module HandleInvariants {
  import opened Wrappers
  import opened Sessions
  import opened Protocol
  import opened TaskFrames
  import opened LockInvariants

  datatype Kind = Timer | Poller | Opener

  /** The kind of a task that an abort would end now. */
  function Suspended(t: Task): Option<Kind> {
    match t
    case TimerSleeping(_) => Some(Timer)
    case Polling(_, _) => Some(Poller)
    case EipSleeping(_) => Some(Opener)
    case _ => None
  }

  /** The task behind `h`, if it can still be aborted. */
  predicate Hits(y: System, h: Option<TaskId>) {
    h.Some? && h.value in y.tasks && Suspended(y.tasks[h.value]).Some?
  }

  predicate Aims(y: System, h: Option<TaskId>, kind: Kind) {
    Hits(y, h) ==> Suspended(y.tasks[h.value]) == Some(kind)
  }

  predicate Outdated(t: Task, gen: nat) {
    t.Token().Some? && t.Token().value < gen
  }

  predicate AimsBack(y: System, h: Option<TaskId>, kind: Kind) {
    Aims(y, h, kind) && (Hits(y, h) ==> Outdated(y.tasks[h.value], y.s.generation))
  }

  predicate TaskAimed(y: System, t: Task) {
    match t
    case TimerArming(h) => Aims(y, Some(h), Timer)
    case PollerArming(_, _, h) => Aims(y, Some(h), Poller)
    case EipArming(h, _) => Aims(y, Some(h), Opener)
    case Stopping(_, r, p, d) => AimsBack(y, r, Timer) && AimsBack(y, p, Poller) && AimsBack(y, d, Opener)
    case _ => true
  }

  predicate SessionAimed(y: System, s: Session) {
    && Aims(y, s.retryHandle, Timer) && Aims(y, s.readinessHandle, Poller)
    && Aims(y, s.delayedEip, Opener)
  }

  ghost predicate Aimed(y: System) {
    SessionAimed(y, y.s) && forall i :: i in y.tasks ==> TaskAimed(y, y.tasks[i])
  }

  /* ---- Handles keep their aim ---- */

  /** A task becomes abortable when it is spawned, and keeps its kind and token from then on. */
  lemma AfterSuspended(y: System, st: Step)
    requires Enabled(y, st) && Subject(st).Some?
    ensures var t := y.tasks[Subject(st).value];
      var after := After(y, t, st);
      after.Some? && Suspended(after.value).Some? ==>
        Suspended(t) == Suspended(after.value) && t.Token() == after.value.Token()
  {
    hide SpawnGuardViolated, MayMarkReady, EipValid, RetryValid, ContinuesWait, ExitDecision;
  }

  lemma HitsBefore(y: System, st: Step, h: Option<TaskId>)
    requires Numbered(y) && Enabled(y, st) && Below(h, y.next) && Hits(Next(y, st), h)
    ensures Hits(y, h)
    ensures Suspended(Next(y, st).tasks[h.value]) == Suspended(y.tasks[h.value])
    ensures Next(y, st).tasks[h.value].Token() == y.tasks[h.value].Token()
  {
    hide Numbered, Enabled, After, Fresh, Aborts, Changed, SessionAfter, PipesAfter, HistoryAfter,
      Suspended;
    NextMoves(y, st);
    if Subject(st) == h {
      SubjectIsThere(y, st);
      AfterSuspended(y, st);
    }
  }

  lemma AimKept(y: System, st: Step, h: Option<TaskId>, kind: Kind)
    requires Numbered(y) && Enabled(y, st) && Below(h, y.next)
    ensures Aims(y, h, kind) ==> Aims(Next(y, st), h, kind)
    ensures AimsBack(y, h, kind) ==> AimsBack(Next(y, st), h, kind)
  {
    hide Numbered, Enabled, Next, Hits;
    if Hits(Next(y, st), h) {
      HitsBefore(y, st, h);
      NextGeneration(y, st);
    }
  }

  lemma NextGeneration(y: System, st: Step)
    requires Enabled(y, st)
    ensures y.s.generation <= Next(y, st).s.generation
  {
    hide Enabled, SessionAfter, ChangeOf, Changed, Fresh, PipesAfter, HistoryAfter;
    GenerationGrows(y, st);
  }

  lemma TaskAimKept(y: System, st: Step, t: Task)
    requires Numbered(y) && Enabled(y, st) && TaskAimed(y, t) && HandlesBelow(t, y.next)
    ensures TaskAimed(Next(y, st), t)
  {
    hide Numbered, Enabled, Next, Aims, AimsBack;
    match t
    case TimerArming(h) => AimKept(y, st, Some(h), Timer);
    case PollerArming(_, _, h) => AimKept(y, st, Some(h), Poller);
    case EipArming(h, _) => AimKept(y, st, Some(h), Opener);
    case Stopping(_, r, p, d) =>
      AimKept(y, st, r, Timer);
      AimKept(y, st, p, Poller);
      AimKept(y, st, d, Opener);
    case _ =>
  }

  /* ---- New holders of handles ---- */

  predicate HoldsHandle(t: Task) {
    t.TimerArming? || t.PollerArming? || t.EipArming? || t.Stopping?
  }

  predicate MakesHolder(st: Step) {
    st.BumpAttempt? || st.SpawnPoller? || st.SpawnOpener? || st.Stop? || st.AbortStopped?
  }

  lemma OthersMakeNoHolder(y: System, st: Step)
    requires Enabled(y, st) && !MakesHolder(st)
    ensures var c := ChangeOf(y, st);
      && (c.after.Some? ==> !HoldsHandle(c.after.value))
      && (c.spawned.Some? ==> !HoldsHandle(c.spawned.value))
  {
    hide SessionAfter, Aborts, SpawnGuardViolated, MayMarkReady, EipValid, RetryValid,
      ContinuesWait, ExitDecision;
  }

  /** A task that has just been spawned is of the kind that its spawner takes it for. */
  lemma SpawnerAims(y: System, st: Step, t: Task, h: TaskId, u: Task, kind: Kind)
    requires Enabled(y, st) && Moves(y, Change(Subject(st), Some(t), Some(u), {}), Next(y, st))
    requires h == y.next && Suspended(u) == Some(kind)
    ensures Aims(Next(y, st), Some(h), kind)
  {
    hide Enabled, Next, Subject;
  }

  lemma SpawnersAim(y: System, st: Step)
    requires Numbered(y) && Enabled(y, st)
    requires st.BumpAttempt? || st.SpawnPoller? || st.SpawnOpener?
    ensures var c := ChangeOf(y, st);
      && c.after.Some? && TaskAimed(Next(y, st), c.after.value)
      && c.spawned.Some? && TaskAimed(Next(y, st), c.spawned.value)
  {
    hide Numbered, Enabled, Next, ChangeOf, Moves, Aims, Suspended;
    NextMoves(y, st);
    SubjectIsThere(y, st);
    SpawnsOfKind(y, st);
    var c := ChangeOf(y, st);
    var kind := if st.BumpAttempt? then Timer else if st.SpawnPoller? then Poller else Opener;
    SpawnerAims(y, st, c.after.value, y.next, c.spawned.value, kind);
  }

  lemma SpawnsOfKind(y: System, st: Step)
    requires Enabled(y, st) && (st.BumpAttempt? || st.SpawnPoller? || st.SpawnOpener?)
    ensures var c := ChangeOf(y, st);
      && c.subject == Subject(st) && c.aborts == {} && c.after.Some? && c.spawned.Some?
      && !HoldsHandle(c.spawned.value)
      && (st.BumpAttempt? ==>
            c.after.value == TimerArming(y.next) && Suspended(c.spawned.value) == Some(Timer))
      && (st.SpawnPoller? ==>
            && c.after.value.PollerArming? && c.after.value.poller == y.next
            && Suspended(c.spawned.value) == Some(Poller))
      && (st.SpawnOpener? ==>
            && c.after.value.EipArming? && c.after.value.opener == y.next
            && Suspended(c.spawned.value) == Some(Opener))
  {
  }

  lemma StopOutdates(y: System, h: Option<TaskId>, kind: Kind)
    requires Numbered(y) && TokensBounded(y) && Aims(y, h, kind) && Below(h, y.next)
    requires Enabled(y, Stop)
    ensures AimsBack(Next(y, Stop), h, kind)
  {
    hide Numbered, Enabled, Next, Hits;
    AimKept(y, Stop, h, kind);
    StopStep(y);
    if Hits(Next(y, Stop), h) {
      HitsBefore(y, Stop, h);
      SuspendedHoldsToken(y, h);
    }
  }

  lemma SuspendedHoldsToken(y: System, h: Option<TaskId>)
    requires Hits(y, h) && TokensBounded(y)
    ensures y.tasks[h.value].Token().Some? && y.tasks[h.value].Token().value <= y.s.generation
  {
    assert TokenAtMost(y.tasks[h.value], y.s.generation);
  }

  lemma StopAims(y: System)
    requires Numbered(y) && TokensBounded(y) && Aimed(y) && Enabled(y, Stop)
    ensures var c := ChangeOf(y, Stop);
      c.after.None? && c.spawned.Some? && TaskAimed(Next(y, Stop), c.spawned.value)
  {
    StopStep(y);
    hide Next, ChangeOf, Enabled, TokensBounded, Aims, AimsBack;
    StopOutdates(y, y.s.retryHandle, Timer);
    StopOutdates(y, y.s.readinessHandle, Poller);
    StopOutdates(y, y.s.delayedEip, Opener);
  }

  lemma AbortAims(y: System, i: TaskId)
    requires Numbered(y) && Aimed(y) && Enabled(y, AbortStopped(i))
    ensures var c := ChangeOf(y, AbortStopped(i));
      && (c.after.Some? ==> TaskAimed(Next(y, AbortStopped(i)), c.after.value))
      && c.spawned.None?
  {
    hide Aims, Next, Aborts;
    assert TaskAimed(y, y.tasks[i]) && HandlesBelow(y.tasks[i], y.next);
    TaskAimKept(y, AbortStopped(i), y.tasks[i]);
    NoAim(Next(y, AbortStopped(i)));
  }

  lemma NoAim(y: System)
    ensures forall kind: Kind :: AimsBack(y, None, kind)
  {
  }

  lemma HoldersAim(y: System, st: Step)
    requires Numbered(y) && TokensBounded(y) && Aimed(y) && Enabled(y, st)
    ensures var c := ChangeOf(y, st);
      && (c.after.Some? ==> TaskAimed(Next(y, st), c.after.value))
      && (c.spawned.Some? ==> TaskAimed(Next(y, st), c.spawned.value))
  {
    hide Numbered, TokensBounded, Aimed, Enabled, Next, ChangeOf, Aims, AimsBack;
    match st
    case Stop => StopAims(y);
    case AbortStopped(i) => AbortAims(y, i);
    case BumpAttempt(_) => SpawnersAim(y, st);
    case SpawnPoller(_) => SpawnersAim(y, st);
    case SpawnOpener(_) => SpawnersAim(y, st);
    case _ => OthersMakeNoHolder(y, st);
  }

  /* ---- The handles in the session ---- */

  predicate ArmSteps(st: Step) {
    st.ArmTimer? || st.ArmPoller? || st.ArmOpener?
  }

  lemma OthersSetNoHandle(y: System, st: Step)
    requires Enabled(y, st) && !ArmSteps(st)
    ensures var s := SessionAfter(y, st);
      && SameOrNone(s.retryHandle, y.s.retryHandle) && SameOrNone(s.delayedEip, y.s.delayedEip)
      && SameOrNone(s.readinessHandle, y.s.readinessHandle)
  {
    hide SessionAfter, Enabled;
    OthersSetNoTimer(y, st);
    OthersSetNoPoller(y, st);
    OthersSetNoOpener(y, st);
  }

  /** A handle is stored by the task that holds it. */
  lemma ArmsItsOwn(y: System, st: Step)
    requires Aimed(y) && Numbered(y) && Enabled(y, st) && ArmSteps(st)
    ensures SessionAimed(y, SessionAfter(y, st))
    ensures SessionHandlesBelow(SessionAfter(y, st), y.next)
  {
    var i := Subject(st).value;
    assert TaskAimed(y, y.tasks[i]) && HandlesBelow(y.tasks[i], y.next);
    hide Aims;
  }

  lemma SessionStaysAimed(y: System, st: Step)
    requires Aimed(y) && Numbered(y) && Enabled(y, st)
    ensures SessionAimed(y, SessionAfter(y, st))
    ensures var s := SessionAfter(y, st);
      Below(s.retryHandle, y.next) && Below(s.delayedEip, y.next) && Below(s.readinessHandle, y.next)
  {
    if ArmSteps(st) {
      ArmsItsOwn(y, st);
      hide SessionAfter;
    } else {
      hide SessionAfter, Enabled;
      OthersSetNoHandle(y, st);
    }
  }

  lemma AimedKept(y: System, st: Step)
    requires Numbered(y) && TokensBounded(y) && Aimed(y) && Enabled(y, st)
    ensures Aimed(Next(y, st))
  {
    hide SessionAfter, After, Fresh, Aborts, Changed, PipesAfter, HistoryAfter, Numbered,
      TokensBounded, Enabled, Aims, AimsBack, TaskAimed, HandlesBelow;
    var s, z := SessionAfter(y, st), Next(y, st);
    NextMoves(y, st);
    HoldersAim(y, st);
    SessionStaysAimed(y, st);
    AimKept(y, st, s.retryHandle, Timer);
    AimKept(y, st, s.readinessHandle, Poller);
    AimKept(y, st, s.delayedEip, Opener);
    forall k | k in z.tasks ensures TaskAimed(z, z.tasks[k]) {
      if k in y.tasks && z.tasks[k] == y.tasks[k] {
        HandlesOf(y, k);
        TaskAimKept(y, st, z.tasks[k]);
      }
    }
  }

  lemma HandlesOf(y: System, k: TaskId)
    requires Numbered(y) && k in y.tasks
    ensures HandlesBelow(y.tasks[k], y.next)
  {
  }

  /* ---- What an abort can take away ---- */

  /** A poller is aborted by one that takes its place, or it is outdated. */
  lemma AbortedPoller(y: System, st: Step, k: TaskId)
    requires Aimed(y) && Enabled(y, st) && k in y.tasks && y.tasks[k].Polling?
    requires k in ChangeOf(y, st).aborts
    ensures (st.ArmPoller? && y.s.readinessHandle == Some(k)) || y.tasks[k].gen < y.s.generation
  {
    hide SessionAfter, After, Fresh, ExitDecision;
    match st
    case AbortStopped(i) => assert TaskAimed(y, y.tasks[i]);
    case _ =>
  }

  /** A timer is aborted by one that takes its place or by a start, or it is outdated. */
  lemma AbortedTimer(y: System, st: Step, k: TaskId)
    requires Aimed(y) && Enabled(y, st) && k in y.tasks && y.tasks[k].TimerSleeping?
    requires k in ChangeOf(y, st).aborts
    ensures st.ArmTimer? || st.AcquireStart? || y.tasks[k].gen < y.s.generation
  {
    hide SessionAfter, After, Fresh, ExitDecision;
    match st
    case AbortStopped(i) => assert TaskAimed(y, y.tasks[i]);
    case _ =>
  }
}
