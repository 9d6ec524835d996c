/**
  The supervision protocol as a transition system at the granularity of lock sections
  (level L1): the shared `Session`, every task or caller that is between two sections,
  and the stdin pipe of every child. Between two steps anything may interleave.

  A task keeps its identity until it ends. Aborting a task (`Change.aborts`) ends it only where
  it can be suspended (`Task.Abortable`): sleeping, or polling.
*/
module Protocol {
  import opened Wrappers
  import opened Text
  import opened Sessions

  datatype Origin = FromStart | FromRetry

  datatype Task =
    // start
    | Starting(options: Options)
    | Spawning(gen: nat, origin: Origin)
    | Registering(gen: nat, pid: nat, origin: Origin)
    | StartFailed(gen: nat)
    // a registered child
    | Supervising(gen: nat, pid: nat)
    | Deciding(gen: nat)
    // retries
    | Scheduling
    | TimerArming(timer: TaskId)
    | TimerSleeping(gen: nat)
    | RetryChecked(gen: nat, options: Options)
    | RetryAnnounced(gen: nat, options: Options)
    // stop
    | Stopping(stop: Option<TaskId>, retry: Option<TaskId>, readiness: Option<TaskId>,
               delayed: Option<TaskId>)
    | StopSending(target: TaskId)
    // readiness; `owner` is the child whose log reader is at work, if it is one
    | Waiting(gen: nat, reader: TaskId)
    | PollerArming(gen: nat, reader: TaskId, poller: TaskId)
    | Polling(gen: nat, dialing: bool)
    | MarkingReady(gen: nat, owner: Option<TaskId>)
    // delayed EIP opener
    | EipSpawning(gen: nat, owner: Option<TaskId>)
    | EipArming(opener: TaskId, owner: Option<TaskId>)
    | EipSleeping(gen: nat)
    | EipOpening(gen: nat)
    | EipMarking(gen: nat)
  {
    /** The generation the task compares with the current one, if it holds any. */
    function Token(): Option<nat> {
      match this
      case Starting(_) | Scheduling | TimerArming(_) | Stopping(_, _, _, _)
         | StopSending(_) | EipArming(_, _) => None
      case Spawning(g, _) => Some(g)
      case Registering(g, _, _) => Some(g)
      case StartFailed(g) => Some(g)
      case Supervising(g, _) => Some(g)
      case Deciding(g) => Some(g)
      case TimerSleeping(g) => Some(g)
      case RetryChecked(g, _) => Some(g)
      case RetryAnnounced(g, _) => Some(g)
      case Waiting(g, _) => Some(g)
      case PollerArming(g, _, _) => Some(g)
      case Polling(g, _) => Some(g)
      case MarkingReady(g, _) => Some(g)
      case EipSpawning(g, _) => Some(g)
      case EipSleeping(g) => Some(g)
      case EipOpening(g) => Some(g)
      case EipMarking(g) => Some(g)
    }

    /** The child whose stdout or stderr reader runs this task. */
    function Reader(): Option<TaskId> {
      match this
      case Waiting(_, r) => Some(r)
      case PollerArming(_, r, _) => Some(r)
      case MarkingReady(_, o) => o
      case EipSpawning(_, o) => o
      case EipArming(_, o) => o
      case _ => None
    }

    predicate Abortable() {
      TimerSleeping? || Polling? || EipSleeping?
    }

    /** The handle that a stop aborts next. */
    function NextAbort(): Option<TaskId>
      requires Stopping?
    {
      if retry.Some? then retry else if readiness.Some? then readiness else delayed
    }

    /** A stop aborts the handles it took one after the other, then turns to the child. */
    function AfterAbort(): Option<Task>
      requires Stopping?
    {
      if retry.Some? then Some(this.(retry := None))
      else if readiness.Some? then Some(this.(readiness := None))
      else if delayed.Some? then Some(this.(delayed := None))
      else if stop.Some? then Some(StopSending(stop.value))
      else None
    }
  }

  /** A child's stdin: the channel of accepted values and the bytes its forwarder wrote. */
  datatype Pipe = Pipe(accepted: seq<string>, queue: seq<string>, delivered: nat,
                       written: Bytes, open: bool)

  const NEW_PIPE := Pipe([], [], 0, [], true)

  datatype Tally = Tally(sms: nat, callback: nat, captcha: nat) {
    function Of(p: Prompt): nat {
      match p
      case Sms => sms
      case Callback => callback
      case Captcha => captcha
    }

    function Plus(p: Prompt): Tally {
      match p
      case Sms => this.(sms := sms + 1)
      case Callback => this.(callback := callback + 1)
      case Captcha => this.(captcha := captcha + 1)
    }
  }

  /** What has happened so far; no step reads it. `registrations` and `waits` hold the
      generation of each registered child and of each readiness wait; `opens` counts the
      EIP browsers opened since the last manual start, and `options` are that start's;
      `attempts` holds the attempts used by `schedule_retry` since `retryAttempt` was last
      reset. */
  datatype History = History(raised: Tally, answered: Tally, registrations: seq<nat>,
                             waits: seq<nat>, opens: nat, attempts: seq<nat>, options: Options)

  /** `signalled` holds the children whose stop channel has been used. */
  datatype System = System(s: Session, tasks: map<TaskId, Task>, next: TaskId,
                           pipes: map<TaskId, Pipe>, signalled: set<TaskId>, h: History)

  const INITIAL := System(FRESH, map[], 0, map[], {},
                          History(Tally(0, 0, 0), Tally(0, 0, 0), [], [], 0, [], NO_OPTIONS))

  datatype Step =
    | AcquireStart(options: Options)
    | SetUpStart(i: TaskId)
    | FailSpawn(i: TaskId)
    | SpawnChild(i: TaskId, pid: nat)
    | Register(i: TaskId)
    | CleanUp(i: TaskId)
    | Stop
    | AbortStopped(i: TaskId)
    | SendStop(i: TaskId)
    | Submit(raw: string, kind: Option<string>)
    | Forward(i: TaskId)
    | BreakPipe(i: TaskId, cut: nat)
    | RaiseInput(i: TaskId, prompt: Prompt)
    | RaiseCaptcha(i: TaskId)
    | GiveUpCaptcha
    | EndCaptchaPoll
    | BeginWait(i: TaskId)
    | SkipDial(i: TaskId)
    | SpawnPoller(i: TaskId)
    | ArmPoller(i: TaskId)
    | CheckPoll(i: TaskId)
    | DialFails(i: TaskId)
    | DialSucceeds(i: TaskId)
    | MarkReady(i: TaskId)
    | SpawnOpener(i: TaskId)
    | ArmOpener(i: TaskId)
    | CheckEip(i: TaskId)
    | OpenEip(i: TaskId, launched: bool)
    | MarkEip(i: TaskId)
    | Exit(i: TaskId)
    | Decide(i: TaskId)
    | BumpAttempt(i: TaskId)
    | ArmTimer(i: TaskId)
    | CheckRetry(i: TaskId)
    | RecheckRetry(i: TaskId)
    | PrepareRetry(i: TaskId)

  /** The task that takes the step, if it is one that is under way. */
  function Subject(st: Step): Option<TaskId> {
    match st
    case AcquireStart(_) | Stop | Submit(_, _) | Forward(_) | BreakPipe(_, _)
       | RaiseInput(_, _) | RaiseCaptcha(_) | GiveUpCaptcha | EndCaptchaPoll | BeginWait(_) => None
    case SetUpStart(i) => Some(i)
    case FailSpawn(i) => Some(i)
    case SpawnChild(i, _) => Some(i)
    case Register(i) => Some(i)
    case CleanUp(i) => Some(i)
    case AbortStopped(i) => Some(i)
    case SendStop(i) => Some(i)
    case SkipDial(i) => Some(i)
    case SpawnPoller(i) => Some(i)
    case ArmPoller(i) => Some(i)
    case CheckPoll(i) => Some(i)
    case DialFails(i) => Some(i)
    case DialSucceeds(i) => Some(i)
    case MarkReady(i) => Some(i)
    case SpawnOpener(i) => Some(i)
    case ArmOpener(i) => Some(i)
    case CheckEip(i) => Some(i)
    case OpenEip(i, _) => Some(i)
    case MarkEip(i) => Some(i)
    case Exit(i) => Some(i)
    case Decide(i) => Some(i)
    case BumpAttempt(i) => Some(i)
    case ArmTimer(i) => Some(i)
    case CheckRetry(i) => Some(i)
    case RecheckRetry(i) => Some(i)
    case PrepareRetry(i) => Some(i)
  }

  /** Where a task must be to take the step. */
  predicate Poised(t: Task, st: Step) {
    match st
    case SetUpStart(_) => t.Starting?
    case FailSpawn(_) => t.Spawning?
    case SpawnChild(_, _) => t.Spawning?
    case Register(_) => t.Registering?
    case CleanUp(_) => t.StartFailed?
    case AbortStopped(_) => t.Stopping?
    case SendStop(_) => t.StopSending?
    case SkipDial(_) => t.Waiting?
    case SpawnPoller(_) => t.Waiting?
    case ArmPoller(_) => t.PollerArming?
    case CheckPoll(_) => t.Polling? && !t.dialing
    case DialFails(_) => t.Polling? && t.dialing
    case DialSucceeds(_) => t.Polling? && t.dialing
    case MarkReady(_) => t.MarkingReady?
    case SpawnOpener(_) => t.EipSpawning?
    case ArmOpener(_) => t.EipArming?
    case CheckEip(_) => t.EipSleeping?
    case OpenEip(_, _) => t.EipOpening?
    case MarkEip(_) => t.EipMarking?
    case Exit(_) => t.Supervising?
    case Decide(_) => t.Deciding?
    case BumpAttempt(_) => t.Scheduling?
    case ArmTimer(_) => t.TimerArming?
    case CheckRetry(_) => t.TimerSleeping?
    case RecheckRetry(_) => t.RetryChecked?
    case PrepareRetry(_) => t.RetryAnnounced?
    case _ => false
  }

  predicate Supervised(y: System, c: TaskId) {
    c in y.tasks && y.tasks[c].Supervising?
  }

  /** Whether the forwarder behind `stdinTx` still receives. */
  predicate Listening(y: System) {
    y.s.stdinTx.Some? && y.s.stdinTx.value in y.pipes && y.pipes[y.s.stdinTx.value].open
  }

  predicate Sending(y: System, c: TaskId) {
    c in y.pipes && y.pipes[c].open && y.pipes[c].queue != []
  }

  /** No stdout or stderr reader of `c` is in the middle of a line. */
  ghost predicate ReadersDone(y: System, c: TaskId) {
    forall k :: k in y.tasks ==> y.tasks[k].Reader() != Some(c)
  }

  /** Which steps can be taken. A supervisor joins the two log readers before it exits. */
  ghost predicate Enabled(y: System, st: Step) {
    && (Subject(st).Some? ==>
          Subject(st).value in y.tasks && Poised(y.tasks[Subject(st).value], st))
    && match st
       case AcquireStart(_) => y.s.childPid.None?
       case Forward(c) => Sending(y, c)
       case BreakPipe(c, cut) => Sending(y, c) && cut <= |Utf8(y.pipes[c].queue[0])|
       case RaiseInput(c, p) => Supervised(y, c) && !p.Captcha?
       case GiveUpCaptcha => y.s.active && OwnsCaptchaPoll(y.s)
       case EndCaptchaPoll => OwnsCaptchaPoll(y.s)
       case BeginWait(c) => Supervised(y, c) && MayBeginWait(y.s)
       case Exit(i) => ReadersDone(y, i)
       case _ => true
  }

  /** What the step does to the shared state. */
  ghost function SessionAfter(y: System, st: Step): Session
    requires Enabled(y, st)
  {
    var s := y.s;
    match st
    case AcquireStart(_) => Acquired(s)
    case SetUpStart(i) => SetUp(s, y.tasks[i].options)
    case Register(i) =>
      if SpawnGuardViolated(s, y.tasks[i].gen) then s
      else Registered(s, y.tasks[i].pid, y.next)
    case CleanUp(i) => if CleanUpSkips(s, y.tasks[i].gen) then s else CleanedUp(s)
    case Stop => Stopped(s)
    case Submit(raw, kind) =>
      if Submission(s, raw, kind, Listening(y)).Success? then Submitted(s) else s
    case RaiseInput(_, p) => InputRequested(s, p)
    case RaiseCaptcha(_) => CaptchaRequested(s)
    case GiveUpCaptcha => s.(awaiting := None)
    case EndCaptchaPoll => s.(captchaPolling := false)
    case BeginWait(_) => WaitBegun(s)
    case ArmPoller(i) => s.(readinessHandle := Some(y.tasks[i].poller))
    case MarkReady(i) => if MayMarkReady(s, y.tasks[i].gen) then MarkedReady(s) else s
    case ArmOpener(i) => s.(delayedEip := Some(y.tasks[i].opener))
    case MarkEip(i) => if EipValid(s, y.tasks[i].gen) then s.(eipOpened := true) else s
    case Exit(_) => Cleared(s)
    case Decide(i) => Decided(s, y.tasks[i].gen)
    case BumpAttempt(_) => Bumped(s)
    case ArmTimer(i) => s.(retryHandle := Some(y.tasks[i].timer))
    case PrepareRetry(i) => s.(eipOptions := y.tasks[i].options)
    case _ => s
  }

  function FailedSpawn(gen: nat, origin: Origin): Task {
    if origin.FromStart? then StartFailed(gen) else Scheduling
  }

  function OnlyIf(b: bool, t: Task): Option<Task> {
    if b then Some(t) else None
  }

  /** What becomes of the task that takes the step; `None` when it ends. */
  function After(y: System, t: Task, st: Step): Option<Task>
    requires Poised(t, st)
  {
    match st
    case SetUpStart(_) => Some(Spawning(y.s.generation, FromStart))
    case FailSpawn(_) => Some(FailedSpawn(t.gen, t.origin))
    case SpawnChild(_, pid) => Some(Registering(t.gen, pid, t.origin))
    case Register(_) =>
      OnlyIf(SpawnGuardViolated(y.s, t.gen) && t.origin.FromStart?, StartFailed(t.gen))
    case AbortStopped(_) => t.AfterAbort()
    case SkipDial(_) => Some(MarkingReady(t.gen, Some(t.reader)))
    case SpawnPoller(_) => Some(PollerArming(t.gen, t.reader, y.next))
    case CheckPoll(_) => OnlyIf(ContinuesWait(y.s, t.gen), Polling(t.gen, true))
    case DialFails(_) => Some(Polling(t.gen, false))
    case DialSucceeds(_) => Some(MarkingReady(t.gen, None))
    case MarkReady(_) =>
      OnlyIf(MayMarkReady(y.s, t.gen) && WantsEip(y.s), EipSpawning(t.gen, t.owner))
    case SpawnOpener(_) => Some(EipArming(y.next, t.owner))
    case CheckEip(_) => OnlyIf(EipValid(y.s, t.gen), EipOpening(t.gen))
    case OpenEip(_, launched) => OnlyIf(launched, EipMarking(t.gen))
    case Exit(_) => Some(Deciding(t.gen))
    case Decide(_) => OnlyIf(ExitDecision(y.s, t.gen).ScheduleRetry?, Scheduling)
    case BumpAttempt(_) => Some(TimerArming(y.next))
    case CheckRetry(_) =>
      OnlyIf(RetryValid(y.s, t.gen), RetryChecked(t.gen, y.s.lastOptions))
    case RecheckRetry(_) => OnlyIf(RetryValid(y.s, t.gen), RetryAnnounced(t.gen, t.options))
    case PrepareRetry(_) => Some(Spawning(t.gen, FromRetry))
    case _ => None
  }

  /** The task that the step spawns under the next free identity. */
  ghost function Fresh(y: System, st: Step): Option<Task>
    requires Enabled(y, st)
  {
    match st
    case AcquireStart(options) => Some(Starting(options))
    case Register(i) =>
      OnlyIf(!SpawnGuardViolated(y.s, y.tasks[i].gen),
             Supervising(y.tasks[i].gen, y.tasks[i].pid))
    case Stop =>
      Some(Stopping(y.s.stopTx, y.s.retryHandle, y.s.readinessHandle, y.s.delayedEip))
    case BeginWait(c) => Some(Waiting(y.s.generation, c))
    case SpawnPoller(i) => Some(Polling(y.tasks[i].gen, false))
    case SpawnOpener(i) => Some(EipSleeping(y.tasks[i].gen))
    case BumpAttempt(_) => Some(TimerSleeping(y.s.generation))
    case _ => None
  }

  /** The handles that the step aborts. */
  ghost function Aborts(y: System, st: Step): set<TaskId>
    requires Enabled(y, st)
  {
    match st
    case AcquireStart(_) => AbortedBy(y.s.retryHandle) + AbortedBy(y.s.delayedEip)
    case AbortStopped(i) => AbortedBy(y.tasks[i].NextAbort())
    case ArmPoller(_) => AbortedBy(y.s.readinessHandle)
    case ArmOpener(_) => AbortedBy(y.s.delayedEip)
    case Decide(i) =>
      if ExitDecision(y.s, y.tasks[i].gen).Ignore? then {} else AbortedBy(y.s.delayedEip)
    case ArmTimer(_) => AbortedBy(y.s.retryHandle)
    case _ => {}
  }

  /** The change of the task map: `subject` becomes `after` or ends, `spawned` is new, and
      the tasks behind `aborts` end where they are suspended. */
  datatype Change = Change(subject: Option<TaskId>, after: Option<Task>, spawned: Option<Task>,
                           aborts: set<TaskId>)

  ghost function ChangeOf(y: System, st: Step): Change
    requires Enabled(y, st)
  {
    var i := Subject(st);
    Change(i, if i.Some? then After(y, y.tasks[i.value], st) else None, Fresh(y, st),
           Aborts(y, st))
  }

  ghost function Changed(tasks: map<TaskId, Task>, c: Change, next: TaskId): map<TaskId, Task> {
    var others :=
      map i | i in tasks && c.subject != Some(i)
              && !(i in c.aborts && tasks[i].Abortable()) :: tasks[i];
    var moved :=
      if c.subject.Some? && c.after.Some? then others[c.subject.value := c.after.value]
      else others;
    if c.spawned.Some? then moved[next := c.spawned.value] else moved
  }

  ghost function PipesAfter(y: System, st: Step): map<TaskId, Pipe>
    requires Enabled(y, st)
  {
    match st
    case Register(i) =>
      if SpawnGuardViolated(y.s, y.tasks[i].gen) then y.pipes else y.pipes[y.next := NEW_PIPE]
    case Submit(raw, kind) =>
      var r := Submission(y.s, raw, kind, Listening(y));
      if r.Failure? then y.pipes
      else
        var p := y.pipes[y.s.stdinTx.value];
        y.pipes[y.s.stdinTx.value :=
          p.(accepted := p.accepted + [r.value], queue := p.queue + [r.value])]
    case Forward(c) =>
      var p := y.pipes[c];
      y.pipes[c := p.(queue := p.queue[1..], delivered := p.delivered + 1,
                      written := p.written + (Utf8(p.queue[0]) + [LF]))]
    case BreakPipe(c, cut) =>
      var p := y.pipes[c];
      y.pipes[c := p.(written := p.written + Utf8(p.queue[0])[..cut], open := false)]
    case _ => y.pipes
  }

  /** A prompt is raised when it was not already awaited. */
  function Raised(y: System, p: Prompt): Tally {
    if y.s.awaiting == Some(p) then y.h.raised else y.h.raised.Plus(p)
  }

  ghost function HistoryAfter(y: System, st: Step): History
    requires Enabled(y, st)
  {
    var h := y.h;
    match st
    case SetUpStart(i) => h.(opens := 0, attempts := [], options := y.tasks[i].options)
    case Register(i) =>
      if SpawnGuardViolated(y.s, y.tasks[i].gen) then h
      else h.(registrations := h.registrations + [y.tasks[i].gen])
    case Stop => h.(attempts := [])
    case Submit(raw, kind) =>
      if Submission(y.s, raw, kind, Listening(y)).Failure? then h
      else h.(answered := h.answered.Plus(y.s.awaiting.value))
    case RaiseInput(_, p) => h.(raised := Raised(y, p))
    case RaiseCaptcha(_) => h.(raised := Raised(y, Captcha))
    case BeginWait(_) => h.(waits := h.waits + [y.s.generation])
    case MarkReady(i) => if MayMarkReady(y.s, y.tasks[i].gen) then h.(attempts := []) else h
    case OpenEip(_, launched) => if launched then h.(opens := h.opens + 1) else h
    case Decide(i) =>
      var action := ExitDecision(y.s, y.tasks[i].gen);
      if action.EmitStopped? || action.AwaitingBlocked? then h.(attempts := []) else h
    case BumpAttempt(_) => h.(attempts := h.attempts + [Bumped(y.s).retryAttempt])
    case _ => h
  }

  ghost function Next(y: System, st: Step): System
    requires Enabled(y, st)
  {
    System(SessionAfter(y, st), Changed(y.tasks, ChangeOf(y, st), y.next),
           if Fresh(y, st).Some? then y.next + 1 else y.next,
           PipesAfter(y, st),
           if st.SendStop? then y.signalled + {y.tasks[st.i].target} else y.signalled,
           HistoryAfter(y, st))
  }

  /** `steps` leads from `y` to `z`. */
  ghost predicate Run(y: System, steps: seq<Step>, z: System)
    decreases |steps|
  {
    if steps == [] then z == y
    else Enabled(y, steps[0]) && Run(Next(y, steps[0]), steps[1..], z)
  }

  /** Runs compose. */
  lemma RunsCompose(x: System, first: seq<Step>, y: System, second: seq<Step>, z: System)
    requires Run(x, first, y) && Run(y, second, z)
    ensures Run(x, first + second, z)
    decreases |first|
  {
    hide Enabled, Next;
    if first == [] {
      assert first + second == second;
    } else {
      RunsCompose(Next(x, first[0]), first[1..], y, second, z);
      assert (first + second)[1..] == first[1..] + second;
    }
  }
}
