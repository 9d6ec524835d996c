/**
  The mutex-protected `State` of the proxy manager. `Session` is its value, one function
  below gives the effect of each lock section, and class `State` is the object that the
  sections update in place, each method proved against its function.

  Task handles and the two channel ends are identities (`TaskId`): a child's `stdinTx`
  and `stopTx` carry the identity of the task that supervises it.
*/
module Sessions {
  import opened Wrappers
  import opened Text

  type TaskId = nat

  const U32_MAX: nat := 0xFFFF_FFFF
  const MAX_INPUT_BYTES: nat := 4096

  datatype Prompt = Sms | Callback | Captcha {
    function Name(): string {
      match this
      case Sms => "sms"
      case Callback => "callback"
      case Captcha => "captcha"
    }
  }

  /** The launch options the supervision protocol looks at. */
  datatype Options = Options(eipAutoOpen: bool, tunMode: bool, httpBind: string)

  datatype SubmitError =
    | Empty | TooLong | InvalidValue | MissingKind | NotAwaiting | NotRunning
    | KindMismatch(awaiting: Prompt, requested: string)

  datatype ExitAction =
    | Ignore
    | EmitStopped
    | AwaitingBlocked(reason: Prompt)
    | ScheduleRetry

  datatype Session = Session(
    active: bool,
    awaiting: Option<Prompt>,
    captchaPolling: bool,
    captchaPollGen: nat,
    eipOptions: Options,
    eipOpened: bool,
    lastOptions: Options,
    ready: bool,
    readyWaitGen: nat,
    retryAttempt: nat,
    generation: nat,
    childPid: Option<nat>,
    stdinTx: Option<TaskId>,
    stopTx: Option<TaskId>,
    delayedEip: Option<TaskId>,
    retryHandle: Option<TaskId>,
    readinessHandle: Option<TaskId>
  )

  const NO_OPTIONS := Options(false, false, "")

  const FRESH := Session(false, None, false, 0, NO_OPTIONS, false, NO_OPTIONS, false, 0, 0, 0,
                         None, None, None, None, None, None)

  /* ---- start ---- */

  /** First section of `start`, taken when no child holds the slot. */
  function Acquired(s: Session): Session {
    s.(generation := s.generation + 1, retryHandle := None, delayedEip := None)
  }

  /** Second section of `start`. */
  function SetUp(s: Session, options: Options): Session {
    s.(eipOptions := options, eipOpened := false, lastOptions := options, ready := false,
       readyWaitGen := 0, active := true, retryAttempt := 0, awaiting := None,
       captchaPolling := false)
  }

  predicate CleanUpSkips(s: Session, gen: nat) {
    s.generation != gen || s.childPid.Some?
  }

  function CleanedUp(s: Session): Session {
    s.(active := false, awaiting := None, captchaPolling := false,
       childPid := None, stdinTx := None, stopTx := None)
  }

  predicate SpawnGuardViolated(s: Session, gen: nat) {
    !s.active || gen != s.generation || s.childPid.Some?
  }

  function Registered(s: Session, pid: nat, child: TaskId): Session {
    s.(childPid := Some(pid), stdinTx := Some(child), stopTx := Some(child))
  }

  /* ---- stop ---- */

  function Stopped(s: Session): Session {
    s.(generation := s.generation + 1, active := false, retryAttempt := 0, ready := false,
       readyWaitGen := 0, awaiting := None, captchaPolling := false, stopTx := None,
       retryHandle := None, readinessHandle := None, delayedEip := None)
  }

  /* ---- input ---- */

  /** What must not reach a child's stdin. */
  predicate Forbidden(c: char) {
    IsControl(c) || c == '\U{2028}' || c == '\U{2029}'
  }

  /** A value that may be written as one line. */
  predicate Acceptable(v: string) {
    v != "" && Trimmed(v) && |Utf8(v)| <= MAX_INPUT_BYTES && forall c <- v :: !Forbidden(c)
  }

  /** The checks made before the lock is taken. */
  function CheckedValue(raw: string): (r: Result<string, SubmitError>)
    ensures r.Success? ==> Core(raw, r.value) && Acceptable(r.value) && '\n' !in r.value
    ensures r == Failure(Empty) <==> AllWhite(raw)
    ensures r == Failure(TooLong) <==> |Utf8(Trim(raw))| > MAX_INPUT_BYTES
    ensures r == Failure(InvalidValue) <==>
      (|Utf8(Trim(raw))| <= MAX_INPUT_BYTES && exists c <- Trim(raw) :: Forbidden(c))
    ensures r.Success? <==> Acceptable(Trim(raw))
  {
    var v := Trim(raw);
    TrimIsCore(raw);
    TrimmedAway(raw);
    if v == "" then Failure(Empty)
    else if |Utf8(v)| > MAX_INPUT_BYTES then Failure(TooLong)
    else if exists c <- v :: Forbidden(c) then Failure(InvalidValue)
    else
      assert IsControl('\n');
      Success(v)
  }

  /** The outcome of `submit_input`; `listening` says whether the forwarder of the child
      behind `stdinTx` still receives. */
  function Submission(s: Session, raw: string, kind: Option<string>, listening: bool)
    : Result<string, SubmitError>
  {
    var v := CheckedValue(raw);
    if v.Failure? then v
    else if s.awaiting.None? then Failure(NotAwaiting)
    else if kind.None? then Failure(MissingKind)
    else if s.awaiting.value.Name() != kind.value then
      Failure(KindMismatch(s.awaiting.value, kind.value))
    else if s.stdinTx.None? || !listening then Failure(NotRunning)
    else v
  }

  function Submitted(s: Session): Session {
    s.(awaiting := None)
  }

  function InputRequested(s: Session, kind: Prompt): Session {
    s.(awaiting := Some(kind))
  }

  function CaptchaRequested(s: Session): Session {
    var t := s.(awaiting := Some(Captcha));
    if s.captchaPolling then t
    else t.(captchaPolling := true, captchaPollGen := s.generation)
  }

  predicate OwnsCaptchaPoll(s: Session) {
    s.captchaPollGen == s.generation
  }

  /* ---- readiness and the delayed EIP opener ---- */

  predicate MayBeginWait(s: Session) {
    s.active && !s.ready && s.readyWaitGen != s.generation
  }

  function WaitBegun(s: Session): Session {
    s.(readyWaitGen := s.generation)
  }

  predicate ContinuesWait(s: Session, gen: nat) {
    s.active && !s.ready && s.generation == gen && s.readyWaitGen == gen
  }

  predicate MayMarkReady(s: Session, gen: nat) {
    gen == s.generation && s.active && !s.ready
  }

  function MarkedReady(s: Session): Session {
    s.(ready := true, readyWaitGen := 0, retryAttempt := 0)
  }

  predicate WantsEip(s: Session) {
    s.eipOptions.eipAutoOpen && !s.eipOpened
  }

  predicate EipValid(s: Session, gen: nat) {
    s.generation == gen && s.active && s.ready
  }

  /* ---- exit and retry ---- */

  function Cleared(s: Session): Session {
    s.(childPid := None, stdinTx := None, stopTx := None)
  }

  function ExitDecision(s: Session, gen: nat): ExitAction {
    if s.active && gen != s.generation then Ignore
    else if !s.active then EmitStopped
    else if s.awaiting.Some? then AwaitingBlocked(s.awaiting.value)
    else ScheduleRetry
  }

  function Decided(s: Session, gen: nat): Session {
    var quiet := s.(delayedEip := None, captchaPolling := false, ready := false);
    var ended := quiet.(eipOpened := false, readyWaitGen := 0, retryAttempt := 0);
    match ExitDecision(s, gen)
    case Ignore => s
    case EmitStopped => ended
    case AwaitingBlocked(_) => ended.(active := false, awaiting := None)
    case ScheduleRetry => quiet.(generation := s.generation + 1)
  }

  /** An exit that is ignored changes nothing; one that ends the session forgets it, the prompt
      included; one that is retried moves the generation on and keeps what the session knows. */
  lemma DecisionLaw(s: Session, gen: nat)
    ensures var d := Decided(s, gen);
      && d.childPid == s.childPid && d.stdinTx == s.stdinTx && d.stopTx == s.stopTx
      && d.eipOptions == s.eipOptions && d.lastOptions == s.lastOptions
      && d.retryHandle == s.retryHandle && d.readinessHandle == s.readinessHandle
      && if s.active && gen != s.generation then d == s
         else
           && !d.ready && !d.captchaPolling && d.delayedEip == None
           && d.captchaPollGen == s.captchaPollGen
           && if s.active && s.awaiting == None then
                && d.active && d.awaiting == None && d.generation == s.generation + 1
                && d.eipOpened == s.eipOpened && d.readyWaitGen == s.readyWaitGen
                && d.retryAttempt == s.retryAttempt
              else
                && !d.active && (s.active ==> d.awaiting == None) && d.generation == s.generation
                && !d.eipOpened && d.readyWaitGen == 0 && d.retryAttempt == 0
                && (!s.active ==> d.awaiting == s.awaiting)
  {
  }

  function Saturated(n: nat): nat {
    if n < U32_MAX then n else U32_MAX
  }

  function Bumped(s: Session): Session {
    s.(retryAttempt := Saturated(s.retryAttempt + 1))
  }

  predicate RetryValid(s: Session, gen: nat) {
    gen == s.generation && s.active && s.awaiting.None? && s.childPid.None?
  }

  /** What a cancelled handle aborts. */
  function AbortedBy(h: Option<TaskId>): set<TaskId> {
    if h.Some? then {h.value} else {}
  }

  /**
    The object behind the mutex. Every method is one lock section; handles it cancels are
    returned, since aborting a task is an effect outside the state.
  */
  class State {
    var active: bool
    var awaiting: Option<Prompt>
    var captchaPolling: bool
    var captchaPollGen: nat
    var eipOptions: Options
    var eipOpened: bool
    var lastOptions: Options
    var ready: bool
    var readyWaitGen: nat
    var retryAttempt: nat
    var generation: nat
    var childPid: Option<nat>
    var stdinTx: Option<TaskId>
    var stopTx: Option<TaskId>
    var delayedEip: Option<TaskId>
    var retryHandle: Option<TaskId>
    var readinessHandle: Option<TaskId>

    ghost function Value(): Session
      reads this
    {
      Session(active, awaiting, captchaPolling, captchaPollGen, eipOptions, eipOpened,
              lastOptions, ready, readyWaitGen, retryAttempt, generation, childPid, stdinTx,
              stopTx, delayedEip, retryHandle, readinessHandle)
    }

    constructor ()
      ensures !active && !ready && !captchaPolling && !eipOpened
      ensures generation == 0 && readyWaitGen == 0 && captchaPollGen == 0 && retryAttempt == 0
      ensures awaiting == None && childPid == None && stdinTx == None && stopTx == None
      ensures delayedEip == None && retryHandle == None && readinessHandle == None
      ensures Value() == FRESH
    {
      active, awaiting, captchaPolling, captchaPollGen := false, None, false, 0;
      eipOptions, eipOpened, lastOptions := NO_OPTIONS, false, NO_OPTIONS;
      ready, readyWaitGen, retryAttempt, generation := false, 0, 0, 0;
      childPid, stdinTx, stopTx := None, None, None;
      delayedEip, retryHandle, readinessHandle := None, None, None;
    }

    method CancelDelayedEip() returns (aborted: set<TaskId>)
      modifies this`delayedEip
      ensures delayedEip == None && aborted == AbortedBy(old(delayedEip))
    {
      aborted := AbortedBy(delayedEip);
      delayedEip := None;
    }

    method CancelRetry() returns (aborted: set<TaskId>)
      modifies this`retryHandle
      ensures retryHandle == None && aborted == AbortedBy(old(retryHandle))
    {
      aborted := AbortedBy(retryHandle);
      retryHandle := None;
    }

    method CancelReadiness() returns (aborted: set<TaskId>)
      modifies this`readinessHandle
      ensures readinessHandle == None && aborted == AbortedBy(old(readinessHandle))
    {
      aborted := AbortedBy(readinessHandle);
      readinessHandle := None;
    }

    /** The assignments that `start` and `stop` share. */
    method Reset(on: bool)
      modifies this`active, this`ready, this`readyWaitGen, this`retryAttempt, this`awaiting,
               this`captchaPolling
      ensures active == on && !ready && readyWaitGen == 0 && retryAttempt == 0
      ensures awaiting == None && !captchaPolling
    {
      active := on;
      ready := false;
      readyWaitGen := 0;
      retryAttempt := 0;
      awaiting := None;
      captchaPolling := false;
    }

    /** The assignments that the two session-ending exits share. */
    method ForgetSession()
      modifies this`eipOpened, this`readyWaitGen, this`retryAttempt
      ensures !eipOpened && readyWaitGen == 0 && retryAttempt == 0
    {
      eipOpened := false;
      readyWaitGen := 0;
      retryAttempt := 0;
    }

    method AcquireStart() returns (acquired: bool, aborted: set<TaskId>)
      modifies this`generation, this`retryHandle, this`delayedEip
      ensures acquired == childPid.None?
      ensures acquired ==>
        generation == old(generation) + 1 && retryHandle == None && delayedEip == None
      ensures Value() == if acquired then Acquired(old(Value())) else old(Value())
      ensures aborted ==
        if acquired then AbortedBy(old(retryHandle)) + AbortedBy(old(delayedEip)) else {}
    {
      if childPid.Some? {
        return false, {};
      }
      generation := generation + 1;
      var timers := CancelRetry();
      var openers := CancelDelayedEip();
      return true, timers + openers;
    }

    method SetUpSession(options: Options) returns (gen: nat)
      modifies this`active, this`ready, this`readyWaitGen, this`retryAttempt, this`awaiting,
               this`captchaPolling, this`eipOptions, this`eipOpened, this`lastOptions
      ensures active && !ready && readyWaitGen == 0 && retryAttempt == 0
      ensures awaiting == None && !captchaPolling && !eipOpened
      ensures eipOptions == lastOptions == options
      ensures Value() == SetUp(old(Value()), options) && gen == generation
    {
      eipOptions := options;
      eipOpened := false;
      lastOptions := options;
      Reset(true);
      gen := generation;
    }

    method CleanUpFailedStart(gen: nat) returns (tornDown: bool)
      modifies this`active, this`awaiting, this`captchaPolling, this`childPid, this`stdinTx,
               this`stopTx
      ensures tornDown == (generation == gen && old(childPid).None?)
      ensures tornDown ==> !active && awaiting == None && !captchaPolling
      ensures tornDown ==> childPid == None && stdinTx == None && stopTx == None
      ensures tornDown == !CleanUpSkips(old(Value()), gen)
      ensures Value() == if tornDown then CleanedUp(old(Value())) else old(Value())
    {
      if generation != gen || childPid.Some? {
        return false;
      }
      active := false;
      awaiting := None;
      captchaPolling := false;
      childPid := None;
      stdinTx := None;
      stopTx := None;
      return true;
    }

    method RegisterChild(gen: nat, pid: nat, child: TaskId) returns (registered: bool)
      modifies this`childPid, this`stdinTx, this`stopTx
      ensures registered == (active && gen == generation && old(childPid).None?)
      ensures registered ==> childPid == Some(pid) && stdinTx == Some(child) && stopTx == Some(child)
      ensures registered == !SpawnGuardViolated(old(Value()), gen)
      ensures Value() == if registered then Registered(old(Value()), pid, child) else old(Value())
    {
      if !active || gen != generation || childPid.Some? {
        return false;
      }
      childPid := Some(pid);
      stdinTx := Some(child);
      stopTx := Some(child);
      return true;
    }

    method TakeHandles()
      returns (stop: Option<TaskId>, retry: Option<TaskId>, readiness: Option<TaskId>,
               opener: Option<TaskId>)
      modifies this`stopTx, this`retryHandle, this`readinessHandle, this`delayedEip
      ensures stopTx == retryHandle == readinessHandle == delayedEip == None
      ensures stop == old(stopTx) && retry == old(retryHandle)
      ensures readiness == old(readinessHandle) && opener == old(delayedEip)
    {
      stop, retry, readiness, opener := stopTx, retryHandle, readinessHandle, delayedEip;
      stopTx, retryHandle, readinessHandle, delayedEip := None, None, None, None;
    }

    /** The handles are taken here and aborted once the lock is released. */
    method Stop()
      returns (stop: Option<TaskId>, retry: Option<TaskId>, readiness: Option<TaskId>,
               opener: Option<TaskId>, hadChild: bool)
      modifies this`generation, this`active, this`ready, this`readyWaitGen, this`retryAttempt,
               this`awaiting, this`captchaPolling, this`stopTx, this`retryHandle,
               this`readinessHandle, this`delayedEip
      ensures generation == old(generation) + 1 && !active && !ready
      ensures readyWaitGen == 0 && retryAttempt == 0 && awaiting == None && !captchaPolling
      ensures stopTx == None && retryHandle == None && readinessHandle == None && delayedEip == None
      ensures Value() == Stopped(old(Value()))
      ensures stop == old(stopTx) && hadChild == old(childPid).Some?
      ensures retry == old(retryHandle) && readiness == old(readinessHandle)
      ensures opener == old(delayedEip)
    {
      generation := generation + 1;
      Reset(false);
      stop, retry, readiness, opener := TakeHandles();
      hadChild := childPid.Some?;
    }

    method SubmitInput(raw: string, kind: Option<string>, listening: bool)
      returns (r: Result<string, SubmitError>)
      modifies this`awaiting
      ensures r == Failure(Empty) <==> AllWhite(raw)
      ensures r == Failure(TooLong) <==> |Utf8(Trim(raw))| > 4096
      ensures r == Failure(InvalidValue) <==>
        (|Utf8(Trim(raw))| <= 4096 && exists c <- Trim(raw) ::
           c as int <= 0x1F || 0x7F <= c as int <= 0x9F || c as int == 0x2028 || c as int == 0x2029)
      ensures (r != Failure(Empty) && r != Failure(TooLong) && r != Failure(InvalidValue)) ==>
        (r == match old(awaiting)
              case None => Failure(NotAwaiting)
              case Some(prompt) =>
                var name := match prompt
                            case Sms => "sms"
                            case Callback => "callback"
                            case Captcha => "captcha";
                if kind == None then Failure(MissingKind)
                else if kind.value != name then Failure(KindMismatch(prompt, kind.value))
                else if stdinTx == None || !listening then Failure(NotRunning)
                else Success(Trim(raw)))
      ensures awaiting == if r.Success? then None else old(awaiting)
      ensures r == Submission(old(Value()), raw, kind, listening)
      ensures Value() == if r.Success? then Submitted(old(Value())) else old(Value())
    {
      var v := CheckedValue(raw);
      if v.Failure? {
        return v;
      }
      match awaiting {
        case Some(prompt) =>
          if kind.None? {
            return Failure(MissingKind);
          }
          if prompt.Name() != kind.value {
            return Failure(KindMismatch(prompt, kind.value));
          }
        case None =>
          return Failure(NotAwaiting);
      }
      if stdinTx.None? || !listening {
        return Failure(NotRunning);
      }
      awaiting := None;
      return v;
    }

    method ClearSlot()
      modifies this`childPid, this`stdinTx, this`stopTx
      ensures childPid == None && stdinTx == None && stopTx == None
      ensures Value() == Cleared(old(Value()))
    {
      childPid := None;
      stdinTx := None;
      stopTx := None;
    }

    method RequestInput(kind: Prompt) returns (changed: bool)
      modifies this`awaiting
      ensures awaiting == Some(kind)
      ensures Value() == InputRequested(old(Value()), kind)
      ensures changed == (old(awaiting) != Some(kind))
    {
      changed := awaiting != Some(kind);
      if changed {
        awaiting := Some(kind);
      }
    }

    method RequestCaptcha() returns (startsPoll: bool)
      modifies this`awaiting, this`captchaPolling, this`captchaPollGen
      ensures awaiting == Some(Captcha) && captchaPolling
      ensures captchaPollGen == if startsPoll then generation else old(captchaPollGen)
      ensures Value() == CaptchaRequested(old(Value()))
      ensures startsPoll == !old(captchaPolling)
    {
      if awaiting != Some(Captcha) {
        awaiting := Some(Captcha);
      }
      if captchaPolling {
        return false;
      }
      captchaPolling := true;
      captchaPollGen := generation;
      return true;
    }

    /** A captcha poll that found nothing. */
    method GiveUpCaptcha()
      modifies this`awaiting
      ensures awaiting == if active && captchaPollGen == generation then None else old(awaiting)
      ensures Value() ==
        if old(active) && OwnsCaptchaPoll(old(Value())) then old(Value()).(awaiting := None)
        else old(Value())
    {
      if active && captchaPollGen == generation {
        awaiting := None;
      }
    }

    method EndCaptchaPoll()
      modifies this`captchaPolling
      ensures captchaPolling == (old(captchaPolling) && captchaPollGen != generation)
      ensures Value() ==
        if OwnsCaptchaPoll(old(Value())) then old(Value()).(captchaPolling := false)
        else old(Value())
    {
      if captchaPollGen == generation {
        captchaPolling := false;
      }
    }

    method BeginReadyWait() returns (token: Option<nat>)
      modifies this`readyWaitGen
      ensures token ==
        if active && !ready && old(readyWaitGen) != generation then Some(generation) else None
      ensures readyWaitGen == if token.Some? then generation else old(readyWaitGen)
      ensures token == if MayBeginWait(old(Value())) then Some(generation) else None
      ensures Value() == if token.Some? then WaitBegun(old(Value())) else old(Value())
    {
      if !active || ready || readyWaitGen == generation {
        return None;
      }
      readyWaitGen := generation;
      return Some(generation);
    }

    /** Read by a poller before each dial. */
    method ContinuesReadyWait(gen: nat) returns (continues: bool)
      ensures continues == (active && !ready && generation == gen && readyWaitGen == gen)
      ensures continues == ContinuesWait(Value(), gen)
    {
      return active && !ready && generation == gen && readyWaitGen == gen;
    }

    method RegisterReadiness(poller: TaskId) returns (aborted: set<TaskId>)
      modifies this`readinessHandle
      ensures Value() == old(Value()).(readinessHandle := Some(poller))
      ensures aborted == AbortedBy(old(readinessHandle))
    {
      aborted := CancelReadiness();
      readinessHandle := Some(poller);
    }

    method MarkReady(gen: nat) returns (marked: bool, opensEip: bool)
      modifies this`ready, this`readyWaitGen, this`retryAttempt
      ensures marked == (gen == generation && active && !old(ready))
      ensures opensEip == (marked && eipOptions.eipAutoOpen && !eipOpened)
      ensures marked ==> ready && readyWaitGen == 0 && retryAttempt == 0
      ensures marked == MayMarkReady(old(Value()), gen)
      ensures opensEip == (marked && WantsEip(old(Value())))
      ensures Value() == if marked then MarkedReady(old(Value())) else old(Value())
    {
      if gen != generation || !active || ready {
        return false, false;
      }
      ready := true;
      readyWaitGen := 0;
      retryAttempt := 0;
      return true, eipOptions.eipAutoOpen && !eipOpened;
    }

    method RegisterEip(opener: TaskId) returns (aborted: set<TaskId>)
      modifies this`delayedEip
      ensures Value() == old(Value()).(delayedEip := Some(opener))
      ensures aborted == AbortedBy(old(delayedEip))
    {
      aborted := CancelDelayedEip();
      delayedEip := Some(opener);
    }

    /** Read by the opener once its delay is over. */
    method MayOpenEip(gen: nat) returns (valid: bool)
      ensures valid == (generation == gen && active && ready)
      ensures valid == EipValid(Value(), gen)
    {
      return generation == gen && active && ready;
    }

    method MarkEipOpened(gen: nat)
      modifies this`eipOpened
      ensures eipOpened == (old(eipOpened) || (generation == gen && active && ready))
      ensures Value() ==
        if EipValid(old(Value()), gen) then old(Value()).(eipOpened := true) else old(Value())
    {
      if generation == gen && active && ready {
        eipOpened := true;
      }
    }

    method DecideExit(gen: nat) returns (action: ExitAction, aborted: set<TaskId>)
      modifies this`generation, this`active, this`ready, this`readyWaitGen, this`retryAttempt,
               this`awaiting, this`captchaPolling, this`eipOpened, this`delayedEip
      ensures action ==
        if old(active) && gen != old(generation) then Ignore
        else if !old(active) then EmitStopped
        else if old(awaiting).Some? then AwaitingBlocked(old(awaiting).value)
        else ScheduleRetry
      ensures action == ExitDecision(old(Value()), gen)
      ensures Value() == Decided(old(Value()), gen)
      ensures aborted == if action.Ignore? then {} else AbortedBy(old(delayedEip))
    {
      if active && gen != generation {
        return Ignore, {};
      }
      aborted := CancelDelayedEip();
      captchaPolling := false;
      ready := false;
      if !active {
        ForgetSession();
        action := EmitStopped;
      } else if awaiting.Some? {
        action := AwaitingBlocked(awaiting.value);
        active := false;
        awaiting := None;
        ForgetSession();
      } else {
        generation := generation + 1;
        action := ScheduleRetry;
      }
    }

    method BumpAttempt() returns (attempt: nat, gen: nat)
      modifies this`retryAttempt
      ensures retryAttempt ==
        if old(retryAttempt) < 0xFFFF_FFFF then old(retryAttempt) + 1 else 0xFFFF_FFFF
      ensures Value() == Bumped(old(Value()))
      ensures attempt == retryAttempt && gen == generation
    {
      retryAttempt := if retryAttempt + 1 < U32_MAX then retryAttempt + 1 else U32_MAX;
      return retryAttempt, generation;
    }

    method RegisterTimer(timer: TaskId) returns (aborted: set<TaskId>)
      modifies this`retryHandle
      ensures Value() == old(Value()).(retryHandle := Some(timer))
      ensures aborted == AbortedBy(old(retryHandle))
    {
      aborted := CancelRetry();
      retryHandle := Some(timer);
    }

    /** The guard of a retry attempt, read twice before the attempt goes ahead. */
    method CheckRetry(gen: nat) returns (options: Option<Options>)
      ensures options ==
        if generation == gen && active && awaiting.None? && childPid.None? then Some(lastOptions)
        else None
      ensures options == if RetryValid(Value(), gen) then Some(lastOptions) else None
    {
      if generation != gen || !active || awaiting.Some? || childPid.Some? {
        return None;
      }
      return Some(lastOptions);
    }

    /** An attempt that goes ahead, after both of its checks. */
    method PrepareRetry(options: Options)
      modifies this`eipOptions
      ensures Value() == old(Value()).(eipOptions := options)
    {
      eipOptions := options;
    }
  }
}
