/**
  The object behind the mutex carries out the protocol: each lock-section step is one call of
  a method of `State`, with the effect and the aborts that the transition system gives it.
*/
module StateSteps {
  import opened Sessions
  import opened Protocol

  predicate OfStart(st: Step) {
    st.AcquireStart? || st.SetUpStart? || st.Register? || st.CleanUp?
  }

  predicate OfPrompt(st: Step) {
    st.Submit? || st.RaiseInput? || st.RaiseCaptcha? || st.GiveUpCaptcha? || st.EndCaptchaPoll?
  }

  predicate OfReadiness(st: Step) {
    st.BeginWait? || st.ArmPoller? || st.MarkReady? || st.ArmOpener? || st.MarkEip?
  }

  predicate OfExit(st: Step) {
    st.Stop? || st.Exit? || st.Decide? || st.BumpAttempt? || st.ArmTimer? || st.PrepareRetry?
  }

  method PerformStart(state: State, y: System, st: Step) returns (aborted: set<TaskId>)
    requires state.Value() == y.s && Enabled(y, st) && OfStart(st)
    modifies state
    ensures state.Value() == SessionAfter(y, st) && aborted == Aborts(y, st)
  {
    aborted := {};
    match st {
      case AcquireStart(_) =>
        var acquired;
        acquired, aborted := state.AcquireStart();
      case SetUpStart(i) =>
        var gen := state.SetUpSession(y.tasks[i].options);
      case Register(i) =>
        var registered := state.RegisterChild(y.tasks[i].gen, y.tasks[i].pid, y.next);
      case CleanUp(i) =>
        var tornDown := state.CleanUpFailedStart(y.tasks[i].gen);
    }
  }

  method PerformPrompt(state: State, y: System, st: Step)
    requires state.Value() == y.s && Enabled(y, st) && OfPrompt(st)
    modifies state
    ensures state.Value() == SessionAfter(y, st) && Aborts(y, st) == {}
  {
    match st {
      case Submit(raw, kind) =>
        var r := state.SubmitInput(raw, kind, Listening(y));
      case RaiseInput(_, prompt) =>
        var changed := state.RequestInput(prompt);
      case RaiseCaptcha(_) =>
        var startsPoll := state.RequestCaptcha();
      case GiveUpCaptcha =>
        state.GiveUpCaptcha();
      case EndCaptchaPoll =>
        state.EndCaptchaPoll();
    }
  }

  method PerformReadiness(state: State, y: System, st: Step) returns (aborted: set<TaskId>)
    requires state.Value() == y.s && Enabled(y, st) && OfReadiness(st)
    modifies state
    ensures state.Value() == SessionAfter(y, st) && aborted == Aborts(y, st)
  {
    aborted := {};
    match st {
      case BeginWait(_) =>
        var token := state.BeginReadyWait();
      case ArmPoller(i) =>
        aborted := state.RegisterReadiness(y.tasks[i].poller);
      case MarkReady(i) =>
        var marked, opensEip := state.MarkReady(y.tasks[i].gen);
      case ArmOpener(i) =>
        aborted := state.RegisterEip(y.tasks[i].opener);
      case MarkEip(i) =>
        state.MarkEipOpened(y.tasks[i].gen);
    }
  }

  method PerformExit(state: State, y: System, st: Step) returns (aborted: set<TaskId>)
    requires state.Value() == y.s && Enabled(y, st) && OfExit(st)
    modifies state
    ensures state.Value() == SessionAfter(y, st) && aborted == Aborts(y, st)
  {
    aborted := {};
    match st {
      case Stop =>
        var stop, retry, readiness, opener, hadChild := state.Stop();
      case Exit(_) =>
        state.ClearSlot();
      case Decide(i) =>
        var action;
        action, aborted := state.DecideExit(y.tasks[i].gen);
      case BumpAttempt(_) =>
        var attempt, gen := state.BumpAttempt();
      case ArmTimer(i) =>
        aborted := state.RegisterTimer(y.tasks[i].timer);
      case PrepareRetry(i) =>
        state.PrepareRetry(y.tasks[i].options);
    }
  }

  lemma OthersTouchNothing(y: System, st: Step)
    requires Enabled(y, st) && !OfStart(st) && !OfPrompt(st) && !OfReadiness(st) && !OfExit(st)
    ensures SessionAfter(y, st) == y.s
    ensures Aborts(y, st) == if st.AbortStopped? then AbortedBy(y.tasks[st.i].NextAbort()) else {}
  {
    hide Poised;
  }

  /** Any step of the protocol, carried out on the object that the protocol's session is the
      value of: the object then holds the next session, and what it aborts is what the step
      aborts. */
  method Perform(state: State, y: System, st: Step) returns (aborted: set<TaskId>)
    requires state.Value() == y.s && Enabled(y, st)
    modifies state
    ensures state.Value() == SessionAfter(y, st) && aborted == Aborts(y, st)
  {
    hide SessionAfter, Aborts;
    aborted := {};
    if OfStart(st) {
      aborted := PerformStart(state, y, st);
    } else if OfPrompt(st) {
      PerformPrompt(state, y, st);
    } else if OfReadiness(st) {
      aborted := PerformReadiness(state, y, st);
    } else if OfExit(st) {
      aborted := PerformExit(state, y, st);
    } else {
      OthersTouchNothing(y, st);
      if st.AbortStopped? {
        aborted := AbortedBy(y.tasks[st.i].NextAbort());
      }
    }
  }
}
