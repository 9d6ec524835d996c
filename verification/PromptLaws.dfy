/**
  What `submit_input` takes and what a stop or an exit does to the prompt, said of whole steps
  and runs (level L1).
*/
module PromptLaws {
  import opened Wrappers
  import opened Text
  import opened Sessions
  import opened Protocol
  import opened TaskFrames
  import opened Footprints

  /** An answer is taken iff a prompt is awaited, the answer is of its kind, the forwarder of the
      child in the slot receives, and what is left between white space is one line of at most
      4096 bytes. Then the child's pipe accepts exactly that, the prompt is answered and nothing
      else changes; otherwise nothing changes at all. */
  lemma SubmitTakes(y: System, raw: string, kind: Option<string>)
    ensures var v, p := Trim(raw), y.s.awaiting;
      var taken :=
        && ((p == Some(Sms) && kind == Some("sms"))
            || (p == Some(Callback) && kind == Some("callback"))
            || (p == Some(Captcha) && kind == Some("captcha")))
        && y.s.stdinTx.Some? && y.s.stdinTx.value in y.pipes && y.pipes[y.s.stdinTx.value].open
        && v != "" && |Utf8(v)| <= 4096
        && (forall c <- v :: !(c as int <= 0x1F || 0x7F <= c as int <= 0x9F
                               || c as int == 0x2028 || c as int == 0x2029));
      var z := Next(y, Submit(raw, kind));
      if !taken then z == y
      else
        var c := y.s.stdinTx.value;
        var pipe := y.pipes[c];
        && z == y.(s := y.s.(awaiting := None), h := z.h,
                   pipes := y.pipes[c := pipe.(accepted := pipe.accepted + [v], queue := pipe.queue + [v])])
        && z.h == y.h.(answered := z.h.answered)
        && z.h.answered.Of(p.value) == y.h.answered.Of(p.value) + 1
        && (forall q: Prompt :: q != p.value ==> z.h.answered.Of(q) == y.h.answered.Of(q))
  {
    hide Changed, Submission, Tally.Plus, Tally.Of;
    SubmitKeepsTasks(y, raw, kind);
    SubmissionTakes(y.s, raw, kind, Listening(y));
    TallyCounts(y.h.answered);
  }

  lemma SubmissionTakes(s: Session, raw: string, kind: Option<string>, listening: bool)
    ensures var v, p := Trim(raw), s.awaiting;
      Submission(s, raw, kind, listening) == Success(v) <==>
        && ((p == Some(Sms) && kind == Some("sms"))
            || (p == Some(Callback) && kind == Some("callback"))
            || (p == Some(Captcha) && kind == Some("captcha")))
        && s.stdinTx.Some? && listening && v != "" && |Utf8(v)| <= 4096
        && (forall c <- v :: !(c as int <= 0x1F || 0x7F <= c as int <= 0x9F
                               || c as int == 0x2028 || c as int == 0x2029))
    ensures Submission(s, raw, kind, listening).Success? ==>
      Submission(s, raw, kind, listening).value == Trim(raw)
  {
    hide CheckedValue, Prompt.Name;
    CheckedIsWritable(raw);
    NamesAreSpelled(s.awaiting, kind);
  }

  lemma CheckedIsWritable(raw: string)
    ensures var v := Trim(raw);
      CheckedValue(raw) == Success(v) <==>
        && v != "" && |Utf8(v)| <= 4096
        && (forall c <- v :: !(c as int <= 0x1F || 0x7F <= c as int <= 0x9F
                               || c as int == 0x2028 || c as int == 0x2029))
    ensures CheckedValue(raw).Success? ==> CheckedValue(raw).value == Trim(raw)
  {
    hide Trim, Utf8;
  }

  lemma NamesAreSpelled(p: Option<Prompt>, kind: Option<string>)
    ensures (p.Some? && kind.Some? && p.value.Name() == kind.value) <==>
      ((p == Some(Sms) && kind == Some("sms"))
       || (p == Some(Callback) && kind == Some("callback"))
       || (p == Some(Captcha) && kind == Some("captcha")))
  {
  }

  lemma SubmitKeepsTasks(y: System, raw: string, kind: Option<string>)
    ensures Changed(y.tasks, ChangeOf(y, Submit(raw, kind)), y.next) == y.tasks
  {
  }

  lemma TallyCounts(t: Tally)
    ensures forall p: Prompt, q: Prompt :: t.Plus(p).Of(q) == t.Of(q) + if p == q then 1 else 0
  {
  }

  /* ---- After a stop ---- */

  ghost predicate AsksNothing(steps: seq<Step>) {
    forall st <- steps :: !st.RaiseInput? && !st.RaiseCaptcha?
  }

  lemma {:induction false} StaysUnasked(y: System, steps: seq<Step>, z: System)
    requires y.s.awaiting == None && Run(y, steps, z) && AsksNothing(steps)
    ensures z.s.awaiting == None
    decreases |steps|
  {
    hide Enabled, SessionAfter, HistoryAfter, ChangeOf, Changed, PipesAfter, Fresh;
    if steps != [] {
      assert steps[0] in steps && forall st <- steps[1..] :: st in steps;
      OthersRaiseNothing(y, steps[0]);
      StaysUnasked(Next(y, steps[0]), steps[1..], z);
    }
  }

  /** Whatever was awaited when the stop came, nothing is afterwards; and until a prompt is
      raised again no answer of any kind is taken, whatever child still holds the slot. */
  lemma StopTakesNoAnswers(y: System, steps: seq<Step>, z: System)
    requires Run(Next(y, Stop), steps, z) && AsksNothing(steps)
    ensures z.s.awaiting == None
    ensures forall raw, kind :: Next(z, Submit(raw, kind)) == z
  {
    StopAsksNothing(y);
    StaysUnasked(Next(y, Stop), steps, z);
    hide Run, Next;
    forall raw, kind ensures Next(z, Submit(raw, kind)) == z {
      SubmitTakes(z, raw, kind);
    }
  }

  lemma StopAsksNothing(y: System)
    ensures Next(y, Stop).s.awaiting == None
  {
    hide Changed, PipesAfter, HistoryAfter, ChangeOf, Fresh;
  }

  /** The same holds after a start has set its session up. */
  lemma StartTakesNoAnswers(y: System, i: TaskId, steps: seq<Step>, z: System)
    requires Enabled(y, SetUpStart(i)) && Run(Next(y, SetUpStart(i)), steps, z) && AsksNothing(steps)
    ensures z.s.awaiting == None
    ensures forall raw, kind :: Next(z, Submit(raw, kind)) == z
  {
    SetUpAsksNothing(y, i);
    StaysUnasked(Next(y, SetUpStart(i)), steps, z);
    hide Run, Next, Enabled;
    forall raw, kind ensures Next(z, Submit(raw, kind)) == z {
      SubmitTakes(z, raw, kind);
    }
  }

  lemma SetUpAsksNothing(y: System, i: TaskId)
    requires Enabled(y, SetUpStart(i))
    ensures Next(y, SetUpStart(i)).s.awaiting == None
  {
    hide Changed, PipesAfter, HistoryAfter, ChangeOf, Fresh;
  }

  /* ---- After an exit ---- */

  /** A child that exits while a prompt is awaited ends the session, and the prompt with it. */
  lemma ExitEndsThePrompt(y: System, i: TaskId, steps: seq<Step>, z: System)
    requires Enabled(y, Decide(i)) && y.s.active && y.tasks[i].gen == y.s.generation
    requires y.s.awaiting.Some?
    requires Run(Next(y, Decide(i)), steps, z) && AsksNothing(steps)
    ensures !Next(y, Decide(i)).s.active && i !in Next(y, Decide(i)).tasks
    ensures z.s.awaiting == None && forall raw, kind :: Next(z, Submit(raw, kind)) == z
  {
    DecideEndsPrompt(y, i);
    StaysUnasked(Next(y, Decide(i)), steps, z);
    hide Run, Next, Enabled;
    forall raw, kind ensures Next(z, Submit(raw, kind)) == z {
      SubmitTakes(z, raw, kind);
    }
  }

  lemma DecideEndsPrompt(y: System, i: TaskId)
    requires Enabled(y, Decide(i)) && y.s.active && y.tasks[i].gen == y.s.generation
    requires y.s.awaiting.Some?
    ensures var z := Next(y, Decide(i));
      !z.s.active && z.s.awaiting == None && i !in z.tasks
  {
    hide PipesAfter, HistoryAfter;
  }

  /** A supervisor exits only when neither of its log readers is in the middle of a line. */
  lemma ExitJoinsReaders(y: System, i: TaskId, k: TaskId)
    requires Enabled(y, Exit(i)) && k in y.tasks
    ensures y.tasks[i].Supervising?
    ensures match y.tasks[k]
            case Waiting(_, reader) => reader != i
            case PollerArming(_, reader, _) => reader != i
            case MarkingReady(_, owner) => owner != Some(i)
            case EipSpawning(_, owner) => owner != Some(i)
            case EipArming(_, owner) => owner != Some(i)
            case _ => true
  {
  }

  /* ---- The stdin pipe ---- */

  /** One forwarded value leaves the queue and is written with one newline. */
  lemma ForwardWrites(y: System, c: TaskId)
    requires Enabled(y, Forward(c))
    ensures var p := y.pipes[c];
      Next(y, Forward(c)) == y.(pipes := y.pipes[c :=
        p.(queue := p.queue[1..], delivered := p.delivered + 1,
           written := p.written + (Utf8(p.queue[0]) + [10]))])
  {
    assert Changed(y.tasks, ChangeOf(y, Forward(c)), y.next) == y.tasks;
  }

  /** A failed write leaves part of the value and ends the forwarding. */
  lemma BreakEndsPipe(y: System, c: TaskId, cut: nat)
    requires Enabled(y, BreakPipe(c, cut))
    ensures var p := y.pipes[c];
      cut <= |Utf8(p.queue[0])|
      && Next(y, BreakPipe(c, cut)) == y.(pipes := y.pipes[c :=
           p.(written := p.written + Utf8(p.queue[0])[..cut], open := false)])
  {
    assert Changed(y.tasks, ChangeOf(y, BreakPipe(c, cut)), y.next) == y.tasks;
  }

  /* ---- Aborts ---- */

  /** An abort ends exactly a sleeping timer, a sleeping opener or a poller; what else a handle
      refers to goes on. */
  lemma AbortEndsSleepers(y: System, st: Step, k: TaskId)
    requires Numbered(y) && Enabled(y, st) && k in y.tasks && Subject(st) != Some(k)
    ensures k in Next(y, st).tasks <==>
      !(k in ChangeOf(y, st).aborts
        && (y.tasks[k].TimerSleeping? || y.tasks[k].EipSleeping? || y.tasks[k].Polling?))
    ensures k in Next(y, st).tasks ==> Next(y, st).tasks[k] == y.tasks[k]
  {
    hide Enabled, SessionAfter, HistoryAfter, PipesAfter, After, Fresh, Aborts, Subject;
  }

  /** A registered child's pipe is empty and open. */
  lemma NewPipeIsEmpty(y: System, i: TaskId)
    requires Enabled(y, Register(i)) && y.tasks[i].gen == y.s.generation
    requires y.s.active && y.s.childPid == None
    ensures Next(y, Register(i)).pipes == y.pipes[y.next := Pipe([], [], 0, [], true)]
  {
    hide Changed, SessionAfter, HistoryAfter, ChangeOf;
  }
}
