/**
  The options of a session: what a retry carries and what decides about the EIP browser are the
  options of the start that set the session up, when a manual start is not interrupted and a
  retry stores its options right after its second check.
*/
module LaunchOptions {
  import opened Wrappers
  import opened Sessions
  import opened Protocol
  import opened TaskFrames
  import opened StepEffects
  import opened Footprints
  import opened LockInvariants
  import opened LockTheorems
  import opened SessionMoves
  import opened RestrictedRuns
  import opened Readiness

  const STORE := Restrictions(true, false, false, false, false, true)

  predicate CarriesOptions(t: Task) {
    t.RetryChecked? || t.RetryAnnounced?
  }

  /* ---- What a retry carries ---- */

  predicate RetryFits(s: Session, options: Options, t: Task) {
    CarriesOptions(t) && Current(s, t.gen) ==> t.options == options
  }

  ghost predicate RetriesFit(y: System) {
    forall i :: i in y.tasks ==> RetryFits(y.s, y.h.options, y.tasks[i])
  }

  /** Only a new start makes a session active or its options others. */
  lemma StillCurrent(y: System, st: Step, gen: nat)
    requires Enabled(y, st) && !st.AcquireStart? && !st.SetUpStart?
    requires gen <= y.s.generation && Current(SessionAfter(y, st), gen)
    ensures Current(y.s, gen)
  {
    if Turns(st) {
      hide Enabled;
    } else {
      hide SessionAfter, Enabled;
      OthersKeepPhase(y, st);
    }
  }

  /** Options are read by the first check, and handed on by the second. */
  lemma AfterCarries(y: System, st: Step)
    requires Enabled(y, st)
    ensures var c := ChangeOf(y, st);
      && (c.after.Some? && CarriesOptions(c.after.value) ==>
            || (st.CheckRetry? && c.after.value.options == y.s.lastOptions)
            || (CarriesOptions(y.tasks[c.subject.value])
                && c.after.value.options == y.tasks[c.subject.value].options
                && c.after.value.gen == y.tasks[c.subject.value].gen))
      && (c.spawned.Some? ==> !CarriesOptions(c.spawned.value))
  {
    hide SessionAfter, Aborts, SpawnGuardViolated, MayMarkReady, EipValid, RetryValid,
      ContinuesWait, ExitDecision;
  }

  lemma SingleKeepsRetries(y: System, st: Step, z: System)
    requires RetriesFit(y) && Remembered(y) && TokensBounded(y) && TokensBounded(z)
    requires Numbered(y) && Enabled(y, st) && !st.AcquireStart? && !st.SetUpStart?
    requires z == Next(y, st)
    ensures RetriesFit(z)
  {
    hide Enabled, Next, SessionAfter, HistoryAfter, ChangeOf, Numbered;
    NextParts(y, st);
    OthersLogNothing(y, st);
    AfterCarries(y, st);
    AfterToken(y, st);
    forall k | k in z.tasks ensures RetryFits(z.s, z.h.options, z.tasks[k]) {
      if CarriesOptions(z.tasks[k]) && Current(z.s, z.tasks[k].gen) {
        TokenWas(y, st, z, k);
        StillCurrent(y, st, z.tasks[k].gen);
      }
    }
  }

  lemma AfterToken(y: System, st: Step)
    requires Enabled(y, st) && TokensBounded(y)
    ensures var c := ChangeOf(y, st);
      c.after.Some? ==> TokenAtMost(c.after.value, y.s.generation)
  {
    hide Enabled, ChangeOf, TokenAtMost;
    TokenOfChange(y, st);
  }

  lemma TokenWas(y: System, st: Step, z: System, k: TaskId)
    requires Enabled(y, st) && TokensBounded(y) && Moves(y, ChangeOf(y, st), z)
    requires k in z.tasks && CarriesOptions(z.tasks[k])
    ensures z.tasks[k].gen <= y.s.generation
  {
    hide Enabled, ChangeOf;
    AfterToken(y, st);
    AfterCarries(y, st);
    if k in y.tasks && y.tasks[k] == z.tasks[k] {
      assert TokenAtMost(y.tasks[k], y.s.generation);
    }
  }

  lemma StartKeepsRetries(y: System, options: Options, z: System)
    requires Sound(y) && RetriesFit(y) && MovesTo(y, StartSession(options), z)
    ensures RetriesFit(z)
  {
    hide Run, Enabled, Numbered, Moves;
    StartAchieves(y, options, z);
    var c := MoveChange(y, StartSession(options));
    AttemptsAreOlder(y, options, z);
  }

  lemma AttemptsAreOlder(y: System, options: Options, z: System)
    requires TokensBounded(y) && Feasible(y, StartSession(options))
    requires Moves(y, MoveChange(y, StartSession(options)), z)
    ensures forall k :: k in z.tasks && CarriesOptions(z.tasks[k]) ==>
      z.tasks[k].gen <= y.s.generation
  {
    hide Enabled;
    forall k | k in z.tasks && CarriesOptions(z.tasks[k]) ensures z.tasks[k].gen <= y.s.generation {
      assert TokenAtMost(y.tasks[k], y.s.generation);
    }
  }

  lemma RetriesKept(y: System, m: Move, z: System)
    requires Sound(y) && RetriesFit(y) && Respects(START, y, m) && MovesTo(y, m, z)
    ensures RetriesFit(z)
  {
    hide RetriesFit, Run, Numbered, Slotted, TokensBounded, Dated, AnsweredOnce, AttemptsCounted;
    SoundAlong(y, Expansion(y, m), z);
    match m
    case StartSession(options) => StartKeepsRetries(y, options, z);
    case Single(st) => RunOne(y, st, z); SingleKeepsRetries(y, st, z);
    case _ =>
  }

  lemma RetriesFitAlways(r: Restrictions, y: System)
    requires r.start && ReachableUnder(r, y)
    ensures RetriesFit(y)
  {
    hide Sound, RetriesFit, Respects, MovesTo, ReachableUnder;
    ReachableUnderLess(r, START, y);
    InitiallyRetriesFit();
    forall x, m, w | Sound(x) && RetriesFit(x) && Respects(START, x, m) && MovesTo(x, m, w)
      ensures RetriesFit(w)
    {
      RetriesKept(x, m, w);
    }
    HoldsAlways(START, x => RetriesFit(x), y);
  }

  lemma InitiallyRetriesFit()
    ensures RetriesFit(INITIAL)
  {
  }

  /* ---- What the session stores ---- */

  ghost predicate Stored(y: System) {
    RetriesFit(y) && y.s.eipOptions == y.h.options
  }

  lemma NoMoreCarriers(y: System, c: Change, z: System)
    requires RetriesFit(y) && Moves(y, c, z) && c.spawned.None?
    requires c.after.Some? ==> !CarriesOptions(c.after.value)
    requires z.s.active == y.s.active && z.s.generation == y.s.generation
    requires z.h.options == y.h.options
    ensures RetriesFit(z)
  {
    forall k | k in z.tasks ensures RetryFits(z.s, z.h.options, z.tasks[k]) {
      if k in y.tasks && y.tasks[k] == z.tasks[k] {
        assert RetryFits(y.s, y.h.options, y.tasks[k]);
      }
    }
  }

  lemma GoAheadStores(y: System, i: TaskId, z: System)
    requires Sound(y) && Stored(y) && MovesTo(y, GoAhead(i), z)
    ensures Stored(z)
  {
    hide Run, Enabled, Numbered, TokensBounded, Slotted, Moves, RetriesFit;
    SubjectIsThere(y, RecheckRetry(i));
    GoAheadAchieves(y, i, z);
    RetryOf(y, i);
    NoMoreCarriers(y, MoveChange(y, GoAhead(i)), z);
  }

  lemma RetryOf(y: System, i: TaskId)
    requires RetriesFit(y) && i in y.tasks
    ensures RetryFits(y.s, y.h.options, y.tasks[i])
  {
  }

  lemma StartStores(y: System, options: Options, z: System)
    requires Sound(y) && Stored(y) && MovesTo(y, StartSession(options), z)
    ensures Stored(z)
  {
    hide Run, Enabled, Numbered, TokensBounded, Slotted, Moves;
    StartAchieves(y, options, z);
    StartKeepsRetries(y, options, z);
  }

  lemma SingleStores(y: System, st: Step)
    requires Sound(y) && Stored(y) && Enabled(y, st)
    requires !st.AcquireStart? && !st.SetUpStart? && !st.PrepareRetry?
    ensures Stored(Next(y, st))
  {
    SoundKept(y, st);
    hide Enabled, Next, SessionAfter, HistoryAfter, ChangeOf, Numbered, Slotted, TokensBounded,
      RetriesFit;
    SingleKeepsRetries(y, st, Next(y, st));
    NextParts(y, st);
    OthersKeepEipOptions(y, st);
    OthersLogNothing(y, st);
  }

  lemma StoredKept(y: System, m: Move, z: System)
    requires Sound(y) && Stored(y) && Respects(STORE, y, m) && MovesTo(y, m, z)
    ensures Stored(z)
  {
    hide Sound, Stored, Run;
    match m
    case StartSession(options) => StartStores(y, options, z);
    case GoAhead(i) => GoAheadStores(y, i, z);
    case Single(st) => RunOne(y, st, z); SingleStores(y, st);
    case _ =>
  }

  lemma StoredAlways(r: Restrictions, y: System)
    requires r.start && r.retry && ReachableUnder(r, y)
    ensures y.s.eipOptions == y.h.options
  {
    hide Sound, RetriesFit, Respects, MovesTo, ReachableUnder;
    ReachableUnderLess(r, STORE, y);
    InitiallyRetriesFit();
    forall x, m, w | Sound(x) && Stored(x) && Respects(STORE, x, m) && MovesTo(x, m, w)
      ensures Stored(w)
    {
      StoredKept(x, m, w);
    }
    HoldsAlways(STORE, x => Stored(x), y);
  }
}
