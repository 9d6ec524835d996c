/**
  Readiness waits when a manual start is not interrupted: each generation begins at most one,
  and at most one task at a time serves it.
*/
module Readiness {
  import opened Wrappers
  import opened Sessions
  import opened Protocol
  import opened TaskFrames
  import opened StepEffects
  import opened Footprints
  import opened LockInvariants
  import opened LockTheorems
  import opened SessionMoves
  import opened RestrictedRuns

  const START := Restrictions(true, false, false, false, false, false)

  /** The tasks through which one readiness wait passes, one at a time. */
  predicate Awaits(t: Task) {
    t.Waiting? || t.Polling? || t.MarkingReady?
  }

  predicate Current(s: Session, gen: nat) {
    s.active && gen == s.generation
  }

  ghost predicate Increasing(q: seq<nat>) {
    forall i, j :: 0 <= i < j < |q| ==> q[i] < q[j]
  }

  /* ---- What is kept ---- */

  ghost predicate Logged(s: Session, waits: seq<nat>) {
    && Increasing(waits)
    && (forall g <- waits ::
          g <= s.generation && (Current(s, g) ==> s.readyWaitGen == s.generation || s.ready))
  }

  predicate WaitFits(s: Session, waits: seq<nat>, t: Task) {
    && (FamilyOf(t) == Waits ==> t.gen in waits)
    && (Awaits(t) && Current(s, t.gen) ==> s.readyWaitGen == s.generation && !s.ready)
  }

  ghost predicate AllFit(y: System) {
    forall i :: i in y.tasks ==> WaitFits(y.s, y.h.waits, y.tasks[i])
  }

  predicate SameWait(i: TaskId, t: Task, j: TaskId, u: Task) {
    Awaits(t) && Awaits(u) && t.gen == u.gen ==> i == j
  }

  ghost predicate Unique(y: System) {
    forall i, j :: i in y.tasks && j in y.tasks ==> SameWait(i, y.tasks[i], j, y.tasks[j])
  }

  ghost predicate Waited(y: System) {
    Logged(y.s, y.h.waits) && AllFit(y) && Unique(y)
  }

  /* ---- The session ---- */

  /** Within one generation of an active session, readiness stays as it is; a new generation
      is not ready and has not been waited for. */
  predicate Steady(s: Session, s2: Session) {
    && s.generation <= s2.generation
    && Calm(s2)
    && (s2.active && s2.generation == s.generation ==>
          s.active && s2.ready == s.ready && s2.readyWaitGen == s.readyWaitGen)
    && (s2.active && s.generation < s2.generation ==>
          !s2.ready && s2.readyWaitGen < s2.generation)
  }

  lemma StepIsSteady(y: System, st: Step)
    requires Enabled(y, st) && Calm(y.s)
    requires !st.AcquireStart? && !st.SetUpStart? && !st.MarkReady? && !st.BeginWait?
    ensures Steady(y.s, SessionAfter(y, st))
  {
    if Turns(st) {
      hide Enabled;
    } else {
      hide SessionAfter, Enabled;
      OthersKeepPhase(y, st);
      OthersKeepReady(y, st);
      OthersKeepWaitGen(y, st);
    }
  }

  lemma StartIsSteady(s: Session, options: Options)
    ensures Steady(s, SetUp(Acquired(s), options))
  {
  }

  /* ---- Moves that concern no wait ---- */

  lemma LoggedSteadily(s: Session, s2: Session, waits: seq<nat>)
    requires Logged(s, waits) && Steady(s, s2)
    ensures Logged(s2, waits)
  {
  }

  lemma FitsSteadily(s: Session, s2: Session, waits: seq<nat>, t: Task)
    requires WaitFits(s, waits, t) && TokenAtMost(t, s.generation) && Steady(s, s2)
    ensures WaitFits(s2, waits, t)
  {
  }

  lemma SparedWaits(y: System, c: Change, z: System)
    requires Waited(y) && TokensBounded(y) && Moves(y, c, z) && Spares(y, c, Waits)
    requires Steady(y.s, z.s) && z.h.waits == y.h.waits
    ensures Waited(z)
  {
    SparedFamily(y, c, z, Waits);
    LoggedSteadily(y.s, z.s, y.h.waits);
    hide Moves, Spares, Steady, Logged, Calm;
    forall i | i in z.tasks ensures WaitFits(z.s, z.h.waits, z.tasks[i]) {
      if FamilyOf(z.tasks[i]) == Waits {
        FitsSteadily(y.s, z.s, y.h.waits, y.tasks[i]);
      }
    }
    SparedUnique(y, c, z);
  }

  lemma SparedUnique(y: System, c: Change, z: System)
    requires Unique(y) && SameFamily(y, c, z, Waits)
    ensures Unique(z)
  {
    forall i, j | i in z.tasks && j in z.tasks ensures SameWait(i, z.tasks[i], j, z.tasks[j]) {
      if FamilyOf(z.tasks[i]) == Waits && FamilyOf(z.tasks[j]) == Waits {
        assert SameWait(i, y.tasks[i], j, y.tasks[j]);
      }
    }
  }

  /* ---- A wait begins ---- */

  lemma IncreasingExtends(q: seq<nat>, g: nat)
    requires Increasing(q) && forall x <- q :: x < g
    ensures Increasing(q + [g])
  {
    forall i, j | 0 <= i < j < |q + [g]| ensures (q + [g])[i] < (q + [g])[j] {
      assert q[i] in q;
    }
  }

  /** A generation that may still begin a wait has begun none. */
  lemma NotWaitedYet(s: Session, waits: seq<nat>)
    requires Logged(s, waits) && MayBeginWait(s)
    ensures forall g <- waits :: g < s.generation
  {
  }

  lemma BeginWaitKeeps(y: System, c: TaskId, z: System)
    requires Waited(y) && MayBeginWait(y.s)
    requires Moves(y, Appearing(Waiting(y.s.generation, c)), z)
    requires z.s == WaitBegun(y.s) && z.h.waits == y.h.waits + [y.s.generation]
    ensures Waited(z)
  {
    NotWaitedYet(y.s, y.h.waits);
    IncreasingExtends(y.h.waits, y.s.generation);
    hide Increasing;
    forall i, j | i in z.tasks && j in z.tasks ensures SameWait(i, z.tasks[i], j, z.tasks[j]) {
      if i in y.tasks && j in y.tasks {
        assert SameWait(i, y.tasks[i], j, y.tasks[j]);
      }
    }
  }

  /* ---- A wait is passed on ---- */

  /** The subject ends, or hands its wait to itself or to the one task that it spawns. */
  predicate Passes(t: Task, c: Change) {
    && FamilyOf(t) == Waits
    && (c.after.Some? && FamilyOf(c.after.value) == Waits ==> c.after.value.gen == t.gen)
    && (c.spawned.Some? && FamilyOf(c.spawned.value) == Waits ==> c.spawned.value.gen == t.gen)
    && (c.after.Some? && Awaits(c.after.value) ==> Awaits(t))
    && (c.spawned.Some? && Awaits(c.spawned.value) ==>
          Awaits(t) && !(c.after.Some? && Awaits(c.after.value)))
  }

  function Source(y: System, i: TaskId, k: TaskId): TaskId {
    if k == y.next then i else k
  }

  /** A task that awaits afterwards continues one that awaited the same generation. */
  lemma Descends(y: System, i: TaskId, c: Change, z: System, k: TaskId)
    requires c.subject == Some(i) && Moves(y, c, z) && Passes(y.tasks[i], c)
    requires k in z.tasks && Awaits(z.tasks[k]) && y.next !in y.tasks
    ensures var o := Source(y, i, k);
      o in y.tasks && Awaits(y.tasks[o]) && y.tasks[o].gen == z.tasks[k].gen
    ensures k == i ==> c.after.Some? && Awaits(c.after.value)
    ensures k == y.next ==> !(c.after.Some? && Awaits(c.after.value))
  {
  }

  lemma PassingKeepsUnique(y: System, i: TaskId, c: Change, z: System)
    requires Unique(y) && c.subject == Some(i) && Moves(y, c, z)
    requires forall k :: k in y.tasks ==> k < y.next
    requires Passes(y.tasks[i], c)
    ensures Unique(z)
  {
    hide Moves, Passes;
    forall a, b | a in z.tasks && b in z.tasks ensures SameWait(a, z.tasks[a], b, z.tasks[b]) {
      if Awaits(z.tasks[a]) && Awaits(z.tasks[b]) {
        Descends(y, i, c, z, a);
        Descends(y, i, c, z, b);
        var oa, ob := Source(y, i, a), Source(y, i, b);
        assert SameWait(oa, y.tasks[oa], ob, y.tasks[ob]);
      }
    }
  }

  lemma PassingKeepsFit(y: System, i: TaskId, c: Change, z: System)
    requires AllFit(y) && c.subject == Some(i) && Moves(y, c, z) && Passes(y.tasks[i], c)
    requires z.h.waits == y.h.waits && z.s.ready == y.s.ready && z.s.active == y.s.active
    requires z.s.generation == y.s.generation && z.s.readyWaitGen == y.s.readyWaitGen
    ensures AllFit(z)
  {
    assert WaitFits(y.s, y.h.waits, y.tasks[i]);
  }

  lemma WaitStepPasses(y: System, st: Step)
    requires Enabled(y, st) && Actor(st) == Some(Waits)
    ensures var c := ChangeOf(y, st);
      c.subject.Some? && c.subject.value in y.tasks && Passes(y.tasks[c.subject.value], c)
  {
    hide SessionAfter, Aborts, ContinuesWait, MayMarkReady;
  }

  lemma WaitStepKeeps(y: System, st: Step, z: System)
    requires Waited(y) && Calm(y.s) && Enabled(y, st) && Actor(st) == Some(Waits) && !st.MarkReady?
    requires forall k :: k in y.tasks ==> k < y.next
    requires Moves(y, ChangeOf(y, st), z) && z.s == SessionAfter(y, st) && z.h == HistoryAfter(y, st)
    ensures Waited(z)
  {
    hide SessionAfter, HistoryAfter, ChangeOf, Enabled, Moves, Passes, AllFit, Unique;
    StepIsSteady(y, st);
    OthersKeepPhase(y, st);
    OthersKeepReady(y, st);
    OthersKeepWaitGen(y, st);
    OthersLogNothing(y, st);
    WaitStepPasses(y, st);
    var c := ChangeOf(y, st);
    PassingKeepsUnique(y, c.subject.value, c, z);
    PassingKeepsFit(y, c.subject.value, c, z);
  }

  /** When the session becomes ready, the task that says so was the only one awaiting it. */
  lemma MarkReadyKeeps(y: System, i: TaskId, z: System)
    requires Waited(y) && i in y.tasks && y.tasks[i].MarkingReady?
    requires forall k :: k in y.tasks ==> k < y.next
    requires var t := y.tasks[i];
      var marked := MayMarkReady(y.s, t.gen);
      && z.s == (if marked then MarkedReady(y.s) else y.s) && z.h.waits == y.h.waits
      && Moves(y, Change(Some(i), OnlyIf(marked && WantsEip(y.s), EipSpawning(t.gen, t.owner)), None, {}), z)
    ensures Waited(z)
  {
    var t := y.tasks[i];
    var c := Change(Some(i), OnlyIf(MayMarkReady(y.s, t.gen) && WantsEip(y.s), EipSpawning(t.gen, t.owner)), None, {});
    PassingKeepsUnique(y, i, c, z);
    forall k | k in z.tasks ensures WaitFits(z.s, z.h.waits, z.tasks[k]) {
      if k != i {
        assert SameWait(i, t, k, y.tasks[k]) && WaitFits(y.s, y.h.waits, y.tasks[k]);
      }
    }
  }

  /* ---- Every move ---- */

  lemma IdsBelow(y: System)
    requires Numbered(y)
    ensures forall k :: k in y.tasks ==> k < y.next
  {
  }

  lemma SpareStepKeeps(y: System, st: Step, z: System)
    requires Waited(y) && Calm(y.s) && TokensBounded(y) && Enabled(y, st) && Actor(st) != Some(Waits)
    requires !st.AcquireStart? && !st.SetUpStart? && !st.BeginWait?
    requires Moves(y, ChangeOf(y, st), z) && z.s == SessionAfter(y, st) && z.h == HistoryAfter(y, st)
    ensures Waited(z)
  {
    hide Waited, Enabled, SessionAfter, HistoryAfter, ChangeOf, Moves, TokensBounded, Spares, Steady;
    StepIsSteady(y, st);
    StepSpares(y, st, Waits);
    OthersLogNothing(y, st);
    SparedWaits(y, ChangeOf(y, st), z);
  }

  lemma BeginStepKeeps(y: System, c: TaskId, z: System)
    requires Waited(y) && Enabled(y, BeginWait(c)) && Moves(y, ChangeOf(y, BeginWait(c)), z)
    requires z.s == SessionAfter(y, BeginWait(c)) && z.h == HistoryAfter(y, BeginWait(c))
    ensures Waited(z)
  {
    hide Waited, Enabled, SessionAfter, HistoryAfter, ChangeOf, Moves;
    BeginWaitIsAllowed(y, c);
    BeginWaitDoes(y, c);
    BeginWaitKeeps(y, c, z);
  }

  lemma MarkStepKeeps(y: System, i: TaskId, z: System)
    requires Waited(y) && Enabled(y, MarkReady(i)) && Moves(y, ChangeOf(y, MarkReady(i)), z)
    requires forall k :: k in y.tasks ==> k < y.next
    requires z.s == SessionAfter(y, MarkReady(i)) && z.h == HistoryAfter(y, MarkReady(i))
    ensures Waited(z)
  {
    hide Waited, Enabled, SessionAfter, HistoryAfter, ChangeOf, Moves;
    SubjectIsThere(y, MarkReady(i));
    MarkReadyDoes(y, i, y.tasks[i].gen, y.tasks[i].owner);
    MarkReadyKeeps(y, i, z);
  }

  lemma SingleKeepsWaits(y: System, st: Step)
    requires Sound(y) && Waited(y) && Enabled(y, st) && !st.AcquireStart? && !st.SetUpStart?
    ensures Waited(Next(y, st))
  {
    hide Numbered, Waited, Enabled, Next, SessionAfter, HistoryAfter, ChangeOf, Moves, Actor,
      TokensBounded;
    NextParts(y, st);
    IdsBelow(y);
    SoundIsCalm(y);
    if st.BeginWait? {
      BeginStepKeeps(y, st.i, Next(y, st));
    } else if st.MarkReady? {
      MarkStepKeeps(y, st.i, Next(y, st));
    } else if Actor(st) == Some(Waits) {
      WaitStepKeeps(y, st, Next(y, st));
    } else {
      SpareStepKeeps(y, st, Next(y, st));
    }
  }

  lemma BeginWaitIsAllowed(y: System, c: TaskId)
    requires Enabled(y, BeginWait(c))
    ensures Supervised(y, c) && MayBeginWait(y.s)
  {
  }

  lemma StartKeepsWaits(y: System, options: Options, z: System)
    requires Sound(y) && Waited(y) && MovesTo(y, StartSession(options), z)
    ensures Waited(z)
  {
    hide Run, Waited, Moves, Enabled;
    StartAchieves(y, options, z);
    StartIsSteady(y.s, options);
    SparedWaits(y, MoveChange(y, StartSession(options)), z);
  }

  lemma WaitedKept(y: System, m: Move, z: System)
    requires Sound(y) && Waited(y) && Respects(START, y, m) && MovesTo(y, m, z)
    ensures Waited(z)
  {
    hide Sound, Waited, Run;
    match m
    case StartSession(options) => StartKeepsWaits(y, options, z);
    case Single(st) => RunOne(y, st, z); SingleKeepsWaits(y, st);
    case _ =>
  }

  lemma WaitedAlways(r: Restrictions, y: System)
    requires r.start && ReachableUnder(r, y)
    ensures Sound(y) && Waited(y)
  {
    hide Sound, Waited, Respects, MovesTo, ReachableUnder;
    ReachableUnderLess(r, START, y);
    InitiallyWaited();
    forall x, m, w | Sound(x) && Waited(x) && Respects(START, x, m) && MovesTo(x, m, w)
      ensures Waited(w)
    {
      WaitedKept(x, m, w);
    }
    HoldsAlways(START, x => Waited(x), y);
  }

  lemma InitiallyWaited()
    ensures Waited(INITIAL)
  {
  }
}
