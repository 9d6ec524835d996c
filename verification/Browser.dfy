/**
  The EIP browser when neither a manual start nor the opener's check, launch and mark is
  interrupted: it opens at most once per manual start.
*/
module Browser {
  import opened Wrappers
  import opened Sessions
  import opened Protocol
  import opened TaskFrames
  import opened StepEffects
  import opened Footprints
  import opened LockInvariants
  import opened LockTheorems
  import opened SessionMoves
  import opened RestrictedRuns
  import opened Readiness

  const OPENER := Restrictions(true, false, false, false, true, false)
  const FLAG := Restrictions(false, false, false, false, true, false)

  /** The tasks that may still open the browser. */
  predicate Opens(t: Task) {
    t.EipSpawning? || t.EipSleeping?
  }

  /** `eip_opened` says whether the browser was opened since the manual start. */
  predicate Flagged(s: Session, opens: nat) {
    s.active ==> (s.eipOpened <==> opens >= 1)
  }

  predicate Counted(s: Session, opens: nat) {
    opens <= 1 && Flagged(s, opens)
  }

  predicate OpenerFits(s: Session, t: Task) {
    Opens(t) && Current(s, t.gen) ==> s.ready && !s.eipOpened
  }

  ghost predicate OpenersFit(y: System) {
    forall i :: i in y.tasks ==> OpenerFits(y.s, y.tasks[i])
  }

  predicate SameOpener(i: TaskId, t: Task, j: TaskId, u: Task) {
    Opens(t) && Opens(u) && t.gen == u.gen ==> i == j
  }

  ghost predicate OneOpener(y: System) {
    forall i, j :: i in y.tasks && j in y.tasks ==> SameOpener(i, y.tasks[i], j, y.tasks[j])
  }

  ghost predicate OpenedOnce(y: System) {
    Counted(y.s, y.h.opens) && OpenersFit(y) && OneOpener(y)
  }

  /* ---- Steps that concern no opener ---- */

  /** What was opened stays opened while the session lasts, and readiness lasts as long as the
      generation. */
  predicate StaysOpened(s: Session, s2: Session) {
    && s.generation <= s2.generation
    && (s2.active ==> s.active && s2.eipOpened == s.eipOpened)
    && (s2.active && s2.generation == s.generation ==> s2.ready == s.ready)
  }

  lemma StepStaysOpened(y: System, st: Step)
    requires Enabled(y, st)
    requires !st.AcquireStart? && !st.SetUpStart? && !st.MarkReady? && !st.MarkEip?
    ensures StaysOpened(y.s, SessionAfter(y, st))
  {
    if Turns(st) {
      hide Enabled;
    } else {
      hide SessionAfter, Enabled;
      OthersKeepPhase(y, st);
      OthersKeepReady(y, st);
      OthersKeepOpened(y, st);
    }
  }

  lemma SparedOpeners(y: System, c: Change, z: System)
    requires OpenedOnce(y) && TokensBounded(y) && SameFamily(y, c, z, Openers)
    requires StaysOpened(y.s, z.s) && z.h.opens == y.h.opens
    ensures OpenedOnce(z)
  {
    forall i | i in z.tasks ensures OpenerFits(z.s, z.tasks[i]) {
      if FamilyOf(z.tasks[i]) == Openers {
        assert OpenerFits(y.s, y.tasks[i]) && TokenAtMost(y.tasks[i], y.s.generation);
      }
    }
    SparedOneOpener(y, c, z);
  }

  lemma SparedOneOpener(y: System, c: Change, z: System)
    requires OneOpener(y) && SameFamily(y, c, z, Openers)
    ensures OneOpener(z)
  {
    forall i, j | i in z.tasks && j in z.tasks ensures SameOpener(i, z.tasks[i], j, z.tasks[j]) {
      if FamilyOf(z.tasks[i]) == Openers && FamilyOf(z.tasks[j]) == Openers {
        assert SameOpener(i, y.tasks[i], j, y.tasks[j]);
      }
    }
  }

  lemma OtherStepKeepsOpened(y: System, st: Step, z: System)
    requires OpenedOnce(y) && TokensBounded(y) && Enabled(y, st)
    requires !st.AcquireStart? && !st.SetUpStart? && !st.MarkReady? && Actor(st) != Some(Openers)
    requires Moves(y, ChangeOf(y, st), z) && z.s == SessionAfter(y, st) && z.h == HistoryAfter(y, st)
    ensures OpenedOnce(z)
  {
    hide OpenedOnce, TokensBounded, Enabled, ChangeOf, SessionAfter, HistoryAfter, Moves, Spares,
      StaysOpened, SameFamily;
    StepStaysOpened(y, st);
    StepSpares(y, st, Openers);
    SparedFamily(y, ChangeOf(y, st), z, Openers);
    OthersLogNothing(y, st);
    SparedOpeners(y, ChangeOf(y, st), z);
  }

  /* ---- Steps of openers ---- */

  lemma SpawnKeepsOneOpener(y: System, i: TaskId, z: System)
    requires OneOpener(y) && i in y.tasks && y.tasks[i].EipSpawning? && y.next !in y.tasks
    requires var t := y.tasks[i];
      Moves(y, Change(Some(i), Some(EipArming(y.next, t.owner)), Some(EipSleeping(t.gen)), {}), z)
    ensures OneOpener(z)
  {
    forall a, b | a in z.tasks && b in z.tasks ensures SameOpener(a, z.tasks[a], b, z.tasks[b]) {
      var oa, ob := Source(y, i, a), Source(y, i, b);
      assert SameOpener(oa, y.tasks[oa], ob, y.tasks[ob]);
    }
  }

  lemma SpawnOpenerKeeps(y: System, i: TaskId, z: System)
    requires Numbered(y) && OpenedOnce(y) && Enabled(y, SpawnOpener(i))
    requires Moves(y, ChangeOf(y, SpawnOpener(i)), z)
    requires z.s == SessionAfter(y, SpawnOpener(i)) && z.h == HistoryAfter(y, SpawnOpener(i))
    ensures OpenedOnce(z)
  {
    hide Numbered, Enabled, ChangeOf, SessionAfter, HistoryAfter, OneOpener;
    SubjectIsThere(y, SpawnOpener(i));
    IdsBelow(y);
    SpawnOpenerDoes(y, i, y.tasks[i].gen, y.tasks[i].owner);
    assert OpenerFits(y.s, y.tasks[i]);
    SpawnKeepsOneOpener(y, i, z);
  }

  lemma ArmOpenerKeeps(y: System, i: TaskId, z: System)
    requires OpenedOnce(y) && Enabled(y, ArmOpener(i)) && Moves(y, ChangeOf(y, ArmOpener(i)), z)
    requires z.s == SessionAfter(y, ArmOpener(i)) && z.h == HistoryAfter(y, ArmOpener(i))
    ensures OpenedOnce(z)
  {
    hide Enabled, Aborts;
    EndingKeepsOneOpener(y, i, ChangeOf(y, ArmOpener(i)).aborts, z);
  }

  lemma EndingKeepsOneOpener(y: System, i: TaskId, aborts: set<TaskId>, z: System)
    requires OneOpener(y) && Moves(y, Change(Some(i), None, None, aborts), z)
    ensures OneOpener(z)
  {
    forall a, b | a in z.tasks && b in z.tasks ensures SameOpener(a, z.tasks[a], b, z.tasks[b]) {
      assert SameOpener(a, y.tasks[a], b, y.tasks[b]);
    }
  }

  /** A session becomes ready once per generation, so the opener it schedules is the only one. */
  lemma ReadyKeepsOneOpener(y: System, i: TaskId, c: Change, z: System)
    requires OpenedOnce(y) && i in y.tasks && y.tasks[i].MarkingReady?
    requires MayMarkReady(y.s, y.tasks[i].gen)
    requires c == Becoming(i, EipSpawning(y.tasks[i].gen, y.tasks[i].owner)) && Moves(y, c, z)
    ensures OneOpener(z)
  {
    forall a, b | a in z.tasks && b in z.tasks ensures SameOpener(a, z.tasks[a], b, z.tasks[b]) {
      assert SameOpener(a, y.tasks[a], b, y.tasks[b]);
      assert OpenerFits(y.s, y.tasks[a]) && OpenerFits(y.s, y.tasks[b]);
    }
  }

  lemma MarkReadyKeepsOpened(y: System, i: TaskId, z: System)
    requires OpenedOnce(y) && Enabled(y, MarkReady(i)) && Moves(y, ChangeOf(y, MarkReady(i)), z)
    requires z.s == SessionAfter(y, MarkReady(i)) && z.h == HistoryAfter(y, MarkReady(i))
    ensures OpenedOnce(z)
  {
    hide Enabled, ChangeOf, SessionAfter, HistoryAfter, OneOpener;
    SubjectIsThere(y, MarkReady(i));
    var t := y.tasks[i];
    MarkReadyDoes(y, i, t.gen, t.owner);
    if MayMarkReady(y.s, t.gen) && WantsEip(y.s) {
      ReadyKeepsOneOpener(y, i, ChangeOf(y, MarkReady(i)), z);
    } else {
      EndingKeepsOneOpener(y, i, {}, z);
    }
    forall k | k in z.tasks ensures OpenerFits(z.s, z.tasks[k]) {
      if k != i {
        assert OpenerFits(y.s, y.tasks[k]);
      }
    }
  }

  /** The browser is opened by the one opener of the generation, before it was opened. */
  lemma OpenKeepsOpened(y: System, i: TaskId, launched: bool, z: System)
    requires OpenedOnce(y) && Numbered(y) && MovesTo(y, OpenBrowser(i, launched), z)
    ensures OpenedOnce(z)
  {
    hide Run, Enabled, Numbered, OneOpener;
    SubjectIsThere(y, CheckEip(i));
    OpenAchieves(y, i, launched, z);
    EndingKeepsOneOpener(y, i, {}, z);
    assert OpenerFits(y.s, y.tasks[i]);
    forall k | k in z.tasks ensures OpenerFits(z.s, z.tasks[k]) {
      assert OpenerFits(y.s, y.tasks[k]);
      OneOpenerPair(y, i, k);
    }
  }

  lemma OneOpenerPair(y: System, i: TaskId, k: TaskId)
    requires OneOpener(y) && i in y.tasks && k in y.tasks
    ensures SameOpener(i, y.tasks[i], k, y.tasks[k])
  {
  }

  /* ---- Every move ---- */

  lemma SingleKeepsOpened(y: System, st: Step)
    requires Sound(y) && OpenedOnce(y) && Enabled(y, st) && Respects(OPENER, y, Single(st))
    ensures OpenedOnce(Next(y, st))
  {
    hide OpenedOnce, Enabled, Next, SessionAfter, HistoryAfter, ChangeOf, Moves, Numbered,
      TokensBounded;
    NextParts(y, st);
    if st.SpawnOpener? {
      SpawnOpenerKeeps(y, st.i, Next(y, st));
    } else if st.ArmOpener? {
      ArmOpenerKeeps(y, st.i, Next(y, st));
    } else if st.MarkReady? {
      MarkReadyKeepsOpened(y, st.i, Next(y, st));
    } else {
      OtherStepKeepsOpened(y, st, Next(y, st));
    }
  }

  lemma StartKeepsOpened(y: System, options: Options, z: System)
    requires Sound(y) && OpenedOnce(y) && MovesTo(y, StartSession(options), z)
    ensures OpenedOnce(z)
  {
    hide Run, Enabled, Numbered, Moves, OneOpener;
    StartAchieves(y, options, z);
    var c := MoveChange(y, StartSession(options));
    SparedFamily(y, c, z, Openers);
    SparedOneOpener(y, c, z);
    forall i | i in z.tasks ensures OpenerFits(z.s, z.tasks[i]) {
      if FamilyOf(z.tasks[i]) == Openers {
        assert TokenAtMost(y.tasks[i], y.s.generation);
      }
    }
  }

  lemma OpenedOnceKept(y: System, m: Move, z: System)
    requires Sound(y) && OpenedOnce(y) && Respects(OPENER, y, m) && MovesTo(y, m, z)
    ensures OpenedOnce(z)
  {
    hide OpenedOnce, Run, Slotted, TokensBounded, Numbered;
    match m
    case StartSession(options) => StartKeepsOpened(y, options, z);
    case OpenBrowser(i, launched) => OpenKeepsOpened(y, i, launched, z);
    case Single(st) => RunOne(y, st, z); SingleKeepsOpened(y, st);
    case _ =>
  }

  lemma OpenedOnceAlways(r: Restrictions, y: System)
    requires r.start && r.eip && ReachableUnder(r, y)
    ensures Sound(y) && OpenedOnce(y)
  {
    hide Sound, OpenedOnce, Respects, MovesTo, ReachableUnder;
    ReachableUnderLess(r, OPENER, y);
    InitiallyOpenedOnce();
    forall x, m, w | Sound(x) && OpenedOnce(x) && Respects(OPENER, x, m) && MovesTo(x, m, w)
      ensures OpenedOnce(w)
    {
      OpenedOnceKept(x, m, w);
    }
    HoldsAlways(OPENER, x => OpenedOnce(x), y);
  }

  lemma InitiallyOpenedOnce()
    ensures OpenedOnce(INITIAL)
  {
  }

  /* ---- The flag alone ---- */

  lemma StepKeepsFlag(y: System, st: Step)
    requires Flagged(y.s, y.h.opens) && Enabled(y, st) && !st.OpenEip? && !st.MarkEip?
    ensures Flagged(SessionAfter(y, st), HistoryAfter(y, st).opens)
  {
    if st.SetUpStart? {
      hide Enabled;
    } else {
      OthersLogNothing(y, st);
      hide HistoryAfter, Enabled;
      if !Turns(st) {
        hide SessionAfter;
        OthersKeepPhase(y, st);
        OthersKeepOpened(y, st);
      }
    }
  }

  lemma OpenKeepsFlag(y: System, i: TaskId, launched: bool, z: System)
    requires Numbered(y) && Flagged(y.s, y.h.opens) && MovesTo(y, OpenBrowser(i, launched), z)
    ensures Flagged(z.s, z.h.opens)
  {
    hide Run, Enabled, Numbered, Moves;
    OpenAchieves(y, i, launched, z);
  }

  lemma FlaggedKept(y: System, m: Move, z: System)
    requires Sound(y) && Flagged(y.s, y.h.opens) && Respects(FLAG, y, m) && MovesTo(y, m, z)
    ensures Flagged(z.s, z.h.opens)
  {
    hide Flagged, Run, Enabled, Slotted, TokensBounded, Numbered, Moves, SessionAfter, HistoryAfter,
      Dated, AnsweredOnce, AttemptsCounted;
    match m
    case OpenBrowser(i, launched) => OpenKeepsFlag(y, i, launched, z);
    case Single(st) =>
      SingleAchieves(y, st, z);
      StepKeepsFlag(y, st);
    case _ =>
  }

  lemma FlaggedAlways(r: Restrictions, y: System)
    requires r.eip && ReachableUnder(r, y)
    ensures Flagged(y.s, y.h.opens)
  {
    hide Sound, Flagged, Respects, MovesTo, ReachableUnder;
    ReachableUnderLess(r, FLAG, y);
    InitiallyOpenedOnce();
    forall x, m, w | Sound(x) && Flagged(x.s, x.h.opens) && Respects(FLAG, x, m) && MovesTo(x, m, w)
      ensures Flagged(w.s, w.h.opens)
    {
      FlaggedKept(x, m, w);
    }
    HoldsAlways(FLAG, (x: System) => Flagged(x.s, x.h.opens), y);
  }
}
