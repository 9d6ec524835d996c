/**
  Restricted runs as runs: the L1 theorems hold of them, and what every move keeps holds of
  every state they reach.
*/
module RestrictedRuns {
  import opened Protocol
  import opened LockTheorems
  import opened SessionMoves

  /** Restricted runs are runs, so every L1 theorem holds of them. */
  lemma ReachableUnderIsReachable(r: Restrictions, y: System)
    requires ReachableUnder(r, y)
    ensures Reachable(y)
  {
    hide Run, RestrictedRun;
    var moves :| RestrictedRun(r, INITIAL, moves, y);
    RestrictedRunIsRun(r, INITIAL, moves, y);
  }

  /** Without restrictions the runs are those of level L1. */
  lemma UnrestrictedIsReachable(y: System)
    ensures ReachableUnder(NONE, y) <==> Reachable(y)
  {
    hide Run, RestrictedRun;
    if ReachableUnder(NONE, y) {
      ReachableUnderIsReachable(NONE, y);
    } else if Reachable(y) {
      var steps :| Run(INITIAL, steps, y);
      NothingMoves(NONE, y);
      Ungrouped(NONE, INITIAL, steps, y, [], y);
    }
  }

  lemma NothingMoves(r: Restrictions, y: System)
    ensures RestrictedRun(r, y, [], y)
  {
  }

  lemma {:induction false} HoldsAlong(r: Restrictions, keeps: System -> bool, y: System,
                                      moves: seq<Move>, z: System)
    requires forall x, m, w ::
      Sound(x) && keeps(x) && Respects(r, x, m) && MovesTo(x, m, w) ==> keeps(w)
    requires Sound(y) && keeps(y) && RestrictedRun(r, y, moves, z)
    ensures Sound(z) && keeps(z)
    decreases |moves|
  {
    hide Sound, Respects, Feasible, Run;
    if moves != [] {
      var x :| Respects(r, y, moves[0]) && MovesTo(y, moves[0], x) && RestrictedRun(r, x, moves[1..], z);
      SoundAlong(y, Expansion(y, moves[0]), x);
      HoldsAlong(r, keeps, x, moves[1..], z);
    }
  }

  /** What holds at the start and is kept by every move holds in every reachable state. */
  lemma HoldsAlways(r: Restrictions, keeps: System -> bool, y: System)
    requires keeps(INITIAL)
    requires forall x, m, w ::
      Sound(x) && keeps(x) && Respects(r, x, m) && MovesTo(x, m, w) ==> keeps(w)
    requires ReachableUnder(r, y)
    ensures Sound(y) && keeps(y)
  {
    hide Sound, Respects, MovesTo, RestrictedRun;
    InitiallySound();
    var moves :| RestrictedRun(r, INITIAL, moves, y);
    HoldsAlong(r, keeps, INITIAL, moves, y);
  }
}
