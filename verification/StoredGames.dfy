/** What holds of the snapshots and prisoner counts a game stores, after any run of plays, undos, navigations,
    branches and resignations. */
module StoredGames {
  import opened Chains
  import opened Boards
  import opened Lines
  import opened History
  import opened PlyCaches
  import opened FirstSeen

  /** What is stored for a ply is the rules folded over setup and the moves before it, which are well played. */
  lemma StoredIsReplayed(start: View, ops: seq<Op>, k: nat)
    requires Shaped(start) && Consistent(start) && k < |Run(start, ops).c.snapshots|
    ensures var v := Run(start, ops);
            && v.st.setup == start.st.setup && v.st.setup.Ok()
            && k <= |v.st.moves| && WellPlayed(v.st.setup, v.st.moves)
            && |v.c.prisoners| == |v.c.snapshots| == |v.st.moves| + 1
            && Position(v.c.snapshots[k], v.c.prisoners[k]) == After(v.st.setup, v.st.moves[..k])
  {
    hide Run, After, IsFirstSeen, Situations, LegalAt;
    RunStaysConsistent(start, ops);
  }

  /** If every chain of the start has a liberty, so has every chain of every stored position. */
  lemma StoredAreAlive(start: View, ops: seq<Op>, k: nat)
    requires Shaped(start) && Consistent(start) && Alive(start.st.setup.size, Start(start.st.setup))
    requires k < |Run(start, ops).c.snapshots|
    ensures |Run(start, ops).c.snapshots[k]| == start.st.setup.size * start.st.setup.size
    ensures Alive(start.st.setup.size, Run(start, ops).c.snapshots[k])
  {
    hide Run, Consistent, Shaped, Alive, Start, LegalAt;
    StoredIsReplayed(start, ops, k);
    var u, ms := start.st.setup, Run(start, ops).st.moves;
    PrefixWellPlayed(u, ms, k);
    LibertiesForEver(u, ms[..k]);
  }

  /** Stones on a stored board plus stones of that colour held prisoner: those the game started with plus those
      played before that ply. */
  lemma StoredStonesAreConserved(start: View, ops: seq<Op>, k: nat, c: Colour)
    requires Shaped(start) && Consistent(start) && k < |Run(start, ops).c.snapshots|
    ensures var v := Run(start, ops);
            && k < |v.c.prisoners| && k <= |v.st.moves|
            && |StonesOf(v.c.snapshots[k], c)| + v.c.prisoners[k].Of(Opponent(c))
               == |StonesOf(Start(start.st.setup), c)| + StoneMoves(v.st.moves[..k], c)
  {
    hide Run, Consistent, Shaped, Start, After, StonesOf, StoneMoves, LegalAt;
    StoredIsReplayed(start, ops, k);
    var u, ms := start.st.setup, Run(start, ops).st.moves;
    PrefixWellPlayed(u, ms, k);
    StonesConserved(u, ms[..k], c);
  }

  /** Under simple ko no stored stone move gives the position stored two plies before. */
  lemma StoredSimpleKo(start: View, ops: seq<Op>, n: nat)
    requires Shaped(start) && Consistent(start) && start.st.setup.rules.ko.SimpleKo?
    requires 0 < n < |Run(start, ops).st.moves| && Run(start, ops).st.moves[n].point.Some?
    ensures var q := Run(start, ops).c.snapshots; n + 1 < |q| && q[n + 1] != q[n - 1]
  {
    hide Run, Consistent, Shaped, After, LegalAt;
    RunIsShaped(start, ops);
    StoredIsReplayed(start, ops, n + 1);
    StoredIsReplayed(start, ops, n - 1);
    SimpleKoHolds(start.st.setup, Run(start, ops).st.moves, n);
  }

  lemma RunIsShaped(start: View, ops: seq<Op>)
    requires Shaped(start)
    ensures |Run(start, ops).c.snapshots| == |Run(start, ops).st.moves| + 1
  {
    assert Shaped(Run(start, ops));
  }

  /** Under positional superko the snapshot after a stone move differs from every earlier one. */
  lemma StoredPositionalSuperko(start: View, ops: seq<Op>, k: nat, n: nat)
    requires Shaped(start) && Consistent(start) && start.st.setup.rules.ko.PositionalSuperko?
    requires k <= n < |Run(start, ops).st.moves| && Run(start, ops).st.moves[n].point.Some?
    ensures var q := Run(start, ops).c.snapshots; n + 1 < |q| && q[n + 1] != q[k]
  {
    hide Run, Consistent, Shaped, After, LegalAt;
    RunIsShaped(start, ops);
    StoredIsReplayed(start, ops, n + 1);
    StoredIsReplayed(start, ops, k);
    PositionalSuperkoHolds(start.st.setup, Run(start, ops).st.moves, k, n);
  }

  /** Under situational superko the snapshot after a stone move differs from every earlier one with the same
      player to move. */
  lemma StoredSituationalSuperko(start: View, ops: seq<Op>, k: nat, n: nat)
    requires Shaped(start) && Consistent(start) && start.st.setup.rules.ko.SituationalSuperko?
    requires k <= n < |Run(start, ops).st.moves| && Run(start, ops).st.moves[n].point.Some?
    ensures var v := Run(start, ops);
            && n + 1 < |v.c.snapshots|
            && (v.c.snapshots[n + 1] != v.c.snapshots[k]
                || ToPlay(start.st.setup.first, v.st.moves[..n + 1]) != ToPlay(start.st.setup.first, v.st.moves[..k]))
  {
    hide Run, Consistent, Shaped, After, LegalAt, ToPlay;
    RunIsShaped(start, ops);
    StoredIsReplayed(start, ops, n + 1);
    StoredIsReplayed(start, ops, k);
    SituationalSuperkoHolds(start.st.setup, Run(start, ops).st.moves, k, n);
  }

  /** A positional-superko game, whatever its cap on moves, never stores as many stone moves as its board has
      positions; a situational one never twice as many. */
  lemma StoredGameIsBounded(start: View, ops: seq<Op>)
    requires Shaped(start) && Consistent(start)
    ensures var moves := StoneMoves(Run(start, ops).st.moves, Black) + StoneMoves(Run(start, ops).st.moves, White);
            && (start.st.setup.rules.ko.PositionalSuperko? ==> moves < MostPositions(start.st.setup.size))
            && (start.st.setup.rules.ko.SituationalSuperko? ==> moves < 2 * MostPositions(start.st.setup.size))
  {
    hide Run, After, IsFirstSeen, Situations, LegalAt, StoneMoves, MostPositions;
    RunStaysConsistent(start, ops);
    if start.st.setup.rules.ko.PositionalSuperko? {
      PositionalGameIsBounded(start.st.setup, Run(start, ops).st.moves);
    } else if start.st.setup.rules.ko.SituationalSuperko? {
      SituationalGameIsBounded(start.st.setup, Run(start, ops).st.moves);
    }
  }
}
