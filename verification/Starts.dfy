/** The games `Game(size, komi, rules, handicap)` makes, and what holds of every run from one. */
module Starts {
  import opened Chains
  import opened Boards
  import opened Rules
  import opened Lines
  import opened History
  import opened Records
  import opened PlyCaches
  import opened Coords
  import opened StoredGames

  function HandicapSetup(size: nat, rules: RuleSet, points: seq<(nat, nat)>, maxMoves: nat): Setup {
    Setup(size, rules, seq(|points|, k requires 0 <= k < |points| => SetupStone(Black, points[k].0, points[k].1)),
          if |points| > 0 then White else Black, maxMoves)
  }

  /** A new game, or `None` when the size or the handicap is refused. */
  function GameOf(size: nat, komi: Option<real>, rules: RuleSet, handicap: int, maxMoves: nat): Option<GameState> {
    if !(2 <= size <= 25) then None
    else
      var points := HandicapPoints(size, handicap);
      if points.None? then None
      else Some(NewGame(HandicapSetup(size, rules, points.value, maxMoves), komi, |points.value|))
  }

  lemma NewGameIsOk(size: nat, komi: Option<real>, rules: RuleSet, handicap: int, maxMoves: nat)
    requires GameOf(size, komi, rules, handicap, maxMoves).Some?
    ensures GameOf(size, komi, rules, handicap, maxMoves).value.Ok()
  {
    hide HandicapPoints;
    HandicapPointsStandApart(size, handicap);
    var q := HandicapPoints(size, handicap).value;
    assert forall k :: 0 <= k < |q| ==> q[k] in q;
  }

  /** Which new games there are, and what they start with. */
  lemma NewGameIs(size: nat, komi: Option<real>, rules: RuleSet, handicap: int, maxMoves: nat)
    ensures GameOf(size, komi, rules, handicap, maxMoves).Some? <==>
            && 2 <= size <= 25
            && (handicap == 0 || handicap == 1
                || (size >= 7 && 2 <= handicap <= if size == 7 || size % 2 == 0 then 4 else 9))
    ensures GameOf(size, komi, rules, handicap, maxMoves).Some? ==>
              var st := GameOf(size, komi, rules, handicap, maxMoves).value;
              var count := if handicap < 2 then 0 else handicap;
              && st.setup.size == size && st.setup.rules == rules && st.setup.maxMoves == maxMoves
              && st.moves == [] && st.cursor == 0 && st.result == ""
              && st.blackName == "Black" && st.whiteName == "White"
              && st.handicap == |st.setup.stones| == count
              && st.setup.first == (if count > 0 then White else Black)
              && st.komi == (if komi.Some? then komi.value else if count > 0 then 0.5 else rules.defaultKomi)
              && forall k :: 0 <= k < count ==>
                   && HandicapPoints(size, handicap).Some? && |HandicapPoints(size, handicap).value| == count
                   && st.setup.stones[k].color == Black
                   && (st.setup.stones[k].x, st.setup.stones[k].y) == HandicapPoints(size, handicap).value[k]
  {
    if HandicapPoints(size, handicap).Some? {
      HandicapDistinct(size, handicap);
    }
    hide HandicapPoints;
  }

  lemma {:induction false} StartCell(size: nat, stones: seq<SetupStone>, x: nat, y: nat)
    requires 0 < size && x < size && y < size
    requires forall k :: 0 <= k < |stones| ==> stones[k].x < size && stones[k].y < size
    ensures Index(size, x, y) < size * size
    ensures StartFrom(size, stones)[Index(size, x, y)] == Empty
            <==> forall k :: 0 <= k < |stones| ==> (stones[k].x, stones[k].y) != (x, y)
    decreases |stones|
  {
    hide Index;
    IndexOnBoard(size, x, y);
    if stones != [] {
      var n := |stones| - 1;
      var last := stones[n];
      IndexOnBoard(size, last.x, last.y);
      StartCell(size, stones[..n], x, y);
    }
  }

  /** A stone with an empty point on its left has a liberty. */
  lemma LeftIsLiberty(size: nat, s: Stones, x: nat, y: nat)
    requires 0 < x < size && y < size && |s| == size * size
    requires Index(size, x - 1, y) < |s| && s[Index(size, x - 1, y)] == Empty
    ensures IsGraph(Grid(size)) && |Grid(size)| == |s| && Index(size, x, y) < |s|
    ensures HasLiberty(Grid(size), s, Chain(Grid(size), s, Index(size, x, y)))
  {
    hide Neighbours;
    GridIsGraph(size);
    IndexOnBoard(size, x, y);
    NeighboursHave(size, x, y);
    var g, i := Grid(size), Index(size, x, y);
    ChainIsClosed(g, s, i);
    assert NextTo(g, i, Index(size, x - 1, y));
  }

  /** A start whose stones all have an empty point on their left has no chain without a liberty. */
  lemma ApartIsAlive(u: Setup)
    requires u.Ok()
    requires forall k :: 0 <= k < |u.stones| ==> 0 < u.stones[k].x
    requires forall k, j :: 0 <= k < |u.stones| && 0 <= j < |u.stones| ==>
               (u.stones[j].x, u.stones[j].y) != (u.stones[k].x - 1, u.stones[k].y)
    ensures Alive(u.size, Start(u))
  {
    hide HasLiberty, Chain, Grid, Index;
    var s := Start(u);
    GridIsGraph(u.size);
    forall i: nat | i < u.size * u.size && s[i] != Empty
      ensures HasLiberty(Grid(u.size), s, Chain(Grid(u.size), s, i))
    {
      IndexOfPoint(u.size, i);
      var x, y := i % u.size, i / u.size;
      StartCell(u.size, u.stones, x, y);
      var k :| 0 <= k < |u.stones| && (u.stones[k].x, u.stones[k].y) == (x, y);
      StartCell(u.size, u.stones, x - 1, y);
      LeftIsLiberty(u.size, s, x, y);
    }
  }

  /** Every chain of a handicap start has a liberty. */
  lemma HandicapStartIsAlive(size: nat, rules: RuleSet, handicap: int, maxMoves: nat)
    requires 2 <= size && HandicapPoints(size, handicap).Some?
    ensures var u := HandicapSetup(size, rules, HandicapPoints(size, handicap).value, maxMoves);
            u.Ok() && Alive(size, Start(u))
  {
    hide HandicapPoints, Distinct, Alive;
    var q := HandicapPoints(size, handicap).value;
    HandicapPointsStandApart(size, handicap);
    assert forall k :: 0 <= k < |q| ==> q[k] in q;
    ApartIsAlive(HandicapSetup(size, rules, q, maxMoves));
  }

  /** In every position a game from `Game(...)` ever stores, after any run of plays, undos, navigations,
      branches and resignations, every chain has a liberty. */
  lemma AliveInEveryRun(size: nat, komi: Option<real>, rules: RuleSet, handicap: int, maxMoves: nat, ops: seq<Op>,
                        k: nat)
    requires GameOf(size, komi, rules, handicap, maxMoves).Some?
    ensures var st := GameOf(size, komi, rules, handicap, maxMoves).value;
            st.setup.Ok() && var q := Run(NewView(st.setup, komi, st.handicap), ops).c.snapshots;
            k < |q| ==> |q[k]| == size * size && Alive(size, q[k])
  {
    hide HandicapPoints, Alive, Run, Start;
    NewGameIsOk(size, komi, rules, handicap, maxMoves);
    var st := GameOf(size, komi, rules, handicap, maxMoves).value;
    var start := NewView(st.setup, komi, st.handicap);
    NewIsConsistent(st.setup, komi, st.handicap);
    HandicapStartIsAlive(size, rules, handicap, maxMoves);
    if k < |Run(start, ops).c.snapshots| {
      StoredAreAlive(start, ops, k);
    }
  }
}
