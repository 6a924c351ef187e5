/** What one move does, told by the chains around it alone, and what a game's own plies decide about it. */
module Rulings {
  import opened Chains
  import opened Boards

  /** The position with the stone down and nothing removed yet. */
  ghost function Placed(size: nat, p: Position, c: Colour, x: int, y: int): (t: Stones)
    requires OnEmpty(size, p, x, y)
    ensures |t| == size * size
    ensures 0 <= y * size + x < |t|
  {
    IndexOnBoard(size, x, y);
    p.stones[y * size + x := c]
  }

  /** The point is on the board and nothing stands there. */
  ghost predicate OnEmpty(size: nat, p: Position, x: int, y: int) {
    && 0 < size && |p.stones| == size * size && 0 <= x < size && 0 <= y < size
    && (IndexOnBoard(size, x, y); p.stones[y * size + x] == Empty)
  }

  /** The enemy stone at `n`, next to the stone at `i`, belongs to a chain without a liberty. */
  ghost predicate Smothered(g: Graph, t: Stones, i: nat, n: nat)
    requires On(g, t)
  {
    NextTo(g, i, n) && t[i] != Empty && t[n] != Empty && t[n] != t[i] && !HasLiberty(g, t, Chain(g, t, n))
  }

  /** The stone at `i` leaves no enemy chain without a liberty. */
  ghost predicate TakesNothing(g: Graph, t: Stones, i: nat)
    requires On(g, t)
  {
    forall n: nat :: !Smothered(g, t, i, n)
  }

  /** `j` is on one of the smothered chains. */
  ghost predicate OnSmothered(g: Graph, t: Stones, i: nat, j: nat)
    requires On(g, t)
  {
    exists n: nat :: Smothered(g, t, i, n) && j in Chain(g, t, n)
  }

  /** `after` is `t` with exactly the points of `gone` emptied, added to the prisoners of `taker`. */
  ghost predicate Emptied(t: Stones, before: Tally, gone: set<nat>, taker: Cell, after: Position) {
    && |after.stones| == |t|
    && (forall j: nat :: j < |t| ==> after.stones[j] == if j in gone then Empty else t[j])
    && after.prisoners == (if taker == Black then Tally(before.black + |gone|, before.white)
                           else Tally(before.black, before.white + |gone|))
  }

  lemma DeadAreSmothered(g: Graph, t: Stones, i: nat, j: nat)
    requires On(g, t) && i < |g| && t[i] != Empty
    ensures j in Dead(g, t, i) <==> OnSmothered(g, t, i, j)
  {
    if OnSmothered(g, t, i, j) {
      var n: nat :| Smothered(g, t, i, n) && j in Chain(g, t, n);
      ChainIsClosed(g, t, n);
      assert DeadVia(g, t, i, j, n);
    }
    if j in Dead(g, t, i) {
      var n: nat :| DeadVia(g, t, i, j, n);
      assert Smothered(g, t, i, n);
    }
  }

  lemma SmotheredIsOnIt(g: Graph, t: Stones, i: nat, n: nat)
    requires On(g, t) && Smothered(g, t, i, n)
    ensures OnSmothered(g, t, i, n)
  {
    ChainIsClosed(g, t, n);
  }

  /** What `PlayOn` sees at an empty point. */
  lemma PlayOnPlaced(size: nat, p: Position, c: Colour, x: int, y: int, suicide: bool)
    requires OnEmpty(size, p, x, y)
    ensures On(Grid(size), Placed(size, p, c, x, y))
    ensures Placed(size, p, c, x, y)[y * size + x] == c
    ensures PlayOn(size, p, c, x, y, suicide)
         == match Resolve(Grid(size), Placed(size, p, c, x, y), y * size + x, suicide)
            case Capture(s, taken) => Accepted(Position(s, p.prisoners.Plus(c, |taken|)), taken)
            case SelfCapture(s, lost) => Accepted(Position(s, p.prisoners.Plus(Opponent(c), |lost|)), {})
            case Suicide => Refused(SuicideForbidden)
  {
    hide Grid, Resolve;
    GridIsGraph(size);
    IndexOnBoard(size, x, y);
  }

  /** Captures come first: a move that leaves an enemy chain without a liberty is played whatever the suicide rule
      and whatever its own liberties, and takes exactly the stones of those chains. */
  lemma CapturesComeFirst(size: nat, p: Position, c: Colour, x: int, y: int, suicide: bool, n: nat)
    requires OnEmpty(size, p, x, y)
    requires On(Grid(size), Placed(size, p, c, x, y))
    requires Smothered(Grid(size), Placed(size, p, c, x, y), y * size + x, n)
    ensures var g, t, i := Grid(size), Placed(size, p, c, x, y), y * size + x;
            var v := PlayOn(size, p, c, x, y, suicide);
            && v.Accepted? && n in v.taken
            && (forall j: nat :: j in v.taken <==> OnSmothered(g, t, i, j))
            && Emptied(t, p.prisoners, v.taken, c, v.after)
  {
    hide Grid, HasLiberty, Chain;
    PlayOnPlaced(size, p, c, x, y, suicide);
    var g, t, i := Grid(size), Placed(size, p, c, x, y), y * size + x;
    SmotheredIsOnIt(g, t, i, n);
    forall j: nat ensures j in Dead(g, t, i) <==> OnSmothered(g, t, i, j) {
      DeadAreSmothered(g, t, i, j);
    }
  }

  /** Without a capture the new stone's own chain decides: with a liberty it stays and nothing else changes; without
      one it is refused, or taken off the board as a whole where suicide is allowed. */
  lemma OwnChainDecides(size: nat, p: Position, c: Colour, x: int, y: int, suicide: bool)
    requires OnEmpty(size, p, x, y)
    requires On(Grid(size), Placed(size, p, c, x, y))
    requires TakesNothing(Grid(size), Placed(size, p, c, x, y), y * size + x)
    ensures var g, t, i := Grid(size), Placed(size, p, c, x, y), y * size + x;
            var v := PlayOn(size, p, c, x, y, suicide);
            if HasLiberty(g, t, Chain(g, t, i)) then v == Accepted(Position(t, p.prisoners), {})
            else if !suicide then v == Refused(SuicideForbidden)
            else
              v.Accepted? && v.taken == {}
              && Emptied(t, p.prisoners, Chain(g, t, i), if c == Black then White else Black, v.after)
  {
    hide Grid, HasLiberty, Chain;
    PlayOnPlaced(size, p, c, x, y, suicide);
    var g, t, i := Grid(size), Placed(size, p, c, x, y), y * size + x;
    forall j: nat ensures j !in Dead(g, t, i) {
      DeadAreSmothered(g, t, i, j);
    }
    assert Dead(g, t, i) == {};
    assert p.prisoners.Plus(c, 0) == p.prisoners;
  }

  lemma RulingAtEmptyPoint(size: nat, p: Position, c: Colour, x: int, y: int, suicide: bool)
    requires OnEmpty(size, p, x, y)
    ensures IsGraph(Grid(size)) && |Grid(size)| == size * size && 0 <= y * size + x < size * size
    ensures var g, i, t := Grid(size), y * size + x, p.stones[y * size + x := c];
            var v, own := PlayOn(size, p, c, x, y, suicide), Chain(g, t, i);
            if exists n: nat :: NextTo(g, i, n) && t[n] != Empty && t[n] != c && !HasLiberty(g, t, Chain(g, t, n))
            then
              && v.Accepted?
              && (forall j: nat :: j in v.taken <==>
                    exists n: nat :: NextTo(g, i, n) && t[n] != Empty && t[n] != c
                                     && !HasLiberty(g, t, Chain(g, t, n)) && j in Chain(g, t, n))
              && (forall j: nat :: j < size * size ==> v.after.stones[j] == if j in v.taken then Empty else t[j])
              && v.after.prisoners == if c == Black then Tally(p.prisoners.black + |v.taken|, p.prisoners.white)
                                      else Tally(p.prisoners.black, p.prisoners.white + |v.taken|)
            else if HasLiberty(g, t, own) then v == Accepted(Position(t, p.prisoners), {})
            else if !suicide then v == Refused(SuicideForbidden)
            else
              && v.Accepted? && v.taken == {}
              && (forall j: nat :: j < size * size ==> v.after.stones[j] == if j in own then Empty else t[j])
              && v.after.prisoners == if c == Black then Tally(p.prisoners.black, p.prisoners.white + |own|)
                                      else Tally(p.prisoners.black + |own|, p.prisoners.white)
  {
    hide Grid, HasLiberty, Chain, Resolve, PlayOn;
    GridIsGraph(size);
    IndexOnBoard(size, x, y);
    var g, t, i := Grid(size), Placed(size, p, c, x, y), y * size + x;
    PlayOnPlaced(size, p, c, x, y, suicide);
    if n: nat :| NextTo(g, i, n) && t[n] != Empty && t[n] != c && !HasLiberty(g, t, Chain(g, t, n)) {
      CapturesComeFirst(size, p, c, x, y, suicide, n);
      assert forall j: nat, m: nat :: Smothered(g, t, i, m) && j in Chain(g, t, m) ==> OnSmothered(g, t, i, j);
    } else {
      OwnChainDecides(size, p, c, x, y, suicide);
    }
  }

  /** The board's ruling on any move, told by chains and liberties alone. It is refused off the board and on a stone.
      At an empty point captures come first: when the new stone leaves an enemy chain next to it without a liberty,
      it is played whatever the suicide rule and whatever its own liberties, and takes exactly the stones of those
      chains. Otherwise its own chain decides: with a liberty nothing else changes; without one the move is refused
      as suicide, or, where suicide is allowed, exactly that chain comes off. */
  lemma BoardRuling(size: nat, p: Position, c: Colour, x: int, y: int, suicide: bool)
    requires 0 < size && |p.stones| == size * size
    ensures IsGraph(Grid(size)) && |Grid(size)| == size * size
    ensures PlayOn(size, p, c, x, y, suicide) == Refused(OffBoard) <==> !(0 <= x < size && 0 <= y < size)
    ensures 0 <= x < size && 0 <= y < size ==>
              && 0 <= y * size + x < size * size
              && (PlayOn(size, p, c, x, y, suicide) == Refused(Occupied) <==> p.stones[y * size + x] != Empty)
    ensures 0 <= x < size && 0 <= y < size && p.stones[y * size + x] == Empty ==>
              var g, i, t := Grid(size), y * size + x, p.stones[y * size + x := c];
              var v, own := PlayOn(size, p, c, x, y, suicide), Chain(g, t, i);
              if exists n: nat :: NextTo(g, i, n) && t[n] != Empty && t[n] != c && !HasLiberty(g, t, Chain(g, t, n))
              then
                && v.Accepted?
                && (forall j: nat :: j in v.taken <==>
                      exists n: nat :: NextTo(g, i, n) && t[n] != Empty && t[n] != c
                                       && !HasLiberty(g, t, Chain(g, t, n)) && j in Chain(g, t, n))
                && (forall j: nat :: j < size * size ==> v.after.stones[j] == if j in v.taken then Empty else t[j])
                && v.after.prisoners == if c == Black then Tally(p.prisoners.black + |v.taken|, p.prisoners.white)
                                        else Tally(p.prisoners.black, p.prisoners.white + |v.taken|)
              else if HasLiberty(g, t, own) then v == Accepted(Position(t, p.prisoners), {})
              else if !suicide then v == Refused(SuicideForbidden)
              else
                && v.Accepted? && v.taken == {}
                && (forall j: nat :: j < size * size ==> v.after.stones[j] == if j in own then Empty else t[j])
                && v.after.prisoners == if c == Black then Tally(p.prisoners.black, p.prisoners.white + |own|)
                                        else Tally(p.prisoners.black + |own|, p.prisoners.white)
  {
    hide Grid, HasLiberty, Chain, Resolve, PlayOn;
    GridIsGraph(size);
    RefusedOutright(size, p, c, x, y, suicide);
    if 0 <= x < size && 0 <= y < size && p.stones[y * size + x] == Empty {
      IndexOnBoard(size, x, y);
      RulingAtEmptyPoint(size, p, c, x, y, suicide);
    }
  }

  lemma RefusedOutright(size: nat, p: Position, c: Colour, x: int, y: int, suicide: bool)
    requires 0 < size && |p.stones| == size * size
    ensures PlayOn(size, p, c, x, y, suicide) == Refused(OffBoard) <==> !(0 <= x < size && 0 <= y < size)
    ensures 0 <= x < size && 0 <= y < size ==>
              && 0 <= y * size + x < size * size
              && (PlayOn(size, p, c, x, y, suicide) == Refused(Occupied) <==> p.stones[y * size + x] != Empty)
  {
    hide Grid, Resolve;
    GridIsGraph(size);
    if 0 <= x < size && 0 <= y < size {
      IndexOnBoard(size, x, y);
    }
  }

  /** The points a play answers with are those of the stones taken, each once. */
  lemma PointsAreOfTheTaken(r: PlayResult, size: nat, taken: set<nat>, x: nat, y: nat)
    requires 0 < size && Lists(r, size, taken) && x < size
    ensures r.Captured? && |r.points| == |taken| && Distinct(r.points)
    ensures (x, y) in r.points <==> y * size + x in taken
  {
    var q: seq<nat> :| Distinct(q) && Members(q) == taken && r == Captured(PointsOf(size, q));
    DistinctSize(q);
    forall k | 0 <= k < |q| ensures r.points[k] == (x, y) <==> q[k] == y * size + x {
      PointOfIndex(size, q[k], x, y);
    }
    assert (x, y) in r.points ==> exists k :: 0 <= k < |q| && r.points[k] == (x, y);
    assert forall k :: 0 <= k < |q| ==> q[k] in Members(q);
    forall a, b | 0 <= a < b < |q| ensures r.points[a] != r.points[b] {
      PointOfIndex(size, q[a], r.points[b].0, r.points[b].1);
      PointOfIndex(size, q[b], r.points[b].0, r.points[b].1);
    }
  }

  lemma PointOfIndex(size: nat, i: nat, x: nat, y: nat)
    requires 0 < size && x < size
    ensures (i % size, i / size) == (x, y) <==> i == y * size + x
  {
    if i == y * size + x {
      DivMod(size, i, y, x);
    }
  }
}
