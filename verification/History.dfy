/** What every well-played line of play keeps, ply after ply. */
module History {
  import opened Chains
  import opened Boards
  import opened Lines

  // ----- liberties -----

  /** Every chain of stones of the position has a liberty. */
  ghost predicate Alive(size: nat, s: Stones)
    requires 0 < size && |s| == size * size
  {
    GridIsGraph(size);
    AllAlive(Grid(size), s)
  }

  lemma PlayKeepsLiberties(size: nat, p: Position, c: Colour, x: int, y: int, suicide: bool)
    requires 0 < size && |p.stones| == size * size && Alive(size, p.stones)
    requires PlayOn(size, p, c, x, y, suicide).Accepted?
    ensures Alive(size, PlayOn(size, p, c, x, y, suicide).after.stones)
  {
    GridIsGraph(size);
    IndexOnBoard(size, x, y);
    MoveKeepsLiberties(Grid(size), p.stones, Index(size, x, y), c, suicide);
  }

  /** If every chain of the starting position has a liberty, so has every chain of every position of
      the line, whatever was captured and whatever suicide was allowed. */
  lemma {:induction false} LibertiesForEver(u: Setup, ms: seq<Move>)
    requires u.Ok() && Alive(u.size, Start(u)) && WellPlayed(u, ms)
    ensures Alive(u.size, After(u, ms).stones)
    decreases |ms|
  {
    if ms == [] {
    } else {
      var n := |ms| - 1;
      PrefixWellPlayed(u, ms, n);
      LibertiesForEver(u, ms[..n]);
      LegalStep(u, ms, n);
      assert ms[..n + 1] == ms;
      if ms[n].point.Some? {
        var (x, y) := ms[n].point.value;
        PlayKeepsLiberties(u.size, After(u, ms[..n]), ms[n].color, x, y, u.rules.suicide);
      }
    }
  }

  // ----- stones are conserved -----

  ghost function StonesOf(s: Stones, c: Cell): set<nat> {
    set k: nat | k < |s| && s[k] == c
  }

  /** Stones of `c` on the board, and those its opponent holds prisoner. */
  ghost function Accounted(p: Position, c: Cell): nat {
    |StonesOf(p.stones, c)| + p.prisoners.Of(Opponent(c))
  }

  lemma ClearCounts(s: Stones, gone: set<nat>, c: Cell, d: Cell)
    requires (forall k :: k in gone ==> k < |s| && s[k] == c) && c != Empty && d != Empty
    ensures |StonesOf(Clear(s, gone), d)| == |StonesOf(s, d)| - (if d == c then |gone| else 0)
  {
    if d == c {
      assert StonesOf(Clear(s, gone), d) == StonesOf(s, d) - gone;
      assert gone <= StonesOf(s, d);
      assert |StonesOf(s, d)| == |StonesOf(s, d) - gone| + |gone|;
    } else {
      assert StonesOf(Clear(s, gone), d) == StonesOf(s, d);
    }
  }

  lemma PlaceCounts(s: Stones, i: nat, c: Cell, d: Cell)
    requires i < |s| && s[i] == Empty && c != Empty && d != Empty
    ensures |StonesOf(s[i := c], d)| == |StonesOf(s, d)| + (if d == c then 1 else 0)
  {
    if d == c {
      assert StonesOf(s[i := c], d) == StonesOf(s, d) + {i};
    } else {
      assert StonesOf(s[i := c], d) == StonesOf(s, d);
    }
  }

  lemma PlayConserves(size: nat, p: Position, c: Colour, x: int, y: int, suicide: bool, d: Colour)
    requires 0 < size && |p.stones| == size * size && PlayOn(size, p, c, x, y, suicide).Accepted?
    ensures Accounted(PlayOn(size, p, c, x, y, suicide).after, d) == Accounted(p, d) + (if d == c then 1 else 0)
  {
    GridIsGraph(size);
    IndexOnBoard(size, x, y);
    var g, i := Grid(size), Index(size, x, y);
    var t := p.stones[i := c];
    PlaceCounts(p.stones, i, c, d);
    DeadIsWholeChains(g, t, i);
    ChainIsClosed(g, t, i);
    ClearCounts(t, Dead(g, t, i), Opponent(c), d);
    ClearCounts(t, Chain(g, t, i), c, d);
  }

  ghost function StoneMoves(ms: seq<Move>, c: Colour): nat {
    if ms == [] then 0
    else StoneMoves(ms[..|ms| - 1], c) + if ms[|ms| - 1].point.Some? && ms[|ms| - 1].color == c then 1 else 0
  }

  /** At every ply, the stones of a colour on the board plus its stones held prisoner are the stones
      it started with plus the stones it has played. */
  lemma {:induction false} StonesConserved(u: Setup, ms: seq<Move>, c: Colour)
    requires u.Ok() && WellPlayed(u, ms)
    ensures Accounted(After(u, ms), c) == |StonesOf(Start(u), c)| + StoneMoves(ms, c)
    decreases |ms|
  {
    if ms == [] {
    } else {
      var n := |ms| - 1;
      PrefixWellPlayed(u, ms, n);
      StonesConserved(u, ms[..n], c);
      LegalStep(u, ms, n);
      assert ms[..n + 1] == ms;
      if ms[n].point.Some? {
        var (x, y) := ms[n].point.value;
        PlayConserves(u.size, After(u, ms[..n]), ms[n].color, x, y, u.rules.suicide, c);
      }
    }
  }

  // ----- ko and superko -----

  /** Simple ko: a stone move never recreates the position two plies earlier. */
  lemma SimpleKoHolds(u: Setup, ms: seq<Move>, n: nat)
    requires u.Ok() && WellPlayed(u, ms) && u.rules.ko.SimpleKo?
    requires 0 < n < |ms| && ms[n].point.Some?
    ensures After(u, ms[..n + 1]).stones != After(u, ms[..n - 1]).stones
  {
    LegalStep(u, ms, n);
    assert ms[..n][..n - 1] == ms[..n - 1];
  }

  /** Positional superko: the position after a stone move differs from that of every earlier ply. */
  lemma PositionalSuperkoHolds(u: Setup, ms: seq<Move>, k: nat, n: nat)
    requires u.Ok() && WellPlayed(u, ms) && u.rules.ko.PositionalSuperko?
    requires k <= n < |ms| && ms[n].point.Some?
    ensures After(u, ms[..n + 1]).stones != After(u, ms[..k]).stones
  {
    LegalStep(u, ms, n);
    assert ms[..n][..k] == ms[..k];
  }

  /** Situational superko: the pair of position and player to move after a stone move differs from
      that of every earlier ply. */
  lemma SituationalSuperkoHolds(u: Setup, ms: seq<Move>, k: nat, n: nat)
    requires u.Ok() && WellPlayed(u, ms) && u.rules.ko.SituationalSuperko?
    requires k <= n < |ms| && ms[n].point.Some?
    ensures (After(u, ms[..n + 1]).stones, ToPlay(u.first, ms[..n + 1]))
         != (After(u, ms[..k]).stones, ToPlay(u.first, ms[..k]))
  {
    LegalStep(u, ms, n);
    assert ms[..n][..k] == ms[..k];
    assert ms[..n + 1][n] == ms[n];
  }

  // ----- a positional-superko game is bounded by the number of positions -----

  function Pow3(n: nat): nat {
    if n == 0 then 1 else 3 * Pow3(n - 1)
  }

  lemma {:induction false} ImageSize<A, C>(xs: set<A>, ys: set<C>, f: A -> C)
    requires forall x :: x in xs ==> f(x) in ys
    requires forall x, x' :: x in xs && x' in xs && f(x) == f(x') ==> x == x'
    ensures |xs| <= |ys|
    decreases |xs|
  {
    if xs == {} {
    } else {
      var x :| x in xs;
      ImageSize(xs - {x}, ys - {f(x)}, f);
    }
  }

  /** At most three to the power `n` positions have `n` points. */
  lemma {:induction false} PositionsCounted(boards: set<Stones>, n: nat)
    requires forall s :: s in boards ==> |s| == n
    ensures |boards| <= Pow3(n)
    decreases n, 1
  {
    if n == 0 {
      ImageSize(boards, {0}, (s: Stones) => 0);
    } else {
      var first := (c: Cell) => set s | s in boards && s[0] == c;
      var tails := (c: Cell) => set s | s in boards && s[0] == c :: s[1..];
      var empties, blacks, whites := first(Empty), first(Black), first(White);
      assert boards == empties + blacks + whites;
      TailsCounted(empties, Empty, n);
      TailsCounted(blacks, Black, n);
      TailsCounted(whites, White, n);
    }
  }

  lemma {:induction false} TailsCounted(boards: set<Stones>, c: Cell, n: nat)
    requires 0 < n && forall s :: s in boards ==> |s| == n && s[0] == c
    ensures |boards| <= Pow3(n - 1)
    decreases n, 0
  {
    var tail := (s: Stones) => if |s| > 0 then s[1..] else s;
    var shorter := set s | s in boards :: tail(s);
    forall s, s' | s in boards && s' in boards && tail(s) == tail(s') ensures s == s' {
      assert s == [c] + tail(s) && s' == [c] + tail(s');
    }
    ImageSize(boards, shorter, tail);
    PositionsCounted(shorter, n - 1);
  }

  /** The starting position and the position after each stone move. */
  ghost function Visited(u: Setup, ms: seq<Move>): seq<Stones>
    requires u.Ok()
  {
    if ms == [] then [Start(u)]
    else if ms[|ms| - 1].point.None? then Visited(u, ms[..|ms| - 1])
    else Visited(u, ms[..|ms| - 1]) + [After(u, ms).stones]
  }

  ghost predicate Occurs(u: Setup, ms: seq<Move>, s: Stones)
    requires u.Ok()
  {
    exists k :: 0 <= k <= |ms| && s == After(u, ms[..k]).stones
  }

  lemma OccursLater(u: Setup, ms: seq<Move>, n: nat, s: Stones)
    requires u.Ok() && n <= |ms| && Occurs(u, ms[..n], s)
    ensures Occurs(u, ms, s)
  {
    var k :| 0 <= k <= n && s == After(u, ms[..n][..k]).stones;
    assert ms[..n][..k] == ms[..k];
  }

  lemma OccursNow(u: Setup, ms: seq<Move>)
    requires u.Ok()
    ensures Occurs(u, ms, After(u, ms).stones)
  {
    assert ms[..|ms|] == ms;
  }

  lemma NewPosition(u: Setup, ms: seq<Move>, n: nat, s: Stones)
    requires u.Ok() && WellPlayed(u, ms) && u.rules.ko.PositionalSuperko?
    requires n == |ms| - 1 && ms[n].point.Some? && Occurs(u, ms[..n], s)
    ensures s != After(u, ms).stones
  {
    var k :| 0 <= k <= n && s == After(u, ms[..n][..k]).stones;
    assert ms[..n][..k] == ms[..k] && ms[..n + 1] == ms;
    PositionalSuperkoHolds(u, ms, k, n);
  }

  lemma {:induction false} VisitedOccur(u: Setup, ms: seq<Move>)
    requires u.Ok()
    ensures |Visited(u, ms)| == 1 + StoneMoves(ms, Black) + StoneMoves(ms, White)
    ensures forall s :: s in Visited(u, ms) ==> |s| == u.size * u.size && Occurs(u, ms, s)
    decreases |ms|
  {
    OccursNow(u, ms);
    if ms != [] {
      var p := ms[..|ms| - 1];
      VisitedOccur(u, p);
      forall s | s in Visited(u, p) ensures Occurs(u, ms, s) {
        OccursLater(u, ms, |p|, s);
      }
    }
  }

  lemma {:induction false} VisitedAreDistinct(u: Setup, ms: seq<Move>)
    requires u.Ok() && WellPlayed(u, ms) && u.rules.ko.PositionalSuperko?
    ensures Distinct(Visited(u, ms))
    decreases |ms|
  {
    hide After, Judge, Repeats, LegalAt, WellPlayed, Occurs, Distinct;
    if ms == [] {
      DistinctOne(Start(u));
    } else {
      var n := |ms| - 1;
      PrefixWellPlayed(u, ms, n);
      VisitedAreDistinct(u, ms[..n]);
      VisitedOccur(u, ms[..n]);
      if ms[n].point.Some? {
        forall s | s in Visited(u, ms[..n]) ensures s != After(u, ms).stones {
          NewPosition(u, ms, n, s);
        }
        DistinctOne(After(u, ms).stones);
        DistinctConcat(Visited(u, ms[..n]), [After(u, ms).stones]);
      }
    }
  }

  /** How many positions a board has: three to the number of its points. */
  function MostPositions(size: nat): nat {
    Pow3(size * size)
  }

  /** A positional-superko game on an n×n board holds fewer than 3^(n·n) stone moves, whatever its cap on moves. */
  lemma PositionalGameIsBounded(u: Setup, ms: seq<Move>)
    requires u.Ok() && WellPlayed(u, ms) && u.rules.ko.PositionalSuperko?
    ensures StoneMoves(ms, Black) + StoneMoves(ms, White) < MostPositions(u.size)
  {
    var q := Visited(u, ms);
    VisitedOccur(u, ms);
    VisitedAreDistinct(u, ms);
    DistinctSize(q);
    PositionsCounted(Members(q), u.size * u.size);
  }

  // ----- a situational-superko game is bounded by the number of positions and players -----

  /** A ply: its position and who is to move there. */
  ghost function Ply(u: Setup, ms: seq<Move>): (Stones, Colour)
    requires u.Ok()
  {
    (After(u, ms).stones, ToPlay(u.first, ms))
  }

  /** The starting ply and the ply after each stone move. */
  ghost function Met(u: Setup, ms: seq<Move>): seq<(Stones, Colour)>
    requires u.Ok()
  {
    if ms == [] then [Ply(u, [])]
    else if ms[|ms| - 1].point.None? then Met(u, ms[..|ms| - 1])
    else Met(u, ms[..|ms| - 1]) + [Ply(u, ms)]
  }

  ghost predicate IsPly(u: Setup, ms: seq<Move>, p: (Stones, Colour))
    requires u.Ok()
  {
    exists k :: 0 <= k <= |ms| && p == Ply(u, ms[..k])
  }

  lemma IsPlyLater(u: Setup, ms: seq<Move>, n: nat, p: (Stones, Colour))
    requires u.Ok() && n <= |ms| && IsPly(u, ms[..n], p)
    ensures IsPly(u, ms, p)
  {
    hide Ply;
    var k :| 0 <= k <= n && p == Ply(u, ms[..n][..k]);
    assert ms[..n][..k] == ms[..k];
  }

  lemma NewPly(u: Setup, ms: seq<Move>, n: nat, p: (Stones, Colour))
    requires u.Ok() && WellPlayed(u, ms) && u.rules.ko.SituationalSuperko?
    requires n == |ms| - 1 && ms[n].point.Some? && IsPly(u, ms[..n], p)
    ensures p != Ply(u, ms)
  {
    var k :| 0 <= k <= n && p == Ply(u, ms[..n][..k]);
    assert ms[..n][..k] == ms[..k] && ms[..n + 1] == ms;
    SituationalSuperkoHolds(u, ms, k, n);
  }

  lemma {:induction false} MetArePlies(u: Setup, ms: seq<Move>)
    requires u.Ok()
    ensures |Met(u, ms)| == 1 + StoneMoves(ms, Black) + StoneMoves(ms, White)
    ensures forall p :: p in Met(u, ms) ==> |p.0| == u.size * u.size && IsPly(u, ms, p)
    decreases |ms|
  {
    assert ms[..|ms|] == ms;
    if ms == [] {
    } else {
      var past := ms[..|ms| - 1];
      MetArePlies(u, past);
      forall p | p in Met(u, past) ensures IsPly(u, ms, p) {
        IsPlyLater(u, ms, |past|, p);
      }
    }
  }

  lemma {:induction false} MetAreDistinct(u: Setup, ms: seq<Move>)
    requires u.Ok() && WellPlayed(u, ms) && u.rules.ko.SituationalSuperko?
    ensures Distinct(Met(u, ms))
    decreases |ms|
  {
    hide Ply, Judge, Repeats, LegalAt, WellPlayed, IsPly, Distinct;
    if ms == [] {
      DistinctOne(Ply(u, []));
    } else {
      var n := |ms| - 1;
      PrefixWellPlayed(u, ms, n);
      MetAreDistinct(u, ms[..n]);
      MetArePlies(u, ms[..n]);
      if ms[n].point.Some? {
        forall p | p in Met(u, ms[..n]) ensures p != Ply(u, ms) {
          NewPly(u, ms, n, p);
        }
        DistinctOne(Ply(u, ms));
        DistinctConcat(Met(u, ms[..n]), [Ply(u, ms)]);
      }
    }
  }

  lemma PliesOfOneCounted(ps: set<(Stones, Colour)>, c: Colour, n: nat)
    requires forall p :: p in ps ==> |p.0| == n && p.1 == c
    ensures |ps| <= Pow3(n)
  {
    hide Pow3;
    var stones := (p: (Stones, Colour)) => p.0;
    var boards := set p | p in ps :: stones(p);
    ImageSize(ps, boards, stones);
    PositionsCounted(boards, n);
  }

  lemma PliesCounted(ps: set<(Stones, Colour)>, n: nat)
    requires forall p :: p in ps ==> |p.0| == n
    ensures |ps| <= 2 * Pow3(n)
  {
    hide Pow3;
    var blacks, whites := set p | p in ps && p.1 == Black, set p | p in ps && p.1 == White;
    assert ps == blacks + whites;
    PliesOfOneCounted(blacks, Black, n);
    PliesOfOneCounted(whites, White, n);
  }

  /** A situational-superko game on an n×n board holds fewer than 2·3^(n·n) stone moves, whatever its cap on
      moves. */
  lemma SituationalGameIsBounded(u: Setup, ms: seq<Move>)
    requires u.Ok() && WellPlayed(u, ms) && u.rules.ko.SituationalSuperko?
    ensures StoneMoves(ms, Black) + StoneMoves(ms, White) < 2 * MostPositions(u.size)
  {
    hide Met, Ply, IsPly, Pow3, WellPlayed, StoneMoves;
    var q := Met(u, ms);
    MetArePlies(u, ms);
    MetAreDistinct(u, ms);
    DistinctSize(q);
    PliesCounted(Members(q), u.size * u.size);
  }
}
