/** Chains of stones on an arbitrary symmetric graph of points.

    A chain is the set of points that same-coloured steps lead to. The lemmas below use the chain
    only as the least set that holds its first point and is closed under same-coloured steps. */
module Chains {

  datatype Cell = Empty | Black | White

  /** The colour that answers `c`. */
  function Opponent(c: Cell): Cell {
    if c == Black then White else Black
  }

  type Stones = seq<Cell>

  /** For each point, the points next to it. */
  type Graph = seq<seq<nat>>

  predicate NextTo(g: Graph, i: nat, j: nat) {
    i < |g| && j < |g| && j in g[i]
  }

  ghost predicate IsGraph(g: Graph) {
    && (forall i: nat, j: nat :: NextTo(g, i, j) ==> NextTo(g, j, i))
    && (forall i: nat, k: nat :: i < |g| && k < |g[i]| ==> g[i][k] < |g|)
  }

  ghost predicate On(g: Graph, s: Stones) {
    IsGraph(g) && |s| == |g|
  }

  /** `j` is `n` same-coloured steps away from `i`. */
  ghost predicate Steps(g: Graph, s: Stones, i: nat, j: nat, n: nat)
    requires On(g, s) && i < |g|
    decreases n
  {
    if n == 0 then j == i
    else exists k: nat :: NextTo(g, k, j) && Steps(g, s, i, k, n - 1) && s[j] == s[i]
  }

  ghost predicate Linked(g: Graph, s: Stones, i: nat, j: nat)
    requires On(g, s) && i < |g|
  {
    exists n: nat :: Steps(g, s, i, j, n)
  }

  /** The chain through `i`: everything same-coloured steps reach from it. */
  ghost function Chain(g: Graph, s: Stones, i: nat): set<nat>
    requires On(g, s) && i < |g|
  {
    set j: nat | j < |g| && Linked(g, s, i, j)
  }

  /** No same-coloured step leaves `part`. */
  ghost predicate Closed(g: Graph, s: Stones, part: set<nat>)
    requires On(g, s)
  {
    forall a: nat, b: nat :: a in part && NextTo(g, a, b) && s[b] == s[a] ==> b in part
  }

  ghost predicate HasLiberty(g: Graph, s: Stones, part: set<nat>)
    requires On(g, s)
  {
    exists a: nat, b: nat :: a in part && NextTo(g, a, b) && s[b] == Empty
  }

  /** Every chain of stones has a liberty. */
  ghost predicate AllAlive(g: Graph, s: Stones)
    requires On(g, s)
  {
    forall i: nat :: i < |g| && s[i] != Empty ==> HasLiberty(g, s, Chain(g, s, i))
  }

  function Clear(s: Stones, gone: set<nat>): (r: Stones)
    ensures |r| == |s|
    ensures forall k: nat :: k < |s| ==> r[k] == if k in gone then Empty else s[k]
  {
    seq(|s|, (k: nat) requires k < |s| => if k in gone then Empty else s[k])
  }

  // ----- the chain as a least closed set -----

  lemma {:induction false} StepsKeepColour(g: Graph, s: Stones, i: nat, j: nat, n: nat)
    requires On(g, s) && i < |g| && Steps(g, s, i, j, n)
    ensures j < |g| && s[j] == s[i]
  {
    if n > 0 {
      var k: nat :| NextTo(g, k, j) && Steps(g, s, i, k, n - 1) && s[j] == s[i];
    }
  }

  lemma {:induction false} StepsStayInside(g: Graph, s: Stones, i: nat, j: nat, n: nat, part: set<nat>)
    requires On(g, s) && i < |g| && Steps(g, s, i, j, n)
    requires i in part && Closed(g, s, part)
    ensures j in part
    decreases n
  {
    if n > 0 {
      var k: nat :| NextTo(g, k, j) && Steps(g, s, i, k, n - 1) && s[j] == s[i];
      StepsKeepColour(g, s, i, k, n - 1);
      StepsStayInside(g, s, i, k, n - 1, part);
    }
  }

  /** The chain holds its first point, has one colour and no same-coloured step leaves it. */
  lemma ChainIsClosed(g: Graph, s: Stones, i: nat)
    requires On(g, s) && i < |g|
    ensures i in Chain(g, s, i)
    ensures forall j :: j in Chain(g, s, i) ==> s[j] == s[i]
    ensures Closed(g, s, Chain(g, s, i))
  {
    assert Steps(g, s, i, i, 0);
    forall j | j in Chain(g, s, i) ensures s[j] == s[i] {
      var n: nat :| Steps(g, s, i, j, n);
      StepsKeepColour(g, s, i, j, n);
    }
    forall a: nat, b: nat | a in Chain(g, s, i) && NextTo(g, a, b) && s[b] == s[a]
      ensures b in Chain(g, s, i)
    {
      var n: nat :| Steps(g, s, i, a, n);
      assert Steps(g, s, i, b, n + 1);
    }
  }

  /** Every closed set that holds the first point holds the whole chain. */
  lemma ChainIsLeast(g: Graph, s: Stones, i: nat, part: set<nat>)
    requires On(g, s) && i < |g|
    requires i in part && Closed(g, s, part)
    ensures Chain(g, s, i) <= part
  {
    forall j | j in Chain(g, s, i) ensures j in part {
      var n: nat :| Steps(g, s, i, j, n);
      StepsStayInside(g, s, i, j, n, part);
    }
  }

  /** A point's chain is the chain of each of its points. */
  lemma ChainOfMember(g: Graph, s: Stones, i: nat, j: nat)
    requires On(g, s) && i < |g| && j in Chain(g, s, i)
    ensures Chain(g, s, j) == Chain(g, s, i)
  {
    var here, there := Chain(g, s, i), Chain(g, s, j);
    ChainIsClosed(g, s, i);
    ChainIsClosed(g, s, j);
    ChainIsLeast(g, s, j, here);
    if i !in there {
      assert Closed(g, s, here - there);
      ChainIsLeast(g, s, i, here - there);
      assert false;
    }
    ChainIsLeast(g, s, i, there);
  }

  /** A set of one colour that no same-coloured step leaves is a chain once every closed part of
      it that holds the first point is the whole of it: how a flood fill is recognised. */
  lemma FloodFillIsChain(g: Graph, s: Stones, i: nat, part: set<nat>)
    requires On(g, s) && i < |g|
    requires i in part && Closed(g, s, part)
    requires part <= Chain(g, s, i)
    ensures part == Chain(g, s, i)
  {
    ChainIsLeast(g, s, i, part);
  }

  // ----- removing whole chains -----

  /** `gone` is a union of whole chains of colour `c`. */
  ghost predicate WholeChains(g: Graph, s: Stones, c: Cell, gone: set<nat>)
    requires On(g, s)
  {
    (forall a :: a in gone ==> a < |g| && s[a] == c) && Closed(g, s, gone)
  }

  /** Removing whole chains of one colour leaves every other chain of stones as it was, and gives
      no liberty to the other chains of that colour: what makes the captures order-independent. */
  lemma ClearKeepsOthers(g: Graph, s: Stones, c: Cell, gone: set<nat>, i: nat)
    requires On(g, s) && c != Empty && WholeChains(g, s, c, gone)
    requires i < |g| && i !in gone && s[i] != Empty
    ensures Chain(g, Clear(s, gone), i) == Chain(g, s, i)
    ensures Chain(g, s, i) !! gone
    ensures HasLiberty(g, s, Chain(g, s, i)) ==> HasLiberty(g, Clear(s, gone), Chain(g, s, i))
    ensures s[i] == c ==>
              (HasLiberty(g, Clear(s, gone), Chain(g, s, i)) <==> HasLiberty(g, s, Chain(g, s, i)))
  {
    var t := Clear(s, gone);
    var here, there := Chain(g, s, i), Chain(g, t, i);
    ChainIsClosed(g, s, i);
    ChainIsClosed(g, t, i);
    assert Closed(g, s, here - gone);
    ChainIsLeast(g, s, i, here - gone);
    assert Closed(g, t, here);
    ChainIsLeast(g, t, i, here);
    assert Closed(g, s, there);
    ChainIsLeast(g, s, i, there);
    if HasLiberty(g, s, here) {
      var a: nat, b: nat :| a in here && NextTo(g, a, b) && s[b] == Empty;
      assert t[b] == Empty;
    }
    if s[i] == c && HasLiberty(g, t, here) {
      var a: nat, b: nat :| a in here && NextTo(g, a, b) && t[b] == Empty;
      assert NextTo(g, b, a);
      assert b !in gone;
    }
  }

  // ----- a move: place a stone, remove the dead enemy chains, or the player's own -----

  /** The enemy chains next to `i` that have no liberty. */
  ghost function Dead(g: Graph, s: Stones, i: nat): set<nat>
    requires On(g, s) && i < |g|
  {
    set j: nat | j < |g| && s[j] == Opponent(s[i]) && exists n: nat :: DeadVia(g, s, i, j, n)
  }

  /** `j` belongs to the dead enemy chain through the neighbour `n` of `i`. */
  ghost predicate DeadVia(g: Graph, s: Stones, i: nat, j: nat, n: nat)
    requires On(g, s) && i < |g|
  {
    NextTo(g, i, n) && s[n] == Opponent(s[i]) && j in Chain(g, s, n)
    && !HasLiberty(g, s, Chain(g, s, n))
  }

  lemma DeadIsWholeChains(g: Graph, s: Stones, i: nat)
    requires On(g, s) && i < |g|
    ensures WholeChains(g, s, Opponent(s[i]), Dead(g, s, i))
  {
    var gone := Dead(g, s, i);
    forall a: nat, b: nat | a in gone && NextTo(g, a, b) && s[b] == s[a] ensures b in gone {
      var n: nat :| DeadVia(g, s, i, a, n);
      ChainIsClosed(g, s, n);
      assert DeadVia(g, s, i, b, n);
    }
  }

  /** The position a move leads to: `None` when it would be a refused suicide. */
  datatype Outcome = Suicide | Capture(stones: Stones, taken: set<nat>) | SelfCapture(stones: Stones, lost: set<nat>)

  ghost function Resolve(g: Graph, s: Stones, i: nat, suicide: bool): Outcome
    requires On(g, s) && i < |g|
  {
    var gone := Dead(g, s, i);
    var own := Chain(g, s, i);
    if gone != {} then Capture(Clear(s, gone), gone)
    else if HasLiberty(g, s, own) then Capture(s, {})
    else if suicide then SelfCapture(Clear(s, own), own)
    else Suicide
  }

  // ----- removing the dead chains one neighbour at a time -----

  /** `gone` is what has been removed once the neighbours in `done` have been looked at. */
  ghost predicate TakenSoFar(g: Graph, t: Stones, i: nat, done: seq<nat>, gone: set<nat>)
    requires On(g, t) && i < |g|
  {
    && WholeChains(g, t, Opponent(t[i]), gone)
    && gone <= Dead(g, t, i)
    && forall n: nat :: n in done && DeadVia(g, t, i, n, n) ==> n in gone
  }

  /** One step of the removal loop: a neighbour still on the board belongs to the chain it had when
      the stone was placed, with the same liberties; it is removed exactly when that chain is dead. */
  lemma TakeNext(g: Graph, t: Stones, i: nat, done: seq<nat>, gone: set<nat>, n: nat)
    requires On(g, t) && i < |g| && t[i] != Empty && TakenSoFar(g, t, i, done, gone) && NextTo(g, i, n)
    requires Clear(t, gone)[n] == Opponent(t[i])
    ensures Chain(g, Clear(t, gone), n) == Chain(g, t, n) && Chain(g, t, n) !! gone
    ensures HasLiberty(g, Clear(t, gone), Chain(g, t, n)) ==> TakenSoFar(g, t, i, done + [n], gone)
    ensures !HasLiberty(g, Clear(t, gone), Chain(g, t, n)) ==>
              TakenSoFar(g, t, i, done + [n], gone + Chain(g, t, n))
  {
    var chain := Chain(g, t, n);
    ClearKeepsOthers(g, t, Opponent(t[i]), gone, n);
    ChainIsClosed(g, t, n);
    if !HasLiberty(g, t, chain) {
      forall j | j in chain ensures j in Dead(g, t, i) {
        assert DeadVia(g, t, i, j, n);
      }
    }
  }

  lemma SkipNext(g: Graph, t: Stones, i: nat, done: seq<nat>, gone: set<nat>, n: nat)
    requires On(g, t) && i < |g| && t[i] != Empty && TakenSoFar(g, t, i, done, gone) && NextTo(g, i, n)
    requires Clear(t, gone)[n] != Opponent(t[i])
    ensures TakenSoFar(g, t, i, done + [n], gone)
  {
  }

  /** Once every neighbour has been looked at, exactly the dead chains are gone. */
  lemma AllTaken(g: Graph, t: Stones, i: nat, gone: set<nat>)
    requires On(g, t) && i < |g| && TakenSoFar(g, t, i, g[i], gone)
    ensures gone == Dead(g, t, i)
  {
    forall j | j in Dead(g, t, i) ensures j in gone {
      var n: nat :| DeadVia(g, t, i, j, n);
      ChainIsClosed(g, t, n);
      assert DeadVia(g, t, i, n, n);
      ChainIsLeast(g, t, n, gone);
    }
  }

  // ----- liberties are kept -----

  /** Placing a stone leaves each chain it does not join as it was, with every liberty but `i`. */
  lemma PlaceKeepsOthers(g: Graph, s: Stones, i: nat, c: Cell, j: nat)
    requires On(g, s) && i < |g| && s[i] == Empty && c != Empty
    requires j < |g| && s[j] != Empty && HasLiberty(g, s, Chain(g, s, j))
    requires i !in Chain(g, s[i := c], j)
    ensures Chain(g, s[i := c], j) == Chain(g, s, j)
    ensures HasLiberty(g, s[i := c], Chain(g, s, j))
            || exists n: nat :: NextTo(g, i, n) && n in Chain(g, s, j)
  {
    var t := s[i := c];
    var here, there := Chain(g, s, j), Chain(g, t, j);
    ChainIsClosed(g, s, j);
    ChainIsClosed(g, t, j);
    assert Closed(g, s, there);
    ChainIsLeast(g, s, j, there);
    assert Closed(g, t, here);
    ChainIsLeast(g, t, j, here);
    var a: nat, b: nat :| a in here && NextTo(g, a, b) && s[b] == Empty;
    assert NextTo(g, b, a);
    if b != i {
      assert t[b] == Empty;
    }
  }

  /** After a stone is placed and before anything is removed, the only chains without a liberty are
      the dead enemy chains and, possibly, the new stone's own. */
  lemma OnlyNeighboursDie(g: Graph, s: Stones, i: nat, c: Cell, j: nat)
    requires On(g, s) && i < |g| && s[i] == Empty && c != Empty && AllAlive(g, s)
    requires j < |g| && s[i := c][j] != Empty
    requires j !in Dead(g, s[i := c], i) && j !in Chain(g, s[i := c], i)
    ensures HasLiberty(g, s[i := c], Chain(g, s[i := c], j))
  {
    var t := s[i := c];
    ChainIsClosed(g, t, i);
    ChainIsClosed(g, t, j);
    if i in Chain(g, t, j) {
      ChainOfMember(g, t, j, i);
      assert false;
    }
    assert j != i;
    PlaceKeepsOthers(g, s, i, c, j);
    if !HasLiberty(g, t, Chain(g, t, j)) {
      var n: nat :| NextTo(g, i, n) && n in Chain(g, t, j);
      ChainOfMember(g, t, j, n);
      if t[n] != c {
        assert DeadVia(g, t, i, j, n);
      }
      assert false;
    }
  }

  /** A move on a position where every chain has a liberty, captures and allowed suicide included,
      leads to a position where every chain has one. */
  lemma MoveKeepsLiberties(g: Graph, s: Stones, i: nat, c: Cell, suicide: bool)
    requires On(g, s) && i < |g| && s[i] == Empty && c != Empty && AllAlive(g, s)
    requires !Resolve(g, s[i := c], i, suicide).Suicide?
    ensures AllAlive(g, Resolve(g, s[i := c], i, suicide).stones)
  {
    var t := s[i := c];
    var gone, own := Dead(g, t, i), Chain(g, t, i);
    var r := Resolve(g, t, i, suicide);
    DeadIsWholeChains(g, t, i);
    ChainIsClosed(g, t, i);
    var cleared := if gone != {} then gone else if r.SelfCapture? then own else {};
    var removed := if gone != {} then Opponent(c) else c;
    assert WholeChains(g, t, removed, cleared);
    assert r.stones == Clear(t, cleared);
    if gone != {} { OwnChainGainsLiberty(g, t, i); }
    forall j: nat | j < |g| && r.stones[j] != Empty
      ensures HasLiberty(g, r.stones, Chain(g, r.stones, j))
    {
      ClearKeepsOthers(g, t, removed, cleared, j);
      if j in own {
        ChainOfMember(g, t, i, j);
      } else {
        assert gone == {} || j !in gone;
        OnlyNeighboursDie(g, s, i, c, j);
      }
    }
  }

  lemma OwnChainGainsLiberty(g: Graph, t: Stones, i: nat)
    requires On(g, t) && i < |g| && t[i] != Empty && Dead(g, t, i) != {}
    ensures HasLiberty(g, Clear(t, Dead(g, t, i)), Chain(g, t, i))
  {
    var gone := Dead(g, t, i);
    var d :| d in gone;
    var n: nat :| DeadVia(g, t, i, d, n);
    ChainIsClosed(g, t, n);
    ChainIsClosed(g, t, i);
    assert DeadVia(g, t, i, n, n);
    assert Clear(t, gone)[n] == Empty;
  }
}
