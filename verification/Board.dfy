/** A position on a square board: stones and prisoners, with captures and suicide. */
module Boards {
  import opened Chains
  import opened Sets

  type Colour = c: Cell | c != Empty witness Black

  /** Prisoners held by each colour. */
  datatype Tally = Tally(black: nat, white: nat) {
    function Of(c: Cell): nat {
      if c == Black then black else white
    }

    function Plus(c: Cell, n: nat): (t: Tally)
      ensures c != Empty ==> t.Of(c) == Of(c) + n && t.Of(Opponent(c)) == Of(Opponent(c))
    {
      if c == Black then this.(black := black + n) else this.(white := white + n)
    }
  }

  datatype Position = Position(stones: Stones, prisoners: Tally)

  datatype Refusal =
    | OffBoard | Occupied | SuicideForbidden
    | UnknownColour | GameFull | KoForbidden | SuperkoForbidden

  // ----- the grid -----

  /** The points next to `i`, in the order left, right, up, down. */
  function Neighbours(size: nat, i: nat): seq<nat>
    requires size > 0
  {
    (if i % size > 0 && i > 0 then [i - 1] else [])
    + (if i % size + 1 < size then [i + 1] else [])
    + (if i >= size then [i - size] else [])
    + (if i + size < size * size then [i + size] else [])
  }

  function Index(size: nat, x: nat, y: nat): nat {
    y * size + x
  }

  lemma DivMod(n: int, i: int, q: int, r: int)
    requires 0 <= r < n && i == q * n + r
    ensures i / n == q && i % n == r
  {
    var d := q - i / n;
    assert d * n == q * n - (i / n) * n;
    assert d >= 1 ==> d * n >= n;
    assert d <= -1 ==> d * n <= -n;
  }

  lemma IndexOnBoard(size: nat, x: nat, y: nat)
    requires x < size && y < size
    ensures Index(size, x, y) < size * size
    ensures Index(size, x, y) % size == x && Index(size, x, y) / size == y
  {
    DivMod(size, y * size + x, y, x);
    assert size * size == (size - 1 - y) * size + y * size + size;
    assert (size - 1 - y) * size >= 0;
  }

  lemma IndexOfPoint(size: nat, i: nat)
    requires i < size * size
    ensures 0 < size && i % size < size && i / size < size && Index(size, i % size, i / size) == i
  {
    var q := i / size;
    assert q >= size ==> q * size >= size * size;
  }

  function Distance(a: int, b: int): nat {
    if a < b then b - a else a - b
  }

  /** `i` and `j` are next to each other in a row or in a column. */
  predicate Touching(size: nat, i: nat, j: nat)
    requires size > 0
  {
    Distance(i % size, j % size) + Distance(i / size, j / size) == 1
  }

  /** One step from a point, in coordinates. */
  lemma StepIndex(size: nat, x: nat, y: nat)
    ensures Index(size, x + 1, y) == Index(size, x, y) + 1
    ensures Index(size, x, y + 1) == Index(size, x, y) + size
  {
  }

  lemma NeighboursAt(size: nat, x: nat, y: nat, j: nat)
    requires x < size && y < size && j in Neighbours(size, Index(size, x, y))
    ensures (x > 0 && j == Index(size, x - 1, y)) || (x + 1 < size && j == Index(size, x + 1, y))
            || (y > 0 && j == Index(size, x, y - 1)) || (y + 1 < size && j == Index(size, x, y + 1))
  {
    IndexOnBoard(size, x, y);
    if x > 0 { StepIndex(size, x - 1, y); }
    StepIndex(size, x, y);
    if y > 0 { StepIndex(size, x, y - 1); }
    assert y == 0 ==> Index(size, x, y) < size;
    assert y + 1 == size ==> y * size + size == size * size;
  }

  lemma NeighboursHave(size: nat, x: nat, y: nat)
    requires x < size && y < size
    ensures x > 0 ==> Index(size, x - 1, y) in Neighbours(size, Index(size, x, y))
    ensures x + 1 < size ==> Index(size, x + 1, y) in Neighbours(size, Index(size, x, y))
    ensures y > 0 ==> Index(size, x, y - 1) in Neighbours(size, Index(size, x, y))
    ensures y + 1 < size ==> Index(size, x, y + 1) in Neighbours(size, Index(size, x, y))
  {
    IndexOnBoard(size, x, y);
    if x > 0 { StepIndex(size, x - 1, y); }
    StepIndex(size, x, y);
    if y > 0 { StepIndex(size, x, y - 1); }
    if y + 1 < size { IndexOnBoard(size, x, y + 1); }
  }

  lemma NeighboursAreTouching(size: nat, i: nat, j: nat)
    requires i < size * size && 0 < size && j in Neighbours(size, i)
    ensures j < size * size && Touching(size, i, j)
  {
    IndexOfPoint(size, i);
    var x, y := i % size, i / size;
    NeighboursAt(size, x, y, j);
    if x > 0 { IndexOnBoard(size, x - 1, y); }
    if x + 1 < size { IndexOnBoard(size, x + 1, y); }
    if y > 0 { IndexOnBoard(size, x, y - 1); }
    if y + 1 < size { IndexOnBoard(size, x, y + 1); }
  }

  lemma TouchingAreNeighbours(size: nat, i: nat, j: nat)
    requires i < size * size && j < size * size && 0 < size && Touching(size, i, j)
    ensures j in Neighbours(size, i)
  {
    IndexOfPoint(size, i);
    IndexOfPoint(size, j);
    NeighboursHave(size, i % size, i / size);
  }

  /** The neighbours are exactly the points one step away on the board: no row wraps around. */
  lemma NeighboursTouch(size: nat, i: nat, j: nat)
    requires i < size * size
    ensures size > 0
    ensures j in Neighbours(size, i) <==> j < size * size && Touching(size, i, j)
  {
    IndexOfPoint(size, i);
    if j in Neighbours(size, i) {
      NeighboursAreTouching(size, i, j);
    } else if j < size * size && Touching(size, i, j) {
      TouchingAreNeighbours(size, i, j);
    }
  }

  ghost function Grid(size: nat): Graph
    requires size > 0
  {
    seq(size * size, (i: nat) requires i < size * size => Neighbours(size, i))
  }

  lemma GridIsGraph(size: nat)
    requires size > 0
    ensures |Grid(size)| == size * size && IsGraph(Grid(size))
  {
    var g := Grid(size);
    forall i: nat, k: nat | i < |g| && k < |g[i]| ensures g[i][k] < |g| {
      NeighboursTouch(size, i, g[i][k]);
    }
    forall i: nat, j: nat | NextTo(g, i, j) ensures NextTo(g, j, i) {
      NeighboursTouch(size, i, j);
      NeighboursTouch(size, j, i);
    }
  }

  // ----- what a move does -----

  datatype Verdict = Refused(why: Refusal) | Accepted(after: Position, taken: set<nat>)

  /** The rules of one stone move: place it, remove the enemy chains it left without a liberty, or,
      when there are none and it has no liberty itself, its own chain where suicide is allowed. */
  ghost function PlayOn(size: nat, p: Position, c: Colour, x: int, y: int, suicide: bool): (v: Verdict)
    requires 0 < size && |p.stones| == size * size
    ensures v.Accepted? ==> |v.after.stones| == size * size
  {
    if !(0 <= x < size && 0 <= y < size) then Refused(OffBoard)
    else
      IndexOnBoard(size, x, y);
      GridIsGraph(size);
      var i := Index(size, x, y);
      if p.stones[i] != Empty then Refused(Occupied)
      else match Resolve(Grid(size), p.stones[i := c], i, suicide)
        case Capture(s, taken) => Accepted(Position(s, p.prisoners.Plus(c, |taken|)), taken)
        case SelfCapture(s, lost) => Accepted(Position(s, p.prisoners.Plus(Opponent(c), |lost|)), {})
        case Suicide => Refused(SuicideForbidden)
  }

  predicate Distinct<T(==)>(q: seq<T>) {
    forall a, b :: 0 <= a < b < |q| ==> q[a] != q[b]
  }

  function Members<T>(q: seq<T>): set<T> {
    set x | x in q
  }

  lemma {:induction false} DistinctSize<T>(q: seq<T>)
    requires Distinct(q)
    ensures |Members(q)| == |q|
  {
    if |q| == 0 {
      assert Members(q) == {};
    } else {
      var p, e := q[..|q| - 1], q[|q| - 1];
      DistinctSize(p);
      assert q == p + [e];
      assert Members(q) == Members(p) + {e};
    }
  }

  lemma DistinctOne<T>(e: T)
    ensures Distinct([e])
  {
  }

  lemma DistinctConcat<T>(p: seq<T>, q: seq<T>)
    requires Distinct(p) && Distinct(q) && Members(p) !! Members(q)
    ensures Distinct(p + q) && Members(p + q) == Members(p) + Members(q)
  {
    forall a, b | 0 <= a < b < |p + q| ensures (p + q)[a] != (p + q)[b] {
      if a < |p| <= b {
        assert p[a] in Members(p) && q[b - |p|] in Members(q);
      }
    }
  }

  /** The points of a list of indices. */
  function PointsOf(size: nat, q: seq<nat>): seq<(nat, nat)>
    requires size > 0
  {
    seq(|q|, k requires 0 <= k < |q| => (q[k] % size, q[k] / size))
  }

  datatype PlayResult = Illegal(why: Refusal) | Captured(points: seq<(nat, nat)>)

  /** `r` lists the points of `taken`, each once. */
  ghost predicate Lists(r: PlayResult, size: nat, taken: set<nat>)
    requires size > 0
  {
    exists q: seq<nat> :: Distinct(q) && Members(q) == taken && r == Captured(PointsOf(size, q))
  }

  lemma NothingListed(size: nat)
    requires size > 0
    ensures Lists(Captured([]), size, {})
  {
    var q: seq<nat> := [];
    assert Distinct(q) && Members(q) == {} && PointsOf(size, q) == [];
  }

  /** What the flood fill owes each neighbour it has looked at. */
  ghost predicate Noticed(s: Stones, color: Cell, seen: set<nat>, hasLiberty: bool, b: nat) {
    b < |s| ==> (s[b] == color ==> b in seen) && (s[b] == Empty ==> hasLiberty)
  }

  ghost predicate Expanded(g: Graph, s: Stones, color: Cell, seen: set<nat>, hasLiberty: bool, a: nat) {
    forall b: nat :: NextTo(g, a, b) ==> Noticed(s, color, seen, hasLiberty, b)
  }

  lemma MoreIsSeen(g: Graph, s: Stones, color: Cell, seen: set<nat>, lib: bool, seen': set<nat>, lib': bool)
    requires seen <= seen' && (lib ==> lib')
    ensures forall b: nat :: Noticed(s, color, seen, lib, b) ==> Noticed(s, color, seen', lib', b)
    ensures forall a: nat :: Expanded(g, s, color, seen, lib, a) ==> Expanded(g, s, color, seen', lib', a)
  {
  }

  class Board {
    const size: nat
    const stones: array<Cell>
    var captures: Tally

    ghost predicate Valid()
      reads this
    {
      0 < size && stones.Length == size * size
    }

    ghost function Now(): Position
      reads this, stones
    {
      Position(stones[..], captures)
    }

    constructor (size: nat, stones: Stones, captures: Tally)
      requires 0 < size && |stones| == size * size
      ensures Valid() && this.size == size && fresh(this.stones)
      ensures Now() == Position(stones, captures)
    {
      this.size := size;
      this.captures := captures;
      this.stones := new Cell[|stones|](k requires 0 <= k < |stones| => stones[k]);
      new;
      assert this.stones[..] == stones;
    }

    /** The points next to `i`. */
    method Around(i: nat, ghost g: Graph) returns (around: seq<nat>)
      requires Valid() && i < size * size && g == Grid(size)
      ensures around == g[i]
    {
      around := Neighbours(size, i);
    }

    /** The connected stones at `i`, and whether an empty point touches them. */
    method Chain(i: nat) returns (chain: seq<nat>, hasLiberty: bool)
      requires Valid() && i < size * size && stones[i] != Empty
      ensures IsGraph(Grid(size)) && |Grid(size)| == size * size
      ensures Distinct(chain) && forall c :: c in chain ==> c < size * size
      ensures Members(chain) == Chains.Chain(Grid(size), stones[..], i)
      ensures hasLiberty <==> HasLiberty(Grid(size), stones[..], Members(chain))
      ensures hasLiberty <==>
              exists a: nat, b: nat :: a in chain && NextTo(Grid(size), a, b) && b < size * size && stones[b] == Empty
    {
      GridIsGraph(size);
      ghost var g, s := Grid(size), stones[..];
      ChainIsClosed(g, s, i);
      chain, hasLiberty := Flood(i, g, Chains.Chain(g, s, i));
      FloodFillIsChain(g, s, i, Members(chain));
      assert forall c :: c in chain ==> c in Members(chain);
    }

    /** The worklist that finds a chain: it stays within any closed set of the colour that holds its
        first point, and ends with a closed set. */
    method Flood(i: nat, ghost g: Graph, ghost whole: set<nat>) returns (chain: seq<nat>, hasLiberty: bool)
      requires Valid() && i < size * size && stones[i] != Empty
      requires g == Grid(size) && On(g, stones[..])
      requires i in whole && Closed(g, stones[..], whole)
      requires forall a :: a in whole ==> a < |g| && stones[a] == stones[i]
      ensures Distinct(chain) && i in chain && Members(chain) <= whole && Closed(g, stones[..], Members(chain))
      ensures hasLiberty <==> HasLiberty(g, stones[..], Members(chain))
    {
      ghost var s := stones[..];
      var color := stones[i];
      var seen := [i];
      var stack := [i];
      ghost var settled: set<nat> := {};
      hasLiberty := false;
      while |stack| > 0
        invariant Distinct(seen) && i in seen && Members(seen) <= whole && |seen| <= |whole|
        invariant forall a :: a in stack ==> a in seen
        invariant forall a :: a in seen ==> a in settled || a in stack
        invariant forall a: nat :: a in settled ==> a in seen && Expanded(g, s, color, Members(seen), hasLiberty, a)
        invariant hasLiberty ==> HasLiberty(g, s, Members(seen))
        decreases |whole| - |seen|, |stack|
      {
        var c := stack[|stack| - 1];
        assert forall a :: a in stack ==> a in stack[..|stack| - 1] || a == c;
        assert c in seen && c in Members(seen);
        ghost var known, found := Members(seen), hasLiberty;
        seen, stack, hasLiberty := Expand(c, color, seen, stack[..|stack| - 1], hasLiberty, g, whole);
        MoreIsSeen(g, s, color, known, found, Members(seen), hasLiberty);
        settled := settled + {c};
      }
      chain := seen;
    }

    /** Look at the neighbours of `c`: those of its colour not seen before join the worklist. */
    method Expand(c: nat, color: Cell, seen0: seq<nat>, stack0: seq<nat>, hasLiberty0: bool,
                  ghost g: Graph, ghost whole: set<nat>)
      returns (seen: seq<nat>, stack: seq<nat>, hasLiberty: bool)
      requires Valid() && c < size * size && stones[c] == color != Empty
      requires g == Grid(size) && On(g, stones[..]) && c in seen0 && Distinct(seen0) && Members(seen0) <= whole
      requires Closed(g, stones[..], whole)
      ensures seen0 <= seen && stack == stack0 + seen[|seen0|..]
      ensures forall a :: a in seen0 ==> a in seen
      ensures forall a :: a in stack ==> a in stack0 || a in seen
      ensures forall a :: a in seen ==> a in seen0 || a in stack
      ensures Distinct(seen) && Members(seen) <= whole && |seen| <= |whole|
      ensures Expanded(g, stones[..], color, Members(seen), hasLiberty, c)
      ensures hasLiberty0 ==> hasLiberty
      ensures hasLiberty ==> hasLiberty0 || HasLiberty(g, stones[..], Members(seen0))
    {
      ghost var s := stones[..];
      var around := Around(c, g);
      assert c in Members(seen0);
      seen, stack, hasLiberty := seen0, stack0, hasLiberty0;
      for k := 0 to |around|
        invariant seen0 <= seen && stack == stack0 + seen[|seen0|..]
        invariant Distinct(seen) && Members(seen) <= whole
        invariant forall b :: b in around[..k] ==> Noticed(s, color, Members(seen), hasLiberty, b)
        invariant hasLiberty0 ==> hasLiberty
        invariant hasLiberty ==> hasLiberty0 || HasLiberty(g, s, Members(seen0))
      {
        var n := around[k];
        assert NextTo(g, c, n);
        assert around[..k + 1] == around[..k] + [n];
        var value := stones[n];
        if value == Empty {
          hasLiberty := true;
        } else if value == color && n !in seen {
          assert n in whole;
          seen := seen + [n];
          stack := stack + [n];
        }
      }
      assert around[..|around|] == g[c];
      assert seen == seen0 + seen[|seen0|..];
      DistinctSize(seen);
      SubsetSize(Members(seen), whole);
    }

    /** Empty the points of a chain. */
    method Remove(chain: seq<nat>)
      requires Valid() && forall c :: c in chain ==> c < size * size
      modifies stones
      ensures stones[..] == Clear(old(stones[..]), Members(chain))
    {
      for k := 0 to |chain|
        invariant stones[..] == Clear(old(stones[..]), Members(chain[..k]))
      {
        assert chain[k] in chain;
        stones[chain[k]] := Empty;
        assert chain[..k + 1] == chain[..k] + [chain[k]];
      }
      assert chain[..|chain|] == chain;
    }

    /** Place a stone, remove the enemy chains it leaves without a liberty, then its own. */
    method Play(color: Colour, x: int, y: int, allowSuicide: bool) returns (r: PlayResult)
      requires Valid()
      modifies this`captures, stones
      ensures match PlayOn(size, old(Now()), color, x, y, allowSuicide)
        case Refused(why) => r == Illegal(why) && Now() == old(Now())
        case Accepted(after, taken) => Now() == after && Lists(r, size, taken)
    {
      if !(0 <= x < size && 0 <= y < size) {
        return Illegal(OffBoard);
      }
      IndexOnBoard(size, x, y);
      GridIsGraph(size);
      var i := Index(size, x, y);
      if stones[i] != Empty {
        return Illegal(Occupied);
      }
      ghost var before := stones[..];
      stones[i] := color;
      assert stones[..] == before[i := color];
      r := Settle(i, Grid(size), allowSuicide);
      NothingListed(size);
      if r.Illegal? {
        stones[i] := Empty;
        assert stones[..] == before;
      }
    }

    /** Resolve the stone just placed at `i`: captures first, then suicide. */
    method Settle(i: nat, ghost g: Graph, allowSuicide: bool) returns (r: PlayResult)
      requires Valid() && i < size * size && stones[i] != Empty
      requires g == Grid(size) && On(g, stones[..])
      modifies this`captures, stones
      ensures match Resolve(g, old(stones[..]), i, allowSuicide)
        case Capture(s, taken) =>
          Now() == Position(s, old(captures).Plus(old(stones[i]), |taken|)) && Lists(r, size, taken)
        case SelfCapture(s, lost) =>
          Now() == Position(s, old(captures).Plus(Opponent(old(stones[i])), |lost|)) && r == Captured([])
        case Suicide => Now() == old(Now()) && r == Illegal(SuicideForbidden)
    {
      var color := stones[i];
      ghost var t := stones[..];
      ChainIsClosed(g, t, i);
      var captured := Capture(i, g);
      DistinctSize(captured);
      if |captured| > 0 {
        assert captured[0] in Members(captured);
        captures := captures.Plus(color, |captured|);
        return Captured(PointsOf(size, captured));
      }
      assert stones[..] == t;
      assert PointsOf(size, captured) == [];
      r := Captured([]);
      var own, hasLiberty := Chain(i);
      if !hasLiberty {
        if !allowSuicide {
          return Illegal(SuicideForbidden);
        }
        Remove(own);
        DistinctSize(own);
        captures := captures.Plus(Opponent(color), |own|);
      }
    }

    /** The removal loop of a move: visit the neighbours of the new stone one at a time. */
    method Capture(i: nat, ghost g: Graph) returns (captured: seq<nat>)
      requires Valid() && i < size * size && stones[i] != Empty
      requires g == Grid(size) && On(g, stones[..])
      modifies stones
      ensures Distinct(captured) && Members(captured) == Dead(g, old(stones[..]), i)
      ensures stones[..] == Clear(old(stones[..]), Members(captured))
    {
      ghost var t := stones[..];
      var enemy := Opponent(stones[i]);
      captured := [];
      var around := Around(i, g);
      for k := 0 to |around|
        invariant Distinct(captured) && TakenSoFar(g, t, i, around[..k], Members(captured))
        invariant stones[..] == Clear(t, Members(captured))
      {
        var n := around[k];
        ghost var gone := Members(captured);
        assert NextTo(g, i, n);
        assert around[..k + 1] == around[..k] + [n];
        if stones[n] == enemy {
          var chain, hasLiberty := Chain(n);
          TakeNext(g, t, i, around[..k], gone, n);
          if !hasLiberty {
            Remove(chain);
            DistinctConcat(captured, chain);
            captured := captured + chain;
          }
        } else {
          SkipNext(g, t, i, around[..k], gone, n);
        }
      }
      assert around[..|around|] == g[i];
      AllTaken(g, t, i, Members(captured));
    }
  }
}
