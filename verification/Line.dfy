/** A line of play as plain history: setup stones and moves, judged by scanning every earlier ply.
    Nothing here is cached; the game class is proved to agree with it. */
module Lines {
  import opened Chains
  import opened Boards
  import opened Rules

  /** Most moves a game of the program holds; the model takes any cap. */
  const MAX_MOVES := 2000

  datatype SetupStone = SetupStone(color: Colour, x: nat, y: nat)

  datatype Setup = Setup(size: nat, rules: RuleSet, stones: seq<SetupStone>, first: Colour, maxMoves: nat) {
    ghost predicate Ok() {
      0 < size && forall k :: 0 <= k < |stones| ==> stones[k].x < size && stones[k].y < size
    }
  }

  /** One played move; a pass has no point. */
  datatype Move = Move(color: Colour, point: Option<(int, int)>, captures: nat, comment: string)

  /** The stones a game starts from, each setup stone overwriting its point. */
  ghost function StartFrom(size: nat, stones: seq<SetupStone>): (s: Stones)
    requires 0 < size && forall k :: 0 <= k < |stones| ==> stones[k].x < size && stones[k].y < size
    ensures |s| == size * size
  {
    if stones == [] then seq(size * size, _ => Empty)
    else
      var last := stones[|stones| - 1];
      IndexOnBoard(size, last.x, last.y);
      StartFrom(size, stones[..|stones| - 1])[Index(size, last.x, last.y) := last.color]
  }

  ghost function Start(u: Setup): (s: Stones)
    requires u.Ok()
    ensures |s| == u.size * u.size
  {
    StartFrom(u.size, u.stones)
  }

  ghost function Advance(u: Setup, p: Position, m: Move): (q: Position)
    requires u.Ok() && |p.stones| == u.size * u.size
    ensures |q.stones| == u.size * u.size
  {
    if m.point.None? then p
    else match PlayOn(u.size, p, m.color, m.point.value.0, m.point.value.1, u.rules.suicide)
      case Accepted(after, _) => after
      case Refused(_) => p
  }

  /** The rules folded over setup and moves; a move the board refuses would leave it as it was. */
  ghost function After(u: Setup, ms: seq<Move>): (p: Position)
    requires u.Ok()
    ensures |p.stones| == u.size * u.size
  {
    if ms == [] then Position(Start(u), Tally(0, 0))
    else
      Advance(u, After(u, ms[..|ms| - 1]), ms[|ms| - 1])
  }

  function ToPlay(first: Colour, ms: seq<Move>): Colour {
    if ms == [] then first else Opponent(ms[|ms| - 1].color)
  }

  datatype Judgement = Bad(why: Refusal) | Good(after: Position, captures: nat)

  /** Whether `stones`, reached by `color` after `ms`, is a repeat the ko rule forbids. */
  ghost predicate Repeats(u: Setup, ms: seq<Move>, color: Colour, stones: Stones)
    requires u.Ok()
  {
    match u.rules.ko
    case SimpleKo => ms != [] && stones == After(u, ms[..|ms| - 1]).stones
    case PositionalSuperko => exists k :: 0 <= k <= |ms| && stones == After(u, ms[..k]).stones
    case SituationalSuperko =>
      exists k :: 0 <= k <= |ms| && stones == After(u, ms[..k]).stones && ToPlay(u.first, ms[..k]) == Opponent(color)
  }

  /** Judge a move after `ms` by the history alone. `Empty` stands for any unknown colour. */
  ghost function Judge(u: Setup, ms: seq<Move>, color: Cell, point: Option<(int, int)>): Judgement
    requires u.Ok()
  {
    if color == Empty then Bad(UnknownColour)
    else if |ms| >= u.maxMoves then Bad(GameFull)
    else if point.None? then Good(After(u, ms), 0)
    else match PlayOn(u.size, After(u, ms), color, point.value.0, point.value.1, u.rules.suicide)
      case Refused(why) => Bad(why)
      case Accepted(after, taken) =>
        if Repeats(u, ms, color, after.stones)
        then Bad(if u.rules.ko.SimpleKo? then KoForbidden else SuperkoForbidden)
        else Good(after, |taken|)
  }

  /** Each move was legal after the moves before it, and records the stones it took. */
  ghost predicate WellPlayed(u: Setup, ms: seq<Move>)
    requires u.Ok()
  {
    forall n :: 0 <= n < |ms| ==> LegalAt(u, ms, n)
  }

  ghost predicate LegalAt(u: Setup, ms: seq<Move>, n: nat)
    requires u.Ok() && n < |ms|
  {
    var j := Judge(u, ms[..n], ms[n].color, ms[n].point);
    j.Good? && j.captures == ms[n].captures
  }

  // ----- prefixes -----

  lemma PrefixWellPlayed(u: Setup, ms: seq<Move>, n: nat)
    requires u.Ok() && WellPlayed(u, ms) && n <= |ms|
    ensures WellPlayed(u, ms[..n])
  {
    forall k | 0 <= k < n ensures LegalAt(u, ms[..n], k) {
      assert LegalAt(u, ms, k) && ms[..n][..k] == ms[..k];
    }
  }

  lemma ExtendWellPlayed(u: Setup, ms: seq<Move>, m: Move)
    requires u.Ok() && WellPlayed(u, ms)
    requires Judge(u, ms, m.color, m.point).Good? && Judge(u, ms, m.color, m.point).captures == m.captures
    ensures WellPlayed(u, ms + [m])
    ensures After(u, ms + [m]) == Judge(u, ms, m.color, m.point).after
  {
    var all := ms + [m];
    assert all[..|ms|] == ms;
    forall k | 0 <= k < |all| ensures LegalAt(u, all, k) {
      if k < |ms| {
        assert LegalAt(u, ms, k) && all[..k] == ms[..k];
      }
    }
  }

  lemma WellPlayedFits(u: Setup, ms: seq<Move>)
    requires u.Ok() && WellPlayed(u, ms)
    ensures |ms| <= u.maxMoves
  {
    if |ms| > 0 { assert LegalAt(u, ms, |ms| - 1); }
  }

  /** A legal stone move leads where its judgement says, never to a forbidden repeat. */
  lemma LegalStep(u: Setup, ms: seq<Move>, n: nat)
    requires u.Ok() && WellPlayed(u, ms) && n < |ms|
    ensures ms[n].point.None? ==> After(u, ms[..n + 1]) == After(u, ms[..n]) && ms[n].captures == 0
    ensures ms[n].point.Some? ==>
              var at := ms[n].point.value;
              var v := PlayOn(u.size, After(u, ms[..n]), ms[n].color, at.0, at.1, u.rules.suicide);
              v.Accepted? && After(u, ms[..n + 1]) == v.after && ms[n].captures == |v.taken|
              && !Repeats(u, ms[..n], ms[n].color, v.after.stones)
  {
    assert LegalAt(u, ms, n);
    assert ms[..n + 1][..n] == ms[..n] && ms[..n + 1][n] == ms[n];
  }
}
