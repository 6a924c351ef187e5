/** What a game decides about each operation, told by the plies it stores and by nothing else. */
module StoredRulings {
  import opened Chains
  import opened Boards
  import opened Rules
  import opened Lines
  import opened Records
  import opened PlyCaches
  import opened StoredGames
  import opened FirstSeen

  /** The player to move at a stored ply: the one the game starts with, then the other than the last mover. */
  function NextPlayer(st: GameState, k: nat): Cell
    requires k <= |st.moves|
  {
    if k == 0 then st.setup.first else if st.moves[k - 1].color == Black then White else Black
  }

  /** `stones` stand at the ply `k` with the player who answers `color` to move. */
  predicate SameSituation(v: View, color: Cell, stones: Stones, k: nat)
    requires k < |v.c.snapshots| == |v.st.moves| + 1
  {
    stones == v.c.snapshots[k] && NextPlayer(v.st, k) == if color == Black then White else Black
  }

  /** The ko rules, each on the stored plies up to the cursor. */
  predicate KoForbids(v: View, color: Cell, stones: Stones)
    requires v.st.cursor < |v.c.snapshots| == |v.st.moves| + 1
  {
    match v.st.setup.rules.ko
    case SimpleKo => v.st.cursor > 0 && stones == v.c.snapshots[v.st.cursor - 1]
    case PositionalSuperko => exists k :: 0 <= k <= v.st.cursor && stones == v.c.snapshots[k]
    case SituationalSuperko => exists k :: 0 <= k <= v.st.cursor && SameSituation(v, color, stones, k)
  }

  /** `w` is `v` with everything after the cursor replaced by one ply: the move, and the position it leads to. */
  predicate Continued(v: View, m: Move, after: Position, w: View)
    requires v.st.cursor < |v.c.snapshots| == |v.c.prisoners| == |v.st.moves| + 1
  {
    && w.st == v.st.(moves := v.st.moves[..v.st.cursor] + [m], cursor := v.st.cursor + 1, result := "")
    && w.c.snapshots == v.c.snapshots[..v.st.cursor + 1] + [after.stones]
    && w.c.prisoners == v.c.prisoners[..v.st.cursor + 1] + [after.prisoners]
  }

  lemma SituationOfPly(v: View, color: Colour, stones: Stones, k: nat)
    requires Shaped(v) && k <= v.st.cursor
    ensures Situations(v.st.setup.first, v.st.moves, v.c.snapshots)[k] == Situation(stones, Opponent(color))
            <==> SameSituation(v, color, stones, k)
  {
    assert k > 0 ==> v.st.moves[..k][|v.st.moves[..k]| - 1] == v.st.moves[k - 1];
  }

  lemma KoIsLookedUp(v: View, color: Colour, stones: Stones)
    requires Shaped(v) && Consistent(v)
    ensures KoForbids(v, color, stones) <==> SeenBefore(v.st.setup.rules.ko, v.c, v.st.cursor, color, stones)
  {
    hide WellPlayed, Mirrors, IsFirstSeen, SameSituation;
    match v.st.setup.rules.ko
    case SimpleKo =>
    case PositionalSuperko => LookupIsScan(v.c.firstSeen, v.c.snapshots, stones, v.st.cursor);
    case SituationalSuperko =>
      hide Situations;
      var q := Situations(v.st.setup.first, v.st.moves, v.c.snapshots);
      LookupIsScan(v.c.firstSeenToPlay, q, Situation(stones, Opponent(color)), v.st.cursor);
      forall k: nat | k <= v.st.cursor
        ensures q[k] == Situation(stones, Opponent(color)) <==> SameSituation(v, color, stones, k)
      {
        SituationOfPly(v, color, stones, k);
      }
  }

  lemma PlayContinues(v: View, color: Colour, point: Option<(int, int)>, comment: string, after: Position, n: nat)
    requires Shaped(v) && Consistent(v)
    requires JudgeCached(v.st.setup, v.c, v.st.cursor, color, point) == Good(after, n)
    ensures PlayView(v, color, point, comment).1 == None
    ensures Continued(v, Move(color, point, n, comment), after, PlayView(v, color, point, comment).0)
  {
    hide JudgeCached, After, LegalAt, Situations, ForgetDown;
    var t := TruncateView(v, v.st.cursor);
    TruncateAgrees(v, v.st.cursor);
    assert Shared(t.c, after.stones) == after.stones;
  }

  /** The position at the cursor. */
  function Here(v: View): (p: Position)
    requires v.st.cursor < |v.c.snapshots| == |v.c.prisoners|
    ensures p == Position(v.c.snapshots[v.st.cursor], v.c.prisoners[v.st.cursor])
  {
    Position(v.c.snapshots[v.st.cursor], v.c.prisoners[v.st.cursor])
  }

  /** What becomes of a move at the cursor of `v`: `w` is the game afterwards and `error` the answer. */
  ghost predicate Ruled(v: View, color: Cell, point: Option<(int, int)>, comment: string, w: View,
                        error: Option<Refusal>)
    requires Shaped(v)
  {
    var here := Here(v);
    if color == Empty then error == Some(UnknownColour) && w == v
    else if v.st.cursor >= v.st.setup.maxMoves then error == Some(GameFull) && w == v
    else if point.None? then error == None && Continued(v, Move(color, None, 0, comment), here, w)
    else
      match PlayOn(v.st.setup.size, here, color, point.value.0, point.value.1, v.st.setup.rules.suicide)
      case Refused(why) => error == Some(why) && w == v
      case Accepted(after, taken) =>
        if KoForbids(v, color, after.stones)
        then error == Some(if v.st.setup.rules.ko.SimpleKo? then KoForbidden else SuperkoForbidden) && w == v
        else error == None && Continued(v, Move(color, point, |taken|, comment), after, w)
  }

  /** A stone move the board accepts is refused for ko exactly when the stored plies up to the cursor forbid it;
      anything else below the cap is played. */
  lemma PlayIsRuled(v: View, color: Cell, point: Option<(int, int)>, comment: string)
    requires Shaped(v) && Consistent(v)
    ensures Ruled(v, color, point, comment, PlayView(v, color, point, comment).0, PlayView(v, color, point, comment).1)
  {
    hide PlayOn, SeenBefore, KoForbids, Continued, Consistent, AppendView, TruncateView;
    if color != Empty && point.Some? {
      var here := Here(v);
      var verdict := PlayOn(v.st.setup.size, here, color, point.value.0, point.value.1, v.st.setup.rules.suicide);
      if verdict.Accepted? {
        KoIsLookedUp(v, color, verdict.after.stones);
      }
    }
    match JudgeCached(v.st.setup, v.c, v.st.cursor, color, point)
    case Good(after, n) => PlayContinues(v, color, point, comment, after, n);
    case Bad(_) =>
  }

  /** An undo leaves the plies before the last move played at the cursor, and no result. */
  predicate TakenBack(v: View, w: View)
    requires v.st.cursor < |v.c.snapshots| == |v.c.prisoners| == |v.st.moves| + 1
  {
    if v.st.cursor == 0 then w == v.(st := v.st.(result := ""))
    else
      && w.st == v.st.(moves := v.st.moves[..v.st.cursor - 1], cursor := v.st.cursor - 1, result := "")
      && w.c.snapshots == v.c.snapshots[..v.st.cursor] && w.c.prisoners == v.c.prisoners[..v.st.cursor]
  }

  /** A branch leaves the plies up to the cursor, and no result. */
  predicate CutHere(v: View, w: View)
    requires v.st.cursor < |v.c.snapshots| == |v.c.prisoners| == |v.st.moves| + 1
  {
    && w.st == v.st.(moves := v.st.moves[..v.st.cursor], result := "")
    && w.c.snapshots == v.c.snapshots[..v.st.cursor + 1] && w.c.prisoners == v.c.prisoners[..v.st.cursor + 1]
  }

  lemma UndoTakesBack(v: View)
    requires Shaped(v)
    ensures TakenBack(v, UndoView(v))
  {
    hide ForgetDown;
  }

  lemma BranchCuts(v: View)
    requires Shaped(v)
    ensures CutHere(v, BranchView(v))
  {
    hide ForgetDown;
  }

  // ----- after any run -----

  lemma OneMore(start: View, ops: seq<Op>, op: Op)
    requires Shaped(start)
    ensures Run(start, ops + [op]) == Do(Run(start, ops), op)
  {
    hide Do;
    assert (ops + [op])[..|ops|] == ops;
  }

  lemma KoSpeltOut(v: View, color: Cell, stones: Stones)
    requires Shaped(v)
    ensures var q, ms, cursor := v.c.snapshots, v.st.moves, v.st.cursor;
            KoForbids(v, color, stones) <==>
              match v.st.setup.rules.ko
              case SimpleKo => cursor > 0 && stones == q[cursor - 1]
              case PositionalSuperko => exists k :: 0 <= k <= cursor && stones == q[k]
              case SituationalSuperko =>
                exists k :: 0 <= k <= cursor && stones == q[k]
                  && (if k == 0 then v.st.setup.first else if ms[k - 1].color == Black then White else Black)
                     == (if color == Black then White else Black)
  {
    if v.st.setup.rules.ko.SituationalSuperko? {
      if k :| 0 <= k <= v.st.cursor && SameSituation(v, color, stones, k) {
        assert stones == v.c.snapshots[k];
      }
      if k :| 0 <= k <= v.st.cursor && stones == v.c.snapshots[k]
              && NextPlayer(v.st, k) == (if color == Black then White else Black) {
        assert SameSituation(v, color, stones, k);
      }
    }
  }

  /** After any run a stone move that the board accepts, below the cap, is refused for ko exactly when it gives the
      snapshot one ply before the cursor, under simple ko; any snapshot up to the cursor, under positional superko;
      or one of those with the player who answers to move, under situational superko. Otherwise it is played: it
      replaces every ply after the cursor. */
  lemma StoneAfterAnyRun(start: View, ops: seq<Op>, v: View, color: Colour, x: int, y: int, comment: string)
    requires Shaped(start) && Consistent(start) && Shaped(v) && v == Run(start, ops)
    requires v.st.cursor < v.st.setup.maxMoves
    requires PlayOn(v.st.setup.size, Here(v), color, x, y, v.st.setup.rules.suicide).Accepted?
    ensures var (w, error) := PlayView(v, color, Some((x, y)), comment);
            var verdict := PlayOn(v.st.setup.size, Here(v), color, x, y, v.st.setup.rules.suicide);
            var q, ms, cursor, stones := v.c.snapshots, v.st.moves, v.st.cursor, verdict.after.stones;
            var forbidden :=
              match v.st.setup.rules.ko
              case SimpleKo => cursor > 0 && stones == q[cursor - 1]
              case PositionalSuperko => exists k :: 0 <= k <= cursor && stones == q[k]
              case SituationalSuperko =>
                exists k :: 0 <= k <= cursor && stones == q[k]
                  && (if k == 0 then v.st.setup.first else if ms[k - 1].color == Black then White else Black)
                     == (if color == Black then White else Black);
            && w == Run(start, ops + [PlayOp(color, Some((x, y)), comment)])
            && if forbidden
               then w == v && error == Some(if v.st.setup.rules.ko.SimpleKo? then KoForbidden else SuperkoForbidden)
               else
                 && error == None
                 && w.st == v.st.(moves := ms[..cursor] + [Move(color, Some((x, y)), |verdict.taken|, comment)],
                                  cursor := cursor + 1, result := "")
                 && w.c.snapshots == q[..cursor + 1] + [stones]
                 && w.c.prisoners == v.c.prisoners[..cursor + 1] + [verdict.after.prisoners]
  {
    hide Run, Consistent, PlayView, PlayOn, KoForbids;
    RunStaysConsistent(start, ops);
    OneMore(start, ops, PlayOp(color, Some((x, y)), comment));
    PlayIsRuled(v, color, Some((x, y)), comment);
    KoSpeltOut(v, color, PlayOn(v.st.setup.size, Here(v), color, x, y, v.st.setup.rules.suicide).after.stones);
  }

  /** After any run: what becomes of every other move. */
  lemma OtherMovesAfterAnyRun(start: View, ops: seq<Op>, v: View, color: Cell, point: Option<(int, int)>,
                              comment: string)
    requires Shaped(start) && Consistent(start) && Shaped(v) && v == Run(start, ops)
    ensures var (w, error) := PlayView(v, color, point, comment);
            var n := v.st.cursor;
            && w == Run(start, ops + [PlayOp(color, point, comment)])
            && (color == Empty ==> w == v && error == Some(UnknownColour))
            && (color != Empty && n >= v.st.setup.maxMoves ==> w == v && error == Some(GameFull))
            && (color != Empty && n < v.st.setup.maxMoves && point.Some? ==>
                  var verdict := PlayOn(v.st.setup.size, Here(v), color, point.value.0, point.value.1,
                                        v.st.setup.rules.suicide);
                  verdict.Refused? ==> w == v && error == Some(verdict.why))
            && (color != Empty && n < v.st.setup.maxMoves && point.None? ==>
                  && error == None
                  && w.st == v.st.(moves := v.st.moves[..n] + [Move(color, None, 0, comment)], cursor := n + 1,
                                   result := "")
                  && w.c.snapshots == v.c.snapshots[..n + 1] + [v.c.snapshots[n]]
                  && w.c.prisoners == v.c.prisoners[..n + 1] + [v.c.prisoners[n]])
  {
    hide Run, Consistent, PlayView, PlayOn, KoForbids;
    RunStaysConsistent(start, ops);
    OneMore(start, ops, PlayOp(color, point, comment));
    PlayIsRuled(v, color, point, comment);
  }

  /** After any run an undo takes back the move before the cursor with everything after it, and at the start only the
      result; a branch keeps the plies up to the cursor. */
  lemma TakingBackAfterAnyRun(start: View, ops: seq<Op>)
    requires Shaped(start)
    ensures var v, w := Run(start, ops), Run(start, ops + [UndoOp]);
            var n := v.st.cursor;
            if n == 0 then w == v.(st := v.st.(result := ""))
            else
              && w.st == v.st.(moves := v.st.moves[..n - 1], cursor := n - 1, result := "")
              && w.c.snapshots == v.c.snapshots[..n] && w.c.prisoners == v.c.prisoners[..n]
    ensures var v, w := Run(start, ops), Run(start, ops + [BranchOp]);
            var n := v.st.cursor;
            && w.st == v.st.(moves := v.st.moves[..n], result := "")
            && w.c.snapshots == v.c.snapshots[..n + 1] && w.c.prisoners == v.c.prisoners[..n + 1]
  {
    hide Run, Consistent, PlayView, UndoView, BranchView;
    UndoTakesBack(Run(start, ops));
    BranchCuts(Run(start, ops));
    OneMore(start, ops, UndoOp);
    OneMore(start, ops, BranchOp);
  }

  /** After any run navigation moves only the cursor, to the nearest ply there is; a resignation changes only the
      result, to a win of the other colour. */
  lemma NavigatingAfterAnyRun(start: View, ops: seq<Op>, index: int, loser: Colour)
    requires Shaped(start)
    ensures var v, w := Run(start, ops), Run(start, ops + [NavigateOp(index)]);
            && w == v.(st := v.st.(cursor := w.st.cursor))
            && (0 <= index <= |v.st.moves| ==> w.st.cursor == index)
            && (index < 0 ==> w.st.cursor == 0) && (index > |v.st.moves| ==> w.st.cursor == |v.st.moves|)
    ensures var v := Run(start, ops);
            Run(start, ops + [ResignOp(loser)]) == v.(st := v.st.(result := if loser == Black then "W+R" else "B+R"))
  {
    hide Run, Consistent, PlayView, UndoView, BranchView;
    OneMore(start, ops, ResignOp(loser));
    OneMore(start, ops, NavigateOp(index));
  }

  // ----- without stored plies -----

  /** The same ruling for a game that stores nothing: the positions are the rules replayed over its moves. */
  lemma PlayedIsRuled(g: GameState, color: Cell, point: Option<(int, int)>, comment: string)
    requires g.Ok()
    ensures color == Empty || g.cursor >= g.setup.maxMoves ==> Played(g, color, point, comment) == None
    ensures color != Empty && g.cursor < g.setup.maxMoves && point.None? ==>
              Played(g, color, point, comment)
              == Some(g.(moves := g.moves[..g.cursor] + [Move(color, None, 0, comment)], cursor := g.cursor + 1,
                         result := ""))
    ensures color != Empty && g.cursor < g.setup.maxMoves && point.Some? ==>
              var n, (x, y) := g.cursor, point.value;
              var verdict := PlayOn(g.setup.size, After(g.setup, g.moves[..n]), color, x, y, g.setup.rules.suicide);
              if verdict.Refused? then Played(g, color, point, comment) == None
              else
                var stones := verdict.after.stones;
                var forbidden :=
                  match g.setup.rules.ko
                  case SimpleKo => n > 0 && stones == After(g.setup, g.moves[..n - 1]).stones
                  case PositionalSuperko =>
                    exists k :: 0 <= k <= n && stones == After(g.setup, g.moves[..k]).stones
                  case SituationalSuperko =>
                    exists k :: 0 <= k <= n && stones == After(g.setup, g.moves[..k]).stones
                      && (if k == 0 then g.setup.first else if g.moves[k - 1].color == Black then White else Black)
                         == (if color == Black then White else Black);
                Played(g, color, point, comment)
                == if forbidden then None
                   else Some(g.(moves := g.moves[..n] + [Move(color, point, |verdict.taken|, comment)], cursor := n + 1,
                                result := ""))
  {
    hide PlayOn, After, WellPlayed;
    forall k | 0 <= k <= g.cursor
      ensures g.moves[..g.cursor][..k] == g.moves[..k]
      ensures ToPlay(g.setup.first, g.moves[..k])
           == if k == 0 then g.setup.first else if g.moves[k - 1].color == Black then White else Black
    {
    }
  }

  // ----- where a run begins -----

  predicate AllInside(size: nat, stones: seq<SetupStone>) {
    0 < size && forall k :: 0 <= k < |stones| ==> stones[k].x < size && stones[k].y < size
  }

  lemma LastStoneFirst(size: nat, stones: seq<SetupStone>, x: nat, y: nat)
    requires AllInside(size, stones) && x < size && y < size && stones != []
    ensures y * size + x < size * size
    ensures var past, last := stones[..|stones| - 1], stones[|stones| - 1];
            StartFrom(size, stones)[y * size + x]
            == if last.x == x && last.y == y then last.color else StartFrom(size, past)[y * size + x]
  {
    var last := stones[|stones| - 1];
    IndexOnBoard(size, x, y);
    IndexOnBoard(size, last.x, last.y);
  }

  /** A setup stone stands at the start when no later one is on its point. */
  lemma {:induction false} SetupStoneStands(size: nat, stones: seq<SetupStone>, k: nat)
    requires AllInside(size, stones) && k < |stones|
    requires forall j :: k < j < |stones| ==> stones[j].x != stones[k].x || stones[j].y != stones[k].y
    ensures stones[k].y * size + stones[k].x < size * size
    ensures StartFrom(size, stones)[stones[k].y * size + stones[k].x] == stones[k].color
    decreases |stones|
  {
    LastStoneFirst(size, stones, stones[k].x, stones[k].y);
    if k < |stones| - 1 {
      SetupStoneStands(size, stones[..|stones| - 1], k);
    }
  }

  /** A new game: the starting position and no moves. Without a komi it has that of its rules, or half a point when
      there is a handicap. */
  lemma NewGameStands(u: Setup, komi: Option<real>, handicap: nat)
    requires u.Ok()
    ensures var v := NewView(u, komi, handicap);
            && Consistent(v) && v.st.setup == u && v.st.moves == [] && v.st.cursor == 0 && v.st.result == ""
            && v.st.blackName == "Black" && v.st.whiteName == "White" && v.st.handicap == handicap
            && (komi.Some? ==> v.st.komi == komi.value)
            && (komi.None? ==> v.st.komi == if handicap > 0 then 0.5 else u.rules.defaultKomi)
            && v.c.snapshots == [StartFrom(u.size, u.stones)] && v.c.prisoners == [Tally(0, 0)]
  {
    NewIsConsistent(u, komi, handicap);
  }
}
