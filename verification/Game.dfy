/** The game class: one line of play with a cursor, a snapshot for every ply and two indexes of where
    each position was first seen. Each method is tied to the function of the same operation on views,
    whose agreement with the plain history is proved beside it. */
module Games {
  import opened Chains
  import opened Boards
  import opened Rules
  import opened Lines
  import opened Records
  import opened FirstSeen
  import opened PlyCaches
  import opened StoredRulings

  class Game {
    const maxMoves: nat
    var size: nat
    var rules: RuleSet
    var handicap: nat
    var komi: real
    var result: string
    var blackName: string
    var whiteName: string
    var setupStones: seq<SetupStone>
    var firstPlayer: Colour
    var moves: seq<Move>
    var cursor: nat
    var snapshots: seq<Stones>
    var prisoners: seq<Tally>
    var firstSeen: map<Stones, nat>
    var firstSeenToPlay: map<Situation, nat>

    ghost function Now(): View
      reads this
    {
      View(GameState(Setup(size, rules, setupStones, firstPlayer, maxMoves), komi, handicap, blackName, whiteName,
                     moves, cursor, result),
           Caches(snapshots, prisoners, firstSeen, firstSeenToPlay))
    }

    ghost predicate Valid()
      reads this
    {
      Shaped(Now())
    }

    constructor FromSetup(size: nat, rules: RuleSet, komi: Option<real>, handicap: nat,
                          stones: seq<SetupStone>, first: Colour, maxMoves: nat)
      requires Setup(size, rules, stones, first, maxMoves).Ok()
      ensures Valid() && Now() == NewView(Setup(size, rules, stones, first, maxMoves), komi, handicap)
    {
      var key := StartingStones(size, stones);
      this.maxMoves, this.size, this.rules, this.handicap := maxMoves, size, rules, handicap;
      this.komi := if komi.Some? then komi.value else if handicap > 0 then HANDICAP_KOMI else rules.defaultKomi;
      result, blackName, whiteName := "", "Black", "White";
      setupStones, firstPlayer, moves, cursor := stones, first, [], 0;
      snapshots, prisoners := [key], [Tally(0, 0)];
      firstSeen, firstSeenToPlay := map[key := 0], map[Situation(key, first) := 0];
    }

    /** The board a game starts from: each setup stone overwrites its point. */
    static method StartingStones(size: nat, stones: seq<SetupStone>) returns (key: Stones)
      requires 0 < size && forall k :: 0 <= k < |stones| ==> stones[k].x < size && stones[k].y < size
      ensures key == StartFrom(size, stones)
    {
      var start := new Cell[size * size](_ => Empty);
      for k := 0 to |stones|
        invariant start[..] == StartFrom(size, stones[..k])
      {
        IndexOnBoard(size, stones[k].x, stones[k].y);
        start[Index(size, stones[k].x, stones[k].y)] := stones[k].color;
        assert stones[..k + 1][..k] == stones[..k];
      }
      assert stones[..|stones|] == stones;
      key := start[..];
    }

    /** Try a move at the cursor on a copy of the position there. */
    method Attempt(color: Cell, point: Option<(int, int)>)
      returns (error: Option<Refusal>, board: Board?, captures: nat)
      requires 0 < size && cursor < |snapshots| == |prisoners| && |snapshots[cursor]| == size * size
      ensures match JudgeCached(Now().st.setup, Now().c, cursor, color, point)
        case Bad(why) => error == Some(why)
        case Good(after, n) =>
          error == None && board != null && fresh(board) && board.Now() == after && captures == n
    {
      if color == Empty {
        return Some(UnknownColour), null, 0;
      }
      if cursor >= maxMoves {
        return Some(GameFull), null, 0;
      }
      board := new Board(size, snapshots[cursor], prisoners[cursor]);
      if point.None? {
        return None, board, 0;
      }
      var r := board.Play(color, point.value.0, point.value.1, rules.suicide);
      if r.Illegal? {
        return Some(r.why), null, 0;
      }
      var key := board.stones[..];
      if SeenBefore(rules.ko, Caches(snapshots, prisoners, firstSeen, firstSeenToPlay), cursor, color, key) {
        return Some(if rules.ko.SimpleKo? then KoForbidden else SuperkoForbidden), null, 0;
      }
      ghost var q: seq<nat> :| Distinct(q) && r == Captured(PointsOf(size, q))
        && Members(q) == PlayOn(size, Position(snapshots[cursor], prisoners[cursor]), color,
                                point.value.0, point.value.1, rules.suicide).taken;
      DistinctSize(q);
      return None, board, |r.points|;
    }

    /** Drop the plies after `ply`, newest first, and what the indexes have of them alone. */
    method Truncate(ply: nat)
      requires Valid() && cursor <= ply <= |moves|
      modifies `moves, `snapshots, `prisoners, `firstSeen, `firstSeenToPlay
      ensures Valid() && Now() == TruncateView(old(Now()), ply)
    {
      ForgetFrom(ply);
      snapshots := snapshots[..ply + 1];
      prisoners := prisoners[..ply + 1];
      moves := moves[..ply];
    }

    /** Forget the index entries first seen after `ply`. */
    method ForgetFrom(ply: nat)
      requires |snapshots| == |moves| + 1 && ply <= |moves|
      modifies `firstSeen, `firstSeenToPlay
      ensures Indexes(firstSeen, firstSeenToPlay)
           == ForgetDown(firstPlayer, moves, snapshots, Indexes(old(firstSeen), old(firstSeenToPlay)), |moves|, ply)
    {
      var i := |snapshots| - 1;
      ghost var x := Indexes(firstSeen, firstSeenToPlay);
      while i > ply
        invariant ply <= i <= |moves|
        invariant ForgetDown(firstPlayer, moves, snapshots, Indexes(firstSeen, firstSeenToPlay), i, ply)
               == ForgetDown(firstPlayer, moves, snapshots, x, |moves|, ply)
      {
        var key := snapshots[i];
        firstSeen := Forget(firstSeen, key, i);
        firstSeenToPlay := Forget(firstSeenToPlay, Situation(key, Opponent(moves[i - 1].color)), i);
        i := i - 1;
      }
    }

    /** A legal move replaces what follows the cursor; a refused move changes nothing. */
    method Play(color: Cell, point: Option<(int, int)>, comment: string) returns (error: Option<Refusal>)
      requires Valid()
      modifies `moves, `snapshots, `prisoners, `firstSeen, `firstSeenToPlay, `cursor, `result
      ensures Valid() && (Now(), error) == PlayView(old(Now()), color, point, comment)
      ensures Consistent(old(Now())) ==> Ruled(old(Now()), color, point, comment, Now(), error)
    {
      hide Consistent, Ruled;
      if Consistent(Now()) { PlayIsRuled(Now(), color, point, comment); }
      var board, captured;
      error, board, captured := Attempt(color, point);
      if error.Some? {
        return;
      }
      Commit(Move(color, point, captured, comment), board.stones[..], board.captures);
    }

    /** Replace the plies after the cursor by the one a legal move leads to. */
    method Commit(move: Move, stones: Stones, captures: Tally)
      requires Valid() && |stones| == size * size
      modifies `moves, `snapshots, `prisoners, `firstSeen, `firstSeenToPlay, `cursor, `result
      ensures Now() == AppendView(TruncateView(old(Now()), old(cursor)), move, Position(stones, captures))
    {
      Truncate(cursor);
      Append(move, stones, captures);
    }

    /** Add the ply a legal move leads to; a position seen before shares that ply's snapshot. */
    method Append(move: Move, stones: Stones, captures: Tally)
      modifies `moves, `snapshots, `prisoners, `firstSeen, `firstSeenToPlay, `cursor, `result
      ensures moves == old(moves) + [move] && cursor == |old(snapshots)| && result == ""
      ensures Caches(snapshots, prisoners, firstSeen, firstSeenToPlay)
           == WithNext(old(Caches(snapshots, prisoners, firstSeen, firstSeenToPlay)), Position(stones, captures),
                       Opponent(move.color))
    {
      var key := stones;
      if key in firstSeen && firstSeen[key] < |snapshots| {
        key := snapshots[firstSeen[key]];
      }
      var ply := |snapshots|;
      moves := moves + [move];
      snapshots := snapshots + [key];
      prisoners := prisoners + [captures];
      firstSeen := SetDefault(firstSeen, key, ply);
      firstSeenToPlay := SetDefault(firstSeenToPlay, Situation(key, Opponent(move.color)), ply);
      cursor := ply;
      result := "";
    }

    /** Take back the last move before the cursor; what followed goes with it. */
    method Undo() returns (move: Option<Move>)
      requires Valid()
      modifies `moves, `snapshots, `prisoners, `firstSeen, `firstSeenToPlay, `cursor, `result
      ensures Valid() && Now() == UndoView(old(Now())) && TakenBack(old(Now()), Now())
      ensures move == if old(cursor) == 0 then None else Some(old(moves)[old(cursor) - 1])
    {
      UndoTakesBack(Now());
      result := "";
      if cursor == 0 {
        return None;
      }
      move := Some(moves[cursor - 1]);
      cursor := cursor - 1;
      Truncate(cursor);
    }

    method Navigate(index: int) returns (c: nat)
      requires Valid()
      modifies `cursor
      ensures Valid() && c == cursor
      ensures Now() == old(Now()).(st := Navigated(old(Now()).st, index))
    {
      cursor := if index < 0 then 0 else if index > |moves| then |moves| else index;
      c := cursor;
    }

    /** Discard every move after the cursor, and the result with them. */
    method Branch()
      requires Valid()
      modifies `moves, `snapshots, `prisoners, `firstSeen, `firstSeenToPlay, `result
      ensures Valid() && Now() == BranchView(old(Now())) && CutHere(old(Now()), Now())
    {
      BranchCuts(Now());
      Truncate(cursor);
      result := "";
    }

    method Resign(color: Colour)
      requires Valid()
      modifies `result
      ensures Valid() && Now() == old(Now()).(st := Resigned(old(Now()).st, color))
    {
      result := if color == Black then "W+R" else "B+R";
    }
  }
}
