/** A game without its caches, and what each operation does to it. */
module Records {
  import opened Chains
  import opened Boards
  import opened Rules
  import opened Lines

  /** What a game is, without its caches. */
  datatype GameState = GameState(
    setup: Setup, komi: real, handicap: nat, blackName: string, whiteName: string,
    moves: seq<Move>, cursor: nat, result: string)
  {
    ghost predicate Ok() {
      setup.Ok() && WellPlayed(setup, moves) && cursor <= |moves|
    }

    function ToPlayNow(): Colour
      requires cursor <= |moves|
    {
      ToPlay(setup.first, moves[..cursor])
    }
  }

  /** Playing at the cursor discards the later moves and clears the result. */
  ghost function Played(st: GameState, color: Cell, point: Option<(int, int)>, comment: string): (r: Option<GameState>)
    requires st.Ok()
    ensures r.Some? ==> r.value.Ok()
  {
    var past := st.moves[..st.cursor];
    var j := Judge(st.setup, past, color, point);
    if j.Bad? then None
    else
      var m := Move(color, point, j.captures, comment);
      PrefixWellPlayed(st.setup, st.moves, st.cursor);
      ExtendWellPlayed(st.setup, past, m);
      Some(st.(moves := past + [m], cursor := st.cursor + 1, result := ""))
  }

  /** Undo takes back the last move before the cursor with all that followed; with none it only clears the result. */
  function Undone(st: GameState): (r: GameState)
    requires st.Ok()
    ensures r.Ok()
  {
    if st.cursor == 0 then st.(result := "")
    else
      PrefixWellPlayed(st.setup, st.moves, st.cursor - 1);
      st.(moves := st.moves[..st.cursor - 1], cursor := st.cursor - 1, result := "")
  }

  function Branched(st: GameState): (r: GameState)
    requires st.Ok()
    ensures r.Ok()
  {
    PrefixWellPlayed(st.setup, st.moves, st.cursor);
    st.(moves := st.moves[..st.cursor], result := "")
  }

  /** A legal play followed by an undo leaves what a branch at the cursor would have left. */
  lemma PlayThenUndoIsBranch(st: GameState, color: Cell, point: Option<(int, int)>, comment: string)
    requires st.Ok() && Played(st, color, point, comment).Some?
    ensures Undone(Played(st, color, point, comment).value) == Branched(st)
  {
    var past := st.moves[..st.cursor];
    var st' := Played(st, color, point, comment).value;
    assert st'.moves[..st.cursor] == past;
  }

  function Navigated(st: GameState, index: int): GameState {
    st.(cursor := if index < 0 then 0 else if index > |st.moves| then |st.moves| else index)
  }

  function Resigned(st: GameState, color: Colour): GameState {
    st.(result := if color == Black then "W+R" else "B+R")
  }

  function NewGame(u: Setup, komi: Option<real>, handicap: nat): GameState {
    GameState(u, if komi.Some? then komi.value else if handicap > 0 then HANDICAP_KOMI else u.rules.defaultKomi,
              handicap, "Black", "White", [], 0, "")
  }
}
