/** The session object: its handlers change the board list, the versions and the job in progress in place,
    and each is proved to be one event of the session's model. */
module GameSessions {
  import opened Chains
  import opened Boards
  import opened Rules
  import opened Lines
  import opened Records
  import opened Sessions
  import opened SessionRuns
  import opened StoredRulings

  class GameSession {
    var boards: seq<Slot>
    var active: nat
    var nextId: nat
    var nextVersion: nat
    var epoch: nat
    var playersEpoch: nat
    var blackIsEngine: bool
    var whiteIsEngine: bool
    var analysisEnabled: bool
    var engine: Option<nat>
    var nextEngine: nat
    var job: Job
    var sinks: seq<Sink>
    /** What every version handed out so far has named. */
    ghost var seen: map<nat, GameState>

    ghost function Now(): Session
      reads this
    {
      Session(boards, active, nextId, nextVersion, epoch, playersEpoch, blackIsEngine, whiteIsEngine,
              analysisEnabled, engine, nextEngine, job, sinks, seen)
    }

    ghost predicate Valid()
      reads this
    {
      Inv(Now())
    }

    /** One board with an empty game; the process has handed out the versions below `version`. */
    constructor (game: GameState, version: nat)
      requires game.Ok()
      ensures Valid() && boards == [Slot(1, game, version, None, 0)] && active == 1 && job == Idle
    {
      boards, active, nextId := [Slot(1, game, version, None, 0)], 1, 2;
      nextVersion, epoch, playersEpoch := version + 1, 0, 0;
      blackIsEngine, whiteIsEngine, analysisEnabled := false, false, true;
      engine, nextEngine, job, sinks := None, 0, Idle, [];
      seen := map[version := Content(game)];
    }

    /** The active board's position names change by every play, undo, navigation, load and console command. */
    method PositionChanged(i: nat, game: GameState)
      requires i < |boards|
      modifies `boards, `nextVersion, `seen
      ensures Now() == Repositioned(old(Now()), i, game)
    {
      boards := boards[i := boards[i].(game := game)];
      seen := seen[nextVersion := Content(boards[i].game)];
      boards := boards[i := boards[i].(version := nextVersion)];
      nextVersion := nextVersion + 1;
    }

    /** `played` is what the board's own game answers to the move. A move it accepts replaces everything after the
        cursor of the active board's game, with the stones it takes by the board rules, and clears the result. */
    method PlayMessage(ghost color: Cell, ghost point: Option<(int, int)>, played: Option<GameState>)
      requires Valid() && played == PlayedOn(Now(), active, color, point)
      modifies this
      ensures Valid() && Now() == Next(old(Now()), Play(color, point))
      ensures if played.None? then Now() == old(Now()) else ActiveRenamed(old(Now()), Now())
      ensures var i := Find(old(boards), old(active));
              && i < |old(boards)| && old(boards)[i].game.Ok()
              && played == Played(old(boards)[i].game, color, point, "")
      ensures played.Some? ==>
                var i := Find(old(boards), old(active));
                && |boards| == |old(boards)| && color != Empty
                && var g, h := old(boards)[i].game, boards[i].game;
                && |h.moves| == g.cursor + 1
                && h == g.(moves := g.moves[..g.cursor] + [Move(color, point, h.moves[g.cursor].captures, "")],
                           cursor := g.cursor + 1, result := "")
                && (point.None? ==> h.moves[g.cursor].captures == 0)
                && (point.Some? ==>
                      var verdict := PlayOn(g.setup.size, After(g.setup, g.moves[..g.cursor]), color, point.value.0,
                                            point.value.1, g.setup.rules.suicide);
                      verdict.Accepted? && h.moves[g.cursor].captures == |verdict.taken|)
    {
      hide Inv, Find, Played, ActiveRenamed, PlayOn, After;
      StepKeeps(Now(), Play(color, point));
      GameEventRenames(Now(), Play(color, point));
      ActiveIsThere(Now());
      BoardIsOk(Now(), Find(boards, active));
      PlayedIsRuled(boards[Find(boards, active)].game, color, point, "");
      if played.Some? {
        PositionChanged(Find(boards, active), played.value);
      }
    }

    method ResignMessage(who: Option<Colour>)
      requires Valid()
      modifies this
      ensures Valid() && Now() == Next(old(Now()), Resign(who)) && ActiveRenamed(old(Now()), Now())
      ensures var i := Find(old(boards), old(active));
              && i < |old(boards)| == |boards|
              && var g := old(boards)[i].game;
              && g.cursor <= |g.moves|
              && var mover := if g.cursor == 0 then g.setup.first
                              else if g.moves[g.cursor - 1].color == Black then White else Black;
              boards[i].game == g.(result := if (if who.Some? then who.value else mover) == Black then "W+R" else "B+R")
    {
      hide Inv, Find, ActiveRenamed;
      StepKeeps(Now(), Resign(who));
      GameEventRenames(Now(), Resign(who));
      ActiveIsThere(Now());
      var i := Find(boards, active);
      BoardIsOk(Now(), i);
      var game := boards[i].game;
      PositionChanged(i, Resigned(game, if who.Some? then who.value else game.ToPlayNow()));
    }

    method UndoMessage()
      requires Valid()
      modifies this
      ensures Valid() && Now() == Next(old(Now()), Undo) && ActiveRenamed(old(Now()), Now())
      ensures var i := Find(old(boards), old(active));
              && i < |old(boards)| == |boards|
              && var g := old(boards)[i].game;
              && g.cursor <= |g.moves|
              && boards[i].game == if g.cursor == 0 then g.(result := "")
                                   else g.(moves := g.moves[..g.cursor - 1], cursor := g.cursor - 1, result := "")
    {
      hide Inv, Find, ActiveRenamed, WellPlayed;
      StepKeeps(Now(), Undo);
      GameEventRenames(Now(), Undo);
      ActiveIsThere(Now());
      var i := Find(boards, active);
      BoardIsOk(Now(), i);
      PositionChanged(i, Undone(boards[i].game));
    }

    method NavigateMessage(index: int)
      requires Valid()
      modifies this
      ensures Valid() && Now() == Next(old(Now()), Navigate(index)) && ActiveRenamed(old(Now()), Now())
      ensures var i := Find(old(boards), old(active));
              && i < |old(boards)| == |boards|
              && var g, c := old(boards)[i].game, boards[i].game.cursor;
              && boards[i].game == g.(cursor := c)
              && (0 <= index <= |g.moves| ==> c == index)
              && (index < 0 ==> c == 0) && (index > |g.moves| ==> c == |g.moves|)
    {
      hide Inv, Find, ActiveRenamed;
      StepKeeps(Now(), Navigate(index));
      GameEventRenames(Now(), Navigate(index));
      ActiveIsThere(Now());
      PositionChanged(Find(boards, active), Navigated(boards[Find(boards, active)].game, index));
    }

    /** A new game, or one read from a file. */
    method LoadGame(game: GameState)
      requires Valid() && game.Ok()
      modifies this
      ensures Valid() && Now() == Next(old(Now()), Load(game)) && ActiveRenamed(old(Now()), Now())
      ensures var i := Find(old(boards), old(active));
              i < |old(boards)| == |boards| && boards[i].game == game && boards[i].analysis == None
    {
      hide Inv, Find, ActiveRenamed;
      StepKeeps(Now(), Load(game));
      GameEventRenames(Now(), Load(game));
      ActiveIsThere(Now());
      var i := Find(boards, active);
      boards := boards[i := boards[i].(analysis := None)];
      PositionChanged(i, game);
    }

    method SwitchTo(id: nat)
      modifies `epoch, `active
      ensures Now() == SwitchedTo(old(Now()), id)
    {
      epoch := epoch + 1;
      active := id;
    }

    method BoardSelect(id: nat) returns (ok: bool)
      requires Valid()
      modifies this
      ensures Valid() && Now() == Next(old(Now()), Select(id)) && ok == exists b :: b in old(boards) && b.id == id
      ensures Now() == if ok then old(Now()).(active := id, epoch := old(epoch) + 1) else old(Now())
    {
      hide Inv, Find;
      StepKeeps(Now(), Select(id));
      FindsIfThere(boards, id);
      ok := Find(boards, id) < |boards|;
      if ok {
        SwitchTo(id);
      }
    }

    method BoardDuplicate(id: nat) returns (ok: bool)
      requires Valid()
      modifies this
      ensures Valid() && Now() == Next(old(Now()), Duplicate(id))
      ensures ok == (Find(old(boards), id) < |old(boards)| < MAX_BOARDS)
      ensures ok ==> Find(old(boards), active) == |old(boards)| && |boards| == |old(boards)| + 1
      ensures ok ==>
                var i := Find(old(boards), id);
                && boards == old(boards)[..i + 1] + [old(boards)[i].(id := old(nextId))] + old(boards)[i + 1..]
                && active == old(nextId) && nextId == old(nextId) + 1 && epoch == old(epoch) + 1
      ensures !ok ==> Now() == old(Now())
    {
      hide Inv, Find, Next;
      StepKeeps(Now(), Duplicate(id));
      NextOfDuplicate(Now(), id);
      var i := Find(boards, id);
      if i == |boards| || |boards| >= MAX_BOARDS {
        return false;
      }
      DuplicateIsNew(Now(), id);
      var board := nextId;
      nextId := nextId + 1;
      var source := boards[i];
      var clone := Slot(board, source.game, source.version, source.analysis, source.analysisVersion);
      boards := boards[..i + 1] + [clone] + boards[i + 1..];
      SwitchTo(board);
      ok := true;
    }

    /** A fresh board like the active one, with a version of its own. */
    method FreshBoard(id: nat) returns (b: Slot)
      requires Find(boards, active) < |boards|
      modifies `nextVersion, `seen
      ensures b == FreshSlot(old(Now()), id) && Now() == VersionTaken(old(Now()), b)
    {
      var game := boards[Find(boards, active)].game;
      var setup := Setup(game.setup.size, game.setup.rules, [], Black, game.setup.maxMoves);
      b := Slot(id, NewGame(setup, None, 0), nextVersion, None, 0);
      seen := seen[nextVersion := Content(b.game)];
      nextVersion := nextVersion + 1;
    }

    method BoardNew() returns (ok: bool)
      requires Valid()
      modifies this
      ensures Valid() && Now() == Next(old(Now()), NewBoard) && ok == (|old(boards)| < MAX_BOARDS)
      ensures if ok then AddedAtEnd(old(Now()), Now()) else Now() == old(Now())
      ensures ok ==>
                var i := Find(old(boards), old(active));
                && i < |old(boards)|
                && var u := old(boards)[i].game.setup;
                var empty := GameState(Setup(u.size, u.rules, [], Black, u.maxMoves), u.rules.defaultKomi, 0, "Black",
                                       "White", [], 0, "");
                && boards == old(boards) + [Slot(old(nextId), empty, old(nextVersion), None, 0)]
                && active == old(nextId) && nextId == old(nextId) + 1 && epoch == old(epoch) + 1
                && nextVersion == old(nextVersion) + 1
    {
      hide Inv, Find, AddedAtEnd;
      StepKeeps(Now(), NewBoard);
      ActiveIsThere(Now());
      if |boards| >= MAX_BOARDS {
        return false;
      }
      NewBoardIsLikeActive(Now());
      var id := nextId;
      var b := FreshBoard(id);
      nextId := nextId + 1;
      boards := boards + [b];
      SwitchTo(id);
      ok := true;
    }

    /** Put the board at `i` after the one `after` names, or first. */
    method Reorder(i: nat, after: Option<nat>) returns (ok: bool, ghost at: nat)
      requires i < |boards|
      modifies `boards
      ensures Now() == Moved(old(Now()), i, after)
      ensures ok == (after.None? || exists b :: b in old(boards)[..i] + old(boards)[i + 1..] && b.id == after.value)
      ensures !ok ==> boards == old(boards)
      ensures var rest := old(boards)[..i] + old(boards)[i + 1..];
              ok ==> at <= |rest| && boards == rest[..at] + [old(boards)[i]] + rest[at..]
                     && if after.None? then at == 0 else at > 0 && rest[at - 1].id == after.value
    {
      hide Find;
      var rest := boards[..i] + boards[i + 1..];
      if after.Some? { FindsIfThere(rest, after.value); }
      var place := 0;
      at := 0;
      if after.Some? {
        place := Find(rest, after.value) + 1;
        if place > |rest| {
          return false, 0;
        }
      }
      boards := rest[..place] + [boards[i]] + rest[place..];
      return true, place;
    }

    /** The board goes to the place `at` among the others, which keep their order. */
    method BoardMove(id: nat, after: Option<nat>) returns (ok: bool, ghost at: nat)
      requires Valid()
      modifies this
      ensures Valid() && Now() == Next(old(Now()), MoveBoard(id, after))
      ensures multiset(boards) == multiset(old(boards)) && Now() == old(Now()).(boards := boards)
      ensures ok == ((exists b :: b in old(boards) && b.id == id)
                     && (after.Some? ==> after.value != id && exists b :: b in old(boards) && b.id == after.value))
      ensures !ok ==> boards == old(boards)
      ensures ok ==>
                var i := Find(old(boards), id);
                && i < |old(boards)|
                && var rest := old(boards)[..i] + old(boards)[i + 1..];
                && at <= |rest| && boards == rest[..at] + [old(boards)[i]] + rest[at..]
                && if after.None? then at == 0 else at > 0 && rest[at - 1].id == after.value
    {
      hide Inv, Find, Moved, Next;
      NextOfMove(Now(), id, after);
      FindsIfThere(boards, id);
      StepKeeps(Now(), MoveBoard(id, after));
      MoveReorders(Now(), id, after);
      var i := Find(boards, id);
      if i == |boards| || after == Some(id) {
        return false, 0;
      }
      if after.Some? { RestHasOthers(boards, i, after.value); }
      ok, at := Reorder(i, after);
    }

    /** The only board starts over, under its own id. */
    method ResetBoard()
      requires |boards| == 1 && Find(boards, active) == 0
      modifies this
      ensures Now() == Deleted(old(Now()), 0)
    {
      hide Find, FreshSlot;
      var b := FreshBoard(boards[0].id);
      boards := [b];
      SwitchTo(b.id);
    }

    /** Take the board at `i` out; a neighbour takes over if it was active. */
    method Remove(i: nat)
      requires i < |boards| && |boards| > 1 && Find(boards, active) < |boards|
      modifies this
      ensures Now() == Deleted(old(Now()), i)
    {
      hide Find, FreshSlot;
      var gone := boards[i];
      boards := boards[..i] + boards[i + 1..];
      epoch := epoch + 1;
      if gone.id == active {
        SwitchTo(boards[if i < |boards| then i else |boards| - 1].id);
      }
    }

    method BoardDelete(id: nat) returns (ok: bool)
      requires Valid()
      modifies this
      ensures Valid() && Now() == Next(old(Now()), Delete(id)) && ok == exists b :: b in old(boards) && b.id == id
      ensures if ok then DeletedOne(old(Now()), Now(), id) else Now() == old(Now())
      ensures ok && |old(boards)| == 1 ==>
                var u := old(boards)[0].game.setup;
                var empty := GameState(Setup(u.size, u.rules, [], Black, u.maxMoves), u.rules.defaultKomi, 0, "Black",
                                       "White", [], 0, "");
                && boards == [Slot(id, empty, old(nextVersion), None, 0)]
                && active == id && epoch == old(epoch) + 1 && nextVersion == old(nextVersion) + 1
      ensures ok && |old(boards)| > 1 ==>
                var i := Find(old(boards), id);
                && i < |old(boards)| && boards == old(boards)[..i] + old(boards)[i + 1..]
                && if id == old(active)
                   then active == boards[if i < |boards| then i else |boards| - 1].id && epoch == old(epoch) + 2
                   else active == old(active) && epoch == old(epoch) + 1
    {
      hide Inv, Find, DeletedOne;
      FindsIfThere(boards, id);
      OnlyBoardIsFound(boards, id);
      StepKeeps(Now(), Delete(id));
      ActiveIsThere(Now());
      var i := Find(boards, id);
      ok := i < |boards|;
      if !ok {
        return;
      }
      DeleteLeavesABoard(Now(), id);
      if |boards| == 1 {
        ResetBoard();
      } else {
        Remove(i);
      }
    }

    method PlayersMessage(black: bool, white: bool, styles: bool)
      requires Valid()
      modifies this
      ensures Valid() && Now() == Next(old(Now()), Players(black, white, styles))
      ensures (black != old(blackIsEngine) || white != old(whiteIsEngine) || styles) && job.Moving? && !job.ask.explicit
              ==> !Fresh(Now(), job.ask)
      ensures var changed := black != old(blackIsEngine) || white != old(whiteIsEngine) || styles;
              Now() == old(Now()).(blackIsEngine := black, whiteIsEngine := white,
                                   playersEpoch := old(playersEpoch) + if changed then 1 else 0)
    {
      hide Inv, Find, Fresh, Next;
      StepKeeps(Now(), Players(black, white, styles));
      NextOfPlayers(Now(), black, white, styles);
      if (black != blackIsEngine || white != whiteIsEngine || styles) && job.Moving? && !job.ask.explicit {
        PlayersStale(Now(), black, white, styles);
      }
      if black != blackIsEngine || white != whiteIsEngine || styles {
        playersEpoch := playersEpoch + 1;
      }
      blackIsEngine, whiteIsEngine := black, white;
    }

    /** Whether an automatic move is due on the board. */
    method MoveIsDue(b: Slot) returns (due: bool)
      requires b.game.cursor <= |b.game.moves|
      ensures due == ShouldMove(Now(), b.game)
    {
      var mine := if b.game.ToPlayNow() == Black then blackIsEngine else whiteIsEngine;
      due := b.game.cursor == |b.game.moves| && !GameOver(b.game) && b.game.cursor < b.game.setup.maxMoves && mine;
    }

    /** Ask the engine to move; `None` when the lock is taken, there is no engine, or it is not its turn. */
    method BeginMove(explicit: bool) returns (ask: Option<Ask>)
      requires Valid()
      modifies this
      ensures Valid() && Now() == Next(old(Now()), AskMove(explicit))
      ensures ask.Some? ==> job == Moving(ask.value) && Fresh(Now(), ask.value)
      ensures var i := Find(boards, active);
              && i < |boards| && boards == old(boards)
              && var g := boards[i].game;
              && g.cursor <= |g.moves|
              && var n, ms := g.cursor, g.moves;
              var mover := if n == 0 then g.setup.first else if ms[n - 1].color == Black then White else Black;
              var bothPassed := n >= 2 && ms[n - 1].point == None && ms[n - 2].point == None;
              var resigned := n == |ms| && g.result in ["B+R", "W+R", "B+Resign", "W+Resign"];
              var itsTurn := n == |ms| < g.setup.maxMoves && !bothPassed && !resigned
                             && if mover == Black then blackIsEngine else whiteIsEngine;
              && (ask.Some? <==> old(job) == Idle && engine.Some? && (explicit || itsTurn))
              && (ask.Some? ==>
                    && ask.value == Ask(engine.value, active, boards[i].version, epoch, playersEpoch, explicit, mover,
                                        g.(result := ""))
                    && sinks == old(sinks) + [Sink(engine.value, active, boards[i].version, g.(result := ""))])
              && (ask.None? ==> Now() == old(Now()))
    {
      hide Inv, Find, ShouldMove, Next, Fresh;
      StepKeeps(Now(), AskMove(explicit));
      AskSpeltOut(Now(), explicit);
      ActiveIsThere(Now());
      var b := boards[Find(boards, active)];
      BoardIsOk(Now(), Find(boards, active));
      TurnSpeltOut(Now(), b.game);
      if job != Idle || engine.None? {
        return None;
      }
      if !explicit {
        var due := MoveIsDue(b);
        if !due {
          return None;
        }
      }
      AskIsFresh(Now(), explicit);
      sinks := sinks + [Sink(engine.value, b.id, b.version, Content(b.game))];
      var a := Ask(engine.value, b.id, b.version, epoch, playersEpoch, explicit, b.game.ToPlayNow(), Content(b.game));
      job := Moving(a);
      ask := Some(a);
    }

    /** The token check. */
    method TokenHolds(a: Ask) returns (holds: bool)
      requires engine == Some(a.engine)
      ensures holds == Fresh(Now(), a)
    {
      hide Find;
      var i := Find(boards, a.id);
      if i == |boards| || boards[i].id != active || boards[i].version != a.version || epoch != a.epoch {
        return false;
      }
      if a.explicit {
        return true;
      }
      holds := playersEpoch == a.playersEpoch && if a.mover == Black then blackIsEngine else whiteIsEngine;
    }

    /** An answer that passed the check goes on the board. */
    method Land(i: nat, mover: Colour, answer: Answer, played: Option<GameState>) returns (outcome: MoveOutcome)
      requires i < |boards| && boards[i].game.Ok()
      requires answer.Vertex? ==> played == Played(boards[i].game, mover, answer.point, "")
      modifies this
      ensures outcome == Applied(old(Now()), i, mover, answer).0 && Now() == Applied(old(Now()), i, mover, answer).1
    {
      hide Played, Branched, Repositioned;
      match answer {
        case Resigns =>
          PositionChanged(i, Resigned(Branched(boards[i].game), mover));
          outcome := Landed;
        case Vertex(point) =>
          if played.None? {
            return Failed;
          }
          PositionChanged(i, played.value);
          outcome := Landed;
        case _ =>
          outcome := Failed;
      }
    }

    /** The checks an answer passes through, in order, and what it then does. */
    method TakeAnswer(a: Ask, answer: Answer, played: Option<GameState>) returns (outcome: MoveOutcome)
      requires Valid() && (answer.Vertex? ==> played == PlayedOn(Now(), a.id, a.mover, answer.point))
      modifies this
      ensures outcome == Answered(old(Now()), a, answer).0 && Now() == Answered(old(Now()), a, answer).1
    {
      hide Inv, Find, Played, Fresh, Applied;
      if engine != Some(a.engine) {
        return Stale;
      }
      if answer == Failure {
        return Failed;
      }
      var holds := TokenHolds(a);
      if !holds {
        return Stale;
      }
      var i := Find(boards, a.id);
      FreshIsFound(Now(), a);
      BoardIsOk(Now(), i);
      outcome := Land(i, a.mover, answer, played);
    }

    /** The engine's answer. `played` is what the game found by the token answers to a vertex. */
    method EndMove(answer: Answer, played: Option<GameState>) returns (outcome: MoveOutcome)
      requires Valid() && job.Moving?
      requires answer.Vertex? ==> played == PlayedOn(Now(), job.ask.id, job.ask.mover, answer.point)
      modifies this
      ensures Valid() && Now() == Next(old(Now()), MoveAnswered(answer))
      ensures outcome == Answered(old(Now()), old(job).ask, answer).0
      ensures outcome == Landed ==> LandedOn(old(Now()), Now(), old(job).ask.sent)
      ensures outcome != Landed ==> Now() == old(Now()).(job := Idle)
      ensures var a, i := old(job).ask, Find(old(boards), old(active));
              && i < |old(boards)| && |boards| == |old(boards)|
              && Now() == old(Now()).(job := Idle, boards := boards, nextVersion := nextVersion, seen := seen)
              && var sameEngine := engine == Some(a.engine);
              var stale := a.id != active || old(boards)[i].version != a.version || epoch != a.epoch
                           || (!a.explicit && (playersEpoch != a.playersEpoch
                                               || !(if a.mover == Black then blackIsEngine else whiteIsEngine)));
              && (outcome == Stale <==> !sameEngine || (answer != Failure && stale))
              && (outcome == Landed <==> sameEngine && !stale && (answer.Resigns? || (answer.Vertex? && played.Some?)))
              && (outcome == Landed && answer.Resigns? ==>
                    && a.sent.cursor <= |a.sent.moves|
                    && boards[i].game == a.sent.(moves := a.sent.moves[..a.sent.cursor],
                                                 result := if a.mover == Black then "W+R" else "B+R"))
              && (outcome == Landed && answer.Vertex? ==>
                    && a.sent.cursor <= |a.sent.moves| && |boards[i].game.moves| == a.sent.cursor + 1
                    && var n := boards[i].game.moves[a.sent.cursor].captures;
                    boards[i].game == a.sent.(moves := a.sent.moves[..a.sent.cursor]
                                                       + [Move(a.mover, answer.point, n, "")],
                                              cursor := a.sent.cursor + 1, result := ""))
    {
      hide Inv, Find, Answered, LandedOn, PlayedOn;
      StepKeeps(Now(), MoveAnswered(answer));
      AnswerLandsOrNot(Now(), answer);
      AnswerIsJudged(Now(), answer);
      outcome := TakeAnswer(job.ask, answer, played);
      job := Idle;
    }

    /** An engine report reaching its sink. */
    method Receive(k: nat, report: nat)
      requires Valid() && k < |sinks|
      modifies this
      ensures Valid() && Now() == Next(old(Now()), Report(k, report))
      ensures forall b :: b in boards && b.Current().Some? ==> b.Current().value.about == Content(b.game)
      ensures var sink, i := sinks[k], Find(old(boards), sinks[k].id);
              var wanted := i < |old(boards)| && old(boards)[i].version == sink.version && engine == Some(sink.engine)
                            && analysisEnabled;
              Now() == if !wanted then old(Now())
                       else old(Now()).(boards := old(boards)[i := old(boards)[i].(
                              analysis := Some(Analysis(report, sink.sent)), analysisVersion := sink.version)])
    {
      hide Inv, Find;
      StepKeeps(Now(), Report(k, report));
      AnalysesAreOfTheirBoards(Next(Now(), Report(k, report)));
      var sink := sinks[k];
      var i := Find(boards, sink.id);
      if i == |boards| || boards[i].version != sink.version || engine != Some(sink.engine) || !analysisEnabled {
        return;
      }
      boards := boards[i := boards[i].(analysis := Some(Analysis(report, sink.sent)), analysisVersion := sink.version)];
    }

    /** The engine's score, when it is one: the result of the position that was scored, or nothing's. */
    method EndScore(text: Option<string>)
      requires Valid() && job.Scoring?
      modifies this
      ensures Valid() && Now() == Next(old(Now()), Scored(text))
      ensures boards != old(boards) ==>
        var i := Find(old(boards), old(job).sink.id);
        i < |old(boards)| && Content(old(boards)[i].game) == old(job).sink.sent
      ensures var sink, i := old(job).sink, Find(old(boards), old(job).sink.id);
              var wanted := text.Some? && i < |old(boards)| && old(boards)[i].version == sink.version
                            && engine == Some(sink.engine);
              Now() == if !wanted then old(Now()).(job := Idle)
                       else old(Now()).(job := Idle, boards := old(boards)[i := old(boards)[i].(
                              game := old(boards)[i].game.(result := text.value))])
    {
      hide Inv, Find, Next;
      StepKeeps(Now(), Scored(text));
      NextOfScore(Now(), text);
      if ResultSet(Now(), job.sink, text) != Now() {
        ScoreIsOfTheBoard(Now(), text);
      }
      var sink := job.sink;
      job := Idle;
      if engine != Some(sink.engine) || text.None? {
        return;
      }
      var i := Find(boards, sink.id);
      if i < |boards| && boards[i].version == sink.version {
        boards := boards[i := boards[i].(game := boards[i].game.(result := text.value))];
      }
    }

    /** After a console command the position's name changes, though nothing on the board does. */
    method EndRaw()
      requires Valid() && job.Console?
      modifies this
      ensures Valid() && Now() == Next(old(Now()), RawDone)
      ensures old(engine) == Some(old(job).engine) ==> ActiveRenamed(old(Now()), Now())
      ensures old(engine) != Some(old(job).engine) ==> Now() == old(Now()).(job := Idle)
      ensures |boards| == |old(boards)| && forall j :: 0 <= j < |boards| ==> boards[j].game == old(boards)[j].game
    {
      hide Inv, Find, ActiveRenamed, Next;
      StepKeeps(Now(), RawDone);
      NextOfRaw(Now());
      if engine == Some(job.engine) {
        RawRenames(Now());
      }
      ActiveIsThere(Now());
      var e := job.engine;
      job := Idle;
      if engine == Some(e) {
        var i := Find(boards, active);
        PositionChanged(i, boards[i].game);
      }
    }

    method AnalysisMessage(enabled: bool)
      requires Valid()
      modifies this
      ensures Valid() && Now() == Next(old(Now()), ShowAnalysis(enabled))
      ensures !enabled ==>
                forall i :: 0 <= i < |boards| && i == Find(old(boards), active) ==> boards[i].Current() == None
      ensures var i := Find(old(boards), active);
              && i < |old(boards)|
              && Now() == if enabled then old(Now()).(analysisEnabled := true)
                          else old(Now()).(analysisEnabled := false,
                                           boards := old(boards)[i := old(boards)[i].(analysis := None)])
    {
      hide Inv, Find;
      StepKeeps(Now(), ShowAnalysis(enabled));
      ActiveIsThere(Now());
      analysisEnabled := enabled;
      if !enabled {
        var i := Find(boards, active);
        boards := boards[i := boards[i].(analysis := None)];
      }
    }

    /** Bind a report consumer to the position on screen. */
    method BeginAnalysis()
      requires Valid()
      modifies this
      ensures Valid() && Now() == Next(old(Now()), StartAnalysis)
      ensures sinks != old(sinks) ==>
                && engine.Some? && Find(boards, active) < |boards|
                && sinks == old(sinks) + [NewSink(Now(), boards[Find(boards, active)])]
      ensures var i := Find(boards, active);
              && i < |boards|
              && Now() == if job != Idle || engine.None? then old(Now())
                          else old(Now()).(sinks := old(sinks) + [Sink(engine.value, active, boards[i].version,
                                                                       boards[i].game.(result := ""))])
    {
      hide Inv, Find;
      StepKeeps(Now(), StartAnalysis);
      ActiveIsThere(Now());
      if job == Idle && engine.Some? {
        var b := boards[Find(boards, active)];
        sinks := sinks + [Sink(engine.value, b.id, b.version, Content(b.game))];
      }
    }

    method BeginScore()
      requires Valid()
      modifies this
      ensures Valid() && Now() == Next(old(Now()), StartScore)
      ensures job != old(job) ==>
                && engine.Some? && Find(boards, active) < |boards|
                && job == Scoring(NewSink(Now(), boards[Find(boards, active)]))
      ensures var i := Find(boards, active);
              && i < |boards|
              && Now() == if old(job) != Idle || engine.None? then old(Now())
                          else old(Now()).(job := Scoring(Sink(engine.value, active, boards[i].version,
                                                               boards[i].game.(result := ""))))
    {
      hide Inv, Find;
      StepKeeps(Now(), StartScore);
      ActiveIsThere(Now());
      if job == Idle && engine.Some? {
        var b := boards[Find(boards, active)];
        job := Scoring(Sink(engine.value, b.id, b.version, Content(b.game)));
      }
    }

    method BeginRaw()
      requires Valid()
      modifies this
      ensures Valid() && Now() == Next(old(Now()), StartRaw)
      ensures Now() == old(Now()).(job := if old(job) == Idle && engine.Some? then Console(engine.value) else old(job))
    {
      hide Inv;
      StepKeeps(Now(), StartRaw);
      if job == Idle && engine.Some? {
        job := Console(engine.value);
      }
    }

    /** A connect installs an engine never seen before. */
    method EngineInstalled()
      requires Valid()
      modifies this
      ensures Valid() && Now() == Next(old(Now()), Connected)
      ensures Now() == old(Now()).(engine := Some(old(nextEngine)), nextEngine := old(nextEngine) + 1)
      ensures job.Moving? ==> !Fresh(Now(), job.ask)
    {
      hide Inv, Fresh;
      if job.Moving? {
        FreshStep(Now(), Connected);
      }
      StepKeeps(Now(), Connected);
      engine := Some(nextEngine);
      nextEngine := nextEngine + 1;
    }

    method EngineReleased()
      requires Valid()
      modifies this
      ensures Valid() && Now() == Next(old(Now()), Released) && Now() == old(Now()).(engine := None)
      ensures job.Moving? ==> !Fresh(Now(), job.ask)
    {
      hide Inv, Fresh;
      if job.Moving? {
        FreshStep(Now(), Released);
      }
      StepKeeps(Now(), Released);
      engine := None;
    }

    /** The engine is gone: play settings and analysis are off, and the loop clears every board's analysis. */
    method WithoutEngine()
      requires Valid()
      modifies this
      ensures Valid() && Now() == Next(old(Now()), LeftWithoutEngine)
      ensures !blackIsEngine && !whiteIsEngine && !analysisEnabled && forall b :: b in boards ==> b.Current() == None
      ensures engine == None && playersEpoch == old(playersEpoch) + if old(blackIsEngine || whiteIsEngine) then 1 else 0
      ensures |boards| == |old(boards)|
      ensures forall j :: 0 <= j < |boards| ==> boards[j] == old(boards)[j].(analysis := None)
      ensures active == old(active) && epoch == old(epoch) && job == old(job) && sinks == old(sinks)
    {
      hide Inv;
      StepKeeps(Now(), LeftWithoutEngine);
      DisarmedShowsNothing(Now());
      Disarm();
    }

    method Disarm()
      modifies this
      ensures Now() == Disarmed(old(Now()))
    {
      hide WithoutAnalyses;
      engine := None;
      if blackIsEngine || whiteIsEngine {
        playersEpoch := playersEpoch + 1;
      }
      analysisEnabled, blackIsEngine, whiteIsEngine := false, false, false;
      ClearAnalyses();
    }

    method ClearAnalyses()
      modifies `boards
      ensures boards == WithoutAnalyses(old(boards))
    {
      var i := 0;
      while i < |boards|
        invariant i <= |boards| == |old(boards)|
        invariant forall k :: 0 <= k < i ==> boards[k] == old(boards)[k].(analysis := None)
        invariant forall k :: i <= k < |boards| ==> boards[k] == old(boards)[k]
      {
        boards := boards[i := boards[i].(analysis := None)];
        i := i + 1;
      }
    }
  }
}
