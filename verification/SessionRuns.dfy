/** What a session keeps over every interleaving of messages and engine work, and what that means for an
    engine's answer when it arrives. */
module SessionRuns {
  import opened Chains
  import opened Rules
  import opened Lines
  import opened Records
  import opened Sessions

  /** Versions keep their meaning. */
  ghost predicate Grows(s: Session, t: Session) {
    && (forall v :: v in s.seen ==> v in t.seen && t.seen[v] == s.seen[v])
    && s.nextId <= t.nextId && s.nextEngine <= t.nextEngine && s.nextVersion <= t.nextVersion
  }

  lemma SlotGrowsIfOld(s: Session, t: Session, b: Slot, boards: seq<Slot>)
    requires Grows(s, t) && (b in boards ==> SlotOk(s.seen, s.nextId, b))
    ensures b in boards ==> SlotOk(t.seen, t.nextId, b)
  {
  }

  /** The part of the invariant about boards. */
  ghost predicate BoardsOk(s: Session) {
    && 0 < |s.boards| && DistinctIds(s.boards) && Find(s.boards, s.active) < |s.boards|
    && (forall b :: b in s.boards ==> SlotOk(s.seen, s.nextId, b))
    && (forall v :: v in s.seen ==> v < s.nextVersion)
  }

  /** Work in flight survives anything that leaves the epochs and players alone or counts them up. */
  lemma WorkSurvives(s: Session, t: Session)
    requires Inv(s) && BoardsOk(t) && Grows(s, t) && t.sinks == s.sinks && t.job == s.job
    requires t.engine == s.engine || t.engine.None? || (t.engine == Some(s.nextEngine) && s.nextEngine < t.nextEngine)
    requires s.epoch <= t.epoch && (s.epoch == t.epoch ==> s.active == t.active)
    requires s.playersEpoch <= t.playersEpoch
    requires s.playersEpoch == t.playersEpoch ==>
               s.blackIsEngine == t.blackIsEngine && s.whiteIsEngine == t.whiteIsEngine
    ensures Inv(t)
  {
    forall k | 0 <= k < |t.sinks| ensures SinkOk(t.seen, t.nextEngine, t.sinks[k]) {
      assert SinkOk(s.seen, s.nextEngine, s.sinks[k]);
    }
  }

  lemma FindAt(boards: seq<Slot>, i: nat)
    requires DistinctIds(boards) && i < |boards|
    ensures Find(boards, boards[i].id) == i
  {
    hide Find;
  }

  lemma RepositionKeeps(s: Session, i: nat, game: GameState)
    requires Inv(s) && i < |s.boards| && game.Ok()
    ensures Inv(Repositioned(s, i, game)) && Grows(s, Repositioned(s, i, game))
  {
    hide Find;
    var t := Repositioned(s, i, game);
    var n := Find(s.boards, s.active);
    assert t.boards[n].id == s.active && s.boards[i] in s.boards;
    forall b | b in t.boards ensures SlotOk(t.seen, t.nextId, b) {
      assert b == t.boards[i] || b in s.boards;
      SlotGrowsIfOld(s, t, b, s.boards);
    }
    FindAt(t.boards, n);
    WorkSurvives(s, t);
  }

  /** A board changed in place, its position kept. */
  lemma TouchKeeps(s: Session, i: nat, b: Slot)
    requires Inv(s) && i < |s.boards| && SlotOk(s.seen, s.nextId, b) && b.id == s.boards[i].id
    ensures Inv(s.(boards := s.boards[i := b]))
  {
    hide Find;
    var t := s.(boards := s.boards[i := b]);
    var n := Find(s.boards, s.active);
    assert t.boards[n].id == s.active;
    FindAt(t.boards, n);
    WorkSurvives(s, t);
  }

  lemma SwitchKeeps(s: Session, id: nat)
    requires Inv(s) && Find(s.boards, id) < |s.boards|
    ensures Inv(SwitchedTo(s, id))
  {
    WorkSurvives(s, SwitchedTo(s, id));
  }

  lemma InsertKeepsIds(boards: seq<Slot>, i: nat, b: Slot, id: nat)
    requires DistinctIds(boards) && i <= |boards|
    requires forall j :: 0 <= j < |boards| ==> boards[j].id != b.id
    ensures DistinctIds(Inserted(boards, i, b))
    ensures Find(boards, id) < |boards| || id == b.id ==> Find(Inserted(boards, i, b), id) <= |boards|
    ensures forall k :: 0 <= k < |boards| + 1 ==>
      Inserted(boards, i, b)[k] == if k < i then boards[k] else if k == i then b else boards[k - 1]
  {
    hide Find;
    var next := Inserted(boards, i, b);
    if id == b.id {
      FindAt(next, i);
    } else if Find(boards, id) < |boards| {
      var j := Find(boards, id);
      FindAt(next, if j < i then j else j + 1);
    }
  }

  lemma WithoutKeepsIds(boards: seq<Slot>, i: nat, id: nat)
    requires DistinctIds(boards) && i < |boards|
    ensures DistinctIds(Without(boards, i))
    ensures forall k :: 0 <= k < |boards| - 1 ==> Without(boards, i)[k] == if k < i then boards[k] else boards[k + 1]
    ensures Find(boards, id) < |boards| && id != boards[i].id ==> Find(Without(boards, i), id) < |boards| - 1
  {
    hide Find;
    var next := Without(boards, i);
    if Find(boards, id) < |boards| && id != boards[i].id {
      var j := Find(boards, id);
      FindAt(next, if j < i then j else j - 1);
    }
  }

  lemma WithoutDrops(boards: seq<Slot>, i: nat)
    requires DistinctIds(boards) && i < |boards|
    ensures forall j :: 0 <= j < |boards| - 1 ==> Without(boards, i)[j].id != boards[i].id
    ensures DistinctIds(Without(boards, i))
  {
  }

  lemma DuplicateKeeps(s: Session, i: nat)
    requires Inv(s) && i < |s.boards|
    ensures Inv(Duplicated(s, i))
  {
    hide Find, Inserted;
    var t := Duplicated(s, i);
    var copy := s.boards[i].(id := s.nextId);
    forall j | 0 <= j < |s.boards| ensures s.boards[j].id != copy.id {
      assert s.boards[j] in s.boards;
    }
    InsertKeepsIds(s.boards, i + 1, copy, s.nextId);
    assert s.boards[i] in s.boards;
    forall b | b in t.boards ensures SlotOk(t.seen, t.nextId, b) {
      SlotGrowsIfOld(s, t, b, s.boards);
    }
    WorkSurvives(s, t);
  }

  lemma FreshSlotIsOk(s: Session, id: nat)
    requires Inv(s) && id <= s.nextId
    ensures FreshSlot(s, id).id == id && SlotOk(VersionTaken(s, FreshSlot(s, id)).seen, s.nextId + 1, FreshSlot(s, id))
    ensures id < s.nextId ==> SlotOk(VersionTaken(s, FreshSlot(s, id)).seen, s.nextId, FreshSlot(s, id))
  {
    hide Find;
    var g := s.boards[Find(s.boards, s.active)].game;
    assert SlotOk(s.seen, s.nextId, s.boards[Find(s.boards, s.active)]);
    assert FreshGame(g).Ok();
  }

  lemma AddKeeps(s: Session)
    requires Inv(s)
    ensures Inv(Added(s))
  {
    hide Find, FreshSlot;
    var b := FreshSlot(s, s.nextId);
    FreshSlotIsOk(s, s.nextId);
    var t := Added(s);
    forall c | c in t.boards ensures SlotOk(t.seen, t.nextId, c) {
      assert c == b || c in s.boards;
      SlotGrowsIfOld(s, t, c, s.boards);
    }
    forall j | 0 <= j < |s.boards| ensures s.boards[j].id != b.id {
      assert SlotOk(s.seen, s.nextId, s.boards[j]);
    }
    FindAt(t.boards, |s.boards|);
    WorkSurvives(s, t);
  }

  lemma MoveKeeps(s: Session, i: nat, after: Option<nat>)
    requires Inv(s) && i < |s.boards|
    ensures Inv(Moved(s, i, after))
  {
    hide Find, Inserted, Without;
    var t := Moved(s, i, after);
    if t != s {
      var rest := Without(s.boards, i);
      WithoutKeepsIds(s.boards, i, s.active);
      WithoutDrops(s.boards, i);
      var at := if after.None? then 0 else Find(rest, after.value) + 1;
      InsertKeepsIds(rest, at, s.boards[i], s.active);
      WorkSurvives(s, t);
    }
  }

  lemma ResetKeeps(s: Session)
    requires Inv(s) && |s.boards| == 1
    ensures Inv(Deleted(s, 0))
  {
    hide Find, Without, FreshSlot;
    var t := Deleted(s, 0);
    assert SlotOk(s.seen, s.nextId, s.boards[0]);
    FreshSlotIsOk(s, s.boards[0].id);
    FindAt(t.boards, 0);
    WorkSurvives(s, t);
  }

  lemma DeleteKeeps(s: Session, i: nat)
    requires Inv(s) && i < |s.boards| && |s.boards| > 1
    ensures Inv(Deleted(s, i))
  {
    hide Find, Without, FreshSlot, SlotOk;
    var t := Deleted(s, i);
    var rest := Without(s.boards, i);
    WithoutKeepsIds(s.boards, i, s.active);
    FindAt(rest, if i < |rest| then i else |rest| - 1);
    WorkSurvives(s, t);
  }

  lemma AnswerKeeps(s: Session, a: Ask, answer: Answer)
    requires Inv(s)
    ensures Inv(Answered(s, a, answer).1)
  {
    hide Find, Repositioned, Played, Branched, Inv;
    var i := Find(s.boards, a.id);
    if Answered(s, a, answer).0 == Landed {
      var g := s.boards[i].game;
      BoardIsOk(s, i);
      var next := if answer.Resigns? then Resigned(Branched(g), a.mover)
                  else Played(g, a.mover, answer.point, "").value;
      RepositionKeeps(s, i, next);
    }
  }

  lemma BoardIsOk(s: Session, i: nat)
    requires Inv(s) && i < |s.boards|
    ensures SlotOk(s.seen, s.nextId, s.boards[i]) && s.boards[i].game.Ok()
  {
    assert s.boards[i] in s.boards;
  }

  lemma ReportKeeps(s: Session, k: Sink, report: nat)
    requires Inv(s) && SinkOk(s.seen, s.nextEngine, k)
    ensures Inv(Reported(s, k, report))
  {
    hide Find, Inv;
    var i := Find(s.boards, k.id);
    if i < |s.boards| {
      BoardIsOk(s, i);
      TouchKeeps(s, i, s.boards[i].(analysis := Some(Analysis(report, k.sent)), analysisVersion := k.version));
    }
  }

  lemma ScoreKeeps(s: Session, k: Sink, text: Option<string>)
    requires Inv(s)
    ensures Inv(ResultSet(s, k, text))
  {
    hide Find, Inv;
    var i := Find(s.boards, k.id);
    if i < |s.boards| && text.Some? {
      BoardIsOk(s, i);
      TouchKeeps(s, i, s.boards[i].(game := s.boards[i].game.(result := text.value)));
    }
  }

  lemma ShowKeeps(s: Session, enabled: bool)
    requires Inv(s)
    ensures Inv(Next(s, ShowAnalysis(enabled)))
  {
    hide Find;
    var i := Find(s.boards, s.active);
    var t := s.(analysisEnabled := enabled);
    WorkSurvives(s, t);
    if !enabled {
      BoardIsOk(s, i);
      TouchKeeps(t, i, s.boards[i].(analysis := None));
    }
  }

  lemma LoadKeeps(s: Session, game: GameState)
    requires Inv(s)
    ensures Inv(Next(s, Load(game)))
  {
    hide Find, Repositioned;
    var i := Find(s.boards, s.active);
    if game.Ok() {
      BoardIsOk(s, i);
      var b := s.boards[i].(analysis := None);
      TouchKeeps(s, i, b);
      RepositionKeeps(s.(boards := s.boards[i := b]), i, game);
    }
  }

  lemma AskKeeps(s: Session, e: Event)
    requires Inv(s) && (e.AskMove? || e.StartAnalysis? || e.StartScore? || e.StartRaw?)
    ensures Inv(Next(s, e))
  {
    hide Find, GameOver;
    var i := Find(s.boards, s.active);
    BoardIsOk(s, i);
    var t := Next(s, e);
    if t != s {
      var b := s.boards[i];
      assert SinkOk(s.seen, s.nextEngine, NewSink(s, b));
      assert Content(b.game).ToPlayNow() == b.game.ToPlayNow();
    }
  }

  lemma PlainKeeps(s: Session, e: Event)
    requires Inv(s) && (e.Players? || e.Connected? || e.Released?)
    ensures Inv(Next(s, e))
  {
    hide Find, SlotOk;
    WorkSurvives(s, Next(s, e));
  }

  lemma DisarmKeeps(s: Session)
    requires Inv(s)
    ensures Inv(Disarmed(s))
  {
    hide Find, WithoutAnalyses;
    var t := Disarmed(s);
    var n := Find(s.boards, s.active);
    forall b | b in t.boards ensures SlotOk(t.seen, t.nextId, b) {
      var i :| 0 <= i < |t.boards| && t.boards[i] == b;
      assert s.boards[i] in s.boards;
    }
    assert DistinctIds(t.boards) && t.boards[n].id == s.active;
    FindAt(t.boards, n);
    WorkSurvives(s, t);
  }

  lemma DisarmedShowsNothing(s: Session)
    ensures var t := Disarmed(s);
            && !t.blackIsEngine && !t.whiteIsEngine && !t.analysisEnabled
            && forall b :: b in t.boards ==> b.Current() == None
  {
  }

  lemma BoardEventKeeps(s: Session, e: Event)
    requires Inv(s) && (e.Select? || e.Duplicate? || e.NewBoard? || e.MoveBoard? || e.Delete?)
    ensures Inv(Next(s, e))
  {
    hide Find, SwitchedTo, Duplicated, Added, Moved, Deleted, Inv;
    match e {
      case Select(id) =>
        if Find(s.boards, id) < |s.boards| { SwitchKeeps(s, id); }
      case Duplicate(id) =>
        if Find(s.boards, id) < |s.boards| { DuplicateKeeps(s, Find(s.boards, id)); }
      case NewBoard => AddKeeps(s);
      case MoveBoard(id, after) =>
        if Find(s.boards, id) < |s.boards| { MoveKeeps(s, Find(s.boards, id), after); }
      case Delete(id) =>
        var k := Find(s.boards, id);
        if k < |s.boards| {
          if |s.boards| == 1 { ResetKeeps(s); } else { DeleteKeeps(s, k); }
        }
      case _ =>
    }
  }

  lemma GameEventKeeps(s: Session, e: Event)
    requires Inv(s) && (e.Play? || e.Resign? || e.Undo? || e.Navigate?)
    ensures Inv(Next(s, e))
  {
    hide Find, Repositioned, Played, Undone, Inv;
    var i := Find(s.boards, s.active);
    assert i < |s.boards| by { ActiveIsThere(s); }
    BoardIsOk(s, i);
    var g := s.boards[i].game;
    match e {
      case Play(color, point) =>
        if Played(g, color, point, "").Some? { RepositionKeeps(s, i, Played(g, color, point, "").value); }
      case Resign(who) => RepositionKeeps(s, i, Resigned(g, if who.Some? then who.value else g.ToPlayNow()));
      case Undo => RepositionKeeps(s, i, Undone(g));
      case Navigate(index) => RepositionKeeps(s, i, Navigated(g, index));
      case _ =>
    }
  }

  lemma ActiveIsThere(s: Session)
    requires Inv(s)
    ensures Find(s.boards, s.active) < |s.boards|
  {
  }

  lemma IdleKeeps(s: Session)
    requires Inv(s)
    ensures Inv(s.(job := Idle))
  {
    hide Find, SlotOk;
  }

  lemma JobEventKeeps(s: Session, e: Event)
    requires Inv(s) && (e.MoveAnswered? || e.Scored? || e.RawDone? || e.Report?)
    ensures Inv(Next(s, e))
  {
    hide Find, Repositioned, Answered, ResultSet, Reported, SlotOk, DistinctIds, Names, AskOk;
    match e {
      case MoveAnswered(answer) =>
        if s.job.Moving? {
          AnswerKeeps(s, s.job.ask, answer);
          IdleKeeps(Answered(s, s.job.ask, answer).1);
        }
      case Scored(text) =>
        if s.job.Scoring? {
          ScoreKeeps(s, s.job.sink, text);
          IdleKeeps(ResultSet(s, s.job.sink, text));
        }
      case RawDone =>
        var i := Find(s.boards, s.active);
        BoardIsOk(s, i);
        RepositionKeeps(s, i, s.boards[i].game);
        IdleKeeps(s);
        IdleKeeps(Repositioned(s, i, s.boards[i].game));
      case Report(k, report) =>
        if k < |s.sinks| { ReportKeeps(s, s.sinks[k], report); }
      case _ =>
    }
  }

  lemma LeftKeeps(s: Session)
    requires Inv(s)
    ensures Inv(Next(s, LeftWithoutEngine))
  {
    hide Inv, Disarmed;
    DisarmKeeps(s);
  }

  /** Every stretch of the session's code keeps the invariant. */
  lemma StepKeeps(s: Session, e: Event)
    requires Inv(s)
    ensures Inv(Next(s, e))
  {
    hide *;
    match e {
      case Load(game) => LoadKeeps(s, game);
      case ShowAnalysis(enabled) => ShowKeeps(s, enabled);
      case Play(_, _) => GameEventKeeps(s, e);
      case Resign(_) => GameEventKeeps(s, e);
      case Undo => GameEventKeeps(s, e);
      case Navigate(_) => GameEventKeeps(s, e);
      case Select(_) => BoardEventKeeps(s, e);
      case Duplicate(_) => BoardEventKeeps(s, e);
      case NewBoard => BoardEventKeeps(s, e);
      case MoveBoard(_, _) => BoardEventKeeps(s, e);
      case Delete(_) => BoardEventKeeps(s, e);
      case Players(_, _, _) => PlainKeeps(s, e);
      case Connected => PlainKeeps(s, e);
      case Released => PlainKeeps(s, e);
      case LeftWithoutEngine => LeftKeeps(s);
      case AskMove(_) => AskKeeps(s, e);
      case StartAnalysis => AskKeeps(s, e);
      case StartScore => AskKeeps(s, e);
      case StartRaw => AskKeeps(s, e);
      case MoveAnswered(_) => JobEventKeeps(s, e);
      case Scored(_) => JobEventKeeps(s, e);
      case RawDone => JobEventKeeps(s, e);
      case Report(_, _) => JobEventKeeps(s, e);
    }
  }

  // ----- what it means -----

  ghost function Run(s: Session, es: seq<Event>): (t: Session)
    requires Inv(s)
    ensures Inv(t)
    decreases |es|
  {
    if es == [] then s
    else
      StepKeeps(s, es[0]);
      Run(Next(s, es[0]), es[1..])
  }

  /** An answer that lands is played, or resigned, on the very position that was sent: the active board still has
      the setup, moves and cursor of the request and the same player to move. Any other answer changes nothing. */
  lemma MoveLandsWhereAsked(s: Session, answer: Answer)
    requires Inv(s) && s.job.Moving?
    ensures var a, (outcome, t) := s.job.ask, Answered(s, s.job.ask, answer);
            var i := Find(s.boards, s.active);
            && (outcome != Landed ==> t == s)
            && (outcome == Landed ==>
                  && i < |s.boards| && a.id == s.active && Content(s.boards[i].game) == a.sent && a.sent.Ok()
                  && a.mover == s.boards[i].game.ToPlayNow()
                  && |t.boards| == |s.boards|
                  && (forall j :: 0 <= j < |s.boards| && j != i ==> t.boards[j] == s.boards[j])
                  && t.boards[i].game == if answer.Resigns? then Resigned(Branched(a.sent), a.mover)
                                         else Played(a.sent, a.mover, answer.point, "").value)
  {
    hide Find;
    var a := s.job.ask;
    var i := Find(s.boards, a.id);
    if i < |s.boards| {
      BoardIsOk(s, i);
      var g := s.boards[i].game;
      assert Content(g).Ok() && Content(g).ToPlayNow() == g.ToPlayNow();
    }
  }

  /** An automatic move never discards a move: it is added to the line of play it was asked for. */
  lemma AutomaticMoveExtends(s: Session, point: Option<(int, int)>)
    requires Inv(s) && s.job.Moving? && !s.job.ask.explicit
    requires Answered(s, s.job.ask, Vertex(point)).0 == Landed
    ensures var line, longer := s.boards[Find(s.boards, s.active)].game,
                              Answered(s, s.job.ask, Vertex(point)).1.boards[Find(s.boards, s.active)].game;
            |longer.moves| == |line.moves| + 1 && longer.moves[..|line.moves|] == line.moves
  {
    hide Find;
    var i := Find(s.boards, s.active);
    BoardIsOk(s, i);
    var g := s.boards[i].game;
    assert g.moves[..g.cursor] == g.moves;
  }

  /** Whatever analysis a board shows is of the position the board has. */
  lemma AnalysisIsOfTheBoard(s: Session, b: Slot)
    requires Inv(s) && b in s.boards && b.Current().Some?
    ensures b.Current().value.about == Content(b.game)
  {
  }

  /** A score is recorded only as the result of the position that was scored. */
  lemma ScoreIsOfTheBoard(s: Session, text: Option<string>)
    requires Inv(s) && s.job.Scoring? && ResultSet(s, s.job.sink, text) != s
    ensures var i := Find(s.boards, s.job.sink.id);
            i < |s.boards| && Content(s.boards[i].game) == s.job.sink.sent
  {
    hide Find;
    BoardIsOk(s, Find(s.boards, s.job.sink.id));
  }

  /** The events that make a move in flight stale; a message that is refused is not one of them, and neither is
      moving a board, showing analysis or a report. */
  ghost predicate Disturbs(s: Session, e: Event, a: Ask)
    requires Inv(s)
  {
    BoardIsOk(s, Find(s.boards, s.active));
    match e
    case Play(color, point) => Played(s.boards[Find(s.boards, s.active)].game, color, point, "").Some?
    case Resign(_) => true
    case Undo => true
    case Navigate(_) => true
    case Load(game) => game.Ok()
    case Select(id) => Find(s.boards, id) < |s.boards|
    case Duplicate(id) => Find(s.boards, id) < |s.boards| < MAX_BOARDS
    case NewBoard => |s.boards| < MAX_BOARDS
    case Delete(id) => Find(s.boards, id) < |s.boards|
    case Players(black, white, styles) =>
      !a.explicit && (black != s.blackIsEngine || white != s.whiteIsEngine || styles)
    case Connected => true
    case Released => true
    case LeftWithoutEngine => true
    case _ => false
  }

  lemma TouchFinds(boards: seq<Slot>, i: nat, b: Slot, id: nat)
    requires DistinctIds(boards) && i < |boards| && b.id == boards[i].id
    ensures Find(boards[i := b], id) == Find(boards, id)
  {
    hide Find;
    var next := boards[i := b];
    if Find(boards, id) < |boards| {
      assert next[Find(boards, id)].id == id;
      FindAt(next, Find(boards, id));
    } else {
      assert forall j :: 0 <= j < |next| ==> next[j].id == boards[j].id;
    }
  }

  lemma SameIdSameBoard(boards: seq<Slot>, b: Slot, c: Slot)
    requires DistinctIds(boards) && b in boards && c in boards && b.id == c.id
    ensures b == c
  {
  }

  lemma MoveFinds(s: Session, i: nat, after: Option<nat>, id: nat)
    requires Inv(s) && i < |s.boards|
    ensures var t := Moved(s, i, after);
            && (Find(t.boards, id) < |t.boards| <==> Find(s.boards, id) < |s.boards|)
            && (Find(s.boards, id) < |s.boards| ==> t.boards[Find(t.boards, id)] == s.boards[Find(s.boards, id)])
  {
    hide Find, DistinctIds, Inv;
    var t := Moved(s, i, after);
    MoveKeeps(s, i, after);
    MovedHasAll(s, i, after);
    if Find(t.boards, id) < |t.boards| {
      assert t.boards[Find(t.boards, id)] in s.boards;
    }
    if Find(s.boards, id) < |s.boards| {
      var b := s.boards[Find(s.boards, id)];
      assert b in s.boards && b in t.boards;
      BoardsAreDistinct(t);
      SameIdSameBoard(t.boards, b, t.boards[Find(t.boards, id)]);
    }
  }

  lemma BoardsAreDistinct(s: Session)
    requires Inv(s)
    ensures DistinctIds(s.boards)
  {
  }

  lemma MovedHasAll(s: Session, i: nat, after: Option<nat>)
    requires i < |s.boards|
    ensures forall b :: b in s.boards ==> b in Moved(s, i, after).boards
  {
    hide Find;
    forall b | b in s.boards ensures b in Moved(s, i, after).boards {
      var j :| 0 <= j < |s.boards| && s.boards[j] == b;
      assert b in Without(s.boards, i) || b == s.boards[i] by {
        if j < i {
          assert Without(s.boards, i)[j] == b;
        } else if j > i {
          assert Without(s.boards, i)[j - 1] == b;
        }
      }
    }
  }

  lemma FreshIsFound(s: Session, a: Ask)
    requires Fresh(s, a)
    ensures Find(s.boards, a.id) < |s.boards|
  {
  }

  lemma RepositionStales(s: Session, game: GameState, a: Ask)
    requires Inv(s) && AskOk(s, a)
    ensures !Fresh(Repositioned(s, Find(s.boards, s.active), game), a)
  {
    hide Find, SlotOk;
    var i := Find(s.boards, s.active);
    TouchFinds(s.boards, i, s.boards[i].(game := game, version := s.nextVersion), a.id);
  }

  lemma LoadStales(s: Session, game: GameState, a: Ask)
    requires Inv(s) && AskOk(s, a) && game.Ok()
    ensures !Fresh(Next(s, Load(game)), a)
  {
    hide Find;
    var i := Find(s.boards, s.active);
    BoardIsOk(s, i);
    var b := s.boards[i].(analysis := None);
    TouchKeeps(s, i, b);
    TouchFinds(s.boards, i, b, s.active);
    RepositionStales(s.(boards := s.boards[i := b]), game, a);
  }

  lemma MoveIsHarmless(s: Session, i: nat, after: Option<nat>, a: Ask)
    requires Inv(s) && i < |s.boards|
    ensures Moved(s, i, after).job == s.job && (Fresh(Moved(s, i, after), a) <==> Fresh(s, a))
  {
    hide Find, SlotOk, Inserted, Without;
    MoveFinds(s, i, after, a.id);
  }

  lemma GameEventDisturbs(s: Session, e: Event)
    requires Inv(s) && s.job.Moving? && (e.Play? || e.Resign? || e.Undo? || e.Navigate? || e.Load?)
    ensures Next(s, e).job == s.job
    ensures Fresh(Next(s, e), s.job.ask) <==> Fresh(s, s.job.ask) && !Disturbs(s, e, s.job.ask)
  {
    hide Find, SlotOk, Played, Undone, Fresh, WellPlayed;
    var a, i := s.job.ask, Find(s.boards, s.active);
    BoardIsOk(s, i);
    var g := s.boards[i].game;
    match e {
      case Play(color, point) =>
        if Played(g, color, point, "").Some? { RepositionStales(s, Played(g, color, point, "").value, a); }
      case Resign(who) => RepositionStales(s, Resigned(g, if who.Some? then who.value else g.ToPlayNow()), a);
      case Undo => RepositionStales(s, Undone(g), a);
      case Navigate(index) => RepositionStales(s, Navigated(g, index), a);
      case Load(game) =>
        if game.Ok() { LoadStales(s, game, a); }
      case _ =>
    }
  }

  lemma SwitchDisturbs(s: Session, e: Event)
    requires Inv(s) && s.job.Moving? && (e.Select? || e.Duplicate? || e.NewBoard?)
    ensures Next(s, e).job == s.job
    ensures Fresh(Next(s, e), s.job.ask) <==> Fresh(s, s.job.ask) && !Disturbs(s, e, s.job.ask)
  {
    hide Find, SlotOk, DistinctIds, Inserted, FreshSlot, SinkOk, Names;
  }

  lemma BoardEventDisturbs(s: Session, e: Event)
    requires Inv(s) && s.job.Moving? && (e.MoveBoard? || e.Delete?)
    ensures Next(s, e).job == s.job
    ensures Fresh(Next(s, e), s.job.ask) <==> Fresh(s, s.job.ask) && !Disturbs(s, e, s.job.ask)
  {
    hide Find, SlotOk, Moved, DistinctIds, Without, FreshSlot, SinkOk;
    match e {
      case MoveBoard(id, after) =>
        if Find(s.boards, id) < |s.boards| { MoveIsHarmless(s, Find(s.boards, id), after, s.job.ask); }
      case _ =>
    }
  }

  /** One event while a move is in flight: the move stays fresh exactly if the event does not disturb it, and a
      stale move never becomes fresh again. */
  lemma FreshStep(s: Session, e: Event)
    requires Inv(s) && s.job.Moving? && !e.MoveAnswered?
    ensures Next(s, e).job == s.job
    ensures Fresh(Next(s, e), s.job.ask) <==> Fresh(s, s.job.ask) && !Disturbs(s, e, s.job.ask)
  {
    if e.Play? || e.Resign? || e.Undo? || e.Navigate? || e.Load? {
      hide *;
      GameEventDisturbs(s, e);
    } else if e.Select? || e.Duplicate? || e.NewBoard? {
      hide *;
      SwitchDisturbs(s, e);
    } else if e.MoveBoard? || e.Delete? {
      hide *;
      BoardEventDisturbs(s, e);
    } else {
      hide Find, SlotOk;
      var a, i := s.job.ask, Find(s.boards, s.active);
      match e {
        case ShowAnalysis(enabled) => TouchFinds(s.boards, i, s.boards[i].(analysis := None), a.id);
        case Report(k, report) =>
          if k < |s.sinks| {
            var j := Find(s.boards, s.sinks[k].id);
            if j < |s.boards| {
              TouchFinds(s.boards, j, s.boards[j].(analysis := Some(Analysis(report, s.sinks[k].sent)),
                                                   analysisVersion := s.sinks[k].version), a.id);
            }
          }
        case _ =>
      }
    }
  }

  /** No event of the run disturbs the move, and none is its answer. */
  ghost predicate Undisturbed(s: Session, es: seq<Event>, a: Ask)
    requires Inv(s)
    decreases |es|
  {
    es == [] || (!Disturbs(s, es[0], a) && (StepKeeps(s, es[0]); Undisturbed(Next(s, es[0]), es[1..], a)))
  }

  /** Over any run of messages and engine work while a move is in flight: at its end the move passes the token
      check if and only if it passed at the start and nothing on the way disturbed it. */
  lemma {:induction false} FreshIffUndisturbed(s: Session, es: seq<Event>)
    requires Inv(s) && s.job.Moving? && forall k :: 0 <= k < |es| ==> !es[k].MoveAnswered?
    ensures Run(s, es).job == s.job
    ensures Fresh(Run(s, es), s.job.ask) <==> Fresh(s, s.job.ask) && Undisturbed(s, es, s.job.ask)
    decreases |es|
  {
    hide Inv, Disturbs, Fresh, Next;
    if es != [] {
      StepKeeps(s, es[0]);
      FreshStep(s, es[0]);
      FreshIffUndisturbed(Next(s, es[0]), es[1..]);
    }
  }

  /** A move just asked for passes its own check. */
  lemma AskIsFresh(s: Session, explicit: bool)
    requires Inv(s) && s.job == Idle && Next(s, AskMove(explicit)).job.Moving?
    ensures Fresh(Next(s, AskMove(explicit)), Next(s, AskMove(explicit)).job.ask)
  {
    hide Find, SlotOk;
    BoardIsOk(s, Find(s.boards, s.active));
  }

  // ----- what single handlers leave, as a caller sees it -----

  /** The active board's position has a name never used before, and every other board is as it was. */
  ghost predicate ActiveRenamed(s: Session, t: Session) {
    var i := Find(s.boards, s.active);
    && i < |s.boards| == |t.boards| && t.boards[i].version !in s.seen
    && forall j :: 0 <= j < |s.boards| && j != i ==> t.boards[j] == s.boards[j]
  }

  lemma RepositionRenames(s: Session, game: GameState)
    requires Inv(s)
    ensures ActiveRenamed(s, Repositioned(s, Find(s.boards, s.active), game))
  {
    hide Find, SlotOk;
  }

  lemma GameEventRenames(s: Session, e: Event)
    requires Inv(s) && (e.Play? || e.Resign? || e.Undo? || e.Navigate? || (e.Load? && e.game.Ok()))
    ensures e.Play? && PlayedOn(s, s.active, e.color, e.point).None? ==> Next(s, e) == s
    ensures (e.Play? && PlayedOn(s, s.active, e.color, e.point).None?) || ActiveRenamed(s, Next(s, e))
  {
    hide Find, SlotOk, Repositioned, Played, Undone, ActiveRenamed, WellPlayed;
    var i := Find(s.boards, s.active);
    BoardIsOk(s, i);
    var g := s.boards[i].game;
    match e {
      case Play(color, point) =>
        if Played(g, color, point, "").Some? { RepositionRenames(s, Played(g, color, point, "").value); }
      case Resign(who) => RepositionRenames(s, Resigned(g, if who.Some? then who.value else g.ToPlayNow()));
      case Undo => RepositionRenames(s, Undone(g));
      case Navigate(index) => RepositionRenames(s, Navigated(g, index));
      case Load(game) => LoadRenames(s, game);
    }
  }

  lemma LoadRenames(s: Session, game: GameState)
    requires Inv(s) && game.Ok()
    ensures ActiveRenamed(s, Next(s, Load(game)))
  {
    hide Find, SlotOk;
  }

  /** After a console command with the same engine the active board's position has a new name. */
  lemma RawRenames(s: Session)
    requires Inv(s) && s.job.Console? && s.engine == Some(s.job.engine)
    ensures ActiveRenamed(s, Next(s, RawDone))
  {
    hide Find, SlotOk;
  }

  /** A duplicate is a board of its own with its source's position, and is the active one. */
  lemma DuplicateIsNew(s: Session, id: nat)
    requires Inv(s) && Find(s.boards, id) < |s.boards| < MAX_BOARDS
    ensures var i, t := Find(s.boards, id), Next(s, Duplicate(id));
            && Find(s.boards, t.active) == |s.boards| && |t.boards| == |s.boards| + 1
            && t.boards[i + 1] == s.boards[i].(id := t.active)
  {
    hide Find;
    forall j | 0 <= j < |s.boards| ensures s.boards[j].id != s.nextId {
      BoardIsOk(s, j);
    }
  }

  /** One more board, the last and the active one, empty and of the size and rules of the board active before. */
  predicate AddedAtEnd(s: Session, t: Session) {
    var i, n := Find(s.boards, s.active), |s.boards|;
    && |t.boards| == n + 1 && t.boards[..n] == s.boards && t.boards[n].id == t.active && i < n
    && t.boards[n].game.moves == [] && t.boards[n].game.setup.stones == []
    && t.boards[n].game.setup.size == s.boards[i].game.setup.size
    && t.boards[n].game.setup.rules == s.boards[i].game.setup.rules
    && t.boards[n].Current() == None
  }

  lemma NewBoardIsLikeActive(s: Session)
    requires Inv(s) && |s.boards| < MAX_BOARDS
    ensures AddedAtEnd(s, Next(s, NewBoard))
  {
    hide Find, SlotOk;
  }

  lemma WithoutCounts(boards: seq<Slot>, i: nat)
    requires i < |boards|
    ensures multiset(Without(boards, i)) + multiset{boards[i]} == multiset(boards)
  {
    assert boards == boards[..i] + [boards[i]] + boards[i + 1..];
  }

  lemma InsertedCounts(boards: seq<Slot>, i: nat, b: Slot)
    requires i <= |boards|
    ensures multiset(Inserted(boards, i, b)) == multiset(boards) + multiset{b}
  {
    assert boards == boards[..i] + boards[i..];
  }

  /** Moving a board reorders the boards: none is lost, added or changed. */
  lemma MoveReorders(s: Session, id: nat, after: Option<nat>)
    requires Inv(s)
    ensures multiset(Next(s, MoveBoard(id, after)).boards) == multiset(s.boards)
  {
    hide Find, Inv, Without, Inserted;
    var i := Find(s.boards, id);
    if i < |s.boards| {
      var rest := Without(s.boards, i);
      WithoutCounts(s.boards, i);
      var at := if after.None? then 0 else Find(rest, after.value) + 1;
      if at <= |rest| {
        InsertedCounts(rest, at, s.boards[i]);
      }
    }
  }

  /** The board is gone, unless it was the only one; a board is left, and one that is left is active. */
  predicate DeletedOne(s: Session, t: Session, id: nat) {
    && |t.boards| == (if |s.boards| == 1 then 1 else |s.boards| - 1)
    && Find(t.boards, t.active) < |t.boards|
    && (|s.boards| > 1 ==> Find(t.boards, id) == |t.boards|)
  }

  lemma DeleteLeavesABoard(s: Session, id: nat)
    requires Inv(s) && Find(s.boards, id) < |s.boards|
    ensures DeletedOne(s, Next(s, Delete(id)), id)
  {
    hide Find, Inv, Deleted;
    StepKeeps(s, Delete(id));
    var k := Find(s.boards, id);
    ActiveIsThere(s);
    ActiveIsThere(Next(s, Delete(id)));
    BoardsAreDistinct(s);
    DeletedIsGone(s, k);
  }

  lemma DeletedIsGone(s: Session, k: nat)
    requires k < |s.boards| && DistinctIds(s.boards) && Find(s.boards, s.active) < |s.boards|
    ensures var t := Deleted(s, k);
            && |t.boards| == (if |s.boards| == 1 then 1 else |s.boards| - 1)
            && (|s.boards| > 1 ==> Find(t.boards, s.boards[k].id) == |t.boards|)
  {
    hide Find, FreshSlot, Without, DistinctIds;
    WithoutDrops(s.boards, k);
  }

  /** An automatic move asked for before the players change does not pass the check after. */
  lemma PlayersStale(s: Session, black: bool, white: bool, styles: bool)
    requires Inv(s) && s.job.Moving? && !s.job.ask.explicit
    requires black != s.blackIsEngine || white != s.whiteIsEngine || styles
    ensures !Fresh(Next(s, Players(black, white, styles)), s.job.ask)
  {
    FreshStep(s, Players(black, white, styles));
  }

  lemma AnalysesAreOfTheirBoards(s: Session)
    requires Inv(s)
    ensures forall b :: b in s.boards && b.Current().Some? ==> b.Current().value.about == Content(b.game)
  {
    forall b | b in s.boards && b.Current().Some? ensures b.Current().value.about == Content(b.game) {
      AnalysisIsOfTheBoard(s, b);
    }
  }

  /** The answer changed only the active board, which had exactly what was sent. */
  predicate LandedOn(s: Session, t: Session, sent: GameState) {
    var i := Find(s.boards, s.active);
    && i < |s.boards| == |t.boards| && Content(s.boards[i].game) == sent
    && forall j :: 0 <= j < |s.boards| && j != i ==> t.boards[j] == s.boards[j]
  }

  lemma AnswerLandsOrNot(s: Session, answer: Answer)
    requires Inv(s) && s.job.Moving?
    ensures var (outcome, t) := Answered(s, s.job.ask, answer);
            if outcome == Landed then LandedOn(s, Next(s, MoveAnswered(answer)), s.job.ask.sent)
            else Next(s, MoveAnswered(answer)) == s.(job := Idle)
  {
    hide Inv, Find, Answered;
    MoveLandsWhereAsked(s, answer);
  }

  lemma FindsIfThere(boards: seq<Slot>, id: nat)
    ensures Find(boards, id) < |boards| <==> exists b :: b in boards && b.id == id
  {
  }

  lemma RestHasOthers(boards: seq<Slot>, i: nat, id: nat)
    requires i < |boards| && boards[i].id != id
    ensures (exists b :: b in boards[..i] + boards[i + 1..] && b.id == id) <==> exists b :: b in boards && b.id == id
  {
    var rest := boards[..i] + boards[i + 1..];
    assert forall b :: b in boards <==> b in rest || b == boards[i] by {
      assert boards == boards[..i] + [boards[i]] + boards[i + 1..];
    }
  }

  lemma OnlyBoardIsFound(boards: seq<Slot>, id: nat)
    ensures |boards| == 1 && Find(boards, id) < 1 ==> Find(boards, id) == 0 && boards[0].id == id
  {
  }

  lemma TurnSpeltOut(s: Session, g: GameState)
    requires g.cursor <= |g.moves|
    ensures var n, ms := g.cursor, g.moves;
            var mover := if n == 0 then g.setup.first else if ms[n - 1].color == Black then White else Black;
            var bothPassed := n >= 2 && ms[n - 1].point == None && ms[n - 2].point == None;
            var resigned := n == |ms| && g.result in ["B+R", "W+R", "B+Resign", "W+Resign"];
            && g.ToPlayNow() == mover
            && (ShouldMove(s, g) <==> n == |ms| < g.setup.maxMoves && !bothPassed && !resigned
                                      && if mover == Black then s.blackIsEngine else s.whiteIsEngine)
  {
  }

  /** A move is asked for exactly when the lock is free, there is an engine and, for an automatic one, it is its turn:
      with the token of the active board as it is. */
  lemma AskSpeltOut(s: Session, explicit: bool)
    requires Inv(s)
    ensures var i := Find(s.boards, s.active);
            && i < |s.boards| && s.boards[i].id == s.active && s.boards[i].game.cursor <= |s.boards[i].game.moves|
            && var b := s.boards[i];
            var sent := b.game.(result := "");
            Next(s, AskMove(explicit))
            == if s.job != Idle || s.engine.None? || !(explicit || ShouldMove(s, b.game)) then s
               else s.(job := Moving(Ask(s.engine.value, b.id, b.version, s.epoch, s.playersEpoch, explicit,
                                         b.game.ToPlayNow(), sent)),
                       sinks := s.sinks + [Sink(s.engine.value, b.id, b.version, sent)])
  {
    hide Inv, Find, ShouldMove;
    ActiveIsThere(s);
    BoardIsOk(s, Find(s.boards, s.active));
  }

  lemma FreshSpeltOut(s: Session, a: Ask)
    requires Inv(s) && AskOk(s, a)
    ensures var i := Find(s.boards, s.active);
            && i < |s.boards|
            && (Fresh(s, a) <==>
                && s.engine == Some(a.engine) && a.id == s.active && s.boards[i].version == a.version
                && s.epoch == a.epoch
                && (a.explicit || (s.playersEpoch == a.playersEpoch
                                   && if a.mover == Black then s.blackIsEngine else s.whiteIsEngine)))
  {
    hide SlotOk, SinkOk, AskOk, Find;
  }

  /** What becomes of an engine's answer: stale exactly when the engine, the board, its position, the epoch or, for an
      automatic move, the players are no longer those it was asked with; otherwise a resignation and a legal move
      land, on what was sent. */
  lemma AnswerIsJudged(s: Session, answer: Answer)
    requires Inv(s) && s.job.Moving?
    ensures var a, i, (outcome, t) := s.job.ask, Find(s.boards, s.active), Answered(s, s.job.ask, answer);
            && i < |s.boards| == |t.boards| && a.sent.cursor <= |a.sent.moves|
            && t == s.(boards := t.boards, nextVersion := t.nextVersion, seen := t.seen)
            && var sameEngine := s.engine == Some(a.engine);
            var stale := a.id != s.active || s.boards[i].version != a.version || s.epoch != a.epoch
                         || (!a.explicit && (s.playersEpoch != a.playersEpoch
                                             || !(if a.mover == Black then s.blackIsEngine else s.whiteIsEngine)));
            && (outcome == Stale <==> !sameEngine || (answer != Failure && stale))
            && (outcome == Landed <==>
                  sameEngine && !stale
                  && (answer.Resigns? || (answer.Vertex? && PlayedOn(s, a.id, a.mover, answer.point).Some?)))
            && (outcome == Landed && answer.Resigns? ==>
                  t.boards[i].game == a.sent.(moves := a.sent.moves[..a.sent.cursor],
                                              result := if a.mover == Black then "W+R" else "B+R"))
            && (outcome == Landed && answer.Vertex? ==>
                  && |t.boards[i].game.moves| == a.sent.cursor + 1
                  && var n := t.boards[i].game.moves[a.sent.cursor].captures;
                  t.boards[i].game == a.sent.(moves := a.sent.moves[..a.sent.cursor]
                                                       + [Move(a.mover, answer.point, n, "")],
                                              cursor := a.sent.cursor + 1, result := ""))
  {
    hide Inv, Find, Fresh, Judge, WellPlayed;
    JobIsOk(s);
    FreshSpeltOut(s, s.job.ask);
    MoveLandsWhereAsked(s, answer);
  }

  lemma JobIsOk(s: Session)
    requires Inv(s) && s.job.Moving?
    ensures AskOk(s, s.job.ask)
  {
  }

  // ----- single events -----

  lemma NextOfMove(s: Session, id: nat, after: Option<nat>)
    requires Inv(s)
    ensures var i := Find(s.boards, id);
            Next(s, MoveBoard(id, after)) == if i == |s.boards| || after == Some(id) then s else Moved(s, i, after)
  {
    hide Inv, Find, Moved;
  }

  lemma NextOfDuplicate(s: Session, id: nat)
    requires Inv(s)
    ensures var i := Find(s.boards, id);
            Next(s, Duplicate(id)) == if i == |s.boards| || |s.boards| >= MAX_BOARDS then s else Duplicated(s, i)
  {
    hide Inv, Find, Duplicated;
  }

  lemma NextOfPlayers(s: Session, black: bool, white: bool, styles: bool)
    requires Inv(s)
    ensures var changed := black != s.blackIsEngine || white != s.whiteIsEngine || styles;
            Next(s, Players(black, white, styles))
            == s.(blackIsEngine := black, whiteIsEngine := white,
                  playersEpoch := s.playersEpoch + if changed then 1 else 0)
  {
    hide Inv, Find;
  }

  lemma NextOfRaw(s: Session)
    requires Inv(s) && s.job.Console?
    ensures var i := Find(s.boards, s.active);
            && i < |s.boards|
            && Next(s, RawDone) == if s.engine != Some(s.job.engine) then s.(job := Idle)
                                   else Repositioned(s, i, s.boards[i].game).(job := Idle)
  {
    ActiveIsThere(s);
    hide Inv, Find, Repositioned;
  }

  lemma NextOfScore(s: Session, text: Option<string>)
    requires Inv(s) && s.job.Scoring?
    ensures Next(s, Scored(text)) == ResultSet(s, s.job.sink, text).(job := Idle)
  {
    hide Inv, Find, ResultSet;
  }
}
