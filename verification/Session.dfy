/** A space's boards and the engine work done for them. Every stretch of the session's code between two
    awaits is one event; the lock around engine commands is the one job in progress. */
module Sessions {
  import opened Chains
  import opened Boards
  import opened Rules
  import opened Lines
  import opened Records

  const MAX_BOARDS := 64

  /** A game without its result: what an engine's answer depends on. */
  function Content(g: GameState): GameState {
    g.(result := "")
  }

  /** An engine report, with the position the engine was asked about. */
  datatype Analysis = Analysis(report: nat, about: GameState)

  datatype Slot = Slot(id: nat, game: GameState, version: nat, analysis: Option<Analysis>, analysisVersion: nat)
  {
    /** The analysis shown with the board. */
    function Current(): Option<Analysis> {
      if analysis.Some? && analysisVersion == version then analysis else None
    }
  }

  /** An engine move asked for: the token it is held to, and what was sent. */
  datatype Ask = Ask(engine: nat, id: nat, version: nat, epoch: nat, playersEpoch: nat,
                     explicit: bool, mover: Colour, sent: GameState)

  /** A report consumer bound to one position of one board and to one engine. */
  datatype Sink = Sink(engine: nat, id: nat, version: nat, sent: GameState)

  /** What holds the engine lock. */
  datatype Job = Idle | Moving(ask: Ask) | Scoring(sink: Sink) | Console(engine: nat)

  datatype Answer = Vertex(point: Option<(int, int)>) | Resigns | NotAVertex | Failure

  datatype MoveOutcome = Landed | Stale | Failed

  datatype Session = Session(
    boards: seq<Slot>, active: nat, nextId: nat, nextVersion: nat, epoch: nat, playersEpoch: nat,
    blackIsEngine: bool, whiteIsEngine: bool, analysisEnabled: bool,
    engine: Option<nat>, nextEngine: nat, job: Job, sinks: seq<Sink>,
    seen: map<nat, GameState>)

  datatype Event =
    | Play(color: Cell, point: Option<(int, int)>)
    | Resign(who: Option<Colour>)
    | Undo
    | Navigate(index: int)
    | Load(game: GameState)
    | Select(id: nat)
    | Duplicate(id: nat)
    | NewBoard
    | MoveBoard(id: nat, after: Option<nat>)
    | Delete(id: nat)
    | Players(black: bool, white: bool, styles: bool)
    | ShowAnalysis(enabled: bool)
    | Connected
    | Released
    | LeftWithoutEngine
    | AskMove(explicit: bool)
    | MoveAnswered(answer: Answer)
    | StartAnalysis
    | Report(k: nat, report: nat)
    | StartScore
    | Scored(text: Option<string>)
    | StartRaw
    | RawDone

  /** The index of the board with this id, or the number of boards. */
  function Find(boards: seq<Slot>, id: nat): (i: nat)
    ensures i <= |boards| && (i < |boards| ==> boards[i].id == id)
    ensures forall j :: 0 <= j < i ==> boards[j].id != id
  {
    if boards == [] || boards[0].id == id then 0 else 1 + Find(boards[1..], id)
  }

  function Without(boards: seq<Slot>, i: nat): (r: seq<Slot>)
    requires i < |boards|
    ensures |r| == |boards| - 1 && forall b :: b in r ==> b in boards
  {
    boards[..i] + boards[i + 1..]
  }

  function Inserted(boards: seq<Slot>, i: nat, s: Slot): (r: seq<Slot>)
    requires i <= |boards|
    ensures |r| == |boards| + 1 && forall b :: b in r ==> b == s || b in boards
  {
    boards[..i] + [s] + boards[i..]
  }

  /** The content the version names. */
  predicate Names(seen: map<nat, GameState>, version: nat, content: GameState) {
    version in seen && seen[version] == content
  }

  function PlaysFor(s: Session, colour: Colour): bool {
    if colour == Black then s.blackIsEngine else s.whiteIsEngine
  }

  ghost predicate SlotOk(seen: map<nat, GameState>, nextId: nat, b: Slot) {
    && b.game.Ok() && Names(seen, b.version, Content(b.game)) && b.id < nextId
    && (b.analysis.Some? ==> Names(seen, b.analysisVersion, b.analysis.value.about))
  }

  ghost predicate SinkOk(seen: map<nat, GameState>, nextEngine: nat, k: Sink) {
    Names(seen, k.version, k.sent) && k.engine < nextEngine
  }

  ghost predicate AskOk(s: Session, a: Ask) {
    && Names(s.seen, a.version, a.sent)
    && a.sent.cursor <= |a.sent.moves| && a.mover == a.sent.ToPlayNow()
    && a.engine < s.nextEngine && a.id < s.nextId && a.epoch <= s.epoch && a.playersEpoch <= s.playersEpoch
    && (s.epoch == a.epoch ==> s.active == a.id)
    && (!a.explicit ==> a.sent.cursor == |a.sent.moves|)
    && (!a.explicit && s.playersEpoch == a.playersEpoch ==> PlaysFor(s, a.mover))
  }

  predicate DistinctIds(boards: seq<Slot>) {
    forall i, j :: 0 <= i < j < |boards| ==> boards[i].id != boards[j].id
  }

  /** What every reachable session satisfies. */
  ghost predicate Inv(s: Session) {
    && 0 < |s.boards| && DistinctIds(s.boards) && Find(s.boards, s.active) < |s.boards|
    && (forall b :: b in s.boards ==> SlotOk(s.seen, s.nextId, b))
    && (forall v :: v in s.seen ==> v < s.nextVersion)
    && (forall k :: 0 <= k < |s.sinks| ==> SinkOk(s.seen, s.nextEngine, s.sinks[k]))
    && (s.engine.Some? ==> s.engine.value < s.nextEngine)
    && match s.job
       case Idle => true
       case Moving(a) => AskOk(s, a)
       case Scoring(k) => SinkOk(s.seen, s.nextEngine, k)
       case Console(e) => e < s.nextEngine
  }

  // ----- the operations -----

  /** What the board's own game answers to a move. */
  ghost function PlayedOn(s: Session, id: nat, color: Cell, point: Option<(int, int)>): Option<GameState>
    requires Inv(s)
  {
    var i := Find(s.boards, id);
    assert i < |s.boards| ==> s.boards[i] in s.boards;
    if i < |s.boards| then Played(s.boards[i].game, color, point, "") else None
  }

  /** The board at `i` takes a new position: a version never used before names it. */
  function Repositioned(s: Session, i: nat, game: GameState): Session
    requires i < |s.boards|
  {
    s.(boards := s.boards[i := s.boards[i].(game := game, version := s.nextVersion)],
       nextVersion := s.nextVersion + 1, seen := s.seen[s.nextVersion := Content(game)])
  }

  function SwitchedTo(s: Session, id: nat): Session {
    s.(epoch := s.epoch + 1, active := id)
  }

  function FreshGame(g: GameState): GameState {
    NewGame(Setup(g.setup.size, g.setup.rules, [], Black, g.setup.maxMoves), None, 0)
  }

  /** A fresh board like the active one, and the session with its version taken. */
  function FreshSlot(s: Session, id: nat): Slot
    requires Find(s.boards, s.active) < |s.boards|
  {
    Slot(id, FreshGame(s.boards[Find(s.boards, s.active)].game), s.nextVersion, None, 0)
  }

  function VersionTaken(s: Session, b: Slot): Session {
    s.(nextVersion := s.nextVersion + 1, seen := s.seen[s.nextVersion := Content(b.game)])
  }

  function Duplicated(s: Session, i: nat): Session
    requires i < |s.boards|
  {
    var copy := s.boards[i].(id := s.nextId);
    SwitchedTo(s.(boards := Inserted(s.boards, i + 1, copy), nextId := s.nextId + 1), s.nextId)
  }

  function Added(s: Session): Session
    requires Find(s.boards, s.active) < |s.boards|
  {
    var b := FreshSlot(s, s.nextId);
    SwitchedTo(VersionTaken(s, b).(boards := s.boards + [b], nextId := s.nextId + 1), s.nextId)
  }

  function Moved(s: Session, i: nat, after: Option<nat>): Session
    requires i < |s.boards|
  {
    var rest := Without(s.boards, i);
    var at := if after.None? then 0 else Find(rest, after.value) + 1;
    if at > |rest| then s else s.(boards := Inserted(rest, at, s.boards[i]))
  }

  /** The only board starts over under its own id; for another, a neighbour becomes active if it was. */
  function Deleted(s: Session, i: nat): Session
    requires i < |s.boards| && Find(s.boards, s.active) < |s.boards|
  {
    if |s.boards| == 1 then
      var b := FreshSlot(s, s.boards[0].id);
      SwitchedTo(VersionTaken(s, b).(boards := [b]), b.id)
    else
      var rest := Without(s.boards, i);
      var t := s.(boards := rest, epoch := s.epoch + 1);
      if s.boards[i].id == s.active then SwitchedTo(t, rest[if i < |rest| then i else |rest| - 1].id) else t
  }

  function WithoutAnalyses(boards: seq<Slot>): (r: seq<Slot>)
    ensures |r| == |boards| && forall i :: 0 <= i < |boards| ==> r[i] == boards[i].(analysis := None)
  {
    seq(|boards|, i requires 0 <= i < |boards| => boards[i].(analysis := None))
  }

  /** The engine is lost, disconnected or could not be connected: nothing stays armed to use one, and no board
      keeps an analysis. */
  function Disarmed(s: Session): Session {
    s.(engine := None, boards := WithoutAnalyses(s.boards),
       playersEpoch := s.playersEpoch + if s.blackIsEngine || s.whiteIsEngine then 1 else 0,
       blackIsEngine := false, whiteIsEngine := false, analysisEnabled := false)
  }

  /** The token check: nothing the answer was asked for has changed. */
  predicate Fresh(s: Session, a: Ask) {
    var i := Find(s.boards, a.id);
    && s.engine == Some(a.engine)
    && i < |s.boards| && a.id == s.active && s.boards[i].version == a.version && s.epoch == a.epoch
    && (a.explicit || (s.playersEpoch == a.playersEpoch && PlaysFor(s, a.mover)))
  }

  ghost function Applied(s: Session, i: nat, mover: Colour, answer: Answer): (MoveOutcome, Session)
    requires i < |s.boards| && s.boards[i].game.Ok()
  {
    match answer
    case Resigns => (Landed, Repositioned(s, i, Resigned(Branched(s.boards[i].game), mover)))
    case Vertex(point) =>
      var played := Played(s.boards[i].game, mover, point, "");
      if played.Some? then (Landed, Repositioned(s, i, played.value)) else (Failed, s)
    case _ => (Failed, s)
  }

  /** An engine's answer. It is played or resigned at the cursor of the board it was asked for, or discarded. */
  ghost function Answered(s: Session, a: Ask, answer: Answer): (r: (MoveOutcome, Session))
    requires Inv(s)
  {
    var i := Find(s.boards, a.id);
    assert i < |s.boards| ==> s.boards[i] in s.boards;
    if s.engine != Some(a.engine) then (Stale, s)
    else if answer == Failure then (Failed, s)
    else if !Fresh(s, a) then (Stale, s)
    else Applied(s, i, a.mover, answer)
  }

  const RESIGNATIONS := ["B+R", "W+R", "B+Resign", "W+Resign"]

  /** Nothing more is to be played at the cursor: both sides have just passed, or the last move was followed by a
      resignation. */
  predicate GameOver(g: GameState)
    requires g.cursor <= |g.moves|
  {
    || (g.cursor >= 2 && g.moves[g.cursor - 1].point.None? && g.moves[g.cursor - 2].point.None?)
    || (g.cursor == |g.moves| && g.result in RESIGNATIONS)
  }

  /** The cursor is at the end, a move can still be played, and an engine plays the side to move. */
  predicate ShouldMove(s: Session, g: GameState)
    requires g.cursor <= |g.moves|
  {
    g.cursor == |g.moves| && !GameOver(g) && g.cursor < g.setup.maxMoves && PlaysFor(s, g.ToPlayNow())
  }

  function NewAsk(s: Session, b: Slot, explicit: bool): Ask
    requires s.engine.Some? && b.game.cursor <= |b.game.moves|
  {
    Ask(s.engine.value, b.id, b.version, s.epoch, s.playersEpoch, explicit, b.game.ToPlayNow(), Content(b.game))
  }

  function NewSink(s: Session, b: Slot): Sink
    requires s.engine.Some?
  {
    Sink(s.engine.value, b.id, b.version, Content(b.game))
  }

  /** A report is kept only while its board still has the position it was made for. */
  function Reported(s: Session, k: Sink, report: nat): Session {
    var i := Find(s.boards, k.id);
    if i == |s.boards| || s.boards[i].version != k.version || s.engine != Some(k.engine) || !s.analysisEnabled then s
    else
      var b := s.boards[i].(analysis := Some(Analysis(report, k.sent)), analysisVersion := k.version);
      s.(boards := s.boards[i := b])
  }

  /** A score becomes the result of the position it was asked for, or nothing's. */
  function ResultSet(s: Session, k: Sink, text: Option<string>): Session {
    var i := Find(s.boards, k.id);
    if s.engine != Some(k.engine) || text.None? || i == |s.boards| || s.boards[i].version != k.version then s
    else s.(boards := s.boards[i := s.boards[i].(game := s.boards[i].game.(result := text.value))])
  }

  ghost function Next(s: Session, e: Event): Session
    requires Inv(s)
  {
    var i := Find(s.boards, s.active);
    var b := s.boards[i];
    assert b in s.boards;
    match e
    case Play(color, point) =>
      var played := Played(b.game, color, point, "");
      if played.Some? then Repositioned(s, i, played.value) else s
    case Resign(who) => Repositioned(s, i, Resigned(b.game, if who.Some? then who.value else b.game.ToPlayNow()))
    case Undo => Repositioned(s, i, Undone(b.game))
    case Navigate(index) => Repositioned(s, i, Navigated(b.game, index))
    case Load(game) =>
      if !game.Ok() then s else Repositioned(s.(boards := s.boards[i := b.(analysis := None)]), i, game)
    case Select(id) => if Find(s.boards, id) < |s.boards| then SwitchedTo(s, id) else s
    case Duplicate(id) =>
      var k := Find(s.boards, id);
      if k == |s.boards| || |s.boards| >= MAX_BOARDS then s else Duplicated(s, k)
    case NewBoard => if |s.boards| >= MAX_BOARDS then s else Added(s)
    case MoveBoard(id, after) =>
      var k := Find(s.boards, id);
      if k == |s.boards| || after == Some(id) then s else Moved(s, k, after)
    case Delete(id) =>
      var k := Find(s.boards, id);
      if k == |s.boards| then s else Deleted(s, k)
    case Players(black, white, styles) =>
      var changed := black != s.blackIsEngine || white != s.whiteIsEngine || styles;
      s.(blackIsEngine := black, whiteIsEngine := white, playersEpoch := s.playersEpoch + if changed then 1 else 0)
    case ShowAnalysis(enabled) =>
      s.(analysisEnabled := enabled,
         boards := if enabled then s.boards else s.boards[i := b.(analysis := None)])
    case Connected => s.(engine := Some(s.nextEngine), nextEngine := s.nextEngine + 1)
    case Released => s.(engine := None)
    case LeftWithoutEngine => Disarmed(s)
    case AskMove(explicit) =>
      if s.job != Idle || s.engine.None? || (!explicit && !ShouldMove(s, b.game)) then s
      else s.(job := Moving(NewAsk(s, b, explicit)), sinks := s.sinks + [NewSink(s, b)])
    case MoveAnswered(answer) => if s.job.Moving? then Answered(s, s.job.ask, answer).1.(job := Idle) else s
    case StartAnalysis =>
      if s.job != Idle || s.engine.None? then s else s.(sinks := s.sinks + [NewSink(s, b)])
    case Report(k, report) => if k < |s.sinks| then Reported(s, s.sinks[k], report) else s
    case StartScore => if s.job != Idle || s.engine.None? then s else s.(job := Scoring(NewSink(s, b)))
    case Scored(text) => if s.job.Scoring? then ResultSet(s, s.job.sink, text).(job := Idle) else s
    case StartRaw => if s.job != Idle || s.engine.None? then s else s.(job := Console(s.engine.value))
    case RawDone =>
      if !s.job.Console? then s
      else if s.engine != Some(s.job.engine) then s.(job := Idle)
      else Repositioned(s, i, b.game).(job := Idle)
  }
}
