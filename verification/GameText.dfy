/** A game as SGF text: what is written, what is read, and that a saved game reads back as itself. */
module GameText {
  import opened Chains
  import opened Boards
  import opened Rules
  import opened Lines
  import opened Records
  import opened Coords
  import opened Sgf
  import opened Text
  import opened SetupText

  /** How a float is written and read: `show` is its shortest text, `read` the value of a text that is a
      finite decimal number. Both belong to the host language. */
  datatype Floats = Floats(show: real -> string, read: string -> Option<real>) {
    /** The one thing assumed of them: a number's own text reads back as it. */
    predicate Exact(k: real) {
      show(k) != "" && Strip(show(k)) == show(k) && read(show(k)) == Some(k)
    }
  }

  // ----- looking properties up -----

  function Lookup(props: seq<Prop>, key: string): seq<string> {
    var k := Find(props, key);
    if k < |props| then props[k].values else []
  }

  predicate Has(n: Node, key: string) {
    Find(n.props, key) < |n.props|
  }

  function Get(n: Node, key: string): string {
    var values := Lookup(n.props, key);
    if values == [] then "" else values[0]
  }

  // ----- reading the root -----

  function SizeText(value: string): Option<string> {
    var colon := FindChar(value, ':');
    var first := value[..colon];
    if !AllDigits(first) then None
    else if colon == |value| then Some(first)
    else if value[colon + 1..] == first then Some(first)
    else None
  }

  function SizeOf(root: Node): (r: Option<nat>)
    ensures r.Some? ==> 2 <= r.value <= 25
  {
    if !Has(root, "SZ") then Some(19)
    else
      var t := SizeText(Get(root, "SZ"));
      if t.None? then None
      else
        var n := SmallInt(t.value);
        if n.None? || !(2 <= n.value <= 25) then None else n
  }

  const RULE_ALIASES: seq<(string, string)> := [
    ("jp", "japanese"), ("cn", "chinese"), ("nz", "new-zealand"), ("tromptaylor", "tromp-taylor")
  ]

  function Alias(key: string, from: seq<(string, string)>): string {
    if from == [] then key else if from[0].0 == key then from[0].1 else Alias(key, from[1..])
  }

  function RulesNamed(name: string, from: seq<RuleSet>): Option<RuleSet> {
    if from == [] then None else if from[0].name == name then Some(from[0]) else RulesNamed(name, from[1..])
  }

  function GetRules(name: string): Option<RuleSet> {
    RulesNamed(Lower(Strip(name)), RULE_SETS)
  }

  function RulesOf(value: string): RuleSet {
    var key := Replace(Replace(Lower(Strip(value)), '_', "-"), ' ', "-");
    var found := GetRules(Alias(key, RULE_ALIASES));
    if found.Some? then found.value else DEFAULT_RULES
  }

  /** The komi a root gives, the inner `None` when it gives none. */
  function KomiOf(root: Node, fl: Floats): Option<Option<real>> {
    var value := Strip(Get(root, "KM"));
    if value == "" then Some(None)
    else
      var k := fl.read(value);
      if k.None? then None else Some(k)
  }

  function HandicapOf(root: Node, size: nat): Option<nat> {
    if !Has(root, "HA") then Some(0)
    else
      var value := Strip(Get(root, "HA"));
      var signed := value != "" && (value[0] == '+' || value[0] == '-');
      var digits := if signed then value[1..] else value;
      if !AllDigits(digits) then None
      else
        var n := SmallInt(digits);
        if n.None? || n.value > size * size || (signed && value[0] == '-' && n.value > 0) then None else n
  }

  function FirstOf(root: Node, handicap: nat): Colour {
    var player := Lower(Strip(Get(root, "PL")));
    if player == "b" || player == "black" then Black
    else if player == "w" || player == "white" then White
    else if handicap > 0 then White
    else Black
  }

  function OrElse(s: string, d: string): string {
    if s == "" then d else s
  }

  /** The game a root node starts, before any move; `None` when the root is unreadable. */
  function GameOfRoot(root: Node, fl: Floats, maxMoves: nat): Option<GameState> {
    var size := SizeOf(root);
    var komi := KomiOf(root, fl);
    if size.None? || komi.None? then None
    else
      var ha := HandicapOf(root, size.value);
      var stones := SetupOf(Lookup(root.props, "AB"), Lookup(root.props, "AW"), size.value);
      if ha.None? || stones.None? then None
      else
        var handicap := if stones.value != [] && ha.value >= 2 then ha.value else 0;
        var u := Setup(size.value, RulesOf(Get(root, "RU")), stones.value, FirstOf(root, handicap), maxMoves);
        Some(NewGame(u, komi.value, handicap)
             .(blackName := OrElse(Get(root, "PB"), "Black"), whiteName := OrElse(Get(root, "PW"), "White")))
  }

  // ----- reading the moves -----

  /** Play one of a node's moves; `None` when it is not a move on this board or is illegal. */
  ghost function PlayProp(st: GameState, n: Node, key: string, color: Colour): (r: Option<GameState>)
    requires st.Ok()
    ensures r.Some? ==> r.value.Ok()
  {
    if !Has(n, key) then Some(st)
    else
      var p := FromSgf(Get(n, key), st.setup.size);
      if p.BadCoordinate? then None else Played(st, color, p.point, Get(n, "C"))
  }

  /** Play the moves of the nodes until one has setup stones or a move that cannot be played. */
  ghost function ReadMoves(st: GameState, ns: seq<Node>): (r: GameState)
    requires st.Ok()
    ensures r.Ok()
    decreases |ns|
  {
    if ns == [] || Has(ns[0], "AB") || Has(ns[0], "AW") || Has(ns[0], "AE") then st
    else
      var black := PlayProp(st, ns[0], "B", Black);
      if black.None? then st
      else
        var white := PlayProp(black.value, ns[0], "W", White);
        if white.None? then black.value else ReadMoves(white.value, ns[1..])
  }

  /** The game a text holds; `None` when it cannot be read. */
  ghost function Load(text: string, fl: Floats, maxMoves: nat): (r: Option<GameState>)
    ensures r.Some? ==> r.value.Ok()
  {
    var ns := Read(text);
    if ns.None? then None
    else
      var st := GameOfRoot(ns.value[0], fl, maxMoves);
      if st.None? then None
      else
        RootIsOk(ns.value[0], fl, maxMoves);
        Some(ReadMoves(st.value, ns.value[1..]).(result := Get(ns.value[0], "RE")))
  }

  lemma RootIsOk(root: Node, fl: Floats, maxMoves: nat)
    requires GameOfRoot(root, fl, maxMoves).Some?
    ensures GameOfRoot(root, fl, maxMoves).value.Ok()
  {
    hide SetupOf;
    var size := SizeOf(root).value;
    SetupIsTidy(Lookup(root.props, "AB"), Lookup(root.props, "AW"), size);
    assert WellPlayed(GameOfRoot(root, fl, maxMoves).value.setup, []);
  }

  // ----- writing -----

  function Optional(key: string, values: seq<string>): seq<Prop> {
    if values == [] then [] else [Prop(key, values)]
  }

  /** The root of a saved game. */
  function RootOf(st: GameState, fl: Floats, version: string): Node
    requires st.setup.size <= 25
    requires forall t :: t in st.setup.stones ==> t.x < st.setup.size && t.y < st.setup.size
  {
    var u := st.setup;
    OfColorKeeps(u.stones, Black);
    OfColorKeeps(u.stones, White);
    assert forall k :: 0 <= k < |OfColor(u.stones, Black)| ==> OfColor(u.stones, Black)[k] in OfColor(u.stones, Black);
    assert forall k :: 0 <= k < |OfColor(u.stones, White)| ==> OfColor(u.stones, White)[k] in OfColor(u.stones, White);
    Node([Prop("GM", ["1"]), Prop("FF", ["4"]), Prop("CA", ["UTF-8"]), Prop("AP", ["gowui:" + version]),
          Prop("SZ", [Decimal(u.size)]), Prop("KM", [fl.show(st.komi)]), Prop("RU", [u.rules.name]),
          Prop("PB", [st.blackName]), Prop("PW", [st.whiteName])]
         + Optional("HA", if st.handicap > 0 then [Decimal(st.handicap)] else [])
         + Optional("PL", if u.first != (if st.handicap > 0 then White else Black)
                          then [if u.first == Black then "B" else "W"] else [])
         + Optional("RE", if st.result != "" then [st.result] else [])
         + Optional("AB", Names(OfColor(u.stones, Black), u.size))
         + Optional("AW", Names(OfColor(u.stones, White), u.size)))
  }

  function MoveNode(m: Move, size: nat): Node
    requires size <= 25 && (m.point.Some? ==> OnBoard(m.point.value, size))
  {
    Node([Prop(if m.color == Black then "B" else "W", [ToSgf(m.point, size).value])]
         + Optional("C", if m.comment != "" then [m.comment] else []))
  }

  /** Every move is a pass or on the board. */
  predicate MovesOnBoard(ms: seq<Move>, size: nat) {
    forall k :: 0 <= k < |ms| ==> ms[k].point.Some? ==> OnBoard(ms[k].point.value, size)
  }

  function MoveNodes(ms: seq<Move>, size: nat): (r: seq<Node>)
    requires size <= 25 && MovesOnBoard(ms, size)
    ensures |r| == |ms|
  {
    seq(|ms|, k requires 0 <= k < |ms| => MoveNode(ms[k], size))
  }

  /** The text of a game. */
  function Save(st: GameState, fl: Floats, version: string): string
    requires st.setup.size <= 25 && MovesOnBoard(st.moves, st.setup.size)
    requires forall t :: t in st.setup.stones ==> t.x < st.setup.size && t.y < st.setup.size
  {
    Dump([RootOf(st, fl, version)] + MoveNodes(st.moves, st.setup.size))
  }
}
