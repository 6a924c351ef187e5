/** A saved game reads back as the same game. */
module GameRoundTrip {
  import opened Chains
  import opened Boards
  import opened Rules
  import opened Lines
  import opened Records
  import opened PlyCaches
  import opened Coords
  import opened Sgf
  import opened SgfRoundTrip
  import opened Text
  import opened SetupText
  import opened GameText
  import opened Starts

  /** What every game made by `Game(...)` or read from a text has, whatever is done with it then. */
  ghost predicate Saveable(st: GameState) {
    && 2 <= st.setup.size <= 25
    && st.setup.rules in RULE_SETS
    && Tidy(st.setup.stones, st.setup.size)
    && (st.handicap > 0 ==> 2 <= st.handicap <= st.setup.size * st.setup.size && st.setup.stones != [])
    && st.blackName != "" && st.whiteName != ""
  }

  // ----- property lists -----

  predicate Absent(ps: seq<Prop>, key: string) {
    Find(ps, key) == |ps|
  }

  lemma AddOptional(ps: seq<Prop>, k: string, v: seq<string>)
    requires DistinctKeys(ps) && Absent(ps, k)
    ensures var qs := ps + Optional(k, v);
            DistinctKeys(qs) && Lookup(qs, k) == v && (Absent(qs, k) <==> v == [])
            && forall key :: Code(key) != Code(k) ==>
                 Lookup(qs, key) == Lookup(ps, key) && (Absent(qs, key) <==> Absent(ps, key))
  {
    hide Code;
    var qs := ps + Optional(k, v);
    AddedLookup(ps, k, v, k);
    forall key | Code(key) != Code(k)
      ensures Lookup(qs, key) == Lookup(ps, key) && (Absent(qs, key) <==> Absent(ps, key))
    {
      AddedLookup(ps, k, v, key);
    }
  }

  lemma AddedLookup(ps: seq<Prop>, k: string, v: seq<string>, key: string)
    requires Absent(ps, k)
    ensures Lookup(ps + Optional(k, v), key) == if key == k then v else Lookup(ps, key)
    ensures Absent(ps + Optional(k, v), key) <==> Absent(ps, key) && (key != k || v == [])
  {
    var qs := ps + Optional(k, v);
    var f, g := Find(ps, key), Find(qs, key);
    assert f < |ps| ==> qs[f].key == key;
    assert g < |ps| ==> ps[g].key == key;
    assert v != [] ==> qs[|ps|] == Prop(k, v);
  }

  lemma FindAt(ps: seq<Prop>, k: nat)
    requires k < |ps| && DistinctKeys(ps)
    ensures Find(ps, ps[k].key) == k
  {
  }

  /** Tells short keys apart by their letters. */
  function Code(key: string): int {
    if |key| == 1 then key[0] as int
    else if |key| == 2 then 256 * (key[0] as int) + key[1] as int
    else 0
  }

  lemma Codes()
    ensures Code("GM") == 18253 && Code("FF") == 17990 && Code("CA") == 17217 && Code("AP") == 16720
    ensures Code("SZ") == 21338 && Code("KM") == 19277 && Code("RU") == 21077 && Code("PB") == 20546
    ensures Code("PW") == 20567 && Code("HA") == 18497 && Code("PL") == 20556 && Code("RE") == 21061
    ensures Code("AB") == 16706 && Code("AW") == 16727 && Code("AE") == 16709
    ensures Code("B") == 66 && Code("W") == 87 && Code("C") == 67
  {
  }

  /** A node as its list of known keys and values, in order, the empty ones left out. */
  function FixedRoot(sz: string, km: string, ru: string, pb: string, pw: string, ap: string): seq<Prop> {
    [Prop("GM", ["1"]), Prop("FF", ["4"]), Prop("CA", ["UTF-8"]), Prop("AP", [ap]),
     Prop("SZ", [sz]), Prop("KM", [km]), Prop("RU", [ru]), Prop("PB", [pb]), Prop("PW", [pw])]
  }

  const FIXED_CODES: seq<int> := [18253, 17990, 17217, 16720, 21338, 19277, 21077, 20546, 20567]

  lemma FixedCodes(sz: string, km: string, ru: string, pb: string, pw: string, ap: string)
    ensures var ps := FixedRoot(sz, km, ru, pb, pw, ap);
            |ps| == |FIXED_CODES| && forall i :: 0 <= i < |ps| ==> Code(ps[i].key) == FIXED_CODES[i]
  {
    hide Code;
    Codes();
    var ps := FixedRoot(sz, km, ru, pb, pw, ap);
    assert ps[0].key == "GM" && ps[1].key == "FF" && ps[2].key == "CA" && ps[3].key == "AP" && ps[4].key == "SZ";
    assert ps[5].key == "KM" && ps[6].key == "RU" && ps[7].key == "PB" && ps[8].key == "PW";
  }

  lemma FixedIsDistinct(sz: string, km: string, ru: string, pb: string, pw: string, ap: string)
    ensures DistinctKeys(FixedRoot(sz, km, ru, pb, pw, ap))
  {
    hide Code, FixedRoot;
    FixedCodes(sz, km, ru, pb, pw, ap);
    assert forall i, j :: 0 <= i < j < |FIXED_CODES| ==> FIXED_CODES[i] != FIXED_CODES[j];
  }

  lemma FixedAbsent(key: string, sz: string, km: string, ru: string, pb: string, pw: string, ap: string)
    requires Code(key) !in FIXED_CODES
    ensures Absent(FixedRoot(sz, km, ru, pb, pw, ap), key)
  {
    hide Code, FixedRoot;
    FixedCodes(sz, km, ru, pb, pw, ap);
    var ps := FixedRoot(sz, km, ru, pb, pw, ap);
    forall f | 0 <= f < |ps| ensures ps[f].key != key {
      assert Code(ps[f].key) == FIXED_CODES[f] && FIXED_CODES[f] in FIXED_CODES;
    }
  }

  lemma FixedPresent(sz: string, km: string, ru: string, pb: string, pw: string, ap: string)
    ensures var ps := FixedRoot(sz, km, ru, pb, pw, ap);
            Lookup(ps, "SZ") == [sz] && Lookup(ps, "KM") == [km] && Lookup(ps, "RU") == [ru]
            && Lookup(ps, "PB") == [pb] && Lookup(ps, "PW") == [pw] && !Absent(ps, "SZ")
  {
    hide Find;
    var ps := FixedRoot(sz, km, ru, pb, pw, ap);
    FixedIsDistinct(sz, km, ru, pb, pw, ap);
    FindAt(ps, 4);
    FindAt(ps, 5);
    FindAt(ps, 6);
    FindAt(ps, 7);
    FindAt(ps, 8);
  }

  // ----- the root -----

  /** What the optional properties hold, empty when they are not written. */
  datatype Options = Options(ha: seq<string>, pl: seq<string>, re: seq<string>, ab: seq<string>, aw: seq<string>)

  lemma RootLookups(sz: string, km: string, ru: string, pb: string, pw: string, ap: string, o: Options)
    ensures var ps := FixedRoot(sz, km, ru, pb, pw, ap)
                      + Optional("HA", o.ha) + Optional("PL", o.pl) + Optional("RE", o.re)
                      + Optional("AB", o.ab) + Optional("AW", o.aw);
            DistinctKeys(ps)
            && Lookup(ps, "SZ") == [sz] && Lookup(ps, "KM") == [km] && Lookup(ps, "RU") == [ru]
            && Lookup(ps, "PB") == [pb] && Lookup(ps, "PW") == [pw] && !Absent(ps, "SZ")
            && Lookup(ps, "HA") == o.ha && Lookup(ps, "PL") == o.pl && Lookup(ps, "RE") == o.re
            && Lookup(ps, "AB") == o.ab && Lookup(ps, "AW") == o.aw
            && (Absent(ps, "HA") <==> o.ha == [])
  {
    hide Code, FixedRoot, Lookup, Absent, DistinctKeys, Optional;
    Codes();
    var ps := FixedRoot(sz, km, ru, pb, pw, ap);
    FixedIsDistinct(sz, km, ru, pb, pw, ap);
    FixedPresent(sz, km, ru, pb, pw, ap);
    FixedAbsent("HA", sz, km, ru, pb, pw, ap);
    FixedAbsent("PL", sz, km, ru, pb, pw, ap);
    FixedAbsent("RE", sz, km, ru, pb, pw, ap);
    FixedAbsent("AB", sz, km, ru, pb, pw, ap);
    FixedAbsent("AW", sz, km, ru, pb, pw, ap);
    AbsentIsEmpty(ps, "HA");
    AbsentIsEmpty(ps, "PL");
    AbsentIsEmpty(ps, "RE");
    AbsentIsEmpty(ps, "AB");
    AbsentIsEmpty(ps, "AW");
    var p1 := ps + Optional("HA", o.ha);
    var p2 := p1 + Optional("PL", o.pl);
    var p3 := p2 + Optional("RE", o.re);
    var p4 := p3 + Optional("AB", o.ab);
    AddOptional(ps, "HA", o.ha);
    AddOptional(p1, "PL", o.pl);
    AddOptional(p2, "RE", o.re);
    AddOptional(p3, "AB", o.ab);
    AddOptional(p4, "AW", o.aw);
  }

  lemma AbsentIsEmpty(ps: seq<Prop>, key: string)
    ensures Absent(ps, key) ==> Lookup(ps, key) == []
  {
  }

  predicate AllWritable(ps: seq<Prop>) {
    forall k :: 0 <= k < |ps| ==> WritableProp(ps[k])
  }

  lemma RootIsWritable(sz: string, km: string, ru: string, pb: string, pw: string, ap: string, o: Options)
    ensures AllWritable(FixedRoot(sz, km, ru, pb, pw, ap)
                        + Optional("HA", o.ha) + Optional("PL", o.pl) + Optional("RE", o.re)
                        + Optional("AB", o.ab) + Optional("AW", o.aw))
  {
    assert AllWritable(FixedRoot(sz, km, ru, pb, pw, ap));
    assert AllWritable(Optional("HA", o.ha)) && AllWritable(Optional("PL", o.pl)) && AllWritable(Optional("RE", o.re));
    assert AllWritable(Optional("AB", o.ab)) && AllWritable(Optional("AW", o.aw));
  }

  /** The names of the rule sets are plain words, so each reads back as its own rule set. */
  lemma RulesReadBack(r: RuleSet)
    requires r in RULE_SETS
    ensures RulesOf(r.name) == r
  {
    var i :| 0 <= i < |RULE_SETS| && RULE_SETS[i] == r;
    WordIsPlain(r.name);
    hide Strip, Lower, Replace;
    RuleNamesDiffer(i);
  }

  lemma RuleNamesDiffer(i: nat)
    requires i < |RULE_SETS|
    ensures IsWord(RULE_SETS[i].name)
    ensures Alias(RULE_SETS[i].name, RULE_ALIASES) == RULE_SETS[i].name
    ensures RulesNamed(RULE_SETS[i].name, RULE_SETS) == Some(RULE_SETS[i])
  {
    RuleNameIsWord(i);
    RuleNameIsNoAlias(i);
    RuleNameIsFound(i);
    hide *;
  }

  lemma RuleNameIsWord(i: nat)
    requires i < |RULE_SETS|
    ensures IsWord(RULE_SETS[i].name)
  {
  }

  lemma RuleNameIsNoAlias(i: nat)
    requires i < |RULE_SETS|
    ensures Alias(RULE_SETS[i].name, RULE_ALIASES) == RULE_SETS[i].name
  {
    var name := RULE_SETS[i].name;
    assert |name| != 2 && (|name| == 11 ==> name[0] == 'n');
  }

  /** No two rule sets have names of the same length. */
  lemma RuleNameIsFound(i: nat)
    requires i < |RULE_SETS|
    ensures RulesNamed(RULE_SETS[i].name, RULE_SETS) == Some(RULE_SETS[i])
  {
    assert |RULE_SETS[0].name| == 8 && |RULE_SETS[1].name| == 6 && |RULE_SETS[2].name| == 7;
    assert |RULE_SETS[3].name| == 3 && |RULE_SETS[4].name| == 11 && |RULE_SETS[5].name| == 12;
  }

  /** The state a saved game's root reads as: the game before its moves and its result. */
  ghost function Beginning(st: GameState): GameState {
    st.(moves := [], cursor := 0, result := "")
  }

  lemma SizeReadsBack(root: Node, size: nat)
    requires 2 <= size <= 25 && Has(root, "SZ") && Get(root, "SZ") == Decimal(size)
    ensures SizeOf(root) == Some(size)
  {
    var t := Decimal(size);
    SmallIntReadsBack(size);
    var colon := FindChar(t, ':');
    assert colon == |t|;
    assert t[..colon] == t;
  }

  lemma HandicapReadsBack(root: Node, ha: nat, size: nat)
    requires ha <= size * size && ha < 10000
    requires if ha > 0 then Has(root, "HA") && Get(root, "HA") == Decimal(ha) else !Has(root, "HA")
    ensures HandicapOf(root, size) == Some(ha)
  {
    hide Decimal;
    if ha > 0 {
      SmallIntReadsBack(ha);
      var t := Decimal(ha);
      assert IsDigit(t[0]) && IsDigit(t[|t| - 1]);
      assert Strip(t) == t;
    }
  }

  lemma PlayerReadsBack(root: Node, handicap: nat, first: Colour)
    requires Get(root, "PL") == if first == (if handicap > 0 then White else Black) then ""
                                else if first == Black then "B" else "W"
    ensures FirstOf(root, handicap) == first
  {
    assert Strip("B") == "B" && Strip("W") == "W" && Strip("") == "";
    assert Lower("B") == "b" && Lower("W") == "w" && Lower("") == "";
    assert |"black"| == 5 && |"white"| == 5;
  }

  /** A root that holds what a game writes reads as that game's beginning. */
  lemma RootParts(st: GameState, fl: Floats, root: Node, b: seq<string>, w: seq<string>)
    requires st.setup.Ok() && Saveable(st) && fl.Exact(st.komi)
    requires Has(root, "SZ") && Lookup(root.props, "SZ") == [Decimal(st.setup.size)]
    requires Lookup(root.props, "KM") == [fl.show(st.komi)] && Lookup(root.props, "RU") == [st.setup.rules.name]
    requires Lookup(root.props, "PB") == [st.blackName] && Lookup(root.props, "PW") == [st.whiteName]
    requires Has(root, "HA") <==> st.handicap > 0
    requires Lookup(root.props, "HA") == if st.handicap > 0 then [Decimal(st.handicap)] else []
    requires Lookup(root.props, "PL") == if st.setup.first != (if st.handicap > 0 then White else Black)
                                         then [if st.setup.first == Black then "B" else "W"] else []
    requires Lookup(root.props, "AB") == b && Lookup(root.props, "AW") == w
    requires SetupOf(b, w, st.setup.size) == Some(st.setup.stones)
    ensures GameOfRoot(root, fl, st.setup.maxMoves) == Some(Beginning(st))
  {
    hide SizeOf, HandicapOf, FirstOf, RulesOf, Decimal, SetupOf, Strip, Lookup, Has, Tidy, RULE_SETS;
    var size := st.setup.size;
    assert size * size <= 625 by { assert size <= 25; SquareBound(size); }
    SizeReadsBack(root, size);
    HandicapReadsBack(root, st.handicap, size);
    PlayerReadsBack(root, st.handicap, st.setup.first);
    RulesReadBack(st.setup.rules);
  }

  lemma SquareBound(n: nat)
    requires n <= 25
    ensures n * n <= 625
  {
    assert n * n <= 25 * n;
  }

  /** A saved game's root reads back as the game it starts: setup, rules, komi, handicap, first player
      and names. */
  lemma RootReadsBack(st: GameState, fl: Floats, version: string)
    requires st.setup.Ok() && Saveable(st) && fl.Exact(st.komi)
    ensures (forall t :: t in st.setup.stones ==> t.x < st.setup.size && t.y < st.setup.size)
            && GameOfRoot(RootOf(st, fl, version), fl, st.setup.maxMoves) == Some(Beginning(st))
            && Get(RootOf(st, fl, version), "RE") == st.result
            && Writable(RootOf(st, fl, version))
  {
    hide SizeOf, HandicapOf, FirstOf, RulesOf, Decimal, SetupOf, Names, OfColor, Strip, Lookup, Tidy;
    hide RULE_SETS, DistinctKeys, Optional, Find, WritableProp, GameOfRoot;
    var u := st.setup;
    TidyIsOnBoard(u.stones, u.size);
    SetupReadsBack(u.stones, u.size);
    var root := RootOf(st, fl, version);
    var b, w := OfColor(u.stones, Black), OfColor(u.stones, White);
    assert (forall k :: 0 <= k < |b| ==> b[k] in b + w) && (forall k :: 0 <= k < |w| ==> w[k] in b + w);
    var o := Options(
      if st.handicap > 0 then [Decimal(st.handicap)] else [],
      if u.first != (if st.handicap > 0 then White else Black) then [if u.first == Black then "B" else "W"] else [],
      if st.result != "" then [st.result] else [], Names(b, u.size), Names(w, u.size));
    RootLookups(Decimal(u.size), fl.show(st.komi), u.rules.name, st.blackName, st.whiteName, "gowui:" + version, o);
    RootIsWritable(Decimal(u.size), fl.show(st.komi), u.rules.name, st.blackName, st.whiteName, "gowui:" + version, o);
    RootParts(st, fl, root, o.ab, o.aw);
  }

  // ----- the moves -----

  lemma MoveNodeParts(m: Move, size: nat)
    requires size <= 25 && (m.point.Some? ==> OnBoard(m.point.value, size))
    ensures var n := MoveNode(m, size);
            Writable(n) && Get(n, "C") == m.comment
            && !Has(n, "AB") && !Has(n, "AW") && !Has(n, "AE")
            && Has(n, if m.color == Black then "B" else "W") && !Has(n, if m.color == Black then "W" else "B")
            && Get(n, if m.color == Black then "B" else "W") == ToSgf(m.point, size).value
  {
    var text := ToSgf(m.point, size).value;
    hide Code, Optional, ToSgf, Get, Has, Writable;
    Codes();
    MoveNodeKeys(if m.color == Black then "B" else "W", text, m.comment);
  }

  lemma MoveNodeKeys(key: string, text: string, comment: string)
    requires |key| == 1 && IsUpper(key[0]) && Code(key) != 67
    ensures var n := Node([Prop(key, [text])] + Optional("C", if comment != "" then [comment] else []));
            Writable(n) && Get(n, "C") == comment && Has(n, key) && Get(n, key) == text
            && forall k :: Code(k) != Code(key) && Code(k) != 67 ==> !Has(n, k)
  {
    hide Code, Optional, Find;
    Codes();
    var ps, c := [Prop(key, [text])], if comment != "" then [comment] else [];
    OnePropLookups(key, text);
    AddOptional(ps, "C", c);
    OptionalIs("C", c);
  }

  lemma OptionalIs(k: string, v: seq<string>)
    ensures Optional(k, v) == if v == [] then [] else [Prop(k, v)]
  {
  }

  lemma OnePropLookups(key: string, text: string)
    ensures var ps := [Prop(key, [text])];
            DistinctKeys(ps) && Lookup(ps, key) == [text]
            && forall k :: Code(k) != Code(key) ==> Absent(ps, k) && Lookup(ps, k) == []
  {
    hide Code;
    var ps := [Prop(key, [text])];
    forall k | Code(k) != Code(key) ensures Absent(ps, k) && Lookup(ps, k) == [] {
      assert k != key;
    }
  }

  /** A node with one move of one colour, and no setup, plays that move if it can be played. */
  lemma OneMovePlays(st: GameState, n: Node, next: GameState, rest: seq<Node>, black: bool)
    requires st.Ok() && next.Ok() && !Has(n, "AB") && !Has(n, "AW") && !Has(n, "AE")
    requires PlayProp(st, n, if black then "B" else "W", if black then Black else White) == Some(next)
    requires !Has(n, if black then "W" else "B")
    ensures ReadMoves(st, [n] + rest) == ReadMoves(next, rest)
  {
    hide Played, Get, FromSgf, WellPlayed;
    assert ([n] + rest)[1..] == rest;
  }

  /** A written move, read where the moves before it have been played, plays as it was. */
  lemma MoveNodePlays(st: GameState, ms: seq<Move>, k: nat, rest: seq<Node>)
    requires st.Ok() && st.setup.size <= 25 && k < |ms|
    requires WellPlayed(st.setup, ms) && st.moves == ms[..k] && st.cursor == k && st.result == ""
    requires ms[k].point.Some? ==> OnBoard(ms[k].point.value, st.setup.size)
    ensures st.(moves := ms[..k + 1], cursor := k + 1).Ok()
    ensures ReadMoves(st, [MoveNode(ms[k], st.setup.size)] + rest)
         == ReadMoves(st.(moves := ms[..k + 1], cursor := k + 1), rest)
  {
    var m, size := ms[k], st.setup.size;
    var n := MoveNode(m, size);
    hide Played, WellPlayed, MoveNode, ToSgf, FromSgf, Has, Get, Writable, ReadMoves;
    MoveNodeParts(m, size);
    MoveReadsBack(m.point, size);
    PrefixWellPlayed(st.setup, ms, k + 1);
    MoveIsPlayed(st, ms, k);
    OneMovePlays(st, n, st.(moves := ms[..k + 1], cursor := k + 1), rest, m.color == Black);
  }

  lemma MoveIsPlayed(st: GameState, ms: seq<Move>, k: nat)
    requires st.Ok() && k < |ms|
    requires WellPlayed(st.setup, ms) && st.moves == ms[..k] && st.cursor == k && st.result == ""
    ensures Played(st, ms[k].color, ms[k].point, ms[k].comment) == Some(st.(moves := ms[..k + 1], cursor := k + 1))
  {
    hide Judge, After;
    assert LegalAt(st.setup, ms, k);
    hide WellPlayed;
    assert st.moves[..k] == ms[..k];
    assert ms[..k] + [ms[k]] == ms[..k + 1];
  }

  /** The moves of a well-played game, written and read, are played again one by one: whether a move is
      legal depends only on the moves before it. */
  lemma {:induction false} MovesReadBack(st: GameState, ms: seq<Move>, k: nat)
    requires st.Ok() && st.setup.size <= 25 && k <= |ms|
    requires WellPlayed(st.setup, ms) && MovesOnBoard(ms, st.setup.size)
    requires st.moves == ms[..k] && st.cursor == k && st.result == ""
    ensures ReadMoves(st, MoveNodes(ms, st.setup.size)[k..]) == st.(moves := ms, cursor := |ms|)
    decreases |ms| - k
  {
    hide ReadMoves, MoveNode, WellPlayed;
    var ns := MoveNodes(ms, st.setup.size);
    if k == |ms| {
      assert ms[..k] == ms && ns[k..] == [];
      NothingToRead(st);
    } else {
      MoveNodePlays(st, ms, k, ns[k + 1..]);
      MovesReadBack(st.(moves := ms[..k + 1], cursor := k + 1), ms, k + 1);
      assert ns[k..] == [MoveNode(ms[k], st.setup.size)] + ns[k + 1..];
    }
  }

  lemma NothingToRead(st: GameState)
    requires st.Ok()
    ensures ReadMoves(st, []) == st
  {
  }

  lemma LegalMovesAreOnBoard(u: Setup, ms: seq<Move>)
    requires u.Ok() && WellPlayed(u, ms)
    ensures MovesOnBoard(ms, u.size)
  {
    forall k | 0 <= k < |ms| && ms[k].point.Some? ensures OnBoard(ms[k].point.value, u.size) {
      assert LegalAt(u, ms, k);
      hide After, Repeats, Resolve;
    }
  }

  // ----- the whole game -----

  /** A saved game reads back as itself with the cursor at its end: setup, rules, komi, handicap, first
      player, names, every move with its captures and comment, and the result. */
  lemma SavedGameReadsBack(st: GameState, fl: Floats, version: string)
    requires st.Ok() && Saveable(st) && fl.Exact(st.komi) && |st.moves| < MAX_NODES
    ensures MovesOnBoard(st.moves, st.setup.size)
            && (forall t :: t in st.setup.stones ==> t.x < st.setup.size && t.y < st.setup.size)
            && Load(Save(st, fl, version), fl, st.setup.maxMoves) == Some(st.(cursor := |st.moves|))
  {
    hide RootOf, MoveNode, GameOfRoot, ReadMoves, Read, Dump, Tidy, Writable, WellPlayed, ToSgf, RULE_SETS, Get;
    var size, root := st.setup.size, RootOf(st, fl, version);
    LegalMovesAreOnBoard(st.setup, st.moves);
    RootReadsBack(st, fl, version);
    var moves := MoveNodes(st.moves, size);
    var ns := [root] + moves;
    forall k | 0 <= k < |ns| ensures Writable(ns[k]) {
      if k > 0 { MoveNodeParts(st.moves[k - 1], size); }
    }
    DumpReadsBack(ns);
    RootIsOk(root, fl, st.setup.maxMoves);
    assert ns[1..] == moves && moves[0..] == moves && st.moves[..0] == [];
    MovesReadBack(Beginning(st), st.moves, 0);
  }

  // ----- every game that can arise is saveable -----

  lemma NewGameIsSaveable(size: nat, komi: Option<real>, rules: RuleSet, handicap: int, maxMoves: nat)
    requires GameOf(size, komi, rules, handicap, maxMoves).Some? && rules in RULE_SETS
    ensures Saveable(GameOf(size, komi, rules, handicap, maxMoves).value)
  {
    hide HandicapPoints, RULE_SETS;
    var st := GameOf(size, komi, rules, handicap, maxMoves).value;
    HandicapPointsStandApart(size, handicap);
    var q := HandicapPoints(size, handicap).value;
    assert forall k :: 0 <= k < |q| ==> q[k] in q;
    assert Tidy(st.setup.stones, size);
    TidyFits(st.setup.stones, size);
  }

  lemma FoundRules(name: string, from: seq<RuleSet>)
    ensures RulesNamed(name, from).Some? ==> RulesNamed(name, from).value in from
  {
  }

  lemma RulesAreKnown(value: string)
    ensures RulesOf(value) in RULE_SETS
  {
    hide Strip, Lower, Replace, Alias, RulesNamed;
    var key := Replace(Replace(Lower(Strip(value)), '_', "-"), ' ', "-");
    FoundRules(Lower(Strip(Alias(key, RULE_ALIASES))), RULE_SETS);
    assert RULE_SETS[0] in RULE_SETS;
  }

  lemma PlayPropKeeps(st: GameState, n: Node, key: string, color: Colour)
    requires st.Ok() && Saveable(st)
    ensures PlayProp(st, n, key, color).Some? ==>
              Saveable(PlayProp(st, n, key, color).value) && PlayProp(st, n, key, color).value.setup == st.setup
  {
    hide Judge, RULE_SETS, Tidy, FromSgf, Get, Has;
  }

  lemma {:induction false} ReadMovesKeeps(st: GameState, ns: seq<Node>)
    requires st.Ok() && Saveable(st)
    ensures Saveable(ReadMoves(st, ns)) && ReadMoves(st, ns).setup == st.setup
    decreases |ns|
  {
    hide PlayProp, Saveable;
    if ns != [] {
      PlayPropKeeps(st, ns[0], "B", Black);
      var black := PlayProp(st, ns[0], "B", Black);
      if black.Some? {
        PlayPropKeeps(black.value, ns[0], "W", White);
        var white := PlayProp(black.value, ns[0], "W", White);
        if white.Some? { ReadMovesKeeps(white.value, ns[1..]); }
      }
    }
  }

  lemma LoadedGameIsSaveable(text: string, fl: Floats, maxMoves: nat)
    requires Load(text, fl, maxMoves).Some?
    ensures Saveable(Load(text, fl, maxMoves).value) && Load(text, fl, maxMoves).value.setup.maxMoves == maxMoves
  {
    hide RulesOf, SetupOf, SizeOf, HandicapOf, FirstOf, KomiOf, Get, Tidy, RULE_SETS, ReadMoves;
    var root := Read(text).value[0];
    RootIsOk(root, fl, maxMoves);
    RulesAreKnown(Get(root, "RU"));
    var st := GameOfRoot(root, fl, maxMoves).value;
    SetupIsTidy(Lookup(root.props, "AB"), Lookup(root.props, "AW"), st.setup.size);
    HandicapFits(root, st.setup.size);
    assert Saveable(st);
    ReadMovesKeeps(st, Read(text).value[1..]);
  }

  lemma HandicapFits(root: Node, size: nat)
    ensures HandicapOf(root, size).Some? ==> HandicapOf(root, size).value <= size * size
  {
  }

  /** No play, undo, navigation, branch or resignation changes what saving relies on. */
  lemma {:induction false} RunStaysSaveable(v: View, ops: seq<Op>)
    requires Shaped(v) && Saveable(v.st)
    ensures Saveable(Run(v, ops).st) && Run(v, ops).st.komi == v.st.komi
    decreases |ops|
  {
    hide Do, Saveable;
    if ops != [] {
      RunStaysSaveable(v, ops[..|ops| - 1]);
      DoStaysSaveable(Run(v, ops[..|ops| - 1]), ops[|ops| - 1]);
    }
  }

  lemma DoStaysSaveable(v: View, op: Op)
    requires Shaped(v) && Saveable(v.st)
    ensures Saveable(Do(v, op).st) && Do(v, op).st.komi == v.st.komi
  {
    hide JudgeCached, Truncated, WithNext, Tidy, RULE_SETS, Shaped;
  }

  /** The round trip of whole games: whatever was played, undone, navigated, branched or resigned since
      the game was made or read, its text reads back as the same line of play with the cursor at its
      end, and a loaded game holds the same snapshots, prisoners and indexes. */
  lemma AnyRunReadsBack(start: View, ops: seq<Op>, fl: Floats, version: string, loaded: View)
    requires Shaped(start) && Consistent(start) && Saveable(start.st) && fl.Exact(start.st.komi)
    requires start.st.setup.maxMoves < MAX_NODES
    ensures var st := Run(start, ops).st;
            st.setup.size <= 25 && MovesOnBoard(st.moves, st.setup.size)
            && (forall t :: t in st.setup.stones ==> t.x < st.setup.size && t.y < st.setup.size)
            && Load(Save(st, fl, version), fl, st.setup.maxMoves) == Some(st.(cursor := |st.moves|))
    ensures Consistent(loaded) && loaded.st == Run(start, ops).st.(cursor := |Run(start, ops).st.moves|)
            ==> loaded.c == Run(start, ops).c
  {
    hide Run, Load, Save, Cached, Shaped;
    var v := Run(start, ops);
    RunStaysConsistent(start, ops);
    RunStaysSaveable(start, ops);
    WellPlayedFits(v.st.setup, v.st.moves);
    SavedGameReadsBack(v.st, fl, version);
    if Consistent(loaded) && loaded.st == v.st.(cursor := |v.st.moves|) {
      CachesAreDetermined(v.st.setup, v.st.moves, v.c, loaded.c);
    }
  }

  /** The program's own games: whatever is done with a game from `Game(...)`, it reads back. */
  lemma NewGameReadsBack(size: nat, komi: Option<real>, rules: RuleSet, handicap: int, ops: seq<Op>, fl: Floats,
                         version: string)
    requires GameOf(size, komi, rules, handicap, MAX_MOVES).Some? && rules in RULE_SETS
    requires fl.Exact(GameOf(size, komi, rules, handicap, MAX_MOVES).value.komi)
    ensures var st := GameOf(size, komi, rules, handicap, MAX_MOVES).value;
            st.setup.Ok() && var end := Run(NewView(st.setup, komi, st.handicap), ops).st;
            && end.setup.size <= 25 && MovesOnBoard(end.moves, end.setup.size)
            && (forall t :: t in end.setup.stones ==> t.x < end.setup.size && t.y < end.setup.size)
            && Load(Save(end, fl, version), fl, MAX_MOVES) == Some(end.(cursor := |end.moves|))
  {
    hide HandicapPoints, RULE_SETS, Run, Load, Save, Cached, Tidy;
    var st := GameOf(size, komi, rules, handicap, MAX_MOVES).value;
    NewGameIsOk(size, komi, rules, handicap, MAX_MOVES);
    NewGameIsSaveable(size, komi, rules, handicap, MAX_MOVES);
    var start := NewView(st.setup, komi, st.handicap);
    NewIsConsistent(st.setup, komi, st.handicap);
    RunStaysConsistent(start, ops);
    AnyRunReadsBack(start, ops, fl, version, start);
  }

  /** A game read from a text: whatever is done with it then, its own text reads back as the same line, under the
      same cap. */
  lemma LoadedGameReadsBack(text: string, fl: Floats, maxMoves: nat, start: View, ops: seq<Op>, version: string)
    requires Load(text, fl, maxMoves) == Some(start.st) && Shaped(start) && Consistent(start)
    requires maxMoves < MAX_NODES && fl.Exact(start.st.komi)
    ensures var end := Run(start, ops).st;
            && end.setup.size <= 25 && MovesOnBoard(end.moves, end.setup.size)
            && (forall t :: t in end.setup.stones ==> t.x < end.setup.size && t.y < end.setup.size)
            && Load(Save(end, fl, version), fl, maxMoves) == Some(end.(cursor := |end.moves|))
  {
    hide Run, Load, Save, Cached, Saveable, Shaped;
    LoadedGameIsSaveable(text, fl, maxMoves);
    RunStaysConsistent(start, ops);
    AnyRunReadsBack(start, ops, fl, version, start);
  }
}
