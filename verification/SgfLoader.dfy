/** Reading a game from SGF text, as the game class does it: setup rectangles expanded with an owner for
    each point, then the moves of the main line played one by one. */
module SgfLoader {
  import opened Chains
  import opened Boards
  import opened Rules
  import opened Lines
  import opened Records
  import opened PlyCaches
  import opened Games
  import opened Coords
  import opened Sgf
  import opened SgfReader
  import opened SetupText
  import opened GameText

  // ----- setup stones -----

  lemma {:induction false} AreaConcat(a: seq<Listed>, b: seq<Listed>)
    requires forall k :: 0 <= k < |a + b| ==> (a + b)[k].rect.Ok()
    ensures (forall k :: 0 <= k < |a| ==> a[k].rect.Ok()) && (forall k :: 0 <= k < |b| ==> b[k].rect.Ok())
    ensures TotalArea(a + b) == TotalArea(a) + TotalArea(b)
    decreases |a|
  {
    assert forall k :: 0 <= k < |a| ==> (a + b)[k] == a[k];
    assert forall k :: 0 <= k < |b| ==> (a + b)[|a| + k] == b[k];
    if a == [] {
      assert a + b == b;
    } else {
      assert (a + b)[1..] == a[1..] + b;
      AreaConcat(a[1..], b);
    }
  }

  ghost function Join(done: seq<Listed>, rest: Option<seq<Listed>>): Option<seq<Listed>> {
    if rest.None? then None else Some(done + rest.value)
  }

  lemma RectsStep(values: seq<string>, i: nat, color: Colour, size: nat, done: seq<Listed>)
    requires i < |values|
    ensures Join(done, RectsOf(values[i..], color, size))
         == if RectOf(values[i], size).None? then None
            else Join(done + [Listed(color, RectOf(values[i], size).value)], RectsOf(values[i + 1..], color, size))
  {
    hide RectOf;
    assert values[i..][1..] == values[i + 1..];
    var first, more := RectOf(values[i], size), RectsOf(values[i + 1..], color, size);
    if first.Some? && more.Some? {
      var l := Listed(color, first.value);
      assert done + ([l] + more.value) == done + [l] + more.value;
    }
  }

  lemma RectsEnds(values: seq<string>, color: Colour, size: nat, done: seq<Listed>)
    ensures Join([], RectsOf(values[0..], color, size)) == RectsOf(values, color, size)
    ensures Join(done, RectsOf(values[|values|..], color, size)) == Some(done)
  {
    assert values[0..] == values && values[|values|..] == [] && done + [] == done;
    var r := RectsOf(values, color, size);
    if r.Some? { assert [] + r.value == r.value; }
  }

  /** List one property's rectangles, giving up once more than `room` points are listed. */
  method ListRects(values: seq<string>, color: Colour, size: nat, room: nat)
    returns (r: Option<seq<Listed>>, area: nat)
    ensures match RectsOf(values, color, size)
      case None => r == None
      case Some(q) => (r == if TotalArea(q) > room then None else Some(q)) && (r.Some? ==> area == TotalArea(q))
  {
    hide RectOf, RectsOf;
    ghost var whole := RectsOf(values, color, size);
    var rects: seq<Listed> := [];
    area := 0;
    RectsEnds(values, color, size, []);
    for i := 0 to |values|
      invariant forall k :: 0 <= k < |rects| ==> rects[k].rect.Ok()
      invariant area == TotalArea(rects) && area <= room
      invariant Join(rects, RectsOf(values[i..], color, size)) == whole
    {
      var rect := RectOf(values[i], size);
      RectsStep(values, i, color, size, rects);
      if rect.None? {
        return None, 0;
      }
      AreaConcat(rects, [Listed(color, rect.value)]);
      rects := rects + [Listed(color, rect.value)];
      area := area + rect.value.Area();
      if area > room {
        if whole.Some? { AreaConcat(rects, RectsOf(values[i + 1..], color, size).value); }
        return None, 0;
      }
    }
    RectsEnds(values, color, size, rects);
    r := Some(rects);
  }

  /** The owner table knows exactly the points listed so far. */
  ghost predicate OwnerAgrees(owner: map<(nat, nat), Colour>, done: seq<SetupStone>) {
    forall p :: if Owner(done, p) == Empty then p !in owner else p in owner && owner[p] == Owner(done, p)
  }

  lemma OwnerOfMore(done: seq<SetupStone>, t: SetupStone, p: (nat, nat))
    ensures Owner(done + [t], p) == if Owner(done, p) != Empty then Owner(done, p)
                                    else if (t.x, t.y) == p then t.color else Empty
    decreases |done|
  {
    if done != [] {
      OwnerOfMore(done[1..], t, p);
      assert (done + [t])[1..] == done[1..] + [t];
    }
  }

  lemma NothingPlaced(color: Colour, ps: seq<(nat, nat)>)
    ensures PlaceAll(None, color, ps) == None
    decreases |ps|
  {
    if ps != [] { NothingPlaced(color, ps[1..]); }
  }

  lemma NoRectsPlaced(ls: seq<Listed>)
    ensures PlaceRects(None, ls) == None
    decreases |ls|
  {
    if ls != [] {
      NothingPlaced(ls[0].color, PointsIn(ls[0].rect));
      NoRectsPlaced(ls[1..]);
    }
  }

  lemma PlaceFirst(done: Option<seq<SetupStone>>, color: Colour, p: (nat, nat), rest: seq<(nat, nat)>)
    ensures PlaceAll(done, color, [p] + rest) == PlaceAll(PlaceOne(done, color, p), color, rest)
  {
    assert ([p] + rest)[1..] == rest;
  }

  lemma RowFirst(x: nat, x2: nat, y: nat, below: seq<(nat, nat)>)
    requires x <= x2
    ensures Row(x, x2, y) + below == [(x, y)] + (Row(x + 1, x2, y) + below)
  {
  }

  lemma RowEnds(x2: nat, y: nat, below: seq<(nat, nat)>)
    ensures Row(x2 + 1, x2, y) + below == below
  {
  }

  lemma RowsFirst(x1: nat, x2: nat, y: nat, y2: nat)
    requires y <= y2
    ensures Rows(x1, x2, y, y2) == Row(x1, x2, y) + Rows(x1, x2, y + 1, y2)
  {
  }

  lemma RowsEnd(x1: nat, x2: nat, y2: nat)
    ensures Rows(x1, x2, y2 + 1, y2) == []
  {
  }

  lemma NoMorePoints(done: Option<seq<SetupStone>>, color: Colour)
    ensures PlaceAll(done, color, []) == done
  {
  }

  /** Listing a point by its owner is listing it by the stones listed so far. */
  lemma PlaceBy(owner: map<(nat, nat), Colour>, done: seq<SetupStone>, color: Colour, p: (nat, nat))
    requires OwnerAgrees(owner, done)
    ensures var t := SetupStone(color, p.0, p.1);
            if p !in owner
            then PlaceOne(Some(done), color, p) == Some(done + [t]) && OwnerAgrees(owner[p := color], done + [t])
            else PlaceOne(Some(done), color, p) == if owner[p] == color then Some(done) else None
  {
    assert if Owner(done, p) == Empty then p !in owner else p in owner && owner[p] == Owner(done, p);
    var t := SetupStone(color, p.0, p.1);
    if p !in owner {
      forall q
        ensures if Owner(done + [t], q) == Empty then q !in owner[p := color]
                else q in owner[p := color] && owner[p := color][q] == Owner(done + [t], q)
      {
        OwnerOfMore(done, t, q);
        assert if Owner(done, q) == Empty then q !in owner else q in owner && owner[q] == Owner(done, q);
      }
    }
  }

  /** List a rectangle's points row by row. */
  method ExpandRect(setup0: seq<SetupStone>, owner0: map<(nat, nat), Colour>, color: Colour, r: Rect)
    returns (setup: seq<SetupStone>, owner: map<(nat, nat), Colour>, ok: bool)
    requires OwnerAgrees(owner0, setup0) && r.Ok()
    ensures match PlaceAll(Some(setup0), color, PointsIn(r))
      case None => !ok
      case Some(q) => ok && setup == q && OwnerAgrees(owner, q)
  {
    hide PlaceAll, OwnerAgrees, PlaceOne, Row, Rows;
    ghost var whole := PlaceAll(Some(setup0), color, PointsIn(r));
    setup, owner := setup0, owner0;
    for y := r.y1 to r.y2 + 1
      invariant OwnerAgrees(owner, setup)
      invariant PlaceAll(Some(setup), color, Rows(r.x1, r.x2, y, r.y2)) == whole
    {
      ghost var below := Rows(r.x1, r.x2, y + 1, r.y2);
      RowsFirst(r.x1, r.x2, y, r.y2);
      for x := r.x1 to r.x2 + 1
        invariant OwnerAgrees(owner, setup)
        invariant PlaceAll(Some(setup), color, Row(x, r.x2, y) + below) == whole
      {
        ghost var rest := Row(x + 1, r.x2, y) + below;
        RowFirst(x, r.x2, y, below);
        PlaceFirst(Some(setup), color, (x, y), rest);
        PlaceBy(owner, setup, color, (x, y));
        if (x, y) !in owner {
          owner := owner[(x, y) := color];
          setup := setup + [SetupStone(color, x, y)];
        } else if owner[(x, y)] != color {
          NothingPlaced(color, rest);
          return setup, owner, false;
        }
      }
      RowEnds(r.x2, y, below);
    }
    NoMorePoints(Some(setup), color);
    RowsEnd(r.x1, r.x2, r.y2);
    ok := true;
  }

  /** The setup stones of a root: count every listed point before expanding any rectangle. */
  method ReadSetup(root: Node, size: nat) returns (r: Option<seq<SetupStone>>)
    ensures r == SetupOf(GameText.Lookup(root.props, "AB"), GameText.Lookup(root.props, "AW"), size)
  {
    hide RectsOf, PlaceAll, PlaceRects, Owner, GameText.Lookup;
    var ab, aw := GameText.Lookup(root.props, "AB"), GameText.Lookup(root.props, "AW");
    var b, listed := ListRects(ab, Black, size, size * size);
    if b.None? {
      return None;
    }
    var w, more := ListRects(aw, White, size, size * size - listed);
    if w.None? {
      return None;
    }
    var rects := b.value + w.value;
    ghost var whole := PlaceRects(Some([]), rects);
    var setup: seq<SetupStone> := [];
    var owner: map<(nat, nat), Colour> := map[];
    NoOwners();
    var ok;
    assert rects[0..] == rects;
    for i := 0 to |rects|
      invariant OwnerAgrees(owner, setup)
      invariant PlaceRects(Some(setup), rects[i..]) == whole
    {
      PlaceRectsFirst(Some(setup), rects, i);
      setup, owner, ok := ExpandRect(setup, owner, rects[i].color, rects[i].rect);
      if !ok {
        NoRectsPlaced(rects[i + 1..]);
        return None;
      }
    }
    NoMoreRects(Some(setup), rects);
    r := Some(setup);
  }

  lemma NoOwners()
    ensures OwnerAgrees(map[], [])
  {
  }

  lemma PlaceRectsFirst(done: Option<seq<SetupStone>>, ls: seq<Listed>, i: nat)
    requires i < |ls|
    ensures PlaceRects(done, ls[i..])
         == PlaceRects(PlaceAll(done, ls[i].color, PointsIn(ls[i].rect)), ls[i + 1..])
  {
    assert ls[i..][1..] == ls[i + 1..];
  }

  lemma NoMoreRects(done: Option<seq<SetupStone>>, ls: seq<Listed>)
    ensures PlaceRects(done, ls[|ls|..]) == done
  {
  }

  // ----- the game -----

  lemma ReadMovesStep(st: GameState, ns: seq<Node>, k: nat)
    requires st.Ok() && k < |ns|
    ensures ReadMoves(st, ns[k..])
         == if Has(ns[k], "AB") || Has(ns[k], "AW") || Has(ns[k], "AE") then st
            else
              var black := PlayProp(st, ns[k], "B", Black);
              if black.None? then st
              else
                var white := PlayProp(black.value, ns[k], "W", White);
                if white.None? then black.value else ReadMoves(white.value, ns[k + 1..])
  {
    hide PlayProp, Has;
    assert ns[k..][1..] == ns[k + 1..];
  }

  lemma ReadMovesEnds(st: GameState, ns: seq<Node>)
    requires st.Ok()
    ensures ReadMoves(st, ns[|ns|..]) == st
  {
  }

  /** Play one of a node's moves on the game, if it has that property. */
  method PlayOne(g: Game, n: Node, key: string, color: Colour) returns (ok: bool)
    requires g.Valid() && Consistent(g.Now())
    modifies g
    ensures g.Valid() && Consistent(g.Now())
    ensures match PlayProp(old(g.Now()).st, n, key, color)
      case None => !ok && g.Now() == old(g.Now())
      case Some(st) => ok && g.Now().st == st
  {
    hide Consistent, Shaped, PlayView, Judge, Has, Get, FromSgf;
    if !Has(n, key) {
      return true;
    }
    var p := FromSgf(Get(n, key), g.size);
    if p.BadCoordinate? {
      return false;
    }
    PlayAgrees(g.Now(), color, p.point, Get(n, "C"));
    var error := g.Play(color, p.point, Get(n, "C"));
    ok := error == None;
  }

  /** Play the moves of the nodes after the root, stopping at the first that cannot be played. */
  method PlayMoves(g: Game, ns: seq<Node>)
    requires g.Valid() && Consistent(g.Now())
    modifies g
    ensures g.Valid() && Consistent(g.Now())
    ensures g.Now().st == ReadMoves(old(g.Now()).st, ns)
  {
    hide Consistent, Shaped, Has, PlayProp, ReadMoves;
    ghost var st := g.Now().st;
    assert ns[0..] == ns;
    ConsistentIsOk(g.Now());
    for k := 0 to |ns|
      invariant g.Valid() && Consistent(g.Now()) && g.Now().st.Ok()
      invariant ReadMoves(g.Now().st, ns[k..]) == ReadMoves(st, ns)
    {
      ReadMovesStep(g.Now().st, ns, k);
      if Has(ns[k], "AB") || Has(ns[k], "AW") || Has(ns[k], "AE") {
        return;
      }
      var ok := PlayOne(g, ns[k], "B", Black);
      if !ok {
        return;
      }
      ok := PlayOne(g, ns[k], "W", White);
      ConsistentIsOk(g.Now());
      if !ok {
        return;
      }
    }
    ReadMovesEnds(g.Now().st, ns);
  }

  lemma ConsistentIsOk(v: View)
    requires Consistent(v)
    ensures v.st.Ok()
  {
  }

  /** A consistent view of a game stays so when only what the caches do not mention changes. */
  lemma SameLine(v: View, w: View)
    requires Consistent(v) && w.c == v.c && w.st.setup == v.st.setup && w.st.moves == v.st.moves
    requires w.st.cursor == v.st.cursor
    ensures Consistent(w) && (Shaped(v) ==> Shaped(w))
  {
    hide Cached, WellPlayed;
  }

  /** Read the main line of an SGF text into a game whose caches agree with the line it holds. */
  method FromSgfText(text: string, fl: Floats, maxMoves: nat) returns (g: Game?)
    ensures match Load(text, fl, maxMoves)
      case None => g == null
      case Some(st) => g != null && fresh(g) && g.Valid() && Consistent(g.Now()) && g.Now().st == st
  {
    hide TreeAt, MainLine, GameOfRoot, ReadMoves, Consistent, Shaped, SetupOf;
    var reader := new Reader(text);
    var nodes := reader.GameTree();
    if nodes.None? {
      return null;
    }
    var root := nodes.value[0];
    g := StartOf(root, fl, maxMoves);
    if g == null {
      return null;
    }
    PlayMoves(g, nodes.value[1..]);
    ghost var v := g.Now();
    g.result := Get(root, "RE");
    SameLine(v, g.Now());
  }

  /** The game a root node starts. */
  method StartOf(root: Node, fl: Floats, maxMoves: nat) returns (g: Game?)
    ensures match GameOfRoot(root, fl, maxMoves)
      case None => g == null
      case Some(st) => g != null && fresh(g) && g.Valid() && Consistent(g.Now()) && g.Now().st == st
  {
    hide SizeOf, KomiOf, HandicapOf, FirstOf, RulesOf, Get, SetupOf, Consistent, Tidy, Start;
    var size := SizeOf(root);
    if size.None? {
      return null;
    }
    var komi := KomiOf(root, fl);
    if komi.None? {
      return null;
    }
    var ha := HandicapOf(root, size.value);
    if ha.None? {
      return null;
    }
    var stones := ReadSetup(root, size.value);
    if stones.None? {
      return null;
    }
    var handicap := if stones.value != [] && ha.value >= 2 then ha.value else 0;
    var rules, first := RulesOf(Get(root, "RU")), FirstOf(root, handicap);
    RootIsOk(root, fl, maxMoves);
    g := new Game.FromSetup(size.value, rules, komi.value, handicap, stones.value, first, maxMoves);
    ghost var v := g.Now();
    NewIsConsistent(v.st.setup, komi.value, handicap);
    g.blackName := OrElse(Get(root, "PB"), "Black");
    g.whiteName := OrElse(Get(root, "PW"), "White");
    SameLine(v, g.Now());
  }
}
