/** The setup stones of an SGF root: the AB and AW points, FF[4] compressed rectangles included. */
module SetupText {
  import opened Chains
  import opened Boards
  import opened Rules
  import opened Sets
  import opened Lines
  import opened Coords

  datatype Rect = Rect(x1: nat, y1: nat, x2: nat, y2: nat) {
    predicate Ok() {
      x1 <= x2 && y1 <= y2
    }

    function Area(): nat
      requires Ok()
    {
      (x2 - x1 + 1) * (y2 - y1 + 1)
    }
  }

  function Min(a: int, b: int): int {
    if b < a then b else a
  }

  function Max(a: int, b: int): int {
    if b > a then b else a
  }

  /** One point, or the rectangle two corners span. */
  function RectOf(value: string, size: nat): (r: Option<Rect>)
    ensures r.Some? ==> r.value.Ok() && r.value.x2 < size && r.value.y2 < size
  {
    var colon := FindChar(value, ':');
    if colon == |value| then
      var p := SgfPoint(value, size);
      if p.None? then None else Some(Rect(p.value.0, p.value.1, p.value.0, p.value.1))
    else
      var p, q := SgfPoint(value[..colon], size), SgfPoint(value[colon + 1..], size);
      if p.None? || q.None? then None
      else Some(Rect(Min(p.value.0, q.value.0), Min(p.value.1, q.value.1),
                     Max(p.value.0, q.value.0), Max(p.value.1, q.value.1)))
  }

  function Row(x1: nat, x2: nat, y: nat): seq<(nat, nat)>
    decreases x2 + 1 - x1
  {
    if x1 > x2 then [] else [(x1, y)] + Row(x1 + 1, x2, y)
  }

  function Rows(x1: nat, x2: nat, y1: nat, y2: nat): seq<(nat, nat)>
    decreases y2 + 1 - y1
  {
    if y1 > y2 then [] else Row(x1, x2, y1) + Rows(x1, x2, y1 + 1, y2)
  }

  function PointsIn(r: Rect): seq<(nat, nat)> {
    Rows(r.x1, r.x2, r.y1, r.y2)
  }

  /** A listed area: its colour and rectangle. */
  datatype Listed = Listed(color: Colour, rect: Rect)

  /** The rectangles of a property's values; `None` when one of them is not a setup point. */
  function RectsOf(values: seq<string>, color: Colour, size: nat): (r: Option<seq<Listed>>)
    ensures r.Some? ==> forall k :: 0 <= k < |r.value| ==>
              r.value[k].rect.Ok() && r.value[k].rect.x2 < size && r.value[k].rect.y2 < size
  {
    if values == [] then Some([])
    else
      var first, rest := RectOf(values[0], size), RectsOf(values[1..], color, size);
      if first.None? || rest.None? then None else Some([Listed(color, first.value)] + rest.value)
  }

  function TotalArea(ls: seq<Listed>): nat
    requires forall k :: 0 <= k < |ls| ==> ls[k].rect.Ok()
  {
    if ls == [] then 0 else ls[0].rect.Area() + TotalArea(ls[1..])
  }

  /** Which colour's setup stone is at a point already, if any. */
  function Owner(done: seq<SetupStone>, p: (nat, nat)): (c: Cell)
    ensures c == Empty <==> forall k :: 0 <= k < |done| ==> (done[k].x, done[k].y) != p
    ensures c != Empty ==> exists k :: 0 <= k < |done| && (done[k].x, done[k].y) == p && done[k].color == c
  {
    if done == [] then Empty
    else if (done[0].x, done[0].y) == p then done[0].color
    else
      var c := Owner(done[1..], p);
      assert forall k :: 1 <= k < |done| ==> done[k] == done[1..][k - 1];
      c
  }

  /** List a point: once if it is listed again in the same colour, refused in the other. */
  function PlaceOne(done: Option<seq<SetupStone>>, color: Colour, p: (nat, nat)): Option<seq<SetupStone>> {
    if done.None? then None
    else
      var seen := Owner(done.value, p);
      if seen == color then done
      else if seen != Empty then None
      else Some(done.value + [SetupStone(color, p.0, p.1)])
  }

  function PlaceAll(done: Option<seq<SetupStone>>, color: Colour, ps: seq<(nat, nat)>): Option<seq<SetupStone>>
    decreases |ps|
  {
    if ps == [] then done else PlaceAll(PlaceOne(done, color, ps[0]), color, ps[1..])
  }

  function PlaceRects(done: Option<seq<SetupStone>>, ls: seq<Listed>): Option<seq<SetupStone>>
    decreases |ls|
  {
    if ls == [] then done else PlaceRects(PlaceAll(done, ls[0].color, PointsIn(ls[0].rect)), ls[1..])
  }

  /** The setup stones AB and AW list, black first; `None` for a bad point, a point in both, or more
      listed points than the board has. */
  function SetupOf(ab: seq<string>, aw: seq<string>, size: nat): Option<seq<SetupStone>> {
    var b, w := RectsOf(ab, Black, size), RectsOf(aw, White, size);
    if b.None? || w.None? || TotalArea(b.value) + TotalArea(w.value) > size * size then None
    else PlaceRects(Some([]), b.value + w.value)
  }

  // ----- what is read is tidy -----

  /** Black stones first, no point twice, all on the board. */
  ghost predicate Tidy(stones: seq<SetupStone>, size: nat) {
    && (forall k :: 0 <= k < |stones| ==> stones[k].x < size && stones[k].y < size)
    && (forall i, j :: 0 <= i < j < |stones| ==>
          (stones[i].x, stones[i].y) != (stones[j].x, stones[j].y)
          && !(stones[i].color == White && stones[j].color == Black))
  }

  /** Tidy, and black can still be added. */
  ghost predicate TidyUpTo(done: Option<seq<SetupStone>>, size: nat, color: Colour) {
    done.Some? ==> Tidy(done.value, size)
                   && (color == Black ==> forall k :: 0 <= k < |done.value| ==> done.value[k].color == Black)
  }

  lemma {:induction false} PlaceAllKeepsTidy(done: Option<seq<SetupStone>>, color: Colour, ps: seq<(nat, nat)>,
                                             size: nat)
    requires TidyUpTo(done, size, color)
    requires forall k :: 0 <= k < |ps| ==> ps[k].0 < size && ps[k].1 < size
    ensures TidyUpTo(PlaceAll(done, color, ps), size, color)
    decreases |ps|
  {
    if ps != [] {
      PlaceAllKeepsTidy(PlaceOne(done, color, ps[0]), color, ps[1..], size);
    }
  }

  lemma {:induction false} RowInside(x1: nat, x2: nat, y: nat)
    ensures forall p :: p in Row(x1, x2, y) <==> x1 <= p.0 <= x2 && p.1 == y
    decreases x2 + 1 - x1
  {
    if x1 <= x2 {
      RowInside(x1 + 1, x2, y);
    }
  }

  /** A rectangle lists exactly its points. */
  lemma {:induction false} RowsInside(x1: nat, x2: nat, y1: nat, y2: nat)
    ensures forall p :: p in Rows(x1, x2, y1, y2) <==> x1 <= p.0 <= x2 && y1 <= p.1 <= y2
    decreases y2 + 1 - y1
  {
    if y1 <= y2 {
      RowInside(x1, x2, y1);
      RowsInside(x1, x2, y1 + 1, y2);
    }
  }

  lemma {:induction false} PlaceRectsKeepsTidy(done: Option<seq<SetupStone>>, ls: seq<Listed>, color: Colour, size: nat)
    requires TidyUpTo(done, size, color)
    requires forall k :: 0 <= k < |ls| ==> ls[k].color == color && ls[k].rect.x2 < size && ls[k].rect.y2 < size
    ensures TidyUpTo(PlaceRects(done, ls), size, color)
    decreases |ls|
  {
    if ls != [] {
      var r := ls[0].rect;
      RowsInside(r.x1, r.x2, r.y1, r.y2);
      assert forall k :: 0 <= k < |PointsIn(r)| ==> PointsIn(r)[k] in PointsIn(r);
      PlaceAllKeepsTidy(done, color, PointsIn(r), size);
      PlaceRectsKeepsTidy(PlaceAll(done, color, PointsIn(r)), ls[1..], color, size);
    }
  }

  lemma {:induction false} PlaceRectsConcat(done: Option<seq<SetupStone>>, a: seq<Listed>, b: seq<Listed>)
    ensures PlaceRects(done, a + b) == PlaceRects(PlaceRects(done, a), b)
    decreases |a|
  {
    if a == [] {
      assert a + b == b;
    } else {
      assert (a + b)[1..] == a[1..] + b;
      PlaceRectsConcat(PlaceAll(done, a[0].color, PointsIn(a[0].rect)), a[1..], b);
    }
  }

  lemma {:induction false} RectsHaveColour(values: seq<string>, color: Colour, size: nat)
    ensures RectsOf(values, color, size).Some? ==>
              forall k :: 0 <= k < |RectsOf(values, color, size).value| ==>
                RectsOf(values, color, size).value[k].color == color
  {
    if values != [] {
      RectsHaveColour(values[1..], color, size);
    }
  }

  /** Setup stones read from a text list no point twice, lie on the board and have Black's first. */
  lemma SetupIsTidy(ab: seq<string>, aw: seq<string>, size: nat)
    requires SetupOf(ab, aw, size).Some?
    ensures Tidy(SetupOf(ab, aw, size).value, size)
  {
    hide RectsOf, PlaceRects;
    var b, w := RectsOf(ab, Black, size).value, RectsOf(aw, White, size).value;
    RectsHaveColour(ab, Black, size);
    RectsHaveColour(aw, White, size);
    PlaceRectsConcat(Some([]), b, w);
    PlaceRectsKeepsTidy(Some([]), b, Black, size);
    PlaceRectsKeepsTidy(PlaceRects(Some([]), b), w, White, size);
  }

  // ----- what is written reads back -----

  function OfColor(stones: seq<SetupStone>, c: Colour): seq<SetupStone> {
    if stones == [] then [] else (if stones[0].color == c then [stones[0]] else []) + OfColor(stones[1..], c)
  }

  /** The points of setup stones as property values. */
  function Names(stones: seq<SetupStone>, size: nat): (r: seq<string>)
    requires size <= 25 && forall k :: 0 <= k < |stones| ==> stones[k].x < size && stones[k].y < size
    ensures |r| == |stones|
  {
    seq(|stones|, k requires 0 <= k < |stones| => ToSgf(Some((stones[k].x, stones[k].y)), size).value)
  }

  lemma {:induction false} OfColorKeeps(stones: seq<SetupStone>, c: Colour)
    ensures forall t :: t in OfColor(stones, c) ==> t in stones && t.color == c
    decreases |stones|
  {
    if stones != [] {
      OfColorKeeps(stones[1..], c);
    }
  }

  lemma {:induction false} AllOfColor(stones: seq<SetupStone>, c: Colour)
    requires forall k :: 0 <= k < |stones| ==> stones[k].color == c
    ensures OfColor(stones, c) == stones && OfColor(stones, if c == Black then White else Black) == []
    decreases |stones|
  {
    if stones != [] {
      AllOfColor(stones[1..], c);
    }
  }

  /** Written Black's first, tidy setup stones keep their order. */
  lemma {:induction false} TidySplits(stones: seq<SetupStone>, size: nat)
    requires Tidy(stones, size)
    ensures OfColor(stones, Black) + OfColor(stones, White) == stones
    decreases |stones|
  {
    if stones != [] {
      var rest := stones[1..];
      if stones[0].color == White {
        assert forall k :: 0 <= k < |stones| ==> stones[k].color == White;
        AllOfColor(stones, White);
        assert [] + stones == stones;
      } else {
        TidySplits(rest, size);
        assert [stones[0]] + OfColor(rest, Black) + OfColor(rest, White) == [stones[0]] + rest;
      }
    }
  }

  function Singles(stones: seq<SetupStone>): seq<Listed> {
    seq(|stones|, k requires 0 <= k < |stones| =>
      Listed(stones[k].color, Rect(stones[k].x, stones[k].y, stones[k].x, stones[k].y)))
  }

  lemma NameIsRect(x: nat, y: nat, size: nat)
    requires size <= 25 && x < size && y < size
    ensures RectOf(ToSgf(Some((x, y)), size).value, size) == Some(Rect(x, y, x, y))
  {
    hide ToSgf, SgfPoint;
    PointReadsBack((x, y), size);
  }

  lemma {:induction false} NamesAreSingles(stones: seq<SetupStone>, c: Colour, size: nat)
    requires size <= 25 && forall k :: 0 <= k < |stones| ==>
               stones[k].x < size && stones[k].y < size && stones[k].color == c
    ensures RectsOf(Names(stones, size), c, size) == Some(Singles(stones))
    ensures TotalArea(Singles(stones)) == |stones|
    decreases |stones|
  {
    hide RectOf, ToSgf;
    if stones == [] {
    } else {
      var names := Names(stones, size);
      NameIsRect(stones[0].x, stones[0].y, size);
      assert names[1..] == Names(stones[1..], size);
      NamesAreSingles(stones[1..], c, size);
      var first := Listed(c, Rect(stones[0].x, stones[0].y, stones[0].x, stones[0].y));
      assert Singles(stones) == [first] + Singles(stones[1..]);
      assert Singles(stones)[1..] == Singles(stones[1..]);
      assert first.rect.Area() == 1;
    }
  }

  lemma {:induction false} SinglesPlace(done: seq<SetupStone>, stones: seq<SetupStone>, size: nat)
    requires Tidy(done + stones, size)
    ensures PlaceRects(Some(done), Singles(stones)) == Some(done + stones)
    decreases |stones|
  {
    if stones == [] {
      assert done + stones == done;
    } else {
      var t := stones[0];
      var all := done + stones;
      assert all[|done|] == t;
      forall k | 0 <= k < |done| ensures (done[k].x, done[k].y) != (t.x, t.y) {
        assert all[k] == done[k];
      }
      SinglePoint(t.x, t.y);
      assert PlaceAll(Some(done), t.color, [(t.x, t.y)]) == Some(done + [t]);
      assert done + [t] + stones[1..] == all;
      assert Singles(stones)[1..] == Singles(stones[1..]);
      SinglesPlace(done + [t], stones[1..], size);
    }
  }

  lemma SinglePoint(x: nat, y: nat)
    ensures PointsIn(Rect(x, y, x, y)) == [(x, y)]
  {
    assert Row(x + 1, x, y) == [] && Rows(x, x, y + 1, y) == [];
    assert Row(x, x, y) == [(x, y)];
  }

  function Below(n: nat): (r: set<nat>)
    ensures |r| == n && forall k: nat :: k in r <==> k < n
  {
    if n == 0 then {}
    else
      var less, last: nat := Below(n - 1), n - 1;
      assert last !in less;
      less + {last}
  }

  /** A board has room for every tidy list of setup stones. */
  lemma TidyFits(stones: seq<SetupStone>, size: nat)
    requires Tidy(stones, size)
    ensures |stones| <= size * size
  {
    hide Index;
    var q := seq(|stones|, k requires 0 <= k < |stones| => Index(size, stones[k].x, stones[k].y));
    forall k | 0 <= k < |stones|
      ensures q[k] < size * size && q[k] % size == stones[k].x && q[k] / size == stones[k].y
    {
      IndexOnBoard(size, stones[k].x, stones[k].y);
    }
    assert Distinct(q);
    DistinctSize(q);
    SubsetSize(Members(q), Below(size * size));
  }

  lemma {:induction false} SinglesConcat(a: seq<SetupStone>, b: seq<SetupStone>)
    ensures Singles(a) + Singles(b) == Singles(a + b)
  {
    assert |Singles(a) + Singles(b)| == |Singles(a + b)|;
  }

  /** Tidy setup stones, written as AB and AW points, read back as the same list. */
  lemma SetupReadsBack(stones: seq<SetupStone>, size: nat)
    requires size <= 25 && Tidy(stones, size)
    ensures var b, w := OfColor(stones, Black), OfColor(stones, White);
            (forall t :: t in b + w ==> t.x < size && t.y < size)
            && SetupOf(Names(b, size), Names(w, size), size) == Some(stones)
  {
    hide OfColor, RectsOf, PlaceRects, Names, Tidy;
    var b, w := OfColor(stones, Black), OfColor(stones, White);
    TidyIsOnBoard(stones, size);
    OfColorKeeps(stones, Black);
    OfColorKeeps(stones, White);
    assert (forall k :: 0 <= k < |b| ==> b[k] in b) && (forall k :: 0 <= k < |w| ==> w[k] in w);
    NamesAreSingles(b, Black, size);
    NamesAreSingles(w, White, size);
    TidySplits(stones, size);
    TidyFits(stones, size);
    SinglesConcat(b, w);
    assert [] + stones == stones;
    SinglesPlace([], stones, size);
  }

  lemma TidyIsOnBoard(stones: seq<SetupStone>, size: nat)
    requires Tidy(stones, size)
    ensures forall t :: t in stones ==> t.x < size && t.y < size
  {
  }
}
