/** The caches beside a game's line of play, what each operation does to them, and the proof that over
    any run they agree with the history. */
module PlyCaches {
  import opened Chains
  import opened Boards
  import opened Rules
  import opened Lines
  import opened Records
  import opened FirstSeen

  /** The caches of a line of play: one snapshot and one prisoner count for every ply. */
  ghost predicate Mirrors(u: Setup, ms: seq<Move>, snapshots: seq<Stones>, prisoners: seq<Tally>)
    requires u.Ok()
  {
    && |snapshots| == |prisoners| == |ms| + 1
    && forall i :: 0 <= i <= |ms| ==> Position(snapshots[i], prisoners[i]) == After(u, ms[..i])
  }

  datatype Situation = Situation(stones: Stones, player: Colour)

  /** Each ply's position with the player to move there. */
  ghost function Situations(first: Colour, ms: seq<Move>, snapshots: seq<Stones>): (q: seq<Situation>)
    requires |snapshots| == |ms| + 1
    ensures |q| == |snapshots|
  {
    seq(|snapshots|, i requires 0 <= i < |snapshots| => Situation(snapshots[i], ToPlay(first, ms[..i])))
  }

  /** What a game keeps beside its line of play. */
  datatype Caches = Caches(snapshots: seq<Stones>, prisoners: seq<Tally>,
                           firstSeen: map<Stones, nat>, firstSeenToPlay: map<Situation, nat>)

  /** The caches agree with the history. */
  ghost predicate Cached(u: Setup, ms: seq<Move>, c: Caches) {
    && u.Ok()
    && Mirrors(u, ms, c.snapshots, c.prisoners)
    && IsFirstSeen(c.firstSeen, c.snapshots)
    && IsFirstSeen(c.firstSeenToPlay, Situations(u.first, ms, c.snapshots))
  }

  /** The ko rule as the code looks it up: the snapshot two plies back, or an index entry at or before
      the cursor, entries of later plies being ignored. */
  predicate SeenBefore(ko: Ko, c: Caches, cursor: nat, color: Colour, key: Stones)
    requires cursor < |c.snapshots|
  {
    match ko
    case SimpleKo => cursor > 0 && key == c.snapshots[cursor - 1]
    case PositionalSuperko => (if key in c.firstSeen then c.firstSeen[key] else cursor + 1) <= cursor
    case SituationalSuperko =>
      var k := Situation(key, Opponent(color));
      (if k in c.firstSeenToPlay then c.firstSeenToPlay[k] else cursor + 1) <= cursor
  }

  lemma PastPly(u: Setup, ms: seq<Move>, c: Caches, cursor: nat, k: nat)
    requires Cached(u, ms, c) && k <= cursor <= |ms|
    ensures ms[..cursor][..k] == ms[..k]
    ensures After(u, ms[..cursor][..k]).stones == c.snapshots[k]
    ensures Situations(u.first, ms, c.snapshots)[k] == Situation(c.snapshots[k], ToPlay(u.first, ms[..cursor][..k]))
  {
    assert ms[..cursor][..k] == ms[..k];
    assert Position(c.snapshots[k], c.prisoners[k]) == After(u, ms[..k]);
  }

  lemma PositionalLookup(u: Setup, ms: seq<Move>, c: Caches, cursor: nat, key: Stones)
    requires Cached(u, ms, c) && cursor <= |ms|
    ensures (if key in c.firstSeen then c.firstSeen[key] else cursor + 1) <= cursor
            <==> exists k :: 0 <= k <= cursor && key == After(u, ms[..cursor][..k]).stones
  {
    LookupIsScan(c.firstSeen, c.snapshots, key, cursor);
    forall k | 0 <= k <= cursor ensures After(u, ms[..cursor][..k]).stones == c.snapshots[k] {
      PastPly(u, ms, c, cursor, k);
    }
  }

  lemma SituationalLookup(u: Setup, ms: seq<Move>, c: Caches, cursor: nat, key: Stones, player: Colour)
    requires Cached(u, ms, c) && cursor <= |ms|
    ensures var k := Situation(key, player);
            (if k in c.firstSeenToPlay then c.firstSeenToPlay[k] else cursor + 1) <= cursor
            <==> exists k :: 0 <= k <= cursor && key == After(u, ms[..cursor][..k]).stones
                             && ToPlay(u.first, ms[..cursor][..k]) == player
  {
    var q := Situations(u.first, ms, c.snapshots);
    LookupIsScan(c.firstSeenToPlay, q, Situation(key, player), cursor);
    forall k | 0 <= k <= cursor
      ensures q[k] == Situation(After(u, ms[..cursor][..k]).stones, ToPlay(u.first, ms[..cursor][..k]))
    {
      PastPly(u, ms, c, cursor, k);
    }
  }

  /** The lookup agrees with the scan of the history up to the cursor, later plies still stored. */
  lemma LookupAgreesWithHistory(u: Setup, ms: seq<Move>, c: Caches, cursor: nat, color: Colour, key: Stones)
    requires Cached(u, ms, c) && cursor <= |ms|
    ensures SeenBefore(u.rules.ko, c, cursor, color, key) <==> Repeats(u, ms[..cursor], color, key)
  {
    match u.rules.ko
    case SimpleKo => if cursor > 0 { PastPly(u, ms, c, cursor, cursor - 1); }
    case PositionalSuperko => PositionalLookup(u, ms, c, cursor, key);
    case SituationalSuperko => SituationalLookup(u, ms, c, cursor, key, Opponent(color));
  }

  /** The caches without the last ply and what the indexes have of it alone. */
  function WithoutLast(c: Caches, player: Colour): Caches
    requires |c.snapshots| == |c.prisoners| > 0
  {
    var n := |c.snapshots| - 1;
    Caches(c.snapshots[..n], c.prisoners[..n], Forget(c.firstSeen, c.snapshots[n], n),
           Forget(c.firstSeenToPlay, Situation(c.snapshots[n], player), n))
  }

  lemma DropKeepsSituations(u: Setup, ms: seq<Move>, snapshots: seq<Stones>)
    requires ms != [] && |snapshots| == |ms| + 1
    ensures var q := Situations(u.first, ms, snapshots);
            && q[|ms|] == Situation(snapshots[|ms|], ToPlay(u.first, ms))
            && q[..|ms|] == Situations(u.first, ms[..|ms| - 1], snapshots[..|ms|])
  {
    hide ToPlay;
    var n := |ms|;
    assert ms[..n] == ms;
    assert forall k :: 0 <= k < n ==> ms[..n - 1][..k] == ms[..k];
  }

  lemma DropKeepsCache(u: Setup, ms: seq<Move>, c: Caches)
    requires ms != [] && Cached(u, ms, c)
    ensures Cached(u, ms[..|ms| - 1], WithoutLast(c, ToPlay(u.first, ms)))
  {
    hide Situations, ToPlay, After, IsFirstSeen, Forget;
    var n := |ms|;
    var past, d := ms[..n - 1], WithoutLast(c, ToPlay(u.first, ms));
    DropKeepsSituations(u, ms, c.snapshots);
    ForgetLast(c.firstSeen, c.snapshots);
    ForgetLast(c.firstSeenToPlay, Situations(u.first, ms, c.snapshots));
    assert forall k :: 0 <= k < n ==> past[..k] == ms[..k];
    forall i | 0 <= i <= |past| ensures Position(d.snapshots[i], d.prisoners[i]) == After(u, past[..i]) {
      assert Position(c.snapshots[i], c.prisoners[i]) == After(u, ms[..i]);
    }
  }

  /** The snapshot a position is stored as: that of the ply where it was first seen, if any. */
  function Shared(c: Caches, key: Stones): Stones {
    if key in c.firstSeen && c.firstSeen[key] < |c.snapshots| then c.snapshots[c.firstSeen[key]] else key
  }

  /** Adding a ply: the indexes keep the entries they have. */
  function WithNext(c: Caches, p: Position, player: Colour): Caches {
    var n, key := |c.snapshots|, Shared(c, p.stones);
    Caches(c.snapshots + [key], c.prisoners + [p.prisoners], SetDefault(c.firstSeen, key, n),
           SetDefault(c.firstSeenToPlay, Situation(key, player), n))
  }

  lemma AddMirrors(u: Setup, ms: seq<Move>, c: Caches, m: Move)
    requires Cached(u, ms, c)
    ensures var p := After(u, ms + [m]);
            Mirrors(u, ms + [m], c.snapshots + [p.stones], c.prisoners + [p.prisoners])
  {
    var all, p := ms + [m], After(u, ms + [m]);
    var snapshots, prisoners := c.snapshots + [p.stones], c.prisoners + [p.prisoners];
    forall i | 0 <= i <= |all| ensures Position(snapshots[i], prisoners[i]) == After(u, all[..i]) {
      if i <= |ms| {
        assert all[..i] == ms[..i];
        assert Position(c.snapshots[i], c.prisoners[i]) == After(u, ms[..i]);
      } else {
        assert all[..i] == all;
      }
    }
  }

  lemma AddSituation(first: Colour, ms: seq<Move>, snapshots: seq<Stones>, m: Move, s: Stones)
    requires |snapshots| == |ms| + 1
    ensures Situations(first, ms + [m], snapshots + [s])
         == Situations(first, ms, snapshots) + [Situation(s, Opponent(m.color))]
  {
    var all := ms + [m];
    assert forall k :: 0 <= k <= |ms| ==> all[..k] == ms[..k];
    assert all[..|all|] == all;
  }

  lemma AddKeepsCache(u: Setup, ms: seq<Move>, c: Caches, m: Move)
    requires Cached(u, ms, c)
    ensures Cached(u, ms + [m], WithNext(c, After(u, ms + [m]), Opponent(m.color)))
  {
    var p := After(u, ms + [m]);
    assert Shared(c, p.stones) == p.stones;
    AppendOne(c.firstSeen, c.snapshots, p.stones);
    AppendOne(c.firstSeenToPlay, Situations(u.first, ms, c.snapshots), Situation(p.stones, Opponent(m.color)));
    AddMirrors(u, ms, c, m);
    AddSituation(u.first, ms, c.snapshots, m, p.stones);
  }

  datatype Indexes = Indexes(firstSeen: map<Stones, nat>, firstSeenToPlay: map<Situation, nat>)

  /** The indexes once the plies from `i` down to just after `ply` have been forgotten, newest first. */
  function ForgetDown(first: Colour, ms: seq<Move>, snapshots: seq<Stones>, x: Indexes, i: nat, ply: nat): Indexes
    requires |snapshots| == |ms| + 1 && i <= |ms|
    decreases i
  {
    if i <= ply then x
    else
      var player := Opponent(ms[i - 1].color);
      ForgetDown(first, ms, snapshots,
                 Indexes(Forget(x.firstSeen, snapshots[i], i),
                         Forget(x.firstSeenToPlay, Situation(snapshots[i], player), i)), i - 1, ply)
  }

  /** What truncating to `ply` leaves. */
  function Truncated(first: Colour, ms: seq<Move>, c: Caches, ply: nat): Caches
    requires |c.snapshots| == |c.prisoners| == |ms| + 1 && ply <= |ms|
  {
    var x := ForgetDown(first, ms, c.snapshots, Indexes(c.firstSeen, c.firstSeenToPlay), |ms|, ply);
    Caches(c.snapshots[..ply + 1], c.prisoners[..ply + 1], x.firstSeen, x.firstSeenToPlay)
  }

  ghost function UpTo(c: Caches, x: Indexes, i: nat): Caches
    requires i < |c.snapshots| == |c.prisoners|
  {
    Caches(c.snapshots[..i + 1], c.prisoners[..i + 1], x.firstSeen, x.firstSeenToPlay)
  }

  lemma {:induction false} ForgetDownKeepsCache(u: Setup, ms: seq<Move>, c: Caches, x: Indexes, i: nat, ply: nat)
    requires |c.snapshots| == |c.prisoners| == |ms| + 1 && ply <= i <= |ms|
    requires Cached(u, ms[..i], UpTo(c, x, i))
    ensures Cached(u, ms[..ply], UpTo(c, ForgetDown(u.first, ms, c.snapshots, x, i, ply), ply))
    decreases i
  {
    hide After, Mirrors, IsFirstSeen, Situations, Cached, Forget;
    if i > ply {
      var d := UpTo(c, x, i);
      var e := WithoutLast(d, ToPlay(u.first, ms[..i]));
      DropKeepsCache(u, ms[..i], d);
      assert ms[..i][..i - 1] == ms[..i - 1];
      assert d.snapshots[..i] == c.snapshots[..i] && d.prisoners[..i] == c.prisoners[..i];
      ForgetDownKeepsCache(u, ms, c, Indexes(e.firstSeen, e.firstSeenToPlay), i - 1, ply);
    }
  }

  /** Truncating, entries forgotten newest first, leaves exact indexes of the plies that stay. */
  lemma TruncateKeepsCache(u: Setup, ms: seq<Move>, c: Caches, ply: nat)
    requires Cached(u, ms, c) && ply <= |ms|
    ensures Cached(u, ms[..ply], Truncated(u.first, ms, c, ply))
  {
    assert ms[..|ms|] == ms && c.snapshots[..|ms| + 1] == c.snapshots && c.prisoners[..|ms| + 1] == c.prisoners;
    ForgetDownKeepsCache(u, ms, c, Indexes(c.firstSeen, c.firstSeenToPlay), |ms|, ply);
  }

  /** The code's verdict on a move: the snapshot at the cursor and the indexes, no history. */
  ghost function JudgeCached(u: Setup, c: Caches, cursor: nat, color: Cell, point: Option<(int, int)>): (j: Judgement)
    requires 0 < u.size && cursor < |c.snapshots| == |c.prisoners| && |c.snapshots[cursor]| == u.size * u.size
    ensures j.Good? ==> color != Empty && |j.after.stones| == u.size * u.size
  {
    var here := Position(c.snapshots[cursor], c.prisoners[cursor]);
    if color == Empty then Bad(UnknownColour)
    else if cursor >= u.maxMoves then Bad(GameFull)
    else if point.None? then Good(here, 0)
    else match PlayOn(u.size, here, color, point.value.0, point.value.1, u.rules.suicide)
      case Refused(why) => Bad(why)
      case Accepted(after, taken) =>
        if SeenBefore(u.rules.ko, c, cursor, color, after.stones)
        then Bad(if u.rules.ko.SimpleKo? then KoForbidden else SuperkoForbidden)
        else Good(after, |taken|)
  }

  /** The verdict from the caches is the verdict from the history up to the cursor. */
  lemma VerdictFromCaches(u: Setup, ms: seq<Move>, c: Caches, cursor: nat, color: Cell, point: Option<(int, int)>)
    requires Cached(u, ms, c) && cursor <= |ms|
    ensures cursor < |c.snapshots| == |c.prisoners| && |c.snapshots[cursor]| == u.size * u.size
    ensures JudgeCached(u, c, cursor, color, point) == Judge(u, ms[..cursor], color, point)
  {
    assert Position(c.snapshots[cursor], c.prisoners[cursor]) == After(u, ms[..cursor]);
    if color != Empty && point.Some? {
      var v := PlayOn(u.size, After(u, ms[..cursor]), color, point.value.0, point.value.1, u.rules.suicide);
      if v.Accepted? {
        LookupAgreesWithHistory(u, ms, c, cursor, color, v.after.stones);
      }
    }
  }

  /** A legal play at the cursor, later plies dropped first, keeps the caches in agreement. */
  lemma PlayKeepsCache(st: GameState, c: Caches, color: Cell, point: Option<(int, int)>, comment: string)
    requires st.Ok() && Cached(st.setup, st.moves, c)
    requires Played(st, color, point, comment).Some?
    ensures var st' := Played(st, color, point, comment).value;
            var j := Judge(st.setup, st.moves[..st.cursor], color, point);
            Cached(st'.setup, st'.moves,
                   WithNext(Truncated(st.setup.first, st.moves, c, st.cursor), j.after, Opponent(color)))
  {
    hide After, IsFirstSeen, Situations, LegalAt, Repeats, PlayOn, Truncated, WithNext;
    var past := st.moves[..st.cursor];
    var m := Move(color, point, Judge(st.setup, past, color, point).captures, comment);
    TruncateKeepsCache(st.setup, st.moves, c, st.cursor);
    PrefixWellPlayed(st.setup, st.moves, st.cursor);
    ExtendWellPlayed(st.setup, past, m);
    AddKeepsCache(st.setup, past, Truncated(st.setup.first, st.moves, c, st.cursor), m);
  }

  // ----- a game with its caches, operation by operation -----

  datatype View = View(st: GameState, c: Caches)

  /** The shape the code relies on: one snapshot and one prisoner count for every ply. */
  ghost predicate Shaped(v: View) {
    && v.st.setup.Ok()
    && v.st.cursor <= |v.st.moves|
    && |v.c.snapshots| == |v.c.prisoners| == |v.st.moves| + 1
    && forall s :: s in v.c.snapshots ==> |s| == v.st.setup.size * v.st.setup.size
  }

  /** The line of play is well played and the caches agree with it. */
  ghost predicate Consistent(v: View) {
    v.st.Ok() && Cached(v.st.setup, v.st.moves, v.c)
  }

  ghost function NewView(u: Setup, komi: Option<real>, handicap: nat): (v: View)
    requires u.Ok()
    ensures Shaped(v)
  {
    var key := Start(u);
    View(NewGame(u, komi, handicap), Caches([key], [Tally(0, 0)], map[key := 0], map[Situation(key, u.first) := 0]))
  }

  ghost function TruncateView(v: View, ply: nat): (w: View)
    requires Shaped(v) && v.st.cursor <= ply <= |v.st.moves|
    ensures Shaped(w)
  {
    View(v.st.(moves := v.st.moves[..ply]), Truncated(v.st.setup.first, v.st.moves, v.c, ply))
  }

  ghost function AppendView(v: View, m: Move, after: Position): (w: View)
    requires Shaped(v) && v.st.cursor == |v.st.moves| && |after.stones| == v.st.setup.size * v.st.setup.size
    ensures Shaped(w)
  {
    View(v.st.(moves := v.st.moves + [m], cursor := |v.c.snapshots|, result := ""),
         WithNext(v.c, after, Opponent(m.color)))
  }

  ghost function PlayView(v: View, color: Cell, point: Option<(int, int)>, comment: string)
    : (r: (View, Option<Refusal>))
    requires Shaped(v)
    ensures Shaped(r.0)
  {
    match JudgeCached(v.st.setup, v.c, v.st.cursor, color, point)
    case Bad(why) => (v, Some(why))
    case Good(after, n) =>
      (AppendView(TruncateView(v, v.st.cursor), Move(color, point, n, comment), after), None)
  }

  ghost function UndoView(v: View): (w: View)
    requires Shaped(v)
    ensures Shaped(w)
  {
    var t := v.(st := v.st.(result := ""));
    if v.st.cursor == 0 then t
    else TruncateView(t.(st := t.st.(cursor := v.st.cursor - 1)), v.st.cursor - 1)
  }

  ghost function BranchView(v: View): (w: View)
    requires Shaped(v)
    ensures Shaped(w)
  {
    var t := TruncateView(v, v.st.cursor);
    t.(st := t.st.(result := ""))
  }

  // ----- every operation keeps the caches in agreement, and does to the record what it says -----

  lemma NewIsConsistent(u: Setup, komi: Option<real>, handicap: nat)
    requires u.Ok()
    ensures Consistent(NewView(u, komi, handicap))
  {
    var none: seq<Move> := [];
    assert none[..0] == none;
  }

  /** The move the caches allow is the move the whole history allows, and playing it leaves the caches
      exact; a refused move changes nothing. */
  lemma PlayAgrees(v: View, color: Cell, point: Option<(int, int)>, comment: string)
    requires Shaped(v) && Consistent(v)
    ensures var (w, error) := PlayView(v, color, point, comment);
            Consistent(w)
            && match Judge(v.st.setup, v.st.moves[..v.st.cursor], color, point)
               case Bad(why) => error == Some(why) && w == v
               case Good(_, _) => error == None && Played(v.st, color, point, comment) == Some(w.st)
  {
    hide After, Mirrors, IsFirstSeen, Situations, Repeats, PlayOn, LegalAt, WithNext, Truncated, Shared, SeenBefore;
    VerdictFromCaches(v.st.setup, v.st.moves, v.c, v.st.cursor, color, point);
    if Judge(v.st.setup, v.st.moves[..v.st.cursor], color, point).Good? {
      PlayKeepsCache(v.st, v.c, color, point, comment);
    }
  }

  lemma TruncateAgrees(v: View, ply: nat)
    requires Shaped(v) && Consistent(v) && v.st.cursor <= ply <= |v.st.moves|
    ensures Consistent(TruncateView(v, ply))
  {
    hide After, Mirrors, IsFirstSeen, Situations, LegalAt, Truncated, Judge;
    TruncateKeepsCache(v.st.setup, v.st.moves, v.c, ply);
    PrefixWellPlayed(v.st.setup, v.st.moves, ply);
  }

  lemma UndoAgrees(v: View)
    requires Shaped(v) && Consistent(v)
    ensures Consistent(UndoView(v)) && UndoView(v).st == Undone(v.st)
  {
    hide Judge, Repeats, PlayOn, After, LegalAt, Mirrors, IsFirstSeen, Situations;
    if v.st.cursor > 0 {
      TruncateAgrees(v.(st := v.st.(result := "", cursor := v.st.cursor - 1)), v.st.cursor - 1);
    }
  }

  lemma BranchAgrees(v: View)
    requires Shaped(v) && Consistent(v)
    ensures Consistent(BranchView(v)) && BranchView(v).st == Branched(v.st)
  {
    hide After, Mirrors, IsFirstSeen, Situations, LegalAt, Judge;
    TruncateAgrees(v, v.st.cursor);
  }

  // ----- one line of play has one set of caches -----

  /** Two views of the same line of play hold the same snapshots, prisoners and indexes. */
  lemma CachesAreDetermined(u: Setup, ms: seq<Move>, c: Caches, d: Caches)
    requires Cached(u, ms, c) && Cached(u, ms, d)
    ensures c == d
  {
    forall i | 0 <= i <= |ms| ensures c.snapshots[i] == d.snapshots[i] && c.prisoners[i] == d.prisoners[i] {
      assert Position(c.snapshots[i], c.prisoners[i]) == After(u, ms[..i]);
    }
    assert c.snapshots == d.snapshots && c.prisoners == d.prisoners;
    hide After, Situations;
    SameIndex(c.firstSeen, d.firstSeen, c.snapshots);
    SameIndex(c.firstSeenToPlay, d.firstSeenToPlay, Situations(u.first, ms, c.snapshots));
  }

  lemma SameIndex<K>(a: map<K, nat>, b: map<K, nat>, keys: seq<K>)
    requires IsFirstSeen(a, keys) && IsFirstSeen(b, keys)
    ensures a == b
  {
    forall k | k in a ensures k in b && a[k] == b[k] {
      assert keys[a[k]] == k;
      assert keys[b[k]] == k;
    }
    forall k | k in b ensures k in a {
      assert keys[b[k]] == k;
    }
  }

  /** A legal play followed by an undo leaves what a branch at the cursor would have left: the same line, snapshots,
      prisoners and indexes. */
  lemma PlayThenUndoBranches(v: View, color: Cell, point: Option<(int, int)>, comment: string)
    requires Shaped(v) && Consistent(v) && PlayView(v, color, point, comment).1 == None
    ensures UndoView(PlayView(v, color, point, comment).0) == BranchView(v)
  {
    hide PlayView, UndoView, BranchView, Played, Cached;
    var w := PlayView(v, color, point, comment).0;
    PlayAgrees(v, color, point, comment);
    UndoAgrees(w);
    BranchAgrees(v);
    PlayThenUndoIsBranch(v.st, color, point, comment);
    CachesAreDetermined(v.st.setup, BranchView(v).st.moves, UndoView(w).c, BranchView(v).c);
  }

  // ----- whole runs -----

  datatype Op =
    | PlayOp(color: Cell, point: Option<(int, int)>, comment: string)
    | UndoOp
    | NavigateOp(index: int)
    | BranchOp
    | ResignOp(loser: Colour)

  ghost function Do(v: View, op: Op): (w: View)
    requires Shaped(v)
    ensures Shaped(w)
  {
    match op
    case PlayOp(color, point, comment) => PlayView(v, color, point, comment).0
    case UndoOp => UndoView(v)
    case NavigateOp(index) => v.(st := Navigated(v.st, index))
    case BranchOp => BranchView(v)
    case ResignOp(loser) => v.(st := Resigned(v.st, loser))
  }

  ghost function Run(v: View, ops: seq<Op>): (w: View)
    requires Shaped(v)
    ensures Shaped(w)
  {
    if ops == [] then v else Do(Run(v, ops[..|ops| - 1]), ops[|ops| - 1])
  }

  /** After any run of plays, undos, navigations, branches and resignations the line is well played
      from the same setup and both indexes and every snapshot agree with the history. */
  lemma {:induction false} RunStaysConsistent(v: View, ops: seq<Op>)
    requires Shaped(v) && Consistent(v)
    ensures Consistent(Run(v, ops)) && Run(v, ops).st.setup == v.st.setup
    decreases |ops|
  {
    hide Consistent, Do;
    if ops != [] {
      var past, op := ops[..|ops| - 1], ops[|ops| - 1];
      RunStaysConsistent(v, past);
      DoStaysConsistent(Run(v, past), op);
    }
  }

  lemma DoStaysConsistent(v: View, op: Op)
    requires Shaped(v) && Consistent(v)
    ensures Consistent(Do(v, op)) && Do(v, op).st.setup == v.st.setup
  {
    hide After, Mirrors, IsFirstSeen, Situations, LegalAt, Judge, WithNext, Truncated;
    match op
    case PlayOp(color, point, comment) => PlayAgrees(v, color, point, comment);
    case UndoOp => UndoAgrees(v);
    case NavigateOp(index) =>
    case BranchOp => BranchAgrees(v);
    case ResignOp(loser) =>
  }
}
