/** The GTP client's mirror of the remote engine's board. The engine is any that obeys GTP: a refused
    command changes nothing, `undo` takes the last play back, and a failure may leave anything behind
    but ends the connection. */
module Gtp {
  import opened Rules

  datatype Ply = Ply(color: string, vertex: string)

  datatype Position = Position(size: nat, komi: real, rules: string, setup: seq<Ply>, moves: seq<Ply>)

  /** What the mirror knows a position's start by. */
  datatype Key = Key(size: nat, komi: real, rules: string, setup: seq<Ply>)

  function KeyOf(p: Position): Key {
    Key(p.size, p.komi, p.rules, p.setup)
  }

  datatype Command =
    | BoardSize(size: nat)
    | ClearBoard
    | SetKomi(komi: real)
    | SetRules(rules: string)
    | Play(ply: Ply)
    | Undo
    | Genmove(color: string)
    | Raw(text: string)

  /** The remote engine: its board's size, komi and rules, and everything placed since it was cleared. */
  datatype Remote = Remote(size: nat, komi: real, rules: string, stack: seq<Ply>)

  /** What a successful command may do; `boardsize` may leave any stones, komi and rules. */
  ghost predicate Accepts(r: Remote, c: Command, s: Remote) {
    match c
    case BoardSize(n) => s.size == n
    case ClearBoard => s == r.(stack := [])
    case SetKomi(k) => s == r.(komi := k)
    case SetRules(name) => s == r.(rules := name)
    case Play(p) => s == r.(stack := r.stack + [p])
    case Undo => r.stack != [] && s == r.(stack := r.stack[..|r.stack| - 1])
    case Genmove(_) => true
    case Raw(_) => true
  }

  datatype Reply = Done | Refused | Lost

  class Engine {
    var board: Remote
    var lost: bool
    /** Every command written, whatever became of it. */
    var issued: seq<Command>
    /** Every answer to `genmove` since the board was last cleared has been a move. */
    ghost var honest: bool
    /** The last rules command was accepted. */
    ghost var takesRules: bool

    constructor ()
    {
      lost, issued, honest, takesRules := false, [], true, false;
      board := *;
    }

    /** One exchange. */
    method Send(c: Command) returns (r: Reply)
      modifies this
      ensures honest == (old(honest) || (r == Done && c.ClearBoard?))
      ensures issued == old(issued) + if old(lost) then [] else [c]
      ensures takesRules == if c.SetRules? && r != Lost then r == Done else old(takesRules)
      ensures r == Done ==> !old(lost) && !lost && Accepts(old(board), c, board)
      ensures r == Refused ==> !old(lost) && !lost && board == old(board)
      ensures r == Lost ==> lost
    {
      if lost {
        return Lost;
      }
      issued := issued + [c];
      if * {
        takesRules := takesRules && !c.SetRules?;
        return Refused;
      }
      if * {
        board := *;
        lost := true;
        return Lost;
      }
      match c {
        case BoardSize(n) =>
          board := *;
          board := board.(size := n);
        case ClearBoard =>
          board := board.(stack := []);
          honest := true;
        case Play(p) =>
          board := board.(stack := board.stack + [p]);
        case Undo =>
          if board.stack == [] {
            return Refused;
          }
          board := board.(stack := board.stack[..|board.stack| - 1]);
        case SetKomi(k) =>
          board := board.(komi := k);
        case SetRules(name) =>
          board := board.(rules := name);
          takesRules := true;
        case Genmove(_) =>
          board := *;
        case Raw(_) =>
          board := *;
      }
      r := Done;
    }

    /** Ask for a move: a point or `pass` is played on the engine's board, `resign` is not. An answer that is no
        move, `None` here, leaves whatever the engine did. */
    method AskMove(color: string) returns (r: Reply, vertex: Option<string>)
      modifies this
      ensures issued == old(issued) + (if old(lost) then [] else [Genmove(color)]) && takesRules == old(takesRules)
      ensures r == Done ==> !old(lost) && !lost && honest == (old(honest) && vertex.Some?)
      ensures r == Done && vertex == Some("resign") ==> board == old(board)
      ensures r == Done && vertex.Some? && vertex.value != "resign" ==>
        board == old(board).(stack := old(board).stack + [Ply(color, vertex.value)])
      ensures r == Refused ==> !old(lost) && !lost && board == old(board) && honest == old(honest)
      ensures r == Lost ==> lost
    {
      vertex := None;
      if lost {
        return Lost, None;
      }
      issued := issued + [Genmove(color)];
      if * {
        return Refused, None;
      }
      if * {
        board := *;
        lost := true;
        return Lost, None;
      }
      r := Done;
      if * {
        board := *;
        honest := false;
        return;
      }
      var v: string := *;
      vertex := Some(v);
      if v != "resign" {
        board := board.(stack := board.stack + [Ply(color, v)]);
      }
    }

    /** A new connection finds the engine as it happens to be. */
    method Reconnect()
      modifies this
      ensures issued == old(issued) && honest
    {
      board := *;
      lost := *;
      honest := true;
    }
  }

  // ----- the commands a sync needs -----

  function CommonPrefix(a: seq<Ply>, b: seq<Ply>): (n: nat)
    ensures n <= |a| && n <= |b| && a[..n] == b[..n]
    ensures n < |a| && n < |b| ==> a[n] != b[n]
  {
    if a == [] || b == [] || a[0] != b[0] then 0
    else
      var n := CommonPrefix(a[1..], b[1..]);
      assert a[..n + 1] == [a[0]] + a[1..][..n] && b[..n + 1] == [b[0]] + b[1..][..n];
      n + 1
  }

  lemma {:induction false} CommonPrefixIsLongest(a: seq<Ply>, b: seq<Ply>, k: nat)
    requires k <= |a| && k <= |b| && a[..k] == b[..k]
    ensures k <= CommonPrefix(a, b)
  {
    if k > 0 {
      assert a[0] == a[..k][0] && b[0] == b[..k][0];
      assert a[1..][..k - 1] == a[..k][1..] && b[1..][..k - 1] == b[..k][1..];
      CommonPrefixIsLongest(a[1..], b[1..], k - 1);
    }
  }

  function Plays(ps: seq<Ply>): seq<Command> {
    if ps == [] then [] else [Play(ps[0])] + Plays(ps[1..])
  }

  lemma PlaysFrom(ps: seq<Ply>, i: nat)
    requires i < |ps|
    ensures Plays(ps[i..]) == [Play(ps[i])] + Plays(ps[i + 1..])
  {
    assert ps[i..][1..] == ps[i + 1..];
  }

  lemma NoPlays(ps: seq<Ply>)
    requires ps == []
    ensures Plays(ps) == []
  {
  }

  lemma AppendLater<T>(a: seq<T>, b: seq<T>, x: T)
    ensures a + b + [x] == a + (b + [x])
  {
  }

  function Undos(n: nat): seq<Command> {
    if n == 0 then [] else [Undo] + Undos(n - 1)
  }

  /** The commands of a reset; `komi` is the number the position's komi is sent as. */
  function ResetCommands(p: Position, komi: real, setsRules: bool): seq<Command> {
    [BoardSize(p.size), ClearBoard, SetKomi(komi)] + (if setsRules then [SetRules(p.rules)] else []) + Plays(p.setup)
  }

  datatype Mirror = Mirror(state: Option<Key>, moves: seq<Ply>)

  /** The moves the mirror and the position do not share. */
  function Extra(m: Mirror, p: Position): nat {
    |m.moves| - CommonPrefix(m.moves, p.moves)
  }

  predicate NeedsReset(m: Mirror, p: Position, canUndo: bool) {
    m.state != Some(KeyOf(p)) || Extra(m, p) > 3 || (Extra(m, p) > 0 && !canUndo)
  }

  /** How many of the position's moves need not be played again. */
  function Kept(m: Mirror, p: Position, canUndo: bool): (n: nat)
    ensures n <= |p.moves|
  {
    if NeedsReset(m, p, canUndo) then 0 else CommonPrefix(m.moves, p.moves)
  }

  function AlignCommands(m: Mirror, p: Position, komi: real, canUndo: bool, setsRules: bool): seq<Command> {
    if NeedsReset(m, p, canUndo) then ResetCommands(p, komi, setsRules) else Undos(Extra(m, p))
  }

  /** A sync's commands: the missing plays, after at most three undos or a reset. */
  function SyncCommands(m: Mirror, p: Position, komi: real, canUndo: bool, setsRules: bool): seq<Command> {
    AlignCommands(m, p, komi, canUndo, setsRules) + Plays(p.moves[Kept(m, p, canUndo)..])
  }

  // ----- the client -----

  class GtpEngine {
    const engine: Engine
    /** The number a komi is written as: that of its text of six significant digits. */
    const shown: real -> real
    var canUndo: bool
    var setsRules: bool
    var state: Option<Key>
    var moves: seq<Ply>

    ghost function MirrorNow(): Mirror
      reads this
    {
      Mirror(state, moves)
    }

    /** While the connection lives and the engine answers `genmove` with moves, a mirror shows the engine's board:
        its size and komi, setup stones, then moves, and its rules if it has the command and took them. A reset
        makes it so again. */
    ghost predicate Mirrored()
      reads this, engine
    {
      state.Some? && !engine.lost && engine.honest ==>
        && engine.board.size == state.value.size && engine.board.komi == shown(state.value.komi)
        && engine.board.stack == state.value.setup + moves
        && (setsRules && engine.takesRules ==> engine.board.rules == state.value.rules)
    }

    constructor (engine: Engine, shown: real -> real)
      ensures this.engine == engine && this.shown == shown && Mirrored() && state == None
    {
      this.engine, this.shown := engine, shown;
      canUndo, setsRules, state, moves := false, false, None, [];
    }

    method InvalidateMirror()
      modifies this
      ensures state == None && moves == [] && Mirrored()
      ensures canUndo == old(canUndo) && setsRules == old(setsRules)
    {
      state, moves := None, [];
    }

    /** Connect again: no mirror and no remembered capability outlives a connection. */
    method Connect(canUndo: bool, setsRules: bool)
      modifies this, engine
      ensures state == None && Mirrored()
    {
      InvalidateMirror();
      engine.Reconnect();
      this.canUndo, this.setsRules := canUndo, setsRules;
    }

    /** Play plies one by one; `false` at the first that fails. */
    method PlayAll(ps: seq<Ply>) returns (ok: bool)
      modifies engine
      ensures ok ==> engine.issued == old(engine.issued) + Plays(ps)
      ensures ok ==> engine.board == old(engine.board).(stack := old(engine.board).stack + ps)
                     && (ps != [] ==> !engine.lost) && engine.lost == old(engine.lost)
      ensures engine.honest == old(engine.honest) && engine.takesRules == old(engine.takesRules)
    {
      assert ps[..0] == [] && ps[0..] == ps;
      for i := 0 to |ps|
        invariant engine.issued + Plays(ps[i..]) == old(engine.issued) + Plays(ps)
        invariant engine.board == old(engine.board).(stack := old(engine.board).stack + ps[..i])
        invariant engine.lost == old(engine.lost) && (i > 0 ==> !engine.lost)
        invariant engine.honest == old(engine.honest) && engine.takesRules == old(engine.takesRules)
      {
        var r := engine.Send(Play(ps[i]));
        if r != Done {
          return false;
        }
        assert ps[i..][1..] == ps[i + 1..];
        assert ps[..i + 1] == ps[..i] + [ps[i]];
      }
      assert ps[..|ps|] == ps;
      ok := true;
    }

    /** Empty the engine's board and set its size, komi and, if it can, its rules. */
    method Prepare(p: Position) returns (ok: bool)
      modifies engine
      ensures ok ==> engine.issued == old(engine.issued) + [BoardSize(p.size), ClearBoard, SetKomi(shown(p.komi))]
                                      + if setsRules then [SetRules(p.rules)] else []
      ensures ok ==> !engine.lost && engine.honest && engine.board.stack == []
      ensures ok ==> engine.board.size == p.size && engine.board.komi == shown(p.komi)
      ensures ok && setsRules && engine.takesRules ==> engine.board.rules == p.rules
    {
      var r := engine.Send(BoardSize(p.size));
      if r != Done { return false; }
      r := engine.Send(ClearBoard);
      if r != Done { return false; }
      r := engine.Send(SetKomi(shown(p.komi)));
      if r != Done { return false; }
      if setsRules {
        r := engine.Send(SetRules(p.rules));
        if r == Lost { return false; }
      }
      ok := true;
    }

    /** Set the engine's board up from nothing. */
    method Reset(p: Position) returns (ok: bool)
      modifies this, engine
      ensures canUndo == old(canUndo) && setsRules == old(setsRules)
      ensures ok ==> state == Some(KeyOf(p)) && moves == [] && Mirrored() && !engine.lost && engine.honest
      ensures ok ==> engine.issued == old(engine.issued) + ResetCommands(p, shown(p.komi), setsRules)
      ensures ok ==> engine.board.size == p.size && engine.board.komi == shown(p.komi) && engine.board.stack == p.setup
      ensures ok && setsRules && engine.takesRules ==> engine.board.rules == p.rules
      ensures !ok ==> state == None
    {
      InvalidateMirror();
      ok := Prepare(p);
      if !ok { return; }
      ok := PlayAll(p.setup);
      if ok {
        assert [] + p.setup == p.setup + [];
        state, moves := Some(KeyOf(p)), [];
      }
    }

    /** Take back the moves the position does not have, and keep the mirror in step. */
    method UndoExtra(extra: nat) returns (ok: bool)
      requires state.Some? && Mirrored() && extra <= |moves|
      modifies `moves, engine
      ensures ok ==> engine.issued == old(engine.issued) + Undos(extra)
      ensures ok ==> moves == old(moves)[..|old(moves)| - extra] && Mirrored()
                     && (extra > 0 ==> !engine.lost) && engine.lost == old(engine.lost)
    {
      for i := 0 to extra
        invariant engine.issued + Undos(extra - i) == old(engine.issued) + Undos(extra)
        invariant moves == old(moves)[..|old(moves)| - i] && Mirrored()
        invariant engine.lost == old(engine.lost) && (i > 0 ==> !engine.lost)
      {
        var r := engine.Send(Undo);
        if r != Done {
          return false;
        }
        ghost var setup := state.value.setup;
        assert (setup + moves)[..|setup + moves| - 1] == setup + moves[..|moves| - 1];
        moves := moves[..|moves| - 1];
      }
      ok := true;
    }

    /** Leave on the engine's board a prefix of `p`: by undoing a little, or by starting over. */
    method Align(p: Position) returns (ok: bool)
      requires Mirrored()
      modifies this, engine
      ensures canUndo == old(canUndo) && setsRules == old(setsRules)
      ensures ok ==> Mirrored() && state == Some(KeyOf(p)) && moves == p.moves[..Kept(old(MirrorNow()), p, canUndo)]
      ensures ok ==> engine.issued == old(engine.issued)
                                      + AlignCommands(old(MirrorNow()), p, shown(p.komi), canUndo, setsRules)
    {
      hide Plays, ResetCommands, Mirrored;
      if state != Some(KeyOf(p)) {
        ok := Reset(p);
        return;
      }
      var shared := CommonPrefix(moves, p.moves);
      var extra := |moves| - shared;
      if extra > 0 && extra <= 3 && canUndo {
        ok := UndoExtra(extra);
      } else if extra > 0 {
        ok := Reset(p);
      } else {
        ok := true;
      }
    }

    /** Play what is left of `p`, keeping the mirror in step. */
    method PlayOut(p: Position) returns (ok: bool)
      requires Mirrored() && state == Some(KeyOf(p)) && moves <= p.moves
      modifies `moves, engine
      ensures ok ==> Mirrored() && moves == p.moves && engine.lost == old(engine.lost)
      ensures ok ==> engine.issued == old(engine.issued) + Plays(p.moves[|old(moves)|..])
    {
      hide Plays;
      ghost var all := engine.issued + Plays(p.moves[|moves|..]);
      while |moves| < |p.moves|
        invariant moves <= p.moves && Mirrored() && engine.lost == old(engine.lost)
        invariant engine.issued + Plays(p.moves[|moves|..]) == all
      {
        var i := |moves|;
        PlaysFrom(p.moves, i);
        AppendLater(p.setup, moves, p.moves[i]);
        var r := engine.Send(Play(p.moves[i]));
        if r != Done {
          return false;
        }
        moves := moves + [p.moves[i]];
      }
      assert Plays(p.moves[|moves|..]) == [] by { NoPlays(p.moves[|moves|..]); }
      ok := true;
    }

    /** Bring the engine's board to `p` with as few commands as possible; any failure drops the mirror. */
    method Sync(p: Position) returns (ok: bool)
      requires Mirrored()
      modifies this, engine
      ensures Mirrored() && canUndo == old(canUndo) && setsRules == old(setsRules)
      ensures ok ==> state == Some(KeyOf(p)) && moves == p.moves
      ensures ok ==> engine.issued == old(engine.issued)
                                      + SyncCommands(old(MirrorNow()), p, shown(p.komi), canUndo, setsRules)
      ensures ok && !engine.lost && engine.honest ==>
        && engine.board.size == p.size && engine.board.stack == p.setup + p.moves
        && engine.board.komi == shown(p.komi)
        && (setsRules && engine.takesRules ==> engine.board.rules == p.rules)
      ensures !ok ==> state == None
    {
      ok := Align(p);
      if ok {
        ok := PlayOut(p);
      }
      if !ok {
        InvalidateMirror();
      }
    }

    /** A move for the position; a move the engine makes is on both boards. After an answer that is no move the
        mirror stays as it was. */
    method GenerateMove(p: Position, color: string) returns (vertex: Option<string>)
      requires Mirrored()
      modifies this, engine
      ensures Mirrored()
      ensures vertex.Some? ==> !engine.lost && state == Some(KeyOf(p))
      ensures vertex.Some? ==> moves == p.moves + if vertex.value == "resign" then [] else [Ply(color, vertex.value)]
      ensures vertex.None? && state.Some? ==> state == Some(KeyOf(p)) && moves == p.moves
      ensures vertex.Some? ==>
        engine.issued == old(engine.issued)
                         + SyncCommands(old(MirrorNow()), p, shown(p.komi), old(canUndo), old(setsRules))
                         + [Genmove(color)]
      ensures vertex.Some? && engine.honest ==>
        && engine.board.size == p.size && engine.board.stack == p.setup + moves
        && engine.board.komi == shown(p.komi)
        && (setsRules && engine.takesRules ==> engine.board.rules == p.rules)
    {
      var ok := Sync(p);
      if !ok {
        return None;
      }
      var r, v := engine.AskMove(color);
      if r != Done || v.None? {
        return None;
      }
      if v.value != "resign" {
        AppendLater(p.setup, p.moves, Ply(color, v.value));
        moves := moves + [Ply(color, v.value)];
      } else {
        assert p.moves + [] == p.moves;
      }
      vertex := v;
    }

    /** A console command may do anything to the board: the mirror is dropped before and after. */
    method Console(text: string) returns (ok: bool)
      modifies this, engine
      ensures state == None && Mirrored()
    {
      InvalidateMirror();
      var r := engine.Send(Raw(text));
      ok := r == Done;
      InvalidateMirror();
    }
  }

  // ----- what the commands do, whoever sends them -----

  /** What a command that does not stop a sync may do: succeed or, a rules command of an engine that keeps its own,
      change nothing. */
  ghost predicate Passes(r: Remote, c: Command, s: Remote, takesRules: bool) {
    if c.SetRules? && !takesRules then s == r else Accepts(r, c, s)
  }

  /** The commands of `cs` passing in turn take the remote engine from `r` to `s`. */
  ghost predicate Leads(r: Remote, cs: seq<Command>, s: Remote, takesRules: bool)
    decreases |cs|
  {
    if cs == [] then s == r else exists mid :: Passes(r, cs[0], mid, takesRules) && Leads(mid, cs[1..], s, takesRules)
  }

  lemma {:induction false} LeadsSplits(r: Remote, a: seq<Command>, b: seq<Command>, s: Remote, takesRules: bool)
    returns (mid: Remote)
    requires Leads(r, a + b, s, takesRules)
    ensures Leads(r, a, mid, takesRules) && Leads(mid, b, s, takesRules)
    decreases |a|
  {
    if a == [] {
      assert a + b == b;
      mid := r;
    } else {
      var next :| Passes(r, (a + b)[0], next, takesRules) && Leads(next, (a + b)[1..], s, takesRules);
      assert (a + b)[1..] == a[1..] + b;
      mid := LeadsSplits(next, a[1..], b, s, takesRules);
    }
  }

  lemma LeadsOne(r: Remote, c: Command, s: Remote, takesRules: bool)
    requires Leads(r, [c], s, takesRules)
    ensures Passes(r, c, s, takesRules)
  {
    var mid :| Passes(r, c, mid, takesRules) && Leads(mid, [c][1..], s, takesRules);
  }

  lemma {:induction false} PlaysLead(r: Remote, ps: seq<Ply>, s: Remote, takesRules: bool)
    requires Leads(r, Plays(ps), s, takesRules)
    ensures s == r.(stack := r.stack + ps)
    decreases |ps|
  {
    if ps != [] {
      var mid :| Passes(r, Play(ps[0]), mid, takesRules) && Leads(mid, Plays(ps)[1..], s, takesRules);
      assert Plays(ps)[1..] == Plays(ps[1..]);
      PlaysLead(mid, ps[1..], s, takesRules);
      assert r.stack + ps == r.stack + [ps[0]] + ps[1..];
    }
  }

  lemma {:induction false} UndosLead(r: Remote, n: nat, s: Remote, takesRules: bool)
    requires Leads(r, Undos(n), s, takesRules)
    ensures n <= |r.stack| && s == r.(stack := r.stack[..|r.stack| - n])
    decreases n
  {
    if n > 0 {
      var mid :| Passes(r, Undo, mid, takesRules) && Leads(mid, Undos(n)[1..], s, takesRules);
      assert Undos(n)[1..] == Undos(n - 1);
      UndosLead(mid, n - 1, s, takesRules);
    }
  }

  lemma ResetLeads(r: Remote, p: Position, komi: real, setsRules: bool, s: Remote, takesRules: bool)
    requires Leads(r, ResetCommands(p, komi, setsRules), s, takesRules)
    ensures Stands(p, komi, p.setup, setsRules && takesRules, s)
  {
    hide Plays, Leads;
    var head, rules := [BoardSize(p.size), ClearBoard, SetKomi(komi)], if setsRules then [SetRules(p.rules)] else [];
    var sized := LeadsSplits(r, head + rules, Plays(p.setup), s, takesRules);
    var plain := LeadsSplits(r, head, rules, sized, takesRules);
    HeadLeads(r, p, komi, plain, takesRules);
    if setsRules {
      LeadsOne(plain, SetRules(p.rules), sized, takesRules);
    } else {
      LeadsNowhere(plain, sized, takesRules);
    }
    PlaysLead(sized, p.setup, s, takesRules);
    assert [] + p.setup == p.setup;
  }

  lemma LeadsNowhere(r: Remote, s: Remote, takesRules: bool)
    requires Leads(r, [], s, takesRules)
    ensures s == r
  {
  }

  lemma HeadLeads(r: Remote, p: Position, komi: real, s: Remote, takesRules: bool)
    requires Leads(r, [BoardSize(p.size), ClearBoard, SetKomi(komi)], s, takesRules)
    ensures s.size == p.size && s.komi == komi && s.stack == []
  {
    hide Leads;
    assert [BoardSize(p.size), ClearBoard, SetKomi(komi)] == [BoardSize(p.size), ClearBoard] + [SetKomi(komi)];
    var b := LeadsSplits(r, [BoardSize(p.size), ClearBoard], [SetKomi(komi)], s, takesRules);
    assert [BoardSize(p.size), ClearBoard] == [BoardSize(p.size)] + [ClearBoard];
    var a := LeadsSplits(r, [BoardSize(p.size)], [ClearBoard], b, takesRules);
    LeadsOne(r, BoardSize(p.size), a, takesRules);
    LeadsOne(a, ClearBoard, b, takesRules);
    LeadsOne(b, SetKomi(komi), s, takesRules);
  }

  /** The remote engine has a position's size, the komi, these stones and, if `named`, the position's rules. */
  ghost predicate Stands(p: Position, komi: real, stack: seq<Ply>, named: bool, r: Remote) {
    r.size == p.size && r.komi == komi && r.stack == stack && (named ==> r.rules == p.rules)
  }

  /** The remote engine a mirror describes. */
  ghost predicate Describes(m: Mirror, shown: real -> real, named: bool, r: Remote) {
    m.state.Some? ==>
      && r.size == m.state.value.size && r.komi == shown(m.state.value.komi) && r.stack == m.state.value.setup + m.moves
      && (named ==> r.rules == m.state.value.rules)
  }

  /** A sync is right for any engine: from a board the mirror describes, or any board at all when there is no mirror,
      its commands can end only at the position's own size, komi, setup and moves, and at its rules when the engine
      has the command and takes them. */
  lemma SyncReaches(m: Mirror, p: Position, shown: real -> real, canUndo: bool, setsRules: bool, takesRules: bool,
                    r: Remote, s: Remote)
    requires Describes(m, shown, setsRules && takesRules, r)
    requires Leads(r, SyncCommands(m, p, shown(p.komi), canUndo, setsRules), s, takesRules)
    ensures s.size == p.size && s.komi == shown(p.komi) && s.stack == p.setup + p.moves
    ensures setsRules && takesRules ==> s.rules == p.rules
  {
    hide Plays, ResetCommands, Leads;
    var n, komi := Kept(m, p, canUndo), shown(p.komi);
    var mid := LeadsSplits(r, AlignCommands(m, p, komi, canUndo, setsRules), Plays(p.moves[n..]), s, takesRules);
    PlaysLead(mid, p.moves[n..], s, takesRules);
    if NeedsReset(m, p, canUndo) {
      ResetLeads(r, p, komi, setsRules, mid, takesRules);
      assert p.moves[0..] == p.moves;
    } else {
      var extra := Extra(m, p);
      UndosLead(r, extra, mid, takesRules);
      assert (p.setup + m.moves)[..|p.setup + m.moves| - extra] == p.setup + m.moves[..|m.moves| - extra];
      assert p.setup + p.moves[..n] + p.moves[n..] == p.setup + p.moves;
    }
  }

  /** So many undos leave the mirror with moves the position begins with. */
  predicate LeavesPrefix(m: Mirror, p: Position, undos: nat) {
    undos <= |m.moves| && m.moves[..|m.moves| - undos] <= p.moves
  }

  /** The engine starts over exactly when it must: when the position differs in more than its moves, or no undos of at
      most three moves, none when it cannot undo, leave the mirror with moves the position begins with. */
  lemma ResetsOnlyWhenItMust(m: Mirror, p: Position, canUndo: bool)
    ensures !NeedsReset(m, p, canUndo) <==>
            && m.state == Some(Key(p.size, p.komi, p.rules, p.setup))
            && exists undos :: 0 <= undos <= (if canUndo then 3 else 0) && LeavesPrefix(m, p, undos)
  {
    var limit := if canUndo then 3 else 0;
    forall undos | 0 <= undos <= limit && LeavesPrefix(m, p, undos)
      ensures Extra(m, p) <= limit
    {
      var left := |m.moves| - undos;
      assert m.moves[..left] == p.moves[..left];
      CommonPrefixIsLongest(m.moves, p.moves, left);
    }
    if Extra(m, p) <= limit {
      var n := CommonPrefix(m.moves, p.moves);
      assert m.moves[..|m.moves| - Extra(m, p)] == p.moves[..n];
      assert LeavesPrefix(m, p, Extra(m, p));
    }
  }

  lemma {:induction false} CountCommands(ps: seq<Ply>, n: nat)
    ensures |Plays(ps)| == |ps| && |Undos(n)| == n
    decreases |ps| + n
  {
    if ps != [] {
      CountCommands(ps[1..], n);
    } else if n > 0 {
      CountCommands(ps, n - 1);
    }
  }

  /** No shorter choice of undos and plays takes the mirror's moves to the position's: what survives `undos` undos
      must be a prefix of both. */
  lemma SyncIsShortest(m: Mirror, p: Position, komi: real, canUndo: bool, setsRules: bool, undos: nat, ps: seq<Ply>)
    requires !NeedsReset(m, p, canUndo)
    requires undos <= |m.moves| && m.moves[..|m.moves| - undos] + ps == p.moves
    ensures |SyncCommands(m, p, komi, canUndo, setsRules)| <= undos + |ps|
  {
    var left, n := |m.moves| - undos, CommonPrefix(m.moves, p.moves);
    assert m.moves[..left] == p.moves[..left];
    CommonPrefixIsLongest(m.moves, p.moves, left);
    CountCommands(p.moves[n..], Extra(m, p));
  }
}
