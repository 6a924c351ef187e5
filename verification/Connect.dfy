/** The life of a session's engine connections: connect attempts that may overlap, engines released and still
    closing, and shutdown. Every stretch of code between two awaits is one event. */
module Connections {
  import opened Rules
  import opened Sets

  const MAX_CONNECT_ATTEMPTS := 2

  /** What an attempt's task is at: not yet run, awaiting the connection, or closing what it opened. */
  datatype Phase = Starting | Opening(engine: nat) | Ending(engine: nat)

  datatype Links = Links(
    engine: Option<nat>, lifecycle: nat, connecting: Option<nat>,
    attempts: set<nat>, closing: set<nat>, closed: bool,
    /** The attempt tasks still running. */
    phases: map<nat, Phase>,
    /** The engine a shutdown is closing itself. */
    shutting: Option<nat>,
    /** Every engine created so far, with its attempt's generation, and those not yet closed. */
    made: map<nat, nat>, open: set<nat>)

  datatype Event =
    | Connect(resolved: bool)
    | Disconnect
    | Created(g: nat, engine: nat)
    | NotCreated(g: nat)
    | Opened(g: nat)
    | OpenFailed(g: nat)
    | OwnClosed(g: nat)
    | Lost(engine: nat)
    | CloseOver(engine: nat)
    | Shutdown
    | ShutdownClosed
    | Cancelled(g: nat)

  const FIRST := Links(None, 0, None, {}, {}, false, map[], None, map[], {})

  function One(engine: Option<nat>): nat {
    if engine.Some? then 1 else 0
  }

  predicate Pending(w: Links) {
    w.connecting == Some(w.lifecycle)
  }

  predicate Full(w: Links) {
    |w.attempts| + |w.closing| + One(w.engine) >= MAX_CONNECT_ATTEMPTS
  }

  /** A new lifecycle releases the current engine. */
  function Begun(w: Links): Links {
    w.(lifecycle := w.lifecycle + 1, engine := None,
       closing := if w.engine.Some? then w.closing + {w.engine.value} else w.closing)
  }

  function Started(w: Links): Links {
    var t := Begun(w);
    t.(connecting := Some(t.lifecycle), attempts := t.attempts + {t.lifecycle},
       phases := t.phases[t.lifecycle := Starting])
  }

  /** An attempt's task ends. */
  function Finished(w: Links, g: nat): Links {
    w.(attempts := w.attempts - {g}, phases := w.phases - {g},
       connecting := if w.connecting == Some(g) then None else w.connecting)
  }

  function Next(w: Links, e: Event): Links {
    match e
    case Connect(resolved) => if w.closed || Pending(w) || Full(w) || !resolved then w else Started(w)
    case Disconnect => if w.closed then w else Begun(w)
    case Created(g, n) =>
      if g in w.phases && w.phases[g].Starting? && n !in w.made
      then w.(phases := w.phases[g := Opening(n)], made := w.made[n := g], open := w.open + {n})
      else w
    case NotCreated(g) => if g in w.phases && w.phases[g].Starting? then Finished(w, g) else w
    case Opened(g) =>
      if g !in w.phases || !w.phases[g].Opening? then w
      else if g != w.lifecycle || w.closed then w.(phases := w.phases[g := Ending(w.phases[g].engine)])
      else Finished(w, g).(engine := Some(w.phases[g].engine))
    case OpenFailed(g) =>
      if g in w.phases && w.phases[g].Opening? then w.(phases := w.phases[g := Ending(w.phases[g].engine)]) else w
    case OwnClosed(g) =>
      if g in w.phases && w.phases[g].Ending?
      then Finished(w, g).(open := w.open - {w.phases[g].engine})
      else w
    case Lost(n) =>
      if w.engine != Some(n) || w.closed then w else w.(engine := None, closing := w.closing + {n})
    case CloseOver(n) =>
      if n in w.closing then w.(closing := w.closing - {n}, open := w.open - {n}) else w
    case Shutdown =>
      if w.closed then w else w.(closed := true, lifecycle := w.lifecycle + 1, engine := None, shutting := w.engine)
    case ShutdownClosed =>
      if w.shutting.Some? then w.(open := w.open - {w.shutting.value}, shutting := None) else w
    case Cancelled(g) =>
      // cancelled before its first stretch, an attempt leaves its generation in the set
      if !w.closed || g !in w.phases then w
      else if w.phases[g].Starting? then w.(phases := w.phases - {g})
      else Finished(w, g).(open := w.open - {w.phases[g].engine})
  }

  // ----- the invariant -----

  predicate Owns(w: Links, g: nat, n: nat) {
    g in w.phases && !w.phases[g].Starting? && w.phases[g].engine == n
  }

  /** Who is to close an engine not yet closed. */
  predicate Held(w: Links, n: nat) {
    w.engine == Some(n) || n in w.closing || w.shutting == Some(n) || (n in w.made && Owns(w, w.made[n], n))
  }

  predicate Bounded(w: Links) {
    |w.attempts| + |w.closing| + One(w.engine) + One(w.shutting) <= MAX_CONNECT_ATTEMPTS
  }

  predicate EnginesOk(w: Links) {
    && (forall n :: n in w.open ==> n in w.made && Held(w, n))
    && (forall n :: n in w.closing ==> n in w.open && w.engine != Some(n) && w.shutting != Some(n))
    && (forall g :: g in w.phases && !w.phases[g].Starting? ==> OwnsRightly(w, g, w.phases[g].engine))
    && (w.shutting.Some? ==> w.closed && w.shutting.value in w.open)
  }

  predicate OwnsRightly(w: Links, g: nat, n: nat) {
    n in w.open && n in w.made && w.made[n] == g && n !in w.closing && w.engine != Some(n) && w.shutting != Some(n)
  }

  /** The current engine is the one the latest lifecycle made. */
  predicate LatestWins(w: Links) {
    w.engine.Some? ==>
      !w.closed && w.engine.value in w.open && w.engine.value in w.made && w.made[w.engine.value] == w.lifecycle
      && w.lifecycle !in w.attempts
  }

  predicate AttemptsOk(w: Links) {
    && w.phases.Keys <= w.attempts
    && (!w.closed ==> w.attempts == w.phases.Keys)
    && (forall g :: g in w.attempts ==> g <= w.lifecycle && (w.closed ==> g < w.lifecycle))
    && (w.connecting.Some? ==> w.connecting.value in w.attempts)
    && (!w.closed && w.lifecycle in w.attempts ==> w.connecting == Some(w.lifecycle))
  }

  predicate Inv(w: Links) {
    Bounded(w) && EnginesOk(w) && LatestWins(w) && AttemptsOk(w)
  }

  lemma FirstIsOk()
    ensures Inv(FIRST)
  {
  }

  lemma ReleaseStaysBounded(w: Links, e: Event)
    requires Inv(w) && (e.Connect? || e.Disconnect? || e.Lost? || e.Shutdown?)
    ensures Bounded(Next(w, e))
  {
    hide OwnsRightly, Held, AttemptsOk, LatestWins;
    if w.engine.Some? {
      AddOne(w.closing, w.engine.value);
    }
    AddOne(w.attempts, w.lifecycle + 1);
  }

  lemma FinishFreesOne(w: Links, g: nat)
    requires AttemptsOk(w) && g in w.phases
    ensures |Finished(w, g).attempts| == |w.attempts| - 1
  {
    DropOne(w.attempts, g);
  }

  lemma AttemptStaysBounded(w: Links, e: Event)
    requires Inv(w) && (e.Created? || e.NotCreated? || e.Opened? || e.OpenFailed? || e.OwnClosed?)
    ensures Bounded(Next(w, e))
  {
    hide EnginesOk, AttemptsOk;
    match e {
      case NotCreated(g) =>
        if g in w.phases { FinishFreesOne(w, g); }
      case Opened(g) =>
        if g in w.phases { FinishFreesOne(w, g); }
      case OwnClosed(g) =>
        if g in w.phases { FinishFreesOne(w, g); }
      case _ =>
    }
  }

  lemma CloseStaysBounded(w: Links, e: Event)
    requires Inv(w) && (e.CloseOver? || e.ShutdownClosed? || e.Cancelled?)
    ensures Bounded(Next(w, e))
  {
    hide EnginesOk, AttemptsOk, LatestWins;
    match e {
      case CloseOver(n) => DropOne(w.closing, n);
      case Cancelled(g) =>
        if g in w.phases { FinishFreesOne(w, g); }
      case _ =>
    }
  }

  lemma StepKeepsAttempts(w: Links, e: Event)
    requires Inv(w)
    ensures AttemptsOk(Next(w, e)) && LatestWins(Next(w, e))
  {
    hide Bounded, Full, Held;
  }

  lemma ReleaseKeepsEngines(w: Links, e: Event)
    requires Inv(w) && (e.Connect? || e.Disconnect? || e.Lost? || e.Shutdown?)
    ensures EnginesOk(Next(w, e))
  {
    hide Bounded, Full, Pending;
  }

  lemma AttemptKeepsEngines(w: Links, e: Event)
    requires Inv(w) && (e.Created? || e.NotCreated? || e.Opened? || e.OpenFailed?)
    ensures EnginesOk(Next(w, e))
  {
    hide Bounded;
  }

  lemma CloseKeepsEngines(w: Links, e: Event)
    requires Inv(w) && (e.OwnClosed? || e.CloseOver? || e.ShutdownClosed? || e.Cancelled?)
    ensures EnginesOk(Next(w, e))
  {
    hide Bounded;
  }

  /** Every event keeps the bound, one owner for every open engine, and the latest lifecycle's claim. */
  lemma StepKeeps(w: Links, e: Event)
    requires Inv(w)
    ensures Inv(Next(w, e)) && w.lifecycle <= Next(w, e).lifecycle
  {
    StepKeepsAttempts(w, e);
    if e.Connect? || e.Disconnect? || e.Lost? || e.Shutdown? {
      ReleaseStaysBounded(w, e);
      ReleaseKeepsEngines(w, e);
    } else {
      if e.CloseOver? || e.ShutdownClosed? || e.Cancelled? {
        CloseStaysBounded(w, e);
      } else {
        AttemptStaysBounded(w, e);
      }
      if e.Created? || e.NotCreated? || e.Opened? || e.OpenFailed? {
        AttemptKeepsEngines(w, e);
      } else {
        CloseKeepsEngines(w, e);
      }
    }
  }

  // ----- what it means -----

  ghost function Run(w: Links, es: seq<Event>): (t: Links)
    requires Inv(w)
    ensures Inv(t) && w.lifecycle <= t.lifecycle
    decreases |es|
  {
    if es == [] then w
    else
      StepKeeps(w, es[0]);
      Run(Next(w, es[0]), es[1..])
  }

  /** In every reachable state attempts, engines being closed and a connected engine number at most two. */
  lemma BoundHolds(es: seq<Event>)
    ensures var w := Run(FIRST, es); |w.attempts| + |w.closing| + One(w.engine) <= MAX_CONNECT_ATTEMPTS
  {
  }

  /** In every reachable state every engine ever created is closed, current, being closed, or owned by its attempt
      while that runs. */
  lemma EveryEngineHasAnOwner(es: seq<Event>, n: nat)
    requires n in Run(FIRST, es).made
    ensures var w := Run(FIRST, es); n !in w.open || Held(w, n)
  {
  }

  /** Once a later connect, a disconnect or a shutdown has begun, nothing an attempt opens is ever installed. */
  lemma SupersededIsNeverInstalled(w: Links, g: nat, es: seq<Event>)
    requires Inv(w) && g < w.lifecycle
    ensures var t := Run(w, es); t.engine.Some? ==> t.engine.value in t.made && t.made[t.engine.value] != g
  {
  }

  /** A connect is pending exactly while the attempt of the latest lifecycle runs, and then no engine is connected. */
  lemma PendingMeansLatestRuns(w: Links)
    requires Inv(w) && !w.closed
    ensures Pending(w) <==> w.lifecycle in w.phases
    ensures Pending(w) ==> w.engine.None?
  {
  }

  /** The engines that attempts still own. */
  function OwnedBy(w: Links, gs: set<nat>): (ns: set<nat>)
    requires gs <= w.phases.Keys
  {
    set g | g in gs && !w.phases[g].Starting? :: w.phases[g].engine
  }

  lemma {:induction false} OwnedAreFew(w: Links, gs: set<nat>)
    requires gs <= w.phases.Keys
    ensures |OwnedBy(w, gs)| <= |gs|
    decreases |gs|
  {
    if g :| g in gs {
      var rest := gs - {g};
      OwnedAreFew(w, rest);
      if w.phases[g].Starting? {
        assert OwnedBy(w, gs) == OwnedBy(w, rest);
      } else {
        assert OwnedBy(w, gs) == OwnedBy(w, rest) + {w.phases[g].engine};
        AddOne(OwnedBy(w, rest), w.phases[g].engine);
      }
    }
  }

  function Holding(engine: Option<nat>): set<nat> {
    if engine.Some? then {engine.value} else {}
  }

  /** However connects, disconnects, losses and closes overlap, at most two engine connections are open. */
  lemma AtMostTwoOpen(w: Links)
    requires Inv(w)
    ensures |w.open| <= MAX_CONNECT_ATTEMPTS
  {
    var owned := OwnedBy(w, w.phases.Keys);
    var all := owned + w.closing + Holding(w.engine) + Holding(w.shutting);
    forall n | n in w.open ensures n in all {
      if n in w.made && Owns(w, w.made[n], n) {
        assert w.made[n] in w.phases.Keys && w.phases[w.made[n]].engine in owned;
      }
    }
    SubsetSize(w.open, all);
    OwnedAreFew(w, w.phases.Keys);
    SubsetSize(w.phases.Keys, w.attempts);
    UnionsAreSmall(owned, w.closing, Holding(w.engine), Holding(w.shutting));
  }

  lemma UnionsAreSmall(a: set<nat>, b: set<nat>, c: set<nat>, d: set<nat>)
    ensures |a + b + c + d| <= |a| + |b| + |c| + |d|
  {
    assert |a + b| <= |a| + |b|;
    assert |a + b + c| <= |a + b| + |c|;
  }

  /** After shutdown, once its own close and every task are over, no engine is left open. */
  lemma ShutdownLeavesNothingOpen(w: Links)
    requires Inv(w) && w.closed && w.shutting.None? && w.closing == {} && w.phases == map[]
    ensures w.open == {}
  {
    assert forall n :: n in w.open ==> Held(w, n);
  }

  /** A closed session starts nothing: no event adds an attempt or installs an engine. */
  lemma ClosedStartsNothing(w: Links, e: Event)
    requires Inv(w) && w.closed
    ensures Next(w, e).closed && Next(w, e).phases.Keys <= w.phases.Keys && Next(w, e).engine.None?
    ensures Next(w, e).attempts <= w.attempts && Next(w, e).closing <= w.closing
  {
    hide Bounded, EnginesOk, Full, Pending, Held, AttemptsOk;
  }

  // ----- the session's methods -----

  class Connector {
    var engine: Option<nat>
    var lifecycle: nat
    var connecting: Option<nat>
    var attempts: set<nat>
    var closing: set<nat>
    var closed: bool
    /** Where each task is, kept by the event loop rather than by a field. */
    ghost var phases: map<nat, Phase>
    ghost var shutting: Option<nat>
    ghost var made: map<nat, nat>
    ghost var open: set<nat>

    ghost function Now(): Links
      reads this
    {
      Links(engine, lifecycle, connecting, attempts, closing, closed, phases, shutting, made, open)
    }

    ghost predicate Valid()
      reads this
    {
      Inv(Now())
    }

    constructor ()
      ensures Valid() && Now() == FIRST
    {
      engine, lifecycle, connecting, attempts, closing, closed := None, 0, None, {}, {}, false;
      phases, shutting, made, open := map[], None, map[], {};
    }

    predicate ConnectPending()
      reads this
    {
      connecting.Some? && connecting.value == lifecycle
    }

    /** Attempts and closing engines share a bound of two; a connected engine would have to be closed too. */
    predicate AttemptsFull()
      reads this
    {
      var releasing := if engine.Some? then 1 else 0;
      |attempts| + |closing| + releasing >= MAX_CONNECT_ATTEMPTS
    }

    method DetachEngine()
      modifies `engine, `closing
      ensures Now() == old(Now()).(engine := None,
                                   closing := old(closing) + if old(engine).Some? then {old(engine).value} else {})
    {
      var e := engine;
      engine := None;
      if e.Some? {
        closing := closing + {e.value};
      }
    }

    method BeginLifecycle()
      modifies `lifecycle, `engine, `closing
      ensures Now() == Begun(old(Now()))
    {
      lifecycle := lifecycle + 1;
      DetachEngine();
    }

    /** `resolved` says whether the policy accepts the request. */
    method MsgConnect(resolved: bool) returns (ok: bool)
      requires Valid()
      modifies this
      ensures Valid() && Now() == Next(old(Now()), Connect(resolved))
      ensures |attempts| + |closing| + One(engine) <= MAX_CONNECT_ATTEMPTS
      ensures ok == (resolved && !old(closed) && old(connecting) != Some(old(lifecycle))
                     && |old(attempts)| + |old(closing)| + (if old(engine).Some? then 1 else 0) < 2)
      ensures ok ==>
                && lifecycle == old(lifecycle) + 1 && connecting == Some(lifecycle) && engine == None
                && attempts == old(attempts) + {lifecycle} && lifecycle in phases && phases[lifecycle] == Starting
                && closing == (if old(engine).Some? then old(closing) + {old(engine).value} else old(closing))
      ensures !ok ==> Now() == old(Now())
    {
      hide Inv;
      StepKeeps(Now(), Connect(resolved));
      InvIsBounded(Next(Now(), Connect(resolved)));
      if closed || ConnectPending() || AttemptsFull() || !resolved {
        return false;
      }
      BeginLifecycle();
      connecting := Some(lifecycle);
      attempts := attempts + {lifecycle};
      phases := phases[lifecycle := Starting];
      ok := true;
    }

    method MsgDisconnect()
      requires Valid() && !closed
      modifies this
      ensures Valid() && Now() == Next(old(Now()), Disconnect)
      ensures engine == None && lifecycle == old(lifecycle) + 1 && attempts == old(attempts)
      ensures closing == if old(engine).Some? then old(closing) + {old(engine).value} else old(closing)
    {
      hide Inv;
      StepKeeps(Now(), Disconnect);
      BeginLifecycle();
    }

    method EngineLost(e: nat)
      requires Valid()
      modifies this
      ensures Valid() && Now() == Next(old(Now()), Lost(e)) && (closed || engine != Some(e))
      ensures old(engine) == Some(e) && !closed ==>
                Now() == old(Now()).(engine := None, closing := old(closing) + {e})
      ensures old(engine) != Some(e) || closed ==> Now() == old(Now())
    {
      hide Inv;
      StepKeeps(Now(), Lost(e));
      if engine != Some(e) || closed {
        return;
      }
      engine := None;
      closing := closing + {e};
    }

    /** The end of an attempt's task, whatever came of it. */
    method Finish(g: nat)
      modifies `attempts, `connecting, `phases
      ensures Now() == Finished(old(Now()), g)
    {
      attempts := attempts - {g};
      if connecting == Some(g) {
        connecting := None;
      }
      phases := phases - {g};
    }

    /** The attempt's connection is up: install the engine, or close it when a later lifecycle has begun. */
    method AttemptOpened(g: nat, e: nat) returns (installed: bool)
      requires Valid() && g in phases && phases[g] == Opening(e)
      modifies this
      ensures Valid() && Now() == Next(old(Now()), Opened(g))
      ensures installed <==> engine == Some(e)
      ensures installed <==> g == old(lifecycle) && !closed
      ensures installed ==>
                && g !in attempts && g !in phases && lifecycle == old(lifecycle) && closing == old(closing)
                && connecting == if old(connecting) == Some(g) then None else old(connecting)
      ensures !installed ==> Now() == old(Now()).(phases := old(phases)[g := Ending(e)])
    {
      StepKeeps(Now(), Opened(g));
      hide Inv;
      if g != lifecycle || closed {
        phases := phases[g := Ending(e)];
        NotYetInstalled(old(Now()), g);
        return false;
      }
      engine := Some(e);
      Finish(g);
      installed := true;
    }

    /** The attempt has closed the engine it opened. */
    method AttemptOver(g: nat)
      requires Valid() && g in phases && phases[g].Ending?
      modifies this
      ensures Valid() && Now() == Next(old(Now()), OwnClosed(g)) && engine == old(engine)
      ensures attempts == old(attempts) - {g} && phases == old(phases) - {g} && lifecycle == old(lifecycle)
      ensures connecting == if old(connecting) == Some(g) then None else old(connecting)
    {
      hide Inv;
      StepKeeps(Now(), OwnClosed(g));
      open := open - {phases[g].engine};
      Finish(g);
    }

    /** The background close of a released engine is over, however it ended. */
    method EngineClosed(e: nat)
      requires Valid() && e in closing
      modifies this
      ensures Valid() && Now() == Next(old(Now()), CloseOver(e))
      ensures Now() == old(Now()).(closing := old(closing) - {e}, open := old(open) - {e})
    {
      hide Inv;
      StepKeeps(Now(), CloseOver(e));
      closing := closing - {e};
      open := open - {e};
    }

    /** Shutdown up to its first await; it closes the current engine itself. */
    method BeginClose() returns (e: Option<nat>)
      requires Valid()
      modifies this
      ensures Valid() && Now() == Next(old(Now()), Shutdown) && closed && engine.None?
      ensures e == if old(closed) then None else old(engine)
      ensures !old(closed) ==> lifecycle == old(lifecycle) + 1 && attempts == old(attempts) && closing == old(closing)
      ensures old(closed) ==> Now() == old(Now())
    {
      StepKeeps(Now(), Shutdown);
      ClosedStartsNothing(Next(Now(), Shutdown), Shutdown);
      hide Inv;
      if closed {
        return None;
      }
      closed := true;
      lifecycle := lifecycle + 1;
      e := engine;
      engine := None;
      shutting := e;
    }
  }

  lemma InvIsBounded(w: Links)
    requires Inv(w)
    ensures |w.attempts| + |w.closing| + One(w.engine) <= MAX_CONNECT_ATTEMPTS
  {
  }

  lemma NotYetInstalled(w: Links, g: nat)
    requires Inv(w) && g in w.phases && w.phases[g].Opening?
    ensures w.engine != Some(w.phases[g].engine)
  {
    assert OwnsRightly(w, g, w.phases[g].engine);
  }
}
