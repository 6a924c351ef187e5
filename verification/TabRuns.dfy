/** What an attached tab's queue keeps over every interleaving of puts, log lines, acknowledgements and
    sender steps. */
module TabRuns {
  import opened Rules
  import opened TabQueues
  import opened Tabs

  // ----- frames of one kind -----

  function OfKind(q: seq<Frame>, f: Frame): seq<Frame> {
    if q == [] then [] else (if SameKind(q[0], f) then [q[0]] else []) + OfKind(q[1..], f)
  }

  lemma {:induction false} KindConcat(p: seq<Frame>, q: seq<Frame>, f: Frame)
    ensures OfKind(p + q, f) == OfKind(p, f) + OfKind(q, f)
  {
    if p == [] {
      assert p + q == q;
    } else {
      var first := if SameKind(p[0], f) then [p[0]] else [];
      assert (p + q)[0] == p[0] && (p + q)[1..] == p[1..] + q;
      KindConcat(p[1..], q, f);
      assert OfKind(p + q, f) == first + (OfKind(p[1..], f) + OfKind(q, f));
      assert OfKind(p, f) == first + OfKind(p[1..], f);
    }
  }

  lemma KindOfOne(g: Frame, f: Frame)
    ensures OfKind([g], f) == if SameKind(g, f) then [g] else []
  {
  }

  lemma {:induction false} KindUnfolded(q: seq<Frame>, f: Frame)
    requires !Folded(f)
    ensures OfKind(Unfolded(q), f) == OfKind(q, f)
  {
    if q != [] {
      KindUnfolded(q[1..], f);
      KindConcat(if Folded(q[0]) then [] else [q[0]], Unfolded(q[1..]), f);
    }
  }

  /** Superseding takes out the oldest queued frame of the new one's kind and no other frame. */
  lemma KindSuperseded(q: seq<Frame>, g: Frame, f: Frame)
    ensures !SameKind(g, f) ==> OfKind(Superseded(q, g), f) == OfKind(q, f)
    ensures SameKind(g, f) && Coalesced(g) && OfKind(q, f) != [] ==> OfKind(Superseded(q, g), f) == OfKind(q, f)[1..]
    ensures SameKind(g, f) && (!Coalesced(g) || OfKind(q, f) == []) ==> OfKind(Superseded(q, g), f) == OfKind(q, f)
  {
    hide OfKind;
    var k := FirstSame(q, g);
    if k < |q| {
      var a, x, b := q[..k], q[k], q[k + 1..];
      assert q == a + [x] + b;
      KindConcat(a + [x], b, f);
      KindConcat(a, [x], f);
      KindConcat(a, b, f);
      KindOfOne(x, f);
      if SameKind(g, f) {
        NoneOfKind(a, f);
        assert ([] + [x] + OfKind(b, f))[1..] == [] + OfKind(b, f);
      } else {
        assert OfKind(a, f) + [] == OfKind(a, f);
      }
    } else if SameKind(g, f) {
      NoneOfKind(q, f);
    }
  }

  lemma {:induction false} NoneOfKind(q: seq<Frame>, f: Frame)
    requires forall j :: 0 <= j < |q| ==> !SameKind(q[j], f)
    ensures OfKind(q, f) == []
  {
    if q != [] { NoneOfKind(q[1..], f); }
  }

  function Newest(q: seq<Frame>): Option<Frame> {
    if q == [] then None else Some(q[|q| - 1])
  }

  // ----- the log view -----

  /** What one frame does to the page's log: a line is appended, a history replaces what is shown, and
      the page drops what it has no room for. */
  function Show(view: seq<nat>, f: Frame): seq<nat> {
    match f
    case Log(line) => Last(view + [line], PAGE_LINES)
    case History(lines) => Last(lines, PAGE_LINES)
    case _ => view
  }

  function Page(q: seq<Frame>): seq<nat> {
    if q == [] then [] else Show(Page(q[..|q| - 1]), q[|q| - 1])
  }

  lemma PageOfMore(q: seq<Frame>, f: Frame)
    ensures Page(q + [f]) == Show(Page(q), f)
  {
    assert (q + [f])[..|q|] == q;
  }

  lemma {:induction false} PageSkips(p: seq<Frame>, f: Frame, q: seq<Frame>)
    requires !Folded(f)
    ensures Page(p + [f] + q) == Page(p + q)
    decreases |q|
  {
    if q == [] {
      assert p + [f] + q == p + [f] && p + q == p;
      PageOfMore(p, f);
    } else {
      var n := |q| - 1;
      PageSkips(p, f, q[..n]);
      assert p + [f] + q == p + [f] + q[..n] + [q[n]] && p + q == p + q[..n] + [q[n]];
      PageOfMore(p + [f] + q[..n], q[n]);
      PageOfMore(p + q[..n], q[n]);
    }
  }

  lemma PageSuperseded(p: seq<Frame>, q: seq<Frame>, f: Frame)
    ensures Page(p + Superseded(q, f)) == Page(p + q)
  {
    hide Page;
    var k := FirstSame(q, f);
    if Coalesced(f) && k < |q| {
      var a, x, b := q[..k], q[k], q[k + 1..];
      assert q == a + [x] + b;
      assert Superseded(q, f) == a + b;
      PageSkipsInside(p, a, x, b);
    }
  }

  lemma PageSkipsInside(p: seq<Frame>, a: seq<Frame>, x: Frame, b: seq<Frame>)
    requires !Folded(x)
    ensures Page(p + (a + [x] + b)) == Page(p + (a + b))
  {
    hide Page;
    PageSkips(p + a, x, b);
    Associative(p, a, [x], b);
    Associative(p, a, [], b);
    assert a + [] + b == a + b && p + a + [] + b == p + a + b;
  }

  lemma Associative<T>(p: seq<T>, a: seq<T>, b: seq<T>, c: seq<T>)
    ensures p + (a + b + c) == p + a + b + c
  {
  }

  /** The newest lines recorded, at least a history's worth of them, or all there are. */
  ghost predicate Suffices(view: seq<nat>, recorded: seq<nat>) {
    && |view| <= |recorded| && view == recorded[|recorded| - |view|..]
    && (|view| >= HISTORY_LINES || view == recorded)
  }

  lemma LastOfLast(s: seq<nat>, n: nat, m: nat)
    requires m <= n
    ensures Last(Last(s, n), m) == Last(s, m)
  {
  }

  lemma LastOfMore(s: seq<nat>, x: nat, n: nat)
    requires n > 0
    ensures Last(Last(s, n) + [x], n) == Last(s + [x], n)
  {
  }

  lemma HistorySuffices(recorded: seq<nat>)
    ensures Suffices(Last(Last(recorded, HISTORY_LINES), PAGE_LINES), recorded)
  {
  }

  lemma LineSuffices(view: seq<nat>, recorded: seq<nat>, line: nat)
    requires Suffices(view, recorded)
    ensures Suffices(Last(view + [line], PAGE_LINES), recorded + [line])
  {
    var all := recorded + [line];
    assert view + [line] == all[|all| - |view + [line]|..];
  }

  // ----- the invariant -----

  const OTHER := Other(0)
  const STATE := State(0)
  const ANALYSIS := Analysis(0)

  function Frames(t: Tab): seq<Frame> {
    t.sent + t.items
  }

  /** At most `maxsize` frames wait, and at most one state and one analysis. */
  ghost predicate Bounded(t: Tab, maxsize: nat) {
    |t.items| <= maxsize && |OfKind(t.items, STATE)| <= 1 && |OfKind(t.items, ANALYSIS)| <= 1
  }

  /** Frames neither superseded nor folded leave in the order accepted, none lost; and the newest state
      and analysis accepted are the newest sent or waiting. */
  ghost predicate Ordered(t: Tab) {
    && OfKind(Frames(t), OTHER) == OfKind(t.accepted, OTHER)
    && Newest(OfKind(Frames(t), STATE)) == Newest(OfKind(t.accepted, STATE))
    && Newest(OfKind(Frames(t), ANALYSIS)) == Newest(OfKind(t.accepted, ANALYSIS))
  }

  /** The session's log is the newest lines recorded; once a history has been accepted, what the page has
      been and will be sent shows the newest lines. */
  ghost predicate Logged(t: Tab) {
    && t.log == Last(t.recorded, MAX_LOG_LINES)
    && ((exists f :: f in t.accepted && f.History?) ==> Suffices(Page(Frames(t)), t.recorded))
  }

  /** No wake-up is lost: a sender that could go on is not left waiting. */
  ghost predicate Awake(t: Tab) {
    && t.statesAcked <= t.statesSent
    && (t.phase == WaitReady && t.items != [] ==> t.ready)
    && (t.phase == WaitAck && WindowOpen(t) ==> t.acked)
  }

  ghost predicate Inv(t: Tab, maxsize: nat) {
    Bounded(t, maxsize) && Ordered(t) && Logged(t) && Awake(t)
  }

  // ----- one put -----

  /** A refused put leaves the queue as it was. */
  lemma RefusedChangesNothing(q: seq<Frame>, maxsize: nat, f: Frame, history: Option<seq<nat>>)
    requires |q| <= maxsize && !PutFrame(q, maxsize, f, history).accepted
    ensures PutFrame(q, maxsize, f, history).items == q
  {
  }

  lemma PutStaysBounded(q: seq<Frame>, maxsize: nat, f: Frame, history: Option<seq<nat>>)
    requires maxsize >= 3 && |q| <= maxsize
    ensures |PutFrame(q, maxsize, f, history).items| <= maxsize
  {
  }

  /** The frames of an unfoldable kind after an accepted put. */
  lemma PutKind(q: seq<Frame>, maxsize: nat, f: Frame, history: Option<seq<nat>>, g: Frame)
    requires PutFrame(q, maxsize, f, history).accepted && !Folded(g)
    ensures OfKind(PutFrame(q, maxsize, f, history).items, g)
         == OfKind(Superseded(q, f), g) + if SameKind(f, g) then [f] else []
  {
    var p := Superseded(q, f);
    hide Superseded, OfKind, Unfolded;
    KindOfOne(f, g);
    KindConcat(p, [f], g);
    if |p| >= maxsize {
      var h := History(history.value);
      KindUnfolded(p, g);
      KindConcat(Unfolded(p), [h], g);
      KindOfOne(h, g);
      KindConcat(Unfolded(p) + [h], [f], g);
      assert OfKind(p, g) + [] == OfKind(p, g);
    }
    assert OfKind(p, g) + [] == OfKind(p, g);
  }

  /** The page after an accepted put, all frames sent: as before with the frame shown, or, after a fold,
      the history. */
  lemma PutPage(sent: seq<Frame>, q: seq<Frame>, maxsize: nat, f: Frame, h: seq<nat>)
    requires PutFrame(q, maxsize, f, Some(h)).accepted
    ensures var page := Page(sent + PutFrame(q, maxsize, f, Some(h)).items);
            page == Show(Page(sent + q), f) || page == Last(h, PAGE_LINES)
  {
    var p := Superseded(q, f);
    PageSuperseded(sent, q, f);
    hide Superseded, Unfolded, Page;
    PageOfMore(sent + p, f);
    assert sent + p + [f] == sent + (p + [f]);
    if |p| >= maxsize {
      var kept := Unfolded(p);
      PageOfMore(sent + kept, History(h));
      assert sent + kept + [History(h)] == sent + (kept + [History(h)]);
      PageOfMore(sent + (kept + [History(h)]), f);
      assert sent + (kept + [History(h)]) + [f] == sent + (kept + [History(h)] + [f]);
    }
  }

  // ----- every step -----

  lemma NewestOfMore(a: seq<Frame>, b: seq<Frame>, f: Frame)
    requires Newest(a) == Newest(b)
    ensures Newest(a + [f]) == Newest(b + [f]) == Some(f)
  {
  }

  /** Of one kind: `a` has been sent, `b` waits, `c` was accepted; superseding takes the oldest waiting. */
  lemma PutSameKind(a: seq<Frame>, b: seq<Frame>, c: seq<Frame>, f: Frame)
    ensures a + (b + [f]) == a + b + [f]
    ensures Newest(a + (b + [f])) == Newest(c + [f])
    ensures a + b == c ==> a + (b + [f]) == c + [f]
  {
    NewestOfMore(a + b, a + b, f);
    NewestOfMore(c, c, f);
    assert a + (b + [f]) == a + b + [f];
  }

  /** A put of a frame keeps what is promised of the frames of an unfoldable kind. */
  lemma PutKeepsKind(t: Tab, maxsize: nat, f: Frame, g: Frame, v: Tab)
    requires Deliver(t, maxsize, f) == Some(v) && !Folded(g)
    ensures g.Other? && OfKind(Frames(t), g) == OfKind(t.accepted, g) ==> OfKind(Frames(v), g) == OfKind(v.accepted, g)
    ensures Newest(OfKind(Frames(t), g)) == Newest(OfKind(t.accepted, g)) ==>
              Newest(OfKind(Frames(v), g)) == Newest(OfKind(v.accepted, g))
    ensures |OfKind(t.items, g)| <= 1 && !g.Other? ==> |OfKind(v.items, g)| <= 1
  {
    PutKind(t.items, maxsize, f, Some(HistoryNow(t)), g);
    KindSuperseded(t.items, f, g);
    hide OfKind, PutFrame, Superseded;
    var p := OfKind(Superseded(t.items, f), g);
    KindConcat(t.sent, t.items, g);
    KindConcat(t.sent, v.items, g);
    KindConcat(t.accepted, [f], g);
    KindOfOne(f, g);
    if SameKind(f, g) {
      hide Newest;
      PutSameKind(OfKind(t.sent, g), p, OfKind(t.accepted, g), f);
    } else {
      assert p + [] == p && OfKind(t.accepted, g) + [] == OfKind(t.accepted, g);
    }
  }

  lemma DeliverKeeps(t: Tab, maxsize: nat, f: Frame, v: Tab)
    requires maxsize >= 3 && Bounded(t, maxsize) && Ordered(t) && Awake(t) && Deliver(t, maxsize, f) == Some(v)
    ensures Bounded(v, maxsize) && Ordered(v) && Awake(v)
  {
    hide OfKind, PutFrame;
    PutStaysBounded(t.items, maxsize, f, Some(HistoryNow(t)));
    PutKeepsKind(t, maxsize, f, OTHER, v);
    PutKeepsKind(t, maxsize, f, STATE, v);
    PutKeepsKind(t, maxsize, f, ANALYSIS, v);
  }

  lemma PushKeepsLog(t: Tab, maxsize: nat, f: Frame, v: Tab)
    requires Logged(t) && !Folded(f) && Deliver(t, maxsize, f) == Some(v)
    ensures Logged(v)
  {
    hide PutFrame, Page;
    PutPage(t.sent, t.items, maxsize, f, HistoryNow(t));
    LastOfLast(t.recorded, MAX_LOG_LINES, HISTORY_LINES);
    HistorySuffices(t.recorded);
    assert (exists g :: g in v.accepted && g.History?) ==> exists g :: g in t.accepted && g.History?;
  }

  lemma RecordKeepsLog(t: Tab, maxsize: nat, line: nat, v: Tab)
    requires Logged(t) && Next(t, maxsize, Record(line)) == Some(v)
    ensures Logged(v)
  {
    hide PutFrame, Page;
    var u := t.(recorded := t.recorded + [line], log := Last(t.log + [line], MAX_LOG_LINES));
    LastOfMore(t.recorded, line, MAX_LOG_LINES);
    PutPage(t.sent, t.items, maxsize, Log(line), HistoryNow(u));
    LastOfLast(u.recorded, MAX_LOG_LINES, HISTORY_LINES);
    HistorySuffices(u.recorded);
    if exists g :: g in v.accepted && g.History? {
      assert exists g :: g in t.accepted && g.History?;
      LineSuffices(Page(Frames(t)), t.recorded, line);
    }
  }

  lemma HistoryKeepsLog(t: Tab, maxsize: nat, v: Tab)
    requires Logged(t) && Next(t, maxsize, PushHistory) == Some(v)
    ensures Logged(v)
  {
    hide PutFrame, Page;
    PutPage(t.sent, t.items, maxsize, History(HistoryNow(t)), HistoryNow(t));
    LastOfLast(t.recorded, MAX_LOG_LINES, HISTORY_LINES);
    HistorySuffices(t.recorded);
  }

  lemma SenderKeeps(t: Tab, maxsize: nat, v: Tab)
    requires Inv(t, maxsize) && Enabled(t, Sender) && Next(t, maxsize, Sender) == Some(v)
    ensures Inv(v, maxsize)
  {
    hide OfKind, Page, Suffices;
    SenderMoves(t, maxsize, v);
    if v.items != t.items {
      FewerOfKind(t.items, STATE);
      FewerOfKind(t.items, ANALYSIS);
    }
  }

  /** A sender step takes nothing from what has been sent or waits. */
  lemma SenderMoves(t: Tab, maxsize: nat, v: Tab)
    requires Enabled(t, Sender) && Next(t, maxsize, Sender) == Some(v)
    ensures Frames(v) == Frames(t) && (v.items == t.items || (t.items != [] && v.items == t.items[1..]))
  {
    if v.items != t.items {
      assert t.sent + t.items == t.sent + [t.items[0]] + t.items[1..];
    }
  }

  lemma FewerOfKind(q: seq<Frame>, f: Frame)
    requires q != []
    ensures |OfKind(q[1..], f)| <= |OfKind(q, f)|
  {
  }

  lemma StepKeeps(t: Tab, maxsize: nat, e: Step, v: Tab)
    requires maxsize >= 3 && Inv(t, maxsize) && Enabled(t, e) && Next(t, maxsize, e) == Some(v)
    ensures Inv(v, maxsize)
  {
    hide Bounded, Ordered, Logged, Awake, Deliver;
    match e
    case Push(f) =>
      DeliverKeeps(t, maxsize, f, v);
      PushKeepsLog(t, maxsize, f, v);
    case Record(line) =>
      var u := t.(recorded := t.recorded + [line], log := Last(t.log + [line], MAX_LOG_LINES));
      SameQueue(t, u, maxsize);
      DeliverKeeps(u, maxsize, Log(line), v);
      RecordKeepsLog(t, maxsize, line, v);
    case PushHistory =>
      DeliverKeeps(t, maxsize, History(HistoryNow(t)), v);
      HistoryKeepsLog(t, maxsize, v);
    case Ack => AckKeeps(t, maxsize, v);
    case Sender => SenderKeeps(t, maxsize, v);
  }

  lemma SameQueue(t: Tab, u: Tab, maxsize: nat)
    requires u == t.(recorded := u.recorded, log := u.log)
    requires Bounded(t, maxsize) && Ordered(t) && Awake(t)
    ensures Bounded(u, maxsize) && Ordered(u) && Awake(u)
  {
    hide OfKind;
  }

  lemma AckKeeps(t: Tab, maxsize: nat, v: Tab)
    requires Inv(t, maxsize) && Next(t, maxsize, Ack) == Some(v)
    ensures Inv(v, maxsize)
  {
    hide OfKind, Page;
  }

  /** A run during which the tab stays attached. */
  ghost predicate IsRun(ts: seq<Tab>, es: seq<Step>, maxsize: nat) {
    && |ts| == |es| + 1 && ts[0] == Attached(ts[0].recorded)
    && forall k :: 0 <= k < |es| ==> Enabled(ts[k], es[k]) && Next(ts[k], maxsize, es[k]) == Some(ts[k + 1])
  }

  /** At every moment of every run of a tab that stays attached: the queue is bounded, with at most one
      state and one analysis, the newest; other frames leave in order and none is lost; once the attach
      history is accepted the page is shown the newest lines recorded, at least a history's worth; and
      a sender with something to do is never left waiting. */
  lemma {:induction false} QueueDiscipline(ts: seq<Tab>, es: seq<Step>, maxsize: nat, k: nat)
    requires maxsize >= 3 && IsRun(ts, es, maxsize) && k < |ts|
    ensures Bounded(ts[k], maxsize) && Ordered(ts[k]) && Logged(ts[k]) && Awake(ts[k])
  {
    if k == 0 {
      StartHolds(ts[0].recorded, maxsize);
    } else {
      hide Bounded, Ordered, Logged, Awake;
      QueueDiscipline(ts, es, maxsize, k - 1);
      StepKeeps(ts[k - 1], maxsize, es[k - 1], ts[k]);
    }
  }

  lemma StartHolds(recorded: seq<nat>, maxsize: nat)
    ensures Inv(Attached(recorded), maxsize)
  {
  }

  // ----- what a put does, told by the queue alone -----

  /** Folding keeps, in order, exactly the frames that are no log line and no history. */
  lemma {:induction false} FoldingPicks(q: seq<Frame>) returns (places: seq<nat>)
    ensures |places| == |Unfolded(q)| && forall i :: 0 <= i < |places| ==> places[i] < |q|
    ensures forall i :: 0 <= i < |places| ==> Unfolded(q)[i] == q[places[i]]
    ensures forall i, j :: 0 <= i < j < |places| ==> places[i] < places[j]
    ensures forall k: nat :: k in places <==> k < |q| && !q[k].Log? && !q[k].History?
    decreases |q|
  {
    if q == [] {
      places := [];
    } else {
      var n := |q| - 1;
      places := FoldingPicks(q[..n]);
      UnfoldedNext(q, n);
      assert q[..n + 1] == q;
      if !q[n].Log? && !q[n].History? {
        places := places + [n];
      }
    }
  }

  lemma {:induction false} UnfoldedCounts(q: seq<Frame>)
    ensures |Unfolded(q)| == |set k | 0 <= k < |q| && !q[k].Log? && !q[k].History?|
    decreases |q|
  {
    var here := set k | 0 <= k < |q| && !q[k].Log? && !q[k].History?;
    if q == [] {
      assert here == {};
    } else {
      var n := |q| - 1;
      var past := set k | 0 <= k < |q[..n]| && !q[..n][k].Log? && !q[..n][k].History?;
      UnfoldedCounts(q[..n]);
      UnfoldedNext(q, n);
      assert q[..n + 1] == q;
      assert past == set k | 0 <= k < n && !q[k].Log? && !q[k].History?;
      assert here == if Folded(q[n]) then past else past + {n};
    }
  }

  /** `p` is the queue without its oldest frame of the new one's kind, when that is a state or an analysis. */
  ghost predicate WithoutOldest(q: seq<Frame>, f: Frame, p: seq<Frame>) {
    if (f.State? && exists k :: 0 <= k < |q| && q[k].State?)
       || (f.Analysis? && exists k :: 0 <= k < |q| && q[k].Analysis?)
    then exists k :: 0 <= k < |q| && p == q[..k] + q[k + 1..]
                     && (if f.State? then q[k].State? else q[k].Analysis?)
                     && forall j :: 0 <= j < k ==> !(if f.State? then q[j].State? else q[j].Analysis?)
    else p == q
  }

  lemma SupersededIs(q: seq<Frame>, f: Frame)
    ensures WithoutOldest(q, f, Superseded(q, f))
  {
    var k := FirstSame(q, f);
  }

  lemma OldestIsOne(q: seq<Frame>, f: Frame, p: seq<Frame>, r: seq<Frame>)
    requires WithoutOldest(q, f, p) && WithoutOldest(q, f, r)
    ensures p == r
  {
  }

  /** A put first takes out the oldest queued frame of the new one's kind, if that is a state or an analysis. With
      room left the frame joins at the end. A full queue folds its log lines and histories into one history, the
      frame after it unless that is itself a log line or a history; it refuses instead exactly when the frame is of
      another kind, there is no history to send, or more than half the places would stay taken. */
  lemma PutDecides(q: seq<Frame>, maxsize: nat, f: Frame, history: Option<seq<nat>>, p: seq<Frame>)
    requires WithoutOldest(q, f, p)
    ensures |p| < maxsize ==> PutFrame(q, maxsize, f, history) == PutResult(p + [f], true)
    ensures |p| >= maxsize ==>
              var kept := |set k | 0 <= k < |p| && !p[k].Log? && !p[k].History?|;
              PutFrame(q, maxsize, f, history)
              == if f.Other? || history.None? || kept > maxsize / 2 then PutResult(p, false)
                 else PutResult(Unfolded(p) + [History(history.value)] + if f.Log? || f.History? then [] else [f], true)
  {
    hide Unfolded, WithoutOldest;
    SupersededIs(q, f);
    OldestIsOne(q, f, p, Superseded(q, f));
    UnfoldedCounts(p);
  }

  // ----- acknowledgements -----

  /** Acknowledging, and, if past the window and waiting for a frame, with nothing unacknowledged. */
  predicate Paced(t: Tab) {
    t.acknowledging && t.statesAcked <= t.statesSent && (t.phase == WaitReady ==> t.statesAcked == t.statesSent)
  }

  lemma PacedStep(t: Tab, maxsize: nat, e: Step, v: Tab)
    requires Paced(t) && Enabled(t, e) && Next(t, maxsize, e) == Some(v)
    ensures Paced(v)
    ensures v.statesSent - v.statesAcked <= 1 || v.statesSent - v.statesAcked <= t.statesSent - t.statesAcked
  {
    hide PutFrame;
  }

  /** From any moment at which the tab acknowledges states and its sender has yet to pass the window: never again is
      more than one state unacknowledged, or than were then. */
  lemma {:induction false} AcksPaceStates(ts: seq<Tab>, es: seq<Step>, maxsize: nat, j: nat, k: nat)
    requires maxsize >= 3 && IsRun(ts, es, maxsize) && j <= k < |ts|
    requires ts[j].acknowledging && ts[j].phase != WaitReady
    ensures ts[k].acknowledging && Paced(ts[k])
    ensures ts[k].statesSent - ts[k].statesAcked <= 1
            || ts[k].statesSent - ts[k].statesAcked <= ts[j].statesSent - ts[j].statesAcked
    decreases k
  {
    hide Next;
    if k == j {
      QueueDiscipline(ts, es, maxsize, j);
    } else {
      AcksPaceStates(ts, es, maxsize, j, k - 1);
      PacedStep(ts[k - 1], maxsize, es[k - 1], ts[k]);
    }
  }

  lemma CountedStep(t: Tab, maxsize: nat, e: Step, v: Tab)
    requires t.statesSent == |OfKind(t.sent, STATE)| && Enabled(t, e) && Next(t, maxsize, e) == Some(v)
    ensures v.statesSent == |OfKind(v.sent, STATE)|
  {
    hide PutFrame, OfKind;
    if e.Sender? && t.items != [] {
      KindConcat(t.sent, [t.items[0]], STATE);
      KindOfOne(t.items[0], STATE);
    }
  }

  /** The states counted as sent are those among the frames sent. */
  lemma {:induction false} SentStatesAreCounted(ts: seq<Tab>, es: seq<Step>, maxsize: nat, k: nat)
    requires IsRun(ts, es, maxsize) && k < |ts|
    ensures ts[k].statesSent == |OfKind(ts[k].sent, STATE)|
  {
    if k > 0 {
      hide Next, OfKind;
      SentStatesAreCounted(ts, es, maxsize, k - 1);
      CountedStep(ts[k - 1], maxsize, es[k - 1], ts[k]);
    }
  }
}
