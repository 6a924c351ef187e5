/** A tab's bounded frame queue: newer state and analysis frames supersede queued ones, and a frame that
    would overflow it folds the queued log lines into one history. */
module TabQueues {
  import opened Rules

  /** A frame's type decides what may become of it; a log frame carries its line, a history its lines. */
  datatype Frame =
    | State(id: nat)
    | Analysis(id: nat)
    | Log(line: nat)
    | History(lines: seq<nat>)
    | Other(id: nat)

  predicate Coalesced(f: Frame) {
    f.State? || f.Analysis?
  }

  predicate Folded(f: Frame) {
    f.Log? || f.History?
  }

  predicate SameKind(f: Frame, g: Frame) {
    (f.State? && g.State?) || (f.Analysis? && g.Analysis?) || (f.Log? && g.Log?)
    || (f.History? && g.History?) || (f.Other? && g.Other?)
  }

  /** The place of the first frame of the same type, or the length when there is none. */
  function FirstSame(q: seq<Frame>, f: Frame): (k: nat)
    ensures k <= |q| && (k < |q| ==> SameKind(q[k], f)) && forall j :: 0 <= j < k ==> !SameKind(q[j], f)
  {
    if q == [] || SameKind(q[0], f) then 0 else 1 + FirstSame(q[1..], f)
  }

  function Superseded(q: seq<Frame>, f: Frame): seq<Frame> {
    var k := FirstSame(q, f);
    if Coalesced(f) && k < |q| then q[..k] + q[k + 1..] else q
  }

  /** The frames folding keeps. */
  function Unfolded(q: seq<Frame>): (r: seq<Frame>)
    ensures |r| <= |q|
  {
    if q == [] then [] else (if Folded(q[0]) then [] else [q[0]]) + Unfolded(q[1..])
  }

  lemma {:induction false} UnfoldedConcat(p: seq<Frame>, q: seq<Frame>)
    ensures Unfolded(p + q) == Unfolded(p) + Unfolded(q)
  {
    if p == [] {
      assert p + q == q;
    } else {
      var first := if Folded(p[0]) then [] else [p[0]];
      assert (p + q)[0] == p[0] && (p + q)[1..] == p[1..] + q;
      UnfoldedConcat(p[1..], q);
      assert Unfolded(p + q) == first + (Unfolded(p[1..]) + Unfolded(q));
      assert Unfolded(p) == first + Unfolded(p[1..]);
    }
  }

  lemma UnfoldedNext(q: seq<Frame>, i: nat)
    requires i < |q|
    ensures Unfolded(q[..i + 1]) == Unfolded(q[..i]) + if Folded(q[i]) then [] else [q[i]]
  {
    assert q[..i + 1] == q[..i] + [q[i]];
    UnfoldedConcat(q[..i], [q[i]]);
  }

  lemma UnfoldedAll(q: seq<Frame>)
    ensures Unfolded(q[..0]) == [] && q[..|q|] == q
  {
  }

  datatype PutResult = PutResult(items: seq<Frame>, accepted: bool)

  /** Put one frame; `history` is the log history at this moment, if one may be sent. */
  function PutFrame(q: seq<Frame>, maxsize: nat, f: Frame, history: Option<seq<nat>>): PutResult {
    var p := Superseded(q, f);
    if |p| < maxsize then PutResult(p + [f], true)
    else if f.Other? || history.None? || |Unfolded(p)| > maxsize / 2 then PutResult(p, false)
    else
      var folded := Unfolded(p) + [History(history.value)];
      PutResult(if Folded(f) then folded else folded + [f], true)
  }

  class TabQueue {
    const maxsize: nat
    var items: seq<Frame>
    var ready: bool

    constructor (maxsize: nat)
      ensures this.maxsize == maxsize && items == [] && !ready
    {
      this.maxsize := maxsize;
      items, ready := [], false;
    }

    /** Enqueue one frame; refused when the queue is full. */
    method Put(f: Frame, history: Option<seq<nat>>) returns (ok: bool)
      modifies this
      ensures PutResult(items, ok) == PutFrame(old(items), maxsize, f, history)
      ensures ready == (old(ready) || ok)
    {
      if Coalesced(f) {
        var index := 0;
        while index < |items| && !SameKind(items[index], f)
          invariant index <= |items| && items == old(items)
          invariant FirstSame(items, f) == index + FirstSame(items[index..], f)
        {
          assert items[index..][1..] == items[index + 1..];
          index := index + 1;
        }
        if index < |items| {
          items := items[..index] + items[index + 1..];
        }
      }
      assert items == Superseded(old(items), f);
      if |items| >= maxsize {
        if f.Other? || history.None? {
          return false;
        }
        var kept := Kept();
        if |kept| > maxsize / 2 {
          return false;
        }
        items := kept + [History(history.value)];
        if Folded(f) {
          ready := true;
          return true;
        }
      }
      items := items + [f];
      ready := true;
      return true;
    }

    /** The queued frames that are not log lines or histories. */
    method Kept() returns (kept: seq<Frame>)
      ensures kept == Unfolded(items)
    {
      hide Unfolded;
      kept := [];
      UnfoldedAll(items);
      for i := 0 to |items|
        invariant kept == Unfolded(items[..i])
      {
        UnfoldedNext(items, i);
        if !Folded(items[i]) {
          kept := kept + [items[i]];
        }
      }
    }

    /** The oldest frame, when there is one; otherwise the sender must wait for `ready`. */
    method TryGet() returns (f: Option<Frame>)
      modifies this
      ensures old(items) == [] ==> f == None && items == [] && !ready
      ensures old(items) != [] ==> f == Some(old(items)[0]) && items == old(items)[1..] && ready == old(ready)
    {
      if |items| == 0 {
        ready := false;
        return None;
      }
      f := Some(items[0]);
      items := items[1..];
    }
  }
}

/** One attached tab over a whole run: frames put by the session, its log, and the sender that drains the
    queue, paced by acknowledgements. */
module Tabs {
  import opened Rules
  import opened TabQueues

  /** The log's length, a history's, and what the page has room for. */
  const MAX_LOG_LINES := 400
  const HISTORY_LINES := 100
  const PAGE_LINES := 400
  /** How far sent states may run ahead of acknowledged ones. */
  const STATE_WINDOW := 1

  /** Where the sender is: about to look at the window, waiting for an acknowledgement, waiting for a
      frame, or sending one. */
  datatype Phase = AtWindow | WaitAck | WaitReady | Sending

  datatype Tab = Tab(
    items: seq<Frame>, ready: bool, acked: bool, phase: Phase,
    statesSent: nat, statesAcked: nat, acknowledging: bool,
    recorded: seq<nat>, log: seq<nat>, accepted: seq<Frame>, sent: seq<Frame>)

  function Last<T>(s: seq<T>, n: nat): seq<T> {
    if |s| <= n then s else s[|s| - n..]
  }

  function HistoryNow(t: Tab): seq<nat> {
    Last(t.log, HISTORY_LINES)
  }

  /** A tab just attached to a session that has recorded `recorded`. */
  function Attached(recorded: seq<nat>): Tab {
    Tab([], false, false, AtWindow, 0, 0, false, recorded, Last(recorded, MAX_LOG_LINES), [], [])
  }

  datatype Step =
    | Push(f: Frame)
    | Record(line: nat)
    | PushHistory
    | Ack
    | Sender

  /** The session puts log frames only as it records lines, and histories only of its log. */
  predicate Enabled(t: Tab, e: Step) {
    match e
    case Push(f) => !Folded(f)
    case Sender =>
      (t.phase == WaitAck ==> t.acked) && (t.phase == WaitReady ==> t.ready)
    case _ => true
  }

  /** Deliver one frame: `None` when the queue refuses it and the tab is closed. */
  function Deliver(t: Tab, maxsize: nat, f: Frame): Option<Tab> {
    var r := PutFrame(t.items, maxsize, f, Some(HistoryNow(t)));
    if r.accepted then Some(t.(items := r.items, ready := true, accepted := t.accepted + [f])) else None
  }

  predicate WindowOpen(t: Tab) {
    !t.acknowledging || t.statesSent - t.statesAcked < STATE_WINDOW
  }

  /** Take the oldest frame and hand it to the socket, or wait for one. */
  function TakeFrame(t: Tab): Tab {
    if t.items == [] then t.(ready := false, phase := WaitReady)
    else t.(items := t.items[1..], sent := t.sent + [t.items[0]], phase := Sending,
            statesSent := t.statesSent + if t.items[0].State? then 1 else 0)
  }

  /** One atomic stretch; `None` when the tab is closed for not keeping up. */
  function Next(t: Tab, maxsize: nat, e: Step): Option<Tab>
    requires Enabled(t, e)
  {
    match e
    case Push(f) => Deliver(t, maxsize, f)
    case Record(line) =>
      Deliver(t.(recorded := t.recorded + [line], log := Last(t.log + [line], MAX_LOG_LINES)), maxsize, Log(line))
    case PushHistory => Deliver(t, maxsize, History(HistoryNow(t)))
    case Ack =>
      Some(t.(acknowledging := true, acked := true,
              statesAcked := if t.statesAcked < t.statesSent then t.statesAcked + 1 else t.statesAcked))
    case Sender =>
      match t.phase
      case Sending => Some(t.(phase := AtWindow))
      case WaitReady => Some(TakeFrame(t))
      case _ => Some(if WindowOpen(t) then TakeFrame(t) else t.(acked := false, phase := WaitAck))
  }
}
