/** Saving one space while its session goes on changing, and what a release that saves, then closes, may
    discard. Under the space's save lock a save takes the snapshot, writes it in a worker thread if it differs
    from the text last saved, then reads the preferences and does the same with them. */
module Saves {
  import opened Rules

  /** One saved text: what it has been, newest last; the text last loaded or saved; the version the storage holds;
      and the newest version that a save stored or found stored. */
  datatype Doc = Doc(texts: seq<string>, saved: string, stored: nat, confirmed: nat) {
    predicate Ok() {
      stored <= confirmed < |texts| && texts[stored] == texts[confirmed] == saved
    }

    function Latest(): (v: nat)
      requires Ok()
      ensures v < |texts|
    {
      |texts| - 1
    }

    function Now(): string
      requires Ok()
    {
      texts[Latest()]
    }

    function Changed(text: string): Doc {
      this.(texts := texts + [text])
    }

    /** The newest version needs no write. */
    function Found(): Doc
      requires Ok()
    {
      this.(confirmed := Latest())
    }

    function Written(v: nat): Doc
      requires v < |texts|
    {
      this.(saved := texts[v], stored := v, confirmed := v)
    }

    predicate NothingToLose()
      requires Ok()
    {
      texts[stored] == Now()
    }

    /** Versions keep their texts, and neither the stored nor the confirmed one goes back. */
    predicate GrowsTo(d: Doc) {
      texts <= d.texts && stored <= d.stored && confirmed <= d.confirmed
    }
  }

  /** A save waiting for the lock, writing a version of the snapshot, then of the preferences, or over. */
  datatype Save =
    | Queued
    | Writing(version: nat)
    | WritingPreferences(version: nat, preferences: nat, ok: bool)
    | Over(version: nat, preferences: nat, ok: bool)

  /** `keeps` says whether the storage keeps preferences at all. */
  datatype Space = Space(snapshot: Doc, preferences: Doc, keeps: bool, saves: map<nat, Save>, lock: Option<nat>,
                         closed: bool)

  datatype Event =
    | Edit(text: string)
    | EditPreferences(text: string)
    | Begin(c: nat)
    | Take(c: nat)
    | Wrote(c: nat, ok: bool)
    | WrotePreferences(c: nat, ok: bool)
    | Close(c: nat)

  predicate SaveOk(s: Space, c: nat)
    requires c in s.saves
  {
    match s.saves[c]
    case Queued => true
    case Writing(v) => s.lock == Some(c) && s.snapshot.confirmed <= v < |s.snapshot.texts|
    case WritingPreferences(v, p, ok) =>
      && s.keeps && s.lock == Some(c) && (ok ==> v <= s.snapshot.confirmed)
      && s.preferences.confirmed <= p < |s.preferences.texts|
    case Over(v, p, ok) => ok ==> v <= s.snapshot.confirmed && p <= s.preferences.confirmed
  }

  predicate Busy(w: Save) {
    w.Writing? || w.WritingPreferences?
  }

  predicate Inv(s: Space) {
    && s.snapshot.Ok() && s.preferences.Ok() && (!s.keeps ==> s.preferences.NothingToLose())
    && (forall c :: c in s.saves ==> SaveOk(s, c))
    && (s.lock.Some? ==> s.lock.value in s.saves && Busy(s.saves[s.lock.value]))
  }

  /** A save's second half, in the stretch that ends its first. */
  function Second(s: Space, c: nat, v: nat, ok: bool): Space
    requires s.preferences.Ok()
  {
    var p := s.preferences.Latest();
    if !s.keeps || s.preferences.Now() == s.preferences.saved then
      s.(preferences := s.preferences.Found(), saves := s.saves[c := Over(v, p, ok)], lock := None)
    else s.(saves := s.saves[c := WritingPreferences(v, p, ok)], lock := Some(c))
  }

  predicate CanTake(s: Space, c: nat) {
    c in s.saves && s.saves[c] == Queued && s.lock.None?
  }

  function Next(s: Space, e: Event): Space
    requires Inv(s)
  {
    match e
    case Edit(text) => if s.closed then s else s.(snapshot := s.snapshot.Changed(text))
    case EditPreferences(text) => if s.closed || !s.keeps then s else s.(preferences := s.preferences.Changed(text))
    case Begin(c) => if c in s.saves then s else s.(saves := s.saves[c := Queued])
    case Take(c) =>
      var v := s.snapshot.Latest();
      if !CanTake(s, c) then s
      else if s.snapshot.Now() == s.snapshot.saved then Second(s.(snapshot := s.snapshot.Found()), c, v, true)
      else s.(saves := s.saves[c := Writing(v)], lock := Some(c))
    case Wrote(c, ok) =>
      if c !in s.saves || !s.saves[c].Writing? then s
      else
        assert SaveOk(s, c);
        var v := s.saves[c].version;
        Second(if ok then s.(snapshot := s.snapshot.Written(v)) else s, c, v, ok)
    case WrotePreferences(c, ok) =>
      if c !in s.saves || !s.saves[c].WritingPreferences? then s
      else
        assert SaveOk(s, c);
        var w := s.saves[c];
        s.(preferences := if ok then s.preferences.Written(w.preferences) else s.preferences,
           saves := s.saves[c := Over(w.version, w.preferences, w.ok && ok)], lock := None)
    case Close(c) =>
      if c in s.saves && s.saves[c].Over? && s.saves[c].ok then s.(closed := true) else s
  }

  function LoadedDoc(text: string): Doc {
    Doc([text], text, 0, 0)
  }

  /** A space just loaded, its texts the baselines. */
  function Loaded(text: string, preferences: string, keeps: bool): (s: Space)
    ensures Inv(s)
  {
    Space(LoadedDoc(text), LoadedDoc(preferences), keeps, map[], None, false)
  }

  lemma SecondKeeps(s: Space, c: nat, v: nat, ok: bool)
    requires s.snapshot.Ok() && s.preferences.Ok() && (!s.keeps ==> s.preferences.NothingToLose())
    requires forall d :: d in s.saves && d != c ==> SaveOk(s, d) && !Busy(s.saves[d])
    requires ok ==> v <= s.snapshot.confirmed
    ensures var t := Second(s, c, v, ok);
            && Inv(t) && t.snapshot == s.snapshot && s.preferences.GrowsTo(t.preferences)
            && c in t.saves && t.saves[c] != Queued && t.saves[c].version == v
  {
    var t := Second(s, c, v, ok);
    forall d | d in t.saves ensures SaveOk(t, d) {
      assert d != c ==> SaveOk(s, d);
    }
  }

  /** Only the lock's holder is writing. */
  lemma OneIsBusy(s: Space, c: nat)
    requires Inv(s) && (s.lock == Some(c) || s.lock.None?)
    ensures forall d :: d in s.saves && d != c ==> SaveOk(s, d) && !Busy(s.saves[d])
  {
    forall d | d in s.saves && d != c ensures SaveOk(s, d) && !Busy(s.saves[d]) {
      assert SaveOk(s, d);
    }
  }

  predicate Grows(s: Space, t: Space) {
    s.snapshot.GrowsTo(t.snapshot) && s.preferences.GrowsTo(t.preferences)
  }

  lemma TakeKeeps(s: Space, c: nat)
    requires Inv(s) && CanTake(s, c)
    ensures var t := Next(s, Take(c));
            && Inv(t) && Grows(s, t) && c in t.saves && t.saves[c] != Queued
            && t.saves[c].version == s.snapshot.Latest()
  {
    OneIsBusy(s, c);
    if s.snapshot.Now() == s.snapshot.saved {
      SecondKeeps(s.(snapshot := s.snapshot.Found()), c, s.snapshot.Latest(), true);
    } else {
      var t := Next(s, Take(c));
      forall d | d in t.saves ensures SaveOk(t, d) {
        assert d != c ==> SaveOk(s, d);
      }
    }
  }

  lemma WroteKeeps(s: Space, c: nat, ok: bool)
    requires Inv(s)
    ensures Inv(Next(s, Wrote(c, ok))) && Grows(s, Next(s, Wrote(c, ok)))
  {
    if c in s.saves && s.saves[c].Writing? {
      assert SaveOk(s, c);
      OneIsBusy(s, c);
      var v := s.saves[c].version;
      SecondKeeps(if ok then s.(snapshot := s.snapshot.Written(v)) else s, c, v, ok);
    }
  }

  lemma PreferencesKeep(s: Space, c: nat, ok: bool)
    requires Inv(s)
    ensures Inv(Next(s, WrotePreferences(c, ok))) && Grows(s, Next(s, WrotePreferences(c, ok)))
  {
    if c in s.saves && s.saves[c].WritingPreferences? {
      assert SaveOk(s, c);
      OneIsBusy(s, c);
      var t := Next(s, WrotePreferences(c, ok));
      forall d | d in t.saves ensures SaveOk(t, d) {
        assert d != c ==> SaveOk(s, d);
      }
    }
  }

  lemma PlainKeeps(s: Space, e: Event)
    requires Inv(s) && (e.Edit? || e.EditPreferences? || e.Begin? || e.Close?)
    ensures Inv(Next(s, e)) && Grows(s, Next(s, e))
  {
    var t := Next(s, e);
    forall d | d in t.saves ensures SaveOk(t, d) {
      assert d in s.saves ==> SaveOk(s, d);
    }
  }

  /** The text last saved is the text the storage holds, a version being written is no older than the newest
      confirmed, and neither goes back. */
  lemma StepKeeps(s: Space, e: Event)
    requires Inv(s)
    ensures Inv(Next(s, e)) && Grows(s, Next(s, e))
  {
    hide Inv, Next, Grows;
    match e {
      case Take(c) =>
        if CanTake(s, c) { TakeKeeps(s, c); } else { NotTaken(s, c); }
      case Wrote(c, ok) => WroteKeeps(s, c, ok);
      case WrotePreferences(c, ok) => PreferencesKeep(s, c, ok);
      case _ => PlainKeeps(s, e);
    }
  }

  lemma NotTaken(s: Space, c: nat)
    requires Inv(s) && !CanTake(s, c)
    ensures Next(s, Take(c)) == s && Grows(s, s)
  {
  }

  function Run(s: Space, es: seq<Event>): (t: Space)
    requires Inv(s)
    ensures Inv(t)
    decreases |es|
  {
    if es == [] then s
    else
      StepKeeps(s, es[0]);
      Run(Next(s, es[0]), es[1..])
  }

  /** However saves overlap, an older version never replaces a newer one, of the snapshot or of the preferences. */
  lemma {:induction false} SavesNeverGoBack(s: Space, es: seq<Event>)
    requires Inv(s)
    ensures Grows(s, Run(s, es))
    decreases |es|
  {
    hide Inv, Next;
    if es != [] {
      StepKeeps(s, es[0]);
      SavesNeverGoBack(Next(s, es[0]), es[1..]);
    }
  }

  // ----- what a release may discard -----

  /** The storage holds the session's texts. */
  predicate NothingToLose(s: Space)
    requires Inv(s)
  {
    s.snapshot.NothingToLose() && s.preferences.NothingToLose()
  }

  /** Every write under way is of the newest version, and once the save is over, so is what it reported. */
  predicate SavesLatest(s: Space, c: nat)
    requires Inv(s)
  {
    && c in s.saves && s.saves[c] != Queued
    && (s.saves[c].WritingPreferences? && s.saves[c].ok ==> s.snapshot.NothingToLose())
    && (s.saves[c].Over? && s.saves[c].ok ==> NothingToLose(s))
    && (forall d :: d in s.saves && s.saves[d].Writing? ==> s.saves[d].version == s.snapshot.Latest())
    && (forall d :: d in s.saves && s.saves[d].WritingPreferences? ==> s.saves[d].preferences == s.preferences.Latest())
  }

  lemma QuietTake(s: Space, c: nat, d: nat)
    requires Inv(s) && SavesLatest(s, c) && CanTake(s, d) && Inv(Next(s, Take(d)))
    ensures SavesLatest(Next(s, Take(d)), c)
  {
    OneIsBusy(s, d);
  }

  lemma QuietWrote(s: Space, c: nat, d: nat, ok: bool)
    requires Inv(s) && SavesLatest(s, c) && d in s.saves && s.saves[d].Writing? && Inv(Next(s, Wrote(d, ok)))
    ensures SavesLatest(Next(s, Wrote(d, ok)), c)
  {
    assert SaveOk(s, d);
    OneIsBusy(s, d);
  }

  lemma QuietWrotePreferences(s: Space, c: nat, d: nat, ok: bool)
    requires Inv(s) && SavesLatest(s, c) && d in s.saves && s.saves[d].WritingPreferences?
    requires Inv(Next(s, WrotePreferences(d, ok)))
    ensures SavesLatest(Next(s, WrotePreferences(d, ok)), c)
  {
    assert SaveOk(s, d);
    OneIsBusy(s, d);
  }

  lemma QuietPlain(s: Space, c: nat, e: Event)
    requires Inv(s) && SavesLatest(s, c) && (e.Begin? || e.Close?) && Inv(Next(s, e))
    ensures SavesLatest(Next(s, e), c)
  {
    hide SaveOk;
  }

  lemma NotWriting(s: Space, d: nat, ok: bool)
    requires Inv(s)
    ensures !(d in s.saves && s.saves[d].Writing?) ==> Next(s, Wrote(d, ok)) == s
    ensures !(d in s.saves && s.saves[d].WritingPreferences?) ==> Next(s, WrotePreferences(d, ok)) == s
  {
    hide SaveOk;
  }

  lemma QuietStep(s: Space, c: nat, e: Event)
    requires Inv(s) && SavesLatest(s, c) && !e.Edit? && !e.EditPreferences? && Inv(Next(s, e))
    ensures SavesLatest(Next(s, e), c)
  {
    hide Inv, Next, SavesLatest;
    match e {
      case Take(d) =>
        if CanTake(s, d) { QuietTake(s, c, d); } else { NotTaken(s, d); }
      case Wrote(d, ok) =>
        NotWriting(s, d, ok);
        if d in s.saves && s.saves[d].Writing? { QuietWrote(s, c, d, ok); }
      case WrotePreferences(d, ok) =>
        NotWriting(s, d, ok);
        if d in s.saves && s.saves[d].WritingPreferences? { QuietWrotePreferences(s, c, d, ok); }
      case _ => QuietPlain(s, c, e);
    }
  }

  lemma {:induction false} QuietKeeps(s: Space, c: nat, es: seq<Event>)
    requires Inv(s) && SavesLatest(s, c)
    requires forall k :: 0 <= k < |es| ==> !es[k].Edit? && !es[k].EditPreferences?
    ensures SavesLatest(Run(s, es), c)
    decreases |es|
  {
    hide Inv, Next, SavesLatest;
    if es != [] {
      StepKeeps(s, es[0]);
      QuietStep(s, c, es[0]);
      QuietKeeps(Next(s, es[0]), c, es[1..]);
    }
  }

  lemma TakeIsLatest(s: Space, c: nat)
    requires Inv(s) && CanTake(s, c) && Inv(Next(s, Take(c)))
    ensures SavesLatest(Next(s, Take(c)), c)
  {
    OneIsBusy(s, c);
  }

  /** A release discards nothing when the session does not change from its snapshot to its close, whatever other
      saves are under way. */
  lemma QuietReleaseLosesNothing(s: Space, c: nat, es: seq<Event>)
    requires Inv(s) && CanTake(s, c)
    requires forall k :: 0 <= k < |es| ==> !es[k].Edit? && !es[k].EditPreferences?
    ensures Inv(Next(s, Take(c)))
    ensures var t := Run(Next(s, Take(c)), es);
            c in t.saves && (t.saves[c].Over? && t.saves[c].ok ==> NothingToLose(t))
  {
    hide Inv, Next;
    StepKeeps(s, Take(c));
    TakeIsLatest(s, c);
    QuietKeeps(Next(s, Take(c)), c, es);
  }

  /** The text, if any, that an event gets written into the storage: of the snapshot, or of the preferences. */
  function WrittenBy(s: Space, e: Event, preferences: bool): Option<string>
    requires Inv(s)
  {
    match e
    case Wrote(c, ok) =>
      if preferences || !ok || c !in s.saves || !s.saves[c].Writing? then None
      else
        assert SaveOk(s, c);
        Some(s.snapshot.texts[s.saves[c].version])
    case WrotePreferences(c, ok) =>
      if !preferences || !ok || c !in s.saves || !s.saves[c].WritingPreferences? then None
      else
        assert SaveOk(s, c);
        Some(s.preferences.texts[s.saves[c].preferences])
    case _ => None
  }

  /** The text that the last successful write of a run wrote. */
  function LastWritten(s: Space, es: seq<Event>, preferences: bool): Option<string>
    requires Inv(s)
    decreases |es|
  {
    if es == [] then None
    else
      StepKeeps(s, es[0]);
      var later := LastWritten(Next(s, es[0]), es[1..], preferences);
      if later.Some? then later else WrittenBy(s, es[0], preferences)
  }

  function DocOf(s: Space, preferences: bool): Doc {
    if preferences then s.preferences else s.snapshot
  }

  lemma OneWrite(s: Space, e: Event, preferences: bool)
    requires Inv(s) && Inv(Next(s, e))
    ensures DocOf(Next(s, e), preferences).saved
         == if WrittenBy(s, e, preferences).Some? then WrittenBy(s, e, preferences).value
            else DocOf(s, preferences).saved
  {
  }

  /** What the storage holds after any run is what its last successful write wrote, or, with none, what it held. */
  lemma {:induction false} StorageHoldsLastWritten(s: Space, es: seq<Event>, preferences: bool)
    requires Inv(s)
    ensures DocOf(Run(s, es), preferences).saved
         == if LastWritten(s, es, preferences).Some? then LastWritten(s, es, preferences).value
            else DocOf(s, preferences).saved
    decreases |es|
  {
    hide Inv, Next, WrittenBy;
    if es != [] {
      StepKeeps(s, es[0]);
      OneWrite(s, es[0], preferences);
      StorageHoldsLastWritten(Next(s, es[0]), es[1..], preferences);
    }
  }

  lemma ClosedStep(s: Space, e: Event)
    requires Inv(s) && s.closed
    ensures var t := Next(s, e);
            t.closed && t.snapshot.texts == s.snapshot.texts && t.preferences.texts == s.preferences.texts
  {
  }

  /** After the close no event changes the session's texts. */
  lemma {:induction false} ClosedTextsStay(s: Space, es: seq<Event>)
    requires Inv(s) && s.closed
    ensures var t := Run(s, es);
            t.closed && t.snapshot.texts == s.snapshot.texts && t.preferences.texts == s.preferences.texts
    decreases |es|
  {
    hide Inv, Next;
    if es != [] {
      StepKeeps(s, es[0]);
      ClosedStep(s, es[0]);
      ClosedTextsStay(Next(s, es[0]), es[1..]);
    }
  }

  /** Once a save has taken its snapshot it keeps that version. */
  lemma TakenStep(s: Space, c: nat, e: Event)
    requires Inv(s) && c in s.saves && s.saves[c] != Queued
    ensures var t := Next(s, e); c in t.saves && t.saves[c] != Queued && t.saves[c].version == s.saves[c].version
  {
  }

  lemma {:induction false} SaveStaysTaken(s: Space, c: nat, es: seq<Event>)
    requires Inv(s) && c in s.saves && s.saves[c] != Queued
    ensures var t := Run(s, es); c in t.saves && t.saves[c] != Queued && t.saves[c].version == s.saves[c].version
    decreases |es|
  {
    hide Inv, Next, SaveOk;
    if es != [] {
      StepKeeps(s, es[0]);
      TakenStep(s, c, es[0]);
      SaveStaysTaken(Next(s, es[0]), c, es[1..]);
    }
  }

  /** A text is not lost: it is what the last successful write after the close wrote, or, with none, what had been
      saved by then. */
  predicate Kept(d: Doc, written: Option<string>)
    requires d.Ok()
  {
    d.Now() == if written.Some? then written.value else d.saved
  }

  /** The whole of a release, with any changes and other saves before its close and any saves still running after
      it. When it closes, its own snapshot or a newer one is in the storage. In the end nothing is lost if and only
      if the last write to succeed after the close wrote the text the session closed with or, with no such write,
      that text was the one last saved: which the release could have checked just before it closed. */
  lemma ReleaseLosesNothingIff(s: Space, c: nat, before: seq<Event>, after: seq<Event>)
    requires Inv(s) && CanTake(s, c)
    ensures Inv(Next(s, Take(c)))
    ensures var t := Run(Next(s, Take(c)), before);
            && c in t.saves && Inv(Next(t, Close(c)))
            && (t.saves[c].Over? && t.saves[c].ok ==>
                  var closed := Next(t, Close(c));
                  && s.snapshot.Latest() <= t.snapshot.confirmed
                  && (NothingToLose(Run(closed, after))
                      <==> Kept(t.snapshot, LastWritten(closed, after, false))
                           && Kept(t.preferences, LastWritten(closed, after, true))))
  {
    hide Next, Run, LastWritten, SaveOk;
    TakeKeeps(s, c);
    var t := Run(Next(s, Take(c)), before);
    SaveStaysTaken(Next(s, Take(c)), c, before);
    StepKeeps(t, Close(c));
    if t.saves[c].Over? && t.saves[c].ok {
      assert s.snapshot.Latest() <= t.snapshot.confirmed by { ReportIsConfirmed(t, c); }
      CloseOnlyCloses(t, c);
      var closed := Next(t, Close(c));
      ClosedTextsStay(closed, after);
      StorageHoldsLastWritten(closed, after, false);
      StorageHoldsLastWritten(closed, after, true);
    }
  }

  lemma ReportIsConfirmed(s: Space, c: nat)
    requires Inv(s) && c in s.saves && s.saves[c].Over? && s.saves[c].ok
    ensures s.saves[c].version <= s.snapshot.confirmed
  {
    assert SaveOk(s, c);
  }

  lemma CloseOnlyCloses(s: Space, c: nat)
    requires Inv(s) && c in s.saves && s.saves[c].Over? && s.saves[c].ok
    ensures Next(s, Close(c)) == s.(closed := true)
  {
  }

  lemma RunFirst(s: Space, e: Event, es: seq<Event>, t: Space)
    requires Inv(s) && t == Next(s, e)
    ensures Inv(t) && Run(s, [e] + es) == Run(t, es)
  {
    hide Next;
    StepKeeps(s, e);
    assert ([e] + es)[1..] == es;
  }

  const LOSING := [Edit("b"), Begin(0), Take(0), Edit("c"), Wrote(0, true), Close(0)]

  /** And it can lose: a move that lands while the snapshot is being written is neither stored nor kept, though the
      save reports that everything is stored. */
  lemma AReleaseThatLoses()
    ensures var s := Run(Loaded("a", "", false), LOSING);
            s.closed && s.snapshot.texts[s.snapshot.stored] == "b" && s.snapshot.Now() == "c"
  {
    hide Inv, Run;
    var a, b, c := Doc(["a"], "a", 0, 0), Doc(["a", "b"], "a", 0, 0), Doc(["a", "b", "c"], "a", 0, 0);
    var done, none := Doc(["a", "b", "c"], "b", 1, 1), LoadedDoc("");
    var writing, over := map[0 := Writing(1)], map[0 := Over(1, 0, true)];
    var s0, s1 := Loaded("a", "", false), Space(b, none, false, map[], None, false);
    var s2, s3 := Space(b, none, false, map[0 := Queued], None, false), Space(b, none, false, writing, Some(0), false);
    var s4, s5 := Space(c, none, false, writing, Some(0), false), Space(done, none, false, over, None, false);
    var e5: seq<Event> := [Close(0)];
    var e4 := [Wrote(0, true)] + e5;
    var e3 := [Edit("c")] + e4;
    var e2 := [Take(0)] + e3;
    var e1 := [Begin(0)] + e2;
    assert LOSING == [Edit("b")] + e1 && e5 == [Close(0)] + [];
    RunFirst(s0, Edit("b"), e1, s1);
    RunFirst(s1, Begin(0), e2, s2);
    RunFirst(s2, Take(0), e3, s3);
    RunFirst(s3, Edit("c"), e4, s4);
    RunFirst(s4, Wrote(0, true), e5, s5);
    RunFirst(s5, Close(0), [], s5.(closed := true));
    RunNothing(s5.(closed := true));
  }

  lemma RunNothing(s: Space)
    requires Inv(s)
    ensures Run(s, []) == s
  {
  }

  // ----- a space's save, stretch by stretch -----

  datatype Stretch = WriteSnapshot | WritePreferences | NothingToWrite

  class SavedSpace {
    const keeps: bool
    var savedText: string
    var savedPreferencesText: string
    var lock: Option<nat>
    ghost var snapshot: Doc
    ghost var preferences: Doc
    ghost var saves: map<nat, Save>
    ghost var closed: bool

    ghost function Now(): Space
      reads this
    {
      Space(snapshot, preferences, keeps, saves, lock, closed)
    }

    /** The fields hold the texts last loaded or saved. */
    ghost predicate Valid()
      reads this
    {
      Inv(Now()) && savedText == snapshot.saved && savedPreferencesText == preferences.saved
    }

    constructor (text: string, preferencesText: string, keeps: bool)
      ensures Valid() && Now() == Loaded(text, preferencesText, keeps)
    {
      this.keeps, savedText, savedPreferencesText, lock := keeps, text, preferencesText, None;
      snapshot, preferences, saves, closed := LoadedDoc(text), LoadedDoc(preferencesText), map[], false;
    }

    /** The preferences are read once the snapshot needs no write or its write has ended. */
    method SecondHalf(c: nat, ghost v: nat, preferencesText: string, ghost ok: bool) returns (next: Stretch)
      requires preferences.Ok() && preferencesText == preferences.Now() && savedPreferencesText == preferences.saved
      modifies `preferences, `saves, `lock
      ensures Now() == Second(old(Now()), c, v, ok) && next != WriteSnapshot
      ensures savedPreferencesText == preferences.saved
      ensures next == NothingToWrite ==> !keeps || preferences.NothingToLose()
      ensures next == WritePreferences <==> keeps && preferencesText != savedPreferencesText
      ensures c in saves && saves[c].version == v && saves[c].Over? == (next == NothingToWrite)
      ensures if saves[c].Over? then saves[c].ok == ok && lock == None
              else saves[c].WritingPreferences? && saves[c].ok == ok && lock == Some(c)
    {
      if keeps && preferencesText != savedPreferencesText {
        lock := Some(c);
        saves := saves[c := WritingPreferences(v, preferences.Latest(), ok)];
        return WritePreferences;
      }
      lock := None;
      saves := saves[c := Over(v, preferences.Latest(), ok)];
      preferences := preferences.Found();
      next := NothingToWrite;
    }

    /** Under the save lock: what is to be written first, if anything. */
    method BeginSave(c: nat, text: string, preferencesText: string) returns (next: Stretch)
      requires Valid() && CanTake(Now(), c) && text == snapshot.Now() && preferencesText == preferences.Now()
      modifies this
      ensures Valid() && Now() == Next(old(Now()), Take(c))
      ensures next == NothingToWrite ==> NothingToLose(Now())
      ensures savedText == old(savedText) && savedPreferencesText == old(savedPreferencesText)
      ensures next == WriteSnapshot <==> text != savedText
      ensures next == WritePreferences <==> text == savedText && keeps && preferencesText != savedPreferencesText
      ensures c in saves && if next == NothingToWrite then saves[c].Over? && saves[c].ok && lock == None
                            else lock == Some(c)
    {
      hide Inv;
      TakeKeeps(Now(), c);
      DocsAreOk(Now());
      if text != savedText {
        lock := Some(c);
        saves := saves[c := Writing(snapshot.Latest())];
        return WriteSnapshot;
      }
      ghost var v := snapshot.Latest();
      snapshot := snapshot.Found();
      next := SecondHalf(c, v, preferencesText, true);
      DocsAreOk(Now());
    }

    /** The storage has written the snapshot, or raised; the preferences are read only now. */
    method EndSnapshotWrite(c: nat, text: string, preferencesText: string, ok: bool) returns (next: Stretch)
      requires Valid() && c in saves && saves[c].Writing? && preferencesText == preferences.Now()
      requires saves[c].version < |snapshot.texts| && text == snapshot.texts[saves[c].version]
      modifies this
      ensures Valid() && Now() == Next(old(Now()), Wrote(c, ok))
      ensures if ok then savedText == text else savedText == old(savedText) && snapshot == old(snapshot)
      ensures savedPreferencesText == old(savedPreferencesText)
      ensures next == WritePreferences <==> keeps && preferencesText != savedPreferencesText
      ensures next != WriteSnapshot && c in saves
      ensures next == NothingToWrite ==> saves[c].Over? && saves[c].ok == ok && lock == None
    {
      hide Inv;
      WroteKeeps(Now(), c, ok);
      DocsAreOk(Now());
      ghost var v := saves[c].version;
      if ok {
        savedText := text;
        snapshot := snapshot.Written(v);
      }
      next := SecondHalf(c, v, preferencesText, ok);
    }

    /** The storage has written the preferences, or raised. */
    method EndPreferencesWrite(c: nat, preferencesText: string, ok: bool)
      requires Valid() && c in saves && saves[c].WritingPreferences?
      requires saves[c].preferences < |preferences.texts| && preferencesText == preferences.texts[saves[c].preferences]
      modifies this
      ensures Valid() && Now() == Next(old(Now()), WrotePreferences(c, ok)) && snapshot == old(snapshot)
      ensures if ok then savedPreferencesText == preferencesText else preferences == old(preferences)
      ensures savedText == old(savedText) && (!ok ==> savedPreferencesText == old(savedPreferencesText))
      ensures c in saves && saves[c].Over? && saves[c].ok == (old(saves)[c].ok && ok) && lock == None
    {
      hide Inv;
      PreferencesKeep(Now(), c, ok);
      ghost var w := saves[c];
      if ok {
        savedPreferencesText := preferencesText;
        preferences := preferences.Written(w.preferences);
      }
      saves := saves[c := Over(w.version, w.preferences, w.ok && ok)];
      lock := None;
    }
  }

  lemma DocsAreOk(s: Space)
    requires Inv(s)
    ensures s.snapshot.Ok() && s.preferences.Ok() && (!s.keeps ==> s.preferences.NothingToLose())
  {
  }
}
