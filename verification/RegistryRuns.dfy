/** Over every interleaving of callers: one space per key, and what release and shutdown promise. */
module RegistryRuns {
  import opened Rules
  import opened Sets
  import opened KeyLocks
  import opened Registries

  predicate Open(w: Registry, s: nat) {
    s in w.keyOf && s !in w.ended
  }

  predicate IsLive(w: Registry, key: string, s: nat) {
    key in w.live && w.live[key] == s
  }

  predicate ClosingAt(w: Registry, c: Task, key: string) {
    Is(w, c, Closing) && KeyOf(w, c) == key
  }

  predicate ShutterReady(w: Registry, k: string)
    requires k in w.live
  {
    var c := Shutter(k);
    c in w.keys.callers && KeyOf(w, c) == k && JobOf(w, c) == Shut(w.live[k])
  }

  ghost predicate LiveOk(w: Registry) {
    && (forall k :: k in w.live ==> w.live[k] in w.keyOf && w.keyOf[w.live[k]] == k)
    && (forall s :: Open(w, s) && !w.closed ==> IsLive(w, w.keyOf[s], s))
    && (forall s, t :: Open(w, s) && Open(w, t) && w.keyOf[s] == w.keyOf[t] ==> s == t)
    && (forall s :: s in w.ended ==> s in w.keyOf)
  }

  predicate TabsOk(w: Registry) {
    && w.tabs.Keys == w.keyOf.Keys
    && (forall s :: s in w.tabs ==> |w.tabs[s]| <= MAX_TABS && (s in w.ended && w.tabs[s] != {} ==> w.gathered))
  }

  ghost predicate EndingHeld(w: Registry) {
    forall k :: k in w.live && w.live[k] in w.ended ==> exists c :: ClosingAt(w, c, k)
  }

  predicate ShutOk(w: Registry) {
    w.gathered ==> w.closed && forall k :: k in w.live ==> ShutterReady(w, k)
  }

  ghost predicate Base(w: Registry) {
    LiveOk(w) && TabsOk(w) && EndingHeld(w) && ShutOk(w)
  }

  /** What a caller's job says whatever it awaits. */
  predicate JobOk(w: Registry, c: Task)
    requires c in w.keys.callers
  {
    var key, job := KeyOf(w, c), JobOf(w, c);
    && (w.keys.callers[c].Inside? || w.keys.callers[c].work.stage == Fresh)
    && (c.Shutter? <==> job.Shut?) && (w.keys.callers[c].Queued? ==> c.Shutter?)
    && (job.Release? || job.Shut? ==> job.space in w.keyOf && w.keyOf[job.space] == key)
    && (job.Shut? ==> w.gathered && key == c.shuts && (key in w.live ==> w.live[key] == job.space))
  }

  predicate Reserved(w: Registry, key: string, s: nat) {
    IsLive(w, key, s) && s in w.tabs && w.tabs[s] == {}
  }

  predicate StageOk(w: Registry, key: string, work: Work) {
    var spaced := work.job.Release? || work.job.Shut?;
    match work.stage
    case Fresh => false
    case Loading => !spaced && key !in w.live
    case Discarding => !spaced && key !in w.live && w.closed
    case Saving => spaced && (work.job.Release? ==> Reserved(w, key, work.job.space) && work.job.space !in w.ended)
    case Closing => spaced && work.job.space in w.ended && (work.job.Release? ==> Reserved(w, key, work.job.space))
  }

  predicate CallerOk(w: Registry, c: Task)
    requires c in w.keys.callers
  {
    JobOk(w, c) && (w.keys.callers[c].Inside? ==> StageOk(w, KeyOf(w, c), w.keys.callers[c].work))
  }

  /** Everything is in order but, perhaps, what `c` awaits. */
  ghost predicate Mid(w: Registry, c: Task) {
    && Ok(w.keys) && Base(w)
    && (c in w.keys.callers ==> JobOk(w, c))
    && forall d :: d in w.keys.callers && d != c ==> CallerOk(w, d)
  }

  ghost predicate Inv(w: Registry) {
    Ok(w.keys) && Base(w) && forall c :: c in w.keys.callers ==> CallerOk(w, c)
  }

  lemma FirstIsOk()
    ensures Inv(FIRST)
  {
  }

  // ----- one caller at a time -----

  lemma CallerSame(w: Registry, t: Registry, d: Task)
    requires d in w.keys.callers && d in t.keys.callers && t.keys.callers[d] == w.keys.callers[d] && CallerOk(w, d)
    requires t == w.(keys := t.keys)
    ensures CallerOk(t, d)
  {
  }

  /** Only callers changed, and whoever closes a live space, or is to, is still there. */
  lemma BaseFramed(w: Registry, t: Registry, c: Task)
    requires Base(w) && t == w.(keys := t.keys)
    requires forall d :: d != c && d in w.keys.callers ==> d in t.keys.callers && t.keys.callers[d] == w.keys.callers[d]
    requires forall k :: ClosingAt(w, c, k) && k in w.live && w.live[k] in w.ended ==> ClosingAt(t, c, k)
    requires c.Shutter? && c.shuts in w.live && c in w.keys.callers ==>
               c in t.keys.callers && KeyOf(t, c) == KeyOf(w, c) && JobOf(t, c) == JobOf(w, c)
    ensures Base(t)
  {
    assert forall s :: Open(t, s) == Open(w, s);
    forall k | k in t.live && t.live[k] in t.ended ensures exists d :: ClosingAt(t, d, k) {
      var d :| ClosingAt(w, d, k);
      assert ClosingAt(t, d, k);
    }
    forall k | k in t.live && t.gathered ensures ShutterReady(t, k) {
      assert ShutterReady(w, k);
    }
  }

  lemma EnterStep(w: Registry, c: Task, key: string, work: Work)
    requires Inv(w) && !HasEntered(w.keys, c) && work.stage == Fresh
    requires c in w.keys.callers ==> w.keys.callers[c] == Queued(key, work)
    requires c !in w.keys.callers ==> c.Client? && !work.job.Shut?
    requires work.job.Release? ==> work.job.space in w.keyOf && w.keyOf[work.job.space] == key
    ensures Inv(w.(keys := Entered(w.keys, c, key, work)))
  {
    hide Ok, Base, StageOk;
    EnterKeeps(w.keys, c, key, work);
    var t := w.(keys := Entered(w.keys, c, key, work));
    assert c in w.keys.callers ==> CallerOk(w, c);
    BaseFramed(w, t, c);
    forall d | d in t.keys.callers ensures CallerOk(t, d) {
      if d != c { CallerSame(w, t, d); }
    }
  }

  lemma Alone(w: Registry, c: Task, d: Task)
    requires Ok(w.keys) && IsInside(w.keys, c) && IsInside(w.keys, d) && c != d
    ensures KeyOf(w, c) != KeyOf(w, d)
  {
    hide Ok;
    if KeyOf(w, c) == KeyOf(w, d) {
      OneLockPerKey(w.keys, c, d);
    }
  }

  lemma AcquireStep(w: Registry, c: Task)
    requires Inv(w) && CanAcquire(w.keys, c)
    ensures var t := w.(keys := Acquired(w.keys, c));
            Mid(t, c) && Is(t, c, Fresh) && (KeyOf(t, c) in t.live ==> t.live[KeyOf(t, c)] !in t.ended)
  {
    hide Ok, Base, StageOk;
    var t := w.(keys := Acquired(w.keys, c));
    AcquireKeeps(w.keys, c);
    assert CallerOk(w, c);
    BaseFramed(w, t, c);
    forall d | d in t.keys.callers && d != c ensures CallerOk(t, d) {
      CallerSame(w, t, d);
    }
    NotEnding(t, c);
  }

  /** While a caller is inside its key's lock and not closing anything, the key's space is not being closed. */
  lemma NotEnding(w: Registry, c: Task)
    requires Ok(w.keys) && Base(w) && IsInside(w.keys, c) && !Is(w, c, Closing)
    ensures KeyOf(w, c) in w.live ==> w.live[KeyOf(w, c)] !in w.ended
  {
    hide Ok, LiveOk, TabsOk, ShutOk;
    var key := KeyOf(w, c);
    if key in w.live && w.live[key] in w.ended {
      var d :| ClosingAt(w, d, key);
      Alone(w, c, d);
    }
  }

  lemma LeaveStep(w: Registry, c: Task)
    requires Mid(w, c) && HasEntered(w.keys, c) && (c.Shutter? ==> c.shuts !in w.live)
    requires IsInside(w.keys, c) && KeyOf(w, c) in w.live ==> w.live[KeyOf(w, c)] !in w.ended
    ensures Inv(Gone(w, c))
  {
    hide Ok, Base, CallerOk, Left;
    LeaveKeeps(w.keys, c);
    var t := Gone(w, c);
    CallersAfter(w.keys, c);
    BaseFramed(w, t, c);
    forall d | d in t.keys.callers ensures CallerOk(t, d) {
      CallerSame(w, t, d);
    }
  }

  lemma StageStep(w: Registry, c: Task, stage: Stage)
    requires Mid(w, c) && IsInside(w.keys, c) && !Is(w, c, Closing)
    requires StageOk(w, KeyOf(w, c), Work(JobOf(w, c), stage))
    ensures Inv(At(w, c, stage))
  {
    hide Ok, Base;
    WorkKeeps(w.keys, c, Work(JobOf(w, c), stage));
    var t := At(w, c, stage);
    BaseFramed(w, t, c);
    forall d | d in t.keys.callers ensures CallerOk(t, d) {
      if d != c { CallerSame(w, t, d); }
    }
  }

  // ----- what a caller changes under its lock -----

  /** The changes a caller inside its key's lock may make: to its key's entry and to one space of the key. */
  ghost predicate OnlyAt(w: Registry, t: Registry, key: string, s: nat) {
    && t.keys == w.keys && t.closed == w.closed && t.gathered == w.gathered
    && s in t.keyOf && t.keyOf[s] == key
    && (forall r :: r in w.keyOf ==> r in t.keyOf && t.keyOf[r] == w.keyOf[r])
    && (forall k :: k != key ==> (k in t.live <==> k in w.live) && (k in w.live ==> t.live[k] == w.live[k]))
    && (forall r :: r != s ==> (r in t.ended <==> r in w.ended))
    && (forall r :: r != s ==> (r in t.tabs <==> r in w.tabs) && (r in w.tabs ==> t.tabs[r] == w.tabs[r]))
  }

  lemma OthersStand(w: Registry, t: Registry, c: Task, s: nat, d: Task)
    requires Mid(w, c) && IsInside(w.keys, c) && OnlyAt(w, t, KeyOf(w, c), s)
    requires var key := KeyOf(w, c); (key in t.live ==> key in w.live && t.live[key] == w.live[key]) || !w.closed
    requires d in w.keys.callers && d != c
    ensures CallerOk(t, d)
  {
    hide Ok, TabsOk, EndingHeld, LiveOk;
    if IsInside(w.keys, d) {
      Alone(w, c, d);
    }
    assert CallerOk(w, d);
  }

  lemma EndingFramed(w: Registry, t: Registry)
    requires EndingHeld(w) && t.keys == w.keys
    requires forall k :: k in t.live && t.live[k] in t.ended ==> k in w.live && w.live[k] in w.ended
    ensures EndingHeld(t)
  {
    forall k | k in t.live && t.live[k] in t.ended ensures exists d :: ClosingAt(t, d, k) {
      var d :| ClosingAt(w, d, k);
      assert ClosingAt(t, d, k);
    }
  }

  lemma ShutFramed(w: Registry, t: Registry)
    requires ShutOk(w) && t.closed == w.closed && t.gathered == w.gathered
    requires t.keys == w.keys && forall k :: k in t.live ==> k in w.live && w.live[k] == t.live[k]
    ensures ShutOk(t)
  {
    if t.gathered {
      forall k | k in t.live ensures ShutterReady(t, k) {
        assert ShutterReady(w, k);
      }
    }
  }

  lemma LoadingIsFree(w: Registry, c: Task)
    requires Inv(w) && Is(w, c, Loading)
    ensures KeyOf(w, c) !in w.live && !JobOf(w, c).Release? && !JobOf(w, c).Shut?
  {
    hide Ok, Base;
    assert CallerOk(w, c);
  }

  lemma PublishStep(w: Registry, c: Task, s: nat)
    requires Inv(w) && Is(w, c, Loading) && s !in w.keyOf && !w.closed
    ensures var t := Published(w, KeyOf(w, c), s);
            Mid(t, c) && IsLive(t, KeyOf(w, c), s) && s !in t.ended && KeyOf(w, c) !in w.live
  {
    hide Ok, EndingHeld, ShutOk, LiveOk, TabsOk, StageOk;
    var key, t := KeyOf(w, c), Published(w, KeyOf(w, c), s);
    LoadingIsFree(w, c);
    PublishKeepsBase(w, key, s);
    assert CallerOk(w, c);
    assert s !in t.ended by { EndedWerePublished(w); }
    assert OnlyAt(w, t, key, s);
    forall d | d in t.keys.callers && d != c ensures CallerOk(t, d) {
      OthersStand(w, t, c, s, d);
    }
  }

  lemma EndedWerePublished(w: Registry)
    requires LiveOk(w)
    ensures forall s :: s in w.ended ==> s in w.keyOf
  {
  }

  lemma PublishKeepsLive(w: Registry, key: string, s: nat)
    requires LiveOk(w) && key !in w.live && s !in w.keyOf && !w.closed
    ensures LiveOk(Published(w, key, s)) && s !in w.ended
  {
    var t := Published(w, key, s);
    forall r | Open(t, r) ensures IsLive(t, t.keyOf[r], r) {
      assert r != s ==> Open(w, r);
    }
  }

  lemma PublishKeepsTabs(w: Registry, key: string, s: nat)
    requires TabsOk(w) && s !in w.ended
    ensures TabsOk(Published(w, key, s))
  {
  }

  lemma PublishKeepsBase(w: Registry, key: string, s: nat)
    requires Base(w) && key !in w.live && s !in w.keyOf && !w.closed
    ensures Base(Published(w, key, s))
  {
    hide EndingHeld, LiveOk, TabsOk;
    PublishKeepsLive(w, key, s);
    PublishKeepsTabs(w, key, s);
    EndingFramed(w, Published(w, key, s));
  }

  lemma AttachStep(w: Registry, c: Task, job: Job, s: nat)
    requires Mid(w, c) && IsInside(w.keys, c) && IsLive(w, KeyOf(w, c), s) && s !in w.ended && s in w.tabs
    ensures Mid(Attached(w, job, s), c)
  {
    hide Ok, TabsOk, EndingHeld, ShutOk, CallerOk, JobOk;
    var t := Attached(w, job, s);
    AttachKeepsBase(w, job, s);
    assert c in w.keys.callers ==> JobOk(t, c) by { JobFramed(w, t, c); }
    assert OnlyAt(w, t, KeyOf(w, c), s);
    forall d | d in t.keys.callers && d != c ensures CallerOk(t, d) {
      OthersStand(w, t, c, s, d);
    }
  }

  lemma JobFramed(w: Registry, t: Registry, c: Task)
    requires c in w.keys.callers && JobOk(w, c) && t.keys == w.keys && t.keyOf == w.keyOf && t.gathered == w.gathered
    requires forall k :: k in t.live ==> k in w.live && w.live[k] == t.live[k]
    ensures JobOk(t, c)
  {
  }

  lemma AttachKeepsBase(w: Registry, job: Job, s: nat)
    requires Base(w) && s !in w.ended && s in w.tabs
    ensures Base(Attached(w, job, s))
  {
    hide EndingHeld, ShutOk;
    var t := Attached(w, job, s);
    EndingFramed(w, t);
    ShutFramed(w, t);
    assert forall r :: Open(t, r) == Open(w, r);
    if job.Attach? {
      assert |w.tabs[s] + {job.tab}| <= |w.tabs[s]| + 1;
    }
  }

  lemma DropIsLocal(w: Registry, key: string, s: nat, tabs: map<nat, set<nat>>)
    requires s in w.keyOf && w.keyOf[s] == key && (tabs == w.tabs || (s in w.tabs && tabs == w.tabs[s := {}]))
    ensures var t := Dropped(w, key, s).(tabs := tabs);
            && OnlyAt(w, t, key, s) && t.keyOf == w.keyOf
            && forall k :: k in t.live ==> k in w.live && w.live[k] == t.live[k]
  {
  }

  /** The space leaves the registry: it has been closed, or the registry is closed. */
  lemma DropStep(w: Registry, c: Task, s: nat, tabs: map<nat, set<nat>>)
    requires Mid(w, c) && IsInside(w.keys, c) && s in w.tabs && s in w.keyOf && w.keyOf[s] == KeyOf(w, c)
    requires s in w.ended || w.closed
    requires tabs == w.tabs || tabs == w.tabs[s := {}]
    ensures Mid(Dropped(w, KeyOf(w, c), s).(tabs := tabs), c)
  {
    hide Ok, Base, CallerOk, JobOk, Dropped;
    var t := Dropped(w, KeyOf(w, c), s).(tabs := tabs);
    DropKeepsBase(w, KeyOf(w, c), s, tabs);
    DropIsLocal(w, KeyOf(w, c), s, tabs);
    JobFramed(w, t, c);
    forall d | d in t.keys.callers && d != c ensures CallerOk(t, d) {
      OthersStand(w, t, c, s, d);
    }
  }

  lemma DropKeepsBase(w: Registry, key: string, s: nat, tabs: map<nat, set<nat>>)
    requires Base(w) && s in w.tabs && s in w.keyOf && w.keyOf[s] == key && (s in w.ended || w.closed)
    requires tabs == w.tabs || tabs == w.tabs[s := {}]
    ensures Base(Dropped(w, key, s).(tabs := tabs))
  {
    hide EndingHeld, ShutOk, LiveOk, TabsOk;
    var t := Dropped(w, key, s).(tabs := tabs);
    EndingFramed(w, t);
    ShutFramed(w, t);
    DropKeepsLive(w, key, s, tabs);
    DropKeepsTabs(w, key, s, tabs);
  }

  lemma DropKeepsTabs(w: Registry, key: string, s: nat, tabs: map<nat, set<nat>>)
    requires TabsOk(w) && s in w.tabs && (tabs == w.tabs || tabs == w.tabs[s := {}])
    ensures TabsOk(Dropped(w, key, s).(tabs := tabs))
  {
  }

  lemma DropKeepsLive(w: Registry, key: string, s: nat, tabs: map<nat, set<nat>>)
    requires LiveOk(w) && s in w.keyOf && w.keyOf[s] == key && (s in w.ended || w.closed)
    ensures LiveOk(Dropped(w, key, s).(tabs := tabs))
  {
    var t := Dropped(w, key, s).(tabs := tabs);
    assert forall r :: Open(t, r) == Open(w, r);
  }

  /** The save is over and the session begins to close. */
  lemma CloseBegins(w: Registry, c: Task)
    requires Inv(w) && Is(w, c, Saving)
    ensures Inv(At(w.(ended := w.ended + {JobOf(w, c).space}), c, Closing))
  {
    hide Ok, EndingHeld, ShutOk, LiveOk;
    assert CallerOk(w, c);
    var s, key := JobOf(w, c).space, KeyOf(w, c);
    var u := w.(ended := w.ended + {s});
    var t := At(u, c, Closing);
    WorkKeeps(w.keys, c, Work(JobOf(w, c), Closing));
    CloseBeginsBase(w, c, s, t);
    assert OnlyAt(w, u, key, s);
    forall d | d in t.keys.callers && d != c ensures CallerOk(t, d) {
      OthersStand(w, u, c, s, d);
      CallerSame(u, t, d);
    }
  }

  lemma CloseBeginsBase(w: Registry, c: Task, s: nat, t: Registry)
    requires Base(w) && Is(w, c, Saving) && s in w.keyOf && w.keyOf[s] == KeyOf(w, c)
    requires s in w.tabs && (w.tabs[s] == {} || w.gathered)
    requires t == At(w.(ended := w.ended + {s}), c, Closing)
    ensures Base(t)
  {
    hide TabsOk, LiveOk;
    CloseBeginsLive(w, s, t);
    forall k | k in t.live && t.live[k] in t.ended ensures exists d :: ClosingAt(t, d, k) {
      if t.live[k] == s {
        assert w.keyOf[s] == k by { LiveHasKey(w, k); }
        assert ClosingAt(t, c, k);
      } else {
        var d :| ClosingAt(w, d, k);
        assert ClosingAt(t, d, k);
      }
    }
    if t.gathered {
      forall k | k in t.live ensures ShutterReady(t, k) {
        assert ShutterReady(w, k);
      }
    }
  }

  lemma LiveHasKey(w: Registry, k: string)
    requires LiveOk(w) && k in w.live
    ensures w.live[k] in w.keyOf && w.keyOf[w.live[k]] == k
  {
  }

  lemma CloseBeginsLive(w: Registry, s: nat, t: Registry)
    requires LiveOk(w) && TabsOk(w) && s in w.keyOf && s in w.tabs && (w.tabs[s] == {} || w.gathered)
    requires t == w.(ended := w.ended + {s}, keys := t.keys)
    ensures LiveOk(t) && TabsOk(t)
  {
    assert forall r :: Open(t, r) ==> Open(w, r);
  }

  // ----- every step -----

  lemma LiveIsPublished(w: Registry, key: string)
    requires LiveOk(w) && TabsOk(w) && key in w.live
    ensures w.live[key] in w.keyOf && w.keyOf[w.live[key]] == key && w.live[key] in w.tabs
  {
  }

  lemma RanStep(w: Registry, c: Task, idle: bool)
    requires Mid(w, c) && Is(w, c, Fresh) && (KeyOf(w, c) in w.live ==> w.live[KeyOf(w, c)] !in w.ended)
    ensures Inv(Ran(w, c, idle))
  {
    hide Ok, Base, EndingHeld, LiveOk, TabsOk, ShutOk, Gone, Attached, At, CallerOk;
    var key := KeyOf(w, c);
    if key in w.live {
      assert LiveOk(w) && TabsOk(w) by { BaseParts(w); }
      LiveIsPublished(w, key);
    }
    match JobOf(w, c) {
      case Release(s) =>
        if key !in w.live || w.live[key] != s || !NoTabs(w, s) || !idle {
          LeaveStep(w, c);
        } else {
          StageStep(w, c, Saving);
        }
      case Shut(_) => StageStep(w, c, Saving);
      case _ =>
        if key in w.live {
          AttachStep(w, c, JobOf(w, c), w.live[key]);
          AttachedChangesTabs(w, JobOf(w, c), w.live[key]);
          LeaveStep(Attached(w, JobOf(w, c), w.live[key]), c);
        } else if w.closed {
          LeaveStep(w, c);
        } else {
          StageStep(w, c, Loading);
        }
    }
  }

  lemma BaseParts(w: Registry)
    requires Base(w)
    ensures LiveOk(w) && TabsOk(w)
  {
  }

  lemma AttachedChangesTabs(w: Registry, job: Job, s: nat)
    requires s in w.tabs
    ensures Attached(w, job, s) == w.(tabs := Attached(w, job, s).tabs)
  {
  }

  lemma InvIsMid(w: Registry, c: Task)
    requires Inv(w)
    ensures Mid(w, c) && (c in w.keys.callers ==> CallerOk(w, c))
  {
    hide Ok, Base, StageOk;
    assert c in w.keys.callers ==> CallerOk(w, c);
  }

  lemma CreateStep(w: Registry, c: Task, made: Option<nat>)
    requires Inv(w) && Is(w, c, Loading)
    ensures Inv(CreateOver(w, c, made))
  {
    hide Ok, Base, Gone, Attached, Published, At, Inv, Mid;
    InvIsMid(w, c);
    LoadingIsFree(w, c);
    if made.None? || made.value in w.keyOf {
      LeaveStep(w, c);
    } else if w.closed {
      StageStep(w, c, Discarding);
    } else {
      var s := made.value;
      var t := Published(w, KeyOf(w, c), s);
      PublishStep(w, c, s);
      assert t.keys == w.keys && s in t.tabs by { PublishedHasTabs(w, KeyOf(w, c), s); }
      AttachStep(t, c, JobOf(w, c), s);
      AttachedChangesTabs(t, JobOf(w, c), s);
      LeaveStep(Attached(t, JobOf(w, c), s), c);
    }
  }

  lemma PublishedHasTabs(w: Registry, key: string, s: nat)
    ensures Published(w, key, s).keys == w.keys && s in Published(w, key, s).tabs
  {
  }

  lemma SaveStep(w: Registry, c: Task, save: Save)
    requires Inv(w) && Is(w, c, Saving)
    ensures Inv(SaveOver(w, c, save))
  {
    hide Ok, Base, Gone, Dropped, At, Inv, Mid;
    InvIsMid(w, c);
    CloseBegins(w, c);
    var s, key := JobOf(w, c).space, KeyOf(w, c);
    if JobOf(w, c).Release? && save != Stored {
      NotEndingNow(w, c);
      LeaveStep(w, c);
    } else if JobOf(w, c).Shut? && save == Raised {
      ShutIsClosed(w, c);
      DropStep(w, c, s, w.tabs);
      DroppedIsGone(w, key, s, w.tabs);
      LeaveStep(Dropped(w, key, s), c);
    }
  }

  lemma NotEndingNow(w: Registry, c: Task)
    requires Mid(w, c) && IsInside(w.keys, c) && !Is(w, c, Closing)
    ensures KeyOf(w, c) in w.live ==> w.live[KeyOf(w, c)] !in w.ended
  {
    hide Ok, Base;
    NotEnding(w, c);
  }

  lemma ShutIsClosed(w: Registry, c: Task)
    requires Mid(w, c) && c in w.keys.callers && JobOf(w, c).Shut?
    ensures w.closed && JobOf(w, c).space in w.tabs
  {
    hide Ok, LiveOk, EndingHeld;
  }

  lemma DroppedIsGone(w: Registry, key: string, s: nat, tabs: map<nat, set<nat>>)
    requires key in w.live ==> w.live[key] == s
    ensures key !in Dropped(w, key, s).(tabs := tabs).live
    ensures Dropped(w, key, s).keys == w.keys && Dropped(w, key, s).(tabs := w.tabs) == Dropped(w, key, s)
  {
  }

  lemma CloseStep(w: Registry, c: Task, clean: bool)
    requires Inv(w) && Is(w, c, Closing)
    ensures Inv(CloseOver(w, c, clean))
  {
    hide Ok, Base, Gone, Inv, Mid;
    InvIsMid(w, c);
    var s, key := JobOf(w, c).space, KeyOf(w, c);
    assert s in w.tabs by { PublishedHaveTabs(w, c, s); }
    var tabs := if clean then w.tabs[s := {}] else w.tabs;
    DropStep(w, c, s, tabs);
    DroppedIsGone(w, key, s, tabs);
    LeaveStep(Dropped(w, key, s).(tabs := tabs), c);
  }

  lemma PublishedHaveTabs(w: Registry, c: Task, s: nat)
    requires Mid(w, c) && s in w.keyOf
    ensures s in w.tabs
  {
    hide Ok, LiveOk, EndingHeld, ShutOk, CallerOk;
  }

  lemma GatherKeepsBase(w: Registry)
    requires Base(w) && w.closed && !w.gathered
    requires forall d :: d in w.keys.callers ==> d.Client?
    ensures Base(Gathered(w))
  {
    hide LiveOk, TabsOk;
    var t := Gathered(w);
    forall k | k in t.live && t.live[k] in t.ended ensures exists d :: ClosingAt(t, d, k) {
      var d :| ClosingAt(w, d, k);
      assert ClosingAt(t, d, k);
    }
    GatherKeepsSpaces(w, t);
  }

  lemma GatherKeepsSpaces(w: Registry, t: Registry)
    requires LiveOk(w) && TabsOk(w) && t == w.(gathered := true, keys := t.keys)
    ensures LiveOk(t) && TabsOk(t)
  {
    assert forall r :: Open(t, r) == Open(w, r);
  }

  lemma ShuttersAreQueued(w: Registry)
    ensures forall c :: c in Shutters(w) <==> c.Shutter? && c.shuts in w.live
    ensures forall c :: c in Shutters(w) ==> Shutters(w)[c] == Queued(c.shuts, Work(Shut(w.live[c.shuts]), Fresh))
  {
  }

  lemma ShuttersAreOk(w: Registry, t: Registry, c: Task)
    requires LiveOk(w) && c in Shutters(w) && c in t.keys.callers && t.keys.callers[c] == Shutters(w)[c]
    requires t == w.(gathered := true, keys := t.keys)
    ensures CallerOk(t, c)
  {
    ShuttersAreQueued(w);
    LiveHasKey(w, c.shuts);
  }

  lemma GatherStep(w: Registry)
    requires Inv(w) && w.closed && !w.gathered
    ensures Inv(Gathered(w))
  {
    hide Ok, StageOk, Base, Shutters;
    var t := Gathered(w);
    ShuttersAreQueued(w);
    forall d | d in w.keys.callers ensures d.Client? {
      assert CallerOk(w, d);
    }
    QueueKeeps(w.keys, Shutters(w));
    GatherKeepsBase(w);
    BaseParts(w);
    forall d | d in t.keys.callers ensures CallerOk(t, d) {
      if d in w.keys.callers {
        assert CallerOk(w, d);
        StageFramed(w, t, KeyOf(w, d), w.keys.callers[d].work);
      } else {
        ShuttersAreOk(w, t, d);
      }
    }
  }

  lemma StageFramed(w: Registry, t: Registry, key: string, work: Work)
    requires t.live == w.live && t.ended == w.ended && (w.closed ==> t.closed)
    requires forall s :: s in w.tabs ==> s in t.tabs && t.tabs[s] <= w.tabs[s]
    ensures StageOk(w, key, work) ==> StageOk(t, key, work)
  {
  }

  lemma DetachKeepsBase(w: Registry, s: nat, tab: nat)
    requires Base(w) && s in w.tabs
    ensures Base(w.(tabs := w.tabs[s := w.tabs[s] - {tab}]))
  {
    hide EndingHeld, ShutOk;
    var t := w.(tabs := w.tabs[s := w.tabs[s] - {tab}]);
    EndingFramed(w, t);
    ShutFramed(w, t);
    assert forall r :: Open(t, r) == Open(w, r);
    SubsetSize(w.tabs[s] - {tab}, w.tabs[s]);
  }

  lemma DetachStep(w: Registry, s: nat, tab: nat)
    requires Inv(w) && s in w.tabs
    ensures Inv(w.(tabs := w.tabs[s := w.tabs[s] - {tab}]))
  {
    hide Ok, StageOk, Base;
    var t := w.(tabs := w.tabs[s := w.tabs[s] - {tab}]);
    DetachKeepsBase(w, s, tab);
    forall d | d in t.keys.callers ensures CallerOk(t, d) {
      assert CallerOk(w, d);
      StageFramed(w, t, KeyOf(w, d), w.keys.callers[d].work);
    }
  }

  lemma AcloseStep(w: Registry)
    requires Inv(w)
    ensures Inv(w.(closed := true))
  {
    hide Ok, StageOk, EndingHeld;
    var t := w.(closed := true);
    EndingFramed(w, t);
    assert forall r :: Open(t, r) == Open(w, r);
    assert t.gathered ==> forall k :: k in t.live ==> ShutterReady(w, k) && ShutterReady(t, k);
    forall d | d in t.keys.callers ensures CallerOk(t, d) {
      assert CallerOk(w, d);
      StageFramed(w, t, KeyOf(w, d), w.keys.callers[d].work);
    }
  }

  lemma CallStep(w: Registry, e: Event)
    requires Inv(w) && (e.Call? || e.Start? || e.GiveUp? || e.Discarded?)
    ensures Inv(Next(w, e))
  {
    hide Ok, Base, StageOk, Gone, Inv, Mid;
    InvIsMid(w, e.c);
    match e {
      case Call(c, job, key) =>
        if c.Client? && c !in w.keys.callers && !job.Shut?
           && (job.Release? ==> job.space in w.keyOf && w.keyOf[job.space] == key) {
          EnterStep(w, c, key, Work(job, Fresh));
        }
      case Start(c) =>
        if c in w.keys.callers && w.keys.callers[c].Queued? {
          EnterStep(w, c, KeyOf(w, c), w.keys.callers[c].work);
        }
      case GiveUp(c) =>
        if HasEntered(w.keys, c) && !IsInside(w.keys, c) && !c.Shutter? { LeaveStep(w, c); }
      case Discarded(c) =>
        if Is(w, c, Discarding) { DiscardStep(w, c); }
    }
  }

  lemma DiscardStep(w: Registry, c: Task)
    requires Inv(w) && Is(w, c, Discarding)
    ensures Inv(Gone(w, c))
  {
    hide Ok, Base, Gone, Inv, Mid;
    InvIsMid(w, c);
    LeaveStep(w, c);
  }

  /** Every stretch of every caller keeps the invariant. */
  lemma StepKeeps(w: Registry, e: Event)
    requires Inv(w)
    ensures Inv(Next(w, e))
  {
    hide Inv, Mid, Ran, CreateOver, SaveOver, CloseOver, Gathered, Acquired, CanAcquire;
    match e {
      case Acquire(c, idle) =>
        if CanAcquire(w.keys, c) {
          AcquireStep(w, c);
          RanStep(w.(keys := Acquired(w.keys, c)), c, idle);
        }
      case Created(c, made) =>
        if Is(w, c, Loading) { CreateStep(w, c, made); }
      case Saved(c, save) =>
        if Is(w, c, Saving) { SaveStep(w, c, save); }
      case Closed(c, clean) =>
        if Is(w, c, Closing) { CloseStep(w, c, clean); }
      case Gather =>
        if w.closed && !w.gathered { GatherStep(w); }
      case Detach(s, tab) =>
        if s in w.tabs { DetachStep(w, s, tab); }
      case Aclose => AcloseStep(w);
      case _ => CallStep(w, e);
    }
  }

  // ----- what it means -----

  ghost function Run(w: Registry, es: seq<Event>): (t: Registry)
    requires Inv(w)
    ensures Inv(t)
    decreases |es|
  {
    if es == [] then w
    else
      StepKeeps(w, es[0]);
      Run(Next(w, es[0]), es[1..])
  }

  /** Two spaces of one key are never both open, and while the registry is open an open space is the live one. */
  lemma OneOpenSpacePerKey(w: Registry, s: nat, t: nat)
    requires Inv(w) && Open(w, s) && Open(w, t) && w.keyOf[s] == w.keyOf[t]
    ensures s == t && (!w.closed ==> IsLive(w, w.keyOf[s], s))
  {
    hide Ok, CallerOk, TabsOk;
  }

  /** Whoever creates a key's space finds the key free, and finds it still free when the space is ready. */
  lemma CreationIsExclusive(w: Registry, c: Task, d: Task)
    requires Inv(w) && Is(w, c, Loading)
    ensures KeyOf(w, c) !in w.live
    ensures Is(w, d, Loading) && KeyOf(w, d) == KeyOf(w, c) ==> c == d
  {
    hide Ok, Base;
    LoadingIsFree(w, c);
    if Is(w, d, Loading) && d != c {
      Alone(w, c, d);
    }
  }

  /** Until shutdown lists the live spaces, a space with a tab is open and live: release never closes it. */
  lemma TabsAreOnOpenSpaces(w: Registry, s: nat)
    requires Inv(w) && s in w.tabs && w.tabs[s] != {} && !w.closed
    ensures Open(w, s) && IsLive(w, w.keyOf[s], s)
  {
    hide Ok, CallerOk;
  }

  lemma RanChangesTabsOnly(w: Registry, c: Task, idle: bool)
    requires IsInside(w.keys, c)
    ensures var t := Ran(w, c, idle);
            t == w.(keys := t.keys, tabs := t.tabs)
  {
    hide Left, Working;
  }

  lemma CreateChanges(w: Registry, c: Task, made: Option<nat>)
    requires Is(w, c, Loading)
    ensures var t := CreateOver(w, c, made);
            t.ended == w.ended && t.closed == w.closed && (w.closed ==> t.live == w.live && t.keyOf == w.keyOf)
  {
    hide Left, Working;
  }

  lemma DroppedOnlyDrops(w: Registry, key: string, s: nat)
    ensures Dropped(w, key, s) == w.(live := Dropped(w, key, s).live) && Dropped(w, key, s).live.Keys <= w.live.Keys
  {
  }

  lemma SaveChanges(w: Registry, c: Task, save: Save)
    requires Is(w, c, Saving)
    ensures var t, job := SaveOver(w, c, save), JobOf(w, c);
            && t.closed == w.closed && t.live.Keys <= w.live.Keys && t.keyOf == w.keyOf
            && (t.ended != w.ended ==>
                  (job.Shut? || (job.Release? && save == Stored)) && t.ended == w.ended + {job.space})
  {
    hide Left, Working, Dropped;
    if JobOf(w, c).Shut? { DroppedOnlyDrops(w, KeyOf(w, c), JobOf(w, c).space); }
  }

  lemma CloseChanges(w: Registry, c: Task, clean: bool)
    requires Is(w, c, Closing)
    ensures var t := CloseOver(w, c, clean);
            t.ended == w.ended && t.closed == w.closed && t.live.Keys <= w.live.Keys && t.keyOf == w.keyOf
  {
    hide Left, Working, Dropped;
    if JobOf(w, c).Shut? { DroppedOnlyDrops(w, KeyOf(w, c), JobOf(w, c).space); }
  }

  lemma StepChanges(w: Registry, e: Event)
    ensures var t := Next(w, e);
            && (w.closed ==> t.closed && t.live.Keys <= w.live.Keys && t.keyOf == w.keyOf)
            && (t.ended != w.ended ==>
                  && e.Saved? && Is(w, e.c, Saving)
                  && (JobOf(w, e.c).Shut? || (JobOf(w, e.c).Release? && e.save == Stored))
                  && t.ended == w.ended + {JobOf(w, e.c).space})
  {
    hide Left, Working, Entered, Acquired, Ran, CreateOver, SaveOver, CloseOver, Shutters;
    match e {
      case Acquire(c, idle) =>
        if CanAcquire(w.keys, c) {
          AcquiredIsInside(w.keys, c);
          RanChangesTabsOnly(w.(keys := Acquired(w.keys, c)), c, idle);
        }
      case Created(c, made) =>
        if Is(w, c, Loading) { CreateChanges(w, c, made); }
      case Saved(c, save) =>
        if Is(w, c, Saving) { SaveChanges(w, c, save); }
      case Closed(c, clean) =>
        if Is(w, c, Closing) { CloseChanges(w, c, clean); }
      case _ =>
    }
  }

  lemma AcquiredIsInside(q: Keyed<Work>, c: Task)
    requires CanAcquire(q, c)
    ensures IsInside(Acquired(q, c), c)
  {
  }

  /** A space begins to close only in shutdown, or in a release whose save stored everything and that found,
      at that moment, no tab attached. */
  lemma ReleaseOnlyWhenSafe(w: Registry, e: Event, s: nat)
    requires Inv(w) && s !in w.ended && s in Next(w, e).ended
    ensures e.Saved? && e.c in w.keys.callers
    ensures || JobOf(w, e.c) == Shut(s)
            || (JobOf(w, e.c) == Release(s) && e.save == Stored && s in w.tabs && w.tabs[s] == {})
    ensures !w.gathered ==> JobOf(w, e.c) == Release(s)
  {
    hide Ok, Base, Next;
    StepChanges(w, e);
    assert CallerOk(w, e.c);
  }

  /** A key is published only while the registry is open; afterwards the live spaces only go. */
  lemma ClosedPublishesNothing(w: Registry, e: Event)
    requires Inv(w) && w.closed
    ensures Next(w, e).closed && Next(w, e).live.Keys <= w.live.Keys && Next(w, e).keyOf == w.keyOf
  {
    hide Inv, Next;
    StepChanges(w, e);
  }

  /** When every task that shutdown started is over, nothing is live. */
  lemma NothingLiveAfterShutdown(w: Registry)
    requires Inv(w) && w.gathered && forall c :: c in w.keys.callers ==> !c.Shutter?
    ensures w.live == map[]
  {
    hide Ok, CallerOk, LiveOk, TabsOk, EndingHeld;
    assert forall k :: k in w.live ==> ShutterReady(w, k);
  }

  /** And nothing becomes live again. */
  lemma {:induction false} NothingLiveEverAfter(w: Registry, es: seq<Event>)
    requires Inv(w) && w.closed && w.live == map[]
    ensures Run(w, es).live == map[]
    decreases |es|
  {
    hide Inv, Next;
    if es != [] {
      StepKeeps(w, es[0]);
      ClosedPublishesNothing(w, es[0]);
      NothingLiveEverAfter(Next(w, es[0]), es[1..]);
    }
  }

  /** With no caller left the lock table is empty. */
  lemma NoCallersNoLocks(w: Registry)
    requires Inv(w) && w.keys.callers == map[]
    ensures w.keys.locks == map[]
  {
    hide Ok, Base, CallerOk;
    forall k ensures k !in w.keys.locks {
      TableIsTight(w.keys, k);
    }
  }
}
