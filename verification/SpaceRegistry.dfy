/** The registry object: its methods change the tables in place, and each stretch of them is proved to be one
    event of the registry's model. Where a caller waits is kept by the event loop, not by a field. */
module SpaceRegistries {
  import opened Rules
  import opened KeyLocks
  import opened Registries
  import opened RegistryRuns

  class SpaceRegistry {
    var live: map<string, nat>
    var locks: map<string, nat>
    var users: map<nat, int>
    var nextEntry: nat
    var closed: bool
    var tabs: map<nat, set<nat>>
    ghost var holder: map<nat, Task>
    ghost var callers: map<Task, Phase<Work>>
    ghost var keyOf: map<nat, string>
    ghost var ended: set<nat>
    ghost var gathered: bool

    ghost function Keys(): Keyed<Work>
      reads this
    {
      Keyed(locks, users, holder, nextEntry, callers)
    }

    ghost function Now(): Registry
      reads this
    {
      Registry(live, Keys(), closed, keyOf, ended, tabs, gathered)
    }

    ghost predicate Valid()
      reads this
    {
      Inv(Now())
    }

    constructor ()
      ensures Valid() && Now() == FIRST
    {
      live, locks, users, nextEntry, closed, tabs := map[], map[], map[], 0, false, map[];
      holder, callers, keyOf, ended, gathered := map[], map[], map[], {}, false;
    }

    /** Take or make the key's entry and count the caller in. */
    method EnterKeyed(c: Task, key: string, ghost work: Work)
      modifies `locks, `users, `nextEntry, `callers
      ensures Now() == old(Now()).(keys := Entered(old(Keys()), c, key, work))
    {
      var e := nextEntry;
      if key in locks {
        e := locks[key];
      } else {
        nextEntry := nextEntry + 1;
        locks := locks[key := e];
        users := users[e := 0];
      }
      users := users[e := (if e in users then users[e] else 0) + 1];
      callers := callers[c := Waiting(key, e, work)];
      assert old(users)[e := 0][e := 1] == old(users)[e := 1];
    }

    /** Let go of the lock, count the caller out, and drop the entry with its last user. */
    method LeaveKeyed(c: Task, key: string, e: nat)
      requires HasEntered(Keys(), c) && callers[c].key == key && callers[c].entry == e && e in users
      modifies `locks, `users, `holder, `callers
      ensures Now() == Gone(old(Now()), c) && c !in callers
    {
      if callers[c].Inside? {
        holder := holder - {e};
      }
      callers := callers - {c};
      var n := users[e] - 1;
      if n == 0 && key in locks && locks[key] == e {
        locks := locks - {key};
        users := users - {e};
      } else {
        users := users[e := n];
      }
    }

    ghost method TakeLock(c: Task)
      requires CanAcquire(Keys(), c)
      modifies `holder, `callers
      ensures Now() == old(Now()).(keys := Acquired(old(Keys()), c))
    {
      var p := callers[c];
      holder := holder[p.entry := c];
      callers := callers[c := Inside(p.key, p.entry, p.work)];
    }

    ghost method Await(c: Task, stage: Stage)
      requires IsInside(Keys(), c)
      modifies `callers
      ensures Now() == At(old(Now()), c, stage) && Is(Now(), c, stage)
    {
      var p := callers[c];
      callers := callers[c := Inside(p.key, p.entry, Work(p.work.job, stage))];
    }

    /** Attach a tab to a live space below its cap. */
    method AddTab(s: nat, tab: nat) returns (ok: bool)
      requires s in tabs
      modifies `tabs
      ensures Now() == Attached(old(Now()), Attach(tab), s) && ok == (|old(tabs)[s]| < MAX_TABS)
      ensures tabs == if ok then old(tabs)[s := old(tabs)[s] + {tab}] else old(tabs)
    {
      ok := |tabs[s]| < MAX_TABS;
      if ok {
        tabs := tabs[s := tabs[s] + {tab}];
      }
    }

    /** A tab's request has its key's lock: attach it, fail, or go and create the space. */
    method BeginAttach(c: Task, key: string, e: nat, tab: nat)
      requires Valid() && CanAcquire(Keys(), c) && callers[c].key == key && callers[c].entry == e
      requires callers[c].work.job == Attach(tab)
      modifies this
      ensures Valid() && Now() == Next(old(Now()), Acquire(c, true)) && live == old(live) && closed == old(closed)
      ensures key in live ==>
                && live[key] in old(tabs) && c !in callers
                && tabs == if |old(tabs)[live[key]]| < 32
                           then old(tabs)[live[key] := old(tabs)[live[key]] + {tab}] else old(tabs)
      ensures key !in live ==> tabs == old(tabs) && if closed then c !in callers else Is(Now(), c, Loading)
    {
      hide Inv, Entered, Left, Acquired, Working, Gone, At, Attached;
      StepKeeps(Now(), Acquire(c, true));
      EntryIsCounted(Now(), c);
      AcquiredIs(Keys(), c);
      LiveHasTabs(Now(), key);
      TakeLock(c);
      if key in live {
        var ok := AddTab(live[key], tab);
        AttachedChangesTabs(old(Now()).(keys := Keys()), Attach(tab), live[key]);
        LeaveKeyed(c, key, e);
      } else if closed {
        LeaveKeyed(c, key, e);
      } else {
        Await(c, Loading);
      }
    }

    /** The sweep has the key's lock: it saves the space only if it is still live and idle. */
    method BeginRelease(c: Task, key: string, e: nat, s: nat, idle: bool) returns (saving: bool)
      requires Valid() && CanAcquire(Keys(), c) && callers[c].key == key && callers[c].entry == e
      requires callers[c].work.job == Release(s)
      modifies this
      ensures Valid() && Now() == Next(old(Now()), Acquire(c, idle))
      ensures saving <==> key in live && live[key] == s && (s in tabs ==> tabs[s] == {}) && idle
      ensures live == old(live) && tabs == old(tabs) && if saving then Is(Now(), c, Saving) else c !in callers
    {
      hide Inv, Entered, Left, Acquired, Working, Gone, At;
      StepKeeps(Now(), Acquire(c, idle));
      EntryIsCounted(Now(), c);
      AcquiredIs(Keys(), c);
      TakeLock(c);
      if key !in live || live[key] != s || (s in tabs && tabs[s] != {}) || !idle {
        LeaveKeyed(c, key, e);
        return false;
      }
      Await(c, Saving);
      saving := true;
    }

    /** The release's save is over. */
    method EndReleaseSave(c: Task, key: string, e: nat, s: nat, save: Save)
      requires Valid() && Is(Now(), c, Saving) && callers[c].key == key && callers[c].entry == e
      requires callers[c].work.job == Release(s)
      modifies this
      ensures Valid() && Now() == Next(old(Now()), Saved(c, save)) && live == old(live) && tabs == old(tabs)
      ensures Reserved(Now(), key, s) && (save != Stored ==> ended == old(ended))
    {
      hide Inv, Entered, Left, Acquired, Working, Gone, At, Reserved;
      SaveKeepsReserved(Now(), c, save);
      GoneKeepsLive(Now(), c);
      StepKeeps(Now(), Saved(c, save));
      EntryIsCounted(Now(), c);
      if save != Stored {
        LeaveKeyed(c, key, e);
        return;
      }
      ended := ended + {s};
      Await(c, Closing);
    }

    /** The released space is closed, however its close ended: the key is free again. */
    method EndRelease(c: Task, key: string, e: nat, s: nat, clean: bool)
      requires Valid() && Is(Now(), c, Closing) && callers[c].key == key && callers[c].entry == e
      requires callers[c].work.job == Release(s)
      modifies this
      ensures Valid() && Now() == Next(old(Now()), Closed(c, clean)) && key !in live
    {
      hide Inv, Entered, Left, Acquired, Working, Gone;
      StepKeeps(Now(), Closed(c, clean));
      EntryIsCounted(Now(), c);
      if clean {
        tabs := tabs[s := {}];
      }
      live := live - {key};
      GoneKeepsLive(Now(), c);
      LeaveKeyed(c, key, e);
    }

    /** A space is made, or making it failed: publish it unless the registry has closed meanwhile. */
    method EndCreate(c: Task, key: string, e: nat, tab: nat, made: Option<nat>)
      requires Valid() && Is(Now(), c, Loading) && callers[c].key == key && callers[c].entry == e
      requires callers[c].work.job == Attach(tab) && (made.Some? ==> made.value !in keyOf)
      modifies this
      ensures Valid() && Now() == Next(old(Now()), Created(c, made)) && key !in old(live)
      ensures closed || made.None? ==> live == old(live) && tabs == old(tabs)
      ensures !closed && made.Some? ==> live == old(live)[key := made.value] && tabs == old(tabs)[made.value := {tab}]
    {
      hide Inv, Entered, Left, Acquired, Working, Gone, At, Attached, CreateOver, Next;
      StepKeeps(Now(), Created(c, made));
      CreateOverIs(Now(), c, made);
      EntryIsCounted(Now(), c);
      if made.None? {
        LeaveKeyed(c, key, e);
        return;
      }
      if closed {
        Await(c, Discarding);
        return;
      }
      var s := made.value;
      live := live[key := s];
      keyOf := keyOf[s := key];
      tabs := tabs[s := {}];
      AttachedChangesTabs(Now(), Attach(tab), s);
      var ok := AddTab(s, tab);
      LeaveKeyed(c, key, e);
    }

    /** Shutdown up to its first await. */
    method BeginClose()
      requires Valid()
      modifies this
      ensures Valid() && Now() == Next(old(Now()), Aclose) && closed
    {
      hide Inv;
      StepKeeps(Now(), Aclose);
      closed := true;
    }
  }

  /** While a release saves, its space stays live and without tabs, and so it is when the save is over. */
  lemma SaveKeepsReserved(w: Registry, c: Task, save: Save)
    requires Inv(w) && Is(w, c, Saving) && JobOf(w, c).Release?
    ensures Reserved(w, KeyOf(w, c), JobOf(w, c).space)
    ensures Reserved(Next(w, Saved(c, save)), KeyOf(w, c), JobOf(w, c).space)
  {
    hide Ok, Base, Left, Working;
    assert CallerOk(w, c);
  }

  /** A space is published, and given its tab, exactly when one was made and the registry is still open. */
  lemma CreateOverIs(w: Registry, c: Task, made: Option<nat>)
    requires Inv(w) && Is(w, c, Loading) && JobOf(w, c).Attach? && (made.Some? ==> made.value !in w.keyOf)
    ensures KeyOf(w, c) !in w.live
    ensures var t := CreateOver(w, c, made);
            if w.closed || made.None? then t.live == w.live && t.tabs == w.tabs
            else t.live == w.live[KeyOf(w, c) := made.value] && t.tabs == w.tabs[made.value := {JobOf(w, c).tab}]
    ensures Next(w, Created(c, made)) == CreateOver(w, c, made)
    ensures CreateOver(w, c, made)
         == if made.None? then Gone(w, c)
            else if w.closed then At(w, c, Discarding)
            else Gone(Attached(Published(w, KeyOf(w, c), made.value), JobOf(w, c), made.value), c)
  {
    hide Inv, Left, Working;
    LoadingIsFree(w, c);
    assert {} + {JobOf(w, c).tab} == {JobOf(w, c).tab};
  }

  lemma EntryIsCounted(w: Registry, c: Task)
    requires Inv(w) && HasEntered(w.keys, c)
    ensures w.keys.callers[c].entry in w.keys.users
  {
    CallerIsTied(w.keys, c);
    assert Counted(w.keys, KeyOf(w, c));
  }

  lemma AcquiredIs(q: Keyed<Work>, c: Task)
    requires CanAcquire(q, c)
    ensures var p, t := q.callers[c], Acquired(q, c);
            IsInside(t, c) && t.callers[c] == Inside(p.key, p.entry, p.work) && t.users == q.users
  {
  }

  lemma LiveHasTabs(w: Registry, key: string)
    requires Inv(w)
    ensures key in w.live ==> w.live[key] in w.tabs
  {
    hide Ok, CallerOk;
  }

  lemma GoneKeepsLive(w: Registry, c: Task)
    requires HasEntered(w.keys, c)
    ensures Gone(w, c).live == w.live
  {
  }
}
