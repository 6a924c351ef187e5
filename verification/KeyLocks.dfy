/** One lock per key, shared by every caller of the key and dropped with its last one. A caller is counted
    from before it waits until after it has let go, so the table never grows with every key ever used. */
module KeyLocks {
  import opened Sets

  /** A request or sweep, or the coroutine with which shutdown closes a key's space. */
  datatype Task = Client(id: nat) | Shutter(shuts: string)

  datatype Phase<Work> =
    | Queued(key: string, work: Work)
    | Waiting(key: string, entry: nat, work: Work)
    | Inside(key: string, entry: nat, work: Work)

  /** The table, each entry's count of holders and waiters, who holds each entry's lock, and every caller. */
  datatype Keyed<Work> = Keyed(locks: map<string, nat>, users: map<nat, int>, holder: map<nat, Task>,
                               nextEntry: nat, callers: map<Task, Phase<Work>>)

  predicate Refers<Work>(p: Phase<Work>, entry: nat) {
    !p.Queued? && p.entry == entry
  }

  /** The callers that hold an entry's lock or wait for it. */
  function Users<Work>(callers: map<Task, Phase<Work>>, entry: nat): set<Task> {
    set c | c in callers && Refers(callers[c], entry)
  }

  function Count<Work>(q: Keyed<Work>, entry: nat): int {
    if entry in q.users then q.users[entry] else 0
  }

  /** Count the caller in, with an entry of its own if the key has none. */
  function Entered<Work>(q: Keyed<Work>, c: Task, key: string, work: Work): Keyed<Work> {
    if key in q.locks then
      var e := q.locks[key];
      q.(users := q.users[e := Count(q, e) + 1], callers := q.callers[c := Waiting(key, e, work)])
    else
      q.(locks := q.locks[key := q.nextEntry], users := q.users[q.nextEntry := 1], nextEntry := q.nextEntry + 1,
         callers := q.callers[c := Waiting(key, q.nextEntry, work)])
  }

  predicate CanAcquire<Work>(q: Keyed<Work>, c: Task) {
    c in q.callers && q.callers[c].Waiting? && q.callers[c].entry !in q.holder
  }

  function Acquired<Work>(q: Keyed<Work>, c: Task): Keyed<Work>
    requires CanAcquire(q, c)
  {
    var p := q.callers[c];
    q.(holder := q.holder[p.entry := c], callers := q.callers[c := Inside(p.key, p.entry, p.work)])
  }

  predicate IsInside<Work>(q: Keyed<Work>, c: Task) {
    c in q.callers && q.callers[c].Inside?
  }

  function Working<Work>(q: Keyed<Work>, c: Task, work: Work): Keyed<Work>
    requires IsInside(q, c)
  {
    q.(callers := q.callers[c := q.callers[c].(work := work)])
  }

  predicate HasEntered<Work>(q: Keyed<Work>, c: Task) {
    c in q.callers && !q.callers[c].Queued?
  }

  /** Let go of the lock if it is held and count the caller out; the last one drops the entry. */
  function Left<Work>(q: Keyed<Work>, c: Task): Keyed<Work>
    requires HasEntered(q, c)
  {
    var p := q.callers[c];
    var e := p.entry;
    var n := Count(q, e) - 1;
    var holder := if p.Inside? then q.holder - {e} else q.holder;
    if n == 0 && p.key in q.locks && q.locks[p.key] == e
    then q.(locks := q.locks - {p.key}, users := q.users - {e}, holder := holder, callers := q.callers - {c})
    else q.(users := q.users[e := n], holder := holder, callers := q.callers - {c})
  }

  // ----- the invariant -----

  predicate Tied<Work>(q: Keyed<Work>, p: Phase<Work>) {
    p.Queued? || (p.key in q.locks && q.locks[p.key] == p.entry)
  }

  /** The table's entry for a key counts its users, and no other key shares it. */
  predicate Counted<Work>(q: Keyed<Work>, k: string)
    requires k in q.locks
  {
    var e := q.locks[k];
    e < q.nextEntry && e in q.users && q.users[e] == |Users(q.callers, e)| && q.users[e] > 0
  }

  predicate Holds<Work>(q: Keyed<Work>, c: Task) {
    IsInside(q, c) && q.callers[c].entry in q.holder && q.holder[q.callers[c].entry] == c
  }

  predicate Separate<Work>(q: Keyed<Work>) {
    forall k, l :: k in q.locks && l in q.locks && q.locks[k] == q.locks[l] ==> k == l
  }

  predicate HoldersOk<Work>(q: Keyed<Work>) {
    && (forall c :: c in q.callers && q.callers[c].Inside? ==> Holds(q, c))
    && (forall e :: e in q.holder ==> Holds(q, q.holder[e]) && q.callers[q.holder[e]].entry == e)
  }

  predicate Ok<Work>(q: Keyed<Work>) {
    && (forall c :: c in q.callers ==> Tied(q, q.callers[c]))
    && (forall k :: k in q.locks ==> Counted(q, k))
    && Separate(q) && HoldersOk(q)
  }

  lemma CallerIsTied<Work>(q: Keyed<Work>, c: Task)
    requires Ok(q) && HasEntered(q, c)
    ensures var p := q.callers[c];
            && p.key in q.locks && q.locks[p.key] == p.entry && p.entry < q.nextEntry
            && c in Users(q.callers, p.entry) && Count(q, p.entry) == |Users(q.callers, p.entry)|
  {
    assert Tied(q, q.callers[c]);
    assert Counted(q, q.callers[c].key);
  }

  lemma EntriesAreOld<Work>(q: Keyed<Work>, e: nat)
    requires Ok(q) && e >= q.nextEntry
    ensures Users(q.callers, e) == {} && forall k :: k in q.locks ==> q.locks[k] != e
  {
    forall c | c in q.callers && !q.callers[c].Queued? ensures q.callers[c].entry < e {
      CallerIsTied(q, c);
    }
    forall k | k in q.locks ensures q.locks[k] != e {
      assert Counted(q, k);
    }
  }

  lemma UsersAfter<Work>(callers: map<Task, Phase<Work>>, c: Task, p: Phase<Work>, e: nat)
    ensures Users(callers[c := p], e) == (Users(callers, e) - {c}) + if Refers(p, e) then {c} else {}
    ensures Users(callers - {c}, e) == Users(callers, e) - {c}
  {
  }

  lemma EnterCounts<Work>(q: Keyed<Work>, c: Task, key: string, work: Work, k: string)
    requires Ok(q) && !HasEntered(q, c) && k in Entered(q, c, key, work).locks
    ensures Counted(Entered(q, c, key, work), k)
  {
    hide Users, Refers, HoldersOk, Tied;
    var t := Entered(q, c, key, work);
    EntriesAreOld(q, q.nextEntry);
    UsersAfter(q.callers, c, t.callers[c], t.locks[k]);
    UserRefers(q.callers, c, t.locks[k]);
    UserRefers(t.callers, c, t.locks[k]);
    assert k in q.locks ==> Counted(q, k);
  }

  lemma EnterKeepsSeparate<Work>(q: Keyed<Work>, c: Task, key: string, work: Work)
    requires Ok(q) && !HasEntered(q, c)
    ensures Separate(Entered(q, c, key, work))
  {
    hide Users, Refers, HoldersOk, Tied, Counted;
    EntriesAreOld(q, q.nextEntry);
  }

  lemma UserRefers<Work>(callers: map<Task, Phase<Work>>, c: Task, e: nat)
    ensures c in Users(callers, e) <==> c in callers && !callers[c].Queued? && callers[c].entry == e
  {
  }

  /** Holders are untouched by a caller that is not inside before or after. */
  lemma OthersStillHold<Work>(q: Keyed<Work>, t: Keyed<Work>, c: Task)
    requires HoldersOk(q) && !IsInside(q, c) && !IsInside(t, c) && t.holder == q.holder
    requires forall d :: d != c ==> (d in t.callers <==> d in q.callers)
    requires forall d :: d != c && d in q.callers ==> t.callers[d] == q.callers[d]
    ensures HoldersOk(t)
  {
    forall d | d in t.callers && t.callers[d].Inside? ensures Holds(t, d) {
      assert Holds(q, d);
    }
    forall e | e in t.holder ensures Holds(t, t.holder[e]) && t.callers[t.holder[e]].entry == e {
      assert Holds(q, q.holder[e]);
    }
  }

  lemma EnterKeeps<Work>(q: Keyed<Work>, c: Task, key: string, work: Work)
    requires Ok(q) && !HasEntered(q, c)
    ensures Ok(Entered(q, c, key, work))
  {
    hide Counted, Separate, HoldersOk;
    var t := Entered(q, c, key, work);
    forall k | k in t.locks ensures Counted(t, k) {
      EnterCounts(q, c, key, work, k);
    }
    EnterKeepsSeparate(q, c, key, work);
    forall d | d in t.callers ensures Tied(t, t.callers[d]) {
      assert d != c ==> Tied(q, q.callers[d]);
    }
    OthersStillHold(q, t, c);
  }

  /** A change to one caller that keeps its key and entry. */
  lemma SameCounts<Work>(q: Keyed<Work>, t: Keyed<Work>, c: Task, p: Phase<Work>)
    requires Ok(q) && HasEntered(q, c) && !p.Queued? && p.key == q.callers[c].key && p.entry == q.callers[c].entry
    requires t.callers == q.callers[c := p] && t.locks == q.locks && t.users == q.users && t.nextEntry == q.nextEntry
    requires HoldersOk(t)
    ensures Ok(t)
  {
    hide Users, Refers, HoldersOk;
    forall k | k in t.locks ensures Counted(t, k) {
      UsersAfter(q.callers, c, p, t.locks[k]);
      UserRefers(q.callers, c, t.locks[k]);
      UserRefers(t.callers, c, t.locks[k]);
      assert Users(t.callers, t.locks[k]) == Users(q.callers, t.locks[k]);
      assert Counted(q, k);
    }
    forall d | d in t.callers ensures Tied(t, t.callers[d]) {
      assert Tied(q, q.callers[d]);
    }
  }

  lemma AcquireKeeps<Work>(q: Keyed<Work>, c: Task)
    requires Ok(q) && CanAcquire(q, c)
    ensures Ok(Acquired(q, c))
  {
    hide Users, Counted, Separate;
    var t := Acquired(q, c);
    forall d | d in t.callers && t.callers[d].Inside? ensures Holds(t, d) {
      assert d != c ==> Holds(q, d);
    }
    forall e | e in t.holder ensures Holds(t, t.holder[e]) && t.callers[t.holder[e]].entry == e {
      assert e in q.holder ==> Holds(q, q.holder[e]);
    }
    SameCounts(q, t, c, t.callers[c]);
  }

  lemma WorkKeeps<Work>(q: Keyed<Work>, c: Task, work: Work)
    requires Ok(q) && IsInside(q, c)
    ensures Ok(Working(q, c, work))
  {
    hide Users, Counted, Separate;
    var t := Working(q, c, work);
    forall d | d in t.callers && t.callers[d].Inside? ensures Holds(t, d) {
      assert Holds(q, d);
    }
    forall e | e in t.holder ensures Holds(t, t.holder[e]) && t.callers[t.holder[e]].entry == e {
      assert Holds(q, q.holder[e]);
    }
    SameCounts(q, t, c, t.callers[c]);
  }

  lemma LeaveKeepsHolders<Work>(q: Keyed<Work>, c: Task)
    requires Ok(q) && HasEntered(q, c)
    ensures HoldersOk(Left(q, c))
  {
    hide Users, Counted, Separate, Tied;
    var t, p := Left(q, c), q.callers[c];
    if p.Inside? {
      assert Holds(q, c);
    }
    forall d | d in t.callers && t.callers[d].Inside? ensures Holds(t, d) {
      assert Holds(q, d);
    }
    forall e | e in t.holder ensures Holds(t, t.holder[e]) && t.callers[t.holder[e]].entry == e {
      assert Holds(q, q.holder[e]);
    }
  }

  lemma LeaveCounts<Work>(q: Keyed<Work>, c: Task, k: string)
    requires Ok(q) && HasEntered(q, c) && k in Left(q, c).locks
    ensures Counted(Left(q, c), k)
  {
    hide Users, Refers, HoldersOk, Tied;
    var t, p := Left(q, c), q.callers[c];
    CallerIsTied(q, c);
    DropOne(Users(q.callers, p.entry), c);
    UsersAfter(q.callers, c, p, t.locks[k]);
    UserRefers(q.callers, c, t.locks[k]);
    assert Counted(q, k);
    if k != p.key {
      assert Users(t.callers, t.locks[k]) == Users(q.callers, t.locks[k]);
    }
  }

  lemma LeaveKeepsTied<Work>(q: Keyed<Work>, c: Task, d: Task)
    requires Ok(q) && HasEntered(q, c) && d in Left(q, c).callers
    ensures Tied(Left(q, c), Left(q, c).callers[d])
  {
    hide Users, Refers, HoldersOk, Counted, Separate;
    var p := q.callers[c];
    CallerIsTied(q, c);
    assert Tied(q, q.callers[d]);
    UserRefers(q.callers, d, p.entry);
    if d in Users(q.callers, p.entry) {
      DropOne(Users(q.callers, p.entry), c);
      assert d in Users(q.callers, p.entry) - {c};
    }
  }

  /** The last user of an entry drops it, and nobody is left with an entry the table has lost. */
  lemma LeaveKeeps<Work>(q: Keyed<Work>, c: Task)
    requires Ok(q) && HasEntered(q, c)
    ensures Ok(Left(q, c))
  {
    hide Counted, HoldersOk, Tied, Count;
    var t := Left(q, c);
    LeaveKeepsHolders(q, c);
    forall k | k in t.locks ensures Counted(t, k) {
      LeaveCounts(q, c, k);
    }
    forall d | d in t.callers ensures Tied(t, t.callers[d]) {
      LeaveKeepsTied(q, c, d);
    }
  }

  lemma QueueKeeps<Work>(q: Keyed<Work>, more: map<Task, Phase<Work>>)
    requires Ok(q) && more.Keys !! q.callers.Keys && forall c :: c in more ==> more[c].Queued?
    ensures Ok(q.(callers := q.callers + more))
  {
    hide Refers;
    var t := q.(callers := q.callers + more);
    forall k | k in t.locks ensures Counted(t, k) {
      assert Users(t.callers, t.locks[k]) == Users(q.callers, t.locks[k]) by {
        forall c ensures c in Users(t.callers, t.locks[k]) <==> c in Users(q.callers, t.locks[k]) {
          UserRefers(t.callers, c, t.locks[k]);
          UserRefers(q.callers, c, t.locks[k]);
        }
      }
      assert Counted(q, k);
    }
    forall c | c in t.callers ensures Tied(t, t.callers[c]) {
      assert c in q.callers ==> Tied(q, q.callers[c]);
    }
    forall c | c in t.callers && t.callers[c].Inside? ensures Holds(t, c) {
      assert Holds(q, c);
    }
    forall e | e in t.holder ensures Holds(t, t.holder[e]) && t.callers[t.holder[e]].entry == e {
      assert Holds(q, q.holder[e]);
    }
  }

  /** Who is where after each operation. */
  lemma CallersAfter<Work>(q: Keyed<Work>, c: Task)
    ensures forall key, work :: Entered(q, c, key, work).callers.Keys == q.callers.Keys + {c}
    ensures HasEntered(q, c) ==> Left(q, c).callers == q.callers - {c}
  {
  }

  /** Callers of one key, holding or waiting, never have different locks, and only one of them is inside. */
  lemma OneLockPerKey<Work>(q: Keyed<Work>, c: Task, d: Task)
    requires Ok(q) && HasEntered(q, c) && HasEntered(q, d) && q.callers[c].key == q.callers[d].key
    ensures q.callers[c].entry == q.callers[d].entry
    ensures IsInside(q, c) && IsInside(q, d) ==> c == d
  {
    CallerIsTied(q, c);
    CallerIsTied(q, d);
    if IsInside(q, c) && IsInside(q, d) {
      assert Holds(q, c) && Holds(q, d);
    }
  }

  /** A caller that waits can go in exactly while nobody of its key is inside: other keys never hold it up, and with
      every caller waiting each can. */
  lemma WaitsOnlyForItsKey<Work>(q: Keyed<Work>, c: Task)
    requires Ok(q) && c in q.callers && q.callers[c].Waiting?
    ensures CanAcquire(q, c) <==>
            forall d :: d in q.callers && q.callers[d].Inside? ==> q.callers[d].key != q.callers[c].key
  {
    CallerIsTied(q, c);
    var e := q.callers[c].entry;
    forall d | d in q.callers && q.callers[d].Inside? && q.callers[d].key == q.callers[c].key ensures e in q.holder {
      CallerIsTied(q, d);
      assert Holds(q, d);
    }
    if e in q.holder {
      var d := q.holder[e];
      assert Holds(q, d) && q.callers[d].entry == e;
      CallerIsTied(q, d);
    }
  }

  /** The table has an entry for exactly the keys that someone holds or waits for. */
  lemma TableIsTight<Work>(q: Keyed<Work>, key: string)
    requires Ok(q)
    ensures key in q.locks <==> exists c :: HasEntered(q, c) && q.callers[c].key == key
  {
    if key in q.locks {
      assert Counted(q, key);
      var e := q.locks[key];
      assert Users(q.callers, e) != {};
      var c :| c in Users(q.callers, e);
      CallerIsTied(q, c);
      assert HasEntered(q, c);
    }
    if c :| HasEntered(q, c) && q.callers[c].key == key {
      CallerIsTied(q, c);
    }
  }
}
