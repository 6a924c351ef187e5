/** When the throttle grants a slot, and what an attempt does to the stamps inside the window. */
module ThrottleGrants {
  import opened Rules
  import opened Sets
  import opened Throttle
  import opened ThrottleWindow

  // ----- stamps inside the window -----

  lemma {:induction false} RecentOfMore(s: seq<real>, x: real, now: real, window: real)
    ensures Recent(s + [x], now, window) == Recent(s, now, window) + if now - x < window then [x] else []
  {
    if s == [] {
      assert s + [x] == [x];
    } else {
      assert (s + [x])[1..] == s[1..] + [x];
      RecentOfMore(s[1..], x, now, window);
    }
  }

  lemma {:induction false} RecentCounts(s: seq<real>, now: real, window: real)
    ensures |Recent(s, now, window)| == |set i | 0 <= i < |s| && now - s[i] < window|
    decreases |s|
  {
    var here := set i | 0 <= i < |s| && now - s[i] < window;
    if s == [] {
      assert here == {};
    } else {
      var n := |s| - 1;
      var past := set i | 0 <= i < |s[..n]| && now - s[..n][i] < window;
      RecentCounts(s[..n], now, window);
      RecentOfMore(s[..n], s[n], now, window);
      assert s == s[..n] + [s[n]];
      assert past == set i | 0 <= i < n && now - s[i] < window;
      assert here == if now - s[n] < window then past + {n} else past;
    }
  }

  lemma RecentIsSome(s: seq<real>, now: real, window: real)
    ensures Recent(s, now, window) != [] <==> exists i :: 0 <= i < |s| && now - s[i] < window
  {
    RecentCounts(s, now, window);
    var here := set i | 0 <= i < |s| && now - s[i] < window;
    if i :| 0 <= i < |s| && now - s[i] < window {
      assert i in here;
    }
    if Recent(s, now, window) != [] {
      var i :| i in here;
    }
  }

  /** Two tables that differ only in stamps outside the window. */
  ghost predicate SameLive<K(!new)>(t: Table<K>, u: Table<K>, now: real, window: real) {
    forall k: K :: Recent(Stamps(u, k), now, window) == Recent(Stamps(t, k), now, window)
  }

  lemma LiveIsSame<K(!new)>(t: Table<K>, k: K, now: real, window: real)
    ensures SameLive(t, Live(t, k, now, window), now, window) && LiveKey(Live(t, k, now, window), k, now, window)
    ensures Stamps(Live(t, k, now, window), k) == Recent(Stamps(t, k), now, window)
  {
    RecentTwice(Stamps(t, k), now, window);
  }

  lemma PurgedIsSame<K(!new)>(t: Table<K>, now: real, window: real)
    ensures SameLive(t, Purged(t, now, window), now, window)
  {
    forall k: K ensures Recent(Stamps(Purged(t, now, window), k), now, window) == Recent(Stamps(t, k), now, window) {
      RecentTwice(Stamps(t, k), now, window);
    }
  }

  lemma SameKeysAreLive<K(!new)>(t: Table<K>, u: Table<K>, now: real, window: real)
    requires SameLive(t, u, now, window)
    ensures Purged(u, now, window) == Purged(t, now, window)
  {
    forall k: K ensures k in Purged(u, now, window) <==> k in Purged(t, now, window) {
      assert Recent(Stamps(u, k), now, window) == Recent(Stamps(t, k), now, window);
    }
    forall k | k in Purged(t, now, window) ensures Purged(u, now, window)[k] == Purged(t, now, window)[k] {
      assert Recent(Stamps(u, k), now, window) == Recent(Stamps(t, k), now, window);
    }
  }

  /** There is room for a key: it is live already, or fewer keys than the table holds are. */
  predicate Room<K(!new)>(t: Table<K>, k: K, now: real, l: Limits) {
    k in Purged(t, now, l.window) || |Purged(t, now, l.window)| < l.maxEntries
  }

  /** The code's check, on a table purged only when it is full, finds room exactly when there is room. */
  lemma FitsIfRoom<K(!new)>(t: Table<K>, k: K, now: real, l: Limits)
    requires LiveKey(t, k, now, l.window)
    ensures Fits(if Fits(t, k, l.maxEntries) then t else Purged(t, now, l.window), k, l.maxEntries)
            <==> Room(t, k, now, l)
    ensures LiveKey(Purged(t, now, l.window), k, now, l.window)
  {
    PurgedIsSmaller(t, k, now, l.window, l.maxEntries);
  }

  // ----- one attempt -----

  ghost predicate AllSame(t: Tables, u: Tables, now: real, window: real) {
    && SameLive(t.names, u.names, now, window) && SameLive(t.clients, u.clients, now, window)
    && SameLive(t.accounts, u.accounts, now, window)
  }

  lemma MakesRoomIfThereIs(t: Tables, client: string, name: string, now: real, l: Limits)
    requires LiveKeys(t, client, name, now, l.window)
    ensures AllSame(t, MakeRoom(t, client, name, now, l).0, now, l.window)
    ensures MakeRoom(t, client, name, now, l).1 <==>
            Room(t.names, (client, name), now, l) && Room(t.clients, client, now, l) && Room(t.accounts, name, now, l)
  {
    hide Room, LiveKey, Purged, Fits, SameLive;
    var a := if Fits(t.names, (client, name), l.maxEntries) then t else PurgeAll(t, now, l.window);
    var b := if Fits(a.clients, client, l.maxEntries) then a else PurgeAll(a, now, l.window);
    var c := if Fits(b.accounts, name, l.maxEntries) then b else PurgeAll(b, now, l.window);
    FitsIfRoom(t.names, (client, name), now, l);
    PurgeIsSame(t, t, client, name, now, l);
    PurgeIsSame(t, a, client, name, now, l);
    FitsIfRoom(a.clients, client, now, l);
    PurgeIsSame(t, b, client, name, now, l);
    FitsIfRoom(b.accounts, name, now, l);
  }

  lemma PurgeIsSame(t: Tables, u: Tables, client: string, name: string, now: real, l: Limits)
    requires LiveKeys(u, client, name, now, l.window) && (u != t ==> AllSame(t, u, now, l.window))
    ensures var p := PurgeAll(u, now, l.window);
            LiveKeys(p, client, name, now, l.window) && AllSame(t, p, now, l.window) && AllSame(t, u, now, l.window)
    ensures Room(u.names, (client, name), now, l) <==> Room(t.names, (client, name), now, l)
    ensures Room(u.clients, client, now, l) <==> Room(t.clients, client, now, l)
    ensures Room(u.accounts, name, now, l) <==> Room(t.accounts, name, now, l)
  {
    hide LiveKey, Purged;
    PurgedIsSame(u.names, now, l.window);
    PurgedIsSame(u.clients, now, l.window);
    PurgedIsSame(u.accounts, now, l.window);
    SameKeysAreLive(t.names, u.names, now, l.window);
    SameKeysAreLive(t.clients, u.clients, now, l.window);
    SameKeysAreLive(t.accounts, u.accounts, now, l.window);
    FitsIfRoom(u.names, (client, name), now, l);
    FitsIfRoom(u.clients, client, now, l);
    FitsIfRoom(u.accounts, name, now, l);
  }

  /** The tables with the three keys made live, as far as the limits let the code go. */
  function Checked(t: Tables, client: string, name: string, now: real, window: real): Tables {
    Tables(Live(t.names, (client, name), now, window), Live(t.clients, client, now, window),
           Live(t.accounts, name, now, window))
  }

  lemma CheckedIsSame(t: Tables, client: string, name: string, now: real, l: Limits)
    ensures var u := Checked(t, client, name, now, l.window);
            && LiveKeys(u, client, name, now, l.window) && AllSame(t, u, now, l.window)
            && AllSame(t, t.(names := u.names), now, l.window)
            && AllSame(t, t.(names := u.names, clients := u.clients), now, l.window)
            && Stamps(u.names, (client, name)) == Recent(Stamps(t.names, (client, name)), now, l.window)
            && Stamps(u.clients, client) == Recent(Stamps(t.clients, client), now, l.window)
            && Stamps(u.accounts, name) == Recent(Stamps(t.accounts, name), now, l.window)
  {
    hide Live, LiveKey;
    LiveIsSame(t.names, (client, name), now, l.window);
    LiveIsSame(t.clients, client, now, l.window);
    LiveIsSame(t.accounts, name, now, l.window);
  }

  lemma SameTwice(t: Tables, u: Tables, v: Tables, now: real, window: real)
    requires AllSame(t, u, now, window) && AllSame(u, v, now, window)
    ensures AllSame(t, v, now, window)
  {
  }

  /** What `Reserve` decides, and that the rest of the tables is as it was but for expired stamps. */
  lemma ReserveIs(t: Tables, client: string, name: string, now: real, l: Limits)
    ensures Reserve(t, client, name, now, l).1 <==>
            && |Recent(Stamps(t.names, (client, name)), now, l.window)| < l.perName
            && |Recent(Stamps(t.clients, client), now, l.window)| < l.perClient
            && |Recent(Stamps(t.accounts, name), now, l.window)| < l.perAccount
            && Room(t.names, (client, name), now, l) && Room(t.clients, client, now, l)
            && Room(t.accounts, name, now, l)
    ensures exists u: Tables ::
              && AllSame(t, u, now, l.window)
              && Reserve(t, client, name, now, l).0
                 == if Reserve(t, client, name, now, l).1
                    then Tables(Append(u.names, (client, name), now), Append(u.clients, client, now),
                                Append(u.accounts, name, now))
                    else u
  {
    hide Live, LiveKey, Room, SameLive, MakeRoom, Purged, Recent, Append, Stamps;
    var u := Checked(t, client, name, now, l.window);
    CheckedIsSame(t, client, name, now, l);
    MakesRoomIfThereIs(u, client, name, now, l);
    SameTwice(t, u, MakeRoom(u, client, name, now, l).0, now, l.window);
    SameRoom(t, u, client, name, now, l);
    var (w, granted) := Reserve(t, client, name, now, l);
    assert AllSame(t, t, now, l.window) by { SameItself(t, now, l.window); }
  }

  lemma SameItself(t: Tables, now: real, window: real)
    ensures AllSame(t, t, now, window)
  {
  }

  lemma SameRoom(t: Tables, u: Tables, client: string, name: string, now: real, l: Limits)
    requires AllSame(t, u, now, l.window)
    ensures Room(u.names, (client, name), now, l) <==> Room(t.names, (client, name), now, l)
    ensures Room(u.clients, client, now, l) <==> Room(t.clients, client, now, l)
    ensures Room(u.accounts, name, now, l) <==> Room(t.accounts, name, now, l)
  {
    hide Purged;
    SameKeysAreLive(t.names, u.names, now, l.window);
    SameKeysAreLive(t.clients, u.clients, now, l.window);
    SameKeysAreLive(t.accounts, u.accounts, now, l.window);
  }

  lemma RoomSpeltOut<K(!new)>(t: Table<K>, k: K, now: real, l: Limits)
    ensures Room(t, k, now, l) <==>
            || (exists i :: 0 <= i < |Stamps(t, k)| && now - Stamps(t, k)[i] < l.window)
            || |set j | j in t && (exists i :: 0 <= i < |t[j]| && now - t[j][i] < l.window)| < l.maxEntries
  {
    RecentIsSome(Stamps(t, k), now, l.window);
    forall j | j in t
      ensures Recent(t[j], now, l.window) != [] <==> exists i :: 0 <= i < |t[j]| && now - t[j][i] < l.window
    {
      RecentIsSome(t[j], now, l.window);
    }
    assert (set j | j in t && (exists i :: 0 <= i < |t[j]| && now - t[j][i] < l.window))
        == Purged(t, now, l.window).Keys;
    assert |Purged(t, now, l.window).Keys| == |Purged(t, now, l.window)|;
  }

  /** An attempt is granted exactly when the stamps inside the window that ends now are fewer than the limit for its
      pair, for its client and for its name, and each of the three tables either has such a stamp of the key or has
      such stamps of fewer keys than it may hold. */
  lemma GrantedExactly(t: Tables, client: string, name: string, now: real, l: Limits)
    ensures Reserve(t, client, name, now, l).1 <==>
            var p, c, a := Stamps(t.names, (client, name)), Stamps(t.clients, client), Stamps(t.accounts, name);
            && |set i | 0 <= i < |p| && now - p[i] < l.window| < l.perName
            && |set i | 0 <= i < |c| && now - c[i] < l.window| < l.perClient
            && |set i | 0 <= i < |a| && now - a[i] < l.window| < l.perAccount
            && ((exists i :: 0 <= i < |p| && now - p[i] < l.window)
                || |set j | j in t.names && (exists i :: 0 <= i < |t.names[j]| && now - t.names[j][i] < l.window)|
                   < l.maxEntries)
            && ((exists i :: 0 <= i < |c| && now - c[i] < l.window)
                || |set j | j in t.clients && (exists i :: 0 <= i < |t.clients[j]| && now - t.clients[j][i] < l.window)|
                   < l.maxEntries)
            && ((exists i :: 0 <= i < |a| && now - a[i] < l.window)
                || |set j | j in t.accounts
                            && (exists i :: 0 <= i < |t.accounts[j]| && now - t.accounts[j][i] < l.window)|
                   < l.maxEntries)
  {
    hide Reserve, Recent, Room, Stamps;
    ReserveIs(t, client, name, now, l);
    RecentCounts(Stamps(t.names, (client, name)), now, l.window);
    RecentCounts(Stamps(t.clients, client), now, l.window);
    RecentCounts(Stamps(t.accounts, name), now, l.window);
    RoomSpeltOut(t.names, (client, name), now, l);
    RoomSpeltOut(t.clients, client, now, l);
    RoomSpeltOut(t.accounts, name, now, l);
  }

  lemma SameTimes<K(!new)>(t: Table<K>, u: Table<K>, k: K, now: real, window: real, x: real)
    requires SameLive(t, u, now, window) && now - x < window
    ensures multiset(Stamps(u, k))[x] == multiset(Stamps(t, k))[x]
  {
    RecentMembers(Stamps(t, k), now, window, x);
    RecentMembers(Stamps(u, k), now, window, x);
    assert Recent(Stamps(u, k), now, window) == Recent(Stamps(t, k), now, window);
  }

  lemma AppendedTimes<K(!new)>(t: Table<K>, k: K, j: K, now: real, x: real)
    ensures multiset(Stamps(Append(t, k, now), j))[x]
         == multiset(Stamps(t, j))[x] + if j == k && x == now then 1 else 0
  {
  }

  /** Inside the window, an attempt that is granted adds one stamp, now, to its own three keys, and one that is refused
      adds none; no other stamp there comes or goes, whatever is purged. */
  lemma OnlyTheSlotIsAdded(t: Tables, client: string, name: string, now: real, l: Limits, pair: (string, string),
                           c: string, a: string, x: real)
    requires now - x < l.window
    ensures var (u, granted) := Reserve(t, client, name, now, l);
            && multiset(Stamps(u.names, pair))[x] == multiset(Stamps(t.names, pair))[x]
               + (if granted && pair == (client, name) && x == now then 1 else 0)
            && multiset(Stamps(u.clients, c))[x] == multiset(Stamps(t.clients, c))[x]
               + (if granted && c == client && x == now then 1 else 0)
            && multiset(Stamps(u.accounts, a))[x] == multiset(Stamps(t.accounts, a))[x]
               + (if granted && a == name && x == now then 1 else 0)
  {
    hide Reserve, Recent, Room, Stamps, SameLive, Append;
    ReserveIs(t, client, name, now, l);
    var (w, granted) := Reserve(t, client, name, now, l);
    var u: Tables :| AllSame(t, u, now, l.window)
      && w == if granted then Tables(Append(u.names, (client, name), now), Append(u.clients, client, now),
                                     Append(u.accounts, name, now))
              else u;
    SameTimes(t.names, u.names, pair, now, l.window, x);
    SameTimes(t.clients, u.clients, c, now, l.window, x);
    SameTimes(t.accounts, u.accounts, a, now, l.window, x);
    AppendedTimes(u.names, (client, name), pair, now, x);
    AppendedTimes(u.clients, client, c, now, x);
    AppendedTimes(u.accounts, name, a, now, x);
  }
}
