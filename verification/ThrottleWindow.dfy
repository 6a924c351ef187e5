/** The sliding-window guarantee, over every run of attempts and successes with a clock that never runs
    backwards. */
module ThrottleWindow {
  import opened Sets
  import opened Throttle

  /** One granted slot: who asked, when, whether a success has released it, and how many successes its
      (client, name) pair had had before. */
  datatype Grant = Grant(client: string, name: string, at: real, released: bool, round: nat)

  datatype World = World(tables: Tables, grants: seq<Grant>, wins: multiset<(string, string)>, now: real)

  datatype Event = Attempt(client: string, name: string, at: real) | Success(grant: nat)

  function Start(now: real): World {
    World(Tables(map[], map[], map[]), [], multiset{}, now)
  }

  predicate Enabled(w: World, e: Event) {
    match e
    case Attempt(_, _, at) => w.now <= at
    case Success(i) => i < |w.grants| && !w.grants[i].released
  }

  function Next(w: World, e: Event, l: Limits): World
    requires Enabled(w, e)
  {
    match e
    case Attempt(client, name, at) =>
      var (t, granted) := Reserve(w.tables, client, name, at, l);
      World(t, if granted then w.grants + [Grant(client, name, at, false, w.wins[(client, name)])] else w.grants,
            w.wins, at)
    case Success(i) =>
      var g := w.grants[i];
      World(Succeed(w.tables, g.client, g.name, g.at), w.grants[i := g.(released := true)],
            w.wins + multiset{(g.client, g.name)}, w.now)
  }

  // ----- counting grants -----

  /** The times of the grants that satisfy `p`, in order. */
  function Times(gs: seq<Grant>, p: Grant -> bool): seq<real> {
    if gs == [] then [] else Times(gs[..|gs| - 1], p) + if p(gs[|gs| - 1]) then [gs[|gs| - 1].at] else []
  }

  /** The slots of a client, or of a name, that no success has released; those of a pair since its last
      success, however they ended. */
  function OfClient(c: string): Grant -> bool {
    (g: Grant) => !g.released && g.client == c
  }

  function OfAccount(n: string): Grant -> bool {
    (g: Grant) => !g.released && g.name == n
  }

  function OfRound(p: (string, string), round: nat): Grant -> bool {
    (g: Grant) => (g.client, g.name) == p && g.round == round
  }

  function Within(p: Grant -> bool, from: real, until: real): Grant -> bool {
    (g: Grant) => p(g) && from <= g.at < until
  }

  function Since(p: Grant -> bool, now: real, window: real): Grant -> bool {
    (g: Grant) => p(g) && now - g.at < window
  }

  lemma {:induction false} FewerTimes(gs: seq<Grant>, p: Grant -> bool, q: Grant -> bool)
    requires forall g :: p(g) && g in gs ==> q(g)
    ensures |Times(gs, p)| <= |Times(gs, q)|
    decreases |gs|
  {
    if gs != [] { FewerTimes(gs[..|gs| - 1], p, q); }
  }

  lemma {:induction false} NoTimes(gs: seq<Grant>, p: Grant -> bool)
    requires forall g :: g in gs ==> !p(g)
    ensures Times(gs, p) == []
    decreases |gs|
  {
    if gs != [] { NoTimes(gs[..|gs| - 1], p); }
  }

  lemma TimesOfMore(gs: seq<Grant>, g: Grant, p: Grant -> bool)
    ensures Times(gs + [g], p) == Times(gs, p) + if p(g) then [g.at] else []
  {
    assert (gs + [g])[..|gs|] == gs;
  }

  lemma {:induction false} TimesConcat(a: seq<Grant>, b: seq<Grant>, p: Grant -> bool)
    ensures Times(a + b, p) == Times(a, p) + Times(b, p)
    decreases |b|
  {
    if b == [] {
      assert a + b == a;
    } else {
      var n := |b| - 1;
      assert (a + b)[..|a + b| - 1] == a + b[..n];
      TimesConcat(a, b[..n], p);
    }
  }

  function One(g: Grant, p: Grant -> bool): seq<real> {
    if p(g) then [g.at] else []
  }

  lemma TimesAround(gs: seq<Grant>, i: nat, g: Grant, p: Grant -> bool)
    requires i < |gs|
    ensures Times(gs[i := g], p) == Times(gs[..i], p) + One(g, p) + Times(gs[i + 1..], p)
  {
    assert gs[i := g] == gs[..i] + [g] + gs[i + 1..];
    TimesConcat(gs[..i] + [g], gs[i + 1..], p);
    TimesOfMore(gs[..i], g, p);
  }

  /** Changing one grant takes its time out when it no longer counts. */
  lemma TimesOfChanged(gs: seq<Grant>, i: nat, g: Grant, p: Grant -> bool)
    requires i < |gs| && g.at == gs[i].at && (p(g) ==> p(gs[i]))
    ensures multiset(Times(gs, p)) ==
            multiset(Times(gs[i := g], p)) + if p(gs[i]) && !p(g) then multiset{g.at} else multiset{}
    ensures |Times(gs[i := g], p)| <= |Times(gs, p)|
  {
    hide Times;
    assert gs[i := gs[i]] == gs;
    TimesAround(gs, i, gs[i], p);
    TimesAround(gs, i, g, p);
  }

  // ----- stamps -----

  lemma {:induction false} RecentMembers(s: seq<real>, now: real, window: real, t: real)
    ensures multiset(Recent(s, now, window))[t] == if now - t < window then multiset(s)[t] else 0
    decreases |s|
  {
    if s != [] {
      RecentMembers(s[1..], now, window, t);
      assert s == [s[0]] + s[1..];
    }
  }

  lemma {:induction false} SinceMembers(gs: seq<Grant>, p: Grant -> bool, now: real, window: real, t: real)
    ensures multiset(Times(gs, Since(p, now, window)))[t] == if now - t < window then multiset(Times(gs, p))[t] else 0
    decreases |gs|
  {
    if gs != [] { SinceMembers(gs[..|gs| - 1], p, now, window, t); }
  }

  lemma {:induction false} WithoutMembers(s: seq<real>, slot: real)
    requires slot in s
    ensures multiset(s) == multiset(Without(s, slot)) + multiset{slot}
    decreases |s|
  {
    assert s == [s[0]] + s[1..];
    if s[0] != slot {
      WithoutMembers(s[1..], slot);
    }
  }

  /** A key's stamps are the counted grants' times: all those inside the window, and possibly some that
      have left it. */
  ghost predicate Tracks(s: seq<real>, gs: seq<Grant>, p: Grant -> bool, now: real, window: real) {
    forall t: real ::
      multiset(s)[t] <= multiset(Times(gs, p))[t]
      && (now - t < window ==> multiset(s)[t] == multiset(Times(gs, p))[t])
  }

  /** Tracked stamps, made live, are as many as the counted grants inside the window. */
  lemma LiveCount(s: seq<real>, gs: seq<Grant>, p: Grant -> bool, before: real, now: real, window: real)
    requires Tracks(s, gs, p, before, window) && before <= now
    ensures |Recent(s, now, window)| == |Times(gs, Since(p, now, window))|
    ensures Tracks(Recent(s, now, window), gs, p, now, window)
  {
    forall t: real
      ensures multiset(Recent(s, now, window))[t] == multiset(Times(gs, Since(p, now, window)))[t]
      ensures multiset(Recent(s, now, window))[t] <= multiset(Times(gs, p))[t]
    {
      RecentMembers(s, now, window, t);
      SinceMembers(gs, p, now, window, t);
    }
    assert multiset(Recent(s, now, window)) == multiset(Times(gs, Since(p, now, window)));
    assert |multiset(Recent(s, now, window))| == |Recent(s, now, window)|;
    forall t: real | now - t < window
      ensures multiset(Recent(s, now, window))[t] == multiset(Times(gs, p))[t]
    {
      RecentMembers(s, now, window, t);
    }
  }

  // ----- a table of stamps tracks the grants, whatever is done to it -----

  ghost predicate TableTracks<K(!new)>(t: Table<K>, gs: seq<Grant>, sel: K -> Grant -> bool, now: real, window: real) {
    forall k: K :: Tracks(Stamps(t, k), gs, sel(k), now, window)
  }

  lemma TracksLater<K(!new)>(t: Table<K>, gs: seq<Grant>, sel: K -> Grant -> bool,
                             before: real, now: real, window: real)
    requires TableTracks(t, gs, sel, before, window) && before <= now
    ensures TableTracks(t, gs, sel, now, window)
  {
    forall k: K ensures Tracks(Stamps(t, k), gs, sel(k), now, window) {
      assert Tracks(Stamps(t, k), gs, sel(k), before, window);
    }
  }

  /** Making a key live leaves as many stamps as the key has counted grants inside the window. */
  lemma LiveTracks<K(!new)>(t: Table<K>, k: K, gs: seq<Grant>, sel: K -> Grant -> bool,
                            before: real, now: real, window: real)
    requires TableTracks(t, gs, sel, before, window) && before <= now
    ensures TableTracks(Live(t, k, now, window), gs, sel, now, window)
    ensures |Stamps(Live(t, k, now, window), k)| == |Times(gs, Since(sel(k), now, window))|
  {
    TracksLater(t, gs, sel, before, now, window);
    LiveCount(Stamps(t, k), gs, sel(k), before, now, window);
    var r := Live(t, k, now, window);
    forall j: K ensures Tracks(Stamps(r, j), gs, sel(j), now, window) {
      assert Tracks(Stamps(t, j), gs, sel(j), now, window);
      assert Stamps(r, j) == if j == k then Recent(Stamps(t, k), now, window) else Stamps(t, j);
    }
  }

  lemma PurgeTracks<K(!new)>(t: Table<K>, gs: seq<Grant>, sel: K -> Grant -> bool, now: real, window: real)
    requires TableTracks(t, gs, sel, now, window)
    ensures TableTracks(Purged(t, now, window), gs, sel, now, window)
  {
    var r := Purged(t, now, window);
    forall k: K ensures Tracks(Stamps(r, k), gs, sel(k), now, window) {
      assert Tracks(Stamps(t, k), gs, sel(k), now, window);
      LiveCount(Stamps(t, k), gs, sel(k), now, now, window);
      assert Stamps(r, k) == Recent(Stamps(t, k), now, window);
    }
  }

  lemma AppendTracks<K(!new)>(t: Table<K>, k: K, gs: seq<Grant>, g: Grant, sel: K -> Grant -> bool,
                              now: real, window: real)
    requires TableTracks(t, gs, sel, now, window)
    requires g.at == now && forall j: K :: sel(j)(g) <==> j == k
    ensures TableTracks(Append(t, k, now), gs + [g], sel, now, window)
  {
    var r := Append(t, k, now);
    forall j: K ensures Tracks(Stamps(r, j), gs + [g], sel(j), now, window) {
      assert Tracks(Stamps(t, j), gs, sel(j), now, window);
      TimesOfMore(gs, g, sel(j));
      assert Stamps(r, j) == Stamps(t, j) + if j == k then [now] else [];
    }
  }

  lemma ReleaseOne(s: seq<real>, gs: seq<Grant>, i: nat, g: Grant, p: Grant -> bool, now: real, window: real)
    requires Tracks(s, gs, p, now, window)
    requires i < |gs| && g.at == gs[i].at && p(gs[i]) && !p(g)
    ensures Tracks(if g.at in s then Without(s, g.at) else s, gs[i := g], p, now, window)
  {
    hide Times, Without;
    TimesOfChanged(gs, i, g, p);
    var r := if g.at in s then Without(s, g.at) else s;
    assert g.at in s ==> multiset(s) == multiset(r) + multiset{g.at} by {
      if g.at in s { WithoutMembers(s, g.at); }
    }
    forall t: real
      ensures multiset(r)[t] <= multiset(Times(gs[i := g], p))[t]
              && (now - t < window ==> multiset(r)[t] == multiset(Times(gs[i := g], p))[t])
    {
      assert multiset(s)[t] <= multiset(Times(gs, p))[t];
      assert g.at in s <==> multiset(s)[g.at] > 0;
    }
  }

  lemma ReleaseTracks<K(!new)>(t: Table<K>, k: K, gs: seq<Grant>, i: nat, g: Grant, sel: K -> Grant -> bool,
                               now: real, window: real)
    requires TableTracks(t, gs, sel, now, window)
    requires i < |gs| && g.at == gs[i].at
    requires forall j: K :: !sel(j)(g) && (sel(j)(gs[i]) <==> j == k)
    ensures TableTracks(Release(t, k, g.at), gs[i := g], sel, now, window)
  {
    hide Times, Without;
    var r := Release(t, k, g.at);
    forall j: K ensures Tracks(Stamps(r, j), gs[i := g], sel(j), now, window) {
      assert Tracks(Stamps(t, j), gs, sel(j), now, window);
      if j == k {
        ReleaseOne(Stamps(t, k), gs, i, g, sel(k), now, window);
        assert Stamps(r, k) == if g.at in Stamps(t, k) then Without(t[k], g.at) else Stamps(t, k);
      } else {
        TimesOfChanged(gs, i, g, sel(j));
        assert Stamps(r, j) == Stamps(t, j);
      }
    }
  }

  // ----- the invariant -----

  function Rounds(wins: multiset<(string, string)>): ((string, string)) -> Grant -> bool {
    (p: (string, string)) => OfRound(p, wins[p])
  }

  ghost predicate TablesTrack(t: Tables, gs: seq<Grant>, wins: multiset<(string, string)>, now: real, window: real) {
    && TableTracks(t.names, gs, Rounds(wins), now, window)
    && TableTracks(t.clients, gs, OfClient, now, window)
    && TableTracks(t.accounts, gs, OfAccount, now, window)
  }

  /** No table holds more keys than it may. */
  ghost predicate Bounded(t: Tables, l: Limits) {
    |t.names| <= l.maxEntries && |t.clients| <= l.maxEntries && |t.accounts| <= l.maxEntries
  }

  ghost predicate AtMost(gs: seq<Grant>, p: Grant -> bool, from: real, window: real, limit: nat) {
    |Times(gs, Within(p, from, from + window))| <= limit
  }

  /** The guarantee: in every half-open interval as long as the window, at most so many slots. */
  ghost predicate Guarantee(gs: seq<Grant>, l: Limits) {
    && (forall c: string, from: real :: AtMost(gs, OfClient(c), from, l.window, l.perClient))
    && (forall n: string, from: real :: AtMost(gs, OfAccount(n), from, l.window, l.perAccount))
    && (forall p: (string, string), round: nat, from: real ::
          AtMost(gs, OfRound(p, round), from, l.window, l.perName))
  }

  ghost predicate Inv(w: World, l: Limits) {
    && TablesTrack(w.tables, w.grants, w.wins, w.now, l.window)
    && Bounded(w.tables, l)
    && (forall g :: g in w.grants ==> g.at <= w.now && g.round <= w.wins[(g.client, g.name)])
    && Guarantee(w.grants, l)
  }

  lemma StartHolds(now: real, l: Limits)
    ensures Inv(Start(now), l)
  {
    assert forall p: Grant -> bool, now: real :: Tracks([], [], p, now, l.window);
    assert forall p: Grant -> bool, from: real, limit: nat :: AtMost([], p, from, l.window, limit);
  }

  /** One more counted grant, when fewer than the limit are inside the window that ends with it, keeps
      every interval of the window's length within the limit. */
  lemma OneMoreFits(gs: seq<Grant>, g: Grant, p: Grant -> bool, from: real, window: real, limit: nat)
    requires forall h :: h in gs ==> h.at <= g.at
    requires AtMost(gs, p, from, window, limit)
    requires p(g) ==> |Times(gs, Since(p, g.at, window))| < limit
    ensures AtMost(gs + [g], p, from, window, limit)
  {
    TimesOfMore(gs, g, Within(p, from, from + window));
    if p(g) && from <= g.at < from + window {
      FewerTimes(gs, Within(p, from, from + window), Since(p, g.at, window));
    }
  }

  lemma MoreGuaranteed(gs: seq<Grant>, g: Grant, l: Limits)
    requires Guarantee(gs, l) && !g.released && forall h :: h in gs ==> h.at <= g.at
    requires |Times(gs, Since(OfClient(g.client), g.at, l.window))| < l.perClient
    requires |Times(gs, Since(OfAccount(g.name), g.at, l.window))| < l.perAccount
    requires |Times(gs, Since(OfRound((g.client, g.name), g.round), g.at, l.window))| < l.perName
    ensures Guarantee(gs + [g], l)
  {
    forall c: string, from: real
      ensures AtMost(gs + [g], OfClient(c), from, l.window, l.perClient)
    {
      OneMoreFits(gs, g, OfClient(c), from, l.window, l.perClient);
    }
    forall n: string, from: real
      ensures AtMost(gs + [g], OfAccount(n), from, l.window, l.perAccount)
    {
      OneMoreFits(gs, g, OfAccount(n), from, l.window, l.perAccount);
    }
    forall p: (string, string), round: nat, from: real
      ensures AtMost(gs + [g], OfRound(p, round), from, l.window, l.perName)
    {
      OneMoreFits(gs, g, OfRound(p, round), from, l.window, l.perName);
    }
  }

  lemma ReleasedAtMost(gs: seq<Grant>, i: nat, g: Grant, p: Grant -> bool, from: real, window: real, limit: nat)
    requires i < |gs| && g.at == gs[i].at && (p(g) ==> p(gs[i])) && AtMost(gs, p, from, window, limit)
    ensures AtMost(gs[i := g], p, from, window, limit)
  {
    TimesOfChanged(gs, i, g, Within(p, from, from + window));
  }

  lemma ReleasedGuaranteed(gs: seq<Grant>, i: nat, l: Limits)
    requires Guarantee(gs, l) && i < |gs|
    ensures Guarantee(gs[i := gs[i].(released := true)], l)
  {
    hide AtMost;
    var g := gs[i].(released := true);
    var hs := gs[i := g];
    forall c: string, from: real ensures AtMost(hs, OfClient(c), from, l.window, l.perClient) {
      assert AtMost(gs, OfClient(c), from, l.window, l.perClient);
      ReleasedAtMost(gs, i, g, OfClient(c), from, l.window, l.perClient);
    }
    forall n: string, from: real ensures AtMost(hs, OfAccount(n), from, l.window, l.perAccount) {
      assert AtMost(gs, OfAccount(n), from, l.window, l.perAccount);
      ReleasedAtMost(gs, i, g, OfAccount(n), from, l.window, l.perAccount);
    }
    forall p: (string, string), round: nat, from: real
      ensures AtMost(hs, OfRound(p, round), from, l.window, l.perName)
    {
      assert AtMost(gs, OfRound(p, round), from, l.window, l.perName);
      ReleasedAtMost(gs, i, g, OfRound(p, round), from, l.window, l.perName);
    }
  }

  // ----- one attempt, one success -----

  lemma PurgeAllTracks(t: Tables, gs: seq<Grant>, wins: multiset<(string, string)>, now: real, window: real)
    requires TablesTrack(t, gs, wins, now, window)
    ensures TablesTrack(PurgeAll(t, now, window), gs, wins, now, window)
  {
    hide TableTracks, Purged;
    PurgeTracks(t.names, gs, Rounds(wins), now, window);
    PurgeTracks(t.clients, gs, OfClient, now, window);
    PurgeTracks(t.accounts, gs, OfAccount, now, window);
  }

  lemma RoomTracks(t: Tables, client: string, name: string, now: real, l: Limits, gs: seq<Grant>,
                   wins: multiset<(string, string)>)
    requires TablesTrack(t, gs, wins, now, l.window)
    ensures TablesTrack(MakeRoom(t, client, name, now, l).0, gs, wins, now, l.window)
  {
    hide TablesTrack, PurgeAll;
    PurgeAllTracks(t, gs, wins, now, l.window);
    var a := if Fits(t.names, (client, name), l.maxEntries) then t else PurgeAll(t, now, l.window);
    PurgeAllTracks(a, gs, wins, now, l.window);
    var b := if Fits(a.clients, client, l.maxEntries) then a else PurgeAll(a, now, l.window);
    PurgeAllTracks(b, gs, wins, now, l.window);
  }

  /** A granted slot was below every limit just before, and is tracked after; a refusal tracks too. */
  lemma ReserveTracks(w: World, client: string, name: string, now: real, l: Limits)
    requires TablesTrack(w.tables, w.grants, w.wins, w.now, l.window) && w.now <= now
    ensures var (t, granted) := Reserve(w.tables, client, name, now, l);
            var round := w.wins[(client, name)];
            var g := Grant(client, name, now, false, round);
            TablesTrack(t, if granted then w.grants + [g] else w.grants, w.wins, now, l.window)
            && (granted ==>
                  |Times(w.grants, Since(OfClient(client), now, l.window))| < l.perClient
                  && |Times(w.grants, Since(OfAccount(name), now, l.window))| < l.perAccount
                  && |Times(w.grants, Since(OfRound((client, name), round), now, l.window))| < l.perName)
  {
    hide TableTracks, Live, Append, MakeRoom, Stamps, Times;
    var gs, wins, window, pair := w.grants, w.wins, l.window, (client, name);
    TracksLater(w.tables.names, gs, Rounds(wins), w.now, now, window);
    TracksLater(w.tables.clients, gs, OfClient, w.now, now, window);
    TracksLater(w.tables.accounts, gs, OfAccount, w.now, now, window);
    LiveTracks(w.tables.names, pair, gs, Rounds(wins), w.now, now, window);
    LiveTracks(w.tables.clients, client, gs, OfClient, w.now, now, window);
    LiveTracks(w.tables.accounts, name, gs, OfAccount, w.now, now, window);
    var t3 := Tables(Live(w.tables.names, pair, now, window), Live(w.tables.clients, client, now, window),
                     Live(w.tables.accounts, name, now, window));
    RoomTracks(t3, client, name, now, l, gs, wins);
    var t4 := MakeRoom(t3, client, name, now, l).0;
    var g := Grant(client, name, now, false, wins[pair]);
    AppendTracks(t4.names, pair, gs, g, Rounds(wins), now, window);
    AppendTracks(t4.clients, client, gs, g, OfClient, now, window);
    AppendTracks(t4.accounts, name, gs, g, OfAccount, now, window);
  }

  // ----- no table outgrows its bound -----

  lemma {:induction false} RecentTwice(s: seq<real>, now: real, window: real)
    ensures Recent(Recent(s, now, window), now, window) == Recent(s, now, window)
    decreases |s|
  {
    if s != [] {
      var rest := Recent(s[1..], now, window);
      RecentTwice(s[1..], now, window);
      if now - s[0] < window {
        assert ([s[0]] + rest)[1..] == rest;
      } else {
        assert [] + rest == rest;
      }
    }
  }

  /** The key has only live stamps, if any: purging keeps it. */
  predicate LiveKey<K>(t: Table<K>, k: K, now: real, window: real) {
    k in t ==> t[k] != [] && Recent(t[k], now, window) == t[k]
  }

  lemma LiveIsSmaller<K>(t: Table<K>, k: K, now: real, window: real)
    ensures |Live(t, k, now, window)| <= |t| && LiveKey(Live(t, k, now, window), k, now, window)
  {
    RecentTwice(Stamps(t, k), now, window);
    var r := Live(t, k, now, window);
    assert r.Keys <= t.Keys;
    SubsetSize(r.Keys, t.Keys);
    assert |r| == |r.Keys| && |t| == |t.Keys|;
  }

  lemma PurgedIsSmaller<K>(t: Table<K>, k: K, now: real, window: real, maxEntries: nat)
    ensures |Purged(t, now, window)| <= |t|
    ensures LiveKey(t, k, now, window) ==>
              LiveKey(Purged(t, now, window), k, now, window)
              && (Fits(t, k, maxEntries) ==> Fits(Purged(t, now, window), k, maxEntries))
  {
    RecentTwice(Stamps(t, k), now, window);
    var r := Purged(t, now, window);
    assert r.Keys <= t.Keys;
    SubsetSize(r.Keys, t.Keys);
    assert |r| == |r.Keys| && |t| == |t.Keys|;
  }

  lemma AppendIsBounded<K>(t: Table<K>, k: K, now: real, maxEntries: nat)
    requires Fits(t, k, maxEntries) && |t| <= maxEntries
    ensures |Append(t, k, now)| <= maxEntries
  {
    var r := Append(t, k, now);
    assert |r| == |r.Keys| && |t| == |t.Keys| && r.Keys == t.Keys + {k};
    if k in t { assert r.Keys == t.Keys; }
  }

  lemma ReleaseIsSmaller<K>(t: Table<K>, k: K, slot: real)
    ensures |Release(t, k, slot)| <= |t|
  {
    var r := Release(t, k, slot);
    assert r.Keys <= t.Keys;
    SubsetSize(r.Keys, t.Keys);
    assert |r| == |r.Keys| && |t| == |t.Keys|;
  }

  ghost predicate LiveKeys(t: Tables, client: string, name: string, now: real, window: real) {
    && LiveKey(t.names, (client, name), now, window)
    && LiveKey(t.clients, client, now, window)
    && LiveKey(t.accounts, name, now, window)
  }

  lemma PurgeAllFits(t: Tables, client: string, name: string, now: real, l: Limits)
    requires LiveKeys(t, client, name, now, l.window) && Bounded(t, l)
    ensures var p := PurgeAll(t, now, l.window);
            LiveKeys(p, client, name, now, l.window) && Bounded(p, l)
            && (Fits(t.names, (client, name), l.maxEntries) ==> Fits(p.names, (client, name), l.maxEntries))
            && (Fits(t.clients, client, l.maxEntries) ==> Fits(p.clients, client, l.maxEntries))
  {
    hide Purged, Recent;
    PurgedIsSmaller(t.names, (client, name), now, l.window, l.maxEntries);
    PurgedIsSmaller(t.clients, client, now, l.window, l.maxEntries);
    PurgedIsSmaller(t.accounts, name, now, l.window, l.maxEntries);
  }

  /** When room was made for all three keys there is room for each at once: a later purge takes away
      none of the keys an earlier check counted on. */
  lemma RoomIsRoom(t: Tables, client: string, name: string, now: real, l: Limits)
    requires LiveKeys(t, client, name, now, l.window) && Bounded(t, l)
    ensures var (r, ok) := MakeRoom(t, client, name, now, l);
            Bounded(r, l)
            && (ok ==> Fits(r.names, (client, name), l.maxEntries) && Fits(r.clients, client, l.maxEntries)
                       && Fits(r.accounts, name, l.maxEntries))
  {
    hide PurgeAll, LiveKeys, Bounded, Fits;
    PurgeAllFits(t, client, name, now, l);
    var a := if Fits(t.names, (client, name), l.maxEntries) then t else PurgeAll(t, now, l.window);
    PurgeAllFits(a, client, name, now, l);
    var b := if Fits(a.clients, client, l.maxEntries) then a else PurgeAll(a, now, l.window);
    PurgeAllFits(b, client, name, now, l);
  }

  lemma ReserveIsBounded(t: Tables, client: string, name: string, now: real, l: Limits)
    requires Bounded(t, l)
    ensures Bounded(Reserve(t, client, name, now, l).0, l)
  {
    hide Live, Append, MakeRoom, Stamps, LiveKey, Fits;
    var pair := (client, name);
    LiveIsSmaller(t.names, pair, now, l.window);
    LiveIsSmaller(t.clients, client, now, l.window);
    LiveIsSmaller(t.accounts, name, now, l.window);
    var t3 := Tables(Live(t.names, pair, now, l.window), Live(t.clients, client, now, l.window),
                     Live(t.accounts, name, now, l.window));
    RoomIsRoom(t3, client, name, now, l);
    var (t4, ok) := MakeRoom(t3, client, name, now, l);
    if ok {
      AppendIsBounded(t4.names, pair, now, l.maxEntries);
      AppendIsBounded(t4.clients, client, now, l.maxEntries);
      AppendIsBounded(t4.accounts, name, now, l.maxEntries);
    }
  }

  // ----- every run -----

  lemma AttemptHolds(w: World, client: string, name: string, at: real, l: Limits)
    requires Inv(w, l) && w.now <= at
    ensures Inv(Next(w, Attempt(client, name, at), l), l)
  {
    hide TablesTrack, Bounded, Guarantee, Reserve, OfClient, OfAccount, OfRound;
    ReserveTracks(w, client, name, at, l);
    ReserveIsBounded(w.tables, client, name, at, l);
    if Reserve(w.tables, client, name, at, l).1 {
      MoreGuaranteed(w.grants, Grant(client, name, at, false, w.wins[(client, name)]), l);
    }
  }

  /** A success starts a new round for its pair: none of the pair's grants so far counts any more. */
  lemma SuccessTracks(w: World, i: nat, l: Limits)
    requires Inv(w, l) && i < |w.grants| && !w.grants[i].released
    ensures var v := Next(w, Success(i), l); TablesTrack(v.tables, v.grants, v.wins, v.now, l.window)
  {
    var g := w.grants[i];
    var h := g.(released := true);
    var v := Next(w, Success(i), l);
    assert forall j: string :: !OfClient(j)(h) && (OfClient(j)(g) <==> j == g.client);
    assert forall j: string :: !OfAccount(j)(h) && (OfAccount(j)(g) <==> j == g.name);
    ReleaseTracks(w.tables.clients, g.client, w.grants, i, h, OfClient, w.now, l.window);
    ReleaseTracks(w.tables.accounts, g.name, w.grants, i, h, OfAccount, w.now, l.window);
    forall p: (string, string)
      ensures Tracks(Stamps(v.tables.names, p), v.grants, Rounds(v.wins)(p), v.now, l.window)
    {
      assert Tracks(Stamps(w.tables.names, p), w.grants, Rounds(w.wins)(p), w.now, l.window);
      RoundAfterSuccess(w, i, p);
    }
  }

  lemma RoundAfterSuccess(w: World, i: nat, p: (string, string))
    requires i < |w.grants| && forall g :: g in w.grants ==> g.round <= w.wins[(g.client, g.name)]
    ensures var g := w.grants[i];
            var q := (g.client, g.name);
            var gs := w.grants[i := g.(released := true)];
            var wins := w.wins + multiset{q};
            if p == q then Times(gs, OfRound(p, wins[p])) == []
            else Times(gs, OfRound(p, wins[p])) == Times(w.grants, OfRound(p, w.wins[p]))
  {
    var g := w.grants[i];
    var q := (g.client, g.name);
    var h := g.(released := true);
    var gs := w.grants[i := h];
    if p == q {
      forall k | k in gs ensures !OfRound(p, w.wins[p] + 1)(k) {
        assert k == h || k in w.grants;
      }
      NoTimes(gs, OfRound(p, w.wins[p] + 1));
    } else {
      hide Times;
      var sel := OfRound(p, w.wins[p]);
      assert w.grants[i := g] == w.grants;
      TimesAround(w.grants, i, g, sel);
      TimesAround(w.grants, i, h, sel);
    }
  }

  lemma SuccessHolds(w: World, i: nat, l: Limits)
    requires Inv(w, l) && i < |w.grants| && !w.grants[i].released
    ensures Inv(Next(w, Success(i), l), l)
  {
    SuccessTracks(w, i, l);
    ReleasedGuaranteed(w.grants, i, l);
    hide TablesTrack, Guarantee, Release;
    var g := w.grants[i];
    var names := w.tables.names - {(g.client, g.name)};
    assert names.Keys <= w.tables.names.Keys;
    SubsetSize(names.Keys, w.tables.names.Keys);
    assert |names| == |names.Keys| && |w.tables.names| == |w.tables.names.Keys|;
    ReleaseIsSmaller(w.tables.clients, g.client, g.at);
    ReleaseIsSmaller(w.tables.accounts, g.name, g.at);
    var gs := w.grants[i := g.(released := true)];
    forall h | h in gs ensures h.at <= w.now && h.round <= (w.wins + multiset{(g.client, g.name)})[(h.client, h.name)] {
      assert h == g.(released := true) || h in w.grants;
    }
  }

  /** A run: each event enabled where it happens. */
  ghost predicate IsRun(ws: seq<World>, es: seq<Event>, l: Limits) {
    && |ws| == |es| + 1
    && ws[0] == Start(ws[0].now)
    && forall k :: 0 <= k < |es| ==> Enabled(ws[k], es[k]) && ws[k + 1] == Next(ws[k], es[k], l)
  }

  /** At every moment of every run, in every half-open interval as long as the window: a client has at
      most `perClient` granted slots that no success released, a name at most `perAccount`, and a pair
      at most `perName` between its successes; and no table holds more than `maxEntries` keys. */
  lemma {:induction false} WindowGuarantee(ws: seq<World>, es: seq<Event>, l: Limits, k: nat)
    requires IsRun(ws, es, l) && k < |ws|
    ensures Guarantee(ws[k].grants, l) && Bounded(ws[k].tables, l)
    ensures Inv(ws[k], l)
  {
    hide Guarantee, Bounded, TablesTrack;
    if k == 0 {
      StartHolds(ws[0].now, l);
    } else {
      WindowGuarantee(ws, es, l, k - 1);
      assert ws[k] == Next(ws[k - 1], es[k - 1], l);
      match es[k - 1]
      case Attempt(client, name, at) => AttemptHolds(ws[k - 1], client, name, at, l);
      case Success(i) => SuccessHolds(ws[k - 1], i, l);
    }
  }
}
