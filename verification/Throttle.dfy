/** The sign-in throttle: three tables of time stamps share one slot for each attempt, in a sliding
    window. Keys are taken as the throttle makes them from addresses and names. */
module Throttle {
  import opened Rules

  datatype Limits = Limits(window: real, perName: nat, perClient: nat, perAccount: nat, maxEntries: nat)

  type Table<K> = map<K, seq<real>>

  datatype Tables = Tables(names: Table<(string, string)>, clients: Table<string>, accounts: Table<string>)

  function Stamps<K>(t: Table<K>, k: K): seq<real> {
    if k in t then t[k] else []
  }

  /** The stamps still inside the window that ends now. */
  function Recent(s: seq<real>, now: real, window: real): seq<real> {
    if s == [] then []
    else (if now - s[0] < window then [s[0]] else []) + Recent(s[1..], now, window)
  }

  /** Drop a key's expired stamps, and the key with its last one. */
  function Live<K>(t: Table<K>, k: K, now: real, window: real): Table<K> {
    var s := Recent(Stamps(t, k), now, window);
    if s != [] then t[k := s] else t - {k}
  }

  /** Every key of a table made live. */
  function Purged<K>(t: Table<K>, now: real, window: real): Table<K> {
    map k | k in t && Recent(t[k], now, window) != [] :: Recent(t[k], now, window)
  }

  function PurgeAll(t: Tables, now: real, window: real): Tables {
    Tables(Purged(t.names, now, window), Purged(t.clients, now, window), Purged(t.accounts, now, window))
  }

  predicate Fits<K>(t: Table<K>, k: K, maxEntries: nat) {
    k in t || |t| < maxEntries
  }

  function Append<K>(t: Table<K>, k: K, now: real): Table<K> {
    t[k := Stamps(t, k) + [now]]
  }

  /** Take the first stamp equal to `slot` out. */
  function Without(s: seq<real>, slot: real): seq<real> {
    if s == [] then [] else if s[0] == slot then s[1..] else [s[0]] + Without(s[1..], slot)
  }

  function Release<K>(t: Table<K>, k: K, slot: real): Table<K> {
    if slot !in Stamps(t, k) then t
    else
      var s := Without(t[k], slot);
      if s != [] then t[k := s] else t - {k}
  }

  lemma {:induction false} WithoutIsOneLess(s: seq<real>, slot: real)
    requires slot in s
    ensures |Without(s, slot)| == |s| - 1
    ensures multiset(Without(s, slot)) == multiset(s) - multiset{slot}
  {
    assert s == [s[0]] + s[1..];
    if s[0] != slot { WithoutIsOneLess(s[1..], slot); }
  }

  /** Releasing a slot frees exactly that one. */
  lemma ReleaseFreesOne<K>(t: Table<K>, k: K, slot: real)
    ensures |Stamps(Release(t, k, slot), k)| == |Stamps(t, k)| - if slot in Stamps(t, k) then 1 else 0
    ensures multiset(Stamps(Release(t, k, slot), k)) == multiset(Stamps(t, k)) - multiset{slot}
    ensures Release(t, k, slot) - {k} == t - {k}
  {
    if slot in Stamps(t, k) { WithoutIsOneLess(t[k], slot); }
  }

  /** Make room for the three keys: each table that is full has all three purged first. */
  function MakeRoom(t: Tables, client: string, name: string, now: real, l: Limits): (r: (Tables, bool)) {
    var a := if Fits(t.names, (client, name), l.maxEntries) then t else PurgeAll(t, now, l.window);
    if !Fits(a.names, (client, name), l.maxEntries) then (a, false)
    else
      var b := if Fits(a.clients, client, l.maxEntries) then a else PurgeAll(a, now, l.window);
      if !Fits(b.clients, client, l.maxEntries) then (b, false)
      else
        var c := if Fits(b.accounts, name, l.maxEntries) then b else PurgeAll(b, now, l.window);
        (c, Fits(c.accounts, name, l.maxEntries))
  }

  /** One attempt: the tables after it, and whether a slot was granted. */
  function Reserve(t: Tables, client: string, name: string, now: real, l: Limits): (r: (Tables, bool)) {
    var t1 := t.(names := Live(t.names, (client, name), now, l.window));
    if |Stamps(t1.names, (client, name))| >= l.perName then (t1, false)
    else
      var t2 := t1.(clients := Live(t1.clients, client, now, l.window));
      if |Stamps(t2.clients, client)| >= l.perClient then (t2, false)
      else
        var t3 := t2.(accounts := Live(t2.accounts, name, now, l.window));
        if |Stamps(t3.accounts, name)| >= l.perAccount then (t3, false)
        else
          var (t4, ok) := MakeRoom(t3, client, name, now, l);
          if !ok then (t4, false)
          else (Tables(Append(t4.names, (client, name), now), Append(t4.clients, client, now),
                       Append(t4.accounts, name, now)), true)
  }

  function Succeed(t: Tables, client: string, name: string, slot: real): Tables {
    Tables(t.names - {(client, name)}, Release(t.clients, client, slot), Release(t.accounts, name, slot))
  }

  // ----- the class -----

  class LoginThrottle {
    const limits: Limits
    var names: Table<(string, string)>
    var clients: Table<string>
    var accounts: Table<string>

    ghost function Now(): Tables
      reads this
    {
      Tables(names, clients, accounts)
    }

    constructor (limits: Limits)
      ensures this.limits == limits && Now() == Tables(map[], map[], map[])
    {
      this.limits := limits;
      names, clients, accounts := map[], map[], map[];
    }

    /** Make every key of one table live. */
    method PurgeTable<K(==)>(t: Table<K>, now: real) returns (r: Table<K>)
      ensures r == Purged(t, now, limits.window)
    {
      r := t;
      var left := t.Keys;
      while left != {}
        invariant left <= t.Keys
        invariant forall k :: k in left ==> k in r && r[k] == t[k]
        invariant forall k :: k in r && k !in left ==>
                    k in t && r[k] == Recent(t[k], now, limits.window) && r[k] != []
        invariant forall k :: k in t && k !in left && Recent(t[k], now, limits.window) != [] ==> k in r
        decreases |left|
      {
        var k :| k in left;
        left := left - {k};
        r := Live(r, k, now, limits.window);
      }
    }

    method Purge(now: real)
      modifies this
      ensures Now() == PurgeAll(old(Now()), now, limits.window)
    {
      names := PurgeTable(names, now);
      clients := PurgeTable(clients, now);
      accounts := PurgeTable(accounts, now);
    }

    /** Take a slot for an attempt; `None` refuses the attempt. */
    method TryReserve(client: string, name: string, now: real) returns (slot: Option<real>)
      modifies this
      ensures (Now(), slot.Some?) == Reserve(old(Now()), client, name, now, limits)
      ensures slot.Some? ==> slot.value == now
    {
      var pair := (client, name);
      names := Live(names, pair, now, limits.window);
      if |Stamps(names, pair)| >= limits.perName {
        return None;
      }
      clients := Live(clients, client, now, limits.window);
      if |Stamps(clients, client)| >= limits.perClient {
        return None;
      }
      accounts := Live(accounts, name, now, limits.window);
      if |Stamps(accounts, name)| >= limits.perAccount {
        return None;
      }
      if !Fits(names, pair, limits.maxEntries) { Purge(now); }
      if !Fits(names, pair, limits.maxEntries) {
        return None;
      }
      if !Fits(clients, client, limits.maxEntries) { Purge(now); }
      if !Fits(clients, client, limits.maxEntries) {
        return None;
      }
      if !Fits(accounts, name, limits.maxEntries) { Purge(now); }
      if !Fits(accounts, name, limits.maxEntries) {
        return None;
      }
      names := Append(names, pair, now);
      clients := Append(clients, client, now);
      accounts := Append(accounts, name, now);
      return Some(now);
    }

    /** A success forgets the pair's stamps and frees its own stamp of the client and of the name. */
    method Succeeded(client: string, name: string, slot: real)
      modifies this
      ensures Now() == Succeed(old(Now()), client, name, slot)
      ensures (client, name) !in names
      ensures var was := Stamps(old(clients), client);
              |Stamps(clients, client)| == |was| - if slot in was then 1 else 0
      ensures var was := Stamps(old(accounts), name);
              |Stamps(accounts, name)| == |was| - if slot in was then 1 else 0
      ensures names == old(names) - {(client, name)}
      ensures multiset(Stamps(clients, client)) == multiset(Stamps(old(clients), client)) - multiset{slot}
      ensures multiset(Stamps(accounts, name)) == multiset(Stamps(old(accounts), name)) - multiset{slot}
      ensures clients - {client} == old(clients) - {client} && accounts - {name} == old(accounts) - {name}
    {
      ReleaseFreesOne(clients, client, slot);
      ReleaseFreesOne(accounts, name, slot);
      names := names - {(client, name)};
      clients := Release(clients, client, slot);
      accounts := Release(accounts, name, slot);
    }
  }
}
