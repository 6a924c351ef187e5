/** The account tables, one locked transaction at a time. Hashes carry the password they were made from
    and a salt; account ids, salts and tokens are drawn by the caller. */
module Stores {
  import opened Rules

  datatype Hash = Hash(password: string, salt: nat)

  /** An account row; its name is the key of the table. */
  datatype Row = Row(id: nat, hash: Hash)

  datatype Login = Login(account: nat, expires: int)

  /** What a verified sign-in carries to the transaction that opens its login. */
  datatype Verified = Verified(id: nat, name: string, hash: Hash)

  datatype Db = Db(users: map<string, Row>, logins: map<nat, Login>)

  predicate Verify(password: string, h: Hash) {
    h.password == password
  }

  /** The logins of every other account. */
  function LoginsWithout(logins: map<nat, Login>, id: nat): map<nat, Login> {
    map t | t in logins && logins[t].account != id :: logins[t]
  }

  function Unexpired(logins: map<nat, Login>, now: int): map<nat, Login> {
    map t | t in logins && !(logins[t].expires < now) :: logins[t]
  }

  function Added(db: Db, name: string, id: nat, h: Hash): Db {
    if name in db.users then db else db.(users := db.users[name := Row(id, h)])
  }

  function PasswordSet(db: Db, name: string, h: Hash): Db {
    if name !in db.users then db
    else Db(db.users[name := db.users[name].(hash := h)], LoginsWithout(db.logins, db.users[name].id))
  }

  function Removed(db: Db, name: string): Db {
    if name !in db.users then db
    else Db(db.users - {name}, LoginsWithout(db.logins, db.users[name].id))
  }

  /** The hash a verified sign-in may still replace, or open a login with. */
  predicate Current(db: Db, v: Verified) {
    v.name in db.users && db.users[v.name] == Row(v.id, v.hash)
  }

  function Rehashed(db: Db, v: Verified, h: Hash): Db {
    if Current(db, v) then db.(users := db.users[v.name := Row(v.id, h)]) else db
  }

  function Opened(db: Db, v: Verified, token: nat, now: int, seconds: int): Db {
    var live := Unexpired(db.logins, now);
    if Current(db, v) then db.(logins := live[token := Login(v.id, now + seconds)]) else db.(logins := live)
  }

  class Store {
    var users: map<string, Row>
    var logins: map<nat, Login>

    ghost function Now(): Db
      reads this
    {
      Db(users, logins)
    }

    constructor ()
      ensures Now() == Db(map[], map[])
    {
      users, logins := map[], map[];
    }

    /** Refused when the name is taken. */
    method AddUser(name: string, id: nat, h: Hash) returns (ok: bool)
      modifies this
      ensures Now() == Added(old(Now()), name, id, h) && ok == (name !in old(users))
      ensures users == (if ok then old(users)[name := Row(id, h)] else old(users)) && logins == old(logins)
    {
      ok := name !in users;
      if ok {
        users := users[name := Row(id, h)];
      }
    }

    /** In one transaction the account gets a new hash and loses its logins. */
    method SetPassword(name: string, h: Hash) returns (ok: bool)
      modifies this
      ensures Now() == PasswordSet(old(Now()), name, h) && ok == (name in old(users))
      ensures ok ==> name in users && users == old(users)[name := Row(old(users)[name].id, h)]
      ensures ok ==> forall t :: t in logins <==> t in old(logins) && old(logins)[t].account != users[name].id
      ensures forall t :: t in logins ==> t in old(logins) && logins[t] == old(logins)[t]
      ensures !ok ==> users == old(users) && logins == old(logins)
    {
      ok := name in users;
      if ok {
        logins := LoginsWithout(logins, users[name].id);
        users := users[name := users[name].(hash := h)];
      }
    }

    /** Delete the account and its logins, in one transaction. */
    method RemoveUser(name: string) returns (ok: bool)
      modifies this
      ensures Now() == Removed(old(Now()), name) && ok == (name in old(users)) && users == old(users) - {name}
      ensures ok ==> forall t :: t in logins <==> t in old(logins) && old(logins)[t].account != old(users)[name].id
      ensures forall t :: t in logins ==> t in old(logins) && logins[t] == old(logins)[t]
      ensures !ok ==> logins == old(logins)
    {
      ok := name in users;
      if ok {
        logins := LoginsWithout(logins, users[name].id);
        users := users - {name};
      }
    }

    /** The row a password is verified against. */
    method FindRow(name: string) returns (row: Option<Row>)
      ensures row == if name in users then Some(users[name]) else None
    {
      row := if name in users then Some(users[name]) else None;
    }

    /** Replace a cheaper hash that is still the account's. */
    method ReplaceHash(v: Verified, h: Hash) returns (changed: bool)
      modifies this
      ensures Now() == Rehashed(old(Now()), v, h) && logins == old(logins)
      ensures changed == (v.name in old(users) && old(users)[v.name] == Row(v.id, v.hash))
      ensures users == if changed then old(users)[v.name := Row(v.id, h)] else old(users)
    {
      changed := v.name in users && users[v.name] == Row(v.id, v.hash);
      if changed {
        users := users[v.name := Row(v.id, h)];
      }
    }

    /** A token is stored unless the account's hash has changed since it was verified. */
    method OpenLogin(v: Verified, token: nat, now: int, seconds: int) returns (stored: bool)
      modifies this
      ensures Now() == Opened(old(Now()), v, token, now, seconds) && users == old(users)
      ensures stored == (v.name in users && users[v.name] == Row(v.id, v.hash))
      ensures stored ==> token in logins && logins[token] == Login(v.id, now + seconds)
      ensures forall t :: t != token || !stored ==> (t in logins <==> t in old(logins) && old(logins)[t].expires >= now)
      ensures forall t :: (t != token || !stored) && t in logins ==> logins[t] == old(logins)[t]
    {
      logins := Unexpired(logins, now);
      stored := v.name in users && users[v.name] == Row(v.id, v.hash);
      if stored {
        logins := logins[token := Login(v.id, now + seconds)];
      }
    }

    method PurgeLogins(now: int)
      modifies this
      ensures Now() == old(Now()).(logins := Unexpired(old(logins), now)) && users == old(users)
      ensures forall t :: t in logins <==> t in old(logins) && old(logins)[t].expires >= now
      ensures forall t :: t in logins ==> logins[t] == old(logins)[t]
    {
      logins := Unexpired(logins, now);
    }

    method CloseLogin(token: nat)
      modifies this
      ensures Now() == old(Now()).(logins := old(logins) - {token})
    {
      logins := logins - {token};
    }
  }
}

/** Sign-ins racing password changes, removals and re-added names, in every interleaving. */
module SignIns {
  import opened Stores

  /** A sign-in between its verification and its login; `epoch` counts the password changes its
      account had had when its row was read. */
  datatype Pending = Pending(v: Verified, password: string, epoch: nat)

  /** A stored login's origin. */
  datatype Origin = Origin(password: string, epoch: nat)

  datatype World = World(
    db: Db, pending: map<nat, Pending>, origins: map<nat, Origin>,
    epochs: map<nat, nat>, salts: set<nat>, tokens: set<nat>)

  const START := World(Db(map[], map[]), map[], map[], map[], {}, {})

  datatype Step =
    | Add(name: string, password: string, id: nat, salt: nat)
    | Set(name: string, password: string, salt: nat)
    | Remove(name: string)
    | Read(s: nat, name: string, password: string)
    | Rehash(s: nat, salt: nat)
    | Open(s: nat, token: nat, now: int, seconds: int)
    | Purge(now: int)
    | Close(token: nat)

  /** Ids, salts and tokens are fresh; a sign-in verifies once, and opens what it verified. */
  predicate Enabled(w: World, step: Step) {
    match step
    case Add(_, _, id, salt) => id !in w.epochs && salt !in w.salts
    case Set(_, _, salt) => salt !in w.salts
    case Read(s, _, _) => s !in w.pending
    case Rehash(s, salt) => s in w.pending && salt !in w.salts
    case Open(s, token, _, _) => s in w.pending && token !in w.tokens
    case _ => true
  }

  /** How often an account's password has been changed. */
  function EpochOf(w: World, id: nat): nat {
    if id in w.epochs then w.epochs[id] else 0
  }

  function Next(w: World, step: Step): World
    requires Enabled(w, step)
  {
    match step
    case Add(name, password, id, salt) =>
      w.(db := Added(w.db, name, id, Hash(password, salt)), salts := w.salts + {salt}, epochs := w.epochs[id := 0])
    case Set(name, password, salt) =>
      var changed := if name in w.db.users
                     then w.epochs[w.db.users[name].id := EpochOf(w, w.db.users[name].id) + 1] else w.epochs;
      w.(db := PasswordSet(w.db, name, Hash(password, salt)), salts := w.salts + {salt}, epochs := changed)
    case Remove(name) => w.(db := Removed(w.db, name))
    case Read(s, name, password) =>
      if name in w.db.users && Verify(password, w.db.users[name].hash) then
        var row := w.db.users[name];
        w.(pending := w.pending[s := Pending(Verified(row.id, name, row.hash), password, EpochOf(w, row.id))])
      else w
    case Rehash(s, salt) =>
      var p := w.pending[s];
      var h := Hash(p.password, salt);
      w.(db := Rehashed(w.db, p.v, h), salts := w.salts + {salt},
         pending := if Current(w.db, p.v) then w.pending[s := p.(v := p.v.(hash := h))] else w.pending)
    case Open(s, token, now, seconds) =>
      var p := w.pending[s];
      w.(db := Opened(w.db, p.v, token, now, seconds), pending := w.pending - {s}, tokens := w.tokens + {token},
         origins := if Current(w.db, p.v) then w.origins[token := Origin(p.password, p.epoch)] else w.origins)
    case Purge(now) => w.(db := w.db.(logins := Unexpired(w.db.logins, now)))
    case Close(token) => w.(db := w.db.(logins := w.db.logins - {token}))
  }

  /** A login of the account `name`, opened with the password that is the account's now, no change of
      which has happened since the row it was verified against was read. */
  ghost predicate GoodFor(w: World, token: nat, name: string) {
    && token in w.db.logins && token in w.origins && name in w.db.users
    && w.db.users[name].id == w.db.logins[token].account
    && Verify(w.origins[token].password, w.db.users[name].hash)
    && EpochOf(w, w.db.users[name].id) == w.origins[token].epoch
  }

  ghost predicate Good(w: World, token: nat) {
    exists name :: GoodFor(w, token, name)
  }

  ghost predicate AllGood(w: World) {
    forall token :: token in w.db.logins ==> Good(w, token)
  }

  /** Accounts have known ids, all different, and known salts. */
  ghost predicate UsersOk(w: World) {
    && (forall name :: name in w.db.users ==> w.db.users[name].id in w.epochs && w.db.users[name].hash.salt in w.salts)
    && (forall a, b :: a in w.db.users && b in w.db.users && w.db.users[a].id == w.db.users[b].id ==> a == b)
  }

  /** A pending sign-in's hash has its password and a known salt; while it is the account's hash, the
      password has not been changed since the sign-in read it. */
  ghost predicate PendingOk(w: World) {
    forall s :: s in w.pending ==>
      var p := w.pending[s];
      Verify(p.password, p.v.hash) && p.v.hash.salt in w.salts && p.v.id in w.epochs
      && (Current(w.db, p.v) ==> EpochOf(w, p.v.id) == p.epoch)
  }

  ghost predicate Inv(w: World) {
    && AllGood(w) && UsersOk(w) && PendingOk(w)
    && (forall token :: token in w.db.logins ==> token in w.tokens)
  }

  lemma StartHolds()
    ensures Inv(START)
  {
  }

  lemma UsersStayOk(w: World, step: Step)
    requires Inv(w) && Enabled(w, step)
    ensures UsersOk(Next(w, step))
  {
  }

  lemma PendingStaysOk(w: World, step: Step)
    requires Inv(w) && Enabled(w, step)
    ensures PendingOk(Next(w, step))
  {
  }

  /** A login that a step leaves in place stays good. */
  lemma LoginStaysGood(w: World, step: Step, token: nat, name: string)
    requires Inv(w) && Enabled(w, step) && GoodFor(w, token, name) && token in Next(w, step).db.logins
    ensures GoodFor(Next(w, step), token, name)
  {
    hide AllGood, PendingOk;
    match step
    case Add(other, _, _, _) => assert other != name || other in w.db.users;
    case Set(other, _, _) =>
      assert other in w.db.users && w.db.users[other].id == w.db.users[name].id ==> other == name;
    case Remove(other) => assert other in w.db.users && w.db.users[other].id == w.db.users[name].id ==> other == name;
    case Rehash(s, _) => PendingHash(w, s);
    case _ =>
  }

  lemma PendingHash(w: World, s: nat)
    requires PendingOk(w) && s in w.pending
    ensures Verify(w.pending[s].password, w.pending[s].v.hash)
    ensures Current(w.db, w.pending[s].v) ==> EpochOf(w, w.pending[s].v.id) == w.pending[s].epoch
  {
  }

  lemma LoginsStayGood(w: World, step: Step, token: nat)
    requires Inv(w) && Enabled(w, step) && token in Next(w, step).db.logins
    ensures Good(Next(w, step), token)
  {
    if step.Open? && step.token == token {
      hide AllGood, UsersOk, PendingOk;
      PendingHash(w, step.s);
      assert token !in w.db.logins;
      assert GoodFor(Next(w, step), token, w.pending[step.s].v.name);
    } else {
      LoginWasThere(w, step, token);
      hide GoodFor, UsersOk, PendingOk, Next;
      assert Good(w, token);
      var name :| GoodFor(w, token, name);
      LoginStaysGood(w, step, token, name);
    }
  }

  lemma LoginWasThere(w: World, step: Step, token: nat)
    requires Enabled(w, step) && token in Next(w, step).db.logins && !(step.Open? && step.token == token)
    ensures token in w.db.logins
  {
  }

  lemma StepHolds(w: World, step: Step)
    requires Inv(w) && Enabled(w, step)
    ensures Inv(Next(w, step))
  {
    UsersStayOk(w, step);
    PendingStaysOk(w, step);
    forall token | token in Next(w, step).db.logins ensures Good(Next(w, step), token) {
      LoginsStayGood(w, step, token);
    }
    hide Good, UsersOk, PendingOk;
  }

  ghost predicate IsRun(ws: seq<World>, steps: seq<Step>) {
    && |ws| == |steps| + 1 && ws[0] == START
    && forall k :: 0 <= k < |steps| ==> Enabled(ws[k], steps[k]) && ws[k + 1] == Next(ws[k], steps[k])
  }

  /** At every moment of every interleaving, every stored login is of an existing account and was opened
      with the password that account has now; no password change came between its verification and now. */
  lemma {:induction false} LoginsAreCurrent(ws: seq<World>, steps: seq<Step>, k: nat)
    requires IsRun(ws, steps) && k < |ws|
    ensures AllGood(ws[k])
    ensures Inv(ws[k])
  {
    hide Inv;
    if k == 0 {
      StartHolds();
    } else {
      LoginsAreCurrent(ws, steps, k - 1);
      StepHolds(ws[k - 1], steps[k - 1]);
    }
    InvIsGood(ws[k]);
  }

  lemma InvIsGood(w: World)
    requires Inv(w)
    ensures AllGood(w)
  {
  }
}
