/**
 The account store and its sessions: the three user tables, the live cache entries, and the
 handlers of src/server.c that change them, as functions on values. `Server.dfy` proves the
 imperative handlers against these.
 */
module Accounts {
  import opened CStrings
  import opened Records
  import opened ActiveUsers

  /** login token -> login record, display name -> uuid, uuid -> account. */
  datatype Tables = Tables(logins: map<string, Login>, names: map<string, string>, accounts: map<string, Account>)

  datatype Session = Session(db: Tables, cache: seq<Entry>)

  datatype Result = Result(to: Session, outcome: Outcome)

  const NO_TABLES := Tables(map[], map[], map[])

  // ---------------------------------------------------------------- handlers

  function NewAccount(uuid: string, name: string): Account {
    Account(uuid, name, OFFLINE_IP, false, PrivilegeOf(name))
  }

  function LoggedIn(a: Account, addr: string): Account {
    a.(ip := addr, online := true, privilege := if a.name == ADMIN then 1 else a.privilege)
  }

  function LoggedOut(a: Account): Account {
    a.(ip := OFFLINE_IP, online := false)
  }

  function EntryFor(fd: int, a: Account, l: Login): Entry {
    Entry(fd, a.name, a.ip, l.token, a.id, a.privilege)
  }

  function AddUser(db: Tables, l: Login, name: string): Tables {
    Tables(db.logins[l.token := l], db.names[name := l.uuid], db.accounts[l.uuid := NewAccount(l.uuid, name)])
  }

  /** `create_admin` */
  function CreateAdmin(db: Tables): Tables {
    if ADMIN in db.names then db else AddUser(db, Login(ADMIN, ADMIN, ADMIN_UUID), ADMIN)
  }

  /** `read_and_create_user`: token, display name, password. */
  function CreateUser(db: Tables, body: string, uuid: string): (Tables, Outcome) {
    match ReadBody(body)
    case Fields(fs) =>
      if !Has(fs, 0, NAME_LIMIT) || !Has(fs, 1, NAME_LIMIT) then (db, Fault)
      else if fs[0] in db.logins && fs[1] in db.names then (db, Reply(3))
      else if fs[0] in db.logins then (db, Reply(1))
      else if fs[1] in db.names then (db, Reply(2))
      else if !Has(fs, 2, PASSWORD_LIMIT) then (db, Fault)
      else (AddUser(db, Login(fs[0], fs[2], uuid), fs[1]), Reply(0))
    case _ => (db, Fault)
  }

  function DropUser(db: Tables, name: string, l: Login): Tables {
    Tables(db.logins - {l.token}, db.names - {name}, db.accounts - {l.uuid})
  }

  /** The three fields of a destroy request: display name, token, password. */
  predicate DestroyFields(body: string) {
    match ReadBody(body)
    case Fields(fs) => Has(fs, 0, NAME_LIMIT) && Has(fs, 1, NAME_LIMIT) && Has(fs, 2, PASSWORD_LIMIT)
    case _ => false
  }

  /** `read_and_destroy_user`; the cache is only read. */
  function DestroyUser(s: Session, fd: int, body: string): (Tables, Outcome) {
    var db := s.db;
    var sender := ByFd(s.cache, fd);
    if !DestroyFields(body) || sender.None? then (db, Fault)
    else
      var fs := ReadBody(body).fields;
      var account := if sender.value.uuid in db.accounts then Some(db.accounts[sender.value.uuid]) else None;
      if fs[1] !in db.logins && account.None? then (db, Fault)
      else if fs[1] !in db.logins && account.value.privilege == 1 then (db, Reply(2))
      else if sender.value.name != fs[0] && sender.value.token !in db.logins then (db, Fault)
      else
        var stranger := sender.value.name != fs[0] && db.logins[sender.value.token].password != fs[2];
        if stranger && account.None? then (db, Fault)
        else if stranger && account.value.privilege == 0 then (db, Reply(3))
        else if fs[1] !in db.logins then (db, Fault)
        else (DropUser(db, fs[0], db.logins[fs[1]]), Reply(0))
  }

  /**
   A destroy request gets through: complete fields, a live sender, a registered token, and the
   sender's own name, his own password, or a privileged account.
   */
  predicate DestroyGranted(s: Session, fd: int, body: string) {
    && DestroyFields(body) && ByFd(s.cache, fd).Some?
    && var fs, sender, db := ReadBody(body).fields, ByFd(s.cache, fd).value, s.db;
       && fs[1] in db.logins
       && (sender.name == fs[0]
           || (&& sender.token in db.logins
               && (|| db.logins[sender.token].password == fs[2]
                   || (sender.uuid in db.accounts && db.accounts[sender.uuid].privilege != 0))))
  }

  /** The request succeeds exactly when it is granted; otherwise it changes nothing. */
  lemma DestroyIsGranted(s: Session, fd: int, body: string)
    ensures DestroyUser(s, fd, body).1 == Reply(0) <==> DestroyGranted(s, fd, body)
    ensures !DestroyGranted(s, fd, body) ==> DestroyUser(s, fd, body).0 == s.db
    ensures DestroyGranted(s, fd, body) ==>
              var fs := ReadBody(body).fields;
              DestroyUser(s, fd, body).0 == DropUser(s.db, fs[0], s.db.logins[fs[1]])
  {
  }

  /** `read_and_login_user`: token, password. A second address for an online account ends the run. */
  function LoginUser(s: Session, fd: int, addr: string, body: string): Result {
    var db := s.db;
    match ReadBody(body)
    case Fields(fs) =>
      if !Has(fs, 0, NAME_LIMIT) || !Has(fs, 1, PASSWORD_LIMIT) then Result(s, Fault)
      else if fs[0] !in db.logins then Result(s, Reply(2))
      else
        var l := db.logins[fs[0]];
        if Squeeze(l.password) != Squeeze(fs[1]) || Squeeze(l.token) != Squeeze(fs[0]) then Result(s, Reply(1))
        else if l.uuid !in db.accounts then Result(s, Fault)
        else Admit(s, fd, addr, db.accounts[l.uuid], l)
    case _ => Result(s, Fault)
  }

  /** Login once the credentials are accepted. */
  function Admit(s: Session, fd: int, addr: string, a: Account, l: Login): Result {
    if a.online && Elsewhere(s.cache, a.name, addr) then
      Result(if |s.cache| < MAX_CLIENTS then s.(cache := Append(s.cache, EntryFor(fd, a, l))) else s, Fault)
    else
      var b := LoggedIn(a, addr);
      var s' := s.(db := s.db.(accounts := s.db.accounts[b.id := b]));
      if SameCredentials(s.cache, fd, b.name, b.ip) then Result(s', Reply(0))
      else if |s.cache| < MAX_CLIENTS then Result(s'.(cache := Append(s.cache, EntryFor(fd, b, l))), Reply(0))
      else Result(s', Fault)
  }

  /** `read_and_logout_user`: display name. Case 0 of the switch falls through into case 1. */
  function LogoutUser(s: Session, addr: string, body: string): Result {
    var db := s.db;
    match ReadBody(body)
    case Fields(fs) =>
      if !Has(fs, 0, NAME_LIMIT) then Result(s, Fault)
      else if fs[0] !in db.names || db.names[fs[0]] !in db.accounts then Result(s, Reply(500))
      else
        var a := db.accounts[db.names[fs[0]]];
        if a.privilege == 0 && a.ip != addr then Result(s, Reply(2))
        else if a.privilege in {0, 1} && !a.online then Result(s, Reply(4))
        else if a.privilege !in {0, 1} then Result(s, Fault)
        else Result(Session(db.(accounts := db.accounts[a.id := LoggedOut(a)]), RemoveFirst(s.cache, a.name)), Reply(0))
    case _ => Result(s, Fault)
  }

  /** A logout request gets through: a registered name, an online account, and for a regular user its address. */
  predicate LogoutGranted(s: Session, addr: string, body: string) {
    && ReadBody(body).Fields? && Has(ReadBody(body).fields, 0, NAME_LIMIT)
    && var name, db := ReadBody(body).fields[0], s.db;
       && name in db.names && db.names[name] in db.accounts
       && var a := db.accounts[db.names[name]];
          a.online && (a.privilege == 1 || (a.privilege == 0 && a.ip == addr))
  }

  lemma LogoutIsGranted(s: Session, addr: string, body: string)
    ensures LogoutUser(s, addr, body).outcome == Reply(0) <==> LogoutGranted(s, addr, body)
    ensures !LogoutGranted(s, addr, body) ==> LogoutUser(s, addr, body).to == s
    ensures LogoutGranted(s, addr, body) ==>
              var a := s.db.accounts[s.db.names[ReadBody(body).fields[0]]];
              LogoutUser(s, addr, body).to == Leave(s, a)
  {
  }

  /** The account goes offline, and its first live entry goes. */
  function Leave(s: Session, a: Account): Session {
    Session(s.db.(accounts := s.db.accounts[a.id := LoggedOut(a)]), RemoveFirst(s.cache, a.name))
  }

  // ---------------------------------------------------------------- records

  /** Online status, stored address, privilege and name of one account hang together. */
  ghost predicate AccountOk(uuid: string, a: Account) {
    && a.id == uuid
    && a.name != ""
    && (a.online <==> a.ip != OFFLINE_IP)
    && a.privilege == PrivilegeOf(a.name)
    && (uuid == ADMIN_UUID ==> a.name == ADMIN)
  }

  ghost predicate RecordsOk(s: Session) {
    && (forall u :: u in s.db.accounts ==> AccountOk(u, s.db.accounts[u]))
    && (forall t :: t in s.db.logins ==> s.db.logins[t].token == t)
    && |s.cache| <= MAX_CLIENTS
    && (forall i :: 0 <= i < |s.cache| ==>
          s.cache[i].name != "" && s.cache[i].privilege == PrivilegeOf(s.cache[i].name))
  }

  /** A random uuid collides with no account and is never the administrator's. */
  predicate FreshUser(db: Tables, uuid: string) {
    uuid !in db.accounts && uuid != ADMIN_UUID
  }

  lemma AdminRecords(s: Session)
    requires RecordsOk(s)
    ensures RecordsOk(s.(db := CreateAdmin(s.db)))
  {
  }

  lemma CreateRecords(s: Session, body: string, uuid: string)
    requires RecordsOk(s) && FreshUser(s.db, uuid)
    ensures RecordsOk(s.(db := CreateUser(s.db, body, uuid).0))
  {
    if ReadBody(body).Fields? {
      FieldsAreFields(body);
    }
  }

  lemma DestroyRecords(s: Session, fd: int, body: string)
    requires RecordsOk(s)
    ensures RecordsOk(s.(db := DestroyUser(s, fd, body).0))
  {
  }

  lemma LoginRecords(s: Session, fd: int, addr: string, body: string)
    requires RecordsOk(s) && addr != OFFLINE_IP
    ensures RecordsOk(LoginUser(s, fd, addr, body).to)
  {
  }

  lemma LogoutRecords(s: Session, addr: string, body: string)
    requires RecordsOk(s)
    ensures RecordsOk(LogoutUser(s, addr, body).to)
  {
  }

  /**
   With sound records, logout of a present name field never faults and its answer is decided by
   registration, address and status alone. "Not online" is an answer to the administrator only,
   and codes 1 and 3 do not occur.
   */
  lemma LogoutAnswers(s: Session, addr: string, body: string)
    requires RecordsOk(s) && addr != OFFLINE_IP
    requires ReadBody(body).Fields? && Has(ReadBody(body).fields, 0, NAME_LIMIT)
    ensures var name := ReadBody(body).fields[0];
            var o := LogoutUser(s, addr, body).outcome;
            && o in {Reply(0), Reply(2), Reply(4), Reply(500)}
            && (o == Reply(500) <==> name !in s.db.names || s.db.names[name] !in s.db.accounts)
            && (o != Reply(500) ==>
                  var a := s.db.accounts[s.db.names[name]];
                  && (o == Reply(2) <==> a.name != ADMIN && a.ip != addr)
                  && (o == Reply(4) <==> a.name == ADMIN && !a.online)
                  && (o == Reply(0) ==> a.online))
  {
    var name := ReadBody(body).fields[0];
    if name in s.db.names && s.db.names[name] in s.db.accounts {
      assert AccountOk(s.db.names[name], s.db.accounts[s.db.names[name]]);
    }
  }

  // ---------------------------------------------------------------- the bijection

  /** Each name leads to the account that bears it, and each account is reached under its name. */
  ghost predicate NamesMatch(names: map<string, string>, accounts: map<string, Account>) {
    && (forall n :: n in names ==> names[n] in accounts && accounts[names[n]].name == n)
    && (forall u :: u in accounts ==> accounts[u].name in names && names[accounts[u].name] == u)
  }

  ghost predicate HasToken(logins: map<string, Login>, uuid: string) {
    exists t :: t in logins && logins[t].uuid == uuid
  }

  /** Each token leads to an account, and each account has exactly one token. */
  ghost predicate TokensMatch(logins: map<string, Login>, uuids: set<string>) {
    && (forall t :: t in logins ==> logins[t].uuid in uuids)
    && (forall u :: u in uuids ==> HasToken(logins, u))
    && (forall t, t' :: t in logins && t' in logins && logins[t].uuid == logins[t'].uuid ==> t == t')
  }

  /** Names, accounts and tokens correspond one to one. */
  ghost predicate Bijective(db: Tables) {
    NamesMatch(db.names, db.accounts) && TokensMatch(db.logins, db.accounts.Keys)
  }

  function Image(m: map<string, string>, keys: set<string>): set<string>
    requires keys <= m.Keys
  {
    set k | k in keys :: m[k]
  }

  lemma {:induction false} ImageSize(m: map<string, string>, keys: set<string>)
    requires keys <= m.Keys
    requires forall k, k' :: k in m && k' in m && m[k] == m[k'] ==> k == k'
    ensures |Image(m, keys)| == |keys|
  {
    if keys != {} {
      var k :| k in keys;
      ImageSize(m, keys - {k});
      assert Image(m, keys) == Image(m, keys - {k}) + {m[k]};
    }
  }

  lemma NamesSize(names: map<string, string>, accounts: map<string, Account>)
    requires NamesMatch(names, accounts)
    ensures |names| == |accounts|
  {
    ImageSize(names, names.Keys);
    forall u | u in accounts ensures u in Image(names, names.Keys) {
      assert names[accounts[u].name] == u;
    }
    assert Image(names, names.Keys) == accounts.Keys;
  }

  lemma TokensSize(logins: map<string, Login>, uuids: set<string>)
    requires TokensMatch(logins, uuids)
    ensures |logins| == |uuids|
  {
    var owner := map t | t in logins :: logins[t].uuid;
    ImageSize(owner, owner.Keys);
    assert owner.Keys == logins.Keys;
    forall u | u in uuids ensures u in Image(owner, owner.Keys) {
      assert HasToken(logins, u);
      var t :| t in logins && logins[t].uuid == u;
      assert owner[t] == u;
    }
    assert Image(owner, owner.Keys) == uuids;
  }

  /** The three tables always have the same number of records. */
  lemma SizesAgree(db: Tables)
    requires Bijective(db)
    ensures |db.logins| == |db.names| == |db.accounts|
  {
    NamesSize(db.names, db.accounts);
    TokensSize(db.logins, db.accounts.Keys);
  }

  lemma AddToken(logins: map<string, Login>, uuids: set<string>, l: Login)
    requires TokensMatch(logins, uuids) && l.token !in logins && l.uuid !in uuids
    ensures TokensMatch(logins[l.token := l], uuids + {l.uuid})
  {
    var logins' := logins[l.token := l];
    assert logins'[l.token].uuid == l.uuid;
    forall u | u in uuids ensures HasToken(logins', u) {
      assert HasToken(logins, u);
      var t :| t in logins && logins[t].uuid == u;
      assert logins'[t].uuid == u;
    }
  }

  lemma AddName(names: map<string, string>, accounts: map<string, Account>, name: string, uuid: string)
    requires NamesMatch(names, accounts) && name !in names && uuid !in accounts
    ensures NamesMatch(names[name := uuid], accounts[uuid := NewAccount(uuid, name)])
  {
  }

  lemma AddKeepsBijection(db: Tables, l: Login, name: string)
    requires Bijective(db)
    requires l.token !in db.logins && name !in db.names && l.uuid !in db.accounts
    ensures Bijective(AddUser(db, l, name))
  {
    AddName(db.names, db.accounts, name, l.uuid);
    AddToken(db.logins, db.accounts.Keys, l);
    assert AddUser(db, l, name).accounts.Keys == db.accounts.Keys + {l.uuid};
  }

  lemma CreateKeepsBijection(db: Tables, body: string, uuid: string)
    requires Bijective(db) && FreshUser(db, uuid)
    ensures Bijective(CreateUser(db, body, uuid).0)
  {
    if CreateUser(db, body, uuid).1 == Reply(0) {
      var fs := ReadBody(body).fields;
      AddKeepsBijection(db, Login(fs[0], fs[2], uuid), fs[1]);
    }
  }

  /** Admin creation is safe when the name is taken already or the token "admin" is free. */
  predicate AdminSafe(db: Tables) {
    ADMIN in db.names || ADMIN !in db.logins
  }

  /**
   `create_admin` checks the display name but not the token: it keeps the bijection exactly when
   `AdminSafe` holds.
   */
  lemma AdminKeepsBijection(s: Session)
    requires RecordsOk(s) && Bijective(s.db)
    ensures Bijective(CreateAdmin(s.db)) <==> AdminSafe(s.db)
  {
    var db := s.db;
    if ADMIN !in db.names {
      assert ADMIN_UUID !in db.accounts;
      if ADMIN !in db.logins {
        AddKeepsBijection(db, Login(ADMIN, ADMIN, ADMIN_UUID), ADMIN);
      } else {
        var u := db.logins[ADMIN].uuid;
        assert u in CreateAdmin(db).accounts;
        assert !HasToken(CreateAdmin(db).logins, u);
      }
    }
  }

  /** The name and the token of a destroy request belong to one account. */
  predicate Matched(db: Tables, name: string, token: string) {
    name in db.names && token in db.logins && db.names[name] == db.logins[token].uuid
  }

  lemma DropToken(logins: map<string, Login>, uuids: set<string>, t: string)
    requires TokensMatch(logins, uuids) && t in logins
    ensures TokensMatch(logins - {t}, uuids - {logins[t].uuid})
  {
    forall u | u in uuids - {logins[t].uuid} ensures HasToken(logins - {t}, u) {
      assert HasToken(logins, u);
      var t' :| t' in logins && logins[t'].uuid == u;
      assert t' in logins - {t};
    }
  }

  /** Dropping a name and an account keeps the names matched exactly when the account bears the name. */
  lemma DropName(names: map<string, string>, accounts: map<string, Account>, name: string, uuid: string)
    requires NamesMatch(names, accounts) && uuid in accounts
    ensures NamesMatch(names - {name}, accounts - {uuid}) <==> accounts[uuid].name == name
  {
    var n := accounts[uuid].name;
    if n != name {
      assert n in names - {name} && (names - {name})[n] !in accounts - {uuid};
    }
  }

  /**
   A successful destroy removes the named display name but the token's account: it keeps the
   bijection exactly when both belong to one account.
   */
  lemma DestroyKeepsBijection(s: Session, fd: int, body: string)
    requires RecordsOk(s) && Bijective(s.db)
    requires DestroyGranted(s, fd, body)
    ensures var fs := ReadBody(body).fields;
            Bijective(DestroyUser(s, fd, body).0) <==> Matched(s.db, fs[0], fs[1])
  {
    DestroyIsGranted(s, fd, body);
    var db, fs := s.db, ReadBody(body).fields;
    var l := db.logins[fs[1]];
    DropToken(db.logins, db.accounts.Keys, fs[1]);
    DropName(db.names, db.accounts, fs[0], l.uuid);
    assert (db.accounts - {l.uuid}).Keys == db.accounts.Keys - {l.uuid};
  }

  /** Anybody who names himself with another account's token gets through, and breaks the tables. */
  lemma MixedUpDestroy(s: Session, fd: int, name: string, token: string, password: string)
    requires RecordsOk(s) && Bijective(s.db)
    requires ByFd(s.cache, fd).Some? && ByFd(s.cache, fd).value.name == name
    requires token in s.db.logins && !Matched(s.db, name, token)
    requires AllFields([name, token, password])
    requires |name| <= NAME_LIMIT && |token| <= NAME_LIMIT && |password| <= PASSWORD_LIMIT
    ensures var r := DestroyUser(s, fd, Joined([name, token, password]));
            r.1 == Reply(0) && !Bijective(r.0)
  {
    JoinedSize(name, token, password);
    BodyRoundTrip([name, token, password]);
    DestroyKeepsBijection(s, fd, Joined([name, token, password]));
  }

  const BOOTED := AddUser(NO_TABLES, Login(ADMIN, ADMIN, ADMIN_UUID), ADMIN)

  lemma BootedTables()
    ensures CreateAdmin(NO_TABLES) == BOOTED && Bijective(BOOTED)
  {
    AddKeepsBijection(NO_TABLES, Login(ADMIN, ADMIN, ADMIN_UUID), ADMIN);
  }

  lemma StatusKeepsNames(names: map<string, string>, accounts: map<string, Account>, a: Account)
    requires NamesMatch(names, accounts) && a.id in accounts && accounts[a.id].name == a.name
    ensures NamesMatch(names, accounts[a.id := a])
  {
  }

  lemma StatusKeepsBijection(db: Tables, a: Account)
    requires Bijective(db) && a.id in db.accounts && db.accounts[a.id].name == a.name
    ensures Bijective(db.(accounts := db.accounts[a.id := a]))
  {
    StatusKeepsNames(db.names, db.accounts, a);
    assert db.accounts[a.id := a].Keys == db.accounts.Keys;
  }

  lemma LoginKeepsBijection(s: Session, fd: int, addr: string, body: string)
    requires RecordsOk(s) && Bijective(s.db)
    ensures Bijective(LoginUser(s, fd, addr, body).to.db)
  {
    var db := s.db;
    if LoginUser(s, fd, addr, body).to.db != db {
      var a := db.accounts[db.logins[ReadBody(body).fields[0]].uuid];
      assert AccountOk(a.id, a);
      StatusKeepsBijection(db, LoggedIn(a, addr));
    }
  }

  lemma LogoutKeepsBijection(s: Session, addr: string, body: string)
    requires RecordsOk(s) && Bijective(s.db)
    ensures Bijective(LogoutUser(s, addr, body).to.db)
  {
    var db := s.db;
    if LogoutUser(s, addr, body).outcome == Reply(0) {
      var a := db.accounts[db.names[ReadBody(body).fields[0]]];
      assert AccountOk(a.id, a);
      StatusKeepsBijection(db, LoggedOut(a));
    }
  }

  lemma CreationKeepsKeys(db: Tables, body: string, uuid: string)
    ensures db.accounts.Keys <= CreateAdmin(db).accounts.Keys && db.names.Keys <= CreateAdmin(db).names.Keys
    ensures var db' := CreateUser(db, body, uuid).0;
            db.accounts.Keys <= db'.accounts.Keys && db.names.Keys <= db'.names.Keys
  {
  }

  lemma AdminKeepsName(s: Session, u: string)
    requires RecordsOk(s) && Bijective(s.db) && u in s.db.accounts
    ensures SameName(s.db, CreateAdmin(s.db), u)
  {
    assert AccountOk(u, s.db.accounts[u]);
  }

  lemma CreateKeepsName(db: Tables, u: string, body: string, uuid: string)
    requires FreshUser(db, uuid) && u in db.accounts
    ensures SameName(db, CreateUser(db, body, uuid).0, u)
  {
  }

  ghost predicate SameName(db: Tables, db': Tables, u: string)
    requires u in db.accounts
  {
    u in db'.accounts && db'.accounts[u].name == db.accounts[u].name
  }

  lemma LoginKeepsName(s: Session, u: string, fd: int, addr: string, body: string)
    requires RecordsOk(s) && u in s.db.accounts
    ensures SameName(s.db, LoginUser(s, fd, addr, body).to.db, u)
  {
    if LoginUser(s, fd, addr, body).to.db != s.db {
      var v := s.db.logins[ReadBody(body).fields[0]].uuid;
      assert AccountOk(v, s.db.accounts[v]);
    }
  }

  lemma LogoutKeepsName(s: Session, u: string, addr: string, body: string)
    requires RecordsOk(s) && u in s.db.accounts
    ensures SameName(s.db, LogoutUser(s, addr, body).to.db, u)
  {
    if LogoutUser(s, addr, body).outcome == Reply(0) {
      var v := s.db.names[ReadBody(body).fields[0]];
      assert AccountOk(v, s.db.accounts[v]);
    }
  }

  lemma StatusKeepsKeys(s: Session, fd: int, addr: string, body: string)
    requires RecordsOk(s)
    ensures var db := LoginUser(s, fd, addr, body).to.db;
            db.accounts.Keys == s.db.accounts.Keys && db.names == s.db.names
    ensures var db := LogoutUser(s, addr, body).to.db;
            db.accounts.Keys == s.db.accounts.Keys && db.names == s.db.names
  {
    var db := s.db;
    if LoginUser(s, fd, addr, body).to.db != db {
      var u := db.logins[ReadBody(body).fields[0]].uuid;
      assert AccountOk(u, db.accounts[u]);
    }
    if LogoutUser(s, addr, body).outcome == Reply(0) {
      var u := db.names[ReadBody(body).fields[0]];
      assert AccountOk(u, db.accounts[u]);
    }
  }

  /** At most one account is privileged, and it is the one called "admin". */
  lemma OneAdministrator(s: Session, u: string, v: string)
    requires RecordsOk(s) && Bijective(s.db)
    requires u in s.db.accounts && v in s.db.accounts
    requires s.db.accounts[u].privilege != 0 && s.db.accounts[v].privilege != 0
    ensures u == v && s.db.accounts[u].name == ADMIN && s.db.accounts[u].privilege == 1
  {
    assert AccountOk(u, s.db.accounts[u]) && AccountOk(v, s.db.accounts[v]);
  }

  // ---------------------------------------------------------------- sessions

  ghost predicate NoTwins(cache: seq<Entry>) {
    forall i, j :: 0 <= i < j < |cache| ==>
      !(cache[i].fd == cache[j].fd && cache[i].name == cache[j].name && cache[i].ip == cache[j].ip)
  }

  ghost predicate Named(cache: seq<Entry>, name: string) {
    exists i :: 0 <= i < |cache| && cache[i].name == name
  }

  lemma RemoveKeepsNoTwins(cache: seq<Entry>, name: string)
    requires NoTwins(cache)
    ensures NoTwins(RemoveFirst(cache, name))
  {
  }

  /** Login is the only handler that adds entries, and without a fault it never adds a twin. */
  lemma LoginKeepsNoTwins(s: Session, fd: int, addr: string, body: string)
    requires NoTwins(s.cache) && LoginUser(s, fd, addr, body).outcome != Fault
    ensures NoTwins(LoginUser(s, fd, addr, body).to.cache)
  {
  }

  /** Every online account has a live entry under its name and at its stored address. */
  ghost predicate Attended(s: Session) {
    forall u :: u in s.db.accounts && s.db.accounts[u].online ==>
      Present(s.cache, s.db.accounts[u].name, s.db.accounts[u].ip)
  }

  lemma PresentAppend(cache: seq<Entry>, e: Entry, name: string, ip: string)
    ensures Present(cache, name, ip) ==> Present(Append(cache, e), name, ip)
    ensures e.name == name != "" && e.ip == ip ==> Present(Append(cache, e), name, ip)
  {
    if Present(cache, name, ip) {
      var i :| 0 <= i < |cache| && cache[i].name == name && cache[i].ip == ip;
      assert Append(cache, e)[i] == cache[i];
    }
    if e.name == name != "" && e.ip == ip {
      assert Append(cache, e)[|cache|] == e;
    }
  }

  /** An entry of that name and address stands behind the first entry of that name. */
  predicate Later(cache: seq<Entry>, name: string, ip: string) {
    exists i :: IndexOf(cache, name) < i < |cache| && cache[i].name == name && cache[i].ip == ip
  }

  /** What removal leaves present: all other names, and of its own name what stands behind the first entry. */
  lemma PresentRemove(cache: seq<Entry>, gone: string, name: string, ip: string)
    ensures Present(RemoveFirst(cache, gone), name, ip) <==>
            if name == gone then Later(cache, name, ip) else Present(cache, name, ip)
  {
    var k, after := IndexOf(cache, gone), RemoveFirst(cache, gone);
    if k < |cache| {
      assert forall i :: 0 <= i < k ==> after[i] == cache[i];
      assert forall i :: k < i < |cache| ==> after[i - 1] == cache[i];
      assert forall i :: k <= i < |after| ==> after[i] == cache[i + 1];
    }
  }

  lemma TablesKeepAttended(s: Session, db: Tables)
    requires Attended(s)
    requires forall u :: u in db.accounts && db.accounts[u].online ==>
               u in s.db.accounts && s.db.accounts[u] == db.accounts[u]
    ensures Attended(s.(db := db))
  {
  }

  lemma AdminKeepsAttended(s: Session)
    requires Attended(s)
    ensures Attended(s.(db := CreateAdmin(s.db)))
  {
    TablesKeepAttended(s, CreateAdmin(s.db));
  }

  lemma CreateKeepsAttended(s: Session, body: string, uuid: string)
    requires Attended(s)
    ensures Attended(s.(db := CreateUser(s.db, body, uuid).0))
  {
    TablesKeepAttended(s, CreateUser(s.db, body, uuid).0);
  }

  lemma DestroyKeepsAttended(s: Session, fd: int, body: string)
    requires Attended(s)
    ensures Attended(s.(db := DestroyUser(s, fd, body).0))
  {
    DestroyIsGranted(s, fd, body);
    TablesKeepAttended(s, DestroyUser(s, fd, body).0);
  }

  lemma AdmitKeepsAttended(s: Session, fd: int, addr: string, a: Account, l: Login)
    requires Attended(s) && a.name != ""
    requires a.id in s.db.accounts && s.db.accounts[a.id] == a
    requires Admit(s, fd, addr, a, l).outcome != Fault
    ensures Attended(Admit(s, fd, addr, a, l).to)
  {
    var to := Admit(s, fd, addr, a, l).to;
    var e := EntryFor(fd, LoggedIn(a, addr), l);
    forall u | u in to.db.accounts && to.db.accounts[u].online
      ensures Present(to.cache, to.db.accounts[u].name, to.db.accounts[u].ip)
    {
      PresentAppend(s.cache, e, to.db.accounts[u].name, to.db.accounts[u].ip);
    }
  }

  /** The account that accepted credentials lead to. */
  lemma LoginIsAdmit(s: Session, fd: int, addr: string, body: string)
    requires RecordsOk(s) && LoginUser(s, fd, addr, body).outcome == Reply(0)
    ensures var l := s.db.logins[ReadBody(body).fields[0]];
            && l.uuid in s.db.accounts && AccountOk(l.uuid, s.db.accounts[l.uuid])
            && l.token in s.db.logins && s.db.logins[l.token] == l
            && LoginUser(s, fd, addr, body) == Admit(s, fd, addr, s.db.accounts[l.uuid], l)
  {
  }

  lemma LoginKeepsAttended(s: Session, fd: int, addr: string, body: string)
    requires RecordsOk(s) && Attended(s)
    requires LoginUser(s, fd, addr, body).outcome != Fault
    ensures Attended(LoginUser(s, fd, addr, body).to)
  {
    if LoginUser(s, fd, addr, body).outcome == Reply(0) {
      LoginIsAdmit(s, fd, addr, body);
      var l := s.db.logins[ReadBody(body).fields[0]];
      AdmitKeepsAttended(s, fd, addr, s.db.accounts[l.uuid], l);
    }
  }

  /** A login that does not fault never moves an online account to another address. */
  lemma LoginKeepsAddress(s: Session, fd: int, addr: string, body: string, u: string)
    requires RecordsOk(s) && Attended(s)
    requires LoginUser(s, fd, addr, body).outcome != Fault
    requires u in s.db.accounts && s.db.accounts[u].online
    ensures u in LoginUser(s, fd, addr, body).to.db.accounts
    ensures LoginUser(s, fd, addr, body).to.db.accounts[u] == s.db.accounts[u]
  {
    assert AccountOk(u, s.db.accounts[u]);
    if LoginUser(s, fd, addr, body).outcome == Reply(0) {
      LoginIsAdmit(s, fd, addr, body);
    }
  }

  /** Whoever else is online under the name of account `u` has another live entry left. */
  ghost predicate Spared(s: Session, u: string)
    requires u in s.db.accounts
  {
    forall v :: && v in s.db.accounts && v != u
                && s.db.accounts[v].online && s.db.accounts[v].name == s.db.accounts[u].name
                ==> Later(s.cache, s.db.accounts[v].name, s.db.accounts[v].ip)
  }

  lemma LeaveKeepsAttended(s: Session, u: string)
    requires Attended(s) && u in s.db.accounts && s.db.accounts[u].id == u
    ensures Attended(Leave(s, s.db.accounts[u])) <==> Spared(s, u)
  {
    var a := s.db.accounts[u];
    var to := Leave(s, a);
    forall v | v in s.db.accounts && v != u
      ensures to.db.accounts[v] == s.db.accounts[v]
      ensures Present(to.cache, s.db.accounts[v].name, s.db.accounts[v].ip) <==>
              if s.db.accounts[v].name == a.name then Later(s.cache, s.db.accounts[v].name, s.db.accounts[v].ip)
              else Present(s.cache, s.db.accounts[v].name, s.db.accounts[v].ip)
    {
      PresentRemove(s.cache, a.name, s.db.accounts[v].name, s.db.accounts[v].ip);
    }
    if !Spared(s, u) {
      var v :| v in s.db.accounts && v != u && s.db.accounts[v].online && s.db.accounts[v].name == a.name
               && !Later(s.cache, s.db.accounts[v].name, s.db.accounts[v].ip);
      assert to.db.accounts[v].online && !Present(to.cache, to.db.accounts[v].name, to.db.accounts[v].ip);
    }
  }

  /** A logout that gets through leaves everybody attended exactly when nobody else loses his last entry. */
  lemma LogoutKeepsAttended(s: Session, addr: string, body: string)
    requires RecordsOk(s) && Attended(s) && LogoutGranted(s, addr, body)
    ensures Attended(LogoutUser(s, addr, body).to) <==> Spared(s, s.db.names[ReadBody(body).fields[0]])
  {
    var u := s.db.names[ReadBody(body).fields[0]];
    assert AccountOk(u, s.db.accounts[u]);
    LogoutIsGranted(s, addr, body);
    LeaveKeepsAttended(s, u);
  }

  /** In bijection nobody shares a name. */
  lemma BijectionSpares(db: Tables, cache: seq<Entry>, u: string)
    requires Bijective(db) && u in db.accounts
    ensures Spared(Session(db, cache), u)
  {
  }

  /** Logout of one user leaves every other user's entries and account as they were. */
  lemma LogoutTouchesOneUser(s: Session, addr: string, body: string)
    requires RecordsOk(s) && Bijective(s.db)
    requires LogoutUser(s, addr, body).outcome == Reply(0)
    ensures var name, to := ReadBody(body).fields[0], LogoutUser(s, addr, body).to;
            && Others(to.cache, name) == Others(s.cache, name)
            && to.db.accounts.Keys == s.db.accounts.Keys
            && (forall u :: u in s.db.accounts && s.db.accounts[u].name != name ==>
                  to.db.accounts[u] == s.db.accounts[u])
            && !to.db.accounts[s.db.names[name]].online
  {
    var name := ReadBody(body).fields[0];
    assert AccountOk(s.db.names[name], s.db.accounts[s.db.names[name]]);
    RemoveKeepsOthers(s.cache, name);
  }

  // ---------------------------------------------------------------- what one request undoes

  /** The login request is right: a registered token and its password, up to white space. */
  predicate Accepted(db: Tables, token: string, password: string) {
    token in db.logins && Squeeze(db.logins[token].password) == Squeeze(password)
  }

  /** When credentials are accepted: admission, and all it changes. */
  ghost predicate AdmitsExactly(s: Session, fd: int, addr: string, a: Account, l: Login, r: Result) {
    var cache := s.cache;
    var again := exists i :: 0 <= i < |cache| && cache[i].fd == fd && cache[i].name == a.name && cache[i].ip == addr;
    var elsewhere := exists i :: 0 <= i < |cache| && cache[i].name == a.name && cache[i].ip != addr;
    && (r.outcome == Reply(0) <==> !(a.online && elsewhere) && (again || |cache| < 255))
    && (r.outcome == Reply(0) ==>
          && r.to.db == s.db.(accounts := s.db.accounts[a.id := a.(ip := addr, online := true)])
          && r.to.cache == s.cache + if again then [] else [Entry(fd, a.name, addr, l.token, a.id, a.privilege)])
    && r.outcome in {Reply(0), Fault}
  }

  lemma AdmitAnswers(s: Session, fd: int, addr: string, a: Account, l: Login)
    requires AccountOk(a.id, a)
    ensures AdmitsExactly(s, fd, addr, a, l, Admit(s, fd, addr, a, l))
  {
  }

  /** Whatever its record said before, an account called "admin" leaves its login privileged; no other is raised. */
  lemma AdminIsRaised(s: Session, fd: int, addr: string, a: Account, l: Login)
    ensures var r := Admit(s, fd, addr, a, l);
            r.outcome == Reply(0) ==>
              && a.id in r.to.db.accounts
              && r.to.db.accounts[a.id].privilege == if a.name == "admin" then 1 else a.privilege
  {
  }

  /** Login answers 0 exactly for accepted credentials, unless the account is online elsewhere or the cache is full. */
  lemma LoginAnswers(s: Session, fd: int, addr: string, token: string, password: string)
    requires RecordsOk(s) && Bijective(s.db)
    requires AllFields([token, password]) && |token| <= 20 && |password| <= 30
    ensures var r, db := LoginUser(s, fd, addr, Joined([token, password])), s.db;
            && (r.outcome == Reply(2) <==> token !in db.logins)
            && (r.outcome == Reply(1) <==> token in db.logins && !Accepted(db, token, password))
            && (r.outcome in {Reply(1), Reply(2)} ==> r.to == s)
            && (Accepted(db, token, password) ==>
                  var l := db.logins[token];
                  && l.token == token && db.accounts[l.uuid].id == l.uuid
                  && AdmitsExactly(s, fd, addr, db.accounts[l.uuid], l, r))
  {
    LoginBody(token, password);
    if Accepted(s.db, token, password) {
      var l := s.db.logins[token];
      assert AccountOk(l.uuid, s.db.accounts[l.uuid]);
      AdmitAnswers(s, fd, addr, s.db.accounts[l.uuid], l);
    }
  }

  lemma LoginBody(token: string, password: string)
    requires AllFields([token, password]) && |token| <= NAME_LIMIT && |password| <= PASSWORD_LIMIT
    ensures ReadBody(Joined([token, password])) == Fields([token, password])
  {
    assert [token, password][1..] == [password];
    BodyRoundTrip([token, password]);
  }

  /** Logout undoes login: an offline user who logs in and out leaves stores and cache as they were. */
  lemma LogoutUndoesLogin(s: Session, fd: int, addr: string, token: string, password: string)
    requires RecordsOk(s) && Bijective(s.db) && addr != OFFLINE_IP
    requires AllFields([token, password]) && |token| <= 20 && |password| <= 30
    requires Accepted(s.db, token, password)
    requires var a := s.db.accounts[s.db.logins[token].uuid];
             !a.online && IsField(a.name) && |a.name| <= 20 && !Named(s.cache, a.name)
    requires |s.cache| < 255
    ensures var name := s.db.accounts[s.db.logins[token].uuid].name;
            var on := LoginUser(s, fd, addr, Joined([token, password]));
            on.outcome == Reply(0) && LogoutUser(on.to, addr, Joined([name])) == Result(s, Reply(0))
  {
    var u := s.db.logins[token].uuid;
    var a := s.db.accounts[u];
    assert AccountOk(u, a);
    assert !SameCredentials(s.cache, fd, a.name, addr);
    LoginAnswers(s, fd, addr, token, password);
    BodyRoundTrip([a.name]);
    var on := LoginUser(s, fd, addr, Joined([token, password])).to;
    LogoutIsGranted(on, addr, Joined([a.name]));
    LeaveUndoes(s, on, a);
  }

  lemma LeaveUndoes(s: Session, on: Session, a: Account)
    requires a.id in s.db.accounts && s.db.accounts[a.id] == a && !a.online && a.ip == OFFLINE_IP
    requires a.id in on.db.accounts && on.db == s.db.(accounts := s.db.accounts[a.id := on.db.accounts[a.id]])
    requires LoggedOut(on.db.accounts[a.id]) == a && on.db.accounts[a.id].name == a.name
    requires |on.cache| == |s.cache| + 1 && on.cache[..|s.cache|] == s.cache
    requires on.cache[|s.cache|].name == a.name && !Named(s.cache, a.name)
    ensures Leave(on, on.db.accounts[a.id]) == s
  {
    IndexIs(on.cache, a.name, |s.cache|);
    assert RemoveFirst(on.cache, a.name) == s.cache;
    assert on.db.accounts[a.id := a] == s.db.accounts;
  }

  /** Exactly when a user is created, and how he is then found under name and token. */
  lemma CreateAnswers(db: Tables, uuid: string, token: string, name: string, password: string)
    requires AllFields([token, name, password])
    requires |token| <= 20 && |name| <= 20 && |password| <= 30
    ensures var (db', o) := CreateUser(db, Joined([token, name, password]), uuid);
            && (o == Reply(0) <==> token !in db.logins && name !in db.names)
            && (o == Reply(1) <==> token in db.logins && name !in db.names)
            && (o == Reply(2) <==> token !in db.logins && name in db.names)
            && (o == Reply(3) <==> token in db.logins && name in db.names)
            && (o != Reply(0) ==> db' == db)
            && (o == Reply(0) ==>
                  && Matched(db', name, token) && Accepted(db', token, password) && db'.names[name] == uuid
                  && uuid in db'.accounts && db'.accounts[uuid].name == name && !db'.accounts[uuid].online)
  {
    JoinedSize(token, name, password);
    BodyRoundTrip([token, name, password]);
  }

  /** Destroy undoes create: a successful destroy of the new user restores the tables. */
  lemma DestroyUndoesCreate(s: Session, fd: int, uuid: string, token: string, name: string,
                            password: string, password': string)
    requires AllFields([token, name, password]) && AllFields([name, token, password'])
    requires |token| <= 20 && |name| <= 20
    requires |password| <= 30 && |password'| <= 30
    requires FreshUser(s.db, uuid) && token !in s.db.logins && name !in s.db.names
    ensures var made := CreateUser(s.db, Joined([token, name, password]), uuid).0;
            var gone := DestroyUser(s.(db := made), fd, Joined([name, token, password']));
            gone.1 == Reply(0) ==> gone.0 == s.db
  {
    JoinedSize(token, name, password);
    BodyRoundTrip([token, name, password]);
    JoinedSize(name, token, password');
    BodyRoundTrip([name, token, password']);
    var made := CreateUser(s.db, Joined([token, name, password]), uuid).0;
    assert made.logins - {token} == s.db.logins && made.names - {name} == s.db.names;
    assert made.accounts - {uuid} == s.db.accounts;
  }

  // ---------------------------------------------------------------- agreement of cache and tables

  /** A live entry tells what the tables tell. */
  ghost predicate EntryAgrees(db: Tables, e: Entry) {
    && e.token in db.logins && db.logins[e.token].uuid == e.uuid
    && e.uuid in db.accounts && db.accounts[e.uuid].name == e.name && db.accounts[e.uuid].privilege == e.privilege
    && e.name in db.names && db.names[e.name] == e.uuid
  }

  ghost predicate CacheAgrees(s: Session) {
    forall e :: e in s.cache ==> EntryAgrees(s.db, e)
  }

  lemma CreateKeepsAgreement(s: Session, body: string, uuid: string)
    requires CacheAgrees(s) && FreshUser(s.db, uuid)
    ensures CacheAgrees(s.(db := CreateUser(s.db, body, uuid).0))
  {
    var s' := s.(db := CreateUser(s.db, body, uuid).0);
    forall e | e in s'.cache ensures EntryAgrees(s'.db, e) {
      assert EntryAgrees(s.db, e);
    }
  }

  lemma AdminKeepsAgreement(s: Session)
    requires RecordsOk(s) && Bijective(s.db) && AdminSafe(s.db) && CacheAgrees(s)
    ensures CacheAgrees(s.(db := CreateAdmin(s.db)))
  {
    var s' := s.(db := CreateAdmin(s.db));
    forall e | e in s'.cache ensures EntryAgrees(s'.db, e) {
      assert EntryAgrees(s.db, e) && AccountOk(e.uuid, s.db.accounts[e.uuid]);
    }
  }

  lemma AdmitKeepsAgreement(s: Session, fd: int, addr: string, a: Account, l: Login)
    requires Bijective(s.db) && CacheAgrees(s)
    requires l.token in s.db.logins && s.db.logins[l.token] == l
    requires a.id == l.uuid && a.id in s.db.accounts && s.db.accounts[a.id] == a && AccountOk(a.id, a)
    ensures CacheAgrees(Admit(s, fd, addr, a, l).to)
  {
    var s' := Admit(s, fd, addr, a, l).to;
    forall e | e in s'.cache ensures EntryAgrees(s'.db, e) {
      if e in s.cache {
        assert EntryAgrees(s.db, e);
      }
    }
  }

  lemma LoginKeepsAgreement(s: Session, fd: int, addr: string, body: string)
    requires RecordsOk(s) && Bijective(s.db) && CacheAgrees(s)
    ensures CacheAgrees(LoginUser(s, fd, addr, body).to)
  {
    if LoginUser(s, fd, addr, body).to != s {
      var l := s.db.logins[ReadBody(body).fields[0]];
      assert AccountOk(l.uuid, s.db.accounts[l.uuid]);
      AdmitKeepsAgreement(s, fd, addr, s.db.accounts[l.uuid], l);
    }
  }

  lemma LogoutKeepsAgreement(s: Session, addr: string, body: string)
    requires RecordsOk(s) && Bijective(s.db) && CacheAgrees(s)
    ensures CacheAgrees(LogoutUser(s, addr, body).to)
  {
    var s' := LogoutUser(s, addr, body).to;
    if s' != s {
      RemoveMembership(s.cache, s.db.accounts[s.db.names[ReadBody(body).fields[0]]].name);
    }
    forall e | e in s'.cache ensures EntryAgrees(s'.db, e) {
      assert EntryAgrees(s.db, e) && AccountOk(e.uuid, s.db.accounts[e.uuid]);
    }
  }

  /** Destroy never evicts anybody: a matched one keeps the agreement exactly when nobody live bears the name. */
  lemma DestroyKeepsAgreement(s: Session, fd: int, body: string)
    requires RecordsOk(s) && Bijective(s.db) && CacheAgrees(s)
    requires DestroyGranted(s, fd, body)
    requires Matched(s.db, ReadBody(body).fields[0], ReadBody(body).fields[1])
    ensures CacheAgrees(s.(db := DestroyUser(s, fd, body).0)) <==> !Named(s.cache, ReadBody(body).fields[0])
  {
    DestroyIsGranted(s, fd, body);
    var s' := s.(db := DestroyUser(s, fd, body).0);
    var name := ReadBody(body).fields[0];
    if Named(s.cache, name) {
      var i :| 0 <= i < |s.cache| && s.cache[i].name == name;
      assert !EntryAgrees(s'.db, s.cache[i]);
    } else {
      forall e | e in s'.cache ensures EntryAgrees(s'.db, e) {
        assert EntryAgrees(s.db, e);
      }
    }
  }

  /** The sender gives his own name, or his own password, or is the administrator: one of them is enough. */
  ghost predicate Trusted(s: Session, sender: Entry, name: string, password: string)
    requires EntryAgrees(s.db, sender)
  {
    sender.name == name || s.db.logins[sender.token].password == password || sender.name == ADMIN
  }

  /** Exact answers of a complete destroy request from a live sender; only a trusted regular user can make it fault. */
  lemma DestroyAnswers(s: Session, fd: int, name: string, token: string, password: string)
    requires RecordsOk(s) && CacheAgrees(s) && ByFd(s.cache, fd).Some?
    requires AllFields([name, token, password])
    requires |name| <= 20 && |token| <= 20 && |password| <= 30
    ensures EntryAgrees(s.db, ByFd(s.cache, fd).value)
    ensures var sender := ByFd(s.cache, fd).value;
            var (db', o) := DestroyUser(s, fd, Joined([name, token, password]));
            var trusted := Trusted(s, sender, name, password);
            && (o == Reply(0) <==> trusted && token in s.db.logins)
            && (o == Reply(2) <==> sender.name == ADMIN && token !in s.db.logins)
            && (o == Reply(3) <==> !trusted)
            && (o == Fault <==> trusted && sender.name != ADMIN && token !in s.db.logins)
            && (o != Reply(0) ==> db' == s.db)
            && (o == Reply(0) ==>
                  name !in db'.names && token !in db'.logins && s.db.logins[token].uuid !in db'.accounts)
  {
    var sender := ByFd(s.cache, fd).value;
    assert sender in s.cache && EntryAgrees(s.db, sender);
    assert AccountOk(sender.uuid, s.db.accounts[sender.uuid]);
    JoinedSize(name, token, password);
    BodyRoundTrip([name, token, password]);
  }

  // ---------------------------------------------------------------- literal requests

  /** Another login of an account from the address where all its entries are goes through. */
  lemma LoginAgainFromSameAddress(s: Session, fd: int, addr: string, token: string, password: string)
    requires RecordsOk(s) && Bijective(s.db)
    requires AllFields([token, password]) && |token| <= 20 && |password| <= 30
    requires Accepted(s.db, token, password) && |s.cache| < 255
    requires var name := s.db.accounts[s.db.logins[token].uuid].name;
             forall i :: 0 <= i < |s.cache| && s.cache[i].name == name ==> s.cache[i].ip == addr
    ensures LoginUser(s, fd, addr, Joined([token, password])).outcome == Reply(0)
  {
    LoginAnswers(s, fd, addr, token, password);
  }

  /** A login of an online account that is live at another address faults, and changes no table. */
  lemma LoginFromSecondAddress(s: Session, fd: int, addr: string, token: string, password: string)
    requires RecordsOk(s) && Bijective(s.db)
    requires AllFields([token, password]) && |token| <= 20 && |password| <= 30
    requires Accepted(s.db, token, password) && s.db.accounts[s.db.logins[token].uuid].online
    requires var name := s.db.accounts[s.db.logins[token].uuid].name;
             exists i :: 0 <= i < |s.cache| && s.cache[i].name == name && s.cache[i].ip != addr
    ensures LoginUser(s, fd, addr, Joined([token, password])).outcome == Fault
    ensures LoginUser(s, fd, addr, Joined([token, password])).to.db == s.db
  {
    LoginAnswers(s, fd, addr, token, password);
    LoginBody(token, password);
  }

  /** A created administrator has the zero uuid, privilege 1, and logs in as "admin" with "admin". */
  lemma AdminAsCreated(db: Tables)
    requires "admin" !in db.names
    ensures var db' := CreateAdmin(db);
            && "admin" in db'.names && db'.names["admin"] == "00000000-0000-0000-0000-000000000000"
            && Accepted(db', "admin", "admin") && db'.logins["admin"].uuid == db'.names["admin"]
            && db'.names["admin"] in db'.accounts
            && db'.accounts[db'.names["admin"]] == Account(db'.names["admin"], "admin", "0", false, 1)
  {
  }

  /** Missing and overlong fields are faults, and change nothing. */
  lemma IncompleteUserBodies(s: Session, fd: int, addr: string, body: string, uuid: string, fs: seq<string>)
    requires ReadBody(body) == Fields(fs)
    ensures |fs| < 2 || |fs[0]| > 20 || |fs[1]| > 20 ==> CreateUser(s.db, body, uuid) == (s.db, Fault)
    ensures |fs| < 3 || |fs[0]| > 20 || |fs[1]| > 20 || |fs[2]| > 30 ==> DestroyUser(s, fd, body) == (s.db, Fault)
    ensures |fs| < 2 || |fs[0]| > 20 || |fs[1]| > 30 ==> LoginUser(s, fd, addr, body) == Result(s, Fault)
    ensures |fs| < 1 || |fs[0]| > 20 ==> LogoutUser(s, addr, body) == Result(s, Fault)
  {
  }
}
