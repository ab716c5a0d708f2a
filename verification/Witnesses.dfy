/**
 Runs of a server that starts by creating its administrator, and that reach states in which a
 property fails: the conditions of `Runs` are needed.
 */
module Witnesses {
  import opened CStrings
  import opened Records
  import opened ActiveUsers
  import opened Accounts
  import opened Channels
  import opened UpdateRequest
  import opened Runs

  const HERE := "9"

  function Sends(call: Call, body: seq<string>, uuid: string, order: seq<string>): Event {
    Request(4, HERE, call, Joined(body), uuid, order)
  }

  function With(db: Tables, cache: seq<Entry>): State {
    State(Session(db, cache), map[], map[])
  }

  /** One event passes the guard and succeeds. */
  ghost predicate Moves(ok: Guard, s: State, e: Event, s': State) {
    ok(s, e) && Step(s, e) == (s', Reply(0))
  }

  /** Moves from state to state make a run. */
  lemma {:induction false} Chain(ok: Guard, states: seq<State>, es: seq<Event>)
    requires |states| == |es| + 1
    requires forall i :: 0 <= i < |es| ==> Moves(ok, states[i], es[i], states[i + 1])
    ensures Leads(ok, states[0], es, states[|es|])
    decreases |es|
  {
    if es != [] {
      assert Moves(ok, states[0], es[0], states[1]);
      assert forall i :: 0 <= i < |es[1..]| ==> states[1..][i] == states[i + 1] && es[1..][i] == es[i + 1];
      Chain(ok, states[1..], es[1..]);
    }
  }

  lemma Two(ok: Guard, s0: State, e0: Event, s1: State, e1: Event, s2: State)
    requires Moves(ok, s0, e0, s1) && Moves(ok, s1, e1, s2)
    ensures Leads(ok, s0, [e0, e1], s2)
  {
    Chain(ok, [s0, s1, s2], [e0, e1]);
  }

  lemma Three(ok: Guard, s0: State, e0: Event, s1: State, e1: Event, s2: State, e2: Event, s3: State)
    requires Moves(ok, s0, e0, s1) && Moves(ok, s1, e1, s2) && Moves(ok, s2, e2, s3)
    ensures Leads(ok, s0, [e0, e1, e2], s3)
  {
    Chain(ok, [s0, s1, s2, s3], [e0, e1, e2]);
  }

  lemma Boots()
    ensures Moves(Careful, START, AdminCreation, With(BOOTED, []))
    ensures Moves(Admissible, START, AdminCreation, With(BOOTED, []))
  {
    BootedTables();
  }

  lemma Creates(db: Tables, cache: seq<Entry>, l: Login, name: string)
    requires AllFields([l.token, name, l.password])
    requires |l.token| <= NAME_LIMIT && |name| <= NAME_LIMIT && |l.password| <= PASSWORD_LIMIT
    requires l.token !in db.logins && name !in db.names
    ensures Step(With(db, cache), Sends(CreateUserCall, [l.token, name, l.password], l.uuid, []))
         == (With(AddUser(db, l, name), cache), Reply(0))
  {
    JoinedSize(l.token, name, l.password);
    BodyRoundTrip([l.token, name, l.password]);
  }

  function Entered(s: State, l: Login, a: Account): State {
    var b := LoggedIn(a, HERE);
    var cache := s.session.cache;
    s.(session := Session(s.session.db.(accounts := s.session.db.accounts[b.id := b]),
                          if SameCredentials(cache, 4, b.name, HERE) then cache else cache + [EntryFor(4, b, l)]))
  }

  lemma LogsIn(s: State, l: Login, a: Account, order: seq<string>)
    requires AllFields([l.token, l.password]) && |l.token| <= NAME_LIMIT && |l.password| <= PASSWORD_LIMIT
    requires l.token in s.session.db.logins && s.session.db.logins[l.token] == l
    requires l.uuid in s.session.db.accounts && s.session.db.accounts[l.uuid] == a && !a.online && a.name != ""
    requires |s.session.cache| < MAX_CLIENTS
    ensures Step(s, Sends(LoginCall, [l.token, l.password], "U", order)) == (Entered(s, l, a), Reply(0))
  {
    LoginBody(l.token, l.password);
  }

  lemma UpdateStep(s: State, body: string, order: seq<string>, store: Store, o: Outcome)
    requires UpdateChannel(s.session.db, s.store, order, body) == (store, o)
    ensures Step(s, Request(4, HERE, UpdateChannelCall, body, "U", order)) == (s.(store := store), o)
  {
  }

  lemma LogsOut(s: State, name: string, a: Account)
    requires IsField(name) && |name| <= NAME_LIMIT
    requires name in s.session.db.names && s.session.db.names[name] in s.session.db.accounts
    requires a == s.session.db.accounts[s.session.db.names[name]] && a.online && a.privilege == 0 && a.ip == HERE
    ensures Step(s, Sends(LogoutCall, [name], "U", [])) == (s.(session := Leave(s.session, a)), Reply(0))
  {
    BodyRoundTrip([name]);
    LogoutIsGranted(s.session, HERE, Joined([name]));
  }

  lemma LeavesAs(db: Tables, cache: seq<Entry>, name: string, a: Account, to: Session)
    requires IsField(name) && |name| <= NAME_LIMIT
    requires name in db.names && db.names[name] in db.accounts
    requires a == db.accounts[db.names[name]] && a.online && a.privilege == 0 && a.ip == HERE
    requires Leave(Session(db, cache), a) == to && FreshUser(db, "U")
    ensures Moves(Admissible, With(db, cache), Sends(LogoutCall, [name], "U", []), With(to.db, to.cache))
  {
    LogsOut(With(db, cache), name, a);
  }

  // ---------------------------------------------------------------- a destroy that mixes up two accounts

  const ANN := Login("a", "p", "A")
  const BOB := Login("b", "q", "B")
  const ANN_DB := AddUser(BOOTED, ANN, "ann")
  const BOTH_DB := AddUser(ANN_DB, BOB, "bob")
  const ANN_ON := LoggedIn(NewAccount("A", "ann"), HERE)
  const ONLINE_DB := BOTH_DB.(accounts := BOTH_DB.accounts["A" := ANN_ON])
  const MIXED_DB := DropUser(ONLINE_DB, "ann", BOB)
  const ANN_LIVE := [Entry(4, "ann", HERE, "a", "A", 0)]

  const ANN_JOINS := Sends(CreateUserCall, ["a", "ann", "p"], "A", [])
  const BOB_JOINS := Sends(CreateUserCall, ["b", "bob", "q"], "B", [])
  const ANN_ENTERS := Sends(LoginCall, ["a", "p"], "U", [])
  const ANN_MIXES_UP := Sends(DestroyUserCall, ["ann", "b", "q"], "U", [])

  lemma AnnJoins()
    ensures Moves(Admissible, With(BOOTED, []), ANN_JOINS, With(ANN_DB, []))
  {
    Creates(BOOTED, [], ANN, "ann");
  }

  lemma BobJoins()
    ensures Moves(Admissible, With(ANN_DB, []), BOB_JOINS, With(BOTH_DB, []))
  {
    Creates(ANN_DB, [], BOB, "bob");
  }

  lemma AnnEntered()
    ensures Entered(With(BOTH_DB, []), ANN, NewAccount("A", "ann")) == With(ONLINE_DB, ANN_LIVE)
  {
    assert !SameCredentials([], 4, "ann", HERE) && [] + ANN_LIVE == ANN_LIVE;
  }

  lemma AnnIsKnown()
    ensures "a" in BOTH_DB.logins && BOTH_DB.logins["a"] == ANN
    ensures "A" in BOTH_DB.accounts && BOTH_DB.accounts["A"] == NewAccount("A", "ann") && "U" !in BOTH_DB.accounts
  {
  }

  lemma AnnEnters()
    ensures Moves(Admissible, With(BOTH_DB, []), ANN_ENTERS, With(ONLINE_DB, ANN_LIVE))
  {
    AnnIsKnown();
    AnnEntered();
    LogsIn(With(BOTH_DB, []), ANN, NewAccount("A", "ann"), []);
  }

  lemma AnnMixesUp()
    ensures Moves(Admissible, With(ONLINE_DB, ANN_LIVE), ANN_MIXES_UP, With(MIXED_DB, ANN_LIVE))
  {
    JoinedSize("ann", "b", "q");
    BodyRoundTrip(["ann", "b", "q"]);
    assert DestroyGranted(Session(ONLINE_DB, ANN_LIVE), 4, Joined(["ann", "b", "q"]));
    DestroyIsGranted(Session(ONLINE_DB, ANN_LIVE), 4, Joined(["ann", "b", "q"]));
  }

  /** Ann and Bob register; Ann logs in, and sends her own name with Bob's token. */
  const MIX_UP: seq<Event> := [AdminCreation, ANN_JOINS, BOB_JOINS] + [ANN_ENTERS, ANN_MIXES_UP]

  lemma MixUpIsReached()
    ensures Leads(Admissible, START, MIX_UP, With(MIXED_DB, ANN_LIVE))
  {
    Boots();
    AnnJoins();
    BobJoins();
    Three(Admissible, START, AdminCreation, With(BOOTED, []), ANN_JOINS, With(ANN_DB, []),
          BOB_JOINS, With(BOTH_DB, []));
    AnnEnters();
    AnnMixesUp();
    Two(Admissible, With(BOTH_DB, []), ANN_ENTERS, With(ONLINE_DB, ANN_LIVE), ANN_MIXES_UP, With(MIXED_DB, ANN_LIVE));
    LeadsOn(Admissible, START, [AdminCreation, ANN_JOINS, BOB_JOINS], With(BOTH_DB, []),
            [ANN_ENTERS, ANN_MIXES_UP], With(MIXED_DB, ANN_LIVE));
  }

  lemma MixedTables()
    ensures Bijective(ONLINE_DB) && !Bijective(MIXED_DB)
  {
    BootedTables();
    AddKeepsBijection(BOOTED, ANN, "ann");
    AddKeepsBijection(ANN_DB, BOB, "bob");
    StatusKeepsBijection(BOTH_DB, ANN_ON);
    assert "bob" in MIXED_DB.names && MIXED_DB.names["bob"] !in MIXED_DB.accounts;
  }

  /** The tables are in bijection until the destroy, and not after it. */
  lemma MismatchedDestroyBreaksTables()
    ensures Leads(Admissible, START, MIX_UP, With(MIXED_DB, ANN_LIVE))
    ensures Bijective(ONLINE_DB) && !Bijective(MIXED_DB)
  {
    MixUpIsReached();
    MixedTables();
  }

  // ---------------------------------------------------------------- a logout that takes another's entry

  const HEIRESS := Login("c", "r", "C")
  const AGAIN_DB := AddUser(MIXED_DB, HEIRESS, "ann")
  const TWICE_DB := AGAIN_DB.(accounts := AGAIN_DB.accounts["C" := LoggedIn(NewAccount("C", "ann"), HERE)])
  const ALONE_DB := TWICE_DB.(accounts := TWICE_DB.accounts["C" := NewAccount("C", "ann")])

  const HEIRESS_JOINS := Sends(CreateUserCall, ["c", "ann", "r"], "C", [])
  const HEIRESS_ENTERS := Sends(LoginCall, ["c", "r"], "U", [])
  const HEIRESS_LEAVES := Sends(LogoutCall, ["ann"], "U", [])

  lemma HeiressJoins()
    ensures Moves(Admissible, With(MIXED_DB, ANN_LIVE), HEIRESS_JOINS, With(AGAIN_DB, ANN_LIVE))
  {
    Creates(MIXED_DB, ANN_LIVE, HEIRESS, "ann");
  }

  lemma HeiressEnters()
    ensures Moves(Admissible, With(AGAIN_DB, ANN_LIVE), HEIRESS_ENTERS, With(TWICE_DB, ANN_LIVE))
  {
    LogsIn(With(AGAIN_DB, ANN_LIVE), HEIRESS, NewAccount("C", "ann"), []);
    assert ANN_LIVE[0].name == "ann" && ANN_LIVE[0].ip == HERE && ANN_LIVE[0].fd == 4;
    assert Entered(With(AGAIN_DB, ANN_LIVE), HEIRESS, NewAccount("C", "ann")) == With(TWICE_DB, ANN_LIVE);
  }

  lemma HeiressLeft()
    ensures "ann" in TWICE_DB.names && TWICE_DB.names["ann"] == "C" && "C" in TWICE_DB.accounts
    ensures Leave(Session(TWICE_DB, ANN_LIVE), TWICE_DB.accounts["C"]) == Session(ALONE_DB, [])
    ensures FreshUser(TWICE_DB, "U")
  {
    IndexIs(ANN_LIVE, "ann", 0);
  }

  lemma HeiressLeaves()
    ensures Moves(Admissible, With(TWICE_DB, ANN_LIVE), HEIRESS_LEAVES, With(ALONE_DB, []))
  {
    HeiressLeft();
    LeavesAs(TWICE_DB, ANN_LIVE, "ann", TWICE_DB.accounts["C"], Session(ALONE_DB, []));
  }

  /** The freed name is registered again, used on the same descriptor and address, and logged out. */
  const TAKE_OVER: seq<Event> := [HEIRESS_JOINS, HEIRESS_ENTERS, HEIRESS_LEAVES]

  lemma TakenOver()
    ensures Attended(Session(TWICE_DB, ANN_LIVE)) && !Attended(Session(ALONE_DB, []))
  {
    assert ANN_LIVE[0].name == "ann" && ANN_LIVE[0].ip == HERE;
    assert ALONE_DB.accounts["A"] == ANN_ON;
  }

  /** Everybody is attended until the logout; after it the first Ann is online without a live entry. */
  lemma TakeOverBreaksSessions()
    ensures Leads(Admissible, With(MIXED_DB, ANN_LIVE), TAKE_OVER, With(ALONE_DB, []))
    ensures Attended(Session(TWICE_DB, ANN_LIVE)) && !Attended(Session(ALONE_DB, []))
  {
    HeiressJoins();
    HeiressEnters();
    HeiressLeaves();
    TakenOver();
    Three(Admissible, With(MIXED_DB, ANN_LIVE), HEIRESS_JOINS, With(AGAIN_DB, ANN_LIVE),
          HEIRESS_ENTERS, With(TWICE_DB, ANN_LIVE), HEIRESS_LEAVES, With(ALONE_DB, []));
  }

  // ---------------------------------------------------------------- an administrator who destroys himself

  const ROOT := Login(ADMIN, ADMIN, ADMIN_UUID)
  const ROOT_LIVE := [Entry(4, ADMIN, HERE, ADMIN, ADMIN_UUID, 1)]
  const ROOT_DB := BOOTED.(accounts := BOOTED.accounts[ADMIN_UUID := LoggedIn(NewAccount(ADMIN_UUID, ADMIN), HERE)])
  const HEIR := Login(ADMIN, "q", "B")
  const HEIR_DB := AddUser(NO_TABLES, HEIR, "bob")

  const ROOT_GOES := Sends(DestroyUserCall, [ADMIN, ADMIN, ADMIN], "U", [])
  const HEIR_JOINS := Sends(CreateUserCall, [ADMIN, "bob", "q"], "B", [])

  function RootEnters(order: seq<string>): Event {
    Sends(LoginCall, [ADMIN, ADMIN], "U", order)
  }

  lemma RootLogsIn(store: Store, order: seq<string>)
    ensures Step(State(Session(BOOTED, []), store, map[]), RootEnters(order))
         == (State(Session(ROOT_DB, ROOT_LIVE), store, map[]), Reply(0))
  {
    var s, a := State(Session(BOOTED, []), store, map[]), NewAccount(ADMIN_UUID, ADMIN);
    LogsIn(s, ROOT, a, order);
    assert !SameCredentials([], 4, ADMIN, HERE) && [EntryFor(4, LoggedIn(a, HERE), ROOT)] == ROOT_LIVE;
    assert [] + ROOT_LIVE == ROOT_LIVE;
  }

  lemma RootGoes()
    ensures Moves(Careful, With(ROOT_DB, ROOT_LIVE), ROOT_GOES, With(NO_TABLES, ROOT_LIVE))
  {
    JoinedSize(ADMIN, ADMIN, ADMIN);
    BodyRoundTrip([ADMIN, ADMIN, ADMIN]);
    assert DestroyGranted(Session(ROOT_DB, ROOT_LIVE), 4, Joined([ADMIN, ADMIN, ADMIN]));
    DestroyIsGranted(Session(ROOT_DB, ROOT_LIVE), 4, Joined([ADMIN, ADMIN, ADMIN]));
    assert DropUser(ROOT_DB, ADMIN, ROOT) == NO_TABLES;
  }

  const SELF_DESTROY: seq<Event> := [AdminCreation, RootEnters([]), ROOT_GOES]

  /** A careful run, and yet the live entry agrees with no table any more. */
  lemma SelfDestroyBreaksAgreement()
    ensures Leads(Careful, START, SELF_DESTROY, With(NO_TABLES, ROOT_LIVE))
    ensures !CacheAgrees(Session(NO_TABLES, ROOT_LIVE))
  {
    Boots();
    RootLogsIn(map[], []);
    RootGoes();
    assert Moves(Careful, With(BOOTED, []), RootEnters([]), With(ROOT_DB, ROOT_LIVE));
    Three(Careful, START, AdminCreation, With(BOOTED, []), RootEnters([]), With(ROOT_DB, ROOT_LIVE),
          ROOT_GOES, With(NO_TABLES, ROOT_LIVE));
    assert ROOT_LIVE[0] in ROOT_LIVE && !EntryAgrees(NO_TABLES, ROOT_LIVE[0]);
  }

  lemma HeirOrphaned()
    ensures Bijective(HEIR_DB) && !AdminSafe(HEIR_DB)
    ensures "B" in CreateAdmin(HEIR_DB).accounts && !HasToken(CreateAdmin(HEIR_DB).logins, "B")
    ensures !Bijective(CreateAdmin(HEIR_DB))
  {
    AddKeepsBijection(NO_TABLES, HEIR, "bob");
    assert CreateAdmin(HEIR_DB).logins == map[ADMIN := ROOT];
  }

  lemma HeirJoins()
    ensures Moves(Careful, With(NO_TABLES, ROOT_LIVE), HEIR_JOINS, With(HEIR_DB, ROOT_LIVE))
  {
    Creates(NO_TABLES, ROOT_LIVE, HEIR, "bob");
  }

  /** After that run somebody registers under the freed token, and the next start of the server takes it from him. */
  lemma AdminCreationOrphansHeir()
    ensures Leads(Careful, With(NO_TABLES, ROOT_LIVE), [HEIR_JOINS], With(HEIR_DB, ROOT_LIVE))
    ensures Bijective(HEIR_DB) && !Bijective(Step(With(HEIR_DB, ROOT_LIVE), AdminCreation).0.session.db)
    ensures !HasToken(CreateAdmin(HEIR_DB).logins, "B")
  {
    HeirOrphaned();
    HeirJoins();
    Chain(Careful, [With(NO_TABLES, ROOT_LIVE), With(HEIR_DB, ROOT_LIVE)], [HEIR_JOINS]);
  }

  // ---------------------------------------------------------------- a rename onto a used name

  const ONTO_GLOBAL := Update("x", Some("global"), None, QUIET, QUIET, QUIET)
  const GLOBAL_STORE: Store := map["G" := NewChannel("G", "global", ADMIN, false)]
  const TWO_STORE: Store := GLOBAL_STORE["X" := NewChannel("X", "x", ADMIN, true)]
  const OPENS := Sends(CreateChannelCall, ["x", ADMIN, "1"], "X", ["G"])
  const RENAMES := Sends(UpdateChannelCall, PrintUpdate(ONTO_GLOBAL), "U", ["G", "X"])

  function Rooted(store: Store): State {
    State(Session(ROOT_DB, ROOT_LIVE), store, map[])
  }

  lemma OntoGlobalPrints()
    ensures UpdateOk(ONTO_GLOBAL) && |Joined(PrintUpdate(ONTO_GLOBAL))| < DEFAULT_BUFFER
  {
    assert PrintUpdate(ONTO_GLOBAL) == ["x", "1", "global", "0", "0", "0", "0"];
    JoinedBound(PrintUpdate(ONTO_GLOBAL));
  }

  lemma GlobalOpens()
    ensures Moves(Admissible, With(BOOTED, []), GlobalCreation("G"), State(Session(BOOTED, []), GLOBAL_STORE, map[]))
  {
  }

  lemma RootEntersThere()
    ensures Moves(Admissible, State(Session(BOOTED, []), GLOBAL_STORE, map[]), RootEnters(["G"]), Rooted(GLOBAL_STORE))
  {
    RootLogsIn(GLOBAL_STORE, ["G"]);
  }

  lemma RootMayOpen()
    ensures CreateChannel(Session(ROOT_DB, ROOT_LIVE), GLOBAL_STORE, HERE, Joined(["x", ADMIN, "1"]), "X")
            == (TWO_STORE, Reply(0))
  {
    assert ROOT_LIVE[0].name == ADMIN && ROOT_LIVE[0].ip == HERE;
    CreateChannelAnswers(Session(ROOT_DB, ROOT_LIVE), GLOBAL_STORE, HERE, "X", "x", ADMIN, "1");
  }

  lemma Opens(s: Session, store: Store, body: seq<string>, uuid: string, order: seq<string>, store': Store)
    requires CreateChannel(s, store, HERE, Joined(body), uuid) == (store', Reply(0))
    requires FreshUser(s.db, uuid) && uuid !in store && Enumerates(order, store)
    ensures Moves(Admissible, State(s, store, map[]), Sends(CreateChannelCall, body, uuid, order),
                  State(s, store', map[]))
  {
  }

  lemma RootOpensChannel()
    ensures Moves(Admissible, Rooted(GLOBAL_STORE), OPENS, Rooted(TWO_STORE))
  {
    RootMayOpen();
    Opens(Session(ROOT_DB, ROOT_LIVE), GLOBAL_STORE, ["x", ADMIN, "1"], "X", ["G"], TWO_STORE);
  }

  /** Start of the server, login of the administrator, and one more channel. */
  const TWO_CHANNELS: seq<Event> := [AdminCreation, GlobalCreation("G")] + [RootEnters(["G"]), OPENS]

  lemma TwoChannelsAreReached()
    ensures Leads(Admissible, START, TWO_CHANNELS, Rooted(TWO_STORE))
  {
    Boots();
    GlobalOpens();
    RootEntersThere();
    RootOpensChannel();
    var s := State(Session(BOOTED, []), GLOBAL_STORE, map[]);
    Two(Admissible, START, AdminCreation, With(BOOTED, []), GlobalCreation("G"), s);
    Two(Admissible, s, RootEnters(["G"]), Rooted(GLOBAL_STORE), OPENS, Rooted(TWO_STORE));
    LeadsOn(Admissible, START, [AdminCreation, GlobalCreation("G")], s, [RootEnters(["G"]), OPENS], Rooted(TWO_STORE));
  }

  lemma TwoChannels()
    ensures StoreOk(TWO_STORE) && UniqueNames(TWO_STORE) && Enumerates(["G", "X"], TWO_STORE)
    ensures Taken(TWO_STORE, "x") && !RenameFree(ROOT_DB, TWO_STORE, ONTO_GLOBAL)
  {
    NewChannelOk(map[], "G", "global", ADMIN, false);
    NewChannelOk(GLOBAL_STORE, "X", "x", ADMIN, true);
    assert TWO_STORE["X"].name == "x" && TWO_STORE["G"].name == "global";
  }

  lemma RenameWorks()
    ensures var r := Apply(ROOT_DB, TWO_STORE, ["G", "X"], ONTO_GLOBAL);
            r.1 == Reply(0) && !UniqueNames(r.0)
  {
    TwoChannels();
    ApplyUnique(ROOT_DB, TWO_STORE, ["G", "X"], ONTO_GLOBAL);
    ApplyAnswers(ROOT_DB, TWO_STORE, ["G", "X"], ONTO_GLOBAL);
  }

  /** In that state a rename onto the global channel's name succeeds, and leaves two channels of one name. */
  lemma RenameOntoUsedName()
    ensures Leads(Admissible, START, TWO_CHANNELS, Rooted(TWO_STORE)) && UniqueNames(TWO_STORE)
    ensures Admissible(Rooted(TWO_STORE), RENAMES)
    ensures Step(Rooted(TWO_STORE), RENAMES).1 == Reply(0) && !UniqueNames(Step(Rooted(TWO_STORE), RENAMES).0.store)
  {
    TwoChannelsAreReached();
    TwoChannels();
    RenameWorks();
    OntoGlobalPrints();
    UpdateEndToEnd(ROOT_DB, TWO_STORE, ["G", "X"], ONTO_GLOBAL);
    var (store, o) := Apply(ROOT_DB, TWO_STORE, ["G", "X"], ONTO_GLOBAL);
    UpdateStep(Rooted(TWO_STORE), Joined(PrintUpdate(ONTO_GLOBAL)), ["G", "X"], store, o);
  }
}
