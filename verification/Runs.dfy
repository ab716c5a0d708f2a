/**
 The server as a state machine: its stores and live cache entries, the steps that its handlers
 take, and what every run keeps.
 */
module Runs {
  import opened CStrings
  import opened Records
  import opened ActiveUsers
  import opened Accounts
  import opened Channels
  import Replies
  import opened UpdateRequest

  datatype State = State(session: Session, store: Store, messages: map<string, Message>)

  datatype Call =
    | CreateUserCall | DestroyUserCall | LoginCall | LogoutCall
    | CreateChannelCall | ReadChannelCall | UpdateChannelCall | CreateMessageCall

  /**
   A start of the server thread creates the administrator and the global channel; a restart of the
   process blanks the cache; a request runs one handler. `uuid` is the random identifier that the
   step may draw, and `order` the key order in which the channel store is scanned.
   */
  datatype Event =
    | AdminCreation
    | GlobalCreation(uuid: string)
    | Restart
    | Request(fd: int, addr: string, call: Call, body: string, uuid: string, order: seq<string>)

  const START := State(Session(NO_TABLES, []), map[], map[])

  // ---------------------------------------------------------------- messages

  predicate MessageFields(body: string) {
    match ReadBody(body)
    case Fields(fs) => |fs| >= 4 && |fs[0]| <= NAME_LIMIT && |fs[1]| <= NAME_LIMIT && |fs[2]| <= MESSAGE_LIMIT
    case _ => false
  }

  predicate IsAck(body: string) {
    match ReadBody(body)
    case Fields(fs) => fs != [] && fs[0] == "200"
    case _ => false
  }

  /**
   `read_and_create_message` and the lookup for forwarding after it: display name, channel name,
   text, time stamp. The author is found by name in the cache, then by token in the login table.
   */
  function CreateMessage(s: State, body: string, uuid: string, order: seq<string>): (map<string, Message>, Outcome) {
    var db := s.session.db;
    if IsAck(body) then (s.messages, Reply(69))
    else if !MessageFields(body) then (s.messages, Fault)
    else
      var fs := ReadBody(body).fields;
      var channel := Lookup(s.store, order, fs[1]);
      var poster := ByName(s.session.cache, fs[0]);
      if channel.None? then (s.messages, if s.session.cache == [] then Reply(2) else Fault)
      else if poster.None? || poster.value.uuid !in db.accounts then (s.messages, Fault)
      else if db.accounts[poster.value.uuid].privilege !in {0, 1} then (s.messages, Fault)
      else if poster.value.token !in db.logins then (s.messages, Fault)
      else (s.messages[uuid := Message(uuid, db.logins[poster.value.token].uuid, channel.value.id)], Reply(0))
  }

  // ---------------------------------------------------------------- steps

  function Handle(s: State, e: Event): (State, Outcome)
    requires e.Request?
  {
    match e.call
    case CreateUserCall =>
      var (db, o) := CreateUser(s.session.db, e.body, e.uuid);
      (s.(session := s.session.(db := db)), o)
    case DestroyUserCall =>
      var (db, o) := DestroyUser(s.session, e.fd, e.body);
      (s.(session := s.session.(db := db)), o)
    case LoginCall =>
      var r := LoginUser(s.session, e.fd, e.addr, e.body);
      (s.(session := r.to), r.outcome)
    case LogoutCall =>
      var r := LogoutUser(s.session, e.addr, e.body);
      (s.(session := r.to), r.outcome)
    case CreateChannelCall =>
      var (store, o) := CreateChannel(s.session, s.store, e.addr, e.body, e.uuid);
      (s.(store := store), o)
    case ReadChannelCall => (s, ReadChannel(s.store, e.order, e.body))
    case UpdateChannelCall =>
      var (store, o) := UpdateChannel(s.session.db, s.store, e.order, e.body);
      (s.(store := store), o)
    case CreateMessageCall =>
      var (messages, o) := CreateMessage(s, e.body, e.uuid, e.order);
      (s.(messages := messages), o)
  }

  /** The event posts a message and succeeds. */
  predicate Posts(s: State, e: Event) {
    && e.Request? && e.call.CreateMessageCall?
    && CreateMessage(s, e.body, e.uuid, e.order).1 == Reply(0)
  }

  /** What `handle_request` forwards after the step: the body, to the live members of the named channel. */
  function Forwarded(s: State, e: Event): seq<Replies.Delivery> {
    if !Posts(s, e) then []
    else
      var channel := Lookup(s.store, e.order, ReadBody(e.body).fields[1]).value;
      Replies.Deliveries(s.session.cache, channel.users, Text(e.body))
  }

  function Step(s: State, e: Event): (State, Outcome) {
    match e
    case AdminCreation => (s.(session := s.session.(db := CreateAdmin(s.session.db))), Reply(0))
    case GlobalCreation(uuid) => (s.(store := CreateGlobal(s.store, uuid)), Reply(0))
    case Restart => (s.(session := s.session.(cache := [])), Reply(0))
    case Request(_, _, _, _, _, _) => Handle(s, e)
  }

  type Guard = (State, Event) -> bool

  /** `es` leads from `s` to `t`: every event passes the guard and none faults. */
  ghost predicate Leads(ok: Guard, s: State, es: seq<Event>, t: State)
    decreases |es|
  {
    if es == [] then s == t
    else ok(s, es[0]) && Step(s, es[0]).1 != Fault && Leads(ok, Step(s, es[0]).0, es[1..], t)
  }

  /** Runs compose. */
  lemma {:induction false} LeadsOn(ok: Guard, s: State, es: seq<Event>, s': State, es': seq<Event>, t: State)
    requires Leads(ok, s, es, s') && Leads(ok, s', es', t)
    ensures Leads(ok, s, es + es', t)
    decreases |es|
  {
    if es == [] {
      assert es + es' == es';
    } else {
      LeadsOn(ok, Step(s, es[0]).0, es[1..], s', es', t);
      assert (es + es')[1..] == es[1..] + es';
    }
  }

  lemma {:induction false} RunKeeps(ok: Guard, inv: State -> bool, s: State, es: seq<Event>, t: State)
    requires Leads(ok, s, es, t) && inv(s)
    requires forall x, e :: inv(x) && ok(x, e) && Step(x, e).1 != Fault ==> inv(Step(x, e).0)
    ensures inv(t)
    decreases |es|
  {
    if es != [] {
      RunKeeps(ok, inv, Step(s, es[0]).0, es[1..], t);
    }
  }

  // ---------------------------------------------------------------- the environment

  /** Identifiers are fresh, client addresses are not "0", and scans see exactly the stored keys. */
  ghost predicate Admissible(s: State, e: Event) {
    match e
    case AdminCreation => true
    case GlobalCreation(uuid) => uuid !in s.store
    case Restart => true
    case Request(_, addr, _, _, uuid, order) =>
      && addr != OFFLINE_IP
      && FreshUser(s.session.db, uuid) && uuid !in s.store && uuid !in s.messages
      && Enumerates(order, s.store)
  }

  // ---------------------------------------------------------------- every run

  ghost predicate Sound(s: State) {
    RecordsOk(s.session) && StoreOk(s.store)
  }

  lemma StepSound(s: State, e: Event)
    requires Sound(s) && Admissible(s, e)
    ensures Sound(Step(s, e).0) && Grows(s.store, Step(s, e).0.store)
  {
    GrowsReflexive(s.store);
    match e
    case AdminCreation => AdminRecords(s.session);
    case GlobalCreation(uuid) => CreateGlobalOk(s.store, uuid);
    case Restart =>
    case Request(fd, addr, call, body, uuid, order) =>
      match call
      case CreateUserCall => CreateRecords(s.session, body, uuid);
      case DestroyUserCall => DestroyRecords(s.session, fd, body);
      case LoginCall => LoginRecords(s.session, fd, addr, body);
      case LogoutCall => LogoutRecords(s.session, addr, body);
      case CreateChannelCall => CreateChannelOk(s.session, s.store, addr, body, uuid);
      case ReadChannelCall =>
      case UpdateChannelCall => UpdateChannelOk(s.session.db, s.store, order, body);
      case CreateMessageCall =>
  }

  /**
   Every run keeps sound records and channels: an account is offline exactly when its address is
   "0", privilege is 1 exactly for "admin", member lists stay packed with the creator first; and no
   channel, creator or member is ever lost.
   */
  lemma {:induction false} EveryRunIsSound(s: State, es: seq<Event>, t: State)
    requires Sound(s) && Leads(Admissible, s, es, t)
    ensures Sound(t) && Grows(s.store, t.store)
    decreases |es|
  {
    GrowsReflexive(s.store);
    if es != [] {
      var s' := Step(s, es[0]).0;
      StepSound(s, es[0]);
      EveryRunIsSound(s', es[1..], t);
      GrowsTransitive(s.store, s'.store, t.store);
    }
  }

  /** In every run a logout request with a name field is answered, and "not online" only to the administrator. */
  lemma LogoutInRuns(es: seq<Event>, t: State, addr: string, body: string)
    requires Leads(Admissible, START, es, t) && addr != OFFLINE_IP
    requires ReadBody(body).Fields? && Has(ReadBody(body).fields, 0, NAME_LIMIT)
    ensures var o := LogoutUser(t.session, addr, body).outcome;
            && o in {Reply(0), Reply(2), Reply(4), Reply(500)}
            && (o == Reply(4) ==> t.session.db.accounts[t.session.db.names[ReadBody(body).fields[0]]].name == ADMIN)
  {
    EveryRunIsSound(START, es, t);
    LogoutAnswers(t.session, addr, body);
  }

  /** In every run the 64-slot membership scan agrees with the scans that stop at the first blank. */
  lemma ScansAgreeInRuns(es: seq<Event>, t: State, id: string, name: string)
    requires Leads(Admissible, START, es, t) && id in t.store && name != ""
    ensures name in t.store[id].users <==> name in Members(t.store[id].users)
    ensures t.store[id].creator in Members(t.store[id].users)
  {
    EveryRunIsSound(START, es, t);
    assert ChannelOk(id, t.store[id]);
    ScansAgree(t.store[id].users, name);
    ScansAgree(t.store[id].users, t.store[id].creator);
  }

  // ---------------------------------------------------------------- the tables

  /** The event is a destroy request that is granted. */
  predicate Destroys(s: State, e: Event) {
    e.Request? && e.call.DestroyUserCall? && DestroyGranted(s.session, e.fd, e.body)
  }

  /** Destroys name one account, and admin creation does not take a user's token. */
  ghost predicate Careful(s: State, e: Event) {
    && Admissible(s, e)
    && (e.AdminCreation? ==> AdminSafe(s.session.db))
    && (Destroys(s, e) ==> Matched(s.session.db, ReadBody(e.body).fields[0], ReadBody(e.body).fields[1]))
  }

  ghost predicate Tidy(s: State) {
    Sound(s) && Bijective(s.session.db)
  }

  lemma StepTidy(s: State, e: Event)
    requires Tidy(s) && Careful(s, e)
    ensures Tidy(Step(s, e).0)
  {
    StepSound(s, e);
    match e
    case AdminCreation => AdminKeepsBijection(s.session);
    case GlobalCreation(uuid) =>
    case Restart =>
    case Request(fd, addr, call, body, uuid, order) =>
      match call
      case CreateUserCall => CreateKeepsBijection(s.session.db, body, uuid);
      case DestroyUserCall =>
        DestroyIsGranted(s.session, fd, body);
        if Destroys(s, e) {
          DestroyKeepsBijection(s.session, fd, body);
        }
      case LoginCall => LoginKeepsBijection(s.session, fd, addr, body);
      case LogoutCall => LogoutKeepsBijection(s.session, addr, body);
      case CreateChannelCall =>
      case ReadChannelCall =>
      case UpdateChannelCall =>
      case CreateMessageCall =>
  }

  /** The guard is exact: a step that violates it breaks the bijection. */
  lemma CarelessBreaks(s: State, e: Event)
    requires Tidy(s) && Admissible(s, e)
    ensures Bijective(Step(s, e).0.session.db) <==> Careful(s, e)
  {
    if Careful(s, e) {
      StepTidy(s, e);
    } else if e.AdminCreation? {
      AdminKeepsBijection(s.session);
    } else {
      DestroyKeepsBijection(s.session, e.fd, e.body);
    }
  }

  /** From an empty store, careful runs keep the three tables in bijection, with one record each per account. */
  lemma RunsKeepTheTables(es: seq<Event>, t: State)
    requires Leads(Careful, START, es, t)
    ensures Tidy(t)
    ensures |t.session.db.logins| == |t.session.db.names| == |t.session.db.accounts|
  {
    forall x, e | Tidy(x) && Careful(x, e) ensures Tidy(Step(x, e).0) {
      StepTidy(x, e);
    }
    RunKeeps(Careful, Tidy, START, es, t);
    SizesAgree(t.session.db);
  }

  // ---------------------------------------------------------------- sessions

  lemma StepHasNoTwins(s: State, e: Event)
    requires NoTwins(s.session.cache) && Step(s, e).1 != Fault
    ensures NoTwins(Step(s, e).0.session.cache)
  {
    if e.Request? && e.call.LoginCall? {
      LoginKeepsNoTwins(s.session, e.fd, e.addr, e.body);
    } else if e.Request? && e.call.LogoutCall? {
      LogoutIsGranted(s.session, e.addr, e.body);
      if LogoutGranted(s.session, e.addr, e.body) {
        var a := s.session.db.accounts[s.session.db.names[ReadBody(e.body).fields[0]]];
        RemoveKeepsNoTwins(s.session.cache, a.name);
      }
    }
  }

  /** In every run whatsoever, no two live entries come to share descriptor, name and address. */
  lemma {:induction false} RunsHaveNoTwins(ok: Guard, s: State, es: seq<Event>, t: State)
    requires NoTwins(s.session.cache) && Leads(ok, s, es, t)
    ensures NoTwins(t.session.cache)
    decreases |es|
  {
    if es != [] {
      StepHasNoTwins(s, es[0]);
      RunsHaveNoTwins(ok, Step(s, es[0]).0, es[1..], t);
    }
  }

  predicate Nobody(db: Tables) {
    forall u :: u in db.accounts ==> !db.accounts[u].online
  }

  /** The event is a logout request that gets through. */
  predicate LogsOut(s: State, e: Event) {
    e.Request? && e.call.LogoutCall? && LogoutGranted(s.session, e.addr, e.body)
  }

  /** No restart under an online account, and no logout that takes somebody else's last entry. */
  ghost predicate Orderly(s: State, e: Event) {
    && Admissible(s, e)
    && (e.Restart? ==> Nobody(s.session.db))
    && (LogsOut(s, e) ==> Spared(s.session, s.session.db.names[ReadBody(e.body).fields[0]]))
  }

  /** A restart blanks the cache but not the stored status: it is harmless exactly when nobody is online. */
  lemma RestartKeepsSessions(s: State)
    ensures Attended(Step(s, Restart).0.session) <==> Nobody(s.session.db)
  {
    var s' := Step(s, Restart).0.session;
    if !Nobody(s.session.db) {
      var u :| u in s.session.db.accounts && s.session.db.accounts[u].online;
      assert !Present(s'.cache, s'.db.accounts[u].name, s'.db.accounts[u].ip);
    }
  }

  lemma LogoutStepAttended(s: State, e: Event)
    requires RecordsOk(s.session) && Attended(s.session) && Admissible(s, e)
    requires e.Request? && e.call.LogoutCall?
    ensures Attended(Step(s, e).0.session) <==> Orderly(s, e)
  {
    LogoutIsGranted(s.session, e.addr, e.body);
    if LogsOut(s, e) {
      LogoutKeepsAttended(s.session, e.addr, e.body);
    }
  }

  /** For every admissible step without a fault, the orderly ones are exactly those that leave everybody attended. */
  lemma StepAttended(s: State, e: Event)
    requires RecordsOk(s.session) && Attended(s.session) && Admissible(s, e) && Step(s, e).1 != Fault
    ensures Attended(Step(s, e).0.session) <==> Orderly(s, e)
  {
    match e
    case AdminCreation => AdminKeepsAttended(s.session);
    case GlobalCreation(uuid) =>
    case Restart => RestartKeepsSessions(s);
    case Request(fd, addr, call, body, uuid, order) =>
      match call
      case CreateUserCall => CreateKeepsAttended(s.session, body, uuid);
      case DestroyUserCall => DestroyKeepsAttended(s.session, fd, body);
      case LoginCall => LoginKeepsAttended(s.session, fd, addr, body);
      case LogoutCall => LogoutStepAttended(s, e);
      case CreateChannelCall =>
      case ReadChannelCall =>
      case UpdateChannelCall =>
      case CreateMessageCall =>
  }

  ghost predicate Staffed(s: State) {
    Sound(s) && Attended(s.session)
  }

  /**
   From any sound state with everybody attended (an empty cache with nobody online is one), through
   every orderly run, careful or not: every online account has a live entry under its name and at
   its stored address.
   */
  lemma RunsKeepSessions(s: State, es: seq<Event>, t: State)
    requires Staffed(s) && Leads(Orderly, s, es, t)
    ensures Staffed(t)
  {
    forall x, e | Staffed(x) && Orderly(x, e) && Step(x, e).1 != Fault ensures Staffed(Step(x, e).0) {
      StepSound(x, e);
      StepAttended(x, e);
    }
    RunKeeps(Orderly, Staffed, s, es, t);
  }

  /** Careful events, and restarts only with nobody online: conditions that never look at a logout. */
  ghost predicate Tended(s: State, e: Event) {
    Careful(s, e) && (e.Restart? ==> Nobody(s.session.db))
  }

  lemma TendedIsOrderly(s: State, e: Event)
    requires Tidy(s) && Tended(s, e)
    ensures Orderly(s, e)
  {
    if LogsOut(s, e) {
      BijectionSpares(s.session.db, s.session.cache, s.session.db.names[ReadBody(e.body).fields[0]]);
    }
  }

  /** Tended runs keep the tables in bijection and everybody attended. */
  lemma {:induction false} TendedRunsKeepSessions(s: State, es: seq<Event>, t: State)
    requires Tidy(s) && Attended(s.session) && Leads(Tended, s, es, t)
    ensures Tidy(t) && Attended(t.session)
    decreases |es|
  {
    if es != [] {
      StepTidy(s, es[0]);
      TendedIsOrderly(s, es[0]);
      StepAttended(s, es[0]);
      TendedRunsKeepSessions(Step(s, es[0]).0, es[1..], t);
    }
  }

  /** While everybody is attended, no step moves an account that stays online to another address. */
  lemma OnlineAddressesHold(s: State, e: Event, u: string)
    requires Staffed(s) && Step(s, e).1 != Fault
    requires u in s.session.db.accounts && s.session.db.accounts[u].online
    requires u in Step(s, e).0.session.db.accounts && Step(s, e).0.session.db.accounts[u].online
    ensures Step(s, e).0.session.db.accounts[u].ip == s.session.db.accounts[u].ip
  {
    var s' := s.session;
    match e
    case AdminCreation =>
    case GlobalCreation(uuid) =>
    case Restart =>
    case Request(fd, addr, call, body, uuid, order) =>
      match call
      case CreateUserCall =>
      case DestroyUserCall => DestroyIsGranted(s', fd, body);
      case LoginCall => LoginKeepsAddress(s', fd, addr, body, u);
      case LogoutCall => LogoutIsGranted(s', addr, body);
      case CreateChannelCall =>
      case ReadChannelCall =>
      case UpdateChannelCall =>
      case CreateMessageCall =>
  }

  // ---------------------------------------------------------------- agreement and authorship

  /** Every message has an author with an account and a channel that exists. */
  ghost predicate MessagesOk(s: State) {
    forall m :: m in s.messages ==> s.messages[m].author in s.session.db.accounts && s.messages[m].channel in s.store
  }

  ghost predicate Authored(s: State, uuid: string) {
    exists m :: m in s.messages && s.messages[m].author == uuid
  }

  ghost predicate Agrees(s: State) {
    Tidy(s) && CacheAgrees(s.session) && MessagesOk(s)
  }

  /** Only accounts that nobody refers to any more are destroyed. */
  ghost predicate Unreferenced(s: State, e: Event)
    requires Destroys(s, e)
  {
    var fs := ReadBody(e.body).fields;
    !Named(s.session.cache, fs[0]) && !Authored(s, s.session.db.logins[fs[1]].uuid)
  }

  ghost predicate Gentle(s: State, e: Event) {
    Careful(s, e) && (Destroys(s, e) ==> Unreferenced(s, e))
  }

  /** A poster found by name in the cache leads, through the token, to the account of that name. */
  lemma PosterIsAuthor(s: State, body: string, uuid: string, order: seq<string>)
    requires Agrees(s) && Enumerates(order, s.store) && uuid !in s.messages
    requires CreateMessage(s, body, uuid, order).1 == Reply(0)
    ensures var fs, db, messages := ReadBody(body).fields, s.session.db, CreateMessage(s, body, uuid, order).0;
            && |fs| >= 4 && fs[0] in db.names && uuid in messages
            && messages == s.messages[uuid := messages[uuid]]
            && messages[uuid].id == uuid && messages[uuid].author == db.names[fs[0]]
            && messages[uuid].author in db.accounts && db.accounts[messages[uuid].author].name == fs[0]
            && messages[uuid].channel in s.store && s.store[messages[uuid].channel].name == fs[1]
  {
    var fs := ReadBody(body).fields;
    var poster := ByName(s.session.cache, fs[0]).value;
    assert poster in s.session.cache && EntryAgrees(s.session.db, poster);
    LookupOk(s.store, order, fs[1]);
  }

  /** A live poster has all the records that posting looks up. */
  lemma PosterHasRecords(s: State, name: string)
    requires Agrees(s)
    ensures ByName(s.session.cache, name).Some? <==> Named(s.session.cache, name)
    ensures ByName(s.session.cache, name).Some? ==>
              var poster, db := ByName(s.session.cache, name).value, s.session.db;
              poster.token in db.logins && poster.uuid in db.accounts && db.accounts[poster.uuid].privilege in {0, 1}
  {
    var k := IndexOf(s.session.cache, name);
    if k < |s.session.cache| {
      var poster := s.session.cache[k];
      assert poster in s.session.cache && EntryAgrees(s.session.db, poster);
      assert AccountOk(poster.uuid, s.session.db.accounts[poster.uuid]);
    }
  }

  /** The answer to a complete message: stored exactly when the channel exists and the poster is live. */
  lemma MessageAnswers(s: State, body: string, uuid: string, order: seq<string>)
    requires Agrees(s) && Enumerates(order, s.store)
    requires MessageFields(body) && !IsAck(body)
    ensures var fs, o := ReadBody(body).fields, CreateMessage(s, body, uuid, order).1;
            && (o == Reply(0) <==> Taken(s.store, fs[1]) && Named(s.session.cache, fs[0]))
            && (o == Reply(2) <==> !Taken(s.store, fs[1]) && s.session.cache == [])
            && (o != Reply(0) && o != Reply(2) ==> o == Fault)
  {
    LookupOk(s.store, order, ReadBody(body).fields[1]);
    PosterHasRecords(s, ReadBody(body).fields[0]);
  }

  lemma CompleteMessage(body: string, fs: seq<string>)
    requires ReadBody(body) == Fields(fs) && |fs| >= 4 && |fs[0]| <= 20 && |fs[1]| <= 20 && |fs[2]| <= 973
    ensures MessageFields(body) && (IsAck(body) <==> fs[0] == "200")
  {
  }

  /** The live user `name` posts to the channel `channel`, whose id is `id`. */
  ghost predicate Stored(s: State, messages: map<string, Message>, uuid: string, name: string, id: string) {
    && name in s.session.db.names
    && messages == s.messages[uuid := Message(uuid, s.session.db.names[name], id)]
  }

  /**
   A complete message from anybody not called "200": stored under the poster's uuid and the channel's id
   exactly when the channel exists and the poster is live. Otherwise nothing is stored, and the answer
   is 2 with an empty cache and an unknown channel, and a fault else.
   */
  lemma PostAnswers(s: State, uuid: string, order: seq<string>,
                    name: string, channel: string, text: string, stamp: string)
    requires Agrees(s) && Enumerates(order, s.store) && uuid !in s.messages
    requires AllFields([name, channel, text, stamp]) && |Joined([name, channel, text, stamp])| < 1024
    requires |name| <= 20 && |channel| <= 20 && |text| <= 973 && name != "200"
    ensures var (messages, o) := CreateMessage(s, Joined([name, channel, text, stamp]), uuid, order);
            var exists' := exists id :: id in s.store && s.store[id].name == channel;
            var live := exists i :: 0 <= i < |s.session.cache| && s.session.cache[i].name == name;
            && (o == Reply(0) <==> exists' && live)
            && (o == Reply(2) <==> !exists' && s.session.cache == [])
            && (o != Reply(0) && o != Reply(2) ==> o == Fault)
            && (o == Reply(0) ==>
                  exists id :: id in s.store && s.store[id].name == channel && Stored(s, messages, uuid, name, id))
            && (o != Reply(0) ==> messages == s.messages)
  {
    var fs := [name, channel, text, stamp];
    BodyRoundTrip(fs);
    CompleteMessage(Joined(fs), fs);
    MessageAnswers(s, Joined(fs), uuid, order);
    MessageUnstored(s, Joined(fs), uuid, order);
    if CreateMessage(s, Joined(fs), uuid, order).1 == Reply(0) {
      PosterIsAuthor(s, Joined(fs), uuid, order);
      var m := CreateMessage(s, Joined(fs), uuid, order).0[uuid];
      assert Stored(s, CreateMessage(s, Joined(fs), uuid, order).0, uuid, name, m.channel);
    }
  }

  lemma MessageUnstored(s: State, body: string, uuid: string, order: seq<string>)
    ensures CreateMessage(s, body, uuid, order).1 != Reply(0) ==> CreateMessage(s, body, uuid, order).0 == s.messages
  {
  }

  /** A body whose first piece is "200" is an acknowledgement: answer 69, and nothing is stored. */
  lemma AckIsIgnored(s: State, body: string, uuid: string, order: seq<string>)
    requires 0 < |body| < 1024
    requires var ps := Pieces(Text(body), SEPARATORS); ps != [] && ps[0] == "200"
    ensures CreateMessage(s, body, uuid, order) == (s.messages, Reply(69))
  {
  }

  /** Any other message with missing or overlong fields is a fault. */
  lemma IncompleteMessage(s: State, body: string, uuid: string, order: seq<string>, fs: seq<string>)
    requires ReadBody(body) == Fields(fs) && (fs != [] ==> fs[0] != "200")
    requires |fs| < 4 || |fs[0]| > 20 || |fs[1]| > 20 || |fs[2]| > 973
    ensures CreateMessage(s, body, uuid, order) == (s.messages, Fault)
  {
  }

  /** A failed read is answered by the channel handlers only; a body that does not fit is always a fault. */
  lemma UnreadableBodies(s: State, e: Event)
    requires e.Request?
    ensures e.body == "" && e.call in {CreateChannelCall, ReadChannelCall, UpdateChannelCall} ==>
              Step(s, e) == (s, Reply(500))
    ensures e.body == "" && e.call !in {CreateChannelCall, ReadChannelCall, UpdateChannelCall} ==>
              Step(s, e) == (s, Fault)
    ensures |e.body| >= 1024 ==> Step(s, e) == (s, Fault)
  {
  }

  lemma DropMessages(s: State, s': State, gone: string)
    requires MessagesOk(s) && s'.messages == s.messages && s'.store == s.store
    requires s'.session.db.accounts == s.session.db.accounts - {gone}
    ensures MessagesOk(s') <==> !Authored(s, gone)
  {
    if Authored(s, gone) {
      var m :| m in s.messages && s.messages[m].author == gone;
      assert m in s'.messages && s'.messages[m].author !in s'.session.db.accounts;
    }
  }

  lemma DestroyStep(s: State, e: Event)
    requires Destroys(s, e)
    ensures var db, fs := s.session.db, ReadBody(e.body).fields;
            && |fs| > 1 && fs[1] in db.logins
            && Step(s, e).0 == s.(session := s.session.(db := DropUser(db, fs[0], db.logins[fs[1]])))
  {
    DestroyIsGranted(s.session, e.fd, e.body);
  }

  lemma DestroyStepCache(s: State, e: Event)
    requires Agrees(s) && Careful(s, e) && Destroys(s, e)
    ensures CacheAgrees(Step(s, e).0.session) <==> !Named(s.session.cache, ReadBody(e.body).fields[0])
  {
    DestroyKeepsAgreement(s.session, e.fd, e.body);
  }

  lemma DestroyStepMessages(s: State, e: Event)
    requires Agrees(s) && Destroys(s, e)
    ensures ReadBody(e.body).fields[1] in s.session.db.logins
    ensures MessagesOk(Step(s, e).0) <==> !Authored(s, s.session.db.logins[ReadBody(e.body).fields[1]].uuid)
  {
    DestroyStep(s, e);
    DropMessages(s, Step(s, e).0, s.session.db.logins[ReadBody(e.body).fields[1]].uuid);
  }

  /** A matched destroy keeps the agreement exactly when neither cache nor messages refer to the account. */
  lemma DestroyKeepsReferences(s: State, e: Event)
    requires Agrees(s) && Careful(s, e) && Destroys(s, e)
    ensures Agrees(Step(s, e).0) <==> Unreferenced(s, e)
  {
    StepTidy(s, e);
    DestroyStepCache(s, e);
    DestroyStepMessages(s, e);
  }

  /** No step but a destroy forgets an account or a name. */
  lemma StepKeepsUsers(s: State, e: Event)
    requires RecordsOk(s.session) && !Destroys(s, e)
    ensures s.session.db.accounts.Keys <= Step(s, e).0.session.db.accounts.Keys
    ensures s.session.db.names.Keys <= Step(s, e).0.session.db.names.Keys
  {
    match e
    case AdminCreation => CreationKeepsKeys(s.session.db, "", "");
    case GlobalCreation(uuid) =>
    case Restart =>
    case Request(fd, addr, call, body, uuid, order) =>
      match call
      case CreateUserCall => CreationKeepsKeys(s.session.db, body, uuid);
      case DestroyUserCall => DestroyIsGranted(s.session, fd, body);
      case LoginCall => StatusKeepsKeys(s.session, fd, addr, body);
      case LogoutCall => StatusKeepsKeys(s.session, fd, addr, body);
      case CreateChannelCall =>
      case ReadChannelCall =>
      case UpdateChannelCall =>
      case CreateMessageCall =>
  }

  lemma StepKeepsKeys(s: State, e: Event)
    requires Sound(s) && Admissible(s, e)
    ensures s.store.Keys <= Step(s, e).0.store.Keys
    ensures !(e.Request? && e.call.CreateMessageCall?) ==> Step(s, e).0.messages == s.messages
  {
    assert Grows(s.store, Step(s, e).0.store) by {
      StepSound(s, e);
    }
  }

  lemma MessagesFrame(s: State, s': State)
    requires MessagesOk(s) && s'.messages == s.messages
    requires s.session.db.accounts.Keys <= s'.session.db.accounts.Keys && s.store.Keys <= s'.store.Keys
    ensures MessagesOk(s')
  {
  }

  /** What a create-message request changes. */
  lemma PostStep(s: State, e: Event)
    requires e.Request? && e.call.CreateMessageCall?
    ensures var messages := CreateMessage(s, e.body, e.uuid, e.order).0;
            Step(s, e).0 == s.(messages := messages) && (!Posts(s, e) ==> messages == s.messages)
  {
  }

  lemma PostKeepsMessages(s: State, e: Event)
    requires Agrees(s) && Admissible(s, e) && e.Request? && e.call.CreateMessageCall?
    ensures MessagesOk(Step(s, e).0)
  {
    PostStep(s, e);
    if Posts(s, e) {
      PosterIsAuthor(s, e.body, e.uuid, e.order);
    }
  }

  lemma StepKeepsMessages(s: State, e: Event)
    requires Agrees(s) && Gentle(s, e) && !Destroys(s, e)
    ensures MessagesOk(Step(s, e).0)
  {
    if e.Request? && e.call.CreateMessageCall? {
      PostKeepsMessages(s, e);
    } else {
      StepKeepsKeys(s, e);
      StepKeepsUsers(s, e);
      MessagesFrame(s, Step(s, e).0);
    }
  }

  lemma StepKeepsAgreement(s: State, e: Event)
    requires Agrees(s) && Gentle(s, e) && !Destroys(s, e)
    ensures CacheAgrees(Step(s, e).0.session)
  {
    match e
    case AdminCreation => AdminKeepsAgreement(s.session);
    case GlobalCreation(uuid) =>
    case Restart =>
    case Request(fd, addr, call, body, uuid, order) =>
      match call
      case CreateUserCall => CreateKeepsAgreement(s.session, body, uuid);
      case DestroyUserCall => DestroyIsGranted(s.session, fd, body);
      case LoginCall => LoginKeepsAgreement(s.session, fd, addr, body);
      case LogoutCall => LogoutKeepsAgreement(s.session, addr, body);
      case CreateChannelCall =>
      case ReadChannelCall =>
      case UpdateChannelCall =>
      case CreateMessageCall =>
  }

  lemma StepAgrees(s: State, e: Event)
    requires Agrees(s) && Gentle(s, e)
    ensures Agrees(Step(s, e).0)
  {
    if Destroys(s, e) {
      DestroyKeepsReferences(s, e);
    } else {
      StepTidy(s, e);
      StepKeepsMessages(s, e);
      StepKeepsAgreement(s, e);
    }
  }

  /** Gentleness is exact: under an admissible step the agreement survives if and only if the step is gentle. */
  lemma AgreesIffGentle(s: State, e: Event)
    requires Agrees(s) && Admissible(s, e)
    ensures Agrees(Step(s, e).0) <==> Gentle(s, e)
  {
    if Gentle(s, e) {
      StepAgrees(s, e);
    } else if Careful(s, e) {
      DestroyKeepsReferences(s, e);
    } else {
      CarelessBreaks(s, e);
    }
  }

  /** In gentle runs every live entry agrees with the tables, and every message keeps author and channel. */
  lemma RunsAgree(es: seq<Event>, t: State)
    requires Leads(Gentle, START, es, t)
    ensures Agrees(t)
  {
    EveryGentleRunAgrees(START, es, t);
  }

  lemma StepKeepsName(s: State, e: Event, u: string)
    requires Tidy(s) && Admissible(s, e) && u in s.session.db.accounts && !Destroys(s, e)
    ensures SameName(s.session.db, Step(s, e).0.session.db, u)
  {
    match e
    case AdminCreation => AdminKeepsName(s.session, u);
    case GlobalCreation(uuid) =>
    case Restart =>
    case Request(fd, addr, call, body, uuid, order) =>
      match call
      case CreateUserCall => CreateKeepsName(s.session.db, u, body, uuid);
      case DestroyUserCall => DestroyIsGranted(s.session, fd, body);
      case LoginCall => LoginKeepsName(s.session, u, fd, addr, body);
      case LogoutCall => LogoutKeepsName(s.session, u, addr, body);
      case CreateChannelCall =>
      case ReadChannelCall =>
      case UpdateChannelCall =>
      case CreateMessageCall =>
  }

  lemma StepKeepsMessage(s: State, e: Event, m: string)
    requires Admissible(s, e) && m in s.messages
    ensures m in Step(s, e).0.messages && Step(s, e).0.messages[m] == s.messages[m]
  {
  }

  lemma StepKeepsAuthor(s: State, e: Event, m: string)
    requires Agrees(s) && Gentle(s, e) && m in s.messages
    ensures SameName(s.session.db, Step(s, e).0.session.db, s.messages[m].author)
  {
    var u := s.messages[m].author;
    if Destroys(s, e) {
      DestroyStep(s, e);
      assert Authored(s, u);
    } else {
      StepKeepsName(s, e, u);
    }
  }

  /** Through every gentle run a message stays, and its author's uuid keeps leading to the poster's name. */
  lemma {:induction false} AuthorsEndure(s: State, es: seq<Event>, t: State, m: string)
    requires Agrees(s) && Leads(Gentle, s, es, t) && m in s.messages
    ensures m in t.messages && t.messages[m] == s.messages[m]
    ensures SameName(s.session.db, t.session.db, s.messages[m].author)
    decreases |es|
  {
    if es != [] {
      StepAgrees(s, es[0]);
      StepKeepsMessage(s, es[0], m);
      StepKeepsAuthor(s, es[0], m);
      AuthorsEndure(Step(s, es[0]).0, es[1..], t, m);
    }
  }

  lemma PostedHere(s: State, e: Event)
    requires Agrees(s) && Admissible(s, e) && Posts(s, e)
    ensures var s', fs := Step(s, e).0, ReadBody(e.body).fields;
            && |fs| >= 4 && e.uuid in s'.messages
            && var m := s'.messages[e.uuid];
               && m.author in s'.session.db.accounts && s'.session.db.accounts[m.author].name == fs[0]
               && m.channel in s.store && s.store[m.channel].name == fs[1]
  {
    PostStep(s, e);
    PosterIsAuthor(s, e.body, e.uuid, e.order);
  }

  /** Wherever in a gentle run a message is posted, it is found at the end, and its author under the poster's name. */
  lemma PostedIsFound(es: seq<Event>, s: State, e: Event, es': seq<Event>, t: State)
    requires Leads(Gentle, START, es, s)
    requires Gentle(s, e) && Posts(s, e)
    requires Leads(Gentle, Step(s, e).0, es', t)
    ensures |ReadBody(e.body).fields| >= 4 && e.uuid in t.messages
    ensures var m, fs := t.messages[e.uuid], ReadBody(e.body).fields;
            && m.author in t.session.db.accounts && t.session.db.accounts[m.author].name == fs[0]
            && m.channel in t.store
            && m.channel in s.store && s.store[m.channel].name == fs[1]
  {
    RunsAgree(es, s);
    PostedHere(s, e);
    var s' := Step(s, e).0;
    StepAgrees(s, e);
    AuthorsEndure(s', es', t, e.uuid);
    EveryGentleRunAgrees(s', es', t);
  }

  lemma EveryGentleRunAgrees(s: State, es: seq<Event>, t: State)
    requires Agrees(s) && Leads(Gentle, s, es, t)
    ensures Agrees(t)
  {
    forall x, e | Agrees(x) && Gentle(x, e) ensures Agrees(Step(x, e).0) {
      StepAgrees(x, e);
    }
    RunKeeps(Gentle, Agrees, s, es, t);
  }

  /** So the history of any channel can be built: every author is found and every time stamp is complete. */
  lemma HistoryIsReadable(es: seq<Event>, t: State, lines: seq<Replies.Line>, channel: string)
    requires Leads(Gentle, START, es, t)
    requires forall i :: 0 <= i < |lines| ==> Authored(t, lines[i].author) && |lines[i].stamp| == Replies.TIMESTAMP_SIZE
    ensures Replies.Readable(Replies.Matching(lines, channel), t.session.db.accounts)
  {
    RunsAgree(es, t);
    MatchingReadable(lines, channel, t.session.db.accounts);
  }

  lemma {:induction false} MatchingReadable(lines: seq<Replies.Line>, channel: string, accounts: map<string, Account>)
    requires Replies.Readable(lines, accounts)
    ensures Replies.Readable(Replies.Matching(lines, channel), accounts)
  {
    if lines != [] {
      MatchingReadable(lines[1..], channel, accounts);
    }
  }

  // ---------------------------------------------------------------- a server without destroy requests

  /** Any admissible event but a destroy request. */
  ghost predicate Plain(s: State, e: Event) {
    Admissible(s, e) && !(e.Request? && e.call.DestroyUserCall?)
  }

  ghost predicate Booted(s: State) {
    Agrees(s) && ADMIN in s.session.db.names
  }

  lemma PlainIsGentle(s: State, e: Event)
    requires Booted(s) && Plain(s, e)
    ensures Gentle(s, e)
  {
  }

  lemma StepBooted(s: State, e: Event)
    requires Booted(s) && Plain(s, e)
    ensures Booted(Step(s, e).0)
  {
    PlainIsGentle(s, e);
    StepAgrees(s, e);
    StepKeepsUsers(s, e);
  }

  lemma StartBooted()
    ensures Booted(Step(START, AdminCreation).0)
  {
    BootedTables();
    AdminRecords(START.session);
  }

  /** A server that starts by creating its administrator agrees with its tables in every run without destroys. */
  lemma PlainRunsAgree(es: seq<Event>, t: State)
    requires Leads(Plain, Step(START, AdminCreation).0, es, t)
    ensures Agrees(t) && ADMIN in t.session.db.names
    ensures |t.session.db.logins| == |t.session.db.names| == |t.session.db.accounts|
  {
    StartBooted();
    forall x, e | Booted(x) && Plain(x, e) ensures Booted(Step(x, e).0) {
      StepBooted(x, e);
    }
    RunKeeps(Plain, Booted, Step(START, AdminCreation).0, es, t);
    SizesAgree(t.session.db);
  }

  /** Runs without destroys on a booted server are gentle, so all that is proved of gentle runs holds of them. */
  lemma {:induction false} PlainRunsAreGentle(s: State, es: seq<Event>, t: State)
    requires Booted(s) && Leads(Plain, s, es, t)
    ensures Leads(Gentle, s, es, t)
    decreases |es|
  {
    if es != [] {
      PlainIsGentle(s, es[0]);
      StepBooted(s, es[0]);
      PlainRunsAreGentle(Step(s, es[0]).0, es[1..], t);
    }
  }

  // ---------------------------------------------------------------- forwarding

  /**
   In every run, after a successful create-message the body goes to each live entry whose name is a
   member of the named channel, once, in cache order, and to no other entry.
   */
  lemma ForwardedToMembers(es: seq<Event>, s: State, e: Event)
    requires Leads(Admissible, START, es, s) && Admissible(s, e) && Posts(s, e)
    ensures var channel := Lookup(s.store, e.order, ReadBody(e.body).fields[1]);
            && channel.Some? && channel.value.name == ReadBody(e.body).fields[1]
            && channel.value.id in s.store && s.store[channel.value.id] == channel.value
            && var cache, at, sent :=
                 s.session.cache, Replies.Recipients(s.session.cache, channel.value.users), Forwarded(s, e);
               && (forall i :: 0 <= i < |cache| ==> (i in at <==> cache[i].name in Members(channel.value.users)))
               && |sent| == |at|
               && forall k :: 0 <= k < |at| ==>
                    && sent[k].fd == cache[at[k]].fd && sent[k].ip == cache[at[k]].ip
                    && sent[k].body == "200" + [ETX] + Text(e.body)
  {
    EveryRunIsSound(START, es, s);
    LookupOk(s.store, e.order, ReadBody(e.body).fields[1]);
    var cache, channel := s.session.cache, Lookup(s.store, e.order, ReadBody(e.body).fields[1]).value;
    assert ChannelOk(channel.id, channel);
    Replies.DeliveriesReachMembers(cache, channel.users, Text(e.body));
    forall i | 0 <= i < |cache| ensures cache[i].name != ""
                                ensures cache[i].name in channel.users <==> cache[i].name in Members(channel.users)
    {
      ScansAgree(channel.users, cache[i].name);
    }
  }

  lemma ForwardedSize(s: State, e: Event)
    requires Posts(s, e)
    ensures forall k :: 0 <= k < |Forwarded(s, e)| ==> Forwarded(s, e)[k].body == "200" + [ETX] + Text(e.body)
  {
    var channel := Lookup(s.store, e.order, ReadBody(e.body).fields[1]).value;
    Replies.DeliveriesReachMembers(s.session.cache, channel.users, Text(e.body));
  }

  /** Each receiver that splits what it gets finds "200" and then the fields of the posted message. */
  lemma ForwardedFields(s: State, e: Event, fs: seq<string>)
    requires Posts(s, e) && AllFields(fs) && fs != [] && e.body == Joined(fs)
    ensures forall k :: 0 <= k < |Forwarded(s, e)| ==>
              Pieces(Forwarded(s, e)[k].body, SEPARATORS) == ["200"] + fs
  {
    ForwardedSize(s, e);
    JoinedText(fs);
    Replies.ForwardedSplits(fs);
  }

  // ---------------------------------------------------------------- channel names

  /** Updates rename only to names that no other channel holds. */
  ghost predicate Naming(s: State, e: Event) {
    && Admissible(s, e)
    && (e.Request? && e.call.UpdateChannelCall? ==> FreeName(s, e.body))
  }

  ghost predicate FreeName(s: State, body: string) {
    match ReadBody(body)
    case Fields(fs) =>
      ParseUpdate(fs).Got? && |fs[0]| <= NAME_LIMIT ==> RenameFree(s.session.db, s.store, ParseUpdate(fs).value)
    case _ => true
  }

  ghost predicate Unambiguous(s: State) {
    Sound(s) && UniqueNames(s.store)
  }

  /** Under an admissible step channel names stay unique exactly when the step renames to a free name. */
  lemma StepNaming(s: State, e: Event)
    requires Unambiguous(s) && Admissible(s, e)
    ensures Unambiguous(Step(s, e).0) <==> Naming(s, e)
  {
    StepSound(s, e);
    match e
    case AdminCreation =>
    case GlobalCreation(uuid) => CreateGlobalOk(s.store, uuid);
    case Restart =>
    case Request(fd, addr, call, body, uuid, order) =>
      if call.CreateChannelCall? {
        CreateChannelOk(s.session, s.store, addr, body, uuid);
      } else if call.UpdateChannelCall? && ReadBody(body).Fields? {
        var fs := ReadBody(body).fields;
        if ParseUpdate(fs).Got? && |fs[0]| <= NAME_LIMIT {
          ListsFit(fs);
          ApplyUnique(s.session.db, s.store, order, ParseUpdate(fs).value);
        }
      }
  }

  /** Channel names stay unique in such runs, so that no lookup depends on the key order. */
  lemma RunsKeepNamesUnique(es: seq<Event>, t: State, order: seq<string>, order': seq<string>, name: string)
    requires Leads(Naming, START, es, t)
    requires Enumerates(order, t.store) && Enumerates(order', t.store)
    ensures Unambiguous(t)
    ensures Lookup(t.store, order, name) == Lookup(t.store, order', name)
  {
    forall x, e | Unambiguous(x) && Naming(x, e) ensures Unambiguous(Step(x, e).0) {
      StepNaming(x, e);
    }
    RunKeeps(Naming, Unambiguous, START, es, t);
    LookupOrderFree(t.store, order, order', name);
  }
}
