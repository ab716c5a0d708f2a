/**
 The server object: the stores as fields, the cache as an array, and one method per handler of
 src/server.c, each proved to take exactly its step of the state machine in `Runs`.
 */
module Server {
  import opened CStrings
  import opened Records
  import opened ActiveUsers
  import Accounts
  import opened Channels
  import opened UpdateRequest
  import Replies
  import Runs

  class ChatServer {
    var logins: map<string, Login>
    var names: map<string, string>
    var accounts: map<string, Account>
    var store: Store
    var messages: map<string, Message>
    const cache: Cache

    ghost predicate Valid()
      reads this, cache.slots
    {
      && cache.Valid()
      && (forall t :: t in logins ==> NUL !in logins[t].token && NUL !in logins[t].password)
      && (forall id :: id in store ==> |store[id].users| == LIST_SIZE)
    }

    ghost function Db(): Accounts.Tables
      reads this
    {
      Accounts.Tables(logins, names, accounts)
    }

    ghost function Session(): Accounts.Session
      reads this, cache.slots
    {
      Accounts.Session(Db(), cache.Contents())
    }

    ghost function View(): Runs.State
      reads this, cache.slots
    {
      Runs.State(Session(), store, messages)
    }

    /** Empty databases and a blank cache. */
    constructor ()
      ensures Valid() && fresh(cache) && fresh(cache.slots) && View() == Runs.START
    {
      logins, names, accounts, store, messages := map[], map[], map[], map[], map[];
      cache := new Cache();
    }

    // -------------------------------------------------------------- users

    /** `create_admin` */
    method CreateAdmin()
      requires Valid()
      modifies this
      ensures Valid() && View() == Runs.Step(old(View()), Runs.AdminCreation).0
    {
      if ADMIN in names {
        return;
      }
      names := names[ADMIN := ADMIN_UUID];
      logins := logins[ADMIN := Login(ADMIN, ADMIN, ADMIN_UUID)];
      accounts := accounts[ADMIN_UUID := Accounts.NewAccount(ADMIN_UUID, ADMIN)];
    }

    /** `read_and_create_user` */
    method CreateUser(body: string, uuid: string) returns (o: Outcome)
      requires Valid()
      modifies this
      ensures Valid()
      ensures (Db(), o) == Accounts.CreateUser(old(Db()), body, uuid)
      ensures View() == old(View()).(session := old(Session()).(db := Db()))
    {
      var b := SplitBody(body);
      if !b.Fields? {
        return Fault;
      }
      var fs := b.fields;
      FieldsAreFields(body);
      if !Has(fs, 0, NAME_LIMIT) || !Has(fs, 1, NAME_LIMIT) {
        return Fault;
      }
      var token, name := fs[0], fs[1];
      var tokenTaken, nameTaken := token in logins, name in names;
      if tokenTaken && nameTaken {
        return Reply(3);
      }
      if tokenTaken {
        return Reply(1);
      }
      if nameTaken {
        return Reply(2);
      }
      if !Has(fs, 2, PASSWORD_LIMIT) {
        return Fault;
      }
      names := names[name := uuid];
      logins := logins[token := Login(token, fs[2], uuid)];
      accounts := accounts[uuid := Accounts.NewAccount(uuid, name)];
      return Reply(0);
    }

    /** `read_and_destroy_user` */
    method DestroyUser(fd: int, body: string) returns (o: Outcome)
      requires Valid()
      modifies this
      ensures Valid()
      ensures (Db(), o) == Accounts.DestroyUser(old(Session()), fd, body)
      ensures View() == old(View()).(session := old(Session()).(db := Db()))
    {
      var b := SplitBody(body);
      if !b.Fields? {
        return Fault;
      }
      var fs := b.fields;
      if !Has(fs, 0, NAME_LIMIT) || !Has(fs, 1, NAME_LIMIT) || !Has(fs, 2, PASSWORD_LIMIT) {
        return Fault;
      }
      var name, token, password := fs[0], fs[1], fs[2];
      var sender := cache.FindByFd(fd);
      if sender.None? {
        return Fault;
      }
      var known := sender.value.uuid in accounts;
      var exists' := token in logins;
      if !exists' {
        if !known {
          return Fault;
        }
        if accounts[sender.value.uuid].privilege == 1 {
          return Reply(2);
        }
      }
      if sender.value.name != name {
        if sender.value.token !in logins {
          return Fault;
        }
        if logins[sender.value.token].password != password {
          if !known {
            return Fault;
          }
          if accounts[sender.value.uuid].privilege == 0 {
            return Reply(3);
          }
        }
      }
      if !exists' {
        return Fault;
      }
      var target := logins[token];
      names := names - {name};
      accounts := accounts - {target.uuid};
      logins := logins - {target.token};
      return Reply(0);
    }

    /** `read_and_login_user` */
    method LoginUser(fd: int, addr: string, body: string) returns (o: Outcome)
      requires Valid()
      modifies this, cache.slots
      ensures Valid()
      ensures Accounts.Result(Session(), o) == Accounts.LoginUser(old(Session()), fd, addr, body)
      ensures View() == old(View()).(session := Session())
    {
      var b := SplitBody(body);
      if !b.Fields? {
        return Fault;
      }
      var fs := b.fields;
      FieldsAreFields(body);
      if !Has(fs, 0, NAME_LIMIT) || !Has(fs, 1, PASSWORD_LIMIT) {
        return Fault;
      }
      var token, password := fs[0], fs[1];
      if token !in logins {
        return Reply(2);
      }
      var login := logins[token];
      var samePassword := CompareStrings(login.password, password);
      var sameToken := CompareStrings(login.token, token);
      if !samePassword || !sameToken {
        return Reply(1);
      }
      if login.uuid !in accounts {
        return Fault;
      }
      o := Admit(fd, addr, accounts[login.uuid], login);
    }

    /** The second half of login: status, stored address, and the cache entry. */
    method Admit(fd: int, addr: string, account: Account, login: Login) returns (o: Outcome)
      requires Valid()
      modifies this, cache.slots
      ensures Valid()
      ensures Accounts.Result(Session(), o) == Accounts.Admit(old(Session()), fd, addr, account, login)
      ensures View() == old(View()).(session := Session())
    {
      var n := cache.Count();
      var elsewhere := cache.IsElsewhere(account.name, addr);
      if elsewhere && account.online {
        if n < MAX_CLIENTS {
          cache.Insert(Accounts.EntryFor(fd, account, login), n);
        }
        return Fault;
      }
      var updated := Accounts.LoggedIn(account, addr);
      accounts := accounts[updated.id := updated];
      var again := cache.HasSameCredentials(fd, updated.name, updated.ip);
      if again && n != 0 {
        return Reply(0);
      }
      if n == MAX_CLIENTS {
        return Fault;
      }
      cache.Insert(Accounts.EntryFor(fd, updated, login), n);
      return Reply(0);
    }

    /** `read_and_logout_user`, with the fall-through of its switch. */
    method LogoutUser(addr: string, body: string) returns (o: Outcome)
      requires Valid()
      modifies this, cache.slots
      ensures Valid()
      ensures Accounts.Result(Session(), o) == Accounts.LogoutUser(old(Session()), addr, body)
      ensures View() == old(View()).(session := Session())
    {
      var b := SplitBody(body);
      if !b.Fields? {
        return Fault;
      }
      var fs := b.fields;
      if !Has(fs, 0, NAME_LIMIT) {
        return Fault;
      }
      if fs[0] !in names {
        return Reply(500);
      }
      if names[fs[0]] !in accounts {
        return Reply(500);
      }
      var account := accounts[names[fs[0]]];
      var checked := false;
      if account.privilege == 0 {
        checked := true;
        if account.ip != addr {
          return Reply(2);
        }
      }
      if account.privilege == 0 || account.privilege == 1 {
        checked := true;
        if !account.online {
          return Reply(4);
        }
      }
      if !checked {
        return Fault;
      }
      var updated := Accounts.LoggedOut(account);
      accounts := accounts[updated.id := updated];
      var n := cache.Count();
      cache.Remove(updated.name, n);
      return Reply(0);
    }

    // -------------------------------------------------------------- channels

    /** `get_channel_info_malloc_or_null`: scan the store in key order. */
    method FindChannel(order: seq<string>, name: string) returns (c: Option<Channel>)
      ensures c == Lookup(store, order, name)
    {
      for i := 0 to |order|
        invariant Lookup(store, order, name) == Lookup(store, order[i..], name)
      {
        assert order[i..][1..] == order[i + 1..];
        if order[i] in store && store[order[i]].name == name {
          return Some(store[order[i]]);
        }
      }
      return None;
    }

    /** `check_duplicate_channel_name` */
    method IsTaken(order: seq<string>, name: string) returns (taken: bool)
      requires Enumerates(order, store)
      ensures taken == Taken(store, name)
    {
      for i := 0 to |order|
        invariant forall k :: 0 <= k < i ==> store[order[k]].name != name
      {
        assert order[i] in order;
        if store[order[i]].name == name {
          return true;
        }
      }
      return false;
    }

    /** `create_global_channel` */
    method CreateGlobal(uuid: string, order: seq<string>)
      requires Valid() && Enumerates(order, store)
      modifies this
      ensures Valid() && View() == Runs.Step(old(View()), Runs.GlobalCreation(uuid)).0
    {
      var taken := IsTaken(order, "global");
      if !taken {
        store := store[uuid := NewChannel(uuid, "global", ADMIN, false)];
      }
    }

    /** `read_and_create_channel` */
    method CreateChannel(addr: string, body: string, uuid: string, order: seq<string>) returns (o: Outcome)
      requires Valid() && Enumerates(order, store)
      modifies this
      ensures Valid()
      ensures (store, o) == Channels.CreateChannel(old(Session()), old(store), addr, body, uuid)
      ensures View() == old(View()).(store := store)
    {
      var b := SplitBody(body);
      if b.Unread? {
        return Reply(500);
      }
      if b.Overrun? {
        return Fault;
      }
      var fs := b.fields;
      if !Has(fs, 0, NAME_LIMIT) {
        return Fault;
      }
      if |fs| == 1 {
        return Reply(400);
      }
      if !Has(fs, 1, NAME_LIMIT) || |fs| == 2 {
        return Fault;
      }
      var name, user := fs[0], fs[1];
      var publicity := false;
      if fs[2] == "1" {
        publicity := true;
      } else if |fs[2]| != 1 {
        return Reply(400);
      }
      var cached := cache.NameAt(user, addr);
      if cached.None? {
        return Reply(500);
      }
      if cached.value == ADMIN {
        if user !in names {
          return Reply(404);
        }
      } else if user != cached.value {
        return Reply(403);
      }
      var taken := IsTaken(order, name);
      if taken {
        return Reply(409);
      }
      store := store[uuid := NewChannel(uuid, name, user, publicity)];
      return Reply(0);
    }

    /** The display-name check over one list of the request. */
    method Registered(list: seq<string>) returns (ok: bool)
      ensures ok == Known(Db(), list)
    {
      for i := 0 to |list|
        invariant forall k :: 0 <= k < i ==> |list[k]| <= NAME_LIMIT && list[k] in names
      {
        if |list[i]| > NAME_LIMIT || list[i] !in names {
          return false;
        }
      }
      return true;
    }

    method AllRegistered(u: Update) returns (ok: bool)
      ensures ok == AllKnown(Db(), u)
    {
      var lists := [u.users.add, u.users.remove, u.admins.add, u.admins.remove, u.banned.add, u.banned.remove];
      for i := 0 to 6
        invariant forall k :: 0 <= k < i ==> Known(Db(), lists[k])
      {
        ok := Registered(lists[i]);
        if !ok {
          return;
        }
      }
      assert Known(Db(), lists[0]) && Known(Db(), lists[1]) && Known(Db(), lists[2]);
      assert Known(Db(), lists[3]) && Known(Db(), lists[4]) && Known(Db(), lists[5]);
      return true;
    }

    /** `update_channel_name_and_publicity` */
    method RenameChannel(order: seq<string>, name: string, newName: string, publicity: bool) returns (ok: bool)
      requires Valid()
      modifies this`store
      ensures Valid()
      ensures var r := Rename(old(store), order, name, newName, publicity);
              ok == r.Some? && store == r.GetOr(old(store))
    {
      var c := FindChannel(order, name);
      if c.None? {
        return false;
      }
      LookupFinds(store, order, name);
      store := store[c.value.id := c.value.(name := newName, publicity := publicity)];
      return true;
    }

    /** `add_users_on_channel`: fetch the record, merge in place, store it back. */
    method AddUsersOnChannel(order: seq<string>, name: string, list: seq<string>) returns (ok: bool)
      requires Valid() && |list| <= LIST_SIZE
      modifies this`store
      ensures Valid()
      ensures var r := AddMembers(old(store), order, name, Padded(list));
              ok == r.Some? && store == r.GetOr(old(store))
    {
      var c := FindChannel(order, name);
      if c.None? {
        return false;
      }
      LookupFinds(store, order, name);
      var users := new string[LIST_SIZE](i requires 0 <= i < LIST_SIZE => c.value.users[i]);
      var request := new string[LIST_SIZE](i requires 0 <= i < LIST_SIZE => Padded(list)[i]);
      assert users[..] == c.value.users && request[..] == Padded(list);
      AddUsers(users, request);
      store := store[c.value.id := c.value.(users := users[..])];
      return true;
    }

    /** `read_and_update_channel` after parsing. */
    method ApplyUpdate(order: seq<string>, u: Update) returns (o: Outcome)
      requires Valid() && |u.users.add| <= LIST_SIZE
      modifies this`store
      ensures Valid()
      ensures (store, o) == Apply(Db(), old(store), order, u)
    {
      var c := FindChannel(order, u.channel);
      if c.None? {
        return Reply(404);
      }
      var registered := AllRegistered(u);
      if !registered {
        return Reply(404);
      }
      if u.newName.Some? && |u.newName.value| > NAME_LIMIT {
        return Fault;
      }
      if u.newName.Some? || u.newPublicity.Some? {
        var ok := RenameChannel(order, u.channel, WrittenName(u), WrittenPublicity(u));
        if !ok {
          return Reply(500);
        }
      }
      if u.users.flag != '0' {
        var ok := AddUsersOnChannel(order, u.channel, u.users.add);
        if !ok {
          return Reply(500);
        }
      }
      var updated := FindChannel(order, u.newName.GetOr(u.channel));
      if updated.None? {
        return Reply(500);
      }
      return Reply(0);
    }

    /** `read_and_update_channel` */
    method UpdateChannel(body: string, order: seq<string>) returns (o: Outcome)
      requires Valid()
      modifies this`store
      ensures Valid()
      ensures (store, o) == Channels.UpdateChannel(Db(), old(store), order, body)
    {
      var b := SplitBody(body);
      if b.Unread? {
        return Reply(500);
      }
      if b.Overrun? {
        return Fault;
      }
      var fs := b.fields;
      if fs != [] && |fs[0]| > NAME_LIMIT {
        return Fault;
      }
      var r := ReadUpdate(fs);
      match r {
        case Malformed => return Reply(400);
        case TooLong => return Fault;
        case Got(u, _) =>
          ListsFit(fs);
          o := ApplyUpdate(order, u);
      }
    }

    /** `read_and_read_channel`, up to the text of its answer. */
    method ReadChannel(body: string, order: seq<string>) returns (o: Outcome)
      ensures o == Channels.ReadChannel(store, order, body)
    {
      var b := SplitBody(body);
      if b.Unread? {
        return Reply(500);
      }
      if b.Overrun? {
        return Fault;
      }
      var fs := b.fields;
      if fs == [] {
        return Reply(400);
      }
      if |fs[0]| > NAME_LIMIT {
        return Fault;
      }
      if |fs| < 4 {
        return Reply(400);
      }
      var channel := FindChannel(order, fs[0]);
      return if channel.None? then Reply(404) else Reply(0);
    }

    // -------------------------------------------------------------- messages

    /** `read_and_create_message`, and the second channel lookup that forwarding depends on. */
    method CreateMessage(body: string, uuid: string, order: seq<string>) returns (o: Outcome)
      requires Valid()
      modifies this`messages
      ensures Valid()
      ensures (messages, o) == Runs.CreateMessage(old(View()), body, uuid, order)
    {
      var b := SplitBody(body);
      if !b.Fields? {
        return Fault;
      }
      var fs := b.fields;
      if fs != [] && fs[0] == "200" {
        return Reply(69);
      }
      if !Has(fs, 0, NAME_LIMIT) || !Has(fs, 1, NAME_LIMIT) || !Has(fs, 2, MESSAGE_LIMIT) || |fs| == 3 {
        return Fault;
      }
      var channel := FindChannel(order, fs[1]);
      if channel.None? {
        var n := cache.Count();
        if n > 0 {
          return Fault;
        }
        return Reply(2);
      }
      var poster := cache.FindByName(fs[0]);
      if poster.None? || poster.value.uuid !in accounts {
        return Fault;
      }
      if accounts[poster.value.uuid].privilege !in {0, 1} {
        return Fault;
      }
      if poster.value.token !in logins {
        return Fault;
      }
      messages := messages[uuid := Message(uuid, logins[poster.value.token].uuid, channel.value.id)];
      return Reply(0);
    }

    /** The forwarding loop after a stored message: look the channel up again, then go through the cache. */
    method ForwardMessage(body: string, order: seq<string>, name: string) returns (sent: seq<Replies.Delivery>)
      requires Valid() && Lookup(store, order, name).Some?
      ensures sent == Replies.Deliveries(cache.Contents(), Lookup(store, order, name).value.users, Text(body))
      ensures var users := Lookup(store, order, name).value.users;
              Replies.Reaches(sent, cache.Contents(), Replies.Recipients(cache.Contents(), users), Text(body))
    {
      var channel := FindChannel(order, name);
      LookupFinds(store, order, name);
      var users := new string[LIST_SIZE](i requires 0 <= i < LIST_SIZE => channel.value.users[i]);
      assert users[..] == channel.value.users;
      sent := Replies.Forward(cache, users, body[..Span(body, {NUL})]);
    }

    // -------------------------------------------------------------- dispatch

    /** `handle_request` once header and body are read: one step of the state machine, and its deliveries. */
    method HandleRequest(e: Runs.Event) returns (o: Outcome, sent: seq<Replies.Delivery>)
      requires Valid() && e.Request? && Enumerates(e.order, store)
      modifies this, cache.slots
      ensures Valid() && (View(), o) == Runs.Step(old(View()), e)
      ensures sent == Runs.Forwarded(old(View()), e)
    {
      sent := [];
      match e.call {
        case CreateUserCall => o := CreateUser(e.body, e.uuid);
        case DestroyUserCall => o := DestroyUser(e.fd, e.body);
        case LoginCall => o := LoginUser(e.fd, e.addr, e.body);
        case LogoutCall => o := LogoutUser(e.addr, e.body);
        case CreateChannelCall => o := CreateChannel(e.addr, e.body, e.uuid, e.order);
        case ReadChannelCall => o := ReadChannel(e.body, e.order);
        case UpdateChannelCall => o := UpdateChannel(e.body, e.order);
        case CreateMessageCall =>
          o := CreateMessage(e.body, e.uuid, e.order);
          if o == Reply(0) {
            var b := SplitBody(e.body);
            sent := ForwardMessage(e.body, e.order, b.fields[1]);
          }
      }
    }
  }
}
