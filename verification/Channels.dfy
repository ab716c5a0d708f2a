/**
 Channels: 64-slot member lists ended by a blank, lookup by scanning a keyed store, the in-place
 merge of `add_users_on_channel` (src/my_ndbm.c), and the channel handlers of src/server.c as
 functions on values.
 */
module Channels {
  import opened CStrings
  import opened Records
  import opened ActiveUsers
  import opened Accounts
  import opened UpdateRequest

  // ---------------------------------------------------------------- slots

  /** The names before the first blank slot: what every scan that stops at a blank sees. */
  function Members(slots: seq<string>): seq<string> {
    if slots == [] || slots[0] == "" then [] else [slots[0]] + Members(slots[1..])
  }

  /** Names first, then only blanks. */
  predicate Packed(slots: seq<string>) {
    && |slots| == LIST_SIZE
    && forall i, j :: 0 <= i < j < |slots| && slots[j] != "" ==> slots[i] != ""
  }

  function Padded(names: seq<string>): (slots: seq<string>)
    requires |names| <= LIST_SIZE
    ensures |slots| == LIST_SIZE
  {
    names + seq(LIST_SIZE - |names|, _ => "")
  }

  lemma {:induction false} MembersIs(slots: seq<string>, n: nat)
    requires n <= |slots|
    requires forall i :: 0 <= i < n ==> slots[i] != ""
    requires n < |slots| ==> slots[n] == ""
    ensures Members(slots) == slots[..n]
  {
    if n > 0 {
      MembersIs(slots[1..], n - 1);
      assert slots[..n] == [slots[0]] + slots[1..][..n - 1];
    }
  }

  lemma {:induction false} MembersPrefix(slots: seq<string>)
    ensures |Members(slots)| <= |slots| && Members(slots) == slots[..|Members(slots)|]
    ensures forall i :: 0 <= i < |Members(slots)| ==> slots[i] != ""
    ensures |Members(slots)| < |slots| ==> slots[|Members(slots)|] == ""
  {
    if slots != [] && slots[0] != "" {
      MembersPrefix(slots[1..]);
      var n := |Members(slots[1..])|;
      assert slots[..n + 1] == [slots[0]] + slots[1..][..n];
    }
  }

  lemma PaddedMembers(names: seq<string>)
    requires |names| <= LIST_SIZE && "" !in names
    ensures Members(Padded(names)) == names && Packed(Padded(names))
  {
    MembersIs(Padded(names), |names|);
    assert Padded(names)[..|names|] == names;
  }

  /** In a packed list, membership by a scan of all slots and by a scan up to the first blank agree. */
  lemma ScansAgree(slots: seq<string>, name: string)
    requires Packed(slots) && name != ""
    ensures name in slots <==> name in Members(slots)
  {
    MembersPrefix(slots);
    if name in slots {
      var i :| 0 <= i < |slots| && slots[i] == name;
      assert Members(slots)[i] == name;
    }
  }

  /** `check_if_user_in_channel`: scans all slots, skipping blanks. */
  method InChannel(name: string, slots: array<string>) returns (found: bool)
    requires slots.Length == LIST_SIZE
    ensures found <==> name != "" && name in slots[..]
  {
    for i := 0 to LIST_SIZE
      invariant forall k :: 0 <= k < i ==> slots[k] == "" || slots[k] != name
    {
      if slots[i] != "" {
        if name == slots[i] {
          return true;
        }
      }
    }
    return false;
  }

  // ---------------------------------------------------------------- merging members

  /** The longest prefix of `request` without an element of `members`. */
  function FreshPrefix(members: seq<string>, request: seq<string>): (p: seq<string>)
    ensures p <= request
    ensures forall i :: 0 <= i < |p| ==> p[i] !in members
    ensures |p| < |request| ==> request[|p|] in members
  {
    if request == [] || request[0] in members then []
    else [request[0]] + FreshPrefix(members, request[1..])
  }

  function Min(a: nat, b: nat): nat { if a < b then a else b }

  /** The member list after `request` was merged in: old members, fresh prefix, cut at the last slot. */
  function Merge(slots: seq<string>, request: seq<string>): seq<string> {
    MembersPrefix(slots);
    var m := Members(slots);
    var p := FreshPrefix(m, Members(request));
    var k := Min(|p|, |slots| - |m|);
    m + p[..k] + slots[|m| + k..]
  }

  lemma {:induction false} FreshIs(members: seq<string>, request: seq<string>, n: nat)
    requires n <= |request|
    requires forall i :: 0 <= i < n ==> request[i] !in members
    requires n < |request| ==> request[n] in members
    ensures FreshPrefix(members, request) == request[..n]
  {
    if n > 0 {
      FreshIs(members, request[1..], n - 1);
      assert request[..n] == [request[0]] + request[1..][..n - 1];
    }
  }

  /** Blanking for one more member is taking the fresh prefix of the fresh prefix. */
  lemma FreshOneMore(members: seq<string>, m: string, request: seq<string>)
    ensures FreshPrefix(members + [m], request) == FreshPrefix([m], FreshPrefix(members, request))
  {
    var p := FreshPrefix(members, request);
    var q := FreshPrefix([m], p);
    assert forall i :: 0 <= i < |q| ==> request[i] == p[i] == q[i];
    FreshIs(members + [m], request, |q|);
  }

  lemma FreshStep(members: seq<string>, j: nat, request: seq<string>)
    requires j < |members|
    ensures FreshPrefix(members[..j + 1], request) == FreshPrefix([members[j]], FreshPrefix(members[..j], request))
  {
    assert members[..j + 1] == members[..j] + [members[j]];
    FreshOneMore(members[..j], members[j], request);
  }

  /** The inner loop: blank every request entry equal to `m`, up to the first blank met. */
  method BlankOut(request: array<string>, m: string)
    requires request.Length == LIST_SIZE
    modifies request
    ensures Members(request[..]) == FreshPrefix([m], old(Members(request[..])))
  {
    ghost var was := request[..];
    MembersPrefix(was);
    ghost var n := |Members(was)|;
    var i := 0;
    while i < LIST_SIZE
      invariant 0 <= i <= n
      invariant forall k :: 0 <= k < i ==> request[k] == if was[k] == m then "" else was[k]
      invariant forall k :: i <= k < LIST_SIZE ==> request[k] == was[k]
    {
      if request[i] == "" {
        break;
      }
      if m == request[i] {
        request[i] := "";
      }
      i := i + 1;
    }
    BlankedMembers(was, request[..], m);
  }

  lemma BlankedMembers(was: seq<string>, now: seq<string>, m: string)
    requires |now| == |was|
    requires forall k :: 0 <= k < |Members(was)| && k < |was| ==> now[k] == if was[k] == m then "" else was[k]
    requires forall k :: |Members(was)| <= k < |was| ==> now[k] == was[k]
    ensures Members(now) == FreshPrefix([m], Members(was))
  {
    MembersPrefix(was);
    var wanted := Members(was);
    var p := FreshPrefix([m], wanted);
    forall k | 0 <= k < |p| ensures now[k] == p[k] != "" {
      assert p[k] == wanted[k] == was[k];
    }
    if |p| < |wanted| {
      assert wanted[|p|] == was[|p|] == m;
    }
    MembersIs(now, |p|);
    assert now[..|p|] == p;
  }

  /**
   The first loop of `add_users_on_channel`: one pass over the request per member. Blanking an
   entry makes the later passes stop early; what remains before the first blank is still exactly
   the fresh prefix.
   */
  method BlankMembers(users: array<string>, request: array<string>) returns (j: nat)
    requires users.Length == LIST_SIZE && request.Length == LIST_SIZE && users != request
    modifies request
    ensures j == |Members(users[..])| <= LIST_SIZE
    ensures Members(request[..]) == FreshPrefix(Members(users[..]), old(Members(request[..])))
  {
    ghost var wanted := Members(request[..]);
    ghost var members := Members(users[..]);
    MembersPrefix(users[..]);
    FreshIs([], wanted, |wanted|);
    j := 0;
    while j < LIST_SIZE && users[j] != ""
      invariant 0 <= j <= |members|
      invariant Members(request[..]) == FreshPrefix(members[..j], wanted)
    {
      FreshStep(members, j, wanted);
      BlankOut(request, users[j]);
      j := j + 1;
    }
    assert members[..j] == members;
  }

  /** The second loop: append what is left of the request while slots remain. */
  method CopyFresh(users: array<string>, request: array<string>, start: nat)
    requires users.Length == LIST_SIZE && request.Length == LIST_SIZE && users != request
    requires start <= LIST_SIZE
    modifies users
    ensures var p := Members(request[..]);
            var k := Min(|p|, LIST_SIZE - start);
            users[..] == old(users[..start]) + p[..k] + old(users[start + k..])
  {
    ghost var slots, p := users[..], Members(request[..]);
    MembersPrefix(request[..]);
    ghost var head := slots[..start];
    var i, j := 0, start;
    while j < LIST_SIZE && i < LIST_SIZE && request[i] != ""
      invariant 0 <= i <= |p| && j == start + i <= LIST_SIZE
      invariant users[..] == head + p[..i] + slots[j..]
    {
      assert request[i] == p[i];
      MergeStep(head, p, slots, i);
      ghost var before := users[..];
      users[j] := request[i];
      assert users[..] == before[j := p[i]];
      i, j := i + 1, j + 1;
    }
  }

  method AddUsers(users: array<string>, request: array<string>)
    requires users.Length == LIST_SIZE && request.Length == LIST_SIZE && users != request
    modifies users, request
    ensures users[..] == Merge(old(users[..]), old(request[..]))
  {
    MembersPrefix(users[..]);
    var j := BlankMembers(users, request);
    CopyFresh(users, request, j);
  }

  lemma MergeStep(members: seq<string>, p: seq<string>, slots: seq<string>, i: nat)
    requires i < |p| && |members| + i < |slots|
    ensures var j := |members| + i;
            (members + p[..i] + slots[j..])[j := p[i]] == members + p[..i + 1] + slots[j + 1..]
  {
  }

  /** How many request entries are appended. */
  function Appended(slots: seq<string>, request: seq<string>): (k: nat)
    ensures |Members(slots)| + k <= |slots| && k <= |FreshPrefix(Members(slots), Members(request))|
  {
    MembersPrefix(slots);
    Min(|FreshPrefix(Members(slots), Members(request))|, |slots| - |Members(slots)|)
  }

  lemma LaidOut(m: seq<string>, p: seq<string>, slots: seq<string>)
    requires |m| + |p| <= |slots|
    requires "" !in m && "" !in p
    ensures var n, laid := |m| + |p|, m + p + slots[|m| + |p|..];
            && |laid| == |slots| && laid[..n] == m + p
            && (forall i :: 0 <= i < n ==> laid[i] != "")
            && (forall i :: n <= i < |slots| ==> laid[i] == slots[i])
  {
  }

  lemma FreshNotBlank(slots: seq<string>, request: seq<string>)
    ensures "" !in Members(slots)
    ensures "" !in FreshPrefix(Members(slots), Members(request))[..Appended(slots, request)]
  {
    MembersPrefix(slots);
    MembersPrefix(request);
    var p := FreshPrefix(Members(slots), Members(request))[..Appended(slots, request)];
    assert forall i :: 0 <= i < |p| ==> p[i] == Members(request)[i] == request[i];
  }

  lemma MergedAt(slots: seq<string>, request: seq<string>)
    ensures var m, k, merged := Members(slots), Appended(slots, request), Merge(slots, request);
            && |merged| == |slots|
            && merged[..|m| + k] == m + FreshPrefix(m, Members(request))[..k]
            && (forall i :: 0 <= i < |m| + k ==> merged[i] != "")
            && (forall i :: |m| + k <= i < |slots| ==> merged[i] == slots[i])
  {
    FreshNotBlank(slots, request);
    var m, k := Members(slots), Appended(slots, request);
    var p := FreshPrefix(m, Members(request));
    assert Merge(slots, request) == m + p[..k] + slots[|m| + k..];
    LaidOut(m, p[..k], slots);
  }

  /** Merging appends only: members keep their places, and no member is added again. */
  lemma MergeAppends(slots: seq<string>, request: seq<string>)
    requires Packed(slots)
    ensures Packed(Merge(slots, request))
    ensures var m := Members(slots);
            Members(Merge(slots, request)) == m + FreshPrefix(m, Members(request))[..Appended(slots, request)]
    ensures Members(slots) <= Members(Merge(slots, request))
  {
    MergedAt(slots, request);
    MembersPrefix(slots);
    var n := |Members(slots)| + Appended(slots, request);
    MembersIs(Merge(slots, request), n);
  }

  predicate Distinct(names: seq<string>) {
    forall i, j :: 0 <= i < j < |names| ==> names[i] != names[j]
  }

  lemma DistinctConcat(a: seq<string>, b: seq<string>)
    requires Distinct(a) && Distinct(b) && forall i :: 0 <= i < |b| ==> b[i] !in a
    ensures Distinct(a + b)
  {
  }

  lemma MergeDistinct(slots: seq<string>, request: seq<string>)
    requires Packed(slots) && Distinct(Members(slots)) && Distinct(Members(request))
    ensures Distinct(Members(Merge(slots, request)))
  {
    MergeAppends(slots, request);
    DistinctConcat(Members(slots), FreshPrefix(Members(slots), Members(request))[..Appended(slots, request)]);
  }

  // ---------------------------------------------------------------- the store

  type Store = map<string, Channel>

  /** `create_channel_or_null_malloc` */
  function NewChannel(uuid: string, name: string, creator: string, publicity: bool): Channel {
    Channel(uuid, creator, Padded([creator]), Padded([creator]), Padded([]), name, publicity)
  }

  /** A stored channel: packed lists, the creator first and the only administrator, nobody banned. */
  ghost predicate ChannelOk(id: string, c: Channel) {
    && c.id == id
    && c.creator != ""
    && Packed(c.users) && c.users[0] == c.creator
    && c.admins == Padded([c.creator])
    && c.banned == Padded([])
  }

  ghost predicate StoreOk(store: Store) {
    forall id :: id in store ==> ChannelOk(id, store[id])
  }

  ghost predicate UniqueNames(store: Store) {
    forall i, j :: i in store && j in store && store[i].name == store[j].name ==> i == j
  }

  predicate Taken(store: Store, name: string) {
    exists id :: id in store && store[id].name == name
  }

  /** `order` lists the keys as `dbm_firstkey` and `dbm_nextkey` deliver them. */
  ghost predicate Enumerates(order: seq<string>, store: Store) {
    forall id :: id in store <==> id in order
  }

  /** `get_channel_info_malloc_or_null`: the first record in key order with that name. */
  function Lookup(store: Store, order: seq<string>, name: string): Option<Channel> {
    if order == [] then None
    else if order[0] in store && store[order[0]].name == name then Some(store[order[0]])
    else Lookup(store, order[1..], name)
  }

  lemma {:induction false} LookupFinds(store: Store, order: seq<string>, name: string)
    ensures match Lookup(store, order, name)
            case Some(c) => c.name == name && exists id :: id in store && store[id] == c
            case None => forall id :: id in order && id in store ==> store[id].name != name
  {
    if order != [] && !(order[0] in store && store[order[0]].name == name) {
      LookupFinds(store, order[1..], name);
    }
  }

  /** The record found is the first in key order that has the name. */
  lemma {:induction false} LookupIsFirst(store: Store, order: seq<string>, name: string, k: nat)
    requires k < |order| && order[k] in store && store[order[k]].name == name
    requires forall j :: 0 <= j < k && order[j] in store ==> store[order[j]].name != name
    ensures Lookup(store, order, name) == Some(store[order[k]])
  {
    if k > 0 {
      assert forall j :: 0 <= j < k - 1 && order[1..][j] in store ==> store[order[1..][j]].name != name by {
        assert forall j :: 0 <= j < k - 1 ==> order[1..][j] == order[j + 1];
      }
      LookupIsFirst(store, order[1..], name, k - 1);
    }
  }

  lemma LookupOk(store: Store, order: seq<string>, name: string)
    requires StoreOk(store) && Enumerates(order, store)
    ensures Lookup(store, order, name).Some? <==> Taken(store, name)
    ensures Lookup(store, order, name).Some? ==>
              var c := Lookup(store, order, name).value;
              c.id in store && store[c.id] == c && c.name == name
  {
    LookupFinds(store, order, name);
    if Taken(store, name) {
      var id :| id in store && store[id].name == name;
      assert id in order;
    }
  }

  /** With unique names the key order does not matter. */
  lemma LookupOrderFree(store: Store, order: seq<string>, order': seq<string>, name: string)
    requires StoreOk(store) && UniqueNames(store) && Enumerates(order, store) && Enumerates(order', store)
    ensures Lookup(store, order, name) == Lookup(store, order', name)
  {
    LookupOk(store, order, name);
    LookupOk(store, order', name);
  }

  // ---------------------------------------------------------------- create

  /** `read_and_create_channel`: channel name, display name, publicity. */
  function CreateChannel(s: Session, store: Store, addr: string, body: string, uuid: string): (Store, Outcome) {
    match ReadBody(body)
    case Unread => (store, Reply(500))
    case Overrun => (store, Fault)
    case Fields(fs) =>
      if !Has(fs, 0, NAME_LIMIT) then (store, Fault)
      else if |fs| == 1 then (store, Reply(400))
      else if !Has(fs, 1, NAME_LIMIT) || |fs| == 2 then (store, Fault)
      else if fs[2] != "1" && |fs[2]| != 1 then (store, Reply(400))
      else if !Present(s.cache, fs[1], addr) then (store, Reply(500))
      else if fs[1] == ADMIN && fs[1] !in s.db.names then (store, Reply(404))
      else if Taken(store, fs[0]) then (store, Reply(409))
      else (store[uuid := NewChannel(uuid, fs[0], fs[1], fs[2] == "1")], Reply(0))
  }

  /** `create_global_channel` */
  function CreateGlobal(store: Store, uuid: string): Store {
    if Taken(store, "global") then store else store[uuid := NewChannel(uuid, "global", ADMIN, false)]
  }

  /** A new channel of `name`, opened by `user`: he is its creator, first member and only administrator. */
  ghost predicate OpenedBy(c: Channel, name: string, user: string, publicity: bool) {
    && c.name == name && c.creator == user && c.publicity == publicity
    && |c.users| == |c.admins| == |c.banned| == 64
    && c.users[0] == user && c.admins[0] == user && c.banned[0] == ""
    && (forall i :: 0 < i < 64 ==> c.users[i] == "" && c.admins[i] == "" && c.banned[i] == "")
  }

  lemma NewChannelOpened(uuid: string, name: string, user: string, publicity: bool)
    ensures NewChannel(uuid, name, user, publicity).id == uuid
    ensures OpenedBy(NewChannel(uuid, name, user, publicity), name, user, publicity)
  {
  }

  /** For a well-formed body: exactly which answer is given, and what is stored; the answer is never 403. */
  lemma CreateChannelAnswers(s: Session, store: Store, addr: string, uuid: string,
                             name: string, user: string, flag: string)
    requires AllFields([name, user, flag]) && |name| <= 20 && |user| <= 20 && |flag| == 1
    ensures var (store', o) := CreateChannel(s, store, addr, Joined([name, user, flag]), uuid);
            var live := exists i :: 0 <= i < |s.cache| && s.cache[i].name == user && s.cache[i].ip == addr;
            var gone := user == "admin" && "admin" !in s.db.names;
            && (o == Reply(500) <==> !live)
            && (o == Reply(404) <==> live && gone)
            && (o == Reply(409) <==> live && !gone && Taken(store, name))
            && (o == Reply(0) <==> live && !gone && !Taken(store, name))
            && (o == Reply(0) ==>
                  uuid in store' && store' == store[uuid := store'[uuid]]
                  && store'[uuid].id == uuid && OpenedBy(store'[uuid], name, user, flag == "1"))
            && (o != Reply(0) ==> store' == store)
  {
    JoinedSize(name, user, flag);
    BodyRoundTrip([name, user, flag]);
    NewChannelOpened(uuid, name, user, flag == "1");
  }

  lemma CreateChannelRefusesFields(s: Session, store: Store, addr: string, uuid: string, body: string, fs: seq<string>)
    requires ReadBody(body) == Fields(fs) && fs != []
    ensures var (store', o) := CreateChannel(s, store, addr, body, uuid);
            && (|fs[0]| > 20 ==> o == Fault)
            && (|fs[0]| <= 20 && |fs| == 1 ==> o == Reply(400))
            && (|fs[0]| <= 20 && |fs| > 1 && |fs[1]| > 20 ==> o == Fault)
            && (|fs[0]| <= 20 && |fs| == 2 ==> o == Fault)
            && (|fs[0]| <= 20 && |fs| > 2 && |fs[1]| <= 20 && |fs[2]| != 1 ==> o == Reply(400))
            && (o != Reply(0) ==> store' == store)
  {
  }

  /** Incomplete or odd bodies: one field or a long flag is a bad request, two fields are a fault. */
  lemma CreateChannelRefuses(s: Session, store: Store, addr: string, uuid: string, fs: seq<string>)
    requires AllFields(fs) && fs != [] && |Joined(fs)| < 1024
    ensures var (store', o) := CreateChannel(s, store, addr, Joined(fs), uuid);
            && (|fs[0]| > 20 ==> o == Fault)
            && (|fs[0]| <= 20 && |fs| == 1 ==> o == Reply(400))
            && (|fs[0]| <= 20 && |fs| > 1 && |fs[1]| > 20 ==> o == Fault)
            && (|fs[0]| <= 20 && |fs| == 2 ==> o == Fault)
            && (|fs[0]| <= 20 && |fs| > 2 && |fs[1]| <= 20 && |fs[2]| != 1 ==> o == Reply(400))
            && (o != Reply(0) ==> store' == store)
  {
    BodyRoundTrip(fs);
    CreateChannelRefusesFields(s, store, addr, uuid, Joined(fs), fs);
  }

  /** The global channel exists after its creation; if it was new, it is private and the administrator's. */
  lemma GlobalExists(store: Store, uuid: string)
    ensures var store' := CreateGlobal(store, uuid);
            && Taken(store', "global")
            && (Taken(store, "global") ==> store' == store)
            && (!Taken(store, "global") ==>
                  uuid in store' && store' == store[uuid := store'[uuid]]
                  && store'[uuid].id == uuid && OpenedBy(store'[uuid], "global", "admin", false))
  {
    NewChannelOpened(uuid, "global", "admin", false);
    var store' := CreateGlobal(store, uuid);
    if !Taken(store, "global") {
      assert store'[uuid].name == "global";
    }
  }

  lemma NewChannelOk(store: Store, uuid: string, name: string, creator: string, publicity: bool)
    requires StoreOk(store) && creator != ""
    ensures StoreOk(store[uuid := NewChannel(uuid, name, creator, publicity)])
  {
    PaddedMembers([creator]);
  }

  lemma CreateChannelOk(s: Session, store: Store, addr: string, body: string, uuid: string)
    requires StoreOk(store) && uuid !in store
    ensures var store' := CreateChannel(s, store, addr, body, uuid).0;
            && StoreOk(store') && Grows(store, store')
            && (UniqueNames(store) ==> UniqueNames(store'))
  {
    GrowsReflexive(store);
    var r := CreateChannel(s, store, addr, body, uuid);
    if r.1 == Reply(0) {
      FieldsAreFields(body);
      var fs := ReadBody(body).fields;
      NewChannelOk(store, uuid, fs[0], fs[1], fs[2] == "1");
    }
  }

  lemma CreateGlobalOk(store: Store, uuid: string)
    requires StoreOk(store) && uuid !in store
    ensures StoreOk(CreateGlobal(store, uuid)) && Grows(store, CreateGlobal(store, uuid))
    ensures UniqueNames(store) ==> UniqueNames(CreateGlobal(store, uuid))
  {
    GrowsReflexive(store);
    NewChannelOk(store, uuid, "global", ADMIN, false);
  }

  // ---------------------------------------------------------------- update

  /** Keys are compared on 21 bytes: a longer name is cut there, unterminated, and matches no stored key. */
  predicate Known(db: Tables, names: seq<string>) {
    forall i :: 0 <= i < |names| ==> |names[i]| <= NAME_LIMIT && names[i] in db.names
  }

  predicate AlterKnown(db: Tables, a: Alter) {
    Known(db, a.add) && Known(db, a.remove)
  }

  predicate AllKnown(db: Tables, u: Update) {
    AlterKnown(db, u.users) && AlterKnown(db, u.admins) && AlterKnown(db, u.banned)
  }

  /** `update_channel_name_and_publicity` */
  function Rename(store: Store, order: seq<string>, name: string, newName: string, publicity: bool): Option<Store> {
    match Lookup(store, order, name)
    case None => None
    case Some(c) => Some(store[c.id := c.(name := newName, publicity := publicity)])
  }

  /** `add_users_on_channel` */
  function AddMembers(store: Store, order: seq<string>, name: string, request: seq<string>): Option<Store> {
    match Lookup(store, order, name)
    case None => None
    case Some(c) => Some(store[c.id := c.(users := Merge(c.users, request))])
  }

  predicate Renames(u: Update) {
    u.newName.Some? || u.newPublicity.Some?
  }

  /** The name written by a rename: blank when only the publicity was to change. */
  function WrittenName(u: Update): string {
    if u.newName.Some? then u.newName.value else ""
  }

  function WrittenPublicity(u: Update): bool {
    u.newPublicity.Some? && u.newPublicity.value
  }

  /** The store after the rename step. */
  function Renamed(store: Store, order: seq<string>, u: Update): Store {
    if Renames(u) then Rename(store, order, u.channel, WrittenName(u), WrittenPublicity(u)).GetOr(store) else store
  }

  /** The store after the add-users step, which looks the channel up again. */
  function MembersAdded(store: Store, order: seq<string>, u: Update): Store
    requires |u.users.add| <= LIST_SIZE
  {
    if u.users.flag != '0' then AddMembers(store, order, u.channel, Padded(u.users.add)).GetOr(store) else store
  }

  predicate Refused(db: Tables, store: Store, order: seq<string>, u: Update) {
    Lookup(store, order, u.channel).None? || !AllKnown(db, u)
  }

  /**
   The second half of `read_and_update_channel`, after parsing. A new name over its buffer is
   written unterminated into the record.
   */
  function Apply(db: Tables, store: Store, order: seq<string>, u: Update): (Store, Outcome)
    requires |u.users.add| <= LIST_SIZE
  {
    if Refused(db, store, order, u) then (store, Reply(404))
    else if |WrittenName(u)| > NAME_LIMIT then (store, Fault)
    else
      var renamed := Renamed(store, order, u);
      var store' := MembersAdded(renamed, order, u);
      if u.users.flag != '0' && Lookup(renamed, order, u.channel).None? then (store', Reply(500))
      else if Lookup(store', order, u.newName.GetOr(u.channel)).None? then (store', Reply(500))
      else (store', Reply(0))
  }

  /** `read_and_update_channel`: the channel name is copied before anything is checked. */
  function UpdateChannel(db: Tables, store: Store, order: seq<string>, body: string): (Store, Outcome) {
    match ReadBody(body)
    case Unread => (store, Reply(500))
    case Overrun => (store, Fault)
    case Fields(fs) =>
      if fs != [] && |fs[0]| > NAME_LIMIT then (store, Fault)
      else
        match ParseUpdate(fs)
        case Malformed => (store, Reply(400))
        case TooLong => (store, Fault)
        case Got(u, _) => ListsFit(fs); Apply(db, store, order, u)
  }

  /** A printed request reaches the stores as itself. */
  lemma UpdateEndToEnd(db: Tables, store: Store, order: seq<string>, u: Update)
    requires UpdateOk(u) && |Joined(PrintUpdate(u))| < DEFAULT_BUFFER
    ensures UpdateChannel(db, store, order, Joined(PrintUpdate(u))) == Apply(db, store, order, u)
  {
    UpdateRoundTrip(u);
    UpdateOnFields(db, store, order, Joined(PrintUpdate(u)), PrintUpdate(u), u);
  }

  lemma ListsFit(fs: seq<string>)
    ensures ParseUpdate(fs).Got? ==> |ParseUpdate(fs).value.users.add| <= LIST_SIZE
  {
  }

  /** What no update takes away: identity, creator, administrators, bans, and members in their places. */
  ghost predicate Keeps(c: Channel, d: Channel) {
    && d.id == c.id && d.creator == c.creator && d.admins == c.admins && d.banned == c.banned
    && Members(c.users) <= Members(d.users)
  }

  ghost predicate Grows(store: Store, store': Store) {
    forall id :: id in store ==> id in store' && Keeps(store[id], store'[id])
  }

  lemma GrowsReflexive(store: Store)
    ensures Grows(store, store)
  {
  }

  lemma GrowsTransitive(a: Store, b: Store, c: Store)
    requires Grows(a, b) && Grows(b, c)
    ensures Grows(a, c)
  {
    forall id | id in a ensures id in c && Keeps(a[id], c[id]) {
      assert Keeps(a[id], b[id]) && Keeps(b[id], c[id]);
    }
  }

  /** `store'` differs from `store` at most in the record of the channel found as `name`. */
  ghost predicate ChangesOnly(store: Store, store': Store, order: seq<string>, name: string) {
    && store'.Keys == store.Keys
    && forall id :: id in store && (Lookup(store, order, name).None? || id != Lookup(store, order, name).value.id) ==>
         store'[id] == store[id]
  }

  lemma ReplaceOk(store: Store, order: seq<string>, name: string, d: Channel)
    requires StoreOk(store) && Enumerates(order, store) && Lookup(store, order, name).Some?
    requires Keeps(Lookup(store, order, name).value, d) && Packed(d.users)
    ensures Lookup(store, order, name).value.id in store
    ensures StoreOk(store[d.id := d]) && Grows(store, store[d.id := d])
    ensures ChangesOnly(store, store[d.id := d], order, name)
  {
    LookupOk(store, order, name);
    var c := Lookup(store, order, name).value;
    assert ChannelOk(c.id, c);
    MembersPrefix(c.users);
    MembersPrefix(d.users);
    assert Members(c.users)[0] == c.creator;
    GrowsReflexive(store);
  }

  lemma RenamedOk(store: Store, order: seq<string>, u: Update)
    requires StoreOk(store) && Enumerates(order, store)
    ensures var store' := Renamed(store, order, u);
            StoreOk(store') && Grows(store, store') && ChangesOnly(store, store', order, u.channel)
  {
    GrowsReflexive(store);
    if Renames(u) && Lookup(store, order, u.channel).Some? {
      LookupOk(store, order, u.channel);
      var c := Lookup(store, order, u.channel).value;
      assert ChannelOk(c.id, c);
      ReplaceOk(store, order, u.channel, c.(name := WrittenName(u), publicity := WrittenPublicity(u)));
    }
  }

  lemma MembersAddedOk(store: Store, order: seq<string>, u: Update)
    requires StoreOk(store) && Enumerates(order, store) && |u.users.add| <= LIST_SIZE
    ensures var store' := MembersAdded(store, order, u);
            && StoreOk(store') && Grows(store, store') && ChangesOnly(store, store', order, u.channel)
            && forall id :: id in store ==> store'[id].name == store[id].name
  {
    GrowsReflexive(store);
    if u.users.flag != '0' && Lookup(store, order, u.channel).Some? {
      LookupOk(store, order, u.channel);
      var c := Lookup(store, order, u.channel).value;
      assert ChannelOk(c.id, c);
      MergeAppends(c.users, Padded(u.users.add));
      ReplaceOk(store, order, u.channel, c.(users := Merge(c.users, Padded(u.users.add))));
    }
  }

  lemma AppliedGrows(store: Store, order: seq<string>, u: Update)
    requires StoreOk(store) && Enumerates(order, store) && |u.users.add| <= LIST_SIZE
    ensures var store' := MembersAdded(Renamed(store, order, u), order, u);
            store'.Keys == store.Keys && StoreOk(store') && Grows(store, store')
  {
    var renamed := Renamed(store, order, u);
    RenamedOk(store, order, u);
    MembersAddedOk(renamed, order, u);
    GrowsTransitive(store, renamed, MembersAdded(renamed, order, u));
  }

  lemma ApplyStores(db: Tables, store: Store, order: seq<string>, u: Update)
    requires |u.users.add| <= LIST_SIZE
    ensures Apply(db, store, order, u).0 ==
            if Refused(db, store, order, u) || |WrittenName(u)| > NAME_LIMIT then store
            else MembersAdded(Renamed(store, order, u), order, u)
  {
  }

  /** Whatever the answer, an update keeps every channel and every member. */
  lemma ApplyGrows(db: Tables, store: Store, order: seq<string>, u: Update)
    requires StoreOk(store) && Enumerates(order, store) && |u.users.add| <= LIST_SIZE
    ensures var store' := Apply(db, store, order, u).0;
            store'.Keys == store.Keys && StoreOk(store') && Grows(store, store')
  {
    ApplyStores(db, store, order, u);
    GrowsReflexive(store);
    AppliedGrows(store, order, u);
  }

  /** The users step still finds the channel: it was not renamed away. */
  predicate KeepsName(u: Update) {
    Renames(u) ==> WrittenName(u) == u.channel
  }

  /**
   The record that an accepted update leaves behind: the written name and publicity, and the merged
   users only if the channel kept its name.
   */
  function Updated(c: Channel, u: Update): Channel
    requires |u.users.add| <= LIST_SIZE
  {
    c.(name := if Renames(u) then WrittenName(u) else c.name,
       publicity := if Renames(u) then WrittenPublicity(u) else c.publicity,
       users := if u.users.flag != '0' && KeepsName(u) then Merge(c.users, Padded(u.users.add)) else c.users)
  }

  lemma LookupReplaced(store: Store, order: seq<string>, c: Channel, d: Channel, name: string)
    requires StoreOk(store) && UniqueNames(store) && Enumerates(order, store)
    requires c.id in store && store[c.id] == c && d.id == c.id && c.name == name
    ensures Lookup(store[c.id := d], order, name) == if d.name == name then Some(d) else None
  {
    LookupFinds(store[c.id := d], order, name);
    assert c.id in order;
  }

  /** The record after the rename step. */
  function Rewritten(c: Channel, u: Update): Channel {
    if Renames(u) then c.(name := WrittenName(u), publicity := WrittenPublicity(u)) else c
  }

  lemma RenamedIs(store: Store, order: seq<string>, c: Channel, u: Update)
    requires Lookup(store, order, u.channel) == Some(c) && c.id in store && store[c.id] == c
    ensures Renamed(store, order, u) == store[c.id := Rewritten(c, u)]
  {
  }

  lemma MembersAddedIs(store: Store, order: seq<string>, c: Channel, d: Channel, u: Update)
    requires StoreOk(store) && Enumerates(order, store) && UniqueNames(store) && |u.users.add| <= LIST_SIZE
    requires c.id in store && store[c.id] == c && d.id == c.id && c.name == u.channel
    ensures var more := d.(users := Merge(d.users, Padded(u.users.add)));
            MembersAdded(store[c.id := d], order, u) ==
            store[c.id := if u.users.flag != '0' && d.name == u.channel then more else d]
  {
    LookupReplaced(store, order, c, d, u.channel);
  }

  lemma AppliedIs(store: Store, order: seq<string>, c: Channel, u: Update)
    requires StoreOk(store) && Enumerates(order, store) && UniqueNames(store) && |u.users.add| <= LIST_SIZE
    requires Lookup(store, order, u.channel) == Some(c) && c.id in store && store[c.id] == c && c.name == u.channel
    ensures Renamed(store, order, u) == store[c.id := Rewritten(c, u)]
    ensures MembersAdded(Renamed(store, order, u), order, u) == store[c.id := Updated(c, u)]
  {
    RenamedIs(store, order, c, u);
    MembersAddedIs(store, order, c, Rewritten(c, u), u);
  }

  /** With unique names an accepted update replaces exactly the named channel's record, whatever the answer. */
  lemma ApplyEffect(db: Tables, store: Store, order: seq<string>, u: Update)
    requires StoreOk(store) && Enumerates(order, store) && UniqueNames(store) && |u.users.add| <= LIST_SIZE
    requires Taken(store, u.channel) && AllKnown(db, u) && |WrittenName(u)| <= NAME_LIMIT
    ensures Lookup(store, order, u.channel).Some?
    ensures var c := Lookup(store, order, u.channel).value;
            && c.id in store && store[c.id] == c && c.name == u.channel
            && Apply(db, store, order, u).0 == store[c.id := Updated(c, u)]
  {
    LookupOk(store, order, u.channel);
    AppliedIs(store, order, Lookup(store, order, u.channel).value, u);
  }

  /** 404 exactly for an unknown channel or display name, and then nothing changes. */
  lemma ApplyRefused(db: Tables, store: Store, order: seq<string>, u: Update)
    requires StoreOk(store) && Enumerates(order, store) && |u.users.add| <= LIST_SIZE
    ensures var r := Apply(db, store, order, u);
            && (r.1 == Reply(404) <==> !Taken(store, u.channel) || !AllKnown(db, u))
            && (r.1 == Fault <==> Taken(store, u.channel) && AllKnown(db, u) && |WrittenName(u)| > NAME_LIMIT)
            && (r.1 in {Reply(404), Fault} ==> r.0 == store)
  {
    LookupOk(store, order, u.channel);
  }

  /** With unique names, at most the named channel's record changes, whatever the answer. */
  lemma ApplyFrame(db: Tables, store: Store, order: seq<string>, u: Update)
    requires StoreOk(store) && Enumerates(order, store) && UniqueNames(store) && |u.users.add| <= LIST_SIZE
    ensures var store' := Apply(db, store, order, u).0;
            forall id :: id in store && store[id].name != u.channel ==> id in store' && store'[id] == store[id]
  {
    ApplyRefused(db, store, order, u);
    if Taken(store, u.channel) && AllKnown(db, u) && |WrittenName(u)| <= NAME_LIMIT {
      ApplyEffect(db, store, order, u);
    }
  }

  /** The updates that a success answers: no rename, or a rename that leaves the users or the name alone. */
  predicate Completes(u: Update) {
    if u.newName.Some? then u.newName.value == u.channel || u.users.flag == '0' else u.newPublicity.None?
  }

  /**
   An update of an existing channel with known names answers 0 exactly when it `Completes`, and 500
   otherwise; either way the named record becomes `Updated`. Users are looked up under the old name
   after the rename, a rename without a publicity change resets the publicity, and a publicity
   change alone writes a blank name.
   */
  lemma ApplyAnswers(db: Tables, store: Store, order: seq<string>, u: Update)
    requires StoreOk(store) && Enumerates(order, store) && UniqueNames(store) && |u.users.add| <= LIST_SIZE
    requires u.channel != "" && Taken(store, u.channel) && AllKnown(db, u) && |WrittenName(u)| <= NAME_LIMIT
    ensures Lookup(store, order, u.channel).Some?
    ensures var c, r := Lookup(store, order, u.channel).value, Apply(db, store, order, u);
            && r.1 == Reply(if Completes(u) then 0 else 500)
            && r.0 == store[c.id := Updated(c, u)]
            && (!Completes(u) ==> r.0[c.id].name == WrittenName(u) != u.channel && r.0[c.id].users == c.users)
            && (u.newName.Some? && u.newPublicity.None? ==> !r.0[c.id].publicity)
  {
    ApplyEffect(db, store, order, u);
    var c := Lookup(store, order, u.channel).value;
    AppliedIs(store, order, c, u);
    LookupReplaced(store, order, c, Rewritten(c, u), u.channel);
    var store', sought := Apply(db, store, order, u).0, u.newName.GetOr(u.channel);
    if sought == Updated(c, u).name {
      LookupFinds(store', order, sought);
      assert c.id in order && store'[c.id].name == sought;
    } else {
      LookupReplaced(store, order, c, Updated(c, u), u.channel);
    }
  }

  /** No other channel holds the name that the update writes. */
  ghost predicate RenameFree(db: Tables, store: Store, u: Update) {
    Renames(u) && Taken(store, u.channel) && AllKnown(db, u) && |WrittenName(u)| <= NAME_LIMIT ==>
      forall id :: id in store && store[id].name != u.channel ==> store[id].name != WrittenName(u)
  }

  lemma ReplaceUnique(store: Store, c: Channel, d: Channel)
    requires UniqueNames(store) && c.id in store && store[c.id] == c
    ensures UniqueNames(store[c.id := d]) <==>
            forall id :: id in store && store[id].name != c.name ==> store[id].name != d.name
  {
    var store' := store[c.id := d];
    if UniqueNames(store') {
      forall id | id in store && store[id].name != c.name ensures store[id].name != d.name {
        assert store'[id] == store[id] && store'[c.id] == d;
      }
    }
  }

  /** The update does not check the new name: names stay unique exactly when it was free. */
  lemma ApplyUnique(db: Tables, store: Store, order: seq<string>, u: Update)
    requires StoreOk(store) && Enumerates(order, store) && UniqueNames(store) && |u.users.add| <= LIST_SIZE
    ensures UniqueNames(Apply(db, store, order, u).0) <==> RenameFree(db, store, u)
  {
    ApplyRefused(db, store, order, u);
    if Taken(store, u.channel) && AllKnown(db, u) && |WrittenName(u)| <= NAME_LIMIT {
      ApplyEffect(db, store, order, u);
      var c := Lookup(store, order, u.channel).value;
      ReplaceUnique(store, c, Updated(c, u));
    }
  }

  /** A 400 or 404 answer leaves the store unchanged. */
  lemma UpdateRefused(db: Tables, store: Store, order: seq<string>, body: string)
    requires UpdateChannel(db, store, order, body).1 in {Reply(400), Reply(404)}
    ensures UpdateChannel(db, store, order, body).0 == store
  {
    if ReadBody(body).Fields? && ParseUpdate(ReadBody(body).fields).Got? {
      ListsFit(ReadBody(body).fields);
    }
  }

  lemma UpdateChannelOk(db: Tables, store: Store, order: seq<string>, body: string)
    requires StoreOk(store) && Enumerates(order, store)
    ensures var store' := UpdateChannel(db, store, order, body).0;
            store'.Keys == store.Keys && StoreOk(store') && Grows(store, store')
  {
    GrowsReflexive(store);
    if ReadBody(body).Fields? && ParseUpdate(ReadBody(body).fields).Got? {
      ListsFit(ReadBody(body).fields);
      ApplyGrows(db, store, order, ParseUpdate(ReadBody(body).fields).value);
    }
  }

  // ---------------------------------------------------------------- read

  /** `read_and_read_channel`: channel name and three flags. It changes nothing. */
  function ReadChannel(store: Store, order: seq<string>, body: string): Outcome {
    match ReadBody(body)
    case Unread => Reply(500)
    case Overrun => Fault
    case Fields(fs) =>
      if fs == [] then Reply(400)
      else if |fs[0]| > NAME_LIMIT then Fault
      else if |fs| < 4 then Reply(400)
      else if Lookup(store, order, fs[0]).None? then Reply(404)
      else Reply(0)
  }

  /** The answers of a read: complete requests get 0 or 404, shorter ones 400; flags of any kind are accepted. */
  lemma ReadChannelAnswers(store: Store, order: seq<string>, fs: seq<string>)
    requires StoreOk(store) && Enumerates(order, store)
    requires AllFields(fs) && fs != [] && |Joined(fs)| < 1024 && |fs[0]| <= 20
    ensures ReadChannel(store, order, Joined(fs)) ==
            Reply(if |fs| < 4 then 400 else if exists id :: id in store && store[id].name == fs[0] then 0 else 404)
  {
    BodyRoundTrip(fs);
    LookupOk(store, order, fs[0]);
  }

  // ---------------------------------------------------------------- updates on literal bodies

  lemma UpdateOnFields(db: Tables, store: Store, order: seq<string>, body: string, fs: seq<string>, u: Update)
    requires ReadBody(body) == Fields(fs) && ParseUpdate(fs) == Got(u, []) && |fs[0]| <= NAME_LIMIT
    ensures |u.users.add| <= LIST_SIZE
    ensures UpdateChannel(db, store, order, body) == Apply(db, store, order, u)
  {
    ListsFit(fs);
  }

  lemma UpdateOnTokens(db: Tables, store: Store, order: seq<string>, fs: seq<string>, u: Update)
    requires AllFields(fs) && fs != [] && |Joined(fs)| < 1024 && |fs[0]| <= 20
    requires ParseUpdate(fs) == Got(u, [])
    ensures |u.users.add| <= LIST_SIZE
    ensures UpdateChannel(db, store, order, Joined(fs)) == Apply(db, store, order, u)
  {
    BodyRoundTrip(fs);
    UpdateOnFields(db, store, order, Joined(fs), fs, u);
  }

  /** `m'` is `m` and then the longest prefix of `a` without an element of `m`, cut at 64 names. */
  ghost predicate GrewBy(m: seq<string>, m': seq<string>, a: seq<string>) {
    && m <= m' && |m'| <= 64
    && var p := m'[|m|..];
       && p <= a
       && (forall i :: 0 <= i < |p| ==> p[i] !in m)
       && (|p| < |a| && |m'| < 64 ==> a[|p|] in m)
  }

  lemma MergeGrows(slots: seq<string>, a: seq<string>)
    requires Packed(slots) && |a| <= LIST_SIZE && "" !in a
    ensures GrewBy(Members(slots), Members(Merge(slots, Padded(a))), a)
  {
    PaddedMembers(a);
    MergeAppends(slots, Padded(a));
    MembersPrefix(Merge(slots, Padded(a)));
    var m, m' := Members(slots), Members(Merge(slots, Padded(a)));
    assert m'[|m|..] == FreshPrefix(m, a)[..Appended(slots, Padded(a))];
  }

  lemma AddUpdateFields(channel: string, a: seq<string>)
    requires IsField(channel) && AllFields(a)
    ensures AllFields([channel, "0", "0", "1", Decimal(|a|)] + a + ["0", "0"])
  {
    ListFields(a);
    assert IsField(Decimal(|a|)) by {
      assert PrintList(a)[0] == Decimal(|a|);
    }
    FieldsConcat([channel, "0", "0", "1", Decimal(|a|)], a);
    FieldsConcat([channel, "0", "0", "1", Decimal(|a|)] + a, ["0", "0"]);
  }

  /**
   The body that adds users to a channel. Unknown or overlong display names are refused and nothing changes;
   otherwise the answer is 0, the named channel's members grow by the request, and nothing else changes.
   */
  lemma AddUsersEndToEnd(db: Tables, store: Store, order: seq<string>, channel: string, a: seq<string>)
    requires StoreOk(store) && Enumerates(order, store) && UniqueNames(store)
    requires IsField(channel) && |channel| <= 20 && (exists id :: id in store && store[id].name == channel)
    requires AllFields(a) && |a| <= 64
    requires |Joined([channel, "0", "0", "1", Decimal(|a|)] + a + ["0", "0"])| < 1024
    ensures var body := Joined([channel, "0", "0", "1", Decimal(|a|)] + a + ["0", "0"]);
            var (store', o) := UpdateChannel(db, store, order, body);
            && (o == Reply(0) <==> forall i :: 0 <= i < |a| ==> |a[i]| <= 20 && a[i] in db.names)
            && (o == Reply(404) <==> exists i :: 0 <= i < |a| && (|a[i]| > 20 || a[i] !in db.names))
            && (o != Reply(0) ==> store' == store)
            && (o == Reply(0) ==> forall id :: id in store ==> id in store' && Joins(store[id], store'[id], channel, a))
  {
    var fs := [channel, "0", "0", "1", Decimal(|a|)] + a + ["0", "0"];
    var u := Update(channel, None, None, Alter('1', a, []), QUIET, QUIET);
    AddUpdateFields(channel, a);
    AddTokens(channel, a);
    UpdateOnTokens(db, store, order, fs, u);
    AddApplied(db, store, order, u);
  }

  /** What adding `a` to the members of `channel` makes of a record. */
  ghost predicate Joins(c: Channel, d: Channel, channel: string, a: seq<string>) {
    if c.name == channel then d == c.(users := d.users) && GrewBy(Members(c.users), Members(d.users), a) else d == c
  }

  lemma AddApplied(db: Tables, store: Store, order: seq<string>, u: Update)
    requires StoreOk(store) && Enumerates(order, store) && UniqueNames(store)
    requires |u.channel| <= 20 && u.channel != "" && Taken(store, u.channel)
    requires u == Update(u.channel, None, None, Alter('1', u.users.add, []), QUIET, QUIET)
    requires |u.users.add| <= 64 && "" !in u.users.add
    ensures var (store', o) := Apply(db, store, order, u);
            var a := u.users.add;
            && (o == Reply(0) <==> forall i :: 0 <= i < |a| ==> |a[i]| <= 20 && a[i] in db.names)
            && (o == Reply(404) <==> exists i :: 0 <= i < |a| && (|a[i]| > 20 || a[i] !in db.names))
            && (o != Reply(0) ==> store' == store)
            && (o == Reply(0) ==>
                  forall id :: id in store ==> id in store' && Joins(store[id], store'[id], u.channel, a))
  {
    ApplyRefused(db, store, order, u);
    if AllKnown(db, u) {
      ApplyAnswers(db, store, order, u);
      var c := Lookup(store, order, u.channel).value;
      LookupOk(store, order, u.channel);
      assert ChannelOk(c.id, c);
      MergeGrows(c.users, u.users.add);
    }
  }

  /** The name stands in one of the six lists. */
  predicate Mentions(u: Update, name: string) {
    || name in u.users.add || name in u.users.remove || name in u.admins.add || name in u.admins.remove
    || name in u.banned.add || name in u.banned.remove
  }

  lemma AllKnownIs(db: Tables, u: Update)
    ensures AllKnown(db, u) <==> forall name :: Mentions(u, name) ==> |name| <= 20 && name in db.names
  {
    if forall name :: Mentions(u, name) ==> |name| <= 20 && name in db.names {
      assert forall i :: 0 <= i < |u.users.add| ==> Mentions(u, u.users.add[i]);
      assert forall i :: 0 <= i < |u.users.remove| ==> Mentions(u, u.users.remove[i]);
      assert forall i :: 0 <= i < |u.admins.add| ==> Mentions(u, u.admins.add[i]);
      assert forall i :: 0 <= i < |u.admins.remove| ==> Mentions(u, u.admins.remove[i]);
      assert forall i :: 0 <= i < |u.banned.add| ==> Mentions(u, u.banned.add[i]);
      assert forall i :: 0 <= i < |u.banned.remove| ==> Mentions(u, u.banned.remove[i]);
    }
  }

  lemma ListsApplied(db: Tables, store: Store, order: seq<string>, u: Update)
    requires StoreOk(store) && Enumerates(order, store) && UniqueNames(store)
    requires u.channel != "" && Taken(store, u.channel) && u.newName.None? && u.newPublicity.None?
    requires u.users.flag != '0' && |u.users.add| <= 64 && "" !in u.users.add
    ensures var (store', o) := Apply(db, store, order, u);
            var known := forall name :: Mentions(u, name) ==> |name| <= 20 && name in db.names;
            && o == Reply(if known then 0 else 404)
            && (!known ==> store' == store)
            && (known ==> forall id :: id in store ==>
                  id in store' && Joins(store[id], store'[id], u.channel, u.users.add))
  {
    AllKnownIs(db, u);
    ApplyRefused(db, store, order, u);
    if AllKnown(db, u) {
      ApplyAnswers(db, store, order, u);
      var c := Lookup(store, order, u.channel).value;
      LookupOk(store, order, u.channel);
      assert ChannelOk(c.id, c);
      MergeGrows(c.users, u.users.add);
    }
  }

  lemma AddedAreFields(channel: string, a: seq<string>, r: seq<string>, tail: seq<string>)
    requires AllFields([channel, "0", "0"] + (BothLists(a, r) + tail))
    ensures "" !in a
  {
    var fs := [channel, "0", "0"] + (BothLists(a, r) + tail);
    assert forall i :: 0 <= i < |a| ==> fs[i + 5] == a[i];
  }

  /**
   The body with all six lists. One unknown or overlong name in any of them and nothing changes; otherwise
   the members grow by the first list, and the other five have no effect.
   */
  lemma SixListsEndToEnd(db: Tables, store: Store, order: seq<string>, u: Update, fs: seq<string>)
    requires StoreOk(store) && Enumerates(order, store) && UniqueNames(store)
    requires u.channel != "" && |u.channel| <= 20 && (exists id :: id in store && store[id].name == u.channel)
    requires u.newName.None? && u.newPublicity.None? && u.users.flag == u.admins.flag == u.banned.flag == '3'
    requires |u.users.add| <= 64 && |u.users.remove| <= 64 && |u.admins.add| <= 64 && |u.admins.remove| <= 64
    requires |u.banned.add| <= 64 && |u.banned.remove| <= 64
    requires fs == [u.channel, "0", "0"] + (BothLists(u.users.add, u.users.remove)
                   + (BothLists(u.admins.add, u.admins.remove) + BothLists(u.banned.add, u.banned.remove)))
    requires AllFields(fs) && |Joined(fs)| < 1024
    ensures var (store', o) := UpdateChannel(db, store, order, Joined(fs));
            var known := forall name :: Mentions(u, name) ==> |name| <= 20 && name in db.names;
            && o == Reply(if known then 0 else 404)
            && (!known ==> store' == store)
            && (known ==> forall id :: id in store ==>
                  id in store' && Joins(store[id], store'[id], u.channel, u.users.add))
  {
    SixLists(u);
    AddedAreFields(u.channel, u.users.add, u.users.remove,
                   BothLists(u.admins.add, u.admins.remove) + BothLists(u.banned.add, u.banned.remove));
    UpdateOnTokens(db, store, order, fs, u);
    ListsApplied(db, store, order, u);
  }

  /** What renaming `channel` makes of a record. */
  ghost predicate Becomes(c: Channel, d: Channel, channel: string, name: string, publicity: bool) {
    d == if c.name == channel then c.(name := name, publicity := publicity) else c
  }

  lemma RenameApplied(db: Tables, store: Store, order: seq<string>, u: Update)
    requires StoreOk(store) && Enumerates(order, store) && UniqueNames(store)
    requires u.channel != "" && Taken(store, u.channel) && Renames(u) && |WrittenName(u)| <= 20
    requires u == Update(u.channel, u.newName, u.newPublicity, QUIET, QUIET, QUIET)
    ensures var (store', o) := Apply(db, store, order, u);
            && o == Reply(if u.newName.Some? then 0 else 500)
            && forall id :: id in store ==>
                 && id in store'
                 && Becomes(store[id], store'[id], u.channel, u.newName.GetOr(""), u.newPublicity.GetOr(false))
  {
    ApplyAnswers(db, store, order, u);
    LookupOk(store, order, u.channel);
  }

  /** The body with a new name and a publicity: answer 0, and both are written. */
  lemma RenameAndPublish(db: Tables, store: Store, order: seq<string>, channel: string, name: string, bit: string)
    requires StoreOk(store) && Enumerates(order, store) && UniqueNames(store)
    requires IsField(channel) && |channel| <= 20 && (exists id :: id in store && store[id].name == channel)
    requires IsField(name) && |name| <= 20 && IsField(bit) && |bit| <= 20
    ensures var (store', o) := UpdateChannel(db, store, order, Joined([channel, "1", name, "1", bit, "0", "0", "0"]));
            && o == Reply(0)
            && forall id :: id in store ==> id in store' && Becomes(store[id], store'[id], channel, name, bit == "1")
  {
    RenameTokens(channel, name, bit);
    RenameFields(channel, name, bit);
    RenameBody(db, store, order, [channel, "1", name, "1", bit, "0", "0", "0"],
               Update(channel, Some(name), Some(bit == "1"), QUIET, QUIET, QUIET));
  }

  /** The body with a new name only: answer 0, and the channel becomes private. */
  lemma RenameOnly(db: Tables, store: Store, order: seq<string>, channel: string, name: string)
    requires StoreOk(store) && Enumerates(order, store) && UniqueNames(store)
    requires IsField(channel) && |channel| <= 20 && (exists id :: id in store && store[id].name == channel)
    requires IsField(name) && |name| <= 20
    ensures var (store', o) := UpdateChannel(db, store, order, Joined([channel, "1", name, "0", "0", "0", "0"]));
            && o == Reply(0)
            && forall id :: id in store ==> id in store' && Becomes(store[id], store'[id], channel, name, false)
  {
    RenameTokens(channel, name, "");
    RenameFields(channel, name, "0");
    RenameBody(db, store, order, [channel, "1", name, "0", "0", "0", "0"],
               Update(channel, Some(name), None, QUIET, QUIET, QUIET));
  }

  /** The body with a publicity only: answer 500, and yet the publicity is written and the name blanked. */
  lemma PublishOnly(db: Tables, store: Store, order: seq<string>, channel: string, bit: string)
    requires StoreOk(store) && Enumerates(order, store) && UniqueNames(store)
    requires IsField(channel) && |channel| <= 20 && (exists id :: id in store && store[id].name == channel)
    requires IsField(bit) && |bit| <= 20
    ensures var (store', o) := UpdateChannel(db, store, order, Joined([channel, "0", "1", bit, "0", "0", "0"]));
            && o == Reply(500)
            && forall id :: id in store ==> id in store' && Becomes(store[id], store'[id], channel, "", bit == "1")
  {
    RenameTokens(channel, "", bit);
    RenameFields(channel, "0", bit);
    RenameBody(db, store, order, [channel, "0", "1", bit, "0", "0", "0"],
               Update(channel, None, Some(bit == "1"), QUIET, QUIET, QUIET));
  }

  lemma RenameBody(db: Tables, store: Store, order: seq<string>, fs: seq<string>, u: Update)
    requires StoreOk(store) && Enumerates(order, store) && UniqueNames(store)
    requires u.channel != "" && Taken(store, u.channel) && Renames(u) && |WrittenName(u)| <= 20
    requires u == Update(u.channel, u.newName, u.newPublicity, QUIET, QUIET, QUIET)
    requires AllFields(fs) && Short(fs) && 0 < |fs| <= 8 && ParseUpdate(fs) == Got(u, [])
    ensures var (store', o) := UpdateChannel(db, store, order, Joined(fs));
            && o == Reply(if u.newName.Some? then 0 else 500)
            && forall id :: id in store ==>
                 && id in store'
                 && Becomes(store[id], store'[id], u.channel, u.newName.GetOr(""), u.newPublicity.GetOr(false))
  {
    JoinedBound(fs);
    UpdateOnTokens(db, store, order, fs, u);
    RenameApplied(db, store, order, u);
  }

  /** A body that is cut short after any field but the last answers 400. */
  lemma TruncatedUpdateRefused(db: Tables, store: Store, order: seq<string>, fs: seq<string>, k: nat)
    requires AllFields(fs) && |fs| > 0 && |fs[0]| <= 20 && ParseUpdate(fs).Got?
    requires 0 < k < |fs| && |Joined(fs[..k])| < 1024
    ensures UpdateChannel(db, store, order, Joined(fs[..k])) == (store, Reply(400))
  {
    TruncatedIsMalformed(fs, k);
    BodyRoundTrip(fs[..k]);
  }
}
