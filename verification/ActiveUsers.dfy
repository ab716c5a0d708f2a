/**
 The active-user cache of src/server.c: 255 slots without a stored length. The length is the
 position of the first blank name. The class refines a plain sequence, `Contents()`.
 */
module ActiveUsers {
  import opened CStrings
  import opened Records

  // ---------------------------------------------------------------- the sequence

  /** Position of the first entry called `name`, or the length. */
  function IndexOf(cache: seq<Entry>, name: string): (k: nat)
    ensures k <= |cache|
    ensures k < |cache| ==> cache[k].name == name
    ensures forall i :: 0 <= i < k ==> cache[i].name != name
  {
    if cache == [] || cache[0].name == name then 0
    else
      var k := IndexOf(cache[1..], name);
      assert forall i :: 0 < i < k + 1 ==> cache[i] == cache[1..][i - 1];
      k + 1
  }

  function ByName(cache: seq<Entry>, name: string): Option<Entry> {
    var k := IndexOf(cache, name);
    if k < |cache| then Some(cache[k]) else None
  }

  predicate IsFirstFd(cache: seq<Entry>, fd: int, k: int) {
    0 <= k < |cache| && cache[k].fd == fd && forall i :: 0 <= i < k ==> cache[i].fd != fd
  }

  function ByFd(cache: seq<Entry>, fd: int): (r: Option<Entry>)
    ensures r.Some? ==> exists k :: IsFirstFd(cache, fd, k) && r.value == cache[k]
    ensures r.None? ==> forall e :: e in cache ==> e.fd != fd
  {
    if cache == [] then None
    else if cache[0].fd == fd then
      assert IsFirstFd(cache, fd, 0);
      Some(cache[0])
    else
      var r := ByFd(cache[1..], fd);
      assert r.Some? ==> exists k :: IsFirstFd(cache, fd, k) && r.value == cache[k] by {
        if r.Some? {
          var j :| IsFirstFd(cache[1..], fd, j) && r.value == cache[1..][j];
          assert IsFirstFd(cache, fd, j + 1);
        }
      }
      r
  }

  predicate SameCredentials(cache: seq<Entry>, fd: int, name: string, ip: string) {
    exists i :: 0 <= i < |cache| && cache[i].fd == fd && cache[i].name == name && cache[i].ip == ip
  }

  predicate Present(cache: seq<Entry>, name: string, ip: string) {
    exists i :: 0 <= i < |cache| && cache[i].name == name && cache[i].ip == ip
  }

  /** Some live entry carries `name` from another address. */
  predicate Elsewhere(cache: seq<Entry>, name: string, ip: string) {
    exists i :: 0 <= i < |cache| && cache[i].name == name && cache[i].ip != ip
  }

  function Append(cache: seq<Entry>, e: Entry): seq<Entry> {
    if e.name == "" then cache else cache + [e]
  }

  function RemoveFirst(cache: seq<Entry>, name: string): seq<Entry> {
    var k := IndexOf(cache, name);
    if k < |cache| then cache[..k] + cache[k + 1..] else cache
  }

  /** The entries of everybody but `name`, in order. */
  function Others(cache: seq<Entry>, name: string): seq<Entry> {
    if cache == [] then []
    else (if cache[0].name == name then [] else [cache[0]]) + Others(cache[1..], name)
  }

  lemma {:induction false} OthersSplit(a: seq<Entry>, b: seq<Entry>, name: string)
    ensures Others(a + b, name) == Others(a, name) + Others(b, name)
  {
    if a == [] {
      assert a + b == b;
    } else {
      assert (a + b)[1..] == a[1..] + b;
      OthersSplit(a[1..], b, name);
    }
  }

  lemma OthersAt(cache: seq<Entry>, name: string, k: nat)
    requires k < |cache| && cache[k].name == name
    ensures Others(cache, name) == Others(cache[..k], name) + Others(cache[k + 1..], name)
  {
    assert cache == cache[..k] + cache[k..];
    OthersSplit(cache[..k], cache[k..], name);
    assert cache[k..][1..] == cache[k + 1..];
  }

  /** Removing one name's first entry leaves every other user's entries as they were, in order. */
  lemma RemoveKeepsOthers(cache: seq<Entry>, name: string)
    ensures Others(RemoveFirst(cache, name), name) == Others(cache, name)
    ensures |RemoveFirst(cache, name)| == |cache| - if ByName(cache, name).Some? then 1 else 0
  {
    var k := IndexOf(cache, name);
    if k < |cache| {
      OthersAt(cache, name, k);
      OthersSplit(cache[..k], cache[k + 1..], name);
    }
  }

  lemma IndexIs(cache: seq<Entry>, name: string, k: nat)
    requires k <= |cache|
    requires forall i :: 0 <= i < k ==> cache[i].name != name
    requires k < |cache| ==> cache[k].name == name
    ensures IndexOf(cache, name) == k
  {
  }

  lemma RemoveMembership(cache: seq<Entry>, name: string)
    ensures forall e :: e in RemoveFirst(cache, name) ==> e in cache
    ensures forall e :: e in cache && e.name != name ==> e in RemoveFirst(cache, name)
  {
    var k := IndexOf(cache, name);
    if k < |cache| {
      forall e | e in cache && e.name != name ensures e in cache[..k] + cache[k + 1..] {
        var i :| 0 <= i < |cache| && cache[i] == e;
        assert if i < k then cache[..k][i] == e else cache[k + 1..][i - k - 1] == e;
      }
    }
  }

  // ---------------------------------------------------------------- the slots

  const BLANK := Entry(0, "", "", "", "", 0)

  /** The entries before the first blank name. */
  function Live(slots: seq<Entry>): seq<Entry> {
    if slots == [] || slots[0].name == "" then [] else [slots[0]] + Live(slots[1..])
  }

  predicate GapFree(slots: seq<Entry>) {
    forall i, j :: 0 <= i < j < |slots| && slots[j].name != "" ==> slots[i].name != ""
  }

  lemma {:induction false} LiveIs(slots: seq<Entry>, n: nat)
    requires n <= |slots|
    requires forall i :: 0 <= i < n ==> slots[i].name != ""
    requires n < |slots| ==> slots[n].name == ""
    ensures Live(slots) == slots[..n]
  {
    if n > 0 {
      LiveIs(slots[1..], n - 1);
      assert slots[..n] == [slots[0]] + slots[1..][..n - 1];
    }
  }

  lemma {:induction false} LivePrefix(slots: seq<Entry>)
    ensures |Live(slots)| <= |slots| && Live(slots) == slots[..|Live(slots)|]
    ensures forall i :: 0 <= i < |Live(slots)| ==> slots[i].name != ""
    ensures |Live(slots)| < |slots| ==> slots[|Live(slots)|].name == ""
  {
    if slots != [] && slots[0].name != "" {
      LivePrefix(slots[1..]);
      var n := |Live(slots[1..])|;
      assert slots[..n + 1] == [slots[0]] + slots[1..][..n];
    }
  }

  /** Slots after the entry at `i` was removed from the first `n`. */
  function Closed(slots: seq<Entry>, i: nat, n: nat): seq<Entry>
    requires i < n <= |slots|
  {
    slots[..i] + slots[i + 1..n] + [slots[n - 1].(name := "")] + slots[n..]
  }

  /** Slots half-way: those from `i` to `j` already hold their successors. */
  function Shifted(slots: seq<Entry>, i: nat, j: nat): seq<Entry>
    requires i <= j < |slots|
  {
    slots[..i] + slots[i + 1..j + 1] + slots[j..]
  }

  lemma ShiftStep(slots: seq<Entry>, i: nat, j: nat)
    requires i <= j < |slots| - 1
    ensures var now := Shifted(slots, i, j);
            |now| == |slots| && now[j := now[j + 1]] == Shifted(slots, i, j + 1)
  {
  }

  lemma ShiftEnd(slots: seq<Entry>, i: nat, n: nat)
    requires i < n <= |slots|
    ensures var now := Shifted(slots, i, n - 1);
            |now| == |slots| && now[n - 1 := now[n - 1].(name := "")] == Closed(slots, i, n)
  {
  }

  lemma ClosedAt(slots: seq<Entry>, i: nat, n: nat)
    requires i < n <= |slots|
    ensures var after := Closed(slots, i, n);
            && |after| == |slots|
            && (forall k :: 0 <= k < i ==> after[k] == slots[k])
            && (forall k :: i <= k < n - 1 ==> after[k] == slots[k + 1])
            && after[n - 1].name == ""
            && (forall k :: n <= k < |slots| ==> after[k] == slots[k])
  {
  }

  lemma ClosedStaysGapFree(slots: seq<Entry>, i: nat, n: nat)
    requires i < n <= |slots|
    requires forall k :: 0 <= k < n ==> slots[k].name != ""
    requires forall k :: n <= k < |slots| ==> slots[k].name == ""
    ensures GapFree(Closed(slots, i, n))
    ensures forall k :: 0 <= k < n - 1 ==> Closed(slots, i, n)[k].name != ""
  {
    ClosedAt(slots, i, n);
  }

  lemma ClosedGap(slots: seq<Entry>, i: nat, n: nat)
    requires GapFree(slots) && i < n == |Live(slots)|
    requires n <= |slots|
    ensures GapFree(Closed(slots, i, n))
    ensures Live(Closed(slots, i, n)) == slots[..n][..i] + slots[..n][i + 1..]
  {
    LivePrefix(slots);
    ClosedStaysGapFree(slots, i, n);
    ClosedAt(slots, i, n);
    var after := Closed(slots, i, n);
    LiveIs(after, n - 1);
    assert after[..n - 1] == slots[..i] + slots[i + 1..n];
    assert slots[..n][i + 1..] == slots[i + 1..n];
  }

  class Cache {
    const slots: array<Entry>

    ghost predicate Valid()
      reads slots
    {
      slots.Length == MAX_CLIENTS && GapFree(slots[..])
    }

    ghost function Contents(): seq<Entry>
      reads slots
    {
      Live(slots[..])
    }

    /** All slots zeroed, as at process start. */
    constructor ()
      ensures Valid() && fresh(slots) && Contents() == []
    {
      slots := new Entry[MAX_CLIENTS](_ => BLANK);
    }

    /** `get_num_connected_users` */
    method Count() returns (n: nat)
      requires Valid()
      ensures n == |Contents()| <= MAX_CLIENTS
    {
      n := 0;
      for i := 0 to MAX_CLIENTS
        invariant n == i
        invariant forall k :: 0 <= k < i ==> slots[k].name != ""
      {
        if slots[i].name == "" {
          LiveIs(slots[..], n);
          return;
        }
        n := n + 1;
      }
      LiveIs(slots[..], n);
    }

    /** `insert_user_in_cache`: the caller passes the current length and must leave room. */
    method Insert(e: Entry, n: nat)
      requires Valid() && n == |Contents()| < MAX_CLIENTS
      modifies slots
      ensures Valid() && Contents() == Append(old(Contents()), e)
    {
      LivePrefix(slots[..]);
      ghost var before := slots[..];
      slots[n] := e;
      assert slots[..] == before[n := e];
      LiveIs(slots[..], if e.name == "" then n else n + 1);
    }

    /** `remove_user_in_cache`: close the gap over the first match. */
    method Remove(name: string, n: nat)
      requires Valid() && n == |Contents()|
      modifies slots
      ensures Valid() && Contents() == RemoveFirst(old(Contents()), name)
    {
      LivePrefix(slots[..]);
      ghost var was := slots[..];
      for i := 0 to n
        invariant slots[..] == was
        invariant forall k :: 0 <= k < i ==> was[k].name != name
      {
        if slots[i].name == name {
          CloseGap(i, n);
          ClosedGap(was, i, n);
          IndexIs(was[..n], name, i);
          return;
        }
      }
      IndexIs(was[..n], name, n);
    }

    /** Shift the tail down by one and blank the last name; its other fields stay behind. */
    method CloseGap(i: nat, n: nat)
      requires i < n <= slots.Length
      modifies slots
      ensures slots[..] == Closed(old(slots[..]), i, n)
    {
      ghost var was := slots[..];
      for j := i to n - 1
        invariant slots[..] == Shifted(was, i, j)
      {
        ShiftStep(was, i, j);
        ghost var before := slots[..];
        slots[j] := slots[j + 1];
        assert slots[..] == before[j := before[j + 1]];
      }
      ShiftEnd(was, i, n);
      ghost var before := slots[..];
      slots[n - 1] := slots[n - 1].(name := "");
      assert slots[..] == before[n - 1 := before[n - 1].(name := "")];
    }

    /** `get_connected_user_by_display_name` */
    method FindByName(name: string) returns (r: Option<Entry>)
      requires Valid()
      ensures r == ByName(Contents(), name)
    {
      var n := Count();
      LivePrefix(slots[..]);
      for i := 0 to n
        invariant forall k :: 0 <= k < i ==> slots[k].name != name
      {
        if slots[i].name == name {
          IndexIs(Contents(), name, i);
          return Some(slots[i]);
        }
      }
      IndexIs(Contents(), name, n);
      return None;
    }

    /** `get_connected_user_by_fd` */
    method FindByFd(fd: int) returns (r: Option<Entry>)
      requires Valid()
      ensures r == ByFd(Contents(), fd)
    {
      var n := Count();
      LivePrefix(slots[..]);
      for i := 0 to n
        invariant ByFd(Contents(), fd) == ByFd(Contents()[i..], fd)
      {
        assert Contents()[i..][1..] == Contents()[i + 1..];
        if slots[i].fd == fd {
          return Some(slots[i]);
        }
      }
      return None;
    }

    /** `find_connected_user_with_same_cred` */
    method HasSameCredentials(fd: int, name: string, ip: string) returns (r: bool)
      requires Valid()
      ensures r == SameCredentials(Contents(), fd, name, ip)
    {
      var n := Count();
      LivePrefix(slots[..]);
      for i := 0 to n
        invariant forall k :: 0 <= k < i ==> !(slots[k].fd == fd && slots[k].name == name && slots[k].ip == ip)
      {
        if slots[i].ip == ip && slots[i].name == name && slots[i].fd == fd {
          assert Contents()[i] == slots[i];
          return true;
        }
      }
      return false;
    }

    /** `get_display_name_in_cache_malloc_or_null` */
    method NameAt(name: string, ip: string) returns (r: Option<string>)
      requires Valid()
      ensures r == if Present(Contents(), name, ip) then Some(name) else None
    {
      var n := Count();
      LivePrefix(slots[..]);
      for i := 0 to n
        invariant forall k :: 0 <= k < i ==> !(slots[k].name == name && slots[k].ip == ip)
      {
        if slots[i].ip == ip && slots[i].name == name {
          assert Contents()[i] == slots[i];
          return Some(slots[i].name);
        }
      }
      return None;
    }

    /** The loop at the heart of login: is `name` live at another address? */
    method IsElsewhere(name: string, ip: string) returns (r: bool)
      requires Valid()
      ensures r == Elsewhere(Contents(), name, ip)
    {
      var n := Count();
      LivePrefix(slots[..]);
      for i := 0 to n
        invariant forall k :: 0 <= k < i ==> !(slots[k].name == name && slots[k].ip != ip)
      {
        if slots[i].name == name && slots[i].ip != ip {
          assert Contents()[i] == slots[i];
          return true;
        }
      }
      return false;
    }
  }
}
