/**
 Replies that are measured first and filled second: the channel-name list of a login, the message
 history of a channel, and the forwarding of a message to the members who are online.
 */
module Replies {
  import opened CStrings
  import opened Records
  import opened ActiveUsers
  import opened Channels

  const TIMESTAMP_SIZE := 32

  /** `memcpy` of `text` to `list + offset`. */
  method CopyInto(list: array<char>, offset: nat, text: string)
    requires offset + |text| <= list.Length
    modifies list
    ensures list[..] == old(list[..offset]) + text + old(list[offset + |text|..])
  {
    ghost var was := list[..];
    for k := 0 to |text|
      invariant list[..] == was[..offset] + text[..k] + was[offset + k..]
    {
      CopyStep(was, offset, text, k);
      ghost var before := list[..];
      list[offset + k] := text[k];
      assert list[..] == before[offset + k := text[k]];
    }
    assert text[..|text|] == text;
  }

  lemma CopyStep(was: seq<char>, offset: nat, text: string, k: nat)
    requires k < |text| && offset + |text| <= |was|
    ensures (was[..offset] + text[..k] + was[offset + k..])[offset + k := text[k]]
         == was[..offset] + text[..k + 1] + was[offset + k + 1..]
  {
  }

  // ---------------------------------------------------------------- channel names

  lemma {:induction false} TerminatedSplit(a: seq<string>, b: seq<string>)
    ensures Terminated(a + b) == Terminated(a) + Terminated(b)
  {
    if a == [] {
      assert a + b == b;
    } else {
      assert (a + b)[1..] == a[1..] + b;
      TerminatedSplit(a[1..], b);
    }
  }

  lemma TerminatedNext(names: seq<string>, i: nat)
    requires i < |names|
    ensures Terminated(names[..i + 1]) == Terminated(names[..i]) + names[i] + [ETX]
    ensures |Terminated(names[..i + 1])| <= |Terminated(names)|
  {
    assert names[..i + 1] == names[..i] + [names[i]];
    TerminatedSplit(names[..i], [names[i]]);
    assert Terminated([names[i]]) == names[i] + [ETX] + Terminated([]);
    assert names == names[..i + 1] + names[i + 1..];
    TerminatedSplit(names[..i + 1], names[i + 1..]);
  }

  /** `build_channel_name_list`: the first pass measures exactly what the second pass writes. */
  method BuildChannelNameList(names: seq<string>) returns (list: array<char>)
    ensures list[..] == Terminated(names) + [NUL]
  {
    var size := 0;
    for i := 0 to |names|
      invariant size == |Terminated(names[..i])|
    {
      TerminatedNext(names, i);
      size := size + |names[i]| + 1;
    }
    assert names[..|names|] == names;
    size := size + 1;
    list := new char[size];
    var offset := 0;
    for i := 0 to |names|
      invariant offset == |Terminated(names[..i])| < list.Length
      invariant list[..offset] == Terminated(names[..i])
    {
      TerminatedNext(names, i);
      CopyInto(list, offset, names[i]);
      assert list[..offset + |names[i]|] == Terminated(names[..i]) + names[i];
      offset := offset + |names[i]|;
      list[offset] := ETX;
      offset := offset + 1;
    }
    list[offset] := NUL;
  }

  /** Splitting the list at ETX gives the names back in order, exactly when none is blank or holds ETX. */
  lemma ChannelNamesRoundTrip(names: seq<string>)
    ensures Pieces(Terminated(names), SEPARATORS) == names <==>
            forall i :: 0 <= i < |names| ==> names[i] != "" && ETX !in names[i]
  {
    SplitTerminated(names);
  }

  // ---------------------------------------------------------------- message history

  /** A stored message as the history sees it. */
  datatype Line = Line(author: string, channel: string, text: string, stamp: string)

  function Matching(lines: seq<Line>, channel: string): seq<Line> {
    if lines == [] then []
    else (if lines[0].channel == channel then [lines[0]] else []) + Matching(lines[1..], channel)
  }

  /** The size that the first pass allots: text, time stamp, one ETX, but no display name. */
  function Allotted(ls: seq<Line>): nat {
    if ls == [] then 0 else |ls[0].text| + 1 + TIMESTAMP_SIZE + Allotted(ls[1..])
  }

  /** Name, text and time stamp, each ended by ETX. The name is looked up by the author's uuid. */
  function Rendered(l: Line, accounts: map<string, Account>): string {
    var name := if l.author in accounts then accounts[l.author].name else "";
    name + [ETX] + (l.text + [ETX]) + (l.stamp + [ETX])
  }

  /** Every author has an account, and time stamps fill their field. */
  ghost predicate Readable(ls: seq<Line>, accounts: map<string, Account>) {
    forall i :: 0 <= i < |ls| ==> ls[i].author in accounts && |ls[i].stamp| == TIMESTAMP_SIZE
  }

  function RenderAll(ls: seq<Line>, accounts: map<string, Account>): string {
    if ls == [] then "" else Rendered(ls[0], accounts) + RenderAll(ls[1..], accounts)
  }

  lemma {:induction false} MatchingSplit(a: seq<Line>, b: seq<Line>, channel: string)
    ensures Matching(a + b, channel) == Matching(a, channel) + Matching(b, channel)
  {
    if a == [] {
      assert a + b == b;
    } else {
      var first := if a[0].channel == channel then [a[0]] else [];
      assert (a + b)[1..] == a[1..] + b;
      MatchingSplit(a[1..], b, channel);
      assert Matching(a + b, channel) == first + (Matching(a[1..], channel) + Matching(b, channel));
    }
  }

  lemma {:induction false} AllottedSplit(a: seq<Line>, b: seq<Line>)
    ensures Allotted(a + b) == Allotted(a) + Allotted(b)
  {
    if a == [] {
      assert a + b == b;
    } else {
      assert (a + b)[1..] == a[1..] + b;
      AllottedSplit(a[1..], b);
    }
  }

  lemma {:induction false} RenderSplit(a: seq<Line>, b: seq<Line>, accounts: map<string, Account>)
    ensures RenderAll(a + b, accounts) == RenderAll(a, accounts) + RenderAll(b, accounts)
  {
    if a == [] {
      assert a + b == b;
    } else {
      assert (a + b)[1..] == a[1..] + b;
      RenderSplit(a[1..], b, accounts);
    }
  }

  /** How many messages the second pass writes before its room check stops it. */
  function Fitting(ls: seq<Line>, accounts: map<string, Account>, room: int): nat {
    if ls == [] || |Rendered(ls[0], accounts)| >= room then 0
    else 1 + Fitting(ls[1..], accounts, room - |Rendered(ls[0], accounts)|)
  }

  /** `k` messages are the longest prefix whose rendering is shorter than the room. */
  ghost predicate Longest(ls: seq<Line>, accounts: map<string, Account>, room: int, k: nat) {
    && k <= |ls|
    && |RenderAll(ls[..k], accounts)| < room
    && forall j :: k < j <= |ls| ==> |RenderAll(ls[..j], accounts)| >= room
  }

  lemma {:induction false} FittingIsLongest(ls: seq<Line>, accounts: map<string, Account>, room: int)
    requires room > 0
    ensures Longest(ls, accounts, room, Fitting(ls, accounts, room))
  {
    if ls != [] {
      forall j | 0 < j <= |ls|
        ensures |RenderAll(ls[..j], accounts)| == |Rendered(ls[0], accounts)| + |RenderAll(ls[1..][..j - 1], accounts)|
      {
        assert ls[..j][1..] == ls[1..][..j - 1];
      }
      if Fitting(ls, accounts, room) > 0 {
        FittingIsLongest(ls[1..], accounts, room - |Rendered(ls[0], accounts)|);
      }
    }
  }

  lemma {:induction false} RenderedExceeds(ls: seq<Line>, accounts: map<string, Account>)
    requires Readable(ls, accounts)
    ensures |RenderAll(ls, accounts)| >= Allotted(ls) + 2 * |ls|
  {
    if ls != [] {
      RenderedExceeds(ls[1..], accounts);
    }
  }

  /** A buffer measured without display names never holds all the messages: the last is always omitted. */
  lemma LastIsOmitted(ls: seq<Line>, accounts: map<string, Account>)
    requires Readable(ls, accounts) && ls != []
    ensures Fitting(ls, accounts, Allotted(ls) + 1) < |ls|
  {
    FittingIsLongest(ls, accounts, Allotted(ls) + 1);
    RenderedExceeds(ls, accounts);
    assert ls[..|ls|] == ls;
  }

  function TextsOf(ls: seq<Line>): seq<string> {
    seq(|ls|, i requires 0 <= i < |ls| => ls[i].text)
  }

  /** The first pass allots 33 characters beside each text. */
  lemma {:induction false} AllottedIs(ls: seq<Line>)
    ensures Allotted(ls) == |Concat(TextsOf(ls))| + 33 * |ls|
  {
    if ls != [] {
      AllottedIs(ls[1..]);
      assert TextsOf(ls)[1..] == TextsOf(ls[1..]);
    }
  }

  /** What the second pass writes before the terminator. */
  function History(ls: seq<Line>, accounts: map<string, Account>): string {
    FittingIsLongest(ls, accounts, Allotted(ls) + 1);
    RenderAll(ls[..Fitting(ls, accounts, Allotted(ls) + 1)], accounts)
  }

  // What the history says, field by field.

  /** Every field that the history shows survives splitting. */
  ghost predicate Showable(ls: seq<Line>, accounts: map<string, Account>) {
    forall i :: 0 <= i < |ls| ==>
      && ls[i].author in accounts && IsField(accounts[ls[i].author].name)
      && IsField(ls[i].text) && IsField(ls[i].stamp)
  }

  /** The pieces are display name, text and time stamp of each of the first `k` messages, in order. */
  ghost predicate Shows(ps: seq<string>, ls: seq<Line>, accounts: map<string, Account>, k: nat) {
    && k <= |ls| && |ps| == 3 * k
    && forall i :: 0 <= i < k ==>
         && ls[i].author in accounts && ps[3 * i] == accounts[ls[i].author].name
         && ps[3 * i + 1] == ls[i].text && ps[3 * i + 2] == ls[i].stamp
  }

  function Triple(l: Line, accounts: map<string, Account>): seq<string> {
    [if l.author in accounts then accounts[l.author].name else "", l.text, l.stamp]
  }

  function Triples(ls: seq<Line>, accounts: map<string, Account>): seq<string> {
    if ls == [] then [] else Triple(ls[0], accounts) + Triples(ls[1..], accounts)
  }

  lemma {:induction false} TriplesShow(ls: seq<Line>, accounts: map<string, Account>)
    requires Showable(ls, accounts)
    ensures Shows(Triples(ls, accounts), ls, accounts, |ls|) && AllFields(Triples(ls, accounts))
  {
    if ls != [] {
      var rest := Triples(ls[1..], accounts);
      TriplesShow(ls[1..], accounts);
      forall i | 0 < i < |ls|
        ensures Triples(ls, accounts)[3 * i] == rest[3 * (i - 1)]
        ensures Triples(ls, accounts)[3 * i + 1] == rest[3 * (i - 1) + 1]
        ensures Triples(ls, accounts)[3 * i + 2] == rest[3 * (i - 1) + 2]
        ensures ls[i] == ls[1..][i - 1]
      {
      }
    }
  }

  lemma TripleTerminated(l: Line, accounts: map<string, Account>)
    ensures Terminated(Triple(l, accounts)) == Rendered(l, accounts)
  {
    var t := Triple(l, accounts);
    assert t[1..] == [l.text, l.stamp] && [l.text, l.stamp][1..] == [l.stamp];
    assert Terminated([l.stamp]) == l.stamp + [ETX] + Terminated([l.stamp][1..]);
    assert Terminated([l.text, l.stamp]) == l.text + [ETX] + Terminated([l.stamp]);
  }

  /** A rendered history is its fields, each ended by ETX. */
  lemma {:induction false} RenderIsTerminated(ls: seq<Line>, accounts: map<string, Account>)
    ensures RenderAll(ls, accounts) == Terminated(Triples(ls, accounts))
  {
    if ls != [] {
      RenderIsTerminated(ls[1..], accounts);
      TripleTerminated(ls[0], accounts);
      TerminatedSplit(Triple(ls[0], accounts), Triples(ls[1..], accounts));
    }
  }

  lemma {:induction false} TerminatedHasNoNul(fs: seq<string>)
    requires AllFields(fs)
    ensures Free(Terminated(fs), {NUL})
  {
    if fs != [] {
      assert AllFields(fs[1..]);
      TerminatedHasNoNul(fs[1..]);
    }
  }

  /** Splitting a buffer that holds the history of the first `k` messages shows exactly those. */
  lemma BufferShows(buffer: string, ls: seq<Line>, accounts: map<string, Account>, k: nat)
    requires Showable(ls, accounts) && k <= |ls|
    requires var n := |RenderAll(ls[..k], accounts)|;
             n < |buffer| && buffer[..n] == RenderAll(ls[..k], accounts) && buffer[n] == NUL
    ensures Shows(Pieces(Text(buffer), SEPARATORS), ls, accounts, k)
  {
    var shown := ls[..k];
    assert Showable(shown, accounts);
    TriplesShow(shown, accounts);
    RenderIsTerminated(shown, accounts);
    TerminatedHasNoNul(Triples(shown, accounts));
    var text := RenderAll(shown, accounts);
    assert buffer == text + buffer[|text|..];
    SpanOf(text, buffer[|text|..], {NUL});
    SplitTerminated(Triples(shown, accounts));
    assert forall i :: 0 <= i < k ==> shown[i] == ls[i];
  }

  /** One more message: it is written exactly when it leaves room for the terminator. */
  lemma FitsNext(ls: seq<Line>, accounts: map<string, Account>, done: nat, room: int, k: nat)
    requires Longest(ls, accounts, room, k) && done < |ls| && done <= k
    ensures RenderAll(ls[..done + 1], accounts) == RenderAll(ls[..done], accounts) + Rendered(ls[done], accounts)
    ensures done < k <==> |RenderAll(ls[..done + 1], accounts)| < room
  {
    assert ls[..done + 1] == ls[..done] + [ls[done]];
    RenderSplit(ls[..done], [ls[done]], accounts);
    assert RenderAll([ls[done]], accounts) == Rendered(ls[done], accounts) + RenderAll([ls[done]][1..], accounts);
    if done < k {
      assert ls[..k] == ls[..done + 1] + ls[done + 1..k];
      RenderSplit(ls[..done + 1], ls[done + 1..k], accounts);
    }
  }

  /** A copy and its ETX. */
  method WriteField(list: array<char>, offset: nat, text: string) returns (next: nat)
    requires offset + |text| < list.Length
    modifies list
    ensures next == offset + |text| + 1
    ensures list[..next] == old(list[..offset]) + (text + [ETX])
  {
    CopyInto(list, offset, text);
    next := offset + |text|;
    list[next] := ETX;
    next := next + 1;
  }

  method WriteLine(list: array<char>, offset: nat, l: Line, accounts: map<string, Account>) returns (next: nat)
    requires l.author in accounts && offset + |Rendered(l, accounts)| <= list.Length
    modifies list
    ensures next == offset + |Rendered(l, accounts)|
    ensures list[..next] == old(list[..offset]) + Rendered(l, accounts)
  {
    next := WriteField(list, offset, accounts[l.author].name);
    next := WriteField(list, next, l.text);
    next := WriteField(list, next, l.stamp);
  }

  /** The first pass. */
  method Measure(lines: seq<Line>, channel: string) returns (size: nat)
    ensures size == Allotted(Matching(lines, channel)) + 1
  {
    size := 0;
    for i := 0 to |lines|
      invariant size == Allotted(Matching(lines[..i], channel))
    {
      NextLine(lines, channel, i);
      if lines[i].channel == channel {
        size := size + |lines[i].text| + 1;
        size := size + TIMESTAMP_SIZE;
      }
    }
    assert lines[..|lines|] == lines;
    size := size + 1;
  }

  lemma NextMatch(lines: seq<Line>, channel: string, i: nat, ls: seq<Line>, done: nat,
                  accounts: map<string, Account>, room: int, k: nat)
    requires i < |lines| && lines[i].channel == channel
    requires Longest(ls, accounts, room, k) && done <= k
    requires ls[done..] == Matching(lines[i..], channel) && Readable(ls, accounts)
    ensures done < |ls| && ls[done + 1..] == Matching(lines[i + 1..], channel)
    ensures lines[i].author in accounts
    ensures |Rendered(lines[i], accounts)| == |accounts[lines[i].author].name| + |lines[i].text| + TIMESTAMP_SIZE + 3
    ensures RenderAll(ls[..done + 1], accounts) == RenderAll(ls[..done], accounts) + Rendered(lines[i], accounts)
    ensures done < k <==> |RenderAll(ls[..done + 1], accounts)| < room
  {
    NextLine(lines, channel, i);
    assert ls[done] == ls[done..][0] == lines[i] && ls[done + 1..] == ls[done..][1..];
    FitsNext(ls, accounts, done, room, k);
  }

  /** The second pass: stop at the first matching message that does not fit. */
  method Fill(list: array<char>, lines: seq<Line>, channel: string, accounts: map<string, Account>,
              ghost ls: seq<Line>, ghost k: nat)
    returns (offset: nat)
    requires ls == Matching(lines, channel) && Readable(ls, accounts)
    requires Longest(ls, accounts, list.Length, k)
    modifies list
    ensures offset == |RenderAll(ls[..k], accounts)| < list.Length
    ensures list[..offset] == RenderAll(ls[..k], accounts)
  {
    var size := list.Length;
    offset := 0;
    ghost var done := 0;
    assert lines[0..] == lines;
    var i := 0;
    while i < |lines|
      invariant i <= |lines| && done <= k
      invariant ls[done..] == Matching(lines[i..], channel)
      invariant offset == |RenderAll(ls[..done], accounts)| < size
      invariant list[..offset] == RenderAll(ls[..done], accounts)
    {
      NextLine(lines, channel, i);
      if lines[i].channel == channel {
        NextMatch(lines, channel, i, ls, done, accounts, size, k);
        if offset + |accounts[lines[i].author].name| + |lines[i].text| + TIMESTAMP_SIZE + 3 >= size {
          break;
        }
        offset := WriteLine(list, offset, lines[i], accounts);
        assert list[..offset] == RenderAll(ls[..done + 1], accounts);
        done := done + 1;
      }
      i := i + 1;
    }
    assert done == k;
  }

  /** `build_message_list`: never writes outside the buffer, although it was measured too small. */
  method BuildMessageList(lines: seq<Line>, channel: string, accounts: map<string, Account>) returns (list: array<char>)
    requires Readable(Matching(lines, channel), accounts)
    ensures var ls := Matching(lines, channel);
            && list.Length == Allotted(ls) + 1
            && |History(ls, accounts)| < list.Length
            && list[..|History(ls, accounts)|] == History(ls, accounts)
            && list[|History(ls, accounts)|] == NUL
    ensures var ls := Matching(lines, channel);
            Showable(ls, accounts) ==>
              Shows(Pieces(Text(list[..]), SEPARATORS), ls, accounts, Fitting(ls, accounts, list.Length))
  {
    var size := Measure(lines, channel);
    list := new char[size];
    ghost var ls := Matching(lines, channel);
    FittingIsLongest(ls, accounts, size);
    var offset := Fill(list, lines, channel, accounts, ls, Fitting(ls, accounts, size));
    list[offset] := NUL;
    if Showable(ls, accounts) {
      BufferShows(list[..], ls, accounts, Fitting(ls, accounts, size));
    }
  }

  lemma NextLine(lines: seq<Line>, channel: string, i: nat)
    requires i < |lines|
    ensures var more := if lines[i].channel == channel then [lines[i]] else [];
            && Matching(lines[..i + 1], channel) == Matching(lines[..i], channel) + more
            && Allotted(Matching(lines[..i + 1], channel)) == Allotted(Matching(lines[..i], channel)) + Allotted(more)
            && Matching(lines[i..], channel) == more + Matching(lines[i + 1..], channel)
  {
    assert lines[..i + 1] == lines[..i] + [lines[i]];
    MatchingSplit(lines[..i], [lines[i]], channel);
    AllottedSplit(Matching(lines[..i], channel), Matching([lines[i]], channel));
    assert lines[i..][1..] == lines[i + 1..];
  }

  // ---------------------------------------------------------------- forwarding

  datatype Delivery = Delivery(fd: int, body: string, ip: string)

  /** The positions of the live entries whose name is in the member list, in cache order. */
  function Recipients(cache: seq<Entry>, slots: seq<string>): (at: seq<nat>)
    ensures forall k :: 0 <= k < |at| ==> at[k] < |cache|
    ensures forall j, k :: 0 <= j < k < |at| ==> at[j] < at[k]
    ensures forall i :: 0 <= i < |cache| ==> (i in at <==> cache[i].name != "" && cache[i].name in slots)
  {
    if cache == [] then []
    else
      var n := |cache| - 1;
      var rest := Recipients(cache[..n], slots);
      if cache[n].name != "" && cache[n].name in slots then rest + [n] else rest
  }

  function Forwarded(e: Entry, text: string): Delivery {
    Delivery(e.fd, "200" + [ETX] + text, e.ip)
  }

  function Deliveries(cache: seq<Entry>, slots: seq<string>, text: string): seq<Delivery> {
    if cache == [] then []
    else
      var n := |cache| - 1;
      Deliveries(cache[..n], slots, text)
      + if cache[n].name != "" && cache[n].name in slots then [Forwarded(cache[n], text)] else []
  }

  /** Each delivery goes to the descriptor and address of its entry, with "200" and the original body. */
  ghost predicate Reaches(sent: seq<Delivery>, cache: seq<Entry>, at: seq<nat>, text: string) {
    && |sent| == |at|
    && forall k :: 0 <= k < |at| ==>
         && at[k] < |cache|
         && sent[k].fd == cache[at[k]].fd && sent[k].ip == cache[at[k]].ip
         && sent[k].body == "200" + [ETX] + text
  }

  /** One delivery with the original body per member entry, in cache order, and no other. */
  lemma {:induction false} DeliveriesReachMembers(cache: seq<Entry>, slots: seq<string>, text: string)
    ensures Reaches(Deliveries(cache, slots, text), cache, Recipients(cache, slots), text)
  {
    if cache != [] {
      var n := |cache| - 1;
      DeliveriesReachMembers(cache[..n], slots, text);
      var at, sent := Recipients(cache[..n], slots), Deliveries(cache[..n], slots, text);
      assert Reaches(sent, cache, at, text) by {
        assert forall k :: 0 <= k < |at| ==> cache[..n][at[k]] == cache[at[k]];
      }
      if cache[n].name != "" && cache[n].name in slots {
        assert Deliveries(cache, slots, text) == sent + [Forwarded(cache[n], text)];
        assert Recipients(cache, slots) == at + [n];
      }
    }
  }

  /** A client that splits a forwarded body of fields finds "200" and then those fields. */
  lemma ForwardedSplits(fs: seq<string>)
    requires AllFields(fs) && fs != []
    ensures Pieces("200" + [ETX] + Joined(fs), SEPARATORS) == ["200"] + fs
  {
    var all := ["200"] + fs;
    assert all[1..] == fs && AllFields(all);
    assert Joined(all) == "200" + [ETX] + Joined(fs);
    SplitJoined(all);
  }

  /** The forwarding loop of `handle_request`, which recounts the cache before every entry. */
  method Forward(cache: Cache, users: array<string>, text: string) returns (sent: seq<Delivery>)
    requires cache.Valid() && users.Length == LIST_SIZE
    ensures sent == Deliveries(cache.Contents(), users[..], text)
    ensures Reaches(sent, cache.Contents(), Recipients(cache.Contents(), users[..]), text)
  {
    sent := [];
    ghost var live := cache.Contents();
    LivePrefix(cache.slots[..]);
    var i := 0;
    var n := cache.Count();
    while i < n
      invariant n == |live| && i <= n
      invariant sent == Deliveries(live[..i], users[..], text)
    {
      assert live[..i + 1][..i] == live[..i] && live[i] == cache.slots[i];
      var member := InChannel(cache.slots[i].name, users);
      if member {
        sent := sent + [Forwarded(cache.slots[i], text)];
      }
      i := i + 1;
      n := cache.Count();
    }
    assert live[..i] == live;
    DeliveriesReachMembers(live, users[..], text);
  }
}
