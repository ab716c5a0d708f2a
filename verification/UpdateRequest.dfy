/**
 The update-channel request: the count-prefixed grammar that `read_and_update_channel` of
 src/server.c reads token by token, with its '1'/'3'/'2' fall-through, and a printer for it.
 */
module UpdateRequest {
  import opened CStrings
  import opened Records

  /** One "alter" group. Flag '1' adds, '2' removes, '3' does both; other flags carry no list. */
  datatype Alter = Alter(flag: char, add: seq<string>, remove: seq<string>)

  /** The group that changes nothing. */
  const QUIET := Alter('0', [], [])

  datatype Update = Update(
    channel: string, newName: Option<string>, newPublicity: Option<bool>,
    users: Alter, admins: Alter, banned: Alter)

  /** What is left after reading some tokens, or why reading stopped. */
  datatype Scan<+T> = Got(value: T, rest: seq<string>) | Malformed | TooLong

  predicate Adds(flag: char) { flag == '1' || flag == '3' }

  predicate Removes(flag: char) { flag == '2' || flag == '3' }

  // ---------------------------------------------------------------- numbers

  function SkipSpaces(s: string): string {
    if s != "" && IsSpace(s[0]) then SkipSpaces(s[1..]) else s
  }

  function LeadingDigits(s: string, acc: nat): nat {
    if s == "" || !IsDigit(s[0]) then acc
    else LeadingDigits(s[1..], 10 * acc + (s[0] as int - '0' as int))
  }

  const LONG_MAX := 0x7FFF_FFFF_FFFF_FFFF

  /** `strtol` in base 10 on a 64-bit long. */
  function StrToLong(s: string): int {
    var t := SkipSpaces(s);
    var negative := t != "" && t[0] == '-';
    var magnitude: int := LeadingDigits(if t != "" && t[0] in {'-', '+'} then t[1..] else t, 0);
    if negative then if magnitude > LONG_MAX then -LONG_MAX - 1 else -magnitude
    else if magnitude > LONG_MAX then LONG_MAX else magnitude
  }

  /** The conversion of a long to a 32-bit int. */
  function ToInt(v: int): int {
    (v + 0x8000_0000) % 0x1_0000_0000 - 0x8000_0000
  }

  function Digit(n: nat): char
    requires n < 10
  {
    '0' + n as char
  }

  function Decimal(n: nat): string {
    if n < 10 then [Digit(n)] else Decimal(n / 10) + [Digit(n % 10)]
  }

  lemma {:induction false} DigitsSplit(a: string, b: string, acc: nat)
    requires forall i :: 0 <= i < |a| ==> IsDigit(a[i])
    ensures LeadingDigits(a + b, acc) == LeadingDigits(b, LeadingDigits(a, acc))
  {
    if a == "" {
      assert a + b == b;
    } else {
      assert (a + b)[1..] == a[1..] + b;
      DigitsSplit(a[1..], b, 10 * acc + (a[0] as int - '0' as int));
    }
  }

  lemma {:induction false} DecimalDigits(n: nat)
    ensures Decimal(n) != "" && forall i :: 0 <= i < |Decimal(n)| ==> IsDigit(Decimal(n)[i])
    ensures LeadingDigits(Decimal(n), 0) == n
  {
    if n >= 10 {
      DecimalDigits(n / 10);
      DigitsSplit(Decimal(n / 10), [Digit(n % 10)], 0);
      assert LeadingDigits([Digit(n % 10)], n / 10) == LeadingDigits([Digit(n % 10)][1..], n);
    } else {
      assert LeadingDigits([Digit(n)], 0) == LeadingDigits([Digit(n)][1..], n);
    }
  }

  lemma CountRoundTrip(n: nat)
    requires n < 0x8000_0000
    ensures ToInt(StrToLong(Decimal(n))) == n
  {
    DecimalDigits(n);
    assert IsDigit(Decimal(n)[0]);
  }

  // ---------------------------------------------------------------- the grammar

  /** `n` tokens into a list of LIST_SIZE slots. */
  function TakeList(n: int, ps: seq<string>): Scan<seq<string>> {
    if n > LIST_SIZE && |ps| > LIST_SIZE then TooLong
    else if n > |ps| then Malformed
    else if n <= 0 then Got([], ps)
    else Got(ps[..n], ps[n..])
  }

  function CountedList(ps: seq<string>): Scan<seq<string>> {
    if ps == [] then Malformed else TakeList(ToInt(StrToLong(ps[0])), ps[1..])
  }

  function ListIf(present: bool, ps: seq<string>): Scan<seq<string>> {
    if present then CountedList(ps) else Got([], ps)
  }

  function ParseLists(flag: char, ps: seq<string>): Scan<Alter> {
    match ListIf(Adds(flag), ps)
    case Malformed => Malformed
    case TooLong => TooLong
    case Got(add, rest) =>
      match ListIf(Removes(flag), rest)
      case Malformed => Malformed
      case TooLong => TooLong
      case Got(remove, rest') => Got(Alter(flag, add, remove), rest')
  }

  function ParseAlter(ps: seq<string>): Scan<Alter> {
    if ps == [] || |ps[0]| > 1 then Malformed else ParseLists(At(ps[0], 0), ps[1..])
  }

  /** A flag "1" announces a value; any other flag stands alone. */
  function ParseOptional(ps: seq<string>): Scan<Option<string>> {
    if ps == [] then Malformed
    else if ps[0] != "1" then Got(None, ps[1..])
    else if |ps| == 1 then Malformed
    else Got(Some(ps[1]), ps[2..])
  }

  function ParseBanned(u: Update, ps: seq<string>): Scan<Update> {
    match ParseAlter(ps)
    case Malformed => Malformed
    case TooLong => TooLong
    case Got(banned, rest) => if rest != [] then Malformed else Got(u.(banned := banned), [])
  }

  function ParseAdmins(u: Update, ps: seq<string>): Scan<Update> {
    match ParseAlter(ps)
    case Malformed => Malformed
    case TooLong => TooLong
    case Got(admins, rest) => ParseBanned(u.(admins := admins), rest)
  }

  function ParseGroups(channel: string, newName: Option<string>, newPublicity: Option<bool>, ps: seq<string>)
    : Scan<Update>
  {
    match ParseAlter(ps)
    case Malformed => Malformed
    case TooLong => TooLong
    case Got(users, rest) => ParseAdmins(Update(channel, newName, newPublicity, users, QUIET, QUIET), rest)
  }

  function ParsePublicity(channel: string, newName: Option<string>, ps: seq<string>): Scan<Update> {
    match ParseOptional(ps)
    case Malformed => Malformed
    case TooLong => TooLong
    case Got(publicity, rest) =>
      ParseGroups(channel, newName, if publicity.Some? then Some(publicity.value == "1") else None, rest)
  }

  function ParseUpdate(ps: seq<string>): Scan<Update> {
    if ps == [] then Malformed
    else
      match ParseOptional(ps[1..])
      case Malformed => Malformed
      case TooLong => TooLong
      case Got(newName, rest) => ParsePublicity(ps[0], newName, rest)
  }

  // ---------------------------------------------------------------- the token loops

  /** The count token and the loop after it: one `strtok` per entry, checked before it is stored. */
  method ReadCounted(ps: seq<string>) returns (r: Scan<seq<string>>)
    ensures r == CountedList(ps)
  {
    if ps == [] {
      return Malformed;
    }
    var n := ToInt(StrToLong(ps[0]));
    ghost var tail := ps[1..];
    var list: seq<string> := [];
    var i := 0;
    while i < n
      invariant 0 <= i <= LIST_SIZE && i <= |tail| && (i <= n || i == 0)
      invariant list == tail[..i]
    {
      if 1 + i == |ps| {
        return Malformed;
      }
      if i == LIST_SIZE {
        return TooLong;
      }
      assert tail[..i + 1] == tail[..i] + [ps[1 + i]];
      list := list + [ps[1 + i]];
      i := i + 1;
    }
    assert tail[i..] == ps[1 + i..];
    return Got(list, ps[1 + i..]);
  }

  /** One `switch` over the flag: case '3' falls through from adding into removing. */
  method ReadAlter(ps: seq<string>) returns (r: Scan<Alter>)
    ensures r == ParseAlter(ps)
  {
    if ps == [] || |ps[0]| > 1 {
      return Malformed;
    }
    var flag := At(ps[0], 0);
    var rest := ps[1..];
    var add, remove: seq<string> := [], [];
    if flag == '1' || flag == '3' {
      var got := ReadCounted(rest);
      match got {
        case Malformed => return Malformed;
        case TooLong => return TooLong;
        case Got(list, after) => add, rest := list, after;
      }
    }
    if flag != '1' && (flag == '2' || flag == '3') {
      var got := ReadCounted(rest);
      match got {
        case Malformed => return Malformed;
        case TooLong => return TooLong;
        case Got(list, after) => remove, rest := list, after;
      }
    }
    return Got(Alter(flag, add, remove), rest);
  }

  /** The token sequence of `read_and_update_channel`, from the channel name to the end of the body. */
  method ReadUpdate(ps: seq<string>) returns (r: Scan<Update>)
    ensures r == ParseUpdate(ps)
  {
    if ps == [] {
      return Malformed;
    }
    var at := 1;
    var newName: Option<string> := None;
    if at == |ps| {
      return Malformed;
    }
    if ps[at] == "1" {
      at := at + 1;
      if at == |ps| {
        return Malformed;
      }
      newName := Some(ps[at]);
    }
    at := at + 1;
    assert ParseOptional(ps[1..]) == Got(newName, ps[at..]);
    ghost var second := ps[at..];
    var newPublicity: Option<bool> := None;
    if at == |ps| {
      return Malformed;
    }
    if ps[at] == "1" {
      at := at + 1;
      if at == |ps| {
        return Malformed;
      }
      newPublicity := Some(ps[at] == "1");
    }
    at := at + 1;
    assert ParseOptional(second).rest == ps[at..];
    r := ReadGroups(ps[0], newName, newPublicity, ps[at..]);
  }

  /** The three switches, and the check that no token is left. */
  method ReadGroups(channel: string, newName: Option<string>, newPublicity: Option<bool>, ps: seq<string>)
    returns (r: Scan<Update>)
    ensures r == ParseGroups(channel, newName, newPublicity, ps)
  {
    var users := ReadAlter(ps);
    if !users.Got? {
      return if users.Malformed? then Malformed else TooLong;
    }
    var admins := ReadAlter(users.rest);
    if !admins.Got? {
      return if admins.Malformed? then Malformed else TooLong;
    }
    var banned := ReadAlter(admins.rest);
    if !banned.Got? {
      return if banned.Malformed? then Malformed else TooLong;
    }
    if banned.rest != [] {
      return Malformed;
    }
    return Got(Update(channel, newName, newPublicity, users.value, admins.value, banned.value), []);
  }

  // ---------------------------------------------------------------- the printer

  predicate AlterOk(a: Alter) {
    && IsField([a.flag])
    && AllFields(a.add) && AllFields(a.remove)
    && |a.add| <= LIST_SIZE && |a.remove| <= LIST_SIZE
    && (a.add != [] ==> Adds(a.flag)) && (a.remove != [] ==> Removes(a.flag))
  }

  /** A request that the grammar can express. */
  predicate UpdateShape(u: Update) {
    && IsField(u.channel)
    && (u.newName.Some? ==> IsField(u.newName.value))
    && AlterOk(u.users) && AlterOk(u.admins) && AlterOk(u.banned)
  }

  predicate Short(names: seq<string>) {
    forall i :: 0 <= i < |names| ==> |names[i]| <= NAME_LIMIT
  }

  predicate AlterShort(a: Alter) {
    Short(a.add) && Short(a.remove)
  }

  /** A request whose names all fit their buffers. */
  predicate UpdateOk(u: Update) {
    && UpdateShape(u)
    && |u.channel| <= NAME_LIMIT
    && (u.newName.Some? ==> |u.newName.value| <= NAME_LIMIT)
    && AlterShort(u.users) && AlterShort(u.admins) && AlterShort(u.banned)
  }

  function PrintList(list: seq<string>): seq<string> {
    [Decimal(|list|)] + list
  }

  function PrintListIf(present: bool, list: seq<string>): seq<string> {
    if present then PrintList(list) else []
  }

  function PrintAlter(a: Alter): seq<string> {
    [[a.flag]] + (PrintListIf(Adds(a.flag), a.add) + PrintListIf(Removes(a.flag), a.remove))
  }

  function PrintOptional(o: Option<string>): seq<string> {
    if o.Some? then ["1", o.value] else ["0"]
  }

  function Bit(b: bool): string { if b then "1" else "0" }

  function PrintUpdate(u: Update): seq<string> {
    [u.channel]
    + (PrintOptional(u.newName)
       + (PrintOptional(if u.newPublicity.Some? then Some(Bit(u.newPublicity.value)) else None)
          + (PrintAlter(u.users) + (PrintAlter(u.admins) + (PrintAlter(u.banned) + [])))))
  }

  lemma ListRoundTrip(list: seq<string>, tail: seq<string>)
    requires |list| <= LIST_SIZE
    ensures CountedList(PrintList(list) + tail) == Got(list, tail)
  {
    CountRoundTrip(|list|);
    var ps := PrintList(list) + tail;
    assert ps[1..] == list + tail;
    assert (list + tail)[..|list|] == list && (list + tail)[|list|..] == tail;
  }

  lemma ListIfRoundTrip(present: bool, list: seq<string>, tail: seq<string>)
    requires |list| <= LIST_SIZE && (list != [] ==> present)
    ensures ListIf(present, PrintListIf(present, list) + tail) == Got(list, tail)
  {
    if present {
      ListRoundTrip(list, tail);
    } else {
      assert [] + tail == tail;
    }
  }

  lemma ListsRoundTrip(a: Alter, tail: seq<string>)
    requires AlterOk(a)
    ensures ParseLists(a.flag, PrintListIf(Adds(a.flag), a.add) + (PrintListIf(Removes(a.flag), a.remove) + tail))
         == Got(a, tail)
  {
    ListIfRoundTrip(Adds(a.flag), a.add, PrintListIf(Removes(a.flag), a.remove) + tail);
    ListIfRoundTrip(Removes(a.flag), a.remove, tail);
  }

  lemma Regroup(first: string, a: seq<string>, b: seq<string>, tail: seq<string>)
    ensures var ps := [first] + (a + b) + tail;
            ps[0] == first && ps[1..] == a + (b + tail)
  {
  }

  lemma AlterRoundTrip(a: Alter, tail: seq<string>)
    requires AlterOk(a)
    ensures ParseAlter(PrintAlter(a) + tail) == Got(a, tail)
  {
    Regroup([a.flag], PrintListIf(Adds(a.flag), a.add), PrintListIf(Removes(a.flag), a.remove), tail);
    ListsRoundTrip(a, tail);
  }

  lemma OptionalRoundTrip(o: Option<string>, tail: seq<string>)
    ensures ParseOptional(PrintOptional(o) + tail) == Got(o, tail)
  {
    var ps := PrintOptional(o) + tail;
    assert if o.Some? then ps[2..] == tail else ps[1..] == tail;
  }

  lemma GroupsRoundTrip(u: Update)
    requires UpdateShape(u)
    ensures ParseGroups(u.channel, u.newName, u.newPublicity,
                        PrintAlter(u.users) + (PrintAlter(u.admins) + (PrintAlter(u.banned) + []))) == Got(u, [])
  {
    AlterRoundTrip(u.banned, []);
    AlterRoundTrip(u.admins, PrintAlter(u.banned) + []);
    AlterRoundTrip(u.users, PrintAlter(u.admins) + (PrintAlter(u.banned) + []));
  }

  lemma TokensRoundTrip(u: Update)
    requires UpdateShape(u)
    ensures ParseUpdate(PrintUpdate(u)) == Got(u, [])
  {
    var groups := PrintAlter(u.users) + (PrintAlter(u.admins) + (PrintAlter(u.banned) + []));
    var bit := if u.newPublicity.Some? then Some(Bit(u.newPublicity.value)) else None;
    GroupsRoundTrip(u);
    OptionalRoundTrip(bit, groups);
    OptionalRoundTrip(u.newName, PrintOptional(bit) + groups);
    assert PrintUpdate(u)[1..] == PrintOptional(u.newName) + (PrintOptional(bit) + groups);
  }

  lemma ListFields(list: seq<string>)
    requires AllFields(list)
    ensures AllFields(PrintList(list))
  {
    DecimalDigits(|list|);
    assert IsField(Decimal(|list|));
  }

  lemma FieldsConcat(a: seq<string>, b: seq<string>)
    requires AllFields(a) && AllFields(b)
    ensures AllFields(a + b)
  {
  }

  lemma AlterFields(a: Alter)
    requires AlterOk(a)
    ensures AllFields(PrintAlter(a))
  {
    ListFields(a.add);
    ListFields(a.remove);
    FieldsConcat(PrintListIf(Adds(a.flag), a.add), PrintListIf(Removes(a.flag), a.remove));
    FieldsConcat([[a.flag]], PrintListIf(Adds(a.flag), a.add) + PrintListIf(Removes(a.flag), a.remove));
  }

  lemma PrintedFields(u: Update)
    requires UpdateShape(u)
    ensures AllFields(PrintUpdate(u))
  {
    AlterFields(u.users);
    AlterFields(u.admins);
    AlterFields(u.banned);
    var bit := PrintOptional(if u.newPublicity.Some? then Some(Bit(u.newPublicity.value)) else None);
    var banned := PrintAlter(u.banned) + [];
    FieldsConcat(PrintAlter(u.banned), []);
    FieldsConcat(PrintAlter(u.admins), banned);
    FieldsConcat(PrintAlter(u.users), PrintAlter(u.admins) + banned);
    var groups := PrintAlter(u.users) + (PrintAlter(u.admins) + banned);
    FieldsConcat(bit, groups);
    FieldsConcat(PrintOptional(u.newName), bit + groups);
    FieldsConcat([u.channel], PrintOptional(u.newName) + (bit + groups));
  }

  /** Every request whose names fit their buffers and whose text fits a body is read back from it unchanged. */
  lemma UpdateRoundTrip(u: Update)
    requires UpdateOk(u) && |Joined(PrintUpdate(u))| < DEFAULT_BUFFER
    ensures ReadBody(Joined(PrintUpdate(u))) == Fields(PrintUpdate(u))
    ensures ParseUpdate(PrintUpdate(u)) == Got(u, [])
  {
    PrintedFields(u);
    BodyRoundTrip(PrintUpdate(u));
    TokensRoundTrip(u);
  }

  lemma TakenFields(n: int, ps: seq<string>)
    requires AllFields(ps) && TakeList(n, ps).Got?
    ensures AllFields(TakeList(n, ps).value) && |TakeList(n, ps).value| <= LIST_SIZE && AllFields(TakeList(n, ps).rest)
    ensures Short(ps) ==> Short(TakeList(n, ps).value) && Short(TakeList(n, ps).rest)
  {
  }

  lemma ListIfFields(present: bool, ps: seq<string>)
    requires AllFields(ps) && ListIf(present, ps).Got?
    ensures var r := ListIf(present, ps);
            && AllFields(r.value) && |r.value| <= LIST_SIZE && AllFields(r.rest) && (r.value != [] ==> present)
            && (Short(ps) ==> Short(r.value) && Short(r.rest))
  {
    if present {
      TakenFields(ToInt(StrToLong(ps[0])), ps[1..]);
    }
  }

  lemma ParsedAlterOk(ps: seq<string>)
    requires AllFields(ps) && ParseAlter(ps).Got?
    ensures AlterOk(ParseAlter(ps).value) && AllFields(ParseAlter(ps).rest)
    ensures Short(ps) ==> AlterShort(ParseAlter(ps).value) && Short(ParseAlter(ps).rest)
  {
    var flag := At(ps[0], 0);
    assert IsField(ps[0]) && ps[0] == [flag];
    ListIfFields(Adds(flag), ps[1..]);
    ListIfFields(Removes(flag), ListIf(Adds(flag), ps[1..]).rest);
  }

  lemma OptionalFields(ps: seq<string>)
    requires AllFields(ps) && ParseOptional(ps).Got?
    ensures AllFields(ParseOptional(ps).rest) && (Short(ps) ==> Short(ParseOptional(ps).rest))
    ensures ParseOptional(ps).value.Some? ==>
              var value := ParseOptional(ps).value.value;
              IsField(value) && (Short(ps) ==> |value| <= NAME_LIMIT)
  {
  }

  /**
   Conversely, whatever is accepted is a request the printer can say, and says the same; if all its
   tokens are short, its names fit their buffers.
   */
  lemma ParsedUpdateOk(ps: seq<string>)
    requires AllFields(ps) && ParseUpdate(ps).Got?
    ensures UpdateShape(ParseUpdate(ps).value)
    ensures Short(ps) ==> UpdateOk(ParseUpdate(ps).value)
    ensures ParseUpdate(PrintUpdate(ParseUpdate(ps).value)) == ParseUpdate(ps)
  {
    var rest := ParseOptional(ps[1..]).rest;
    var groups := ParseOptional(rest).rest;
    OptionalFields(ps[1..]);
    OptionalFields(rest);
    ParsedAlterOk(groups);
    ParsedAlterOk(ParseAlter(groups).rest);
    ParsedAlterOk(ParseAlter(ParseAlter(groups).rest).rest);
    TokensRoundTrip(ParseUpdate(ps).value);
  }

  // ---------------------------------------------------------------- the grammar on literal tokens

  lemma {:induction false} JoinedBound(fs: seq<string>)
    requires Short(fs)
    ensures |Joined(fs)| <= 21 * |fs|
  {
    if |fs| > 1 {
      assert Short(fs[1..]);
      JoinedBound(fs[1..]);
    }
  }

  /** Decimal numerals, digit by digit. */
  lemma DecimalNumerals(n: nat, d: nat)
    requires d < 10
    ensures Decimal(d) == ["0123456789"[d]]
    ensures n > 0 ==> Decimal(10 * n + d) == Decimal(n) + ["0123456789"[d]]
  {
    assert Digit(d) == "0123456789"[d];
  }

  /** The conversion to int keeps the value modulo 2^32 and lands in the range of an int. */
  lemma ToIntWraps(v: int)
    ensures -0x8000_0000 <= ToInt(v) < 0x8000_0000 && (v - ToInt(v)) % 0x1_0000_0000 == 0
    ensures -0x8000_0000 <= v < 0x8000_0000 ==> ToInt(v) == v
  {
  }

  lemma LeadingDecimal(n: nat, tail: string)
    requires tail == "" || !IsDigit(tail[0])
    ensures LeadingDigits(Decimal(n) + tail, 0) == n
    ensures Decimal(n) + tail != "" && IsDigit((Decimal(n) + tail)[0])
  {
    DecimalDigits(n);
    DigitsSplit(Decimal(n), tail, 0);
    assert (Decimal(n) + tail)[0] == Decimal(n)[0];
  }

  lemma SignedNumeral(digits: string)
    requires digits != "" && IsDigit(digits[0])
    ensures var n := LeadingDigits(digits, 0);
            && StrToLong(digits) == (if n <= 0x7FFF_FFFF_FFFF_FFFF then n else 0x7FFF_FFFF_FFFF_FFFF)
            && StrToLong(['+'] + digits) == StrToLong(digits)
            && StrToLong(['-'] + digits) ==
               0 - (if n <= 0x8000_0000_0000_0000 then n else 0x8000_0000_0000_0000)
  {
    assert (['+'] + digits)[1..] == digits && (['-'] + digits)[1..] == digits;
  }

  /** `strtol`: a sign, a numeral, and anything after it; saturating at 64 bits. */
  lemma StrToLongReads(n: int, tail: string)
    requires 0 <= n
    requires tail == "" || !IsDigit(tail[0])
    ensures var s := Decimal(n) + tail;
            && StrToLong(s) == (if n <= 0x7FFF_FFFF_FFFF_FFFF then n else 0x7FFF_FFFF_FFFF_FFFF)
            && StrToLong(['+'] + s) == StrToLong(s)
            && StrToLong(['-'] + s) == if n <= 0x8000_0000_0000_0000 then -n else -0x8000_0000_0000_0000
  {
    LeadingDecimal(n, tail);
    SignedNumeral(Decimal(n) + tail);
  }

  /** White space in front is skipped; text without a numeral counts as 0. */
  lemma StrToLongSkips(c: char, s: string)
    ensures IsSpace(c) ==> StrToLong([c] + s) == StrToLong(s)
    ensures s == "" || !(IsDigit(s[0]) || IsSpace(s[0]) || s[0] in {'+', '-'}) ==> StrToLong(s) == 0
  {
    assert ([c] + s)[1..] == s;
  }

  lemma NegativeCount(n: int)
    requires 0 <= n < 0x8000_0000
    ensures ToInt(StrToLong("-" + Decimal(n))) == -n
  {
    StrToLongReads(n, "");
    assert ['-'] + (Decimal(n) + "") == "-" + Decimal(n);
    ToIntWraps(-n);
  }

  lemma TakenByCount(n: int, ps: seq<string>)
    ensures TakeList(n, ps) ==
            if n <= 0 then Got([], ps)
            else if n <= 64 && n <= |ps| then Got(ps[..n], ps[n..])
            else if n > 64 && |ps| > 64 then TooLong
            else Malformed
  {
  }

  lemma CountedBy(count: string, ps: seq<string>)
    ensures CountedList([count] + ps) == TakeList(ToInt(StrToLong(count)), ps)
  {
    assert ([count] + ps)[1..] == ps;
  }

  /** A counted list: as many tokens as the count says, at most 64; a negative count reads none. */
  lemma CountedReads(n: int, ps: seq<string>)
    requires 0 <= n < 0x8000_0000
    ensures CountedList([Decimal(n)] + ps) ==
            if n <= 64 && n <= |ps| then Got(ps[..n], ps[n..]) else if n > 64 && |ps| > 64 then TooLong else Malformed
    ensures CountedList(["-" + Decimal(n)] + ps) == Got([], ps)
  {
    CountRoundTrip(n);
    NegativeCount(n);
    CountedBy(Decimal(n), ps);
    CountedBy("-" + Decimal(n), ps);
    TakenByCount(n, ps);
    TakenByCount(-n, ps);
  }

  lemma QuietGroup(tail: seq<string>)
    ensures ParseAlter(["0"] + tail) == Got(Alter('0', [], []), tail)
  {
    assert (["0"] + tail)[1..] == tail;
  }

  lemma Behind(first: string, count: string, list: seq<string>, tail: seq<string>)
    ensures var ps := [first, count] + list + tail;
            ps[0] == first && ps[1..] == [count] + list + tail
  {
  }

  lemma AddGroup(a: seq<string>, tail: seq<string>)
    requires |a| <= 64
    ensures ParseAlter(["1", Decimal(|a|)] + a + tail) == Got(Alter('1', a, []), tail)
  {
    Behind("1", Decimal(|a|), a, tail);
    ListRoundTrip(a, tail);
    assert ParseLists('1', PrintList(a) + tail) == Got(Alter('1', a, []), tail);
  }

  lemma RemoveGroup(r: seq<string>, tail: seq<string>)
    requires |r| <= 64
    ensures ParseAlter(["2", Decimal(|r|)] + r + tail) == Got(Alter('2', [], r), tail)
  {
    Behind("2", Decimal(|r|), r, tail);
    ListRoundTrip(r, tail);
    assert ParseLists('2', PrintList(r) + tail) == Got(Alter('2', [], r), tail);
  }

  lemma TwoLists(a: seq<string>, r: seq<string>, tail: seq<string>)
    requires |a| <= 64 && |r| <= 64
    ensures ParseLists('3', PrintList(a) + (PrintList(r) + tail)) == Got(Alter('3', a, r), tail)
  {
    ListRoundTrip(a, PrintList(r) + tail);
    ListRoundTrip(r, tail);
  }

  /** Flag '3' reads an add list and falls through to a remove list. */
  lemma AddRemoveGroup(a: seq<string>, r: seq<string>, tail: seq<string>)
    requires |a| <= 64 && |r| <= 64
    ensures ParseAlter(["3", Decimal(|a|)] + a + [Decimal(|r|)] + r + tail) == Got(Alter('3', a, r), tail)
  {
    var rest := PrintList(r) + tail;
    assert ["3", Decimal(|a|)] + a + [Decimal(|r|)] + r + tail == ["3", Decimal(|a|)] + a + rest;
    Behind("3", Decimal(|a|), a, rest);
    TwoLists(a, r, tail);
  }

  /** Any other single character reads no list; a longer flag is malformed. */
  lemma OtherFlags(flag: string, tail: seq<string>)
    requires flag !in {"", "1", "2", "3"}
    ensures ParseAlter([flag] + tail) == if |flag| > 1 then Malformed else Got(Alter(flag[0], [], []), tail)
  {
    assert ([flag] + tail)[1..] == tail;
    assert flag == [flag[0]] || |flag| > 1;
  }

  /** A group that adds and removes. */
  function BothLists(a: seq<string>, r: seq<string>): seq<string> {
    ["3", Decimal(|a|)] + a + [Decimal(|r|)] + r
  }

  lemma ThreeGroups(u: Update, g: seq<string>, h: seq<string>, k: seq<string>)
    requires ParseAlter(g + (h + k)) == Got(u.users, h + k)
    requires ParseAlter(h + k) == Got(u.admins, k) && ParseAlter(k) == Got(u.banned, [])
    ensures ParseGroups(u.channel, u.newName, u.newPublicity, g + (h + k)) == Got(u, [])
  {
  }

  /** A request with all six lists: users first, then administrators, then banned users. */
  lemma SixLists(u: Update)
    requires u.newName.None? && u.newPublicity.None?
    requires u.users.flag == u.admins.flag == u.banned.flag == '3'
    requires |u.users.add| <= 64 && |u.users.remove| <= 64 && |u.admins.add| <= 64 && |u.admins.remove| <= 64
    requires |u.banned.add| <= 64 && |u.banned.remove| <= 64
    ensures ParseUpdate([u.channel, "0", "0"] + (BothLists(u.users.add, u.users.remove)
                        + (BothLists(u.admins.add, u.admins.remove) + BothLists(u.banned.add, u.banned.remove))))
         == Got(u, [])
  {
    var g := BothLists(u.users.add, u.users.remove);
    var h := BothLists(u.admins.add, u.admins.remove);
    var k := BothLists(u.banned.add, u.banned.remove);
    NoRename(u.channel, g + (h + k));
    AddRemoveGroup(u.users.add, u.users.remove, h + k);
    AddRemoveGroup(u.admins.add, u.admins.remove, k);
    AddRemoveGroup(u.banned.add, u.banned.remove, []);
    assert k + [] == k;
    ThreeGroups(u, g, h, k);
  }

  lemma TwoQuietGroups(channel: string, newName: Option<string>, newPublicity: Option<bool>,
                       users: Alter, ps: seq<string>)
    requires ParseAlter(ps) == Got(users, ["0", "0"])
    ensures ParseGroups(channel, newName, newPublicity, ps)
         == Got(Update(channel, newName, newPublicity, users, QUIET, QUIET), [])
  {
    QuietGroup(["0"]);
    QuietGroup([]);
    assert ["0"] + ["0"] == ["0", "0"] && ["0"] + [] == ["0"];
  }

  lemma NoRename(channel: string, group: seq<string>)
    ensures ParseUpdate([channel, "0", "0"] + group) == ParseGroups(channel, None, None, group)
  {
    var ps := [channel, "0", "0"] + group;
    assert ps[1..] == ["0", "0"] + group && (["0", "0"] + group)[1..] == ["0"] + group && (["0"] + group)[1..] == group;
  }

  lemma AddTokensRegroup(channel: string, count: string, a: seq<string>)
    ensures [channel, "0", "0", "1", count] + a + ["0", "0"] == [channel, "0", "0"] + (["1", count] + a + ["0", "0"])
  {
  }

  /** A request that only adds users. */
  lemma AddTokens(channel: string, a: seq<string>)
    requires |a| <= 64
    ensures ParseUpdate([channel, "0", "0", "1", Decimal(|a|)] + a + ["0", "0"])
         == Got(Update(channel, None, None, Alter('1', a, []), QUIET, QUIET), [])
  {
    AddTokensRegroup(channel, Decimal(|a|), a);
    var group := ["1", Decimal(|a|)] + a + ["0", "0"];
    NoRename(channel, group);
    var update := Update(channel, None, None, Alter('1', a, []), QUIET, QUIET);
    assert ParseGroups(channel, None, None, group) == Got(update, []) by {
      AddGroup(a, ["0", "0"]);
      TwoQuietGroups(channel, None, None, Alter('1', a, []), group);
    }
  }

  /** A request that only renames, and sets the publicity or leaves it out. */
  lemma RenameTokens(channel: string, name: string, bit: string)
    ensures ParseUpdate([channel, "1", name, "0", "0", "0", "0"])
         == Got(Update(channel, Some(name), None, QUIET, QUIET, QUIET), [])
    ensures ParseUpdate([channel, "1", name, "1", bit, "0", "0", "0"])
         == Got(Update(channel, Some(name), Some(bit == "1"), QUIET, QUIET, QUIET), [])
    ensures ParseUpdate([channel, "0", "1", bit, "0", "0", "0"])
         == Got(Update(channel, None, Some(bit == "1"), QUIET, QUIET, QUIET), [])
  {
    QuietGroup(["0", "0"]);
    assert ["0"] + ["0", "0"] == ["0", "0", "0"];
    TwoQuietGroups(channel, Some(name), None, QUIET, ["0", "0", "0"]);
    TwoQuietGroups(channel, Some(name), Some(bit == "1"), QUIET, ["0", "0", "0"]);
    TwoQuietGroups(channel, None, Some(bit == "1"), QUIET, ["0", "0", "0"]);
    var a := [channel, "1", name, "0", "0", "0", "0"];
    assert a[1..][2..] == ["0", "0", "0", "0"] && a[1..][2..][1..] == ["0", "0", "0"];
    var b := [channel, "1", name, "1", bit, "0", "0", "0"];
    assert b[1..][2..] == ["1", bit, "0", "0", "0"] && b[1..][2..][2..] == ["0", "0", "0"];
    var c := [channel, "0", "1", bit, "0", "0", "0"];
    assert c[1..][1..] == ["1", bit, "0", "0", "0"] && c[1..][1..][2..] == ["0", "0", "0"];
  }

  lemma RenameFields(channel: string, name: string, bit: string)
    requires IsField(channel) && |channel| <= 20 && IsField(name) && |name| <= 20 && IsField(bit) && |bit| <= 20
    ensures AllFields([channel, "1", name, "1", bit, "0", "0", "0"])
    ensures Short([channel, "1", name, "1", bit, "0", "0", "0"])
    ensures AllFields([channel, "1", name, "0", "0", "0", "0"]) && Short([channel, "1", name, "0", "0", "0", "0"])
    ensures AllFields([channel, "0", "1", bit, "0", "0", "0"]) && Short([channel, "0", "1", bit, "0", "0", "0"])
  {
  }

  // ---------------------------------------------------------------- nothing missing, nothing left

  lemma ListPrefix(present: bool, ps: seq<string>, k: nat)
    requires ListIf(present, ps).Got? && k <= |ps|
    ensures |ListIf(present, ps).rest| <= |ps|
    ensures var used := |ps| - |ListIf(present, ps).rest|;
            ListIf(present, ps[..k]) ==
            if k < used then Malformed else Got(ListIf(present, ps).value, ListIf(present, ps).rest[..k - used])
  {
    if present && k > 0 {
      assert ps[..k][1..] == ps[1..][..k - 1];
      var n := ToInt(StrToLong(ps[0]));
      if 0 < n < k {
        assert ps[1..][..k - 1][..n] == ps[1..][..n] && ps[1..][..k - 1][n..] == ps[1..][n..][..k - 1 - n];
      }
    }
  }

  lemma ListsPrefix(flag: char, ps: seq<string>, k: nat)
    requires ParseLists(flag, ps).Got? && k <= |ps|
    ensures |ParseLists(flag, ps).rest| <= |ps|
    ensures var used := |ps| - |ParseLists(flag, ps).rest|;
            ParseLists(flag, ps[..k]) ==
            if k < used then Malformed else Got(ParseLists(flag, ps).value, ParseLists(flag, ps).rest[..k - used])
  {
    var added := ListIf(Adds(flag), ps);
    var removed := ListIf(Removes(flag), added.rest);
    ListPrefix(Adds(flag), ps, k);
    ListPrefix(Removes(flag), added.rest, |added.rest|);
    var used := |ps| - |added.rest|;
    if used <= k {
      assert ListIf(Adds(flag), ps[..k]) == Got(added.value, added.rest[..k - used]);
      ListPrefix(Removes(flag), added.rest, k - used);
      var more := |added.rest| - |removed.rest|;
      if more <= k - used {
        assert ListIf(Removes(flag), added.rest[..k - used]) == Got(removed.value, removed.rest[..k - used - more]);
      }
    }
  }

  lemma AlterPrefix(ps: seq<string>, k: nat)
    requires ParseAlter(ps).Got? && k <= |ps|
    ensures |ParseAlter(ps).rest| < |ps|
    ensures var used := |ps| - |ParseAlter(ps).rest|;
            ParseAlter(ps[..k]) ==
            if k < used then Malformed else Got(ParseAlter(ps).value, ParseAlter(ps).rest[..k - used])
  {
    var flag := At(ps[0], 0);
    ListsPrefix(flag, ps[1..], if k > 0 then k - 1 else 0);
    assert k > 0 ==> ps[..k][1..] == ps[1..][..k - 1];
  }

  lemma BannedPrefix(u: Update, ps: seq<string>, k: nat)
    requires ParseBanned(u, ps).Got? && k < |ps|
    ensures ParseBanned(u, ps[..k]) == Malformed
  {
    AlterPrefix(ps, k);
  }

  lemma AdminsPrefix(u: Update, ps: seq<string>, k: nat)
    requires ParseAdmins(u, ps).Got? && k < |ps|
    ensures ParseAdmins(u, ps[..k]) == Malformed
  {
    var first := ParseAlter(ps);
    AlterPrefix(ps, k);
    var used := |ps| - |first.rest|;
    if used <= k {
      BannedPrefix(u.(admins := first.value), first.rest, k - used);
    }
  }

  lemma GroupsPrefix(channel: string, newName: Option<string>, newPublicity: Option<bool>, ps: seq<string>, k: nat)
    requires ParseGroups(channel, newName, newPublicity, ps).Got? && k < |ps|
    ensures ParseGroups(channel, newName, newPublicity, ps[..k]) == Malformed
  {
    var first := ParseAlter(ps);
    AlterPrefix(ps, k);
    var used := |ps| - |first.rest|;
    if used <= k {
      AdminsPrefix(Update(channel, newName, newPublicity, first.value, QUIET, QUIET), first.rest, k - used);
    }
  }

  lemma OptionalPrefix(ps: seq<string>, k: nat)
    requires ParseOptional(ps).Got? && k <= |ps|
    ensures |ParseOptional(ps).rest| < |ps|
    ensures var used := |ps| - |ParseOptional(ps).rest|;
            ParseOptional(ps[..k]) ==
            if k < used then Malformed else Got(ParseOptional(ps).value, ParseOptional(ps).rest[..k - used])
  {
    if k > 1 {
      assert ps[..k][2..] == ps[2..][..k - 2];
    }
    if k > 0 {
      assert ps[..k][1..] == ps[1..][..k - 1];
    }
  }

  lemma PublicityPrefix(channel: string, newName: Option<string>, ps: seq<string>, k: nat)
    requires ParsePublicity(channel, newName, ps).Got? && k < |ps|
    ensures ParsePublicity(channel, newName, ps[..k]) == Malformed
  {
    var first := ParseOptional(ps);
    OptionalPrefix(ps, k);
    var used := |ps| - |first.rest|;
    if used <= k {
      var bit := if first.value.Some? then Some(first.value.value == "1") else None;
      GroupsPrefix(channel, newName, bit, first.rest, k - used);
    }
  }

  /** A request cut short anywhere is malformed. */
  lemma TruncatedIsMalformed(ps: seq<string>, k: nat)
    requires ParseUpdate(ps).Got? && k < |ps|
    ensures ParseUpdate(ps[..k]) == Malformed
  {
    if k > 0 {
      var first := ParseOptional(ps[1..]);
      assert ps[..k][1..] == ps[1..][..k - 1];
      OptionalPrefix(ps[1..], k - 1);
      var used := |ps| - 1 - |first.rest|;
      if used <= k - 1 {
        PublicityPrefix(ps[0], first.value, first.rest, k - 1 - used);
      }
    }
  }

  /** And so is a request with tokens left over. */
  lemma LeftoverIsMalformed(ps: seq<string>, more: seq<string>)
    requires ParseUpdate(ps).Got? && more != []
    ensures !ParseUpdate(ps + more).Got?
  {
    assert (ps + more)[..|ps|] == ps;
    if ParseUpdate(ps + more).Got? {
      TruncatedIsMalformed(ps + more, |ps|);
    }
  }
}
