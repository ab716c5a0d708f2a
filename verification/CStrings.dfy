/**
 C strings as the server handles them: `strtok` splitting, the fixed-size body buffer, and the
 string utilities of src/util.c. A C string is a `string` without NUL.
 */
module CStrings {

  datatype Option<+T> = None | Some(value: T) {
    function GetOr(default: T): T {
      if Some? then value else default
    }
  }

  const NUL: char := '\0'
  const ETX: char := '\U{0003}'
  const SEPARATORS: set<char> := {ETX}
  const DEFAULT_BUFFER := 1024
  const DEFAULT_ARGS := 10

  predicate Free(s: string, d: set<char>) {
    forall i :: 0 <= i < |s| ==> s[i] !in d
  }

  /** A field that survives a trip through an ETX-separated body. */
  predicate IsField(s: string) {
    s != "" && Free(s, {NUL, ETX})
  }

  predicate AllFields(fs: seq<string>) {
    forall i :: 0 <= i < |fs| ==> IsField(fs[i])
  }

  // ---------------------------------------------------------------- strtok

  /** Length of the longest delimiter-free prefix. */
  function Span(s: string, d: set<char>): (n: nat)
    ensures n <= |s|
    ensures Free(s[..n], d)
    ensures n < |s| ==> s[n] in d
  {
    if s == "" || s[0] in d then 0
    else
      var n := Span(s[1..], d);
      assert s[..n + 1] == [s[0]] + s[1..][..n];
      n + 1
  }

  /** The tokens that repeated `strtok` calls deliver: maximal delimiter-free runs. */
  function Pieces(s: string, d: set<char>): seq<string>
    decreases |s|
  {
    if s == "" then []
    else if s[0] in d then Pieces(s[1..], d)
    else [s[..Span(s, d)]] + Pieces(s[Span(s, d)..], d)
  }

  /** `s` without its delimiters. */
  function Without(s: string, d: set<char>): string {
    if s == "" then ""
    else (if s[0] in d then "" else [s[0]]) + Without(s[1..], d)
  }

  function Concat(ps: seq<string>): string {
    if ps == [] then "" else ps[0] + Concat(ps[1..])
  }

  lemma {:induction false} WithoutSplits(a: string, b: string, d: set<char>)
    ensures Without(a + b, d) == Without(a, d) + Without(b, d)
  {
    if a == "" {
      assert a + b == b;
    } else {
      assert (a + b)[1..] == a[1..] + b;
      WithoutSplits(a[1..], b, d);
    }
  }

  lemma {:induction false} WithoutFree(s: string, d: set<char>)
    requires Free(s, d)
    ensures Without(s, d) == s
  {
    if s != "" {
      WithoutFree(s[1..], d);
      assert s == [s[0]] + s[1..];
    }
  }

  /** Every piece is non-empty and delimiter-free, and no other character is lost or reordered. */
  lemma {:induction false} PiecesConserve(s: string, d: set<char>)
    ensures forall i :: 0 <= i < |Pieces(s, d)| ==> Pieces(s, d)[i] != "" && Free(Pieces(s, d)[i], d)
    ensures Concat(Pieces(s, d)) == Without(s, d)
    decreases |s|
  {
    if s == "" {
    } else if s[0] in d {
      PiecesConserve(s[1..], d);
    } else {
      var n := Span(s, d);
      PiecesConserve(s[n..], d);
      assert s == s[..n] + s[n..];
      WithoutSplits(s[..n], s[n..], d);
      WithoutFree(s[..n], d);
      var rest := Pieces(s[n..], d);
      assert Pieces(s, d) == [s[..n]] + rest;
      assert Pieces(s, d)[1..] == rest;
    }
  }

  lemma {:induction false} SpanOf(f: string, rest: string, d: set<char>)
    requires Free(f, d)
    requires rest == "" || rest[0] in d
    ensures Span(f + rest, d) == |f|
  {
    if f == "" {
      assert f + rest == rest;
    } else {
      assert (f + rest)[1..] == f[1..] + rest;
      SpanOf(f[1..], rest, d);
    }
  }

  lemma FirstPiece(f: string, rest: string, d: set<char>)
    requires f != "" && Free(f, d)
    requires rest == "" || rest[0] in d
    ensures Pieces(f + rest, d) == [f] + Pieces(rest, d)
  {
    SpanOf(f, rest, d);
    assert (f + rest)[..|f|] == f;
    assert (f + rest)[|f|..] == rest;
    assert (f + rest)[0] == f[0];
  }

  /** Every field followed by ETX. */
  function Terminated(fs: seq<string>): string {
    if fs == [] then "" else fs[0] + [ETX] + Terminated(fs[1..])
  }

  /** Fields separated by ETX, as a client writes a body. */
  function Joined(fs: seq<string>): string {
    if fs == [] then "" else if |fs| == 1 then fs[0] else fs[0] + ([ETX] + Joined(fs[1..]))
  }

  lemma {:induction false} TerminatedSize(fs: seq<string>)
    ensures |Terminated(fs)| == |Concat(fs)| + |fs|
  {
    if fs != [] {
      TerminatedSize(fs[1..]);
    }
  }

  lemma {:induction false} JoinedWidth(fs: seq<string>)
    requires fs != []
    ensures |Joined(fs)| == |Concat(fs)| + |fs| - 1
  {
    if |fs| == 1 {
      assert Concat(fs) == fs[0] + Concat(fs[1..]) && Concat(fs[1..]) == "";
    } else {
      JoinedWidth(fs[1..]);
    }
  }

  lemma {:induction false} SplitTerminated(fs: seq<string>)
    ensures Pieces(Terminated(fs), SEPARATORS) == fs <==> forall i :: 0 <= i < |fs| ==> fs[i] != "" && ETX !in fs[i]
  {
    if forall i :: 0 <= i < |fs| ==> fs[i] != "" && ETX !in fs[i] {
      if fs != [] {
        SplitTerminated(fs[1..]);
        assert Terminated(fs) == fs[0] + ([ETX] + Terminated(fs[1..]));
        FirstPiece(fs[0], [ETX] + Terminated(fs[1..]), SEPARATORS);
        assert ([ETX] + Terminated(fs[1..]))[1..] == Terminated(fs[1..]);
      }
    } else {
      PiecesConserve(Terminated(fs), SEPARATORS);
    }
  }

  lemma {:induction false} SplitJoined(fs: seq<string>)
    requires AllFields(fs)
    ensures Pieces(Joined(fs), SEPARATORS) == fs
  {
    if |fs| == 1 {
      FirstPiece(fs[0], "", SEPARATORS);
      assert fs[0] + "" == fs[0];
    } else if |fs| > 1 {
      assert AllFields(fs[1..]);
      SplitJoined(fs[1..]);
      FirstPiece(fs[0], [ETX] + Joined(fs[1..]), SEPARATORS);
      assert ([ETX] + Joined(fs[1..]))[1..] == Joined(fs[1..]);
    }
  }

  lemma SkipOne(s: string, d: set<char>, i: nat)
    requires i < |s| && s[i] in d
    ensures Pieces(s[i..], d) == Pieces(s[i + 1..], d)
  {
    assert s[i..][1..] == s[i + 1..];
  }

  method SkipDelimiters(s: string, d: set<char>, from: nat) returns (start: nat)
    requires from <= |s|
    ensures from <= start <= |s| && (start < |s| ==> s[start] !in d)
    ensures Pieces(s[from..], d) == Pieces(s[start..], d)
  {
    start := from;
    while start < |s| && s[start] in d
      invariant from <= start <= |s|
      invariant Pieces(s[from..], d) == Pieces(s[start..], d)
    {
      SkipOne(s, d, start);
      start := start + 1;
    }
  }

  method EndOfToken(s: string, d: set<char>, start: nat) returns (end: nat)
    requires start < |s| && s[start] !in d
    ensures start < end <= |s| && (end < |s| ==> s[end] in d)
    ensures Pieces(s[start..], d) == [s[start..end]] + Pieces(s[end..], d)
  {
    end := start;
    while end < |s| && s[end] !in d
      invariant start <= end <= |s|
      invariant forall i :: start <= i < end ==> s[i] !in d
    {
      end := end + 1;
    }
    assert s[start..] == s[start..end] + s[end..];
    FirstPiece(s[start..end], s[end..], d);
  }

  /** One `strtok` call: skip delimiters, cut a token, step over one delimiter and remember the place. */
  method StrTok(s: string, d: set<char>, from: nat) returns (token: Option<string>, next: nat)
    requires from <= |s|
    ensures from <= next <= |s|
    ensures token.None? ==> Pieces(s[from..], d) == []
    ensures token.Some? ==> from < next && token.value != ""
    ensures token.Some? ==> Pieces(s[from..], d) == [token.value] + Pieces(s[next..], d)
  {
    var start := SkipDelimiters(s, d, from);
    if start == |s| {
      return None, start;
    }
    var end := EndOfToken(s, d, start);
    token, next := Some(s[start..end]), end;
    if end < |s| {
      SkipOne(s, d, end);
      next := end + 1;
    }
  }

  // ---------------------------------------------------------------- request bodies

  /** The C string in a zeroed buffer that received `body`: it ends at the first NUL. */
  function Text(body: string): string {
    body[..Span(body, {NUL})]
  }

  /** What a handler finds after reading its body into a buffer of DEFAULT_BUFFER bytes. */
  datatype Body = Unread | Overrun | Fields(fields: seq<string>)

  function ReadBody(body: string): Body {
    if body == "" then Unread
    else if |body| >= DEFAULT_BUFFER then Overrun
    else Fields(Pieces(Text(body), SEPARATORS))
  }

  predicate Has(fs: seq<string>, i: nat, limit: nat) {
    i < |fs| && |fs[i]| <= limit
  }

  lemma {:induction false} JoinedHasNoNul(fs: seq<string>)
    requires AllFields(fs)
    ensures Free(Joined(fs), {NUL})
  {
    if |fs| > 1 {
      assert AllFields(fs[1..]);
      JoinedHasNoNul(fs[1..]);
    }
  }

  lemma JoinedText(fs: seq<string>)
    requires AllFields(fs)
    ensures Text(Joined(fs)) == Joined(fs)
  {
    JoinedHasNoNul(fs);
    SpanOf(Joined(fs), "", {NUL});
    assert Joined(fs) + "" == Joined(fs);
  }

  lemma BodyRoundTrip(fs: seq<string>)
    requires AllFields(fs) && fs != [] && |Joined(fs)| < DEFAULT_BUFFER
    ensures ReadBody(Joined(fs)) == Fields(fs)
  {
    JoinedText(fs);
    SplitJoined(fs);
  }

  lemma JoinedSize(a: string, b: string, c: string)
    ensures |Joined([a, b, c])| == |a| + |b| + |c| + 2
  {
    assert [a, b, c][1..] == [b, c] && [b, c][1..] == [c];
    assert Joined([b, c]) == b + ([ETX] + Joined([c]));
  }

  /** Reading a body: the tokens up to the terminator, one `strtok` after the other. */
  method SplitBody(body: string) returns (b: Body)
    ensures b == ReadBody(body)
  {
    if body == "" {
      return Unread;
    }
    if |body| >= DEFAULT_BUFFER {
      return Overrun;
    }
    var text := body[..Span(body, {NUL})];
    var ps: seq<string> := [];
    var token, next := StrTok(text, SEPARATORS, 0);
    assert text[0..] == text;
    while token.Some?
      invariant next <= |text|
      invariant Pieces(text, SEPARATORS) ==
                ps + if token.Some? then [token.value] + Pieces(text[next..], SEPARATORS) else []
      decreases token.Some?, |text| - next
    {
      ps := ps + [token.value];
      var before := next;
      token, next := StrTok(text, SEPARATORS, before);
    }
    return Fields(ps);
  }

  lemma FieldsAreFields(body: string)
    requires ReadBody(body).Fields?
    ensures AllFields(ReadBody(body).fields)
  {
    var text := Text(body);
    PiecesConserve(text, SEPARATORS);
    PiecesKeep(text, SEPARATORS, NUL);
  }

  lemma {:induction false} PiecesKeep(s: string, d: set<char>, c: char)
    requires c !in s
    ensures forall i :: 0 <= i < |Pieces(s, d)| ==> c !in Pieces(s, d)[i]
    decreases |s|
  {
    if s == "" {
    } else if s[0] in d {
      PiecesKeep(s[1..], d, c);
    } else {
      PiecesKeep(s[Span(s, d)..], d, c);
    }
  }

  // ---------------------------------------------------------------- util.c

  predicate IsSpace(c: char) {
    c in {' ', '\t', '\n', '\U{000B}', '\U{000C}', '\r'}
  }

  /** The white space of the C locale: tab to carriage return, and blank. */
  lemma SpaceCodes(c: char)
    ensures IsSpace(c) <==> c as int == 32 || 9 <= c as int <= 13
  {
  }

  predicate IsDigit(c: char) {
    '0' <= c <= '9'
  }

  /** The character at `i`, NUL at the terminator. */
  function At(s: string, i: nat): char
    requires i <= |s|
  {
    if i < |s| then s[i] else NUL
  }

  function Squeeze(s: string): string {
    if s == "" then ""
    else if IsSpace(s[0]) then Squeeze(s[1..])
    else [s[0]] + Squeeze(s[1..])
  }

  /** `compare_strings`: equality up to white space. */
  method CompareStrings(a: string, b: string) returns (same: bool)
    requires NUL !in a && NUL !in b
    ensures same <==> Squeeze(a) == Squeeze(b)
  {
    var i, j := 0, 0;
    while At(a, i) != NUL && At(b, j) != NUL
      invariant i <= |a| && j <= |b|
      invariant Squeeze(a) == Squeeze(b) <==> Squeeze(a[i..]) == Squeeze(b[j..])
      decreases |a| - i + |b| - j
    {
      assert a[i..][1..] == a[i + 1..] && b[j..][1..] == b[j + 1..];
      if IsSpace(a[i]) {
        i := i + 1;
        continue;
      }
      if IsSpace(b[j]) {
        j := j + 1;
        continue;
      }
      assert Squeeze(a[i..]) == [a[i]] + Squeeze(a[i + 1..]) && Squeeze(b[j..]) == [b[j]] + Squeeze(b[j + 1..]);
      if a[i] != b[j] {
        assert Squeeze(a[i..])[0] != Squeeze(b[j..])[0];
        return false;
      }
      assert Squeeze(a[i..])[1..] == Squeeze(a[i + 1..]) && Squeeze(b[j..])[1..] == Squeeze(b[j + 1..]);
      i, j := i + 1, j + 1;
    }
    assert i == |a| || j == |b|;
    while IsSpace(At(a, i))
      invariant i <= |a| && (i == |a| || j == |b|)
      invariant Squeeze(a) == Squeeze(b) <==> Squeeze(a[i..]) == Squeeze(b[j..])
      decreases |a| - i
    {
      assert a[i..][1..] == a[i + 1..];
      i := i + 1;
    }
    while IsSpace(At(b, j))
      invariant j <= |b| && (i == |a| || j == |b|)
      invariant Squeeze(a) == Squeeze(b) <==> Squeeze(a[i..]) == Squeeze(b[j..])
      decreases |b| - j
    {
      assert b[j..][1..] == b[j + 1..];
      j := j + 1;
    }
    return At(a, i) == NUL && At(b, j) == NUL;
  }

  /** A word without one trailing newline. */
  function Chomp(word: string): (r: string)
    ensures word == r + "\n" || (word == r && !(word != "" && word[|word| - 1] == '\n'))
  {
    if word != "" && word[|word| - 1] == '\n' then word[..|word| - 1] else word
  }

  /**
   `tokenize_malloc`: fills an array that doubles when only the terminator's slot is left. The
   count is written only when there is a token.
   */
  method Tokenize(str: string, delim: set<char>) returns (ret: array<Option<string>>, outCount: Option<nat>)
    ensures var ps := Pieces(str, delim);
            && |ps| < ret.Length
            && (forall i :: 0 <= i < |ps| ==> ret[i] == Some(Chomp(ps[i])))
            && ret[|ps|] == None
            && outCount == if ps == [] then None else Some(|ps|)
  {
    ghost var ps := Pieces(str, delim);
    ret := new Option<string>[DEFAULT_ARGS];
    var token, next := StrTok(str, delim, 0);
    assert str[0..] == str;
    if token.None? {
      ret[0] := None;
      return ret, None;
    }
    var count: nat := 0;
    while token.Some?
      invariant next <= |str| && fresh(ret)
      invariant count + 1 < ret.Length
      invariant count <= |ps| && (token.None? ==> count == |ps| > 0)
      invariant token.Some? ==> token.value != "" && ps[count..] == [token.value] + Pieces(str[next..], delim)
      invariant forall i :: 0 <= i < count ==> ret[i] == Some(Chomp(ps[i]))
      decreases |ps| - count
    {
      var word := token.value;
      count := count + 1;
      assert ps[count - 1..][0] == word && ps[count - 1..][1..] == ps[count..];
      if count == ret.Length - 1 {
        ret := Doubled(ret);
      }
      ret[count - 1] := Some(word);
      if word[|word| - 1] == '\n' {
        ret[count - 1] := Some(word[..|word| - 1]);
      }
      token, next := StrTok(str, delim, next);
    }
    ret[count] := None;
    outCount := Some(count);
  }

  /** `realloc` to twice the size. */
  method Doubled(a: array<Option<string>>) returns (b: array<Option<string>>)
    ensures fresh(b) && b.Length == 2 * a.Length
    ensures forall i :: 0 <= i < a.Length ==> b[i] == a[i]
  {
    b := new Option<string>[a.Length + a.Length];
    for k := 0 to a.Length
      invariant forall i :: 0 <= i < k ==> b[i] == a[i]
    {
      b[k] := a[k];
    }
  }
}
