/**
 From bytes to runs: what one connection's stream does to the server is the run of the requests
 that it encodes.
 */
module Connection {
  import opened CStrings
  import opened Wire
  import opened Runs

  /** The choices that one request draws from its surroundings. */
  datatype Draw = Draw(uuid: string, order: seq<string>)

  /** The object and type comparisons of `handle_request`; a read-message request changes nothing. */
  function CallOf(h: Header): Option<Call> {
    if !Handled(h) then None
    else if h.target == USER then Some(if h.kind == CREATE then CreateUserCall else DestroyUserCall)
    else if h.target == CHANNEL then
      Some(if h.kind == CREATE then CreateChannelCall
           else if h.kind == READ then ReadChannelCall else UpdateChannelCall)
    else if h.target == MESSAGE then if h.kind == CREATE then Some(CreateMessageCall) else None
    else Some(if h.kind == CREATE then LoginCall else LogoutCall)
  }

  function Chars(body: seq<bv8>): string {
    seq(|body|, i requires 0 <= i < |body| => body[i] as int as char)
  }

  function RequestOf(d: Dispatch, fd: int, addr: string, w: Draw): Option<Event> {
    match CallOf(d.header)
    case None => None
    case Some(call) => Some(Request(fd, addr, call, Chars(d.body), w.uuid, w.order))
  }

  /** The requests of a sequence of dispatches. */
  function Requests(ds: seq<Dispatch>, fd: int, addr: string, draws: seq<Draw>): seq<Event>
    requires |ds| == |draws|
  {
    if ds == [] then []
    else
      var rest := Requests(ds[1..], fd, addr, draws[1..]);
      match RequestOf(ds[0], fd, addr, draws[0])
      case None => rest
      case Some(e) => [e] + rest
  }

  /** `handle_request` over and over on one connection, until the stream is used up. None: the run ended. */
  function Serve(s: State, fd: int, addr: string, stream: seq<bv8>, draws: seq<Draw>): Option<State>
    decreases |stream|
  {
    if stream == [] then Some(s)
    else if draws == [] || Next(stream).None? then None
    else
      var (d, rest) := Next(stream).value;
      match RequestOf(d, fd, addr, draws[0])
      case None => Serve(s, fd, addr, rest, draws[1..])
      case Some(e) =>
        if Step(s, e).1.Fault? then None else Serve(Step(s, e).0, fd, addr, rest, draws[1..])
  }

  ghost predicate Anything(s: State, e: Event) {
    true
  }

  /** Serving an encoded stream ends in `t` exactly when the run of its requests leads to `t` without a fault. */
  lemma {:induction false} ServingIsRunning(s: State, fd: int, addr: string, ds: seq<Dispatch>,
                                            draws: seq<Draw>, t: State)
    requires |ds| == |draws| && forall i :: 0 <= i < |ds| ==> WellFormed(ds[i])
    ensures Serve(s, fd, addr, Encode(ds), draws) == Some(t) <==> Leads(Anything, s, Requests(ds, fd, addr, draws), t)
    decreases |ds|
  {
    if ds != [] {
      var rest := Encode(ds[1..]);
      NextEncoded(ds[0], rest);
      HeaderRoundTrip(ds[0].header);
      var more := Requests(ds[1..], fd, addr, draws[1..]);
      match RequestOf(ds[0], fd, addr, draws[0])
      case None => ServingIsRunning(s, fd, addr, ds[1..], draws[1..], t);
      case Some(e) =>
        assert ([e] + more)[1..] == more;
        ServingIsRunning(Step(s, e).0, fd, addr, ds[1..], draws[1..], t);
    }
  }

  // ---------------------------------------------------------------- the dispatch table in bytes

  /** The first two bytes of a request, and the handler it is for. */
  predicate Addressed(b0: bv8, b1: bv8, call: Call) {
    || (b0 == 0x11 && b1 == 0x01 && call == CreateUserCall)
    || (b0 == 0x14 && b1 == 0x01 && call == DestroyUserCall)
    || (b0 == 0x11 && b1 == 0x02 && call == CreateChannelCall)
    || (b0 == 0x12 && b1 == 0x02 && call == ReadChannelCall)
    || (b0 == 0x13 && b1 == 0x02 && call == UpdateChannelCall)
    || (b0 == 0x11 && b1 == 0x03 && call == CreateMessageCall)
    || (b0 == 0x11 && b1 == 0x04 && call == LoginCall)
    || (b0 == 0x14 && b1 == 0x04 && call == LogoutCall)
  }

  /** Characters and bytes of the same codes. */
  ghost predicate SameCodes(text: string, body: seq<bv8>) {
    |text| == |body| && forall i :: 0 <= i < |body| ==> text[i] as int == body[i] as int
  }

  lemma CharsAreCodes(text: string, body: seq<bv8>)
    requires SameCodes(text, body)
    ensures Chars(body) == text
  {
    assert forall i :: 0 <= i < |body| ==> Chars(body)[i] == text[i];
  }

  lemma HeaderOf(b0: bv8, b1: bv8, hi: bv8, lo: bv8)
    ensures var h := ReadHeader([b0, b1, hi, lo]);
            && h.version == (b0 >> 4) as bv4 && h.kind == (b0 & 0x0F) as bv4 && h.target == b1
            && h.size as int == 256 * (hi as int) + lo as int
  {
    HeaderLayout([b0, b1, hi, lo]);
    HighNibble(b0);
    LowNibble(b0);
  }

  lemma AddressedHeader(h: Header, b0: bv8, b1: bv8, call: Call)
    requires Addressed(b0, b1, call)
    requires h.version == (b0 >> 4) as bv4 && h.kind == (b0 & 0x0F) as bv4 && h.target == b1
    ensures CallOf(h) == Some(call) && !Rejected(h) && Handled(h)
  {
  }

  lemma NextOf(stream: seq<bv8>, head: seq<bv8>, body: seq<bv8>, rest: seq<bv8>)
    requires |head| == 4 && stream == head + body + rest
    requires var h := ReadHeader(head); Handled(h) && !Rejected(h) && h.size as int == |body| < 1024
    ensures Next(stream) == Some((Dispatch(ReadHeader(head), body), rest))
  {
    assert stream[..4] == head && stream[4..4 + |body|] == body && stream[4 + |body|..] == rest;
  }

  /** A request in bytes is served by the step of its handler on its text, and then the rest of the stream is served. */
  lemma BytesAreServed(s: State, fd: int, addr: string, b0: bv8, b1: bv8, hi: bv8, lo: bv8, body: seq<bv8>,
                       rest: seq<bv8>, text: string, call: Call, w: Draw, draws: seq<Draw>)
    requires Addressed(b0, b1, call)
    requires 256 * (hi as int) + lo as int == |body| < 1024 && SameCodes(text, body)
    ensures var (s', o) := Step(s, Request(fd, addr, call, text, w.uuid, w.order));
            Serve(s, fd, addr, [b0, b1, hi, lo] + body + rest, [w] + draws) ==
            if o.Fault? then None else Serve(s', fd, addr, rest, draws)
  {
    HeaderOf(b0, b1, hi, lo);
    var h := ReadHeader([b0, b1, hi, lo]);
    AddressedHeader(h, b0, b1, call);
    NextOf([b0, b1, hi, lo] + body + rest, [b0, b1, hi, lo], body, rest);
    CharsAreCodes(text, body);
    assert ([w] + draws)[1..] == draws;
  }

  /** A read-message request takes its body off the stream and changes nothing. */
  lemma ReadMessageBytes(s: State, fd: int, addr: string, hi: bv8, lo: bv8, body: seq<bv8>, rest: seq<bv8>,
                         w: Draw, draws: seq<Draw>)
    requires 256 * (hi as int) + lo as int == |body| < 1024
    ensures Serve(s, fd, addr, [0x12, 0x03, hi, lo] + body + rest, [w] + draws) == Serve(s, fd, addr, rest, draws)
  {
    HeaderOf(0x12, 0x03, hi, lo);
    var h := ReadHeader([0x12, 0x03, hi, lo]);
    assert CallOf(h) == None && Handled(h) && !Rejected(h);
    NextOf([0x12, 0x03, hi, lo] + body + rest, [0x12, 0x03, hi, lo], body, rest);
    assert ([w] + draws)[1..] == draws;
  }

  /**
   All other headers: a type outside 1 to 4 for a user, channel or message, or outside 1, 3 and 4 for an
   authentication, ends the run. The rest lose only their header.
   */
  lemma OtherBytes(s: State, fd: int, addr: string, b0: bv8, b1: bv8, hi: bv8, lo: bv8,
                   rest: seq<bv8>, w: Draw, draws: seq<Draw>)
    requires forall call :: !Addressed(b0, b1, call)
    requires !(b0 == 0x12 && b1 == 0x03)
    ensures var version, kind := b0 >> 4, b0 & 0x0F;
            var refused := version == 1 && ((1 <= b1 <= 3 && !(1 <= kind <= 4)) || (b1 == 4 && kind !in {1, 3, 4}));
            Serve(s, fd, addr, [b0, b1, hi, lo] + rest, [w] + draws) ==
            if refused then None else Serve(s, fd, addr, rest, draws)
  {
    HeaderOf(b0, b1, hi, lo);
    var stream, h := [b0, b1, hi, lo] + rest, ReadHeader([b0, b1, hi, lo]);
    OtherHeader(h, b0, b1);
    assert stream[..4] == [b0, b1, hi, lo] && stream[4..] == rest;
    assert ([w] + draws)[1..] == draws;
  }

  lemma OtherHeader(h: Header, b0: bv8, b1: bv8)
    requires !Addressed(b0, b1, CreateUserCall) && !Addressed(b0, b1, DestroyUserCall)
    requires !Addressed(b0, b1, CreateChannelCall) && !Addressed(b0, b1, ReadChannelCall)
    requires !Addressed(b0, b1, UpdateChannelCall) && !Addressed(b0, b1, CreateMessageCall)
    requires !Addressed(b0, b1, LoginCall) && !Addressed(b0, b1, LogoutCall)
    requires !(b0 == 0x12 && b1 == 0x03)
    requires h.version == (b0 >> 4) as bv4 && h.kind == (b0 & 0x0F) as bv4 && h.target == b1
    ensures !Handled(h)
    ensures var version, kind := b0 >> 4, b0 & 0x0F;
            Rejected(h) <==>
            version == 1 && ((1 <= b1 <= 3 && !(1 <= kind <= 4)) || (b1 == 4 && kind !in {1, 3, 4}))
  {
  }
}
