/**
 The wire format of src/server.c: a four-byte header of 4/4/8/16-bit fields in network order, and
 the stream of dispatches that `handle_request` takes off a connection.
 */
module Wire {
  import opened CStrings

  datatype Header = Header(version: bv4, kind: bv4, target: bv8, size: bv16)

  /** The word of `create_response_header`, before `htonl`. */
  function Word(h: Header): bv32 {
    ((h.version as bv32) << 28) | ((h.kind as bv32) << 24) | ((h.target as bv32) << 16) | (h.size as bv32)
  }

  /** The bytes that `htonl` and `write` put on the wire. */
  function Bytes(w: bv32): seq<bv8> {
    [((w >> 24) & 0xFF) as bv8, ((w >> 16) & 0xFF) as bv8, ((w >> 8) & 0xFF) as bv8, (w & 0xFF) as bv8]
  }

  function WriteHeader(h: Header): seq<bv8> {
    Bytes(Word(h))
  }

  /** `read_header`: one byte, then three, each left-aligned in a word by `ntohl`. */
  function ReadHeader(b: seq<bv8>): Header
    requires |b| == 4
  {
    var value := (b[0] as bv32) << 24;
    var header2 := ((b[1] as bv32) << 24) | ((b[2] as bv32) << 16) | ((b[3] as bv32) << 8);
    Header(((value >> 28) & 0x0F) as bv4, ((value >> 24) & 0x0F) as bv4,
           ((header2 >> 24) & 0xFF) as bv8, ((header2 >> 8) & 0xFFFF) as bv16)
  }

  lemma HeaderRoundTrip(h: Header)
    ensures |WriteHeader(h)| == 4 && ReadHeader(WriteHeader(h)) == h
  {
  }

  lemma BytesRoundTrip(b: seq<bv8>)
    requires |b| == 4
    ensures WriteHeader(ReadHeader(b)) == b
  {
  }

  lemma Nibbles(x: bv8)
    ensures x as int == 16 * ((x >> 4) as int) + (x & 0x0F) as int && (x & 0x0F) as int < 16
  {
  }

  lemma HighNibble(x: bv8)
    ensures ((((x as bv32) << 24) >> 28) & 0x0F) as bv4 == (x >> 4) as bv4
  {
  }

  lemma LowNibble(x: bv8)
    ensures ((((x as bv32) << 24) >> 24) & 0x0F) as bv4 == (x & 0x0F) as bv4
  {
  }

  lemma Narrow(x: bv8)
    requires x < 16
    ensures (x as bv4) as int == x as int
  {
  }

  lemma BigEndian(hi: bv8, lo: bv8)
    ensures (((hi as bv16) << 8) | (lo as bv16)) as int == 256 * (hi as int) + lo as int
  {
  }

  lemma Fields32(a: bv8, hi: bv8, lo: bv8)
    ensures var w := ((a as bv32) << 24) | ((hi as bv32) << 16) | ((lo as bv32) << 8);
            && ((w >> 24) & 0xFF) as bv8 == a
            && ((w >> 8) & 0xFFFF) as bv16 == ((hi as bv16) << 8) | (lo as bv16)
  {
  }

  /** The four bytes of a header, read as numbers: two nibbles, one byte, and a big-endian size. */
  lemma HeaderLayout(b: seq<bv8>)
    requires |b| == 4
    ensures var h := ReadHeader(b);
            && h.version as int == b[0] as int / 16 && h.kind as int == b[0] as int % 16
            && h.target == b[1]
            && h.size as int == 256 * (b[2] as int) + b[3] as int
  {
    HighNibble(b[0]);
    LowNibble(b[0]);
    Nibbles(b[0]);
    Narrow(b[0] >> 4);
    Narrow(b[0] & 0x0F);
    Fields32(b[1], b[2], b[3]);
    BigEndian(b[2], b[3]);
  }

  // ---------------------------------------------------------------- dispatches

  const CURRENT_VERSION: bv4 := 1
  const CREATE: bv4 := 1
  const READ: bv4 := 2
  const UPDATE: bv4 := 3
  const DESTROY: bv4 := 4
  const USER: bv8 := 1
  const CHANNEL: bv8 := 2
  const MESSAGE: bv8 := 3
  const AUTH: bv8 := 4

  /** A header and the body that its handler takes off the stream. */
  datatype Dispatch = Dispatch(header: Header, body: seq<bv8>)

  /** The object/type pairs that have a handler. */
  predicate Handled(h: Header) {
    && h.version == CURRENT_VERSION
    && ((h.target == USER && h.kind in {CREATE, DESTROY})
        || (h.target == CHANNEL && h.kind in {CREATE, READ, UPDATE})
        || (h.target == MESSAGE && h.kind in {CREATE, READ})
        || (h.target == AUTH && h.kind in {CREATE, DESTROY}))
  }

  /** The pairs that run into the assertion after the type comparisons. */
  predicate Rejected(h: Header) {
    && h.version == CURRENT_VERSION
    && ((h.target in {USER, CHANNEL, MESSAGE} && h.kind !in {CREATE, READ, UPDATE, DESTROY})
        || (h.target == AUTH && h.kind !in {CREATE, UPDATE, DESTROY}))
  }

  /** The body of a handled header must fit a buffer with its terminator; an empty one is a failed read. */
  predicate WellSized(h: Header) {
    h.size as int < DEFAULT_BUFFER
  }

  /**
   One `handle_request`: a header, then the body if a handler reads one. Wrong versions, unknown
   objects and pairs without a handler leave the body bytes on the stream. None: the connection
   ended early, an assertion failed, or the body does not fit.
   */
  function Next(stream: seq<bv8>): (r: Option<(Dispatch, seq<bv8>)>)
    ensures r.Some? ==> |r.value.1| < |stream|
  {
    if |stream| < 4 then None
    else
      var h := ReadHeader(stream[..4]);
      if Rejected(h) then None
      else if !Handled(h) then Some((Dispatch(h, []), stream[4..]))
      else if !WellSized(h) || |stream| < 4 + h.size as int then None
      else Some((Dispatch(h, stream[4..4 + h.size as int]), stream[4 + h.size as int..]))
  }

  /** All dispatches of a stream that ends at a dispatch boundary. */
  function Decode(stream: seq<bv8>): Option<seq<Dispatch>>
    decreases |stream|
  {
    if stream == [] then Some([])
    else
      match Next(stream)
      case None => None
      case Some((d, rest)) =>
        match Decode(rest)
        case None => None
        case Some(ds) => Some([d] + ds)
  }

  function Encode(ds: seq<Dispatch>): seq<bv8> {
    if ds == [] then [] else WriteHeader(ds[0].header) + ds[0].body + Encode(ds[1..])
  }

  /** A dispatch that `handle_request` can take: a handled one carries the body its header announces. */
  predicate WellFormed(d: Dispatch) {
    && !Rejected(d.header)
    && if Handled(d.header) then WellSized(d.header) && |d.body| == d.header.size as int else d.body == []
  }

  lemma NextEncoded(d: Dispatch, rest: seq<bv8>)
    requires WellFormed(d)
    ensures Next(WriteHeader(d.header) + d.body + rest) == Some((d, rest))
  {
    var stream := WriteHeader(d.header) + d.body + rest;
    HeaderRoundTrip(d.header);
    assert stream[..4] == WriteHeader(d.header);
    assert stream[4..] == d.body + rest;
    assert stream[4..4 + |d.body|] == d.body && stream[4 + |d.body|..] == rest;
  }

  /** A stream of dispatches is taken off the connection dispatch by dispatch, each body exactly. */
  lemma {:induction false} StreamRoundTrip(ds: seq<Dispatch>)
    requires forall i :: 0 <= i < |ds| ==> WellFormed(ds[i])
    ensures Decode(Encode(ds)) == Some(ds)
  {
    if ds != [] {
      StreamRoundTrip(ds[1..]);
      NextEncoded(ds[0], Encode(ds[1..]));
      HeaderRoundTrip(ds[0].header);
      assert ds == [ds[0]] + ds[1..];
    }
  }

  /** Conversely, every stream that is taken completely is the encoding of well-formed dispatches. */
  lemma {:induction false} DecodedIsEncoded(stream: seq<bv8>)
    requires Decode(stream).Some?
    ensures var ds := Decode(stream).value;
            Encode(ds) == stream && forall i :: 0 <= i < |ds| ==> WellFormed(ds[i])
    decreases |stream|
  {
    if stream != [] {
      var (d, rest) := Next(stream).value;
      DecodedIsEncoded(rest);
      BytesRoundTrip(stream[..4]);
      assert stream == stream[..4] + d.body + rest;
      var ds := Decode(stream).value;
      assert ds[1..] == Decode(rest).value;
    }
  }
}
