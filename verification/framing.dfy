/**
 Messages on the byte stream from a client, read as a whole.

 `Parse` is the reference: it looks at the stream only.  `Drain` is what the
 read loop of client_handle_connection does with the bytes it has buffered,
 and `FeedAll` what it does when the stream arrives in pieces.  The main
 result is that the pieces do not matter.
 */
module Framing {
  import opened Bytes
  import opened Options
  import opened RingBuffer
  import opened Wire
  import opened SeatModel

  const HEADER: nat := 4
  const MAX_PATH_LEN: nat := 256

  /** Whether the handler of the last request of a history succeeds */
  type Handler = seq<Request> -> bool

  function Opcode(b: seq<byte>): u16
    requires |b| >= HEADER
  {
    DecodeU16(b[..2])
  }

  function PayloadSize(b: seq<byte>): u16
    requires |b| >= HEADER
  {
    DecodeU16(b[2..4])
  }

  /** strnlen */
  function Strnlen(s: seq<byte>): (n: nat)
    ensures n <= |s|
    ensures n < |s| ==> s[n] == 0
    ensures forall i :: 0 <= i < n ==> s[i] != 0
  {
    if s == [] || s[0] == 0 then 0 else 1 + Strnlen(s[1..])
  }

  /** The request a complete message stands for, or None if client_handle_opcode refuses it */
  function DecodeRequest(opcode: u16, payload: seq<byte>): Option<Request> {
    if opcode == 1 then if payload == [] then Some(OpenSeat) else None
    else if opcode == 2 then if payload == [] then Some(CloseSeat) else None
    else if opcode == 3 then DecodeOpenDevice(payload)
    else if opcode == 4 then if |payload| == 4 then Some(CloseDevice(DecodeInt(payload))) else None
    else if opcode == 5 then if payload == [] then Some(DisableSeat) else None
    else if opcode == 6 then if |payload| == 4 then Some(SwitchSession(DecodeInt(payload))) else None
    else if opcode == 7 then if payload == [] then Some(Ping) else None
    else None
  }

  function DecodeOpenDevice(payload: seq<byte>): Option<Request> {
    if |payload| < 2 then None
    else
      var path := payload[2..];
      if DecodeU16(payload[..2]) != |path| || |path| > MAX_PATH_LEN then None
      else if path == [] || Strnlen(path) != |path| - 1 then None
      else Some(OpenDevice(path[..|path| - 1]))
  }

  /** The requests dispatched, the bytes left in the buffer, and whether the client is still connected */
  datatype Outcome = Outcome(dispatched: seq<Request>, rest: seq<byte>, alive: bool)

  /** The buffer starts with a complete message. */
  predicate Complete(b: seq<byte>) {
    |b| >= HEADER && |b| - HEADER >= PayloadSize(b)
  }

  /** The buffer starts with the header of a message that does not fit the ring. */
  predicate Oversize(b: seq<byte>) {
    |b| >= HEADER && HEADER + PayloadSize(b) > SIZE
  }

  function After(b: seq<byte>): seq<byte>
    requires Complete(b)
  {
    b[HEADER + PayloadSize(b)..]
  }

  function FirstRequest(b: seq<byte>): Option<Request>
    requires Complete(b)
  {
    DecodeRequest(Opcode(b), b[HEADER..HEADER + PayloadSize(b)])
  }

  /** The read loop on the buffered bytes, after the requests `done` */
  function Drain(b: seq<byte>, done: seq<Request>, accept: Handler): Outcome
    decreases |b|
  {
    if !Complete(b) then Outcome(done, b, true)
    else
      match FirstRequest(b)
      case None => Outcome(done, [], false)
      case Some(r) =>
        if accept(done + [r]) then Drain(After(b), done + [r], accept)
        else Outcome(done + [r], [], false)
  }

  /** The meaning of a stream: like the read loop, but an oversize message ends the conversation. */
  function Parse(b: seq<byte>, done: seq<Request>, accept: Handler): Outcome
    decreases |b|
  {
    if Oversize(b) || !Complete(b) then Outcome(done, b, true)
    else
      match FirstRequest(b)
      case None => Outcome(done, [], false)
      case Some(r) =>
        if accept(done + [r]) then Parse(After(b), done + [r], accept)
        else Outcome(done + [r], [], false)
  }

  /** One readable event: a full ring makes connection_read fail, which is fatal. */
  function Feed(s: Outcome, chunk: seq<byte>, accept: Handler): Outcome {
    if !s.alive then s
    else if |s.rest| >= SIZE then s.(alive := false)
    else Drain(s.rest + chunk, s.dispatched, accept)
  }

  function FeedAll(chunks: seq<seq<byte>>, accept: Handler): Outcome {
    if chunks == [] then Outcome([], [], true)
    else Feed(FeedAll(chunks[..|chunks| - 1], accept), chunks[|chunks| - 1], accept)
  }

  /** Each read returns at most as many bytes as the ring had free. */
  predicate Deliverable(chunks: seq<seq<byte>>, accept: Handler) {
    chunks != [] ==>
      var s := FeedAll(chunks[..|chunks| - 1], accept);
      && Deliverable(chunks[..|chunks| - 1], accept)
      && (s.alive && |s.rest| < SIZE ==> |chunks[|chunks| - 1]| <= SIZE - |s.rest|)
  }

  function Concat(chunks: seq<seq<byte>>): seq<byte> {
    if chunks == [] then [] else Concat(chunks[..|chunks| - 1]) + chunks[|chunks| - 1]
  }

  /** On what fits the ring the loop agrees with the reference. */
  lemma {:induction false} DrainIsParse(b: seq<byte>, done: seq<Request>, accept: Handler)
    requires |b| <= SIZE
    ensures Drain(b, done, accept) == Parse(b, done, accept)
    decreases |b|
  {
    if Complete(b) && FirstRequest(b).Some? && accept(done + [FirstRequest(b).value]) {
      DrainIsParse(After(b), done + [FirstRequest(b).value], accept);
    }
  }

  lemma HeaderOfPrefix(a: seq<byte>, b: seq<byte>)
    requires |a| >= HEADER
    ensures Opcode(a + b) == Opcode(a) && PayloadSize(a + b) == PayloadSize(a)
  {
    assert (a + b)[..2] == a[..2] && (a + b)[2..4] == a[2..4];
  }

  lemma SameHeader(b: seq<byte>)
    requires |b| >= HEADER
    ensures Opcode(b[..HEADER]) == Opcode(b) && PayloadSize(b[..HEADER]) == PayloadSize(b)
  {
    assert b[..HEADER][..2] == b[..2] && b[..HEADER][2..4] == b[2..4];
  }

  /** Reading on from where the reference stopped is reading the whole. */
  lemma {:induction false} ParseAppend(a: seq<byte>, b: seq<byte>, done: seq<Request>, accept: Handler)
    ensures var s := Parse(a, done, accept);
      Parse(a + b, done, accept) == if s.alive then Parse(s.rest + b, s.dispatched, accept) else s
    decreases |a|
  {
    if |a| >= HEADER { HeaderOfPrefix(a, b); }
    if !Oversize(a) && Complete(a) {
      assert After(a + b) == After(a) + b;
      var n := HEADER + PayloadSize(a);
      assert (a + b)[HEADER..n] == a[HEADER..n];
      assert FirstRequest(a + b) == FirstRequest(a);
      if FirstRequest(a).Some? && accept(done + [FirstRequest(a).value]) {
        ParseAppend(After(a), b, done + [FirstRequest(a).value], accept);
      }
    }
  }

  lemma {:induction false} ParseStopsAtIncomplete(b: seq<byte>, done: seq<Request>, accept: Handler)
    ensures var s := Parse(b, done, accept);
      s.alive ==> (Oversize(s.rest) || !Complete(s.rest)) && |s.rest| <= |b|
    decreases |b|
  {
    if !Oversize(b) && Complete(b) && FirstRequest(b).Some? && accept(done + [FirstRequest(b).value]) {
      ParseStopsAtIncomplete(After(b), done + [FirstRequest(b).value], accept);
    }
  }

  /** What the pieces lead to, and what the whole stream means. */
  ghost predicate Agree(fed: Outcome, parsed: Outcome) {
    && fed.dispatched == parsed.dispatched
    && (fed.alive ==> fed == parsed)
    && (!fed.alive ==> !parsed.alive || (Oversize(parsed.rest) && |parsed.rest| >= SIZE))
  }

  lemma OversizeStays(s: Outcome, chunk: seq<byte>, accept: Handler)
    requires s.alive && Oversize(s.rest)
    ensures Parse(s.rest + chunk, s.dispatched, accept) == s.(rest := s.rest + chunk)
    ensures Oversize(s.rest + chunk)
  {
    HeaderOfPrefix(s.rest, chunk);
  }

  /** Chunking independence: however the reads split the stream, the requests
      dispatched are those of the stream.  A client that is still connected has
      exactly the unparsed bytes buffered; one that was dropped sent a bad or
      refused message, or filled the ring with a message that cannot fit. */
  lemma {:induction false} ChunkingIndependence(chunks: seq<seq<byte>>, accept: Handler)
    requires Deliverable(chunks, accept)
    ensures Agree(FeedAll(chunks, accept), Parse(Concat(chunks), [], accept))
  {
    if chunks != [] {
      var before, chunk := chunks[..|chunks| - 1], chunks[|chunks| - 1];
      ChunkingIndependence(before, accept);
      var s, p := FeedAll(before, accept), Parse(Concat(before), [], accept);
      ParseAppend(Concat(before), chunk, [], accept);
      ParseStopsAtIncomplete(Concat(before), [], accept);
      if p.alive && Oversize(p.rest) { OversizeStays(p, chunk, accept); }
      if s.alive && |s.rest| < SIZE {
        DrainIsParse(s.rest + chunk, s.dispatched, accept);
      }
    }
  }

  /** Between events the buffer never starts with a complete message. */
  lemma {:induction false} DrainStops(b: seq<byte>, done: seq<Request>, accept: Handler)
    ensures Drain(b, done, accept).alive ==> !Complete(Drain(b, done, accept).rest)
    decreases |b|
  {
    if Complete(b) && FirstRequest(b).Some? { DrainStops(After(b), done + [FirstRequest(b).value], accept); }
  }

  lemma {:induction false} FeedStops(chunks: seq<seq<byte>>, accept: Handler)
    ensures FeedAll(chunks, accept).alive ==> !Complete(FeedAll(chunks, accept).rest)
  {
    if chunks != [] {
      var s := FeedAll(chunks[..|chunks| - 1], accept);
      FeedStops(chunks[..|chunks| - 1], accept);
      DrainStops(s.rest + chunks[|chunks| - 1], s.dispatched, accept);
    }
  }

  /** If no message is oversize the ring is never full when the next read starts. */
  lemma RoomForTheNextRead(chunks: seq<seq<byte>>, accept: Handler)
    requires Deliverable(chunks, accept) && FeedAll(chunks, accept).alive
    ensures |FeedAll(chunks, accept).rest| < SIZE || Oversize(FeedAll(chunks, accept).rest)
  {
    ChunkingIndependence(chunks, accept);
    ParseStopsAtIncomplete(Concat(chunks), [], accept);
  }

  // ----- requests as libseat sends them -----

  /** What libseat can put into a request: a C string of limited length, an int */
  predicate Encodable(r: Request) {
    match r
    case OpenDevice(path) => |path| + 1 <= MAX_PATH_LEN && 0 !in path
    case CloseDevice(id) => -0x8000_0000 <= id < 0x8000_0000
    case SwitchSession(session) => -0x8000_0000 <= session < 0x8000_0000
    case _ => true
  }

  function OpcodeOf(r: Request): u16 {
    match r
    case OpenSeat => 1
    case CloseSeat => 2
    case OpenDevice(_) => 3
    case CloseDevice(_) => 4
    case DisableSeat => 5
    case SwitchSession(_) => 6
    case Ping => 7
  }

  function Payload(r: Request): (b: seq<byte>)
    requires Encodable(r)
    ensures |b| <= 2 + MAX_PATH_LEN
  {
    match r
    case OpenDevice(path) => EncodeU16(|path| + 1) + (path + [0])
    case CloseDevice(id) => EncodeInt(id)
    case SwitchSession(session) => EncodeInt(session)
    case _ => []
  }

  /** Header and payload of a request */
  function Encode(r: Request): seq<byte>
    requires Encodable(r)
  {
    EncodeU16(OpcodeOf(r)) + EncodeU16(|Payload(r)|) + Payload(r)
  }

  lemma {:induction false} StrnlenOfCString(path: seq<byte>)
    requires 0 !in path
    ensures Strnlen(path + [0]) == |path|
  {
    if path != [] {
      assert (path + [0])[1..] == path[1..] + [0];
      StrnlenOfCString(path[1..]);
    }
  }

  lemma EncodedHeader(r: Request, more: seq<byte>)
    requires Encodable(r)
    ensures var m := Encode(r) + more;
      && |m| >= HEADER && Opcode(m) == OpcodeOf(r) && PayloadSize(m) == |Payload(r)|
      && Complete(m) && After(m) == more && m[HEADER..HEADER + PayloadSize(m)] == Payload(r)
  {
    var m := Encode(r) + more;
    assert m[..2] == EncodeU16(OpcodeOf(r)) && m[2..4] == EncodeU16(|Payload(r)|);
    U16RoundTrip(OpcodeOf(r));
    U16RoundTrip(|Payload(r)|);
  }

  lemma PayloadDecodes(r: Request)
    requires Encodable(r)
    ensures DecodeRequest(OpcodeOf(r), Payload(r)) == Some(r)
  {
    match r {
      case OpenDevice(path) =>
        var p := Payload(r);
        assert p[..2] == EncodeU16(|path| + 1) && p[2..] == path + [0];
        U16RoundTrip(|path| + 1);
        StrnlenOfCString(path);
      case CloseDevice(id) => IntRoundTrip(id);
      case SwitchSession(session) => IntRoundTrip(session);
      case _ =>
    }
  }

  /** What the server accepts is what the library encodes: any complete message
      is refused or is the encoding of the request it is taken for. */
  lemma AcceptsOnlyEncodings(b: seq<byte>)
    requires Complete(b) && FirstRequest(b).Some?
    ensures var r := FirstRequest(b).value;
      Encodable(r) && b[..HEADER + PayloadSize(b)] == Encode(r)
  {
    hide DecodeRequest, Payload, OpcodeOf, Encodable, DecodeU16, EncodeU16;
    var n := HEADER + PayloadSize(b);
    var payload := b[HEADER..n];
    AcceptedPayload(Opcode(b), payload);
    U16Exact(b[..2]);
    U16Exact(b[2..4]);
    assert b[..n] == b[..2] + b[2..4] + payload;
  }

  lemma AcceptedPayload(opcode: u16, payload: seq<byte>)
    requires DecodeRequest(opcode, payload).Some?
    ensures var r := DecodeRequest(opcode, payload).value;
      Encodable(r) && Payload(r) == payload && OpcodeOf(r) == opcode
  {
    if opcode == 3 {
      var path := payload[2..];
      U16Exact(payload[..2]);
      assert path == path[..|path| - 1] + [0];
      assert payload == payload[..2] + path;
    } else if opcode == 4 || opcode == 6 {
      IntExact(payload);
    }
  }

  /** The round trip, with its exact bound: an encoded request is the next request
      of the stream unless it is a path of more than 250 bytes with its NUL; those,
      which the encoder accepts up to 256, never come through. */
  lemma RequestRoundTrip(r: Request, more: seq<byte>, done: seq<Request>, accept: Handler)
    requires Encodable(r)
    ensures var p := Parse(Encode(r) + more, done, accept);
      if r.OpenDevice? && |r.path| + 1 > 250 then p.dispatched == done && p.alive
      else done + [r] <= p.dispatched
  {
    EncodedHeader(r, more);
    PayloadDecodes(r);
    if accept(done + [r]) { ParseExtends(more, done + [r], accept); }
  }

  lemma {:induction false} ParseExtends(b: seq<byte>, done: seq<Request>, accept: Handler)
    ensures done <= Parse(b, done, accept).dispatched
    decreases |b|
  {
    if !Oversize(b) && Complete(b) && FirstRequest(b).Some? && accept(done + [FirstRequest(b).value]) {
      ParseExtends(After(b), done + [FirstRequest(b).value], accept);
    }
  }

  predicate Short(r: Request) {
    Encodable(r) && (r.OpenDevice? ==> |r.path| + 1 <= 250)
  }

  predicate AllShort(rs: seq<Request>) {
    rs != [] ==> Short(rs[0]) && AllShort(rs[1..])
  }

  function EncodeAll(rs: seq<Request>): seq<byte>
    requires AllShort(rs)
  {
    if rs == [] then [] else Encode(rs[0]) + EncodeAll(rs[1..])
  }

  /** Every prefix of the conversation is handled successfully. */
  ghost predicate Welcome(done: seq<Request>, rs: seq<Request>, accept: Handler) {
    forall k :: 1 <= k <= |rs| ==> accept(done + rs[..k])
  }

  lemma WelcomeRest(done: seq<Request>, rs: seq<Request>, accept: Handler)
    requires rs != [] && Welcome(done, rs, accept)
    ensures accept(done + [rs[0]]) && Welcome(done + [rs[0]], rs[1..], accept)
  {
    assert rs[..1] == [rs[0]];
    forall k | 1 <= k <= |rs| - 1 ensures accept(done + [rs[0]] + rs[1..][..k]) {
      assert done + [rs[0]] + rs[1..][..k] == done + rs[..k + 1];
    }
  }

  lemma ParseOne(r: Request, more: seq<byte>, done: seq<Request>, accept: Handler)
    requires Short(r) && accept(done + [r])
    ensures Parse(Encode(r) + more, done, accept) == Parse(more, done + [r], accept)
  {
    EncodedHeader(r, more);
    PayloadDecodes(r);
  }

  /** A request that is refused is the last one, and the client is dropped. */
  lemma RefusedRequestEndsIt(r: Request, more: seq<byte>, done: seq<Request>, accept: Handler)
    requires Short(r) && !accept(done + [r])
    ensures Parse(Encode(r) + more, done, accept) == Outcome(done + [r], [], false)
  {
    EncodedHeader(r, more);
    PayloadDecodes(r);
  }

  /** A complete message that encodes no request costs the client its connection, and
      nothing of it or behind it is dispatched. */
  lemma BadMessageEndsIt(b: seq<byte>, done: seq<Request>, accept: Handler)
    requires Complete(b) && !Oversize(b)
    requires forall r :: Encodable(r) ==> Encode(r) != b[..HEADER + PayloadSize(b)]
    ensures Parse(b, done, accept) == Outcome(done, [], false)
  {
    hide FirstRequest, Encode;
    if FirstRequest(b).Some? { AcceptsOnlyEncodings(b); }
  }

  lemma ParseNothing(done: seq<Request>, accept: Handler)
    ensures Parse([], done, accept) == Outcome(done, [], true)
  {
  }

  lemma EncodeAllParts(rs: seq<Request>)
    requires AllShort(rs)
    ensures if rs == [] then EncodeAll(rs) == []
            else Short(rs[0]) && AllShort(rs[1..]) && EncodeAll(rs) == Encode(rs[0]) + EncodeAll(rs[1..])
  {
    hide Encode;
  }

  lemma {:induction false} ParseOfEncodings(done: seq<Request>, rs: seq<Request>, accept: Handler)
    requires AllShort(rs) && Welcome(done, rs, accept)
    ensures Parse(EncodeAll(rs), done, accept) == Outcome(done + rs, [], true)
    decreases |rs|
  {
    hide Parse, Encode, EncodeAll, AllShort, Short, Welcome;
    EncodeAllParts(rs);
    if rs == [] {
      ParseNothing(done, accept);
      assert done + rs == done;
    } else {
      WelcomeRest(done, rs, accept);
      ParseOne(rs[0], EncodeAll(rs[1..]), done, accept);
      ParseOfEncodings(done + [rs[0]], rs[1..], accept);
      assert done + [rs[0]] + rs[1..] == done + rs;
    }
  }

  /** From the library to the handlers: requests that fit arrive complete, in order
      and once each, however the kernel cuts the stream. */
  lemma RequestsArrive(rs: seq<Request>, chunks: seq<seq<byte>>, accept: Handler)
    requires AllShort(rs) && Welcome([], rs, accept)
    requires Deliverable(chunks, accept) && Concat(chunks) == EncodeAll(rs)
    ensures FeedAll(chunks, accept) == Outcome(rs, [], true)
  {
    ParseOfEncodings([], rs, accept);
    ChunkingIndependence(chunks, accept);
    assert [] + rs == rs;
  }

  /** No way of splitting the reads delivers a path of more than 250 bytes, nor
      anything behind it; what was sent before it arrives. */
  lemma LongPathNeverDelivered(rs: seq<Request>, path: seq<byte>, chunks: seq<seq<byte>>, accept: Handler)
    requires 250 < |path| + 1 <= MAX_PATH_LEN && 0 !in path
    requires AllShort(rs) && Welcome([], rs, accept)
    requires Deliverable(chunks, accept) && EncodeAll(rs) + Encode(OpenDevice(path)) <= Concat(chunks)
    ensures FeedAll(chunks, accept).dispatched == rs
  {
    hide Parse, FeedAll, Deliverable, Encode, EncodeAll, AllShort, Welcome, Concat;
    ChunkingIndependence(chunks, accept);
    var a, m, b := EncodeAll(rs), Encode(OpenDevice(path)), Concat(chunks);
    var more := b[|a| + |m|..];
    assert b == a + (m + more);
    ParseOfEncodings([], rs, accept);
    ParseAppend(a, m + more, [], accept);
    assert [] + (m + more) == m + more && [] + rs == rs;
    RequestRoundTrip(OpenDevice(path), more, rs, accept);
  }
}
