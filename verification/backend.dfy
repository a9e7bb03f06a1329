/**
 The demultiplexer of libseat/backend/seatd.c: background events and pongs are
 taken out of the stream wherever they turn up, and a request waits until the
 stream is at a complete response.
 */
module Backend {
  import opened Bytes
  import opened Options
  import opened RingBuffer
  import opened Wire
  import opened Connections
  import opened Framing
  import opened Sequences
  import SeatModel

  const SERVER_DEVICE_OPENED: u16 := 0x8003
  const SERVER_DEVICE_CLOSED: u16 := 0x8004
  const SERVER_DISABLE_SEAT: u16 := 0x8005
  const SERVER_ENABLE_SEAT: u16 := 0x8006
  const SERVER_PONG: u16 := 0x8007
  const SERVER_SESSION_SWITCHED: u16 := 0x8008
  const SERVER_SEAT_DISABLED: u16 := 0x8009
  const SERVER_ERROR: u16 := 0xFFFF

  predicate IsEvent(opcode: u16) {
    opcode == SERVER_DISABLE_SEAT || opcode == SERVER_ENABLE_SEAT
  }

  predicate IsBackground(opcode: u16) {
    IsEvent(opcode) || opcode == SERVER_PONG
  }

  /** The messages a server sends unasked or in answer to a ping are the three from
      0x8005 on, and the first two are events. */
  lemma BackgroundOpcodes(opcode: u16)
    ensures IsBackground(opcode) <==> 0x8005 <= opcode <= 0x8007
    ensures IsEvent(opcode) <==> IsBackground(opcode) && opcode != SERVER_PONG
  {
  }

  /** The background messages at the front of a stream, and what follows them */
  datatype Scanned = Scanned(events: seq<u16>, pongs: nat, rest: seq<byte>)

  function Scan(b: seq<byte>): Scanned
    decreases |b|
  {
    if |b| < HEADER || !IsBackground(Opcode(b)) then Scanned([], 0, b)
    else
      var s := Scan(b[HEADER..]);
      if IsEvent(Opcode(b)) then s.(events := [Opcode(b)] + s.events) else s.(pongs := 1 + s.pongs)
  }

  /** The stream is at the header of a complete response. */
  predicate AtResponse(b: seq<byte>) {
    Complete(b) && !IsBackground(Opcode(b)) && Opcode(b) != 0
  }

  lemma ReversedConcat<T>(a: seq<T>, b: seq<T>)
    ensures Reversed(a + b) == Reversed(b) + Reversed(a)
  {
  }

  lemma {:induction false} ReversedIsPermutation<T>(a: seq<T>)
    ensures multiset(Reversed(a)) == multiset(a)
  {
    if a != [] {
      ReversedIsPermutation(a[1..]);
      assert a == [a[0]] + a[1..];
    }
  }

  /** Scanning in two goes finds what scanning at once finds. */
  lemma {:induction false} ScanAppend(a: seq<byte>, b: seq<byte>)
    ensures var s, t := Scan(a), Scan(Scan(a).rest + b);
      Scan(a + b) == Scanned(s.events + t.events, s.pongs + t.pongs, t.rest)
    decreases |a|
  {
    hide Opcode, IsEvent, IsBackground;
    if |a| >= HEADER { HeaderOfPrefix(a, b); }
    if |a| >= HEADER && IsBackground(Opcode(a)) {
      ScanAppend(a[HEADER..], b);
      assert (a + b)[HEADER..] == a[HEADER..] + b;
      var s, t := Scan(a[HEADER..]), Scan(Scan(a).rest + b);
      assert [Opcode(a)] + (s.events + t.events) == ([Opcode(a)] + s.events) + t.events;
    }
  }

  lemma {:induction false} ScanStops(b: seq<byte>)
    ensures var r := Scan(b).rest; |r| <= |b| && (|r| < HEADER || !IsBackground(Opcode(r)))
    decreases |b|
  {
    if |b| >= HEADER && IsBackground(Opcode(b)) { ScanStops(b[HEADER..]); }
  }

  /** What the library keeps of the incoming stream: the pending events head
      first, all events queued so far, the pongs read, the unread bytes and descriptors */
  datatype Inbox = Inbox(pending: seq<u16>, queued: seq<u16>, pongs: nat, awaitingPong: bool, rest: seq<byte>, fds: seq<i32>)

  /** Taking in all background messages at the front; linked_list_insert puts each
      new event at the head */
  function Absorb(i: Inbox): Inbox {
    var s := Scan(i.rest);
    Inbox(Reversed(s.events) + i.pending, i.queued + s.events, i.pongs + s.pongs, i.awaitingPong && s.pongs == 0, s.rest, i.fds)
  }

  /** Taking in one background message first makes no difference. */
  lemma AbsorbOne(i: Inbox, j: Inbox)
    requires |i.rest| >= HEADER && IsBackground(Opcode(i.rest)) && j.rest == i.rest[HEADER..]
    requires if IsEvent(Opcode(i.rest)) then
               j == i.(pending := [Opcode(i.rest)] + i.pending, queued := i.queued + [Opcode(i.rest)], rest := j.rest)
             else
               j == i.(pongs := i.pongs + 1, awaitingPong := false, rest := j.rest)
    ensures Absorb(j) == Absorb(i)
  {
    hide Opcode, IsEvent, IsBackground;
    var op, s := Opcode(i.rest), Scan(j.rest);
    if IsEvent(op) {
      assert ([op] + s.events)[1..] == s.events;
      assert Reversed([op] + s.events) + i.pending == Reversed(s.events) + ([op] + i.pending);
      assert i.queued + ([op] + s.events) == (i.queued + [op]) + s.events;
    }
  }

  lemma AbsorbNothing(i: Inbox)
    requires |i.rest| < HEADER || !IsBackground(Opcode(i.rest))
    ensures Absorb(i) == i
  {
  }

  lemma AbsorbStops(i: Inbox)
    ensures var r := Absorb(i).rest; |r| < HEADER || !IsBackground(Opcode(r))
    ensures Absorb(Absorb(i)) == Absorb(i)
  {
    ScanStops(i.rest);
    AbsorbNothing(Absorb(i));
  }

  /** What arrives is added to what is there. */
  function Receive(i: Inbox, more: seq<byte>, fds: seq<i32>): Inbox {
    i.(rest := i.rest + more, fds := i.fds + fds)
  }

  lemma ReceiveNothing(i: Inbox)
    ensures Receive(i, [], []) == i
  {
    assert i.rest + [] == i.rest && i.fds + [] == i.fds;
  }

  lemma ReceiveTwice(i: Inbox, a: seq<byte>, b: seq<byte>, fa: seq<i32>, fb: seq<i32>)
    ensures Receive(Receive(i, a, fa), b, fb) == Receive(i, a + b, fa + fb)
  {
    assert i.rest + a + b == i.rest + (a + b) && i.fds + fa + fb == i.fds + (fa + fb);
  }

  /** Absorbing before or after more arrives makes no difference. */
  lemma AbsorbAppend(i: Inbox, more: seq<byte>, fds: seq<i32>)
    ensures Absorb(Receive(i, more, fds)) == Absorb(Receive(Absorb(i), more, fds))
  {
    hide Scan, Reversed;
    var s := Scan(i.rest);
    var t := Scan(s.rest + more);
    ScanAppend(i.rest, more);
    ReversedConcat(s.events, t.events);
    assert Reversed(t.events) + (Reversed(s.events) + i.pending) == Reversed(s.events + t.events) + i.pending;
    assert i.queued + (s.events + t.events) == i.queued + s.events + t.events;
  }

  /** The number of background messages at the front */
  function Count(b: seq<byte>): nat {
    |Scan(b).events| + Scan(b).pongs
  }

  /** The stream a server produces: background messages, then the response */
  function EncodeBackground(ops: seq<u16>): seq<byte> {
    if ops == [] then [] else EncodeU16(ops[0]) + EncodeU16(0) + EncodeBackground(ops[1..])
  }

  function EventsOf(ops: seq<u16>): seq<u16> {
    if ops == [] then [] else (if ops[0] == SERVER_PONG then [] else [ops[0]]) + EventsOf(ops[1..])
  }

  function PongsOf(ops: seq<u16>): nat {
    if ops == [] then 0 else (if ops[0] == SERVER_PONG then 1 else 0) + PongsOf(ops[1..])
  }

  /** Any interleaving of events and pongs before a response is found exactly. */
  lemma {:induction false} ScanFindsBackground(ops: seq<u16>, response: seq<byte>)
    requires forall i :: 0 <= i < |ops| ==> IsBackground(ops[i])
    requires |response| < HEADER || !IsBackground(Opcode(response))
    ensures Scan(EncodeBackground(ops) + response) == Scanned(EventsOf(ops), PongsOf(ops), response)
  {
    if ops == [] {
      assert EncodeBackground(ops) + response == response;
    } else {
      FirstBackground(ops, response);
      BackgroundOpcodes(ops[0]);
      hide EncodeBackground, Opcode, IsBackground, IsEvent;
      ScanFindsBackground(ops[1..], response);
    }
  }

  lemma FirstBackground(ops: seq<u16>, more: seq<byte>)
    requires ops != []
    ensures var b := EncodeBackground(ops) + more;
      |b| >= HEADER && Opcode(b) == ops[0] && b[HEADER..] == EncodeBackground(ops[1..]) + more
  {
    hide EncodeU16, Opcode;
    var a, z, rest := EncodeU16(ops[0]), EncodeU16(0), EncodeBackground(ops[1..]);
    Regrouped(a, z, rest, more);
    HeaderOf(ops[0], 0, rest + more);
  }

  lemma Regrouped(a: seq<byte>, b: seq<byte>, c: seq<byte>, d: seq<byte>)
    ensures a + b + c + d == a + b + (c + d)
  {
  }

  lemma HeaderOf(opcode: u16, size: u16, more: seq<byte>)
    ensures var b := EncodeU16(opcode) + EncodeU16(size) + more;
      |b| >= HEADER && Opcode(b) == opcode && PayloadSize(b) == size && b[HEADER..] == more
  {
    U16RoundTrip(opcode);
    U16RoundTrip(size);
    hide EncodeU16, DecodeU16;
    var b := EncodeU16(opcode) + EncodeU16(size) + more;
    assert b[..2] == EncodeU16(opcode) && b[2..4] == EncodeU16(size);
  }

  /** The outcome of one poll(2) on the connection */
  datatype Polled = PollFailed(again: bool) | Quiet | Hangup | Readable(r: Received)

  /** What recvmsg hands over of a waiting message: at most what the ring has free */
  function Clip(i: Inbox, r: Received): (bytes: seq<byte>)
    requires r.Got?
    ensures bytes <= r.bytes && (bytes == r.bytes || |i.rest| + |bytes| == SIZE)
    ensures |i.rest| <= SIZE ==> |i.rest| + |bytes| <= SIZE
  {
    var free := SIZE - |i.rest|;
    if 0 <= free < |r.bytes| then r.bytes[..free] else r.bytes
  }

  /** The outcome of a read: it fails, for good or because it would block or poll(2)
      failed, there is nothing at all to read, or there is something */
  datatype ReadOutcome = Lost | Again | Unpolled | Nothing | More(inbox: Inbox)

  /** connection_read */
  function ReadInto(i: Inbox, r: Received): ReadOutcome {
    if |i.rest| >= SIZE then Lost
    else if r.Failed? then if r.again then Again else Lost
    else
      var a := Admit(r.cmsgs, 4 * |i.fds|, false);
      if a.overflow then Lost
      else if i.rest + Clip(i, r) == [] then Nothing
      else More(Receive(i, Clip(i, r), a.queued))
  }

  /** poll_connection: an end of stream and a hangup are failures, an interrupted
      poll is not. */
  function PollInto(i: Inbox, p: Polled): ReadOutcome {
    match p
    case PollFailed(again) => if again then Nothing else Unpolled
    case Quiet => Nothing
    case Hangup => Lost
    case Readable(r) => if ReadInto(i, r) == Nothing then Lost else ReadInto(i, r)
  }

  /** The end of a request: answered, refused by the library itself, failed for
      lack of a connection, given up although the connection stands, or still waiting */
  datatype Wait = Ready | Refused | Broken | GaveUp | Waiting

  /** The course of a wait for a response: the background messages in front are
      taken in, and unless a response is there what the next poll delivers is added. */
  function Await(i: Inbox, polls: seq<Polled>): (Wait, Inbox)
    decreases |polls|
  {
    var j := Absorb(i);
    if AtResponse(j.rest) then (Ready, j)
    else if polls == [] then (Waiting, j)
    else
      match PollInto(j, polls[0])
      case Lost => (Broken, j)
      case Again => (GaveUp, j)
      case Unpolled => (GaveUp, j)
      case Nothing => Await(j, polls[1..])
      case More(k) => Await(k, polls[1..])
  }

  // The same course told by what each poll brings, without the functions above.

  /** A poll after which the wait goes on: it was interrupted, found nothing, or brought
      something the connection has room for. */
  predicate GoesOn(i: Inbox, p: Polled) {
    match p
    case PollFailed(again) => again
    case Quiet => true
    case Hangup => false
    case Readable(r) => |i.rest| < SIZE && r.Got? && Accommodates(4 * |i.fds|, r.cmsgs) && i.rest + r.bytes != []
  }

  /** A poll that ends the wait but not the connection: poll(2) failed, or the read would block. */
  predicate Harmless(i: Inbox, p: Polled) {
    p == PollFailed(false) || (|i.rest| < SIZE && p == Readable(Failed(true)))
  }

  /** What a poll brings: as many bytes as fit, and all descriptors */
  function BytesOf(i: Inbox, p: Polled): seq<byte> {
    if p.Readable? && p.r.Got? then Clip(i, p.r) else []
  }

  function FdsBrought(p: Polled): seq<i32> {
    if p.Readable? && p.r.Got? then AllFds(p.r.cmsgs) else []
  }

  /** The bytes and descriptors brought by the polls of a wait, and the poll that ended it */
  datatype Course = Course(bytes: seq<byte>, fds: seq<i32>, stop: Option<Polled>)

  function CourseOf(i: Inbox, polls: seq<Polled>): Course
    decreases |polls|
  {
    var j := Absorb(i);
    if AtResponse(j.rest) || polls == [] then Course([], [], None)
    else if !GoesOn(j, polls[0]) then Course([], [], Some(polls[0]))
    else
      var bytes, fds := BytesOf(j, polls[0]), FdsBrought(polls[0]);
      var c := CourseOf(Receive(j, bytes, fds), polls[1..]);
      Course(bytes + c.bytes, fds + c.fds, c.stop)
  }

  /** What a poll leads to, for each kind of poll */
  lemma PollIntoExactly(i: Inbox, p: Polled)
    ensures GoesOn(i, p) ==>
      PollInto(i, p) == if p.Readable? then More(Receive(i, BytesOf(i, p), FdsBrought(p))) else Nothing
    ensures Harmless(i, p) <==> PollInto(i, p) == Again || PollInto(i, p) == Unpolled
    ensures !GoesOn(i, p) && !Harmless(i, p) <==> PollInto(i, p) == Lost
  {
    hide Admit, Accommodates;
    if p.Readable? && p.r.Got? { OverflowExactly(p.r.cmsgs, 4 * |i.fds|); }
  }

  /** However the polls cut the stream up, the wait comes to what one read of it all
      would have come to, so each event in front of the response is queued once.  The
      response is there exactly if what was brought before the first poll that stops the
      wait reaches it; that poll decides whether the connection is lost or the request
      is given up. */
  lemma {:induction false} AwaitIsOneRead(i: Inbox, polls: seq<Polled>)
    ensures var c := CourseOf(i, polls);
      var (wait, j) := Await(i, polls);
      && j == Absorb(Receive(i, c.bytes, c.fds))
      && (wait == Ready <==> AtResponse(j.rest))
      && (wait == Waiting <==> !AtResponse(j.rest) && c.stop == None)
      && (wait == GaveUp <==> c.stop.Some? && Harmless(j, c.stop.value))
      && (wait == Broken <==> c.stop.Some? && !Harmless(j, c.stop.value))
    decreases |polls|
  {
    hide Absorb, AtResponse, Clip, PollInto, GoesOn, Harmless, FdsBrought, BytesOf, Receive;
    var j := Absorb(i);
    ReceiveNothing(i);
    AbsorbStops(i);
    if !AtResponse(j.rest) && polls != [] {
      PollIntoExactly(j, polls[0]);
      if GoesOn(j, polls[0]) {
        var bytes, fds := BytesOf(j, polls[0]), FdsBrought(polls[0]);
        var k := Receive(j, bytes, fds);
        if !polls[0].Readable? { NothingBrought(j, polls[0]); }
        AwaitIsOneRead(k, polls[1..]);
        var c := CourseOf(k, polls[1..]);
        ReceiveTwice(j, bytes, c.bytes, fds, c.fds);
        AbsorbAppend(i, bytes + c.bytes, fds + c.fds);
      }
    }
  }

  lemma NothingBrought(i: Inbox, p: Polled)
    requires !p.Readable?
    ensures Receive(i, BytesOf(i, p), FdsBrought(p)) == i
  {
    ReceiveNothing(i);
  }

  /** A poll that was interrupted or found nothing makes no difference. */
  lemma IdlePollsDoNotMatter(i: Inbox, idle: Polled, polls: seq<Polled>)
    requires idle == PollFailed(true) || idle == Quiet
    ensures Await(i, [idle] + polls) == Await(i, polls)
  {
    hide Absorb, AtResponse;
    AbsorbStops(i);
    assert ([idle] + polls)[1..] == polls;
  }

  /** A hangup, or an end of stream with nothing buffered, breaks a wait that has no
      response yet; a read that would block or a failing poll(2) only ends it. */
  lemma WhatEndsAWait(i: Inbox, polls: seq<Polled>)
    requires !AtResponse(Absorb(i).rest)
    ensures Await(i, [Hangup] + polls) == (Broken, Absorb(i))
    ensures Absorb(i).rest == [] ==> Await(i, [Readable(Got([], []))] + polls) == (Broken, Absorb(i))
    ensures Await(i, [PollFailed(false)] + polls) == (GaveUp, Absorb(i))
    ensures |Absorb(i).rest| < SIZE ==> Await(i, [Readable(Failed(true))] + polls) == (GaveUp, Absorb(i))
  {
    hide Absorb, AtResponse, PollInto;
    var j := Absorb(i);
    PollIntoExactly(j, Hangup);
    PollIntoExactly(j, Readable(Got([], [])));
    PollIntoExactly(j, PollFailed(false));
    PollIntoExactly(j, Readable(Failed(true)));
  }

  /** The events taken in by a wait that gives up are covered exactly if there are none
      or a ping is under way. */
  predicate CoveredInbox(i: Inbox) {
    i.pending == [] || i.awaitingPong
  }

  /** An enable event is read, and then poll(2) fails: the request is given up with the
      event pending and no ping under way to wake the caller. */
  lemma WakeupCanBeLost()
    ensures var i := Inbox([], [], 0, false, EncodeBackground([SERVER_ENABLE_SEAT]), []);
      var (wait, j) := Await(i, [PollFailed(false)]);
      wait == GaveUp && j.pending == [SERVER_ENABLE_SEAT] && !CoveredInbox(j)
  {
    var i := Inbox([], [], 0, false, EncodeBackground([SERVER_ENABLE_SEAT]), []);
    assert [SERVER_ENABLE_SEAT][1..] == [];
    assert i.rest + [] == i.rest;
    ScanFindsBackground([SERVER_ENABLE_SEAT], []);
    assert Scan(i.rest) == Scanned([SERVER_ENABLE_SEAT], 0, []);
    assert Reversed([SERVER_ENABLE_SEAT]) == [SERVER_ENABLE_SEAT];
    assert Absorb(i).pending == [SERVER_ENABLE_SEAT];
  }

  /** What set_error leaves: the first time it drops the pending events and closes the descriptors. */
  function Cleared(i: Inbox, error: bool): Inbox {
    if error then i else i.(pending := [], fds := [])
  }

  /** Each queued event was executed, is about to be (`list`) or is pending, once
      each; only an error drops some of the pending ones. */
  ghost predicate Balanced(executed: seq<u16>, list: seq<u16>, pending: seq<u16>, queued: seq<u16>, error: bool) {
    && (forall x :: x in pending || x in list ==> IsEvent(x))
    && multiset(executed) + multiset(list) + multiset(pending) <= multiset(queued)
    && (!error ==> multiset(executed) + multiset(list) + multiset(pending) == multiset(queued))
  }

  lemma QueueBalanced(executed: seq<u16>, list: seq<u16>, pending: seq<u16>, queued: seq<u16>, error: bool, events: seq<u16>)
    requires Balanced(executed, list, pending, queued, error)
    requires forall x :: x in events ==> IsEvent(x)
    ensures Balanced(executed, list, Reversed(events) + pending, queued + events, error)
  {
    ReversedIsPermutation(events);
    assert forall x :: x in Reversed(events) ==> x in multiset(Reversed(events));
    assert multiset(Reversed(events) + pending) == multiset(events) + multiset(pending);
  }

  lemma ExecuteBalanced(executed: seq<u16>, list: seq<u16>, pending: seq<u16>, queued: seq<u16>, error: bool)
    requires Balanced(executed, list, pending, queued, error) && list != []
    ensures Balanced(executed + [list[0]], list[1..], pending, queued, error) && IsEvent(list[0])
  {
    assert list == [list[0]] + list[1..];
    assert multiset(list) == multiset([list[0]]) + multiset(list[1..]);
  }

  /** What a listener does in a callback: it makes requests, or dispatches again. */
  datatype Calls =
    | Return
    | Open(path: seq<byte>, polls: seq<Polled>, rest: Calls)
    | Ask(request: SeatModel.Request, polls: seq<Polled>, rest: Calls)
    | Dispatch(turn: Turn, rest: Calls)

  /** What a listener does in one callback after the other */
  datatype Listener = Silent | Answer(calls: Calls, next: Listener)

  /** A dispatch: whether it may wait, what is there to read at once or after a poll,
      and what the listener does before and after that */
  datatype Turn = Turn(mayWait: bool, now: Received, poll: Polled, first: Listener, second: Listener)

  predicate Proper(calls: Calls) {
    match calls
    case Return => true
    case Open(path, _, rest) => 0 !in path && Proper(rest)
    case Ask(request, _, rest) => Encodable(request) && Simple(request) && Proper(rest)
    case Dispatch(turn, rest) => ProperListener(turn.first) && ProperListener(turn.second) && Proper(rest)
  }

  predicate ProperListener(l: Listener) {
    l.Answer? ==> Proper(l.calls) && ProperListener(l.next)
  }

  /** The listener makes requests only. */
  predicate Plain(calls: Calls) {
    match calls
    case Return => true
    case Open(_, _, rest) => Plain(rest)
    case Ask(_, _, rest) => Plain(rest)
    case Dispatch(_, _) => false
  }

  predicate PlainListener(l: Listener) {
    l.Answer? ==> Plain(l.calls) && PlainListener(l.next)
  }

  /** The events of a list, each followed by those executed within its callback */
  function Weave(list: seq<u16>, nested: seq<seq<u16>>): seq<u16>
    requires |list| == |nested|
  {
    if list == [] then []
    else
      var n := |list| - 1;
      Weave(list[..n], nested[..n]) + [list[n]] + nested[n]
  }

  lemma {:induction false} WeaveNothing(list: seq<u16>, nested: seq<seq<u16>>)
    requires |list| == |nested| && forall k :: 0 <= k < |nested| ==> nested[k] == []
    ensures Weave(list, nested) == list
  {
    if list != [] {
      var n := |list| - 1;
      WeaveNothing(list[..n], nested[..n]);
      assert list == list[..n] + [list[n]];
    }
  }

  lemma WeaveMore(list: seq<u16>, nested: seq<seq<u16>>, x: u16, inner: seq<u16>)
    requires |list| == |nested|
    ensures Weave(list + [x], nested + [inner]) == Weave(list, nested) + [x] + inner
  {
    assert (list + [x])[..|list|] == list && (nested + [inner])[..|list|] == nested;
  }

  /** What read_header accepts */
  predicate HeaderFits(b: seq<byte>, opcode: u16, size: nat, variable: bool)
  {
    |b| >= HEADER && Opcode(b) == opcode && (PayloadSize(b) == size || (variable && PayloadSize(b) > size))
  }

  /** An error reply, which refuses the request without breaking the connection */
  predicate ErrorReply(b: seq<byte>, opcode: u16)
  {
    |b| >= HEADER + 4 && Opcode(b) != opcode && Opcode(b) == SERVER_ERROR && PayloadSize(b) == 4
  }

  /** What a request returns: the payload of the response, and a descriptor where one belongs to it */
  datatype Reply = Reply(payload: seq<byte>, fd: Option<i32>)

  /** The reply found at the front of what is unread */
  function ReplyIn(i: Inbox, opcode: u16, size: nat, takesFd: bool): Option<Reply> {
    if !HeaderFits(i.rest, opcode, size, false) || |i.rest| < HEADER + size || (takesFd && i.fds == []) then None
    else Some(Reply(i.rest[HEADER..HEADER + size], if takesFd then Some(i.fds[0]) else None))
  }

  /** The device id and the descriptor of a device-opened response at the front */
  function DeviceIn(i: Inbox): (Option<i32>, Option<i32>) {
    match ReplyIn(i, SERVER_DEVICE_OPENED, 4, true)
    case None => (None, None)
    case Some(reply) => (Some(DecodeInt(reply.payload)), reply.fd)
  }

  /** What is unread after the reply, or the error reply, was taken */
  function Remaining(i: Inbox, opcode: u16, size: nat, takesFd: bool): Inbox {
    if ReplyIn(i, opcode, size, takesFd).Some? then
      i.(rest := i.rest[HEADER + size..], fds := if takesFd then i.fds[1..] else i.fds)
    else if ErrorReply(i.rest, opcode) then i.(rest := i.rest[HEADER + 4..])
    else i
  }

  /** What check_pending_events leaves if all goes well: a ping is under way if events wait. */
  function Checked(i: Inbox): Inbox {
    var j := Absorb(i);
    if j.pending == [] then j else j.(awaitingPong := true)
  }

  /** A message of the server */
  function Message(opcode: u16, payload: seq<byte>): seq<byte>
    requires |payload| < 0x1_0000
  {
    EncodeU16(opcode) + EncodeU16(|payload|) + payload
  }

  lemma MessageParts(opcode: u16, payload: seq<byte>)
    requires |payload| < 0x1_0000
    ensures var m := Message(opcode, payload);
      && |m| == HEADER + |payload| && m[HEADER..HEADER + |payload|] == payload
      && Opcode(m) == opcode && PayloadSize(m) == |payload|
  {
    HeaderOf(opcode, |payload|, payload);
    hide Opcode, PayloadSize;
  }

  /** A message at the front is the reply exactly if it is the one asked for, with a
      payload of that size and a descriptor if one is due; an error message instead
      refuses the request.  Either way exactly that message is taken. */
  lemma ReplyDecodes(i: Inbox, opcode: u16, other: u16, payload: seq<byte>, more: seq<byte>, takesFd: bool)
    requires |payload| < 0x1_0000 && i.rest == Message(opcode, payload) + more
    ensures ReplyIn(i, other, |payload|, takesFd) ==
      if other == opcode && (takesFd ==> i.fds != []) then Some(Reply(payload, if takesFd then Some(i.fds[0]) else None)) else None
    ensures ErrorReply(i.rest, other) <==> other != opcode == SERVER_ERROR && |payload| == 4
    ensures (other == opcode && (takesFd ==> i.fds != [])) || (other != opcode == SERVER_ERROR && |payload| == 4) ==>
      Remaining(i, other, |payload|, takesFd) == i.(rest := more, fds := if other == opcode && takesFd then i.fds[1..] else i.fds)
  {
    var m := Message(opcode, payload);
    MessageParts(opcode, payload);
    hide Message, Opcode, PayloadSize;
    HeaderOfPrefix(m, more);
    assert (m + more)[HEADER..HEADER + |payload|] == m[HEADER..HEADER + |payload|];
    assert (m + more)[HEADER + |payload|..] == more;
  }

  /** A response is read back whole behind any mix of events and pongs, with its
      descriptor, and each of those events is queued exactly once, in order. */
  lemma ReplyIsFound(i: Inbox, ops: seq<u16>, opcode: u16, payload: seq<byte>, fds: seq<i32>, takesFd: bool)
    requires i.rest == [] && i.fds == [] && (takesFd ==> fds != [])
    requires forall k :: 0 <= k < |ops| ==> IsBackground(ops[k])
    requires !IsBackground(opcode) && |payload| < 0x1_0000
    ensures var j := Absorb(Receive(i, EncodeBackground(ops) + Message(opcode, payload), fds));
      && ReplyIn(j, opcode, |payload|, takesFd) == Some(Reply(payload, if takesFd then Some(fds[0]) else None))
      && j.queued == i.queued + EventsOf(ops) && j.pongs == i.pongs + PongsOf(ops)
  {
    hide EncodeBackground, Message, Scan, Opcode, EventsOf, PongsOf, Reversed, ReplyIn, Remaining, ErrorReply, IsBackground;
    var m := Message(opcode, payload);
    MessageParts(opcode, payload);
    ScanFindsBackground(ops, m);
    assert [] + (EncodeBackground(ops) + m) == EncodeBackground(ops) + m && [] + fds == fds && m + [] == m;
    ReplyDecodes(Absorb(Receive(i, EncodeBackground(ops) + m, fds)), opcode, opcode, payload, [], takesFd);
  }

  /** What is taken for a reply is a message of the opcode and size asked for. */
  lemma OnlyRepliesAreTaken(i: Inbox, opcode: u16, size: nat, takesFd: bool)
    requires ReplyIn(i, opcode, size, takesFd).Some?
    ensures size < 0x1_0000
    ensures var reply := ReplyIn(i, opcode, size, takesFd).value;
      && |reply.payload| == size && i.rest == Message(opcode, reply.payload) + Remaining(i, opcode, size, takesFd).rest
      && if takesFd then reply.fd.Some? && i.fds == [reply.fd.value] + Remaining(i, opcode, size, takesFd).fds
         else reply.fd == None && i.fds == Remaining(i, opcode, size, takesFd).fds
  {
    U16Exact(i.rest[..2]);
    U16Exact(i.rest[2..4]);
    hide DecodeU16, EncodeU16;
    var b := i.rest;
    assert b == b[..2] + b[2..4] + b[HEADER..HEADER + size] + b[HEADER + size..];
  }

  /** The answer to open_device: the id in the message, and the descriptor beside it */
  lemma DeviceDecodes(i: Inbox, id: i32, fd: i32, more: seq<byte>, fds: seq<i32>)
    requires i.rest == Message(SERVER_DEVICE_OPENED, EncodeInt(id)) + more && i.fds == [fd] + fds
    ensures DeviceIn(i) == (Some(id), Some(fd))
    ensures Remaining(i, SERVER_DEVICE_OPENED, 4, true) == i.(rest := more, fds := fds)
  {
    hide Message, ReplyIn, Remaining, EncodeInt, DecodeInt;
    ReplyDecodes(i, SERVER_DEVICE_OPENED, SERVER_DEVICE_OPENED, EncodeInt(id), more, true);
    IntRoundTrip(id);
  }

  /** What the library refuses without asking */
  predicate Negative(r: SeatModel.Request) {
    (r.CloseDevice? && r.id < 0) || (r.SwitchSession? && r.session < 0)
  }

  /** The requests whose response is only a header */
  predicate Simple(r: SeatModel.Request) {
    r.CloseDevice? || r.SwitchSession? || r.DisableSeat?
  }

  function ResponseTo(r: SeatModel.Request): u16
    requires Simple(r)
  {
    if r.CloseDevice? then SERVER_DEVICE_CLOSED
    else if r.SwitchSession? then SERVER_SESSION_SWITCHED
    else SERVER_SEAT_DISABLED
  }

  /** The stream is at the message of the server that grants the request. */
  predicate Answered(r: SeatModel.Request, b: seq<byte>) {
    match r
    case CloseDevice(_) => Message(SERVER_DEVICE_CLOSED, []) <= b
    case SwitchSession(_) => Message(SERVER_SESSION_SWITCHED, []) <= b
    case DisableSeat => Message(SERVER_SEAT_DISABLED, []) <= b
    case _ => false
  }

  lemma AnsweredExactly(r: SeatModel.Request, i: Inbox)
    requires Simple(r)
    ensures ReplyIn(i, ResponseTo(r), 0, false).Some? <==> Answered(r, i.rest)
  {
    hide Message, ReplyIn;
    var m := Message(ResponseTo(r), []);
    if m <= i.rest {
      assert i.rest == m + i.rest[|m|..];
      ReplyDecodes(i, ResponseTo(r), ResponseTo(r), [], i.rest[|m|..], false);
    }
    if ReplyIn(i, ResponseTo(r), 0, false).Some? {
      OnlyRepliesAreTaken(i, ResponseTo(r), 0, false);
      assert ReplyIn(i, ResponseTo(r), 0, false).value.payload == [];
    }
  }

  /** The parts in which the other requests write theirs */
  function AskParts(r: SeatModel.Request): (parts: seq<seq<byte>>)
    requires Encodable(r) && Simple(r)
    ensures Concat(parts) == Encode(r)
    ensures forall i :: 0 <= i < |parts| ==> |parts[i]| <= SIZE
  {
    var payload := Payload(r);
    var header := EncodeU16(OpcodeOf(r)) + EncodeU16(|payload|);
    TwoParts(header, payload);
    if payload == [] then [header] else [header, payload]
  }

  lemma ThreeParts(parts: seq<seq<byte>>)
    requires |parts| == 3
    ensures Concat(parts) == parts[0] + parts[1] + parts[2]
  {
    assert parts[..2][..1][..0] == [];
    assert Concat(parts[..2][..1]) == parts[0];
    assert Concat(parts[..2]) == parts[0] + parts[1];
  }

  /** The parts in which open_device writes its message */
  function OpenParts(path: seq<byte>): (parts: seq<seq<byte>>)
    requires Encodable(SeatModel.OpenDevice(path))
    ensures Concat(parts) == Encode(SeatModel.OpenDevice(path))
    ensures forall i :: 0 <= i < |parts| ==> |parts[i]| <= SIZE
  {
    OpenPartsEncode(path);
    [EncodeU16(3) + EncodeU16(2 + |path| + 1), EncodeU16(|path| + 1), path + [0]]
  }

  lemma OpenPartsEncode(path: seq<byte>)
    requires Encodable(SeatModel.OpenDevice(path))
    ensures Concat([EncodeU16(3) + EncodeU16(2 + |path| + 1), EncodeU16(|path| + 1), path + [0]]) == Encode(SeatModel.OpenDevice(path))
  {
    hide EncodeU16, Concat;
    var parts: seq<seq<byte>> := [EncodeU16(3) + EncodeU16(2 + |path| + 1), EncodeU16(|path| + 1), path + [0]];
    ThreeParts(parts);
    assert parts[0] + parts[1] + parts[2] == parts[0] + (parts[1] + parts[2]);
  }

  lemma TwoParts(header: seq<byte>, payload: seq<byte>)
    ensures Concat([header]) == header && Concat([header, payload]) == header + payload
  {
    assert [header][..0] == [] && [header, payload][..1] == [header];
    assert Concat([header]) == [] + header;
  }

  class Client {
    const conn: Connection
    var pending: seq<u16>     // head first
    var awaitingPong: bool
    var error: bool

    ghost var queued: seq<u16>      // every event queued
    ghost var taken: seq<u16>       // taken over for execution, but not executed yet
    ghost var executed: seq<u16>    // every event passed to the listener
    ghost var unanswered: nat       // requests given up without an answer or an error
    ghost var pings: nat
    ghost var pongs: nat
    ghost var honest: bool          // no pong so far came without a ping

    ghost predicate EventsAccounted()
      reads `pending, `taken, `executed, `queued, `error
    {
      Balanced(executed, taken, pending, queued, error)
    }

    /** At most one ping is outstanding. */
    ghost predicate PingsAccounted()
      reads `honest, `pings, `pongs, `awaitingPong
    {
      honest ==> pings == pongs + if awaitingPong then 1 else 0
    }

    ghost predicate Valid()
      reads this, conn, conn.inbuf, conn.outbuf, conn.fdsIn, conn.fdsOut, conn.outbuf.data, conn.fdsOut.data
    {
      conn.Valid() && EventsAccounted() && PingsAccounted()
    }

    constructor ()
      ensures Valid() && fresh(conn) && !error && !awaitingPong && pending == []
      ensures queued == [] && taken == [] && executed == [] && honest && conn.inbuf.Contents() == []
    {
      conn := new Connection();
      pending, awaitingPong, error := [], false, false;
      queued, taken, executed, unanswered, pings, pongs, honest := [], [], [], 0, 0, 0, true;
    }

    ghost function In(): Inbox
      requires conn.Shape()
      reads `pending, `queued, `pongs, `awaitingPong, conn.inbuf, conn.inbuf.data, conn.outbuf, conn.fdsIn, conn.fdsIn.data, conn.fdsOut
    {
      Inbox(pending, queued, pongs, awaitingPong, conn.inbuf.Contents(), DecodeInts(conn.fdsIn.Contents()))
    }

    /** set_error, with the cleanup it does the first time */
    method SetError()
      requires Valid()
      modifies `error, `pending, conn`fates, conn.fdsIn`tail, conn.fdsOut`tail
      ensures Valid() && error && In() == Cleared(old(In()), old(error))
      ensures !old(error) ==> pending == [] && conn.fdsIn.Contents() == [] && FdsOf(conn.fates) == conn.fdsQueued
      ensures old(error) ==> pending == old(pending) && conn.fdsIn.Contents() == old(conn.fdsIn.Contents())
    {
      hide Ring.Contents, DecodeInts, FdsOf;
      if error {
        return;
      }
      error := true;
      var _, _ := conn.CloseAllFds();
      pending := [];
    }

    /** queue_event */
    method QueueEvent(opcode: u16)
      requires Valid() && IsEvent(opcode)
      modifies `pending, `queued
      ensures Valid()
      ensures pending == [opcode] + old(pending) && queued == old(queued) + [opcode]
    {
      pending := [opcode] + pending;
      queued := queued + [opcode];
    }

    /** A pong has been read */
    method TakePong()
      requires Valid()
      modifies `awaitingPong, `pongs, `honest
      ensures Valid() && !awaitingPong && pongs == old(pongs) + 1
      ensures honest == (old(honest) && pongs <= pings)
    {
      awaitingPong := false;
      pongs := pongs + 1;
      honest := honest && pongs <= pings;
    }

    /** The header at the front of the buffer; it is put back unless it is a background message. */
    method TakeHeader() returns (opcode: Option<u16>, complete: bool)
      requires Valid()
      modifies conn.inbuf`tail
      ensures Valid()
      ensures var b := old(conn.inbuf.Contents());
        && opcode.Some? == (|b| >= HEADER)
        && (opcode.Some? ==> opcode.value == Opcode(b))
        && complete == (Complete(b) && !IsBackground(Opcode(b)))
        && conn.inbuf.Contents() == if opcode.Some? && IsBackground(opcode.value) then b[HEADER..] else b
    {
      ghost var b := conn.inbuf.Contents();
      var header := conn.Get(HEADER);
      if header == None {
        return None, false;
      }
      SameHeader(b);
      hide Window;
      opcode, complete := Some(Opcode(header.value)), false;
      if !IsBackground(opcode.value) {
        complete := conn.inbuf.Size() >= PayloadSize(header.value);
        conn.Restore(HEADER);
        assert conn.inbuf.Contents() == b;
      }
    }

    /** One round of read_and_queue: a background message at the front is taken in. */
    method TakeBackground() returns (opcode: Option<u16>, complete: bool)
      requires Valid()
      modifies `pending, `queued, `awaitingPong, `pongs, `honest, conn.inbuf`tail
      ensures Valid() && Absorb(In()) == old(Absorb(In()))
      ensures var b, b1 := old(conn.inbuf.Contents()), conn.inbuf.Contents();
        && opcode == (if |b| >= HEADER then Some(Opcode(b)) else None)
        && complete == (Complete(b) && !IsBackground(Opcode(b)))
        && if opcode.Some? && IsBackground(opcode.value) then b1 == b[HEADER..] && Count(b) == 1 + Count(b1)
           else In() == old(In()) && Absorb(In()) == In() && Count(b1) == 0
    {
      hide Ring.Contents, Connection.Ledger, EventsAccounted, PingsAccounted, Absorb;
      ghost var i := In();
      opcode, complete := TakeHeader();
      if opcode == None {
        AbsorbNothing(i);
        return;
      }
      if opcode.value == SERVER_PONG {
        TakePong();
        AbsorbOne(i, In());
      } else if IsEvent(opcode.value) {
        QueueEvent(opcode.value);
        AbsorbOne(i, In());
      } else {
        AbsorbNothing(i);
      }
    }

    /** The loop of read_and_queue: takes in background messages up to the first
        other header, whose opcode it returns. */
    method TakeAllBackground() returns (taken: nat, opcode: Option<u16>, complete: bool)
      requires Valid()
      modifies `pending, `queued, `awaitingPong, `pongs, `honest, conn.inbuf`tail
      ensures Valid() && In() == old(Absorb(In())) && taken == Count(old(conn.inbuf.Contents()))
      ensures var b := conn.inbuf.Contents();
        opcode == (if |b| >= HEADER then Some(Opcode(b)) else None) && complete == Complete(b)
    {
      hide Ring.Contents, Connection.Ledger, EventsAccounted, PingsAccounted, Absorb, Count;
      taken := 0;
      while true
        invariant Valid() && Absorb(In()) == old(Absorb(In()))
        invariant taken + Count(conn.inbuf.Contents()) == Count(old(conn.inbuf.Contents()))
        decreases |conn.inbuf.Contents()|
      {
        opcode, complete := TakeBackground();
        if opcode == None || !IsBackground(opcode.value) {
          return;
        }
        taken := taken + 1;
      }
    }

    /** read_and_queue.  `forResponse` tells whether the caller waits for a
        response; if not, anything but a background message is an error. */
    method ReadAndQueue(forResponse: bool) returns (packets: int, opcode: u16)
      requires Valid()
      modifies `pending, `queued, `awaitingPong, `pongs, `honest, `error, conn`fates,
               conn.inbuf`tail, conn.fdsIn`tail, conn.fdsOut`tail
      ensures Valid()
      ensures var b := In().rest;
        && packets == (if !forResponse && |b| >= HEADER then -1
                       else Count(old(In()).rest) + if |b| >= HEADER then 1 else 0)
        && (packets == -1 ==> error && In() == Cleared(Absorb(old(In())), old(error)))
        && (packets != -1 ==> error == old(error) && In() == Absorb(old(In())))
        && opcode == (if forResponse && Complete(b) then Opcode(b) else 0)
    {
      hide Ring.Contents, Connection.Ledger, EventsAccounted, PingsAccounted, Absorb, Count, DecodeInts;
      var op, complete;
      packets, op, complete := TakeAllBackground();
      opcode := 0;
      if op == None {
        return;
      }
      packets := packets + 1;
      if !forResponse {
        SetError();
        packets := -1;
      } else if complete {
        opcode := op.value;
      }
    }

    /** connection_read, with what the kernel hands over */
    method ReadConnection(r: Received) returns (res: int, again: bool)
      requires Valid()
      modifies conn.inbuf`head, conn.inbuf.data, conn.fdsIn`head, conn.fdsIn.data
      ensures Valid() && -1 <= res
      ensures res == -1 <==> |old(In()).rest| >= SIZE || r.Failed? || 4 * |old(In()).fds| + 4 * |AllFds(r.cmsgs)| > SIZE
      ensures again <==> |old(In()).rest| < SIZE && r == Failed(true)
      ensures res != -1 ==> In() == Receive(old(In()), Clip(old(In()), r), AllFds(r.cmsgs)) && res == |In().rest|
      ensures res == -1 ==> In() == old(In()).(fds := In().fds) && (again ==> In() == old(In()))
      ensures match ReadInto(old(In()), r)
        case Lost => res == -1 && !again
        case Unpolled => false
        case Again => res == -1 && again && In() == old(In())
        case Nothing => res == 0
        case More(i) => res > 0 && In() == i
    {
      hide Ring.Contents, Connection.Ledger, EventsAccounted, PingsAccounted, DecodeInts, Admit, Accommodates;
      ghost var i := In();
      var clipped := r;
      if r.Got? && conn.inbuf.Size() < SIZE {
        clipped := r.(bytes := Clipped(r.bytes));
      }
      var closed;
      res, again, closed := conn.Read(clipped);
      assert 4 * |i.fds| == old(conn.fdsIn.Size());
      if r.Got? { AdmitConserves(r.cmsgs, 4 * |i.fds|); }
    }

    /** What fits the free part of the ring */
    function Clipped(bytes: seq<byte>): seq<byte>
      requires conn.inbuf.Size() <= SIZE
      reads conn.inbuf
    {
      if SIZE - conn.inbuf.Size() < |bytes| then bytes[..SIZE - conn.inbuf.Size()] else bytes
    }

    /** poll_connection.  `again` tells that the call failed only because a read
        would block, which is no error. */
    method PollConnection(p: Polled) returns (res: int, again: bool)
      requires Valid()
      modifies `error, `pending, conn`fates, conn.inbuf`head, conn.inbuf.data,
               conn.fdsIn`head, conn.fdsIn`tail, conn.fdsIn.data, conn.fdsOut`tail
      ensures Valid() && -1 <= res
      ensures match PollInto(old(In()), p)
        case Lost => res == -1 && !again && error
        case Unpolled => res == -1 && !again && error == old(error) && In() == old(In())
        case Again => res == -1 && again && error == old(error) && In() == old(In())
        case Nothing => res == 0 && error == old(error) && In() == old(In())
        case More(i) => res > 0 && error == old(error) && In() == i
      ensures p == PollFailed(true) || p == Quiet ==> res == 0 && error == old(error) && In() == old(In())
      ensures p == PollFailed(false) ==> res == -1 && !again && error == old(error) && In() == old(In())
      ensures p == Hangup ==> res == -1 && !again && error
      ensures p.Readable? ==>
        if GoesOn(old(In()), p) then
          && res == |In().rest| > 0 && error == old(error)
          && In() == Receive(old(In()), Clip(old(In()), p.r), AllFds(p.r.cmsgs))
        else if Harmless(old(In()), p) then res == -1 && again && error == old(error) && In() == old(In())
        else res == -1 && !again && error
      ensures (error || pending == old(pending)) && (old(error) ==> error)
    {
      hide Ring.Contents, Connection.Ledger, EventsAccounted, PingsAccounted, DecodeInts, ReadInto, Admit, Accommodates, GoesOn, Clip;
      PollIntoExactly(In(), p);
      again := false;
      match p {
        case PollFailed(again') =>
          return if again' then 0 else -1, false;
        case Quiet =>
          return 0, false;
        case Hangup =>
          SetError();
          return -1, false;
        case Readable(r) =>
          res, again := ReadConnection(r);
          if res == 0 || (res == -1 && !again) {
            SetError();
            res, again := -1, false;
          }
      }
    }

    /** conn_flush */
    method ConnFlush() returns (ok: bool)
      requires Valid()
      modifies `error, `pending, conn`wantFlush, conn`sent, conn`fates, conn.outbuf`tail, conn.fdsIn`tail, conn.fdsOut`tail
      ensures Valid() && old(conn.sent) <= conn.sent
      ensures ok ==> error == old(error) && In() == old(In()) && conn.sent == conn.accepted
      ensures !ok ==> error && conn.sent != conn.accepted
    {
      hide Ring.Contents, EventsAccounted, PingsAccounted, DecodeInts, FdsOf;
      var res, _ := conn.Flush();
      ok := res != -1;
      if !ok {
        SetError();
      }
    }

    /** conn_put */
    method ConnPut(data: seq<byte>) returns (ok: bool)
      requires Valid()
      modifies `error, `pending, conn`wantFlush, conn`accepted, conn`sent, conn`fates,
               conn.outbuf`head, conn.outbuf`tail, conn.outbuf.data, conn.fdsIn`tail, conn.fdsOut`tail
      ensures Valid() && old(conn.sent) <= conn.sent
      ensures ok ==> error == old(error) && In() == old(In()) && conn.accepted == old(conn.accepted) + data
      ensures !ok ==> error && conn.accepted == old(conn.accepted) && (|data| > SIZE || conn.sent != conn.accepted)
    {
      hide Ring.Contents, EventsAccounted, PingsAccounted, DecodeInts, FdsOf;
      ok := conn.Put(data);
      if !ok {
        SetError();
      }
    }

    /** The call of read_and_queue by read_until_response */
    method LookForResponse() returns (found: bool)
      requires Valid()
      modifies `pending, `queued, `awaitingPong, `pongs, `honest, `error, conn`fates,
               conn.inbuf`tail, conn.fdsIn`tail, conn.fdsOut`tail
      ensures Valid() && In() == old(Absorb(In())) && error == old(error)
      ensures found == AtResponse(In().rest)
    {
      hide Ring.Contents, Connection.Ledger, EventsAccounted, PingsAccounted, Absorb, Count;
      AbsorbStops(In());
      var packets, opcode := ReadAndQueue(true);
      found := opcode != 0;
    }

    lemma ValidFacts()
      requires Valid()
      ensures conn.Shape()
    {
    }

    /** read_until_response.  `polls` are the outcomes of the polls made while
        waiting; if they are used up before a response is complete the caller
        still waits. */
    method ReadUntilResponse(polls: seq<Polled>) returns (wait: Wait)
      requires Valid() && !error
      modifies `error, `pending, `queued, `awaitingPong, `pongs, `honest, conn`wantFlush, conn`sent, conn`fates,
               conn.inbuf, conn.inbuf.data, conn.outbuf`tail, conn.fdsIn, conn.fdsIn.data, conn.fdsOut`tail
      ensures Valid() && old(conn.sent) <= conn.sent
      ensures wait != Broken ==> error == old(error) && conn.sent == conn.accepted && (wait, In()) == Await(old(In()), polls)
      ensures wait == Broken ==> error && (Await(old(In()), polls).0 == Broken || conn.sent != conn.accepted)
      ensures wait != Refused
    {
      hide Client.Valid, Absorb, AtResponse, In, PollInto, Connection.Shape;
      var ok := ConnFlush();
      if !ok {
        return Broken;
      }
      ValidFacts();
      ghost var start := In();
      var i := 0;
      assert polls[0..] == polls;
      while true
        invariant 0 <= i <= |polls| && Valid() && conn.Shape()
        invariant error == old(error) && conn.sent == conn.accepted && old(conn.sent) <= conn.sent
        invariant Await(In(), polls[i..]) == Await(start, polls)
        decreases |polls| - i
      {
        AbsorbStops(In());
        var found := LookForResponse();
        if found {
          return Ready;
        }
        if i == |polls| {
          return Waiting;
        }
        assert polls[i..][0] == polls[i] && polls[i..][1..] == polls[i + 1..];
        var res, _ := PollConnection(polls[i]);
        if res == -1 {
          return if error then Broken else GaveUp;
        }
        ValidFacts();
        i := i + 1;
      }
    }

    /** conn_get */
    method ConnGet(count: nat) returns (bytes: Option<seq<byte>>)
      requires Valid()
      modifies `error, `pending, conn`fates, conn.inbuf`tail, conn.fdsIn`tail, conn.fdsOut`tail
      ensures Valid() && bytes.Some? == (count <= |old(In()).rest|)
      ensures bytes.Some? ==>
        && error == old(error) && In() == old(In()).(rest := old(In()).rest[count..])
        && bytes.value == old(In()).rest[..count]
      ensures bytes.None? ==> error
    {
      hide Ring.Contents, Window, Connection.Ledger, EventsAccounted, PingsAccounted, DecodeInts;
      bytes := conn.Get(count);
      if bytes == None {
        SetError();
      }
    }

    /** read_header */
    method ReadHeader(opcode: u16, size: nat, variable: bool) returns (r: Option<nat>)
      requires Valid()
      modifies `error, `pending, conn`fates, conn.inbuf`tail, conn.fdsIn`tail, conn.fdsOut`tail
      ensures Valid()
      ensures var b := old(In()).rest;
        && r == (if HeaderFits(b, opcode, size, variable) then Some(PayloadSize(b)) else None)
        && (r.Some? ==> error == old(error) && In() == old(In()).(rest := b[HEADER..]))
        && (r.None? ==> if ErrorReply(b, opcode) then error == old(error) && In() == old(In()).(rest := b[HEADER + 4..])
                        else error)
    {
      hide Ring.Contents, Connection.Ledger, EventsAccounted, PingsAccounted, DecodeInts;
      ghost var b := conn.inbuf.Contents();
      var header := ConnGet(HEADER);
      if header == None {
        SetError();
        return None;
      }
      SameHeader(b);
      var op, n := Opcode(header.value), PayloadSize(header.value);
      if op != opcode {
        if op != SERVER_ERROR || n != 4 {
          SetError();
        } else {
          var msg := ConnGet(4);
          if msg == None {
            SetError();
          } else {
            assert b[HEADER..][4..] == b[HEADER + 4..];
          }
        }
        return None;
      }
      if (!variable && n != size) || (variable && n < size) {
        SetError();
        return None;
      }
      r := Some(n);
    }

    /** send_ping */
    method SendPing() returns (ok: bool)
      requires Valid()
      modifies `error, `pending, conn`wantFlush, conn`accepted, conn`sent, conn`fates,
               conn.outbuf, conn.outbuf.data, conn.fdsIn`tail, conn.fdsOut`tail
      ensures Valid() && old(conn.sent) <= conn.sent
      ensures ok ==> error == old(error) && In() == old(In())
                     && conn.sent == conn.accepted == old(conn.accepted) + Encode(SeatModel.Ping)
      ensures !ok ==> error && conn.sent != conn.accepted
    {
      hide Ring.Contents, Connection.Ledger, EventsAccounted, PingsAccounted, DecodeInts;
      ok := ConnPut(Encode(SeatModel.Ping));
      if ok {
        ok := ConnFlush();
      }
    }

    /** An event that waits for the next dispatch is covered by a ping whose pong
        has not been read, so the dispatch is not missed. */
    ghost predicate Covered()
      reads `error, `pending, `awaitingPong
    {
      error || pending == [] || awaitingPong
    }

    /** Waiting events are covered, unless a request was given up in between. */
    twostate predicate StaysCovered()
      reads `unanswered, `error, `pending, `awaitingPong
    {
      old(unanswered) <= unanswered && (old(Covered()) && unanswered == old(unanswered) ==> Covered())
    }

    /** check_pending_events */
    method CheckPendingEvents()
      requires Valid()
      modifies `error, `pending, `queued, `pongs, `honest, `pings, `awaitingPong, conn`wantFlush, conn`accepted, conn`sent, conn`fates,
               conn.inbuf`tail, conn.outbuf, conn.outbuf.data, conn.fdsIn`tail, conn.fdsOut`tail
      ensures Valid() && Covered() && old(conn.sent) <= conn.sent && (old(error) ==> error)
      ensures !error ==> In() == Checked(old(In()))
      ensures error && !old(error) ==> |Absorb(old(In())).rest| >= HEADER || conn.sent != conn.accepted
      ensures |Absorb(old(In())).rest| >= HEADER ==> error
      ensures pings <= old(pings) + 1
      ensures pings > old(pings) ==>
        && awaitingPong && pongs == old(Absorb(In())).pongs
        && conn.sent == old(conn.accepted) + Encode(SeatModel.Ping)
    {
      hide Ring.Contents, Connection.Ledger, EventsAccounted, Absorb, DecodeInts;
      var packets, _ := ReadAndQueue(false);
      if packets == -1 {
        return;
      }
      if pending == [] {
        return;
      }
      if awaitingPong {
        return;
      }
      var ok := SendPing();
      if !ok {
        return;
      }
      awaitingPong := true;
      pings := pings + 1;
    }

    /** The reads of an answered request: the header, the payload, and the descriptor if one is due */
    method TakeReply(opcode: u16, size: nat, takesFd: bool) returns (reply: Option<Reply>)
      requires Valid()
      modifies `error, `pending, conn`fates, conn.inbuf`tail, conn.fdsIn`tail, conn.fdsOut`tail
      ensures Valid() && reply == ReplyIn(old(In()), opcode, size, takesFd)
      ensures error == (old(error) || (reply == None && !ErrorReply(old(In()).rest, opcode)))
      ensures reply.Some? || ErrorReply(old(In()).rest, opcode) ==> In() == Remaining(old(In()), opcode, size, takesFd)
    {
      hide Ring.Contents, Connection.Ledger, EventsAccounted, PingsAccounted, DecodeInts;
      ghost var b := In().rest;
      var header := ReadHeader(opcode, size, false);
      if header == None {
        return None;
      }
      var payload := ConnGet(size);
      if payload == None {
        return None;
      }
      assert b[HEADER..][..size] == b[HEADER..HEADER + size];
      if !takesFd {
        return Some(Reply(payload.value, None));
      }
      var fd := conn.GetFd();
      if fd == None {
        SetError();
        return None;
      }
      reply := Some(Reply(payload.value, fd));
    }

    method PutAll(parts: seq<seq<byte>>) returns (ok: bool)
      requires Valid() && forall i :: 0 <= i < |parts| ==> |parts[i]| <= SIZE
      modifies `error, `pending, conn`wantFlush, conn`accepted, conn`sent, conn`fates,
               conn.outbuf`head, conn.outbuf`tail, conn.outbuf.data, conn.fdsIn`tail, conn.fdsOut`tail
      ensures Valid() && old(conn.sent) <= conn.sent
      ensures ok ==> error == old(error) && In() == old(In()) && conn.accepted == old(conn.accepted) + Concat(parts)
      ensures !ok ==> error && conn.sent != conn.accepted
    {
      hide Ring.Contents, Connection.Ledger, EventsAccounted, PingsAccounted, DecodeInts;
      for i := 0 to |parts|
        invariant Valid() && old(conn.sent) <= conn.sent && error == old(error) && In() == old(In())
        invariant conn.accepted == old(conn.accepted) + Concat(parts[..i])
      {
        ok := ConnPut(parts[i]);
        if !ok {
          return;
        }
        assert parts[..i + 1][..i] == parts[..i];
      }
      assert parts[..|parts|] == parts;
      ok := true;
    }

    /** The common course of the requests: write the parts of the message, wait for
        the response, read it, and look after the events that came along. */
    method Exchange(parts: seq<seq<byte>>, opcode: u16, size: nat, takesFd: bool, polls: seq<Polled>)
      returns (wait: Wait, reply: Option<Reply>)
      requires Valid() && !error && forall i :: 0 <= i < |parts| ==> |parts[i]| <= SIZE
      modifies `error, `pending, `queued, `awaitingPong, `pongs, `pings, `honest, `unanswered,
               conn`wantFlush, conn`accepted, conn`sent, conn`fates, conn.inbuf, conn.inbuf.data,
               conn.outbuf, conn.outbuf.data, conn.fdsIn, conn.fdsIn.data, conn.fdsOut`tail
      ensures Valid()
      ensures wait == Ready ==>
        && old(conn.accepted) + Concat(parts) <= conn.sent && Covered()
        && Await(old(In()), polls).0 == Ready && reply == ReplyIn(Await(old(In()), polls).1, opcode, size, takesFd)
        && Settled(Await(old(In()), polls).1, opcode, size, takesFd)
      ensures wait == Waiting || wait == GaveUp ==> !error && (wait, In()) == Await(old(In()), polls)
      ensures wait == Broken ==> error && (Await(old(In()), polls).0 == Broken || conn.sent != conn.accepted)
      ensures wait != Ready ==> reply == None && wait != Refused
      ensures Covered() <==> error || Await(old(In()), polls).0 == Ready || CoveredInbox(Await(old(In()), polls).1)
      ensures unanswered == old(unanswered) + if wait == Waiting || wait == GaveUp then 1 else 0
    {
      hide Client.Valid, Absorb, AtResponse, In, Connection.Shape, ReplyIn, ErrorReply, Remaining, Checked, Concat, Await;
      reply := None;
      var ok := PutAll(parts);
      if !ok {
        wait := Broken;
        return;
      }
      wait := ReadUntilResponse(polls);
      if wait != Ready {
        CountUnanswered();
        ValidFacts();
        InFacts();
        return;
      }
      reply := TakeReply(opcode, size, takesFd);
      CheckPendingEvents();
    }

    method CountUnanswered()
      requires Valid()
      modifies `unanswered
      ensures Valid() && In() == old(In()) && unanswered == old(unanswered) + if error then 0 else 1
    {
      if !error {
        unanswered := unanswered + 1;
      }
    }

    /** The end of an answered request, which was at inbox i when the response was
        there: without an error all that follows is taken in and covered; an error
        means a bad response, a stray one behind it, or bytes that could not be sent. */
    ghost predicate Settled(i: Inbox, opcode: u16, size: nat, takesFd: bool)
      requires conn.Shape()
      reads `error, `pending, `queued, `pongs, `awaitingPong, conn, conn.inbuf, conn.inbuf.data, conn.outbuf,
            conn.fdsIn, conn.fdsIn.data, conn.fdsOut
    {
      if error then
        || (ReplyIn(i, opcode, size, takesFd) == None && !ErrorReply(i.rest, opcode))
        || |Absorb(Remaining(i, opcode, size, takesFd)).rest| >= HEADER
        || conn.sent != conn.accepted
      else In() == Checked(Remaining(i, opcode, size, takesFd))
    }

    /** open_device */
    method OpenDevice(path: seq<byte>, polls: seq<Polled>) returns (wait: Wait, id: Option<i32>, fd: Option<i32>)
      requires Valid() && 0 !in path
      modifies `error, `pending, `queued, `awaitingPong, `pongs, `pings, `honest, `unanswered,
               conn`wantFlush, conn`accepted, conn`sent, conn`fates, conn.inbuf, conn.inbuf.data,
               conn.outbuf, conn.outbuf.data, conn.fdsIn, conn.fdsIn.data, conn.fdsOut`tail
      ensures Valid()
      ensures old(error) ==> wait == Broken
      ensures wait == Refused <==> !old(error) && !Encodable(SeatModel.OpenDevice(path))
      ensures old(error) || wait == Refused ==> conn.accepted == old(conn.accepted) && In() == old(In()) && error == old(error)
      ensures wait == Ready ==>
        && old(conn.accepted) + Encode(SeatModel.OpenDevice(path)) <= conn.sent && Covered()
        && Await(old(In()), polls).0 == Ready
        && Settled(Await(old(In()), polls).1, SERVER_DEVICE_OPENED, 4, true)
        && (id, fd) == DeviceIn(Await(old(In()), polls).1)
      ensures wait == Waiting || wait == GaveUp ==> !error && (wait, In()) == Await(old(In()), polls)
      ensures wait == Broken ==> error && (old(error) || Await(old(In()), polls).0 == Broken || conn.sent != conn.accepted)
      ensures wait != Ready ==> id == fd == None
      ensures wait != Refused ==> (Covered() <==> error || Await(old(In()), polls).0 == Ready || CoveredInbox(Await(old(In()), polls).1))
      ensures StaysCovered() && unanswered == old(unanswered) + if wait == Waiting || wait == GaveUp then 1 else 0
    {
      hide Client.Valid, Absorb, AtResponse, In, Connection.Shape, Await, Settled;
      id, fd := None, None;
      if error {
        wait := Broken;
        return;
      }
      if |path| + 1 > MAX_PATH_LEN {
        wait := Refused;
        return;
      }
      var parts := OpenParts(path);
      hide Encode, OpenParts, Concat, DecodeInt;
      var reply;
      wait, reply := Exchange(parts, SERVER_DEVICE_OPENED, 4, true, polls);
      if reply.Some? {
        id, fd := Some(DecodeInt(reply.value.payload)), reply.value.fd;
      }
    }

    /** close_device, switch_session and disable_seat: a request with an empty response */
    method Ask(request: SeatModel.Request, polls: seq<Polled>) returns (wait: Wait, ok: bool)
      requires Valid() && Encodable(request) && Simple(request)
      modifies `error, `pending, `queued, `awaitingPong, `pongs, `pings, `honest, `unanswered,
               conn`wantFlush, conn`accepted, conn`sent, conn`fates, conn.inbuf, conn.inbuf.data,
               conn.outbuf, conn.outbuf.data, conn.fdsIn, conn.fdsIn.data, conn.fdsOut`tail
      ensures Valid()
      ensures old(error) ==> wait == Broken
      ensures wait == Refused <==>
        !old(error) && ((request.CloseDevice? && request.id < 0) || (request.SwitchSession? && request.session < 0))
      ensures old(error) || wait == Refused ==> conn.accepted == old(conn.accepted) && In() == old(In()) && error == old(error)
      ensures wait == Ready ==>
        && old(conn.accepted) + Encode(request) <= conn.sent && Covered()
        && Await(old(In()), polls).0 == Ready && ok == ReplyIn(Await(old(In()), polls).1, ResponseTo(request), 0, false).Some?
        && Settled(Await(old(In()), polls).1, ResponseTo(request), 0, false)
      ensures ok <==> wait == Ready && Answered(request, Await(old(In()), polls).1.rest)
      ensures wait == Waiting || wait == GaveUp ==> !error && (wait, In()) == Await(old(In()), polls)
      ensures wait == Broken ==> error && (old(error) || Await(old(In()), polls).0 == Broken || conn.sent != conn.accepted)
      ensures wait != Ready ==> !ok
      ensures wait != Refused ==> (Covered() <==> error || Await(old(In()), polls).0 == Ready || CoveredInbox(Await(old(In()), polls).1))
      ensures StaysCovered() && unanswered == old(unanswered) + if wait == Waiting || wait == GaveUp then 1 else 0
    {
      hide Client.Valid, Absorb, AtResponse, In, Connection.Shape, Await, Settled;
      ok := false;
      if error {
        wait := Broken;
        return;
      }
      if Negative(request) {
        wait := Refused;
        return;
      }
      var parts := AskParts(request);
      hide Encode, AskParts, Concat, Payload, ReplyIn, ResponseTo, Answered;
      ValidFacts();
      AnsweredExactly(request, Await(In(), polls).1);
      var reply;
      wait, reply := Exchange(parts, ResponseTo(request), 0, false, polls);
      ok := reply.Some?;
    }

    /** What a callback of the listener does with the library */
    method Reenter(calls: Calls)
      requires Valid() && Proper(calls)
      modifies this, conn`wantFlush, conn`accepted, conn`sent, conn`fates, conn.inbuf, conn.inbuf.data,
               conn.outbuf, conn.outbuf.data, conn.fdsIn, conn.fdsIn.data, conn.fdsOut`tail
      ensures Valid() && taken == old(taken) && old(executed) <= executed && StaysCovered()
      ensures Plain(calls) ==> executed == old(executed)
      decreases calls, 0
    {
      hide Client.Valid, Connection.Shape, In, Await;
      match calls {
        case Return =>
        case Open(path, polls, rest) =>
          var _, _, _ := OpenDevice(path, polls);
          Reenter(rest);
        case Ask(request, polls, rest) =>
          var _, _ := Ask(request, polls);
          Reenter(rest);
        case Dispatch(turn, rest) =>
          var _ := Dispatch(turn);
          Reenter(rest);
      }
    }

    /** linked_list_take of the pending events */
    method TakePending() returns (list: seq<u16>)
      requires Valid()
      modifies `pending, `taken
      ensures Valid() && list == old(pending) && pending == [] && taken == old(pending) + old(taken)
    {
      list := pending;
      TakeBalanced(executed, taken, pending, queued, error);
      pending := [];
      taken := list + taken;
    }

    /** The first event of the list goes to the listener. */
    method PassOn(list: seq<u16>, ghost outer: seq<u16>) returns (opcode: u16)
      requires Valid() && list != [] && taken == list + outer
      modifies `taken, `executed
      ensures Valid() && opcode == list[0] && IsEvent(opcode)
      ensures taken == list[1..] + outer && executed == old(executed) + [opcode]
    {
      hide Balanced, Connection.Valid, IsEvent;
      opcode := list[0];
      ExecuteBalanced(executed, taken, pending, queued, error);
      assert taken[0] == opcode && taken[1..] == list[1..] + outer;
      taken := list[1..] + outer;
      executed := executed + [opcode];
    }

    /** execute_events.  Every event taken over is executed once, in list order,
        whatever the listener does in the callbacks; `nested` are the events that
        dispatches inside the callbacks execute. */
    method ExecuteEvents(listener: Listener) returns (count: nat, ghost nested: seq<seq<u16>>)
      requires Valid() && ProperListener(listener)
      modifies this, conn`wantFlush, conn`accepted, conn`sent, conn`fates, conn.inbuf, conn.inbuf.data,
               conn.outbuf, conn.outbuf.data, conn.fdsIn, conn.fdsIn.data, conn.fdsOut`tail
      ensures Valid() && taken == old(taken) && count == |old(pending)| == |nested|
      ensures executed == old(executed) + Weave(old(pending), nested)
      ensures PlainListener(listener) ==> executed == old(executed) + old(pending)
      ensures old(unanswered) <= unanswered && (unanswered == old(unanswered) ==> Covered())
      ensures listener == Silent ==> In() == old(In()).(pending := []) && error == old(error) && unanswered == old(unanswered)
      decreases listener, 1
    {
      hide Client.Valid, Connection.Shape, In, Weave, Plain, Proper, Covered;
      count, nested := 0, [];
      ghost var outer, events := taken, pending;
      ValidFacts();
      InFacts();
      var list := TakePending();
      ValidFacts();
      InFacts();
      CoveredFacts();
      WeaveNothing(events[..0], nested);
      var l := listener;
      while list != []
        invariant Valid() && conn.Shape() && taken == list + outer && count == |nested| <= |events| && list == events[count..]
        invariant executed == old(executed) + Weave(events[..count], nested)
        invariant (l == listener || l < listener) && ProperListener(l) && (PlainListener(listener) ==> PlainListener(l))
        invariant PlainListener(listener) ==> forall k :: 0 <= k < |nested| ==> nested[k] == []
        invariant old(unanswered) <= unanswered && (unanswered == old(unanswered) ==> Covered())
        invariant listener == Silent ==>
          l == Silent && In() == old(In()).(pending := []) && error == old(error) && unanswered == old(unanswered)
        decreases |list|
      {
        ghost var inner;
        l, inner := ExecuteOne(list, outer, l);
        WeaveMore(events[..count], nested, list[0], inner);
        assert events[..count] + [list[0]] == events[..count + 1];
        list := list[1..];
        nested := nested + [inner];
        count := count + 1;
      }
      assert events[..count] == events;
      if PlainListener(listener) { WeaveNothing(events, nested); }
    }

    /** One round of execute_events */
    method ExecuteOne(list: seq<u16>, ghost outer: seq<u16>, listener: Listener) returns (next: Listener, ghost inner: seq<u16>)
      requires Valid() && ProperListener(listener) && list != [] && taken == list + outer
      modifies this, conn`wantFlush, conn`accepted, conn`sent, conn`fates, conn.inbuf, conn.inbuf.data,
               conn.outbuf, conn.outbuf.data, conn.fdsIn, conn.fdsIn.data, conn.fdsOut`tail
      ensures Valid() && conn.Shape() && taken == list[1..] + outer && StaysCovered()
      ensures executed == old(executed) + [list[0]] + inner
      ensures if listener.Answer? then next == listener.next else next == Silent && In() == old(In()) && error == old(error) && unanswered == old(unanswered)
      ensures PlainListener(listener) ==> inner == []
      decreases listener, 0
    {
      hide Client.Valid, Connection.Shape, In, Plain, Proper;
      ValidFacts();
      InFacts();
      inner, next := [], Silent;
      var opcode := PassOn(list, outer);
      assert opcode == SERVER_DISABLE_SEAT || opcode == SERVER_ENABLE_SEAT;
      ValidFacts();
      InFacts();
      if listener.Answer? {
        ghost var before := executed;
        Reenter(listener.calls);
        inner := executed[|before|..];
        next := listener.next;
        ValidFacts();
      }
    }

    lemma CoveredFacts()
      ensures pending == [] ==> Covered()
    {
    }

    lemma InFacts()
      requires conn.Shape()
      ensures In() == Inbox(pending, queued, pongs, awaitingPong, conn.inbuf.Contents(), DecodeInts(conn.fdsIn.Contents()))
    {
    }

    /** The read of dispatch: at once if there was something to do already or it may
        not wait, else after a poll */
    method ReadForDispatch(immediate: bool, turn: Turn) returns (res: int, again: bool)
      requires Valid()
      modifies `error, `pending, conn`fates, conn.inbuf`head, conn.inbuf.data,
               conn.fdsIn`head, conn.fdsIn`tail, conn.fdsIn.data, conn.fdsOut`tail
      ensures Valid() && (old(Covered()) ==> Covered())
      ensures match if immediate then ReadInto(old(In()), turn.now) else PollInto(old(In()), turn.poll)
        case Lost => res == -1 && !again
        case Unpolled => res == -1 && !again && error == old(error) && In() == old(In())
        case Again => res == -1 && again && error == old(error) && In() == old(In())
        case Nothing => res == 0 && error == old(error)
        case More(i) => res > 0 && error == old(error) && In() == i
    {
      hide Ring.Contents, Connection.Ledger, EventsAccounted, PingsAccounted, DecodeInts, ReadInto;
      if immediate {
        res, again := ReadConnection(turn.now);
      } else {
        res, again := PollConnection(turn.poll);
      }
    }

    /** dispatch.  Everything pending, and every event at the front of what is
        unread, goes to the listener; then more is read, and what comes with it goes
        to the listener too.  Afterwards waiting events are covered again. */
    method Dispatch(turn: Turn) returns (res: int)
      requires Valid() && ProperListener(turn.first) && ProperListener(turn.second)
      modifies this, conn`wantFlush, conn`accepted, conn`sent, conn`fates, conn.inbuf, conn.inbuf.data,
               conn.outbuf, conn.outbuf.data, conn.fdsIn, conn.fdsIn.data, conn.fdsOut`tail
      ensures Valid() && taken == old(taken) && old(executed) <= executed && StaysCovered()
      ensures old(error) ==> res == -1 && executed == old(executed) && In() == old(In())
      ensures turn.first == Silent && turn.second == Silent ==> unanswered == old(unanswered)
      ensures !old(error) && |Absorb(old(In())).rest| >= HEADER ==> res == -1 && error && executed == old(executed)
      ensures !old(error) && PlainListener(turn.first) && |Absorb(old(In())).rest| < HEADER ==>
        old(executed) + Absorb(old(In())).pending <= executed
      ensures turn.first == Silent && turn.second == Silent && !old(error) && |Absorb(old(In())).rest| < HEADER ==>
        var events, i := Absorb(old(In())).pending, Absorb(old(In())).(pending := []);
        var done := Count(old(In()).rest) + |events|;
        var outcome := if done > 0 || !turn.mayWait then ReadInto(i, turn.now) else PollInto(i, turn.poll);
        if outcome == Lost || outcome == Unpolled then res == -1 && executed == old(executed) + events
        else if outcome == Nothing then res == done && executed == old(executed) + events
        else
          var j := if outcome.More? then outcome.inbox else i;
          if |Absorb(j).rest| >= HEADER then res == -1 && error && executed == old(executed) + events
          else
            && res == done + Count(j.rest) + |Absorb(j).pending|
            && In() == Absorb(j).(pending := []) && executed == old(executed) + events + Absorb(j).pending
      decreases turn, 0
    {
      hide Client.Valid, Connection.Shape, In, Absorb, Count, ReadInto, PollInto;
      if error {
        return -1;
      }
      var pre := ReadAndExecute(turn.first);
      if pre == -1 {
        return -1;
      }
      var read, again := ReadForDispatch(pre > 0 || !turn.mayWait, turn);
      if read == 0 {
        return pre;
      } else if read == -1 && !again {
        return -1;
      }
      var post := ReadAndExecute(turn.second);
      if post == -1 {
        return -1;
      }
      res := pre + post;
    }

    /** The two halves of dispatch: read_and_queue, and execute_events if that worked */
    method ReadAndExecute(listener: Listener) returns (count: int)
      requires Valid() && ProperListener(listener)
      modifies this, conn`wantFlush, conn`accepted, conn`sent, conn`fates, conn.inbuf, conn.inbuf.data,
               conn.outbuf, conn.outbuf.data, conn.fdsIn, conn.fdsIn.data, conn.fdsOut`tail
      ensures Valid() && taken == old(taken) && old(executed) <= executed
      ensures old(unanswered) <= unanswered && (unanswered == old(unanswered) ==> Covered())
      ensures var i := Absorb(old(In()));
        if |i.rest| >= HEADER then count == -1 && error && executed == old(executed)
        else
          && count == Count(old(In()).rest) + |i.pending|
          && (PlainListener(listener) ==> executed == old(executed) + i.pending)
          && (listener == Silent ==> In() == i.(pending := []) && error == old(error))
      ensures listener == Silent ==> unanswered == old(unanswered)
      decreases listener, 2
    {
      hide Client.Valid, Connection.Shape, In, Weave, Absorb, Count;
      var packets, _ := ReadAndQueue(false);
      count := packets;
      ValidFacts();
      InFacts();
      if count == -1 {
        return;
      }
      var n, _ := ExecuteEvents(listener);
      count := count + n;
    }
  }

  /** linked_list_take moves the pending events to a list of their own. */
  lemma TakeBalanced(executed: seq<u16>, taken: seq<u16>, pending: seq<u16>, queued: seq<u16>, error: bool)
    requires Balanced(executed, taken, pending, queued, error)
    ensures Balanced(executed, pending + taken, [], queued, error)
  {
    assert multiset(pending + taken) == multiset(pending) + multiset(taken);
  }
}
