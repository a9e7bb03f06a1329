/**
 The read loop of client_handle_connection and the message checks of
 client_handle_opcode, on the ring buffer of a connection.
 */
module ClientLoop {
  import opened Bytes
  import opened Options
  import opened RingBuffer
  import opened Wire
  import opened Connections
  import opened SeatModel
  import opened Framing

  /** What a readable event leads to, for every outcome of the kernel's read.  A
      full ring, a hard error, too many descriptors, or an end of stream with
      nothing buffered is fatal; a read that would block is not. */
  function AfterRead(s: Outcome, r: Received, fdsUsed: nat, accept: Handler): Outcome {
    if |s.rest| >= SIZE || r == Failed(false) then s.(alive := false)
    else if r.Failed? then Drain(s.rest, s.dispatched, accept)
    else if Admit(r.cmsgs, fdsUsed, false).overflow || s.rest + r.bytes == [] then s.(alive := false)
    else Drain(s.rest + r.bytes, s.dispatched, accept)
  }

  /** On reads that deliver bytes this is the step of the chunking theorem; a read
      that would block, or an end of stream behind an incomplete message, changes nothing. */
  lemma AfterReadIsFeed(s: Outcome, r: Received, fdsUsed: nat, accept: Handler)
    requires s.alive && |s.rest| < SIZE && !Complete(s.rest)
    ensures r.Got? && r.bytes != [] && !Admit(r.cmsgs, fdsUsed, false).overflow ==>
      AfterRead(s, r, fdsUsed, accept) == Feed(s, r.bytes, accept)
    ensures r == Failed(true) ==> AfterRead(s, r, fdsUsed, accept) == s
    ensures r == Got([], []) ==> AfterRead(s, r, fdsUsed, accept) == s.(alive := s.rest != [])
  {
    assert s.rest + [] == s.rest;
  }

  /** A read is fatal exactly if the ring was full, it failed for good, it brought
      more descriptors than there is room for, or it found the end of the stream with
      nothing buffered.  After any other the complete messages are dispatched. */
  lemma WhichReadsAreFatal(s: Outcome, r: Received, fdsUsed: nat, accept: Handler)
    ensures var fatal := |s.rest| >= SIZE || r == Failed(false)
                         || (r.Got? && (!Accommodates(fdsUsed, r.cmsgs) || (s.rest == [] && r.bytes == [])));
      AfterRead(s, r, fdsUsed, accept) ==
        if fatal then s.(alive := false)
        else Drain(if r.Got? then s.rest + r.bytes else s.rest, s.dispatched, accept)
  {
    hide Drain, Admit, Accommodates;
    if r.Got? { OverflowExactly(r.cmsgs, fdsUsed); }
  }

  /** The chunks after a readable event: a read that delivers bytes adds one. */
  function ChunksAfter(chunks: seq<seq<byte>>, s: Outcome, r: Received, fdsUsed: nat): seq<seq<byte>> {
    if |s.rest| < SIZE && r.Got? && r.bytes != [] && !Admit(r.cmsgs, fdsUsed, false).overflow then chunks + [r.bytes]
    else chunks
  }

  /** A readable event keeps the agreement with the chunks read so far, except that
      a client may be dropped for other reasons than its messages. */
  lemma AfterReadKeeps(chunks: seq<seq<byte>>, r: Received, fdsUsed: nat, accept: Handler)
    requires Deliverable(chunks, accept) && FeedAll(chunks, accept).alive
    requires r.Got? && |FeedAll(chunks, accept).rest| < SIZE ==> |r.bytes| <= SIZE - |FeedAll(chunks, accept).rest|
    ensures var s := FeedAll(chunks, accept);
      var s1, chunks1 := AfterRead(s, r, fdsUsed, accept), ChunksAfter(chunks, s, r, fdsUsed);
      && Deliverable(chunks1, accept) && s1.dispatched == FeedAll(chunks1, accept).dispatched
      && (s1.alive ==> s1 == FeedAll(chunks1, accept))
  {
    hide Drain, Admit;
    var s := FeedAll(chunks, accept);
    FeedStops(chunks, accept);
    assert Drain(s.rest, s.dispatched, accept) == s by { DrainIncomplete(s.rest, s.dispatched, accept); }
    if r.Got? {
      assert (chunks + [r.bytes])[..|chunks|] == chunks;
      if r.bytes == [] { assert s.rest + r.bytes == s.rest; }
    }
  }

  lemma DrainIncomplete(b: seq<byte>, done: seq<Request>, accept: Handler)
    requires !Complete(b)
    ensures Drain(b, done, accept) == Outcome(done, b, true)
  {
  }

  /** A client's connection, with what the handlers would answer.  `chunks` are the
      byte strings delivered by the reads so far. */
  class ClientConnection {
    const conn: Connection
    const accept: Handler
    var dispatched: seq<Request>
    var alive: bool
    ghost var chunks: seq<seq<byte>>

    ghost predicate Valid()
      reads this, conn, conn.inbuf, conn.outbuf, conn.fdsIn, conn.fdsOut, conn.outbuf.data, conn.fdsOut.data
    {
      conn.Valid()
    }

    /** What was dispatched and what is buffered are those of the chunks. */
    ghost predicate Faithful()
      requires conn.inbuf.Valid()
      reads this, conn.inbuf, conn.inbuf.data
    {
      && Deliverable(chunks, accept)
      && dispatched == FeedAll(chunks, accept).dispatched
      && (alive ==> FeedAll(chunks, accept) == Outcome(dispatched, conn.inbuf.Contents(), true))
    }

    /** After any number of readable events, however the reads cut the stream: what
        was dispatched is what the stream means, and a client that is still connected
        has exactly the rest buffered. */
    lemma LoopIsParse()
      requires Valid() && Faithful()
      ensures var p := Parse(Concat(chunks), [], accept);
        dispatched == p.dispatched && (alive ==> p == Outcome(dispatched, conn.inbuf.Contents(), true))
    {
      hide Parse, FeedAll, Deliverable;
      ChunkingIndependence(chunks, accept);
    }

    constructor (accept: Handler)
      ensures Valid() && fresh(conn) && alive && dispatched == [] && conn.inbuf.Contents() == []
      ensures Faithful() && chunks == [] && this.accept == accept
    {
      conn := new Connection();
      this.accept := accept;
      dispatched, alive, chunks := [], true, [];
    }

    /** The open-device case of client_handle_opcode */
    method GetPath(size: nat) returns (request: Option<Request>)
      requires Valid() && size <= conn.inbuf.Size()
      modifies conn.inbuf`tail
      ensures Valid()
      ensures request == DecodeOpenDevice(old(conn.inbuf.Contents())[..size])
      ensures request.Some? ==> conn.inbuf.Contents() == old(conn.inbuf.Contents())[size..]
    {
      ghost var payload := conn.inbuf.Contents()[..size];
      if 2 > size {
        return None;
      }
      var msg := conn.Get(2);
      assert msg.value == payload[..2];
      var pathLen := DecodeU16(msg.value);
      if pathLen != size - 2 {
        return None;
      }
      if pathLen > MAX_PATH_LEN {
        return None;
      }
      var path := conn.Get(pathLen);
      assert path.value == payload[2..];
      if pathLen == 0 || Strnlen(path.value) != pathLen - 1 {
        return None;
      }
      request := Some(OpenDevice(path.value[..pathLen - 1]));
    }

    /** A message with an int as payload */
    method GetInt(size: nat) returns (x: Option<i32>)
      requires Valid() && size <= conn.inbuf.Size()
      modifies conn.inbuf`tail
      ensures Valid() && x.Some? == (size == 4)
      ensures x.Some? ==> x.value == DecodeInt(old(conn.inbuf.Contents())[..4])
                          && conn.inbuf.Contents() == old(conn.inbuf.Contents())[4..]
    {
      if size != 4 {
        return None;
      }
      var msg := conn.Get(4);
      x := Some(DecodeInt(msg.value));
    }

    /** The checks of client_handle_opcode.  A message that passes them is
        consumed exactly; any other is fatal to the client. */
    method GetRequest(opcode: u16, size: nat) returns (request: Option<Request>)
      requires Valid() && size <= conn.inbuf.Size()
      modifies conn.inbuf`tail
      ensures Valid()
      ensures request == DecodeRequest(opcode, old(conn.inbuf.Contents())[..size])
      ensures request.Some? ==> conn.inbuf.Contents() == old(conn.inbuf.Contents())[size..]
    {
      hide Ring.Contents, Connection.Valid, DecodeInt;
      if opcode == 3 {
        request := GetPath(size);
      } else if opcode == 4 {
        var id := GetInt(size);
        request := if id == None then None else Some(CloseDevice(id.value));
      } else if opcode == 6 {
        var session := GetInt(size);
        request := if session == None then None else Some(SwitchSession(session.value));
      } else if size != 0 {
        request := None;
      } else if opcode == 1 {
        request := Some(OpenSeat);
      } else if opcode == 2 {
        request := Some(CloseSeat);
      } else if opcode == 5 {
        request := Some(DisableSeat);
      } else if opcode == 7 {
        request := Some(Ping);
      } else {
        request := None;
      }
    }

    /** The head of the read loop: take a header, and put it back if its message is incomplete. */
    method NextHeader() returns (header: Option<seq<byte>>)
      requires Valid()
      modifies conn.inbuf`tail
      ensures Valid() && header.Some? == Complete(old(conn.inbuf.Contents()))
      ensures header.None? ==> conn.inbuf.Contents() == old(conn.inbuf.Contents())
      ensures header.Some? ==>
        && header.value == old(conn.inbuf.Contents())[..HEADER]
        && conn.inbuf.Contents() == old(conn.inbuf.Contents())[HEADER..]
    {
      ghost var b := conn.inbuf.Contents();
      header := conn.Get(HEADER);
      if header == None {
        return;
      }
      SameHeader(b);
      hide Window;
      if conn.inbuf.Size() < PayloadSize(header.value) {
        conn.Restore(HEADER);
        assert conn.inbuf.Contents() == b;
        header := None;
      }
    }

    /** The read loop */
    method Dispatch()
      requires Valid() && alive
      modifies `dispatched, `alive, conn.inbuf`tail
      ensures Valid()
      ensures var s := Drain(old(conn.inbuf.Contents()), old(dispatched), accept);
        dispatched == s.dispatched && alive == s.alive && (alive ==> conn.inbuf.Contents() == s.rest)
    {
      hide Ring.Contents, DecodeRequest, DecodeInts, FdsOf;
      while true
        invariant Valid() && alive
        invariant Drain(conn.inbuf.Contents(), dispatched, accept) == Drain(old(conn.inbuf.Contents()), old(dispatched), accept)
        decreases |conn.inbuf.Contents()|
      {
        ghost var b := conn.inbuf.Contents();
        var header := NextHeader();
        if header == None {
          return;
        }
        SameHeader(b);
        var size := PayloadSize(header.value);
        assert b[HEADER..][..size] == b[HEADER..HEADER + size] && b[HEADER..][size..] == After(b);
        var request := GetRequest(Opcode(header.value), size);
        if request == None {
          alive := false;
          return;
        }
        dispatched := dispatched + [request.value];
        if !accept(dispatched) {
          alive := false;
          return;
        }
      }
    }

    /** client_handle_connection on a readable event.  The outcome of the kernel's
        read fits the free space; an end of stream is noticed only if nothing is buffered. */
    method HandleReadable(r: Received)
      requires Valid() && alive && Faithful()
      requires r.Got? && conn.inbuf.Size() < SIZE ==> |r.bytes| <= SIZE - conn.inbuf.Size()
      modifies this, conn.inbuf, conn.inbuf.data, conn.fdsIn, conn.fdsIn.data
      ensures Valid() && Faithful()
      ensures chunks == ChunksAfter(old(chunks), FeedAll(old(chunks), accept), r, old(conn.fdsIn.Size()))
      ensures var s := AfterRead(Outcome(old(dispatched), old(conn.inbuf.Contents()), true), r, old(conn.fdsIn.Size()), accept);
        dispatched == s.dispatched && alive == s.alive && (alive ==> conn.inbuf.Contents() == s.rest)
    {
      hide Ring.Contents, Drain, DecodeInts, FdsOf, FeedAll, Deliverable, Admit, AllFds;
      if r.Got? { AdmitConserves(r.cmsgs, conn.fdsIn.Size()); }
      AfterReadKeeps(chunks, r, conn.fdsIn.Size(), accept);
      chunks := ChunksAfter(chunks, FeedAll(chunks, accept), r, conn.fdsIn.Size());
      var res, again, _ := conn.Read(r);
      if (res == -1 && !again) || res == 0 {
        alive := false;
        return;
      }
      Dispatch();
    }
  }
}
