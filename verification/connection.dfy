/**
 common/connection.c: buffered, non-blocking exchange of bytes and file
 descriptors over a socket.

 The ghost fields record what happened so far: the bytes accepted by
 connection_put, the bytes the kernel took, the descriptors queued and what
 became of each.  Interrupted system calls are retried by the C code; only
 the result of the last try appears here.
 */
module Connections {
  import opened Options
  import opened Bytes
  import opened RingBuffer
  import opened Wire

  const MAX_FDS: nat := 64

  /** What became of a queued descriptor: sent and then closed here, or only closed */
  datatype Fate = Fate(fd: i32, sent: bool)

  function FdsOf(fates: seq<Fate>): (r: seq<i32>)
    ensures |r| == |fates|
    ensures forall i :: 0 <= i < |r| ==> r[i] == fates[i].fd
  {
    seq(|fates|, i requires 0 <= i < |fates| => fates[i].fd)
  }

  function Mark(fds: seq<i32>, sent: bool): (r: seq<Fate>)
    ensures FdsOf(r) == fds && forall i :: 0 <= i < |r| ==> r[i].sent == sent
  {
    seq(|fds|, i requires 0 <= i < |fds| => Fate(fds[i], sent))
  }

  /** The bytes found in the given cells, as sendmsg gathers them */
  function Gather(d: seq<byte>, cells: seq<nat>): (r: seq<byte>)
    requires |d| == SIZE && forall i :: 0 <= i < |cells| ==> cells[i] < SIZE
    ensures |r| == |cells|
  {
    seq(|cells|, i requires 0 <= i < |cells| => d[cells[i]])
  }

  lemma GatherWindow(d: seq<byte>, start: int, n: nat)
    requires |d| == SIZE
    ensures Gather(d, CellsFrom(start, n)) == Window(d, start, n)
  {
  }

  lemma Regroup(a: seq<byte>, b: seq<byte>, n: nat)
    requires n <= |b|
    ensures (a + b[..n]) + b[n..] == a + b
  {
  }

  lemma Associates(a: seq<i32>, b: seq<i32>, c: seq<i32>)
    ensures a + b + c == a + (b + c)
  {
  }

  lemma FatesConcat(a: seq<Fate>, b: seq<Fate>)
    ensures FdsOf(a + b) == FdsOf(a) + FdsOf(b)
  {
  }

  lemma NextInt(bytes: seq<byte>, idx: nat)
    requires |bytes| % 4 == 0 && 4 * idx < |bytes|
    ensures DecodeInts(bytes[4 * idx..]) == [DecodeInt(bytes[4 * idx..4 * idx + 4])] + DecodeInts(bytes[4 * (idx + 1)..])
  {
    assert bytes[4 * idx..][..4] == bytes[4 * idx..4 * idx + 4];
    assert bytes[4 * idx..][4..] == bytes[4 * (idx + 1)..];
  }

  lemma LastInt(bytes: seq<byte>, count: nat)
    requires |bytes| == 4 * count
    ensures DecodeInts(bytes[4 * count..]) == []
  {
  }

  /** An ancillary message: descriptors, or something else to be skipped */
  datatype Cmsg = Rights(fds: seq<i32>) | Other

  function AllFds(cmsgs: seq<Cmsg>): seq<i32> {
    if cmsgs == [] then []
    else (if cmsgs[0].Rights? then cmsgs[0].fds else []) + AllFds(cmsgs[1..])
  }

  /** What decode_cmsg does with descriptors when `used` bytes of the ring are taken */
  datatype Intake = Intake(queued: seq<i32>, closed: seq<i32>, overflow: bool)

  function Admit(cmsgs: seq<Cmsg>, used: nat, overflow: bool): Intake {
    if cmsgs == [] then Intake([], [], overflow)
    else if cmsgs[0].Other? then Admit(cmsgs[1..], used, overflow)
    else
      var fds := cmsgs[0].fds;
      if overflow || used + 4 * |fds| > SIZE then
        var rest := Admit(cmsgs[1..], used, true);
        rest.(closed := fds + rest.closed)
      else
        var rest := Admit(cmsgs[1..], used + 4 * |fds|, false);
        rest.(queued := fds + rest.queued)
  }

  /** The first k messages are the longest run of whole messages whose descriptors
      fit the ring beside the `used` bytes. */
  predicate LongestFit(cmsgs: seq<Cmsg>, used: nat, k: nat) {
    && k <= |cmsgs| && used + 4 * |AllFds(cmsgs[..k])| <= SIZE
    && (k < |cmsgs| ==> used + 4 * |AllFds(cmsgs[..k + 1])| > SIZE)
  }

  lemma {:induction false} AllFdsSplit(cmsgs: seq<Cmsg>, k: nat)
    requires k <= |cmsgs|
    ensures AllFds(cmsgs) == AllFds(cmsgs[..k]) + AllFds(cmsgs[k..])
  {
    if k == 0 {
      assert cmsgs[..0] == [] && cmsgs[0..] == cmsgs;
    } else {
      AllFdsSplit(cmsgs[1..], k - 1);
      assert cmsgs[..k][1..] == cmsgs[1..][..k - 1] && cmsgs[1..][k - 1..] == cmsgs[k..];
    }
  }

  /** Once there was an overflow everything is closed. */
  lemma {:induction false} AdmitClosesAll(cmsgs: seq<Cmsg>, used: nat)
    ensures Admit(cmsgs, used, true) == Intake([], AllFds(cmsgs), true)
  {
    if cmsgs != [] { AdmitClosesAll(cmsgs[1..], used); }
  }

  /** The longest run of whole messages that fits is queued in order, the rest is
      closed in order; no descriptor is lost or used twice.  An overflow is reported
      exactly if the descriptors exceed the room, and then not all are queued. */
  lemma {:induction false} AdmitExactly(cmsgs: seq<Cmsg>, used: nat) returns (k: nat)
    requires used <= SIZE
    ensures LongestFit(cmsgs, used, k)
    ensures Admit(cmsgs, used, false) == Intake(AllFds(cmsgs[..k]), AllFds(cmsgs[k..]), k < |cmsgs|)
    ensures k < |cmsgs| <==> used + 4 * |AllFds(cmsgs)| > SIZE
  {
    if cmsgs == [] {
      k := 0;
    } else {
      var fds := if cmsgs[0].Rights? then cmsgs[0].fds else [];
      if used + 4 * |fds| > SIZE {
        k := 0;
        AdmitClosesAll(cmsgs[1..], used);
        assert cmsgs[..0] == [] && cmsgs[0..] == cmsgs && AllFds(cmsgs[..1]) == fds by { OneMessage(cmsgs); }
      } else {
        k := AdmitExactly(cmsgs[1..], used + 4 * |fds|);
        FirstMessage(cmsgs, k + 1);
        if k + 1 < |cmsgs| { FirstMessage(cmsgs, k + 2); }
        assert cmsgs[1..][k..] == cmsgs[k + 1..];
        k := k + 1;
      }
    }
  }

  lemma OneMessage(cmsgs: seq<Cmsg>)
    requires cmsgs != []
    ensures AllFds(cmsgs[..1]) == if cmsgs[0].Rights? then cmsgs[0].fds else []
  {
    assert cmsgs[..1][1..] == [];
  }

  lemma FirstMessage(cmsgs: seq<Cmsg>, k: nat)
    requires 1 <= k <= |cmsgs|
    ensures AllFds(cmsgs[..k]) == (if cmsgs[0].Rights? then cmsgs[0].fds else []) + AllFds(cmsgs[1..][..k - 1])
  {
    assert cmsgs[..k][1..] == cmsgs[1..][..k - 1];
  }

  /** All is queued if it fits; otherwise nothing is lost, and what is queued fits. */
  lemma AdmitConserves(cmsgs: seq<Cmsg>, used: nat)
    requires used <= SIZE
    ensures var r := Admit(cmsgs, used, false);
      && AllFds(cmsgs) == r.queued + r.closed && used + 4 * |r.queued| <= SIZE
      && (r.overflow <==> used + 4 * |AllFds(cmsgs)| > SIZE)
      && (!r.overflow ==> r.queued == AllFds(cmsgs) && r.closed == [])
  {
    var k := AdmitExactly(cmsgs, used);
    AllFdsSplit(cmsgs, k);
    if k == |cmsgs| { assert cmsgs[..k] == cmsgs && cmsgs[k..] == []; }
  }

  /** There is room for the descriptors, if any come at all. */
  predicate Accommodates(used: nat, cmsgs: seq<Cmsg>) {
    used + 4 * |AllFds(cmsgs)| <= SIZE || forall c :: c in cmsgs ==> c.Other?
  }

  /** An overflow is reported exactly where there is no room; else all is queued. */
  lemma {:induction false} OverflowExactly(cmsgs: seq<Cmsg>, used: nat)
    ensures Admit(cmsgs, used, false).overflow <==> !Accommodates(used, cmsgs)
    ensures Accommodates(used, cmsgs) ==> Admit(cmsgs, used, false) == Intake(AllFds(cmsgs), [], false)
  {
    if used <= SIZE {
      AdmitConserves(cmsgs, used);
      if forall c :: c in cmsgs ==> c.Other? { NoDescriptors(cmsgs); }
    } else if cmsgs != [] {
      OverflowExactly(cmsgs[1..], used);
      if cmsgs[0].Rights? { AdmitClosesAll(cmsgs[1..], used); }
      assert cmsgs == [cmsgs[0]] + cmsgs[1..];
    }
  }

  lemma {:induction false} NoDescriptors(cmsgs: seq<Cmsg>)
    requires forall c :: c in cmsgs ==> c.Other?
    ensures AllFds(cmsgs) == []
  {
    if cmsgs != [] {
      assert cmsgs[0] in cmsgs;
      NoDescriptors(cmsgs[1..]);
    }
  }

  /** Half-way through the messages: `done` was dealt with, `rest` is to come. */
  ghost predicate Admitting(cmsgs: seq<Cmsg>, start: nat, done: Intake, rest: seq<Cmsg>, used: nat) {
    var r := Admit(rest, used, done.overflow);
    Admit(cmsgs, start, false) == Intake(done.queued + r.queued, done.closed + r.closed, r.overflow)
  }

  lemma AdmitStarts(cmsgs: seq<Cmsg>, start: nat)
    ensures Admitting(cmsgs, start, Intake([], [], false), cmsgs[0..], start)
  {
    assert cmsgs[0..] == cmsgs;
    var r := Admit(cmsgs, start, false);
    assert [] + r.queued == r.queued && [] + r.closed == r.closed;
  }

  /** What decode_cmsg does with one message when `used` bytes are taken */
  predicate Taken(cmsg: Cmsg, used: nat, overflow: bool, now: Intake, used1: nat) {
    match cmsg
    case Other => now == Intake([], [], overflow) && used1 == used
    case Rights(fds) =>
      if overflow || used + 4 * |fds| > SIZE then now == Intake([], fds, true) && used1 == used
      else now == Intake(fds, [], false) && used1 == used + 4 * |fds|
  }

  lemma AdmitNext(cmsgs: seq<Cmsg>, start: nat, done: Intake, rest: seq<Cmsg>, used: nat, now: Intake, used1: nat)
    requires Admitting(cmsgs, start, done, rest, used) && rest != [] && Taken(rest[0], used, done.overflow, now, used1)
    ensures Admitting(cmsgs, start, Intake(done.queued + now.queued, done.closed + now.closed, now.overflow), rest[1..], used1)
  {
    var r := Admit(rest[1..], used1, now.overflow);
    Associates(done.closed, now.closed, r.closed);
    Associates(done.queued, now.queued, r.queued);
    assert [] + r.closed == r.closed && [] + r.queued == r.queued;
  }

  lemma AdmitEnds(cmsgs: seq<Cmsg>, start: nat, done: Intake, used: nat)
    requires Admitting(cmsgs, start, done, [], used)
    ensures Admit(cmsgs, start, false) == done
  {
    assert done.queued + [] == done.queued && done.closed + [] == done.closed;
  }

  /** The outcome of recvmsg */
  datatype Received = Failed(again: bool) | Got(bytes: seq<byte>, cmsgs: seq<Cmsg>)

  class Connection {
    const inbuf: Ring
    const outbuf: Ring
    const fdsIn: Ring
    const fdsOut: Ring
    var wantFlush: bool

    ghost var accepted: seq<byte>
    ghost var sent: seq<byte>
    ghost var fdsQueued: seq<i32>
    ghost var fates: seq<Fate>

    /** Four separate rings that hold whole descriptors */
    ghost predicate Shape()
      reads inbuf, outbuf, fdsIn, fdsOut
    {
      && inbuf != outbuf && inbuf != fdsIn && inbuf != fdsOut && outbuf != fdsIn && outbuf != fdsOut && fdsIn != fdsOut
      && inbuf.data != outbuf.data && inbuf.data != fdsIn.data && inbuf.data != fdsOut.data
      && outbuf.data != fdsIn.data && outbuf.data != fdsOut.data && fdsIn.data != fdsOut.data
      && inbuf.Valid() && outbuf.Valid() && fdsIn.Valid() && fdsOut.Valid()
      && fdsIn.Size() % 4 == 0 && fdsOut.Size() % 4 == 0
    }

    /** Nothing is lost, duplicated or reordered on the way out. */
    ghost predicate Ledger()
      requires Shape()
      reads this, inbuf, outbuf, fdsIn, fdsOut, outbuf.data, fdsOut.data
    {
      // every accepted byte is sent or still queued, in order
      && accepted == sent + outbuf.Contents()
      && (!wantFlush ==> outbuf.Contents() == [])
      // every queued descriptor met its fate or still waits, in order
      && fdsQueued == FdsOf(fates) + DecodeInts(fdsOut.Contents())
    }

    ghost predicate Valid()
      reads this, inbuf, outbuf, fdsIn, fdsOut, outbuf.data, fdsOut.data
    {
      Shape() && Ledger()
    }

    constructor ()
      ensures Valid() && fresh(inbuf) && fresh(outbuf) && fresh(fdsIn) && fresh(fdsOut)
      ensures fresh(inbuf.data) && fresh(outbuf.data) && fresh(fdsIn.data) && fresh(fdsOut.data)
      ensures inbuf.Contents() == [] && accepted == [] && sent == [] && fdsQueued == [] && fates == []
    {
      inbuf := new Ring();
      outbuf := new Ring();
      fdsIn := new Ring();
      fdsOut := new Ring();
      wantFlush := false;
      accepted, sent, fdsQueued, fates := [], [], [], [];
    }

    /** sendmsg: fails, or takes at least one and at most all of the bytes offered. */
    method SendMsg(offered: nat) returns (len: int)
      requires offered > 0
      ensures len == -1 || 1 <= len <= offered
    {
      var answer: int := *;
      len := if 1 <= answer <= offered then answer else -1;
    }

    /** connection_buffer_close_fds: every descriptor of the ring is closed, once and in order. */
    method CloseFds(r: Ring) returns (closed: seq<i32>)
      requires r.Valid() && r.Size() % 4 == 0
      modifies r`tail
      ensures r.Valid() && r.Contents() == []
      ensures closed == DecodeInts(old(r.Contents()))
    {
      hide Ring.Contents, DecodeInts, DecodeInt;
      closed := [];
      var size := r.Size();
      if size == 0 {
        LastInt(r.Contents(), 0);
        return;
      }
      var bytes := r.Copy(size);
      assert bytes == r.Contents();
      var count := size / 4;
      assert bytes[4 * 0..] == bytes;
      for idx := 0 to count
        invariant r.tail == old(r.tail)
        invariant closed + DecodeInts(bytes[4 * idx..]) == DecodeInts(bytes)
      {
        NextInt(bytes, idx);
        closed := closed + [DecodeInt(bytes[4 * idx..4 * idx + 4])];
      }
      LastInt(bytes, count);
      r.Consume(count * 4);
    }

    /** build_cmsg: all waiting descriptors are attached; at most MAX_FDS fit the ring. */
    method BuildCmsg() returns (fds: seq<i32>)
      requires fdsOut.Valid() && fdsOut.Size() % 4 == 0
      ensures fds == DecodeInts(fdsOut.Contents())
    {
      var size := fdsOut.Size();
      if size > MAX_FDS * 4 {
        size := MAX_FDS * 4;
      }
      if size == 0 {
        return [];
      }
      var bytes := fdsOut.Copy(size);
      fds := DecodeInts(bytes);
    }

    /** connection_flush.  What the kernel takes is a prefix of the queue; the
        first bytes taken carry all waiting descriptors along. */
    method Flush() returns (res: int, ghost taken: nat)
      requires Valid()
      modifies `wantFlush, `sent, `fates, outbuf`tail, fdsOut`tail
      ensures Valid() && -1 <= res && taken <= old(outbuf.Size())
      ensures sent == old(sent) + old(outbuf.Contents())[..taken]
      ensures outbuf.Contents() == old(outbuf.Contents())[taken..]
      ensures fates == old(fates) + (if taken == 0 then [] else Mark(DecodeInts(old(fdsOut.Contents())), true))
      ensures res >= 0 ==> !wantFlush && res == taken == old(outbuf.Size()) && sent == accepted
      ensures res == -1 ==> wantFlush && sent != accepted
    {
      hide Ring.Contents, DecodeInts, Mark, FdsOf;
      taken := 0;
      if !wantFlush {
        return 0, 0;
      }
      var start := outbuf.tail;
      ghost var out0, fds0 := outbuf.Contents(), fdsOut.Contents();
      while outbuf.Size() > 0
        invariant Valid() && wantFlush && taken <= |out0|
        invariant sent == old(sent) + out0[..taken] && outbuf.Contents() == out0[taken..]
        invariant fates == old(fates) + (if taken == 0 then [] else Mark(DecodeInts(fds0), true))
        invariant fdsOut.Contents() == if taken == 0 then fds0 else []
        decreases outbuf.Size()
      {
        var len := SendOnce();
        if len == -1 {
          return -1, taken;
        }
        assert out0[..taken] + out0[taken..][..len] == out0[..taken + len];
        taken := taken + len;
      }
      wantFlush := false;
      res := Minus(outbuf.head, start);
    }

    /** One round of connection_flush */
    method SendOnce() returns (len: int)
      requires Valid() && wantFlush && outbuf.Size() > 0
      modifies `sent, `fates, outbuf`tail, fdsOut`tail
      ensures Valid() && (len == -1 || 1 <= len <= old(outbuf.Size()))
      ensures len == -1 ==> sent == old(sent) && fates == old(fates)
                            && outbuf.Contents() == old(outbuf.Contents()) && fdsOut.Contents() == old(fdsOut.Contents())
      ensures len >= 0 ==> sent == old(sent) + old(outbuf.Contents())[..len]
                           && outbuf.Contents() == old(outbuf.Contents())[len..]
                           && fates == old(fates) + Mark(DecodeInts(old(fdsOut.Contents())), true)
                           && fdsOut.Contents() == []
    {
      hide Ring.Contents, DecodeInts, Mark, FdsOf, Gather, Cells;
      ghost var offered := outbuf.Contents();
      var iov := OfferQueue();
      var cmsg := BuildCmsg();
      len := SendMsg(outbuf.Size());
      if len == -1 {
        return;
      }
      ghost var gathered := Gather(outbuf.data[..], Cells(iov));
      var closed := CloseFds(fdsOut);
      assert closed == cmsg;
      FatesConcat(fates, Mark(cmsg, true));
      fates := fates + Mark(cmsg, true);
      sent := sent + gathered[..len];
      Regroup(old(sent), offered, len);
      outbuf.Consume(len);
    }

    /** The vectors handed to sendmsg stand for the queue. */
    method OfferQueue() returns (iov: seq<Iovec>)
      requires outbuf.Valid() && outbuf.Size() > 0
      ensures forall i :: 0 <= i < |Cells(iov)| ==> Cells(iov)[i] < SIZE
      ensures Gather(outbuf.data[..], Cells(iov)) == outbuf.Contents()
    {
      iov := outbuf.GetIov();
      GatherWindow(outbuf.data[..], outbuf.tail, outbuf.Size());
    }
  
    /** connection_put: all of the bytes are accepted or none; nothing unsent is overwritten. */
    method Put(src: seq<byte>) returns (ok: bool)
      requires Valid()
      modifies `wantFlush, `accepted, `sent, `fates, outbuf`head, outbuf`tail, outbuf.data, fdsOut`tail
      ensures Valid() && old(sent) <= sent
      ensures accepted == if ok then old(accepted) + src else old(accepted)
      ensures ok ==> |src| <= SIZE && wantFlush
      ensures !ok ==> |src| > SIZE || sent != accepted
      ensures |src| + old(outbuf.Size()) <= SIZE ==> ok && sent == old(sent)
    {
      hide Ring.Contents, DecodeInts, Mark, FdsOf;
      if outbuf.Size() + |src| > SIZE {
        wantFlush := true;
        var res, _ := Flush();
        if res == -1 {
          return false;
        }
      }
      ok := outbuf.Put(src);
      if !ok {
        return;
      }
      accepted := accepted + src;
      wantFlush := true;
    }

    /** connection_put_fd */
    method PutFd(fd: i32) returns (ok: bool)
      requires Valid()
      modifies `fdsQueued, fdsOut`head, fdsOut.data
      ensures Valid() && ok == (old(fdsOut.Size()) < 4 * MAX_FDS)
      ensures fdsQueued == if ok then old(fdsQueued) + [fd] else old(fdsQueued)
    {
      hide Ring.Contents, DecodeInts, FdsOf;
      if fdsOut.Size() >= 4 * MAX_FDS {
        return false;
      }
      DecodeIntsConcat(fdsOut.Contents(), EncodeInt(fd));
      DecodeIntsOne(fd);
      ok := fdsOut.Put(EncodeInt(fd));
      fdsQueued := fdsQueued + [fd];
    }

    /** connection_close_fds, at the end of the connection: what still waits is closed unsent. */
    method CloseAllFds() returns (closedIn: seq<i32>, closedOut: seq<i32>)
      requires Valid()
      modifies `fates, fdsIn`tail, fdsOut`tail
      ensures Valid() && fdsIn.Contents() == [] && fdsOut.Contents() == []
      ensures closedIn == DecodeInts(old(fdsIn.Contents())) && closedOut == DecodeInts(old(fdsOut.Contents()))
      ensures fates == old(fates) + Mark(closedOut, false) && FdsOf(fates) == fdsQueued
    {
      hide Ring.Contents, Mark, FdsOf;
      closedIn := CloseFds(fdsIn);
      closedOut := CloseFds(fdsOut);
      FatesConcat(fates, Mark(closedOut, false));
      fates := fates + Mark(closedOut, false);
    }

    /** connection_get */
    method Get(count: nat) returns (bytes: Option<seq<byte>>)
      requires Valid()
      modifies inbuf`tail
      ensures Valid() && bytes.Some? == (count <= old(inbuf.Size()))
      ensures bytes.None? ==> inbuf.Contents() == old(inbuf.Contents())
      ensures bytes.Some? ==>
        && bytes.value == old(inbuf.Contents())[..count]
        && inbuf.Contents() == old(inbuf.Contents())[count..]
        && Window(inbuf.data[..], inbuf.tail - count, count) == bytes.value
    {
      if count > inbuf.Size() {
        return None;
      }
      RestoreUndoesConsume(inbuf.data[..], inbuf.tail, inbuf.Size(), count);
      hide Window;
      var b := inbuf.Copy(count);
      inbuf.Consume(count);
      bytes := Some(b);
    }

    /** connection_restore */
    method Restore(count: nat)
      requires Valid() && inbuf.Size() + count <= SIZE
      modifies inbuf`tail
      ensures Valid()
      ensures inbuf.Contents() == Window(inbuf.data[..], old(inbuf.tail) - count, count) + old(inbuf.Contents())
    {
      inbuf.Restore(count);
    }

    /** connection_get_fd */
    method GetFd() returns (fd: Option<i32>)
      requires Valid()
      modifies fdsIn`tail
      ensures Valid()
      ensures var fds := DecodeInts(old(fdsIn.Contents()));
        if fds == [] then fd == None && fdsIn.Contents() == old(fdsIn.Contents())
        else fd == Some(fds[0]) && DecodeInts(fdsIn.Contents()) == fds[1..]
    {
      if 4 > fdsIn.Size() {
        return None;
      }
      hide Ring.Contents;
      var b := fdsIn.Copy(4);
      fdsIn.Consume(4);
      fd := Some(DecodeInt(b));
    }

    method QueueFds(fds: seq<i32>)
      requires Valid() && fdsIn.Size() + 4 * |fds| <= SIZE
      modifies fdsIn`head, fdsIn.data
      ensures Valid() && fdsIn.Size() == old(fdsIn.Size()) + 4 * |fds|
      ensures DecodeInts(fdsIn.Contents()) == DecodeInts(old(fdsIn.Contents())) + fds
    {
      hide Ring.Contents, DecodeInts;
      DecodeIntsConcat(fdsIn.Contents(), EncodeInts(fds));
      IntsRoundTrip(fds);
      var _ := fdsIn.Put(EncodeInts(fds));
    }

    /** The body of the loop of decode_cmsg */
    method TakeMessage(cmsg: Cmsg, overflow: bool) returns (over: bool, closed: seq<i32>, ghost queued: seq<i32>)
      requires Valid()
      modifies fdsIn`head, fdsIn.data
      ensures Valid() && DecodeInts(fdsIn.Contents()) == DecodeInts(old(fdsIn.Contents())) + queued
      ensures Taken(cmsg, old(fdsIn.Size()), overflow, Intake(queued, closed, over), fdsIn.Size())
    {
      hide Ring.Contents, DecodeInts, Ledger;
      over, closed, queued := overflow, [], [];
      if cmsg.Other? {
        return;
      }
      if 4 * |cmsg.fds| > SIZE - fdsIn.Size() || overflow {
        over, closed := true, cmsg.fds;
      } else {
        QueueFds(cmsg.fds);
        queued := cmsg.fds;
      }
    }

    /** decode_cmsg: all descriptors are queued if they fit, and otherwise the longest
        run of whole messages that does, while the others are closed. */
    method DecodeCmsg(cmsgs: seq<Cmsg>) returns (ok: bool, closed: seq<i32>)
      requires Valid()
      modifies fdsIn`head, fdsIn.data
      ensures Valid()
      ensures var r := Admit(cmsgs, old(fdsIn.Size()), false);
        && ok == !r.overflow && closed == r.closed
        && DecodeInts(fdsIn.Contents()) == DecodeInts(old(fdsIn.Contents())) + r.queued
      ensures ok == (old(fdsIn.Size()) + 4 * |AllFds(cmsgs)| <= SIZE)
      ensures DecodeInts(fdsIn.Contents()) + closed == DecodeInts(old(fdsIn.Contents())) + AllFds(cmsgs)
      ensures ok ==> closed == []
    {
      hide Ring.Contents, DecodeInts, Admit, AllFds, Ledger, Admitting, Taken;
      var overflow := false;
      closed := [];
      ghost var was, queued := DecodeInts(fdsIn.Contents()), [];
      AdmitStarts(cmsgs, fdsIn.Size());
      for i := 0 to |cmsgs|
        invariant Valid()
        invariant DecodeInts(fdsIn.Contents()) == was + queued
        invariant Admitting(cmsgs, old(fdsIn.Size()), Intake(queued, closed, overflow), cmsgs[i..], fdsIn.Size())
      {
        assert cmsgs[i..][0] == cmsgs[i] && cmsgs[i..][1..] == cmsgs[i + 1..];
        ghost var used, done := fdsIn.Size(), Intake(queued, closed, overflow);
        var more;
        ghost var now;
        overflow, more, now := TakeMessage(cmsgs[i], overflow);
        AdmitNext(cmsgs, old(fdsIn.Size()), done, cmsgs[i..], used, Intake(now, more, overflow), fdsIn.Size());
        Associates(was, queued, now);
        closed := closed + more;
        queued := queued + now;
      }
      assert cmsgs[|cmsgs|..] == [];
      AdmitEnds(cmsgs, old(fdsIn.Size()), Intake(queued, closed, overflow), fdsIn.Size());
      AdmitConserves(cmsgs, old(fdsIn.Size()));
      Associates(was, queued, closed);
      ok := !overflow;
    }

    /** connection_read.  The result is the number of bytes buffered, not received:
        an end of stream is reported as 0 only when nothing was buffered. */
    method Read(r: Received) returns (res: int, again: bool, closed: seq<i32>)
      requires Valid()
      requires r.Got? && inbuf.Size() < SIZE ==> |r.bytes| <= SIZE - inbuf.Size()
      modifies inbuf`head, inbuf.data, fdsIn`head, fdsIn.data
      ensures Valid()
      ensures res == -1 <==>
        old(inbuf.Size()) == SIZE || r.Failed? || old(fdsIn.Size()) + 4 * |AllFds(r.cmsgs)| > SIZE
      ensures again == (old(inbuf.Size()) < SIZE && r.Failed? && r.again)
      ensures res == -1 ==> inbuf.Contents() == old(inbuf.Contents())
      ensures res != -1 ==> inbuf.Contents() == old(inbuf.Contents()) + r.bytes && res == inbuf.Size()
      ensures res == 0 <==> res != -1 && r.bytes == [] && old(inbuf.Contents()) == []
      ensures var a := if old(inbuf.Size()) < SIZE && r.Got? then Admit(r.cmsgs, old(fdsIn.Size()), false) else Intake([], [], false);
        closed == a.closed && DecodeInts(fdsIn.Contents()) == DecodeInts(old(fdsIn.Contents())) + a.queued
      ensures res != -1 ==> closed == [] && DecodeInts(fdsIn.Contents()) == DecodeInts(old(fdsIn.Contents())) + AllFds(r.cmsgs)
    {
      hide Ring.Contents, DecodeInts, Cells, CellsFrom, Admit, AllFds;
      closed, again := [], false;
      if inbuf.Size() >= SIZE {
        return -1, false, closed;
      }
      var iov := inbuf.PutIov();
      if r.Failed? {
        return -1, r.again, closed;
      }
      var ok;
      ok, closed := DecodeCmsg(r.cmsgs);
      if !ok {
        return -1, false, closed;
      }
      inbuf.Receive(iov, r.bytes);
      res := inbuf.Size();
    }
  }
}
