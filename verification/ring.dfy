/**
 The 256-byte ring buffer of common/connection.c.  `head` and `tail` are
 uint32_t counters that run freely and wrap at 2^32; only their low 8 bits
 address the data.  `Contents()` is the queue of bytes the ring stands for.
 */
module RingBuffer {
  import opened Bytes

  const SIZE: nat := 256
  const WRAP: nat := 0x1_0000_0000

  type Counter = x: int | 0 <= x < WRAP

  // uint32_t arithmetic on counters

  function Minus(a: Counter, b: Counter): Counter {
    if a >= b then a - b else a - b + WRAP
  }

  function Advance(a: Counter, n: nat): Counter
    requires n <= SIZE
  {
    if a + n < WRAP then a + n else a + n - WRAP
  }

  function Retreat(a: Counter, n: nat): Counter
    requires n <= SIZE
  {
    if a >= n then a - n else a - n + WRAP
  }

  /** connection_buffer_mask */
  function Mask(x: int): (r: nat)
    ensures r < SIZE
  {
    x % SIZE
  }

  /** The cell of the i-th byte after counter value `start` */
  function Cell(start: int, i: int): (r: nat)
    ensures r < SIZE
  {
    Mask(start + i)
  }

  lemma MaskShift(x: int, k: int)
    ensures Mask(x + k * SIZE) == Mask(x)
  {
  }

  /** Masking does not notice that a counter wrapped. */
  lemma CellOfWrapped(x: int, i: int)
    ensures Cell(x + WRAP, i) == Cell(x, i) && Cell(x - WRAP, i) == Cell(x, i)
  {
    MaskShift(x + i, 0x100_0000);
    MaskShift(x + i, -0x100_0000);
  }

  lemma CellShift(x: int, k: int, i: int)
    ensures Cell(x + k, i) == Cell(x, k + i)
  {
    assert x + k + i == x + (k + i);
  }

  /** Where the i-th cell after a counter value lies. */
  lemma CellAt(x: int, i: int)
    requires 0 <= i <= SIZE
    ensures Cell(x, i) == if Mask(x) + i < SIZE then Mask(x) + i else Mask(x) + i - SIZE
  {
    assert x == (x / SIZE) * SIZE + Mask(x);
    if Mask(x) + i < SIZE {
      MaskShift(Mask(x) + i, x / SIZE);
    } else {
      MaskShift(Mask(x) + i - SIZE, x / SIZE + 1);
    }
  }

  /** The n bytes of the ring that start at counter value `start` */
  function Window(d: seq<byte>, start: int, n: nat): (r: seq<byte>)
    requires |d| == SIZE
    ensures |r| == n
    ensures forall i :: 0 <= i < n ==> r[i] == d[Cell(start, i)]
  {
    seq(n, i requires 0 <= i < n => d[Cell(start, i)])
  }

  lemma WindowSplit(d: seq<byte>, start: int, n: nat, k: nat)
    requires |d| == SIZE && k <= n
    ensures Window(d, start, n)[..k] == Window(d, start, k)
    ensures Window(d, start, n)[k..] == Window(d, start + k, n - k)
  {
    hide Cell;
    forall i | 0 <= i < n - k ensures Window(d, start, n)[k..][i] == Window(d, start + k, n - k)[i] {
      CellShift(start, k, i);
    }
  }

  lemma WindowWrap(d: seq<byte>, start: int, n: nat)
    requires |d| == SIZE
    ensures Window(d, start + WRAP, n) == Window(d, start, n)
    ensures Window(d, start - WRAP, n) == Window(d, start, n)
  {
    hide Cell;
    forall i | 0 <= i < n
      ensures Window(d, start + WRAP, n)[i] == Window(d, start, n)[i]
      ensures Window(d, start - WRAP, n)[i] == Window(d, start, n)[i]
    {
      CellOfWrapped(start, i);
    }
  }

  /** What restore brings back is what consume took away. */
  lemma RestoreUndoesConsume(d: seq<byte>, tail: Counter, size: nat, n: nat)
    requires |d| == SIZE && n <= size <= SIZE
    ensures Window(d, Advance(tail, n) - n, n) + Window(d, tail, size)[n..] == Window(d, tail, size)
    ensures Window(d, Advance(tail, n) - n, n) == Window(d, tail, size)[..n]
  {
    hide Window;
    WindowSplit(d, tail, size, n);
    WindowWrap(d, tail, n);
    assert Window(d, tail, size) == Window(d, tail, size)[..n] + Window(d, tail, size)[n..];
  }

  /** A segment of the data array, as handed to sendmsg and recvmsg */
  datatype Iovec = Iovec(base: nat, len: nat)

  function Segment(v: Iovec): (r: seq<nat>)
    ensures |r| == v.len
  {
    seq(v.len, i requires 0 <= i < v.len => v.base + i)
  }

  /** The cells an I/O vector of one or two segments covers, in order */
  function Cells(iov: seq<Iovec>): seq<nat> {
    if iov == [] then [] else Segment(iov[0]) + Cells(iov[1..])
  }

  /** n consecutive cells of the ring from counter value `start` on */
  function CellsFrom(start: int, n: nat): (r: seq<nat>)
    ensures |r| == n
    ensures forall i :: 0 <= i < n ==> r[i] == Cell(start, i)
  {
    seq<nat>(n, i requires 0 <= i < n => Cell(start, i))
  }

  lemma OneSegment(start: int, n: nat)
    requires Mask(start) + n <= SIZE
    ensures Cells([Iovec(Mask(start), n)]) == CellsFrom(start, n)
  {
    hide Mask, Cell;
    var v := Iovec(Mask(start), n);
    assert Cells([v]) == Segment(v);
    forall i | 0 <= i < n ensures Segment(v)[i] == CellsFrom(start, n)[i] {
      CellAt(start, i);
    }
  }

  lemma TwoSegments(start: int, n: nat)
    requires SIZE <= Mask(start) + n && n <= SIZE
    ensures Cells([Iovec(Mask(start), SIZE - Mask(start)), Iovec(0, Mask(start) + n - SIZE)]) == CellsFrom(start, n)
  {
    hide Mask, Cell;
    var v, u := Iovec(Mask(start), SIZE - Mask(start)), Iovec(0, Mask(start) + n - SIZE);
    assert [v, u][1..] == [u] && [u][1..] == [];
    assert Cells([u]) == Segment(u);
    assert Cells([v, u]) == Segment(v) + Segment(u);
    forall i | 0 <= i < n ensures Cells([v, u])[i] == CellsFrom(start, n)[i] {
      CellAt(start, i);
    }
  }

  class Ring {
    const data: array<byte>
    var head: Counter
    var tail: Counter

    ghost predicate Valid()
      reads this
    {
      data.Length == SIZE && Size() <= SIZE
    }

    /** connection_buffer_size */
    function Size(): (n: nat)
      reads this
    {
      Minus(head, tail)
    }

    ghost function Contents(): (r: seq<byte>)
      requires Valid()
      reads this, data
      ensures |r| == Size()
    {
      Window(data[..], tail, Size())
    }

    constructor ()
      ensures Valid() && fresh(data) && Contents() == []
    {
      data := new byte[SIZE];
      head, tail := 0, 0;
    }

    /** connection_buffer_consume */
    method Consume(n: nat)
      requires Valid() && n <= Size()
      modifies `tail
      ensures Valid() && Contents() == old(Contents())[n..]
      ensures tail == Advance(old(tail), n)
    {
      hide Mask, Window;
      WindowSplit(data[..], tail, Size(), n);
      WindowWrap(data[..], tail + n, Size() - n);
      tail := Advance(tail, n);
    }

    /** connection_buffer_restore: the bytes just before the queue come back. */
    method Restore(n: nat)
      requires Valid() && Size() + n <= SIZE
      modifies `tail
      ensures Valid() && Contents() == Window(data[..], old(tail) - n, n) + old(Contents())
    {
      hide Mask, Window;
      var m := Size() + n;
      WindowWrap(data[..], tail - n, m);
      WindowSplit(data[..], tail - n, m, n);
      assert Window(data[..], tail - n, m)
             == Window(data[..], tail - n, m)[..n] + Window(data[..], tail - n, m)[n..];
      tail := Retreat(tail, n);
    }

    /** The size in terms of the masked counters */
    lemma SizeFromMasks()
      requires Valid()
      ensures var h, t := Mask(head), Mask(tail);
        && (t < h ==> Size() == h - t)
        && (h < t ==> Size() == h + SIZE - t)
        && (h == t ==> Size() == 0 || Size() == SIZE)
    {
      CellAt(tail, Size());
      MaskShift(head, 0x100_0000);
      assert tail + Size() == head || tail + Size() == head + WRAP;
    }

    /** connection_buffer_get_iov: the vectors cover exactly the queued bytes, in order. */
    method GetIov() returns (iov: seq<Iovec>)
      requires Valid() && Size() > 0
      ensures 1 <= |iov| <= 2 && Cells(iov) == CellsFrom(tail, Size())
      ensures forall v :: v in iov ==> v.base + v.len <= SIZE
    {
      hide Mask, Cells, CellsFrom;
      var h, t := Mask(head), Mask(tail);
      SizeFromMasks();
      if t < h {
        iov := [Iovec(t, h - t)];
        OneSegment(tail, Size());
      } else if h == 0 {
        iov := [Iovec(t, SIZE - t)];
        OneSegment(tail, Size());
      } else {
        iov := [Iovec(t, SIZE - t), Iovec(0, h)];
        TwoSegments(tail, Size());
      }
    }

    /** connection_buffer_put_iov: the vectors cover exactly the free cells, in order. */
    method PutIov() returns (iov: seq<Iovec>)
      requires Valid() && Size() < SIZE
      ensures 1 <= |iov| <= 2 && Cells(iov) == CellsFrom(head, SIZE - Size())
      ensures forall v :: v in iov ==> v.base + v.len <= SIZE
    {
      hide Mask, Cells, CellsFrom;
      var h, t := Mask(head), Mask(tail);
      SizeFromMasks();
      if h < t {
        iov := [Iovec(h, t - h)];
        OneSegment(head, SIZE - Size());
      } else if t == 0 {
        iov := [Iovec(h, SIZE - h)];
        OneSegment(head, SIZE - Size());
      } else {
        iov := [Iovec(h, SIZE - h), Iovec(0, t)];
        TwoSegments(head, SIZE - Size());
      }
    }

    /** connection_buffer_copy */
    method Copy(count: nat) returns (bytes: seq<byte>)
      requires Valid() && count <= SIZE
      ensures bytes == Window(data[..], tail, count)
      ensures count <= Size() ==> bytes == Contents()[..count]
    {
      hide Mask, Cell;
      var t := Mask(tail);
      if t + count <= SIZE {
        bytes := data[t..t + count];
      } else {
        var size := SIZE - t;
        bytes := data[t..] + data[..count - size];
      }
      forall i | 0 <= i < count ensures bytes[i] == data[Cell(tail, i)] {
        CellAt(tail, i);
      }
      if count <= Size() { WindowSplit(data[..], tail, Size(), count); }
    }

    /** memcpy into the data array */
    method Write(at: nat, src: seq<byte>)
      requires data.Length == SIZE && at + |src| <= SIZE
      modifies data
      ensures data[..] == old(data[..at]) + src + old(data[at + |src|..])
    {
      forall i | 0 <= i < |src| {
        data[at + i] := src[i];
      }
    }

    /** connection_buffer_put.  The caller makes sure that the bytes fit. */
    method Put(src: seq<byte>) returns (ok: bool)
      requires Valid() && (|src| <= SIZE ==> Size() + |src| <= SIZE)
      modifies `head, data
      ensures Valid() && ok == (|src| <= SIZE)
      ensures Contents() == if ok then old(Contents()) + src else old(Contents())
    {
      if |src| > SIZE {
        return false;
      }
      var h := Mask(head);
      ghost var d := data[..];
      if h + |src| <= SIZE {
        Write(h, src);
      } else {
        var size := SIZE - h;
        Write(h, src[..size]);
        Write(0, src[size..]);
      }
      assert Filled(d, data[..], head, src) by { LinearFill(d, data[..], head, src); }
      AppendWindow(d, data[..], head, tail, src);
      head := Advance(head, |src|);
      ok := true;
    }

    /** What recvmsg does with the vectors of PutIov: fill their cells in order. */
    method Receive(iov: seq<Iovec>, bytes: seq<byte>)
      requires Valid() && Cells(iov) == CellsFrom(head, SIZE - Size()) && |bytes| <= SIZE - Size()
      modifies `head, data
      ensures Valid() && Contents() == old(Contents()) + bytes
    {
      hide Cell, Cells;
      var cells := Cells(iov);
      ghost var d := data[..];
      for i := 0 to |bytes|
        invariant head == old(head) && tail == old(tail)
        invariant Filled(d, data[..], head, bytes[..i])
      {
        ghost var before := data[..];
        data[cells[i]] := bytes[i];
        OneMoreFilled(d, before, data[..], head, bytes, i);
      }
      assert bytes[..|bytes|] == bytes;
      AppendWindow(d, data[..], head, tail, bytes);
      head := Advance(head, |bytes|);
    }
  }

  /** d1 is d with the cells from `head` on filled with src */
  ghost predicate Filled(d: seq<byte>, d1: seq<byte>, head: Counter, src: seq<byte>) {
    && |d| == |d1| == SIZE && |src| <= SIZE
    && (forall j :: 0 <= j < |src| ==> d1[Cell(head, j)] == src[j])
    && (forall k :: 0 <= k < SIZE && k !in CellsFrom(head, |src|) ==> d1[k] == d[k])
  }

  /** The cells of the queue and the free cells behind it do not overlap. */
  lemma FreeCellsAreElsewhere(head: Counter, tail: Counter, i: nat, j: nat)
    requires i < Minus(head, tail) && Minus(head, tail) + j < SIZE
    ensures Cell(tail, i) != Cell(head, j)
  {
    CellFromHead(head, tail, j);
    hide Mask, Cell;
    CellAt(tail, i);
    CellAt(tail, Minus(head, tail) + j);
  }

  lemma CellFromHead(head: Counter, tail: Counter, j: nat)
    ensures Cell(head, j) == Cell(tail, Minus(head, tail) + j)
  {
    hide Cell;
    CellShift(tail, Minus(head, tail), j);
    CellOfWrapped(head, j);
  }

  /** Filling cells behind the queue appends to the queue. */
  lemma AppendWindow(d: seq<byte>, d1: seq<byte>, head: Counter, tail: Counter, src: seq<byte>)
    requires Filled(d, d1, head, src) && Minus(head, tail) + |src| <= SIZE
    ensures Window(d1, tail, Minus(head, tail) + |src|) == Window(d, tail, Minus(head, tail)) + src
  {
    hide Cell;
    var n := Minus(head, tail);
    forall i | 0 <= i < n + |src| ensures d1[Cell(tail, i)] == (Window(d, tail, n) + src)[i] {
      if i < n {
        forall j | 0 <= j < |src| ensures Cell(tail, i) != Cell(head, j) {
          FreeCellsAreElsewhere(head, tail, i, j);
        }
        assert Cell(tail, i) !in CellsFrom(head, |src|);
      } else {
        CellFromHead(head, tail, i - n);
      }
    }
  }

  /** Two memcpys that wrap at the end of the array fill the cells from head on. */
  lemma LinearFill(d: seq<byte>, d1: seq<byte>, head: Counter, src: seq<byte>)
    requires |d| == |d1| == SIZE && |src| <= SIZE
    requires forall k :: 0 <= k < SIZE ==>
      d1[k] == if Mask(head) <= k < Mask(head) + |src| then src[k - Mask(head)]
               else if k < Mask(head) + |src| - SIZE then src[k + SIZE - Mask(head)]
               else d[k]
    ensures Filled(d, d1, head, src)
  {
    hide Mask, Cell;
    forall j | 0 <= j < |src| ensures d1[Cell(head, j)] == src[j] {
      CellAt(head, j);
    }
    forall k | 0 <= k < SIZE ensures k in CellsFrom(head, |src|) || d1[k] == d[k] {
      var j := if Mask(head) <= k then k - Mask(head) else k + SIZE - Mask(head);
      CellAt(head, j);
      if j < |src| { assert CellsFrom(head, |src|)[j] == k; }
    }
  }

  lemma OneMoreFilled(d: seq<byte>, d1: seq<byte>, d2: seq<byte>, head: Counter, src: seq<byte>, i: nat)
    requires i < |src| <= SIZE && Filled(d, d1, head, src[..i])
    requires d2 == d1[Cell(head, i) := src[i]]
    ensures Filled(d, d2, head, src[..i + 1])
  {
    hide Mask, Cell;
    forall j | 0 <= j < i ensures Cell(head, j) != Cell(head, i) {
      CellAt(head, i);
      CellAt(head, j);
    }
    assert CellsFrom(head, i + 1) == CellsFrom(head, i) + [Cell(head, i)];
  }
}
