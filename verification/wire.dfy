/** Integers as bytes: two bytes for uint16_t, four for int, least significant first. */
module Wire {
  import opened Bytes

  type u16 = x: int | 0 <= x < 0x1_0000
  type i32 = x: int | -0x8000_0000 <= x < 0x8000_0000

  function EncodeU16(x: u16): (r: seq<byte>)
    ensures |r| == 2
  {
    [x % 256, x / 256]
  }

  function DecodeU16(b: seq<byte>): u16
    requires |b| == 2
  {
    b[0] as int + 256 * (b[1] as int)
  }

  lemma U16RoundTrip(x: u16)
    ensures DecodeU16(EncodeU16(x)) == x
  {
  }

  lemma U16Exact(b: seq<byte>)
    requires |b| == 2
    ensures EncodeU16(DecodeU16(b)) == b
  {
  }

  function EncodeInt(x: i32): (r: seq<byte>)
    ensures |r| == 4
  {
    var u := if x < 0 then x + 0x1_0000_0000 else x;
    [u % 256, (u / 0x100) % 256, (u / 0x1_0000) % 256, u / 0x100_0000]
  }

  function DecodeInt(b: seq<byte>): i32
    requires |b| == 4
  {
    var u := b[0] as int + 0x100 * (b[1] as int) + 0x1_0000 * (b[2] as int) + 0x100_0000 * (b[3] as int);
    if u >= 0x8000_0000 then u - 0x1_0000_0000 else u
  }

  lemma IntRoundTrip(x: i32)
    ensures DecodeInt(EncodeInt(x)) == x
  {
    var u := if x < 0 then x + 0x1_0000_0000 else x;
    assert u == u % 0x100 + 0x100 * (u / 0x100);
    assert u / 0x100 == (u / 0x100) % 0x100 + 0x100 * (u / 0x1_0000);
    assert u / 0x1_0000 == (u / 0x1_0000) % 0x100 + 0x100 * (u / 0x100_0000);
  }

  lemma IntExact(b: seq<byte>)
    requires |b| == 4
    ensures EncodeInt(DecodeInt(b)) == b
  {
    var u := b[0] as int + 0x100 * (b[1] as int) + 0x1_0000 * (b[2] as int) + 0x100_0000 * (b[3] as int);
    var v := b[1] as int + 0x100 * (b[2] as int) + 0x1_0000 * (b[3] as int);
    var w := b[2] as int + 0x100 * (b[3] as int);
    assert u == b[0] as int + 0x100 * v && u / 0x100 == v && u % 0x100 == b[0];
    assert v == b[1] as int + 0x100 * w && v / 0x100 == w && v % 0x100 == b[1];
    assert w / 0x100 == b[3] as int && w % 0x100 == b[2];
    assert u / 0x1_0000 == w && u / 0x100_0000 == b[3] as int;
  }

  /** The ints of a byte string whose length is a multiple of 4 */
  function DecodeInts(b: seq<byte>): (r: seq<i32>)
    requires |b| % 4 == 0
    ensures |r| == |b| / 4
  {
    if b == [] then [] else [DecodeInt(b[..4])] + DecodeInts(b[4..])
  }

  lemma {:induction false} DecodeIntsConcat(a: seq<byte>, b: seq<byte>)
    requires |a| % 4 == 0 && |b| % 4 == 0
    ensures DecodeInts(a + b) == DecodeInts(a) + DecodeInts(b)
  {
    if a == [] {
      assert a + b == b;
    } else {
      assert (a + b)[..4] == a[..4] && (a + b)[4..] == a[4..] + b;
      DecodeIntsConcat(a[4..], b);
    }
  }

  lemma DecodeIntsOne(x: i32)
    ensures DecodeInts(EncodeInt(x)) == [x]
  {
    IntRoundTrip(x);
    assert EncodeInt(x)[..4] == EncodeInt(x) && EncodeInt(x)[4..] == [];
  }

  function EncodeInts(xs: seq<i32>): (r: seq<byte>)
    ensures |r| == 4 * |xs|
  {
    if xs == [] then [] else EncodeInt(xs[0]) + EncodeInts(xs[1..])
  }

  lemma {:induction false} IntsRoundTrip(xs: seq<i32>)
    ensures DecodeInts(EncodeInts(xs)) == xs
  {
    if xs != [] {
      DecodeIntsConcat(EncodeInt(xs[0]), EncodeInts(xs[1..]));
      DecodeIntsOne(xs[0]);
      IntsRoundTrip(xs[1..]);
    }
  }
}
