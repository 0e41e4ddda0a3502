/** Bytes, fixed-width integers and their encodings as byte sequences in either byte order.
    Every multi-byte primitive of the codec is a `Decode`/`Encode` of this module. */
module ByteCodec {

  type byte = x: int | 0 <= x < 0x100
  type u16 = x: int | 0 <= x < 0x1_0000
  type u32 = x: int | 0 <= x < 0x1_0000_0000
  type u64 = x: int | 0 <= x < 0x1_0000_0000_0000_0000

  const I32_MIN: int := -0x8000_0000
  const I32_MAX: int := 0x7FFF_FFFF
  type i32 = x: int | -0x8000_0000 <= x <= 0x7FFF_FFFF
  type i8 = x: int | -0x80 <= x < 0x80

  /** The two branches of the byte-order choice (`use_big_endian!()`, or the host's native order). */
  datatype ByteOrder = BigEndian | LittleEndian

  function Pow256(n: nat): (r: nat)
    ensures r > 0
  {
    if n == 0 then 1 else 256 * Pow256(n - 1)
  }

  lemma Pow256Values()
    ensures Pow256(1) == 0x100 && Pow256(2) == 0x1_0000 && Pow256(4) == 0x1_0000_0000
    ensures Pow256(8) == 0x1_0000_0000_0000_0000
  {
  }

  /** Four bytes decode to a u32. */
  lemma DecodeU32(order: ByteOrder, s: seq<byte>)
    requires |s| == 4
    ensures Decode(order, s) < 0x1_0000_0000
  {
    Pow256Values();
  }

  /** The value of `s` read most significant byte first. */
  function BeValue(s: seq<byte>): (r: nat)
    ensures r < Pow256(|s|)
  {
    if s == [] then 0 else BeValue(s[..|s| - 1]) * 256 + s[|s| - 1]
  }

  /** The value of a four-byte sequence, written out. */
  lemma BeValue4(s: seq<byte>)
    requires |s| == 4
    ensures BeValue(s) == ((s[0] as int * 256 + s[1]) * 256 + s[2]) * 256 + s[3]
  {
    assert s[..3][..2][..1][..0] == [];
    assert BeValue(s[..3][..2][..1]) == s[0];
    assert BeValue(s[..3][..2]) == s[0] as int * 256 + s[1];
    assert BeValue(s[..3]) == (s[0] as int * 256 + s[1]) * 256 + s[2];
  }

  /** The `n` low-order bytes of `v`, most significant first. */
  function BeBytes(v: nat, n: nat): (r: seq<byte>)
    ensures |r| == n
  {
    if n == 0 then [] else BeBytes(v / 256, n - 1) + [v % 256]
  }

  function Reverse(s: seq<byte>): (r: seq<byte>)
    ensures |r| == |s|
  {
    if s == [] then [] else Reverse(s[1..]) + [s[0]]
  }

  /** The unsigned value of the bytes `s` in the given byte order (`uN::from_be_bytes` / `from_le_bytes`). */
  function Decode(order: ByteOrder, s: seq<byte>): (r: nat)
    ensures r < Pow256(|s|)
  {
    match order
    case BigEndian => BeValue(s)
    case LittleEndian => BeValue(Reverse(s))
  }

  /** The `n`-byte encoding of `v` in the given byte order (`uN::to_be_bytes` / `to_le_bytes`). */
  function Encode(order: ByteOrder, v: nat, n: nat): (r: seq<byte>)
    ensures |r| == n
  {
    match order
    case BigEndian => BeBytes(v, n)
    case LittleEndian => Reverse(BeBytes(v, n))
  }

  lemma {:induction false} ReverseAt(s: seq<byte>, k: nat)
    requires k < |s|
    ensures Reverse(s)[k] == s[|s| - 1 - k]
  {
    if k < |s| - 1 {
      ReverseAt(s[1..], k);
    }
  }

  /** A slice lying wholly within `a` in `a + b` is a slice of `a`. */
  lemma SliceBefore(a: seq<byte>, b: seq<byte>, lo: nat, hi: nat)
    requires lo <= hi <= |a|
    ensures (a + b)[lo..hi] == a[lo..hi]
  {
  }

  /** A slice lying wholly after `a` in `a + b` is a slice of `b`. */
  lemma SliceAfter(a: seq<byte>, b: seq<byte>, lo: nat, hi: nat)
    requires |a| <= lo <= hi <= |a| + |b|
    ensures (a + b)[lo..hi] == b[lo - |a|..hi - |a|]
  {
  }

  lemma ReverseInvolution(s: seq<byte>)
    ensures Reverse(Reverse(s)) == s
  {
    forall k | 0 <= k < |s|
      ensures Reverse(Reverse(s))[k] == s[k]
    {
      ReverseAt(Reverse(s), k);
      ReverseAt(s, |s| - 1 - k);
    }
  }

  lemma {:induction false} BeValueOfBytes(v: nat, n: nat)
    requires v < Pow256(n)
    ensures BeValue(BeBytes(v, n)) == v
  {
    if n > 0 {
      var s := BeBytes(v, n);
      assert s[..n - 1] == BeBytes(v / 256, n - 1);
      BeValueOfBytes(v / 256, n - 1);
    }
  }

  lemma {:induction false} BeBytesOfValue(s: seq<byte>)
    ensures BeBytes(BeValue(s), |s|) == s
  {
    if s != [] {
      var init := s[..|s| - 1];
      var v := BeValue(s);
      assert v / 256 == BeValue(init) && v % 256 == s[|s| - 1];
      BeBytesOfValue(init);
      assert s == init + [s[|s| - 1]];
    }
  }

  /** Decoding what was encoded gives the value back, in either byte order. */
  lemma DecodeEncode(order: ByteOrder, v: nat, n: nat)
    requires v < Pow256(n)
    ensures Decode(order, Encode(order, v, n)) == v
  {
    if order == LittleEndian {
      ReverseInvolution(BeBytes(v, n));
    }
    BeValueOfBytes(v, n);
  }

  /** Encoding what was decoded gives the bytes back, in either byte order. */
  lemma EncodeDecode(order: ByteOrder, s: seq<byte>)
    ensures Encode(order, Decode(order, s), |s|) == s
  {
    match order
    case BigEndian =>
      BeBytesOfValue(s);
    case LittleEndian =>
      BeBytesOfValue(Reverse(s));
      ReverseInvolution(s);
  }

  /** The two byte orders of one encoding are each other's reversal. */
  lemma EncodeOrders(v: nat, n: nat)
    ensures Encode(LittleEndian, v, n) == Reverse(Encode(BigEndian, v, n))
    ensures Encode(BigEndian, v, n) == Reverse(Encode(LittleEndian, v, n))
  {
    ReverseInvolution(BeBytes(v, n));
  }

  /** Two's complement: the unsigned 32-bit pattern of a signed value, and back. */
  function I32ToBits(x: i32): (u: u32)
  {
    if x < 0 then x + 0x1_0000_0000 else x
  }

  function I32FromBits(u: u32): (x: i32)
  {
    if u >= 0x8000_0000 then u - 0x1_0000_0000 else u
  }

  lemma I32BitsRoundTrip(x: i32, u: u32)
    ensures I32FromBits(I32ToBits(x)) == x
    ensures I32ToBits(I32FromBits(u)) == u
  {
  }
}
