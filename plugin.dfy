/** The primitive stream codec of the plugin interface: fixed-width integers, u16 arrays,
    s15Fixed16 numbers and XYZ triples read from a `Reader` and written to a `Writer`, and the
    conversions between the fixed-point number encodings and reals (section 4 of ICC.1:2010). */
module Plugin {
  import opened ByteCodec
  import opened Streams
  import opened Lcms

  // ----- Fixed-point conversions -----

  /** `s15f16_to_f64`: sign times (whole part plus frac/65536) of the absolute value. `i32::abs`
      wraps at the minimum in release builds, whose high half then reads as 0x8000. */
  function S15F16ToF64(fixed: i32): (r: real)
    ensures r == fixed as real / 65536.0
  {
    var sign := if fixed < 0 then -1.0 else 1.0;
    var a: int := if fixed < 0 && fixed != I32_MIN then -fixed else fixed;
    var whole := (a / 0x1_0000) % 0x1_0000;
    var frac := a % 0x1_0000;
    assert fixed != I32_MIN ==> whole as real + frac as real / 65536.0 == a as real / 65536.0 by {
      if fixed != I32_MIN {
        WholeFracSplit(a);
      }
    }
    sign * (whole as real + frac as real / 65536.0)
  }

  /** Below 2^31, the high half and the low half (in 65536ths) add up to the value over 65536. */
  lemma WholeFracSplit(a: int)
    requires 0 <= a < 0x8000_0000
    ensures ((a / 0x1_0000) % 0x1_0000) as real + (a % 0x1_0000) as real / 65536.0 == a as real / 65536.0
  {
    var q, m := a / 0x1_0000, a % 0x1_0000;
    assert a == q * 0x1_0000 + m;
    assert q % 0x1_0000 == q;
    assert a as real == q as real * 65536.0 + m as real;
  }

  /** `f64_to_s15f16`: round half up to the nearest 1/65536; the cast to `i32` saturates. */
  function F64ToS15F16(v: real): (r: i32)
    ensures I32_MIN as real <= v * 65536.0 + 0.5 < I32_MAX as real + 1.0 ==>
              r as real <= v * 65536.0 + 0.5 < r as real + 1.0
    ensures v * 65536.0 + 0.5 < I32_MIN as real ==> r == I32_MIN
    ensures v * 65536.0 + 0.5 >= I32_MAX as real + 1.0 ==> r == I32_MAX
  {
    var f := (v * 65536.0 + 0.5).Floor;
    if f < I32_MIN then I32_MIN else if f > I32_MAX then I32_MAX else f
  }

  /** Every s15Fixed16 value survives the trip through a real. */
  lemma S15F16RoundTrip(x: i32)
    ensures F64ToS15F16(S15F16ToF64(x)) == x
  {
    var v := S15F16ToF64(x);
    assert v * 65536.0 + 0.5 == x as real + 0.5;
  }

  /** In range, the encoding is within half a unit of the last place of the real it encodes. */
  lemma S15F16Accuracy(v: real)
    requires I32_MIN as real <= v * 65536.0 + 0.5 < I32_MAX as real + 1.0
    ensures -1.0 / 131072.0 < S15F16ToF64(F64ToS15F16(v)) - v <= 1.0 / 131072.0
  {
    var f := (v * 65536.0 + 0.5).Floor;
    assert f as real <= v * 65536.0 + 0.5 < f as real + 1.0;
    assert F64ToS15F16(v) == f;
  }

  /** The examples of the conversions' documentation. */
  lemma S15F16Examples()
    ensures S15F16ToF64(0x0002_8000) == 2.5 && F64ToS15F16(2.5) == 0x0002_8000
    ensures S15F16ToF64(0x002A_0000) == 42.0 && F64ToS15F16(42.0) == 0x002A_0000
    ensures S15F16ToF64(-0x0001_0000) == -1.0 && F64ToS15F16(-1.0) == -0x0001_0000
  {
    assert (2.5 * 65536.0 + 0.5).Floor == 0x0002_8000;
    assert (42.0 * 65536.0 + 0.5).Floor == 0x002A_0000;
    assert (-1.0 * 65536.0 + 0.5).Floor == -0x0001_0000;
  }

  /** `u8f8_to_f64`: the high byte is the whole part and the low byte counts 256ths. */
  function U8F8ToF64(fixed: u16): (r: real)
    ensures r == fixed as real / 256.0
  {
    var msb := (fixed / 0x100) % 0x100;
    var lsb := fixed % 0x100;
    msb as real + lsb as real / 256.0
  }

  /** `f64_to_u8f8`: bits 8..23 of the s15Fixed16 encoding (an arithmetic shift, then a mask). */
  function F64ToU8F8(v: real): (r: u16)
    ensures 0 <= F64ToS15F16(v) < 0x100_0000 ==>
              r * 0x100 <= F64ToS15F16(v) < r * 0x100 + 0x100
  {
    (F64ToS15F16(v) / 0x100) % 0x1_0000
  }

  /** Every u8Fixed8 value survives the trip through a real. */
  lemma U8F8RoundTrip(f: u16)
    ensures F64ToU8F8(U8F8ToF64(f)) == f
  {
    var v := U8F8ToF64(f);
    assert v * 65536.0 + 0.5 == (f * 256) as real + 0.5;
    assert F64ToS15F16(v) == f * 256;
  }

  /** A negative real wraps around instead of saturating at zero: -1.0 becomes 0xFF00. */
  lemma U8F8NegativeWraps()
    ensures F64ToU8F8(-1.0) == 0xFF00
  {
    assert (-1.0 * 65536.0 + 0.5).Floor == -0x1_0000;
  }

  /** For a non-negative real below 256, the u8Fixed8 encoding reads back at most 1/256 below it
      (the bits dropped) and at most half an s15Fixed16 unit above it (the rounding). */
  lemma U8F8Accuracy(v: real)
    requires 0.0 <= v && v * 65536.0 + 0.5 < 16777216.0
    ensures -1.0 / 256.0 < U8F8ToF64(F64ToU8F8(v)) - v <= 1.0 / 131072.0
  {
    var f := (v * 65536.0 + 0.5).Floor;
    assert f as real <= v * 65536.0 + 0.5 < f as real + 1.0;
    assert F64ToS15F16(v) == f;
    var q := f / 0x100;
    assert F64ToU8F8(v) == q;
    assert q * 0x100 <= f < q * 0x100 + 0x100;
  }

  // ----- Encodings -----

  /** The wire form of a real as an s15Fixed16 number. */
  function S15F16Bytes(order: ByteOrder, v: real): (r: seq<byte>)
    ensures |r| == 4
  {
    Encode(order, I32ToBits(F64ToS15F16(v)), 4)
  }

  /** The real an s15Fixed16 number at offset `k` of `s` stands for. */
  function S15F16At(order: ByteOrder, s: seq<byte>, k: nat): real
    requires k + 4 <= |s|
  {
    Pow256Values();
    S15F16ToF64(I32FromBits(Decode(order, s[k..k + 4])))
  }

  /** The real that a write then a read of `v` gives back: `v` rounded to the fixed-point grid. */
  function Quantize(v: real): (r: real)
    ensures r == F64ToS15F16(v) as real / 65536.0
  {
    S15F16ToF64(F64ToS15F16(v))
  }

  /** The wire form of an XYZ triple: X, Y and Z in that order. */
  function XyzBytes(order: ByteOrder, v: CieXyz): (r: seq<byte>)
    ensures |r| == 12
  {
    S15F16Bytes(order, v.x) + S15F16Bytes(order, v.y) + S15F16Bytes(order, v.z)
  }

  /** The XYZ triple stored in the first 12 bytes of `s`. */
  function XyzAt(order: ByteOrder, s: seq<byte>): CieXyz
    requires 12 <= |s|
  {
    CieXyz(S15F16At(order, s, 0), S15F16At(order, s, 4), S15F16At(order, s, 8))
  }

  /** Decoding an encoded real gives it back, rounded to the fixed-point grid. */
  lemma {:induction false} S15F16BytesRoundTrip(order: ByteOrder, v: real)
    ensures S15F16At(order, S15F16Bytes(order, v), 0) == Quantize(v)
  {
    var s := S15F16Bytes(order, v);
    Pow256Values();
    assert s[0..4] == s;
    DecodeEncode(order, I32ToBits(F64ToS15F16(v)), 4);
    I32BitsRoundTrip(F64ToS15F16(v), 0);
  }

  /** Decoding an encoded triple gives each coordinate back, rounded to the fixed-point grid. */
  lemma XyzBytesRoundTrip(order: ByteOrder, v: CieXyz)
    ensures XyzAt(order, XyzBytes(order, v)) == CieXyz(Quantize(v.x), Quantize(v.y), Quantize(v.z))
  {
    var s := XyzBytes(order, v);
    assert s[0..4] == S15F16Bytes(order, v.x);
    assert s[4..8] == S15F16Bytes(order, v.y);
    assert s[8..12] == S15F16Bytes(order, v.z);
    S15F16BytesRoundTrip(order, v.x);
    S15F16BytesRoundTrip(order, v.y);
    S15F16BytesRoundTrip(order, v.z);
    assert S15F16Bytes(order, v.x)[0..4] == s[0..4];
    assert S15F16Bytes(order, v.y)[0..4] == s[4..8];
    assert S15F16Bytes(order, v.z)[0..4] == s[8..12];
  }

  /** The triple of the documentation is on the fixed-point grid, so it comes back exactly. */
  lemma XyzExampleExact()
    ensures forall order: ByteOrder ::
      XyzAt(order, XyzBytes(order, CieXyz(2.5, 42.0, -1.0))) == CieXyz(2.5, 42.0, -1.0)
  {
    S15F16Examples();
    forall order: ByteOrder {
      XyzBytesRoundTrip(order, CieXyz(2.5, 42.0, -1.0));
    }
  }

  /** The wire form of a u16 array: the elements in index order. */
  function U16ArrayBytes(order: ByteOrder, values: seq<u16>): (r: seq<byte>)
    ensures |r| == 2 * |values|
  {
    if values == [] then [] else Encode(order, values[0], 2) + U16ArrayBytes(order, values[1..])
  }

  lemma {:induction false} U16ArrayBytesConcat(order: ByteOrder, a: seq<u16>, b: seq<u16>)
    ensures U16ArrayBytes(order, a + b) == U16ArrayBytes(order, a) + U16ArrayBytes(order, b)
  {
    if a == [] {
      assert a + b == b;
    } else {
      assert (a + b)[0] == a[0] && (a + b)[1..] == a[1..] + b;
      U16ArrayBytesConcat(order, a[1..], b);
    }
  }

  /** The wire form of the first `i + 1` elements extends that of the first `i`. */
  lemma U16ArrayBytesStep(order: ByteOrder, values: seq<u16>, i: nat)
    requires i < |values|
    ensures U16ArrayBytes(order, values[..i + 1]) == U16ArrayBytes(order, values[..i]) + Encode(order, values[i], 2)
  {
    assert values[..i + 1] == values[..i] + [values[i]];
    U16ArrayBytesConcat(order, values[..i], [values[i]]);
  }

  /** A write that falls short on element `i` has stored the sink's share of the whole array. */
  lemma U16ArrayShortWrite(order: ByteOrder, values: seq<u16>, i: nat, room: nat)
    requires i < |values| && 2 * i <= room < 2 * i + 2
    ensures U16ArrayBytes(order, values[..i]) + Clip(Encode(order, values[i], 2), room - 2 * i)
         == Clip(U16ArrayBytes(order, values), room)
  {
    U16ArraySplitAt(order, values, i);
    ClipInside(U16ArrayBytes(order, values[..i]), Encode(order, values[i], 2),
               U16ArrayBytes(order, values[i + 1..]), room);
  }

  /** The wire form of an array is that of the elements before `i`, element `i`, and the rest. */
  lemma U16ArraySplitAt(order: ByteOrder, values: seq<u16>, i: nat)
    requires i < |values|
    ensures U16ArrayBytes(order, values)
         == U16ArrayBytes(order, values[..i]) + Encode(order, values[i], 2) + U16ArrayBytes(order, values[i + 1..])
  {
    U16ArrayBytesStep(order, values, i);
    assert values == values[..i + 1] + values[i + 1..];
    U16ArrayBytesConcat(order, values[..i + 1], values[i + 1..]);
  }

  /** The same, for a sink that already held `start`. */
  lemma U16ArrayShortWriteAfter(order: ByteOrder, values: seq<u16>, i: nat, room: nat, start: seq<byte>, bytes: seq<byte>)
    requires i < |values| && 2 * i <= room < 2 * i + 2
    requires bytes == start + U16ArrayBytes(order, values[..i]) + Clip(Encode(order, values[i], 2), room - 2 * i)
    ensures bytes == start + Clip(U16ArrayBytes(order, values), room)
  {
    U16ArrayShortWrite(order, values, i, room);
  }

  /** A sink whose room ends inside `e` keeps all of `a` and the part of `e` that fits. */
  lemma ClipInside(a: seq<byte>, e: seq<byte>, b: seq<byte>, room: nat)
    requires |a| <= room < |a| + |e|
    ensures Clip(a + e + b, room) == a + Clip(e, room - |a|)
  {
    assert (a + e + b)[..room] == a + e[..room - |a|];
  }

  /** The u16 stored at element `i` of `s`. */
  function U16At(order: ByteOrder, s: seq<byte>, i: nat): (r: u16)
    requires 2 * i + 2 <= |s|
  {
    Pow256Values();
    Decode(order, s[2 * i..2 * i + 2])
  }

  /** Decoding an encoded array gives every element back at its index. */
  lemma {:induction false} U16ArrayRoundTrip(order: ByteOrder, values: seq<u16>, i: nat)
    requires i < |values|
    ensures U16At(order, U16ArrayBytes(order, values), i) == values[i]
  {
    var e := Encode(order, values[0], 2);
    var rest := U16ArrayBytes(order, values[1..]);
    assert U16ArrayBytes(order, values) == e + rest;
    if i == 0 {
      assert (e + rest)[0..2] == e;
      Pow256Values();
      DecodeEncode(order, values[0], 2);
    } else {
      U16ArrayRoundTrip(order, values[1..], i - 1);
      SliceAfter(e, rest, 2 * i, 2 * i + 2);
    }
  }

  // ----- Readers -----

  /** `read_u8`. */
  method ReadU8(r: Reader) returns (res: Result<byte>)
    requires r.Valid()
    modifies r
    ensures r.Valid()
    ensures |old(r.Rest())| >= 1 ==> res == Ok(old(r.Rest())[0]) && r.Rest() == old(r.Rest())[1..]
    ensures |old(r.Rest())| < 1 ==> res == Err(UnexpectedEof) && r.Rest() == []
  {
    var buf := r.Read(1);
    if |buf| == 1 {
      res := Ok(buf[0]);
    } else {
      res := Err(UnexpectedEof);
    }
  }

  /** `read_u16`. */
  method ReadU16(r: Reader, order: ByteOrder) returns (res: Result<u16>)
    requires r.Valid()
    modifies r
    ensures r.Valid()
    ensures |old(r.Rest())| >= 2 ==>
      res == Ok(Decode(order, old(r.Rest())[..2])) && r.Rest() == old(r.Rest())[2..]
    ensures |old(r.Rest())| < 2 ==> res == Err(UnexpectedEof) && r.Rest() == []
  {
    Pow256Values();
    var buf := r.Read(2);
    if |buf| == 2 {
      res := Ok(Decode(order, buf));
    } else {
      res := Err(UnexpectedEof);
    }
  }

  /** `read_u32`. */
  method ReadU32(r: Reader, order: ByteOrder) returns (res: Result<u32>)
    requires r.Valid()
    modifies r
    ensures r.Valid()
    ensures |old(r.Rest())| >= 4 ==>
      res == Ok(Decode(order, old(r.Rest())[..4])) && r.Rest() == old(r.Rest())[4..]
    ensures |old(r.Rest())| < 4 ==> res == Err(UnexpectedEof) && r.Rest() == []
  {
    Pow256Values();
    var buf := r.Read(4);
    if |buf| == 4 {
      res := Ok(Decode(order, buf));
    } else {
      res := Err(UnexpectedEof);
    }
  }

  /** `read_u64`. */
  method ReadU64(r: Reader, order: ByteOrder) returns (res: Result<u64>)
    requires r.Valid()
    modifies r
    ensures r.Valid()
    ensures |old(r.Rest())| >= 8 ==>
      res == Ok(Decode(order, old(r.Rest())[..8])) && r.Rest() == old(r.Rest())[8..]
    ensures |old(r.Rest())| < 8 ==> res == Err(UnexpectedEof) && r.Rest() == []
  {
    Pow256Values();
    var buf := r.Read(8);
    if |buf| == 8 {
      res := Ok(Decode(order, buf));
    } else {
      res := Err(UnexpectedEof);
    }
  }

  /** `read_u16_array`: `count` values in stream order, or the error of the first short read. */
  method ReadU16Array(r: Reader, order: ByteOrder, count: nat) returns (res: Result<seq<u16>>)
    requires r.Valid()
    modifies r
    ensures r.Valid()
    ensures |old(r.Rest())| >= 2 * count ==>
      res.Ok? && |res.value| == count && r.Rest() == old(r.Rest())[2 * count..] &&
      forall i | 0 <= i < count :: res.value[i] == U16At(order, old(r.Rest()), i)
    ensures |old(r.Rest())| < 2 * count ==> res == Err(UnexpectedEof) && r.Rest() == []
  {
    ghost var s := r.Rest();
    var result: seq<u16> := [];
    var i := 0;
    while i < count
      invariant 0 <= i <= count && r.Valid()
      invariant |s| >= 2 * i && r.Rest() == s[2 * i..]
      invariant |result| == i && forall j | 0 <= j < i :: result[j] == U16At(order, s, j)
    {
      var value := ReadU16(r, order);
      if value.Err? {
        return Err(value.kind);
      }
      assert s[2 * i..][..2] == s[2 * i..2 * i + 2];
      assert s[2 * i..][2..] == s[2 * (i + 1)..];
      result := result + [value.value];
      i := i + 1;
    }
    res := Ok(result);
  }

  /** `read_s15f16`. */
  method ReadS15F16(r: Reader, order: ByteOrder) returns (res: Result<real>)
    requires r.Valid()
    modifies r
    ensures r.Valid()
    ensures |old(r.Rest())| >= 4 ==>
      res == Ok(S15F16At(order, old(r.Rest()), 0)) && r.Rest() == old(r.Rest())[4..]
    ensures |old(r.Rest())| < 4 ==> res == Err(UnexpectedEof) && r.Rest() == []
  {
    Pow256Values();
    var buf := r.Read(4);
    if |buf| == 4 {
      res := Ok(S15F16ToF64(I32FromBits(Decode(order, buf))));
    } else {
      res := Err(UnexpectedEof);
    }
  }

  /** `read_xyz`: X, then Y, then Z; the first failure is the result. */
  method ReadXyz(r: Reader, order: ByteOrder) returns (res: Result<CieXyz>)
    requires r.Valid()
    modifies r
    ensures r.Valid()
    ensures |old(r.Rest())| >= 12 ==>
      res == Ok(XyzAt(order, old(r.Rest()))) && r.Rest() == old(r.Rest())[12..]
    ensures |old(r.Rest())| < 12 ==> res == Err(UnexpectedEof) && r.Rest() == []
  {
    ghost var s := r.Rest();
    var x := ReadS15F16(r, order);
    if x.Err? {
      return Err(x.kind);
    }
    var y := ReadS15F16(r, order);
    if y.Err? {
      return Err(y.kind);
    }
    var z := ReadS15F16(r, order);
    if z.Err? {
      return Err(z.kind);
    }
    assert s[4..][0..4] == s[4..8] && s[8..][0..4] == s[8..12];
    assert s[4..][4..][0..4] == s[8..12];
    res := Ok(CieXyz(x.value, y.value, z.value));
  }

  // ----- Writers -----

  /** `write_u8`. */
  method WriteU8(w: Writer, value: byte) returns (res: Result<()>)
    requires w.Valid()
    modifies w
    ensures w.Valid()
    ensures w.bytes == old(w.bytes) + Clip([value], old(w.Room()))
    ensures res == if old(w.Room()) >= 1 then Ok(()) else Err(UnexpectedEof)
  {
    var len := w.Write([value]);
    if len == 1 {
      res := Ok(());
    } else {
      res := Err(UnexpectedEof);
    }
  }

  /** `write_u16`. */
  method WriteU16(w: Writer, order: ByteOrder, value: u16) returns (res: Result<()>)
    requires w.Valid()
    modifies w
    ensures w.Valid()
    ensures w.bytes == old(w.bytes) + Clip(Encode(order, value, 2), old(w.Room()))
    ensures res == if old(w.Room()) >= 2 then Ok(()) else Err(UnexpectedEof)
  {
    var len := w.Write(Encode(order, value, 2));
    if len == 2 {
      res := Ok(());
    } else {
      res := Err(UnexpectedEof);
    }
  }

  /** `write_u32`. */
  method WriteU32(w: Writer, order: ByteOrder, value: u32) returns (res: Result<()>)
    requires w.Valid()
    modifies w
    ensures w.Valid()
    ensures w.bytes == old(w.bytes) + Clip(Encode(order, value, 4), old(w.Room()))
    ensures res == if old(w.Room()) >= 4 then Ok(()) else Err(UnexpectedEof)
  {
    var len := w.Write(Encode(order, value, 4));
    if len == 4 {
      res := Ok(());
    } else {
      res := Err(UnexpectedEof);
    }
  }

  /** `write_u64`. */
  method WriteU64(w: Writer, order: ByteOrder, value: u64) returns (res: Result<()>)
    requires w.Valid()
    modifies w
    ensures w.Valid()
    ensures w.bytes == old(w.bytes) + Clip(Encode(order, value, 8), old(w.Room()))
    ensures res == if old(w.Room()) >= 8 then Ok(()) else Err(UnexpectedEof)
  {
    var len := w.Write(Encode(order, value, 8));
    if len == 8 {
      res := Ok(());
    } else {
      res := Err(UnexpectedEof);
    }
  }

  /** `write_u16_array`: the elements in index order, stopping at the first short write. */
  method WriteU16Array(w: Writer, order: ByteOrder, values: seq<u16>) returns (res: Result<()>)
    requires w.Valid()
    modifies w
    ensures w.Valid()
    ensures w.bytes == old(w.bytes) + Clip(U16ArrayBytes(order, values), old(w.Room()))
    ensures res == if old(w.Room()) >= 2 * |values| then Ok(()) else Err(UnexpectedEof)
  {
    ghost var room := w.Room();
    ghost var start := w.bytes;
    var i := 0;
    while i < |values|
      invariant 0 <= i <= |values| && w.Valid()
      invariant room >= 2 * i && w.Room() == room - 2 * i
      invariant w.bytes == start + U16ArrayBytes(order, values[..i])
    {
      var step := WriteU16(w, order, values[i]);
      if step.Err? {
        U16ArrayShortWriteAfter(order, values, i, room, start, w.bytes);
        return Err(step.kind);
      }
      U16ArrayBytesStep(order, values, i);
      i := i + 1;
    }
    assert values[..i] == values;
    res := Ok(());
  }

  /** `write_s15f16`. */
  method WriteS15F16(w: Writer, order: ByteOrder, value: real) returns (res: Result<()>)
    requires w.Valid()
    modifies w
    ensures w.Valid()
    ensures w.bytes == old(w.bytes) + Clip(S15F16Bytes(order, value), old(w.Room()))
    ensures res == if old(w.Room()) >= 4 then Ok(()) else Err(UnexpectedEof)
  {
    var len := w.Write(Encode(order, I32ToBits(F64ToS15F16(value)), 4));
    if len == 4 {
      res := Ok(());
    } else {
      res := Err(UnexpectedEof);
    }
  }

  /** `write_xyz`: X, then Y, then Z, stopping at the first short write. */
  method WriteXyz(w: Writer, order: ByteOrder, value: CieXyz) returns (res: Result<()>)
    requires w.Valid()
    modifies w
    ensures w.Valid()
    ensures w.bytes == old(w.bytes) + Clip(XyzBytes(order, value), old(w.Room()))
    ensures res == if old(w.Room()) >= 12 then Ok(()) else Err(UnexpectedEof)
  {
    ghost var room := w.Room();
    ghost var ex, eyz := S15F16Bytes(order, value.x), S15F16Bytes(order, value.y) + S15F16Bytes(order, value.z);
    assert XyzBytes(order, value) == ex + eyz;
    ClipConcat(ex, eyz, room);
    var x := WriteS15F16(w, order, value.x);
    if x.Err? {
      return Err(x.kind);
    }
    res := WriteS15F16Pair(w, order, value.y, value.z);
  }

  /** The last two numbers of `write_xyz_number`. */
  method WriteS15F16Pair(w: Writer, order: ByteOrder, y: real, z: real) returns (res: Result<()>)
    requires w.Valid()
    modifies w
    ensures w.Valid()
    ensures w.bytes == old(w.bytes) + Clip(S15F16Bytes(order, y) + S15F16Bytes(order, z), old(w.Room()))
    ensures res == if old(w.Room()) >= 8 then Ok(()) else Err(UnexpectedEof)
  {
    ClipConcat(S15F16Bytes(order, y), S15F16Bytes(order, z), w.Room());
    var first := WriteS15F16(w, order, y);
    if first.Err? {
      return Err(first.kind);
    }
    res := WriteS15F16(w, order, z);
  }
}
