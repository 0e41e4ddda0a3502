/** The built-in tag-type handlers. Each handler reads one tag body from a stream into its decoded
    buffer (with the number of elements read) and writes a decoded buffer back as a tag body.
    XYZ and chromaticity buffers are typed records; the colorant-order, text, data and signature
    buffers are the bytes the source builds. */
module InternalTypes {
  import opened ByteCodec
  import opened Streams
  import opened Lcms
  import opened Signatures
  import opened Plugin
  import opened TagTypeSignatures
  import Options

  // ===== XYZ =====

  /** `xyz_read`: one XYZ triple. */
  method XyzRead(r: Reader, order: ByteOrder, onlyReadsOne: nat) returns (res: Result<(nat, CieXyz)>)
    requires r.Valid()
    modifies r
    ensures r.Valid()
    ensures |old(r.Rest())| >= 12 ==>
      res == Ok((1, XyzAt(order, old(r.Rest())))) && r.Rest() == old(r.Rest())[12..]
    ensures |old(r.Rest())| < 12 ==> res == Err(UnexpectedEof) && r.Rest() == []
  {
    var value := ReadXyz(r, order);
    if value.Err? {
      return Err(value.kind);
    }
    res := Ok((1, value.value));
  }

  /** `xyz_write`. */
  method XyzWrite(w: Writer, order: ByteOrder, items: CieXyz, onlyWritesOne: nat) returns (res: Result<()>)
    requires w.Valid()
    modifies w
    ensures w.Valid()
    ensures w.bytes == old(w.bytes) + Clip(XyzBytes(order, items), old(w.Room()))
    ensures res == if old(w.Room()) >= 12 then Ok(()) else Err(UnexpectedEof)
  {
    res := WriteXyz(w, order, items);
  }

  // ===== Chromaticity =====

  /** What `chromaticity_read` makes of the bytes `s`: a channel count that must be 3, a
      reserved u16, then x and y of red, green and blue; every luminance is set to 1. */
  function ChromaticityDecoded(order: ByteOrder, s: seq<byte>): (res: Result<(nat, CieXyYTriple)>)
    ensures res.Ok? <==> |s| >= 28 && Decode(order, s[..2]) == 3
    ensures res.Err? && |s| >= 2 && Decode(order, s[..2]) != 3 ==> res.kind == InvalidData
    ensures res.Ok? ==> res.value.0 == 1 && res.value.1.red.bigY == 1.0 &&
                        res.value.1.green.bigY == 1.0 && res.value.1.blue.bigY == 1.0
  {
    if |s| < 2 then Err(UnexpectedEof)
    else if Decode(order, s[..2]) != 3 then Err(InvalidData)
    else if |s| < 28 then Err(UnexpectedEof)
    else Ok((1, CieXyYTriple(
      CieXyY(S15F16At(order, s, 4), S15F16At(order, s, 8), 1.0),
      CieXyY(S15F16At(order, s, 12), S15F16At(order, s, 16), 1.0),
      CieXyY(S15F16At(order, s, 20), S15F16At(order, s, 24), 1.0))))
  }

  /** How many bytes `chromaticity_read` takes from `s`: the count alone when it is wrong, all
      28 when it succeeds, everything when the stream runs out. */
  function ChromaticityConsumed(order: ByteOrder, s: seq<byte>): (n: nat)
    ensures n <= |s|
  {
    if |s| >= 2 && Decode(order, s[..2]) != 3 then 2
    else if |s| >= 28 then 28
    else |s|
  }

  /** Reads the x and y of one primary. */
  method ReadOneChromaticity(r: Reader, order: ByteOrder) returns (res: Result<CieXyY>)
    requires r.Valid()
    modifies r
    ensures r.Valid()
    ensures |old(r.Rest())| >= 8 ==>
      res == Ok(CieXyY(S15F16At(order, old(r.Rest()), 0), S15F16At(order, old(r.Rest()), 4), 1.0)) &&
      r.Rest() == old(r.Rest())[8..]
    ensures |old(r.Rest())| < 8 ==> res == Err(UnexpectedEof) && r.Rest() == []
  {
    ghost var s := r.Rest();
    var x := ReadS15F16(r, order);
    if x.Err? {
      return Err(x.kind);
    }
    var y := ReadS15F16(r, order);
    if y.Err? {
      return Err(y.kind);
    }
    assert s[4..][0..4] == s[4..8];
    res := Ok(CieXyY(x.value, y.value, 1.0));
  }

  /** `chromaticity_read`. */
  method ChromaticityRead(r: Reader, order: ByteOrder, onlyReadsOne: nat) returns (res: Result<(nat, CieXyYTriple)>)
    requires r.Valid()
    modifies r
    ensures r.Valid()
    ensures res == ChromaticityDecoded(order, old(r.Rest()))
    ensures r.Rest() == old(r.Rest())[ChromaticityConsumed(order, old(r.Rest()))..]
  {
    ghost var s := r.Rest();
    var numChannels := ReadU16(r, order);
    if numChannels.Err? {
      return Err(numChannels.kind);
    }
    if numChannels.value != 3 {
      return Err(InvalidData);
    }
    assert Decode(order, s[..2]) == 3 && r.Rest() == s[2..];
    var reserved := ReadU16(r, order);
    if reserved.Err? {
      return Err(reserved.kind);
    }
    assert r.Rest() == s[4..];
    var primaries := ReadPrimaries(r, order);
    if primaries.Err? {
      return Err(primaries.kind);
    }
    assert s[4..][24..] == s[28..];
    ChromaticitySlices(order, s);
    res := Ok((1, primaries.value));
  }

  /** The red, green and blue primaries of `chromaticity_read`, eight bytes each. */
  method ReadPrimaries(r: Reader, order: ByteOrder) returns (res: Result<CieXyYTriple>)
    requires r.Valid()
    modifies r
    ensures r.Valid()
    ensures |old(r.Rest())| >= 24 ==> var p := old(r.Rest());
      res == Ok(CieXyYTriple(CieXyY(S15F16At(order, p, 0), S15F16At(order, p, 4), 1.0),
                             CieXyY(S15F16At(order, p[8..], 0), S15F16At(order, p[8..], 4), 1.0),
                             CieXyY(S15F16At(order, p[8..][8..], 0), S15F16At(order, p[8..][8..], 4), 1.0))) &&
      r.Rest() == p[24..]
    ensures |old(r.Rest())| < 24 ==> res == Err(UnexpectedEof) && r.Rest() == []
  {
    ghost var p := r.Rest();
    var red := ReadOneChromaticity(r, order);
    if red.Err? {
      return Err(red.kind);
    }
    var green := ReadOneChromaticity(r, order);
    if green.Err? {
      return Err(green.kind);
    }
    assert r.Rest() == p[8..][8..];
    var blue := ReadOneChromaticity(r, order);
    if blue.Err? {
      return Err(blue.kind);
    }
    assert p[8..][8..][8..] == p[24..];
    res := Ok(CieXyYTriple(red.value, green.value, blue.value));
  }

  /** The offsets the primaries are read at, as seen from the positions the reader has reached. */
  lemma ChromaticitySlices(order: ByteOrder, s: seq<byte>)
    requires |s| >= 28
    ensures S15F16At(order, s[4..], 0) == S15F16At(order, s, 4)
    ensures S15F16At(order, s[4..], 4) == S15F16At(order, s, 8)
    ensures S15F16At(order, s[4..][8..], 0) == S15F16At(order, s, 12)
    ensures S15F16At(order, s[4..][8..], 4) == S15F16At(order, s, 16)
    ensures S15F16At(order, s[4..][8..][8..], 0) == S15F16At(order, s, 20)
    ensures S15F16At(order, s[4..][8..][8..], 4) == S15F16At(order, s, 24)
  {
    assert s[4..][0..4] == s[4..8] && s[4..][4..8] == s[8..12];
    assert s[4..][8..][0..4] == s[12..16] && s[4..][8..][4..8] == s[16..20];
    assert s[4..][8..][8..][0..4] == s[20..24] && s[4..][8..][8..][4..8] == s[24..28];
  }

  /** The wire form of one primary: x then y. */
  function OneChromaticityBytes(order: ByteOrder, c: CieXyY): (b: seq<byte>)
    ensures |b| == 8
  {
    S15F16Bytes(order, c.x) + S15F16Bytes(order, c.y)
  }

  /** `save_one_chromaticity`. */
  method SaveOneChromaticity(item: CieXyY, w: Writer, order: ByteOrder) returns (res: Result<()>)
    requires w.Valid()
    modifies w
    ensures w.Valid()
    ensures w.bytes == old(w.bytes) + Clip(OneChromaticityBytes(order, item), old(w.Room()))
    ensures res == if old(w.Room()) >= 8 then Ok(()) else Err(UnexpectedEof)
  {
    ClipConcat(S15F16Bytes(order, item.x), S15F16Bytes(order, item.y), w.Room());
    var x := WriteS15F16(w, order, item.x);
    if x.Err? {
      return Err(x.kind);
    }
    var y := WriteS15F16(w, order, item.y);
    if y.Err? {
      return Err(y.kind);
    }
    res := Ok(());
  }

  /** The chromaticity header: channel count 3, reserved 0. */
  function ChromaticityHeader(order: ByteOrder): (b: seq<byte>)
    ensures |b| == 4
  {
    Encode(order, 3, 2) + Encode(order, 0, 2)
  }

  /** Three primaries, one after another. */
  function PrimariesBytes(order: ByteOrder, a: CieXyY, b: CieXyY, c: CieXyY): (r: seq<byte>)
    ensures |r| == 24
  {
    OneChromaticityBytes(order, a) + OneChromaticityBytes(order, b) + OneChromaticityBytes(order, c)
  }

  /** What `chromaticity_write` emits: the header, then the red primary in all three slots. */
  function ChromaticityBytesAsWritten(order: ByteOrder, items: CieXyYTriple): (b: seq<byte>)
    ensures |b| == 28
  {
    ChromaticityHeader(order) + PrimariesBytes(order, items.red, items.red, items.red)
  }

  /** The chromaticity body the format defines: the header, then red, green and blue. */
  function ChromaticityBytes(order: ByteOrder, items: CieXyYTriple): (b: seq<byte>)
    ensures |b| == 28
  {
    ChromaticityHeader(order) + PrimariesBytes(order, items.red, items.green, items.blue)
  }

  /** Emits the header, stopping at the first short write. */
  method WriteChromaticityHeader(w: Writer, order: ByteOrder) returns (res: Result<()>)
    requires w.Valid()
    modifies w
    ensures w.Valid()
    ensures w.bytes == old(w.bytes) + Clip(ChromaticityHeader(order), old(w.Room()))
    ensures res == if old(w.Room()) >= 4 then Ok(()) else Err(UnexpectedEof)
  {
    ClipConcat(Encode(order, 3, 2), Encode(order, 0, 2), w.Room());
    Pow256Values();
    var first := WriteU16(w, order, 3);
    if first.Err? {
      return Err(first.kind);
    }
    var second := WriteU16(w, order, 0);
    if second.Err? {
      return Err(second.kind);
    }
    res := Ok(());
  }

  /** Emits three primaries, stopping at the first short write. */
  method WritePrimaries(w: Writer, order: ByteOrder, a: CieXyY, b: CieXyY, c: CieXyY) returns (res: Result<()>)
    requires w.Valid()
    modifies w
    ensures w.Valid()
    ensures w.bytes == old(w.bytes) + Clip(PrimariesBytes(order, a, b, c), old(w.Room()))
    ensures res == if old(w.Room()) >= 24 then Ok(()) else Err(UnexpectedEof)
  {
    ghost var ea, ebc := OneChromaticityBytes(order, a), OneChromaticityBytes(order, b) + OneChromaticityBytes(order, c);
    assert PrimariesBytes(order, a, b, c) == ea + ebc;
    ClipConcat(ea, ebc, w.Room());
    var one := SaveOneChromaticity(a, w, order);
    if one.Err? {
      return Err(one.kind);
    }
    res := WriteTwoPrimaries(w, order, b, c);
  }

  /** The green and blue slots of `write_primaries`. */
  method WriteTwoPrimaries(w: Writer, order: ByteOrder, b: CieXyY, c: CieXyY) returns (res: Result<()>)
    requires w.Valid()
    modifies w
    ensures w.Valid()
    ensures w.bytes == old(w.bytes) + Clip(OneChromaticityBytes(order, b) + OneChromaticityBytes(order, c), old(w.Room()))
    ensures res == if old(w.Room()) >= 16 then Ok(()) else Err(UnexpectedEof)
  {
    ClipConcat(OneChromaticityBytes(order, b), OneChromaticityBytes(order, c), w.Room());
    var two := SaveOneChromaticity(b, w, order);
    if two.Err? {
      return Err(two.kind);
    }
    res := SaveOneChromaticity(c, w, order);
  }

  /** Emits the header and then the three primary slots given. */
  method WriteChromaticitySlots(w: Writer, order: ByteOrder, a: CieXyY, b: CieXyY, c: CieXyY)
    returns (res: Result<()>)
    requires w.Valid()
    modifies w
    ensures w.Valid()
    ensures w.bytes == old(w.bytes) + Clip(ChromaticityHeader(order) + PrimariesBytes(order, a, b, c), old(w.Room()))
    ensures res == if old(w.Room()) >= 28 then Ok(()) else Err(UnexpectedEof)
  {
    ghost var room, start := w.Room(), w.bytes;
    ClipConcat(ChromaticityHeader(order), PrimariesBytes(order, a, b, c), room);
    var header := WriteChromaticityHeader(w, order);
    if header.Err? {
      return Err(header.kind);
    }
    ghost var mid := w.bytes;
    assert w.Room() == room - 4;
    res := WritePrimaries(w, order, a, b, c);
    ClipThen(start, ChromaticityHeader(order), PrimariesBytes(order, a, b, c), room, mid, w.bytes);
  }

  /** `chromaticity_write` as the source has it: the red primary is saved three times. */
  method ChromaticityWrite(w: Writer, order: ByteOrder, items: CieXyYTriple, onlyWritesOne: nat)
    returns (res: Result<()>)
    requires w.Valid()
    modifies w
    ensures w.Valid()
    ensures w.bytes == old(w.bytes) + Clip(ChromaticityBytesAsWritten(order, items), old(w.Room()))
    ensures res == if old(w.Room()) >= 28 then Ok(()) else Err(UnexpectedEof)
  {
    res := WriteChromaticitySlots(w, order, items.red, items.red, items.red);
  }

  /** Corrected `chromaticity_write`: red, green, blue. */
  method ChromaticityWriteCorrected(w: Writer, order: ByteOrder, items: CieXyYTriple, onlyWritesOne: nat)
    returns (res: Result<()>)
    requires w.Valid()
    modifies w
    ensures w.Valid()
    ensures w.bytes == old(w.bytes) + Clip(ChromaticityBytes(order, items), old(w.Room()))
    ensures res == if old(w.Room()) >= 28 then Ok(()) else Err(UnexpectedEof)
  {
    res := WriteChromaticitySlots(w, order, items.red, items.green, items.blue);
  }

  /** A primary rounded to the fixed-point grid, with the luminance the reader sets. */
  function QuantizeXyY(c: CieXyY): CieXyY
  {
    CieXyY(Quantize(c.x), Quantize(c.y), 1.0)
  }

  lemma HeaderIsThree(order: ByteOrder, tail: seq<byte>)
    ensures Decode(order, (ChromaticityHeader(order) + tail)[..2]) == 3
  {
    assert (ChromaticityHeader(order) + tail)[..2] == Encode(order, 3, 2);
    Pow256Values();
    DecodeEncode(order, 3, 2);
  }

  /** A primary stored at offset `k` reads back rounded to the fixed-point grid. */
  lemma OneChromaticityAt(order: ByteOrder, s: seq<byte>, k: nat, c: CieXyY)
    requires k + 8 <= |s| && s[k..k + 8] == OneChromaticityBytes(order, c)
    ensures S15F16At(order, s, k) == Quantize(c.x) && S15F16At(order, s, k + 4) == Quantize(c.y)
  {
    assert s[k..k + 4] == S15F16Bytes(order, c.x) by {
      assert s[k..k + 4] == s[k..k + 8][0..4];
    }
    assert s[k + 4..k + 8] == S15F16Bytes(order, c.y) by {
      assert s[k + 4..k + 8] == s[k..k + 8][4..8];
    }
    S15F16BytesRoundTrip(order, c.x);
    S15F16BytesRoundTrip(order, c.y);
    assert S15F16Bytes(order, c.x)[0..4] == S15F16Bytes(order, c.x);
    assert S15F16Bytes(order, c.y)[0..4] == S15F16Bytes(order, c.y);
  }

  /** Where the three primaries sit in a body. */
  lemma PrimariesSlices(order: ByteOrder, a: CieXyY, b: CieXyY, c: CieXyY)
    ensures var s := ChromaticityHeader(order) + PrimariesBytes(order, a, b, c);
      s[4..12] == OneChromaticityBytes(order, a) && s[12..20] == OneChromaticityBytes(order, b) &&
      s[20..28] == OneChromaticityBytes(order, c)
  {
    var h, p := ChromaticityHeader(order), PrimariesBytes(order, a, b, c);
    var ea, eb, ec := OneChromaticityBytes(order, a), OneChromaticityBytes(order, b), OneChromaticityBytes(order, c);
    assert p == ea + eb + ec;
    ThreePartSlices(h, ea, eb, ec);
  }

  /** The three parts after a header `h`, sliced back out. */
  lemma ThreePartSlices(h: seq<byte>, x: seq<byte>, y: seq<byte>, z: seq<byte>)
    ensures var s, i, j := h + (x + y + z), |h| + |x|, |h| + |x| + |y|;
      s[|h|..i] == x && s[i..j] == y && s[j..j + |z|] == z
  {
    var t := x + y + z;
    SliceAfter(h, t, |h|, |h| + |x|);
    SliceBefore(x + y, z, 0, |x|);
    SliceBefore(x, y, 0, |x|);
    SliceAfter(h, t, |h| + |x|, |h| + |x| + |y|);
    SliceBefore(x + y, z, |x|, |x| + |y|);
    SliceAfter(x, y, |x|, |x| + |y|);
    SliceAfter(h, t, |h| + |x| + |y|, |h| + |x| + |y| + |z|);
    SliceAfter(x + y, z, |x| + |y|, |x| + |y| + |z|);
  }

  /** Reading back the three slots gives the three primaries that were put in them. */
  lemma {:induction false} ChromaticitySlotsRoundTrip(order: ByteOrder, a: CieXyY, b: CieXyY, c: CieXyY)
    ensures ChromaticityDecoded(order, ChromaticityHeader(order) + PrimariesBytes(order, a, b, c))
         == Ok((1, CieXyYTriple(QuantizeXyY(a), QuantizeXyY(b), QuantizeXyY(c))))
  {
    var s := ChromaticityHeader(order) + PrimariesBytes(order, a, b, c);
    HeaderIsThree(order, PrimariesBytes(order, a, b, c));
    PrimariesSlices(order, a, b, c);
    OneChromaticityAt(order, s, 4, a);
    OneChromaticityAt(order, s, 12, b);
    OneChromaticityAt(order, s, 20, c);
  }

  /** The corrected writer's body reads back as the primaries it was given. */
  lemma ChromaticityRoundTrip(order: ByteOrder, items: CieXyYTriple)
    ensures ChromaticityDecoded(order, ChromaticityBytes(order, items)) ==
      Ok((1, CieXyYTriple(QuantizeXyY(items.red), QuantizeXyY(items.green), QuantizeXyY(items.blue))))
  {
    ChromaticitySlotsRoundTrip(order, items.red, items.green, items.blue);
  }

  /** With the writer as the source has it, every primary reads back as the red one. */
  lemma ChromaticityAsWrittenLosesPrimaries(order: ByteOrder, items: CieXyYTriple)
    ensures ChromaticityDecoded(order, ChromaticityBytesAsWritten(order, items)) ==
      Ok((1, CieXyYTriple(QuantizeXyY(items.red), QuantizeXyY(items.red), QuantizeXyY(items.red))))
  {
    ChromaticitySlotsRoundTrip(order, items.red, items.red, items.red);
  }

  /** A concrete case: red (0.5, 0.25) and green (0.25, 0.5) are on the grid, yet green comes back as red. */
  lemma ChromaticityAsWrittenCounterexample(order: ByteOrder)
    ensures var items := CieXyYTriple(CieXyY(0.5, 0.25, 1.0), CieXyY(0.25, 0.5, 1.0), CieXyY(0.125, 0.0625, 1.0));
      var asWritten := ChromaticityDecoded(order, ChromaticityBytesAsWritten(order, items));
      var corrected := ChromaticityDecoded(order, ChromaticityBytes(order, items));
      asWritten.Ok? && asWritten.value.1.green.x == 0.5 && corrected.Ok? && corrected.value.1.green.x == 0.25
  {
    var items := CieXyYTriple(CieXyY(0.5, 0.25, 1.0), CieXyY(0.25, 0.5, 1.0), CieXyY(0.125, 0.0625, 1.0));
    ChromaticityAsWrittenLosesPrimaries(order, items);
    ChromaticityRoundTrip(order, items);
    assert (0.5 * 65536.0 + 0.5).Floor == 32768;
    assert (0.25 * 65536.0 + 0.5).Floor == 16384;
  }

  // ===== Colorant order =====

  /** The length of the run of bytes before the first 0xFF. */
  function LeadingCount(items: seq<byte>): (n: nat)
    ensures n <= |items|
    ensures forall i | 0 <= i < n :: items[i] != 0xFF
    ensures n < |items| ==> items[n] == 0xFF
  {
    if items == [] || items[0] == 0xFF then 0 else 1 + LeadingCount(items[1..])
  }

  /** The counting loop of `colorant_order_write`. */
  method CountLeading(items: seq<byte>) returns (count: nat)
    ensures count == LeadingCount(items)
  {
    count := 0;
    var i := 0;
    while i < |items|
      invariant 0 <= i <= |items| && count == i
      invariant forall j | 0 <= j < i :: items[j] != 0xFF
    {
      if items[i] != 0xFF {
        count := count + 1;
      } else {
        break;
      }
      i := i + 1;
    }
    LeadingCountUnique(items, count);
  }

  /** The ensures of `LeadingCount` determine it. */
  lemma LeadingCountUnique(items: seq<byte>, n: nat)
    requires n <= |items| && (forall i | 0 <= i < n :: items[i] != 0xFF) && (n < |items| ==> items[n] == 0xFF)
    ensures n == LeadingCount(items)
  {
  }

  /** What `colorant_order_read` makes of `s`: a u32 count of at most 16, then that many bytes. */
  function ColorantOrderDecoded(order: ByteOrder, s: seq<byte>): (res: Result<(nat, seq<byte>)>)
    ensures res.Ok? <==> |s| >= 4 && Decode(order, s[..4]) <= MAX_CHANNELS && |s| >= 4 + Decode(order, s[..4])
    ensures res.Err? && |s| >= 4 && Decode(order, s[..4]) > MAX_CHANNELS ==> res.kind == InvalidData
    ensures res.Ok? ==> res.value.0 == 1 && |res.value.1| == Decode(order, s[..4])
  {
    if |s| < 4 then Err(UnexpectedEof)
    else
      var count := Decode(order, s[..4]);
      if count > MAX_CHANNELS then Err(InvalidData)
      else if |s| < 4 + count then Err(UnexpectedEof)
      else Ok((1, s[4..4 + count]))
  }

  /** How many bytes `colorant_order_read` takes from `s`. */
  function ColorantOrderConsumed(order: ByteOrder, s: seq<byte>): (n: nat)
    ensures n <= |s|
  {
    if |s| < 4 then |s|
    else
      var count := Decode(order, s[..4]);
      if count > MAX_CHANNELS then 4
      else if |s| < 4 + count then |s|
      else 4 + count
  }

  /** `colorant_order_read`. */
  method ColorantOrderRead(r: Reader, order: ByteOrder, onlyReadsOne: nat) returns (res: Result<(nat, seq<byte>)>)
    requires r.Valid()
    modifies r
    ensures r.Valid()
    ensures res == ColorantOrderDecoded(order, old(r.Rest()))
    ensures r.Rest() == old(r.Rest())[ColorantOrderConsumed(order, old(r.Rest()))..]
  {
    ghost var s := r.Rest();
    var count := ReadU32(r, order);
    if count.Err? {
      return Err(count.kind);
    }
    if count.value > MAX_CHANNELS {
      return Err(InvalidData);
    }
    var result := r.Read(count.value);
    if |result| == count.value {
      assert s[4..][..count.value] == s[4..4 + count.value];
      res := Ok((1, result));
    } else {
      res := Err(UnexpectedEof);
    }
  }

  /** The number of entries `colorant_order_write` emits: the leading run, at most 16. */
  function ColorantCount(items: seq<byte>): (n: nat)
    ensures n <= MAX_CHANNELS && n <= |items|
    ensures forall i | 0 <= i < n :: items[i] != 0xFF
  {
    Min(LeadingCount(items), MAX_CHANNELS)
  }

  /** What `colorant_order_write` emits: the count, then that many entries. */
  function ColorantOrderBytes(order: ByteOrder, items: seq<byte>): (b: seq<byte>)
    ensures |b| == 4 + ColorantCount(items)
  {
    Encode(order, ColorantCount(items), 4) + items[..ColorantCount(items)]
  }

  /** `colorant_order_write`. */
  method ColorantOrderWrite(w: Writer, order: ByteOrder, items: seq<byte>, onlyWritesOne: nat) returns (res: Result<()>)
    requires w.Valid()
    modifies w
    ensures w.Valid()
    ensures w.bytes == old(w.bytes) + Clip(ColorantOrderBytes(order, items), old(w.Room()))
    ensures res == if old(w.Room()) >= 4 + ColorantCount(items) then Ok(()) else Err(UnexpectedEof)
  {
    var count := CountLeading(items);
    if count > MAX_CHANNELS {
      count := MAX_CHANNELS;
    }
    assert count == ColorantCount(items);
    res := WriteCountedEntries(w, order, items[..count]);
  }

  /** The two writes of `colorant_order_write`: the entry count as a u32, then the entries. */
  method WriteCountedEntries(w: Writer, order: ByteOrder, entries: seq<byte>) returns (res: Result<()>)
    requires w.Valid() && |entries| <= MAX_CHANNELS
    modifies w
    ensures w.Valid()
    ensures w.bytes == old(w.bytes) + Clip(Encode(order, |entries|, 4) + entries, old(w.Room()))
    ensures res == if old(w.Room()) >= 4 + |entries| then Ok(()) else Err(UnexpectedEof)
  {
    ClipConcat(Encode(order, |entries|, 4), entries, w.Room());
    var header := WriteU32(w, order, |entries|);
    if header.Err? {
      return Err(header.kind);
    }
    var len := w.Write(entries);
    if len == |entries| {
      res := Ok(());
    } else {
      res := Err(UnexpectedEof);
    }
  }

  /** Up to 16 entries without the 0xFF end mark come back from a write and a read unchanged. */
  lemma {:induction false} ColorantOrderRoundTrip(order: ByteOrder, items: seq<byte>)
    requires |items| <= MAX_CHANNELS && forall i | 0 <= i < |items| :: items[i] != 0xFF
    ensures ColorantOrderDecoded(order, ColorantOrderBytes(order, items)) == Ok((1, items))
  {
    LeadingCountUnique(items, |items|);
    assert ColorantCount(items) == |items| && items[..|items|] == items;
    var b := ColorantOrderBytes(order, items);
    assert b[..4] == Encode(order, |items|, 4);
    Pow256Values();
    DecodeEncode(order, |items|, 4);
    assert b[4..4 + |items|] == items;
  }

  /** The list [2, 0, 1] of the colorant-order example, in either byte order. */
  lemma ColorantOrderExample(order: ByteOrder)
    ensures ColorantOrderDecoded(order, ColorantOrderBytes(order, [2, 0, 1])) == Ok((1, [2, 0, 1]))
  {
    ColorantOrderRoundTrip(order, [2, 0, 1]);
  }

  /** A list longer than 16 without an end mark is cut to its first 16 entries, not refused. */
  lemma ColorantOrderCapped(order: ByteOrder, items: seq<byte>)
    requires |items| > MAX_CHANNELS && forall i | 0 <= i < |items| :: items[i] != 0xFF
    ensures ColorantOrderDecoded(order, ColorantOrderBytes(order, items)) == Ok((1, items[..MAX_CHANNELS]))
  {
    LeadingCountUnique(items, |items|);
    var first := items[..MAX_CHANNELS];
    assert ColorantOrderBytes(order, items) == ColorantOrderBytes(order, first) by {
      LeadingCountUnique(first, MAX_CHANNELS);
      assert first[..MAX_CHANNELS] == first;
    }
    ColorantOrderRoundTrip(order, first);
  }

  // ===== Signature =====

  /** What `signature_read` makes of `s`: the u32 read in the codec's byte order, stored back as
      host-order bytes. */
  function SignatureDecoded(order: ByteOrder, native: ByteOrder, s: seq<byte>): (res: Result<(nat, seq<byte>)>)
    ensures res.Ok? <==> |s| >= 4
    ensures res.Ok? ==> res.value.0 == 1 && |res.value.1| == 4 &&
                        Decode(native, res.value.1) == Decode(order, s[..4])
    ensures res.Ok? && order == native ==> res.value.1 == s[..4]
  {
    if |s| < 4 then Err(UnexpectedEof)
    else
      EncodeDecode(order, s[..4]);
      Pow256Values();
      DecodeEncode(native, Decode(order, s[..4]), 4);
      Ok((1, Encode(native, Decode(order, s[..4]), 4)))
  }

  /** `signature_read`. */
  method SignatureRead(r: Reader, order: ByteOrder, native: ByteOrder, onlyReadsOne: nat)
    returns (res: Result<(nat, seq<byte>)>)
    requires r.Valid()
    modifies r
    ensures r.Valid()
    ensures res == SignatureDecoded(order, native, old(r.Rest()))
    ensures r.Rest() == old(r.Rest())[Min(4, |old(r.Rest())|)..]
  {
    var result := ReadU32(r, order);
    if result.Err? {
      return Err(result.kind);
    }
    res := Ok((1, Encode(native, result.value, 4)));
  }

  /** What `signature_write` emits for a buffer of at least four bytes: its first four bytes as a
      host-order u32, written in the codec's byte order. */
  function SignatureBytes(order: ByteOrder, native: ByteOrder, items: seq<byte>): (b: seq<byte>)
    requires |items| >= 4
    ensures |b| == 4 && Decode(order, b) == Decode(native, items[..4])
  {
    Pow256Values();
    DecodeEncode(order, Decode(native, items[..4]), 4);
    Encode(order, Decode(native, items[..4]), 4)
  }

  /** `signature_write`; the source slices the first four bytes, so a shorter buffer panics. */
  method SignatureWrite(w: Writer, order: ByteOrder, native: ByteOrder, items: seq<byte>, onlyWritesOne: nat)
    returns (res: Result<()>)
    requires |items| >= 4
    requires w.Valid()
    modifies w
    ensures w.Valid()
    ensures w.bytes == old(w.bytes) + Clip(SignatureBytes(order, native, items), old(w.Room()))
    ensures res == if old(w.Room()) >= 4 then Ok(()) else Err(UnexpectedEof)
  {
    Pow256Values();
    res := WriteU32(w, order, Decode(native, items[..4]));
  }

  /** A signature buffer written and read back is its first four bytes, in every byte-order setting. */
  lemma SignatureRoundTrip(order: ByteOrder, native: ByteOrder, items: seq<byte>, tail: seq<byte>)
    requires |items| >= 4
    ensures SignatureDecoded(order, native, SignatureBytes(order, native, items) + tail) == Ok((1, items[..4]))
  {
    var b := SignatureBytes(order, native, items) + tail;
    assert b[..4] == SignatureBytes(order, native, items);
    EncodeDecode(native, items[..4]);
  }

  // ===== Text =====

  function Zeros(n: nat): (z: seq<byte>)
    ensures |z| == n && forall i | 0 <= i < n :: z[i] == 0
  {
    seq(n, i => 0)
  }

  /** The ASCII check loop of `text_read` and `text_write`. */
  method AllAscii(s: seq<byte>) returns (ok: bool)
    ensures ok == IsAscii(s)
  {
    var i := 0;
    while i < |s|
      invariant 0 <= i <= |s|
      invariant IsAscii(s[..i])
    {
      if s[i] > 127 {
        assert !IsAscii(s);
        return false;
      }
      assert s[..i + 1][i] == s[i];
      i := i + 1;
    }
    assert s[..i] == s;
    ok := true;
  }

  /** The buffer `text_read` fills: what the stream delivers of the `tagSize` bytes asked for,
      zero-filled to `tagSize`, plus a terminating zero. */
  function TextBuffer(s: seq<byte>, tagSize: nat): (b: seq<byte>)
    ensures |b| == tagSize + 1 && b[tagSize] == 0
    ensures forall i | 0 <= i < Min(tagSize, |s|) :: b[i] == s[i]
    ensures forall i | Min(tagSize, |s|) <= i <= tagSize :: b[i] == 0
  {
    var chunk := s[..Min(tagSize, |s|)];
    chunk + Zeros(tagSize - |chunk|) + [0]
  }

  /** What `text_read` makes of `s`: the buffer, unless a byte above 127 is among the first `tagSize`. */
  function TextDecoded(s: seq<byte>, tagSize: nat): (res: Result<(nat, seq<byte>)>)
    ensures res.Ok? <==> IsAscii(s[..Min(tagSize, |s|)])
    ensures res.Err? ==> res.kind == InvalidData
    ensures res.Ok? ==> res.value == (1, TextBuffer(s, tagSize))
  {
    var buf := TextBuffer(s, tagSize);
    assert IsAscii(buf[..tagSize]) <==> IsAscii(s[..Min(tagSize, |s|)]) by {
      if IsAscii(s[..Min(tagSize, |s|)]) {
        assert forall i | 0 <= i < tagSize :: buf[..tagSize][i] <= 0x7F by {
          forall i | 0 <= i < tagSize ensures buf[..tagSize][i] <= 0x7F {
            if i < Min(tagSize, |s|) {
              assert buf[i] == s[..Min(tagSize, |s|)][i];
            }
          }
        }
      }
      if IsAscii(buf[..tagSize]) {
        forall i | 0 <= i < Min(tagSize, |s|) ensures s[..Min(tagSize, |s|)][i] <= 0x7F {
          assert buf[..tagSize][i] == s[i];
        }
      }
    }
    if IsAscii(buf[..tagSize]) then Ok((1, buf)) else Err(InvalidData)
  }

  /** `text_read`: the number of bytes the stream delivered is not looked at. */
  method TextRead(r: Reader, tagSize: nat) returns (res: Result<(nat, seq<byte>)>)
    requires r.Valid()
    modifies r
    ensures r.Valid()
    ensures res == TextDecoded(old(r.Rest()), tagSize)
    ensures r.Rest() == old(r.Rest())[Min(tagSize, |old(r.Rest())|)..]
  {
    ghost var s := r.Rest();
    var chunk := r.Read(tagSize);
    var result := chunk + Zeros(tagSize - |chunk|) + [0];
    assert result == TextBuffer(s, tagSize);
    var ascii := AllAscii(result[..tagSize]);
    if !ascii {
      return Err(InvalidData);
    }
    res := Ok((1, result));
  }

  /** What `text_write` emits for an ASCII buffer: the buffer, then a zero unless it ends in one. */
  function TextBytes(items: seq<byte>): (b: seq<byte>)
    requires |items| > 0
    ensures |b| == if items[|items| - 1] == 0 then |items| else |items| + 1
    ensures b[..|items|] == items && b[|b| - 1] == 0
  {
    if items[|items| - 1] != 0 then items + [0] else items
  }

  /** `text_write`; the source indexes the last byte, so an empty buffer panics. Short writes
      are not looked at. */
  method TextWrite(w: Writer, items: seq<byte>, onlyWritesOne: nat) returns (res: Result<()>)
    requires |items| > 0
    requires w.Valid()
    modifies w
    ensures w.Valid()
    ensures IsAscii(items) ==> res == Ok(()) && w.bytes == old(w.bytes) + Clip(TextBytes(items), old(w.Room()))
    ensures !IsAscii(items) ==> res == Err(InvalidData) && w.bytes == old(w.bytes)
  {
    var ascii := AllAscii(items);
    if !ascii {
      return Err(InvalidData);
    }
    ClipConcat(items, [0], w.Room());
    var written := w.Write(items);
    if items[|items| - 1] != 0 {
      written := w.Write([0]);
    }
    res := Ok(());
  }

  /** A zero-terminated ASCII text written whole is read back as itself plus the extra terminator
      `text_read` adds, when the tag size is its length. */
  lemma TextRoundTrip(items: seq<byte>, tail: seq<byte>)
    requires |items| > 0 && IsAscii(items)
    ensures TextDecoded(TextBytes(items) + tail, |TextBytes(items)|) == Ok((1, TextBytes(items) + [0]))
  {
    var b := TextBytes(items);
    var s := b + tail;
    assert s[..Min(|b|, |s|)] == b;
    assert IsAscii(b) by {
      forall i | 0 <= i < |b| ensures b[i] <= 0x7F {
        if i < |items| {
          assert b[..|items|][i] == items[i];
        }
      }
    }
    assert TextBuffer(s, |b|) == b + [0];
  }

  // ===== Data =====

  /** The decoded data buffer: the payload length and the flag as host-order u32 values, then the
      payload. The length is `len_of_data as u32` (`Encode` keeps the low four bytes), which is what
      `len_of_data.to_ne_bytes()` gives on a host whose `usize` is four bytes wide. */
  function DataBuffer(native: ByteOrder, flag: u32, payload: seq<byte>): (b: seq<byte>)
    ensures |b| == 8 + |payload| && b[8..] == payload
  {
    Encode(native, |payload|, 4) + Encode(native, flag, 4) + payload
  }

  /** What `data_read` makes of `s`: a size below 4 is refused; otherwise a flag and the
      `tagSize - 4` bytes of payload, all of which must be there. */
  function DataDecoded(order: ByteOrder, native: ByteOrder, s: seq<byte>, tagSize: nat): (res: Result<(nat, seq<byte>)>)
    ensures res.Ok? <==> tagSize >= 4 && |s| >= tagSize
    ensures tagSize < 4 ==> res == Err(InvalidData)
    ensures res.Ok? ==> res.value.0 == 1 && |res.value.1| == tagSize + 4 && res.value.1[8..] == s[4..tagSize]
  {
    if tagSize < 4 then Err(InvalidData)
    else if |s| < 4 then Err(UnexpectedEof)
    else if |s| < tagSize then Err(UnexpectedEof)
    else
      Pow256Values();
      Ok((1, DataBuffer(native, Decode(order, s[..4]), s[4..tagSize])))
  }

  /** How many bytes `data_read` takes from `s`. */
  function DataConsumed(s: seq<byte>, tagSize: nat): (n: nat)
    ensures n <= |s|
  {
    if tagSize < 4 then 0 else Min(tagSize, |s|)
  }

  /** `data_read`. */
  method DataRead(r: Reader, order: ByteOrder, native: ByteOrder, tagSize: nat) returns (res: Result<(nat, seq<byte>)>)
    requires r.Valid()
    modifies r
    ensures r.Valid()
    ensures res == DataDecoded(order, native, old(r.Rest()), tagSize)
    ensures r.Rest() == old(r.Rest())[DataConsumed(old(r.Rest()), tagSize)..]
  {
    ghost var s := r.Rest();
    if tagSize < 4 {
      return Err(InvalidData);
    }
    var lenOfData := tagSize - 4;
    var flag := ReadU32(r, order);
    if flag.Err? {
      return Err(flag.kind);
    }
    assert r.Rest() == s[4..] && flag.value == Decode(order, s[..4]);
    var payload := r.Read(lenOfData);
    if |payload| == lenOfData {
      assert payload == s[4..tagSize] && r.Rest() == s[tagSize..];
      res := Ok((1, DataBuffer(native, flag.value, payload)));
    } else {
      res := Err(UnexpectedEof);
    }
  }

  /** Whether the payload of a data buffer has the length its header states. */
  predicate DataLengthMatches(native: ByteOrder, items: seq<byte>)
    requires |items| >= 8
  {
    |items| - 8 == Decode(native, items[..4])
  }

  /** What `data_write` emits: the flag, then the payload when its length matches the header. */
  function DataBytes(order: ByteOrder, native: ByteOrder, items: seq<byte>): (b: seq<byte>)
    requires |items| >= 8
    ensures |b| >= 4 && b[..4] == Encode(order, Decode(native, items[4..8]), 4)
    ensures b[4..] == if DataLengthMatches(native, items) then items[8..] else []
  {
    Encode(order, Decode(native, items[4..8]), 4) + if DataLengthMatches(native, items) then items[8..] else []
  }

  /** `data_write`; the source slices the two header fields, so a buffer under eight bytes panics.
      The flag is written before the length is checked, and a short payload write is not looked at. */
  method DataWrite(w: Writer, order: ByteOrder, native: ByteOrder, items: seq<byte>, onlyWritesOne: nat)
    returns (res: Result<()>)
    requires |items| >= 8
    requires w.Valid()
    modifies w
    ensures w.Valid()
    ensures w.bytes == old(w.bytes) + Clip(DataBytes(order, native, items), old(w.Room()))
    ensures res == if old(w.Room()) < 4 then Err(UnexpectedEof)
                   else if !DataLengthMatches(native, items) then Err(InvalidData)
                   else Ok(())
  {
    var len := Decode(native, items[..4]);
    DecodeU32(native, items[4..8]);
    var flag := Decode(native, items[4..8]);
    ghost var room, start := w.Room(), w.bytes;
    DataBytesClip(order, native, items, room);
    var written := WriteU32(w, order, flag);
    if written.Err? {
      return Err(written.kind);
    }
    ghost var mid := w.bytes;
    assert w.Room() == room - 4;
    res := DataWritePayload(w, items[8..], |items| - 8 == len);
    ClipThen(start, Encode(order, flag, 4), if DataLengthMatches(native, items) then items[8..] else [], room, mid, w.bytes);
  }

  /** What a sink with `room` bytes keeps of `DataBytes`: the flag, then the payload if it fitted. */
  lemma DataBytesClip(order: ByteOrder, native: ByteOrder, items: seq<byte>, room: nat)
    requires |items| >= 8
    ensures Clip(DataBytes(order, native, items), room)
         == Clip(Encode(order, Decode(native, items[4..8]), 4), room) +
            if room >= 4 then Clip(if DataLengthMatches(native, items) then items[8..] else [], room - 4) else []
  {
    ClipConcat(Encode(order, Decode(native, items[4..8]), 4),
               if DataLengthMatches(native, items) then items[8..] else [], room);
  }

  /** The tail of `data_write`: the payload when the header's length matched, else InvalidData. */
  method DataWritePayload(w: Writer, payload: seq<byte>, matches: bool) returns (res: Result<()>)
    requires w.Valid()
    modifies w
    ensures w.Valid()
    ensures w.bytes == old(w.bytes) + Clip(if matches then payload else [], old(w.Room()))
    ensures res == if matches then Ok(()) else Err(InvalidData)
  {
    if !matches {
      return Err(InvalidData);
    }
    var n := w.Write(payload);
    res := Ok(());
  }

  /** A data buffer whose header states its payload's length is written and then read back, with
      the tag size the payload implies, as itself. */
  lemma {:induction false} DataRoundTrip(order: ByteOrder, native: ByteOrder, flag: u32, payload: seq<byte>, tail: seq<byte>)
    requires |payload| < 0x1_0000_0000
    ensures DataLengthMatches(native, DataBuffer(native, flag, payload))
    ensures DataDecoded(order, native, DataBytes(order, native, DataBuffer(native, flag, payload)) + tail, 4 + |payload|)
         == Ok((1, DataBuffer(native, flag, payload)))
  {
    Pow256Values();
    var items := DataBuffer(native, flag, payload);
    assert items[..4] == Encode(native, |payload|, 4);
    assert items[4..8] == Encode(native, flag, 4);
    DecodeEncode(native, |payload|, 4);
    DecodeEncode(native, flag, 4);
    DecodeEncode(order, flag, 4);
    var b := DataBytes(order, native, items);
    assert b == Encode(order, flag, 4) + payload;
    var s := b + tail;
    assert s[..4] == Encode(order, flag, 4);
    assert s[4..4 + |payload|] == payload;
  }

  /** `data_read` on a host whose `usize` is `usizeBytes` bytes wide. The buffer's length slot is
      four bytes, and `copy_from_slice` panics unless `len_of_data.to_ne_bytes()` has that length
      too; `None` stands for that panic, which comes before anything is read. */
  function DataDecodedOnHost(order: ByteOrder, native: ByteOrder, usizeBytes: nat, s: seq<byte>, tagSize: nat)
    : (res: Options.Option<Result<(nat, seq<byte>)>>)
    ensures res.None? <==> tagSize >= 4 && usizeBytes != 4
    ensures res.Some? ==> res.value == DataDecoded(order, native, s, tagSize)
  {
    if tagSize < 4 then Options.Some(Err(InvalidData))
    else if usizeBytes != 4 then Options.None
    else Options.Some(DataDecoded(order, native, s, tagSize))
  }

  /** As written, the data round trip holds on a 32-bit host and panics on a 64-bit one, where
      `to_ne_bytes` of the `usize` length gives eight bytes for a four-byte slot. */
  lemma DataRoundTripOnHosts(order: ByteOrder, native: ByteOrder, flag: u32, payload: seq<byte>, tail: seq<byte>)
    requires |payload| < 0x1_0000_0000
    ensures var items := DataBuffer(native, flag, payload);
      var s := DataBytes(order, native, items) + tail;
      DataDecodedOnHost(order, native, 4, s, 4 + |payload|) == Options.Some(Ok((1, items))) &&
      DataDecodedOnHost(order, native, 8, s, 4 + |payload|) == Options.None
  {
    DataRoundTrip(order, native, flag, payload, tail);
  }

  // ===== Text description =====

  /** How many bytes the optional part of `text_description_read` takes from `t`, given the tag
      size left once the ASCII count is taken off: two u32 values (the Unicode language code and
      count), then what `UnicodeConsumed` says. */
  function TrailerConsumed(order: ByteOrder, t: seq<byte>, size: nat): (n: nat)
    ensures n <= |t|
    ensures size < 8 ==> n == 0
  {
    if size < 8 then 0
    else if |t| < 8 then |t|
    else 8 + UnicodeConsumed(t[8..], 2 * Decode(order, t[4..8]), size - 8)
  }

  /** How many bytes follow the two u32 values: the Unicode text when it fits in the tag size
      left, and the 70-byte ScriptCode block when it fits too; each is cut short by the end of
      the input. */
  function UnicodeConsumed(u: seq<byte>, unicodeBytes: nat, size: nat): (n: nat)
    ensures n <= |u|
    ensures size < unicodeBytes ==> n == 0
  {
    if size < unicodeBytes then 0
    else
      var k := Min(unicodeBytes, |u|);
      if size - unicodeBytes >= 70 then k + Min(70, |u| - k) else k
  }

  /** Skims the ScriptCode block: a u16 code, a u8 count and 67 bytes of text. */
  method SkipScriptCode(r: Reader, order: ByteOrder)
    requires r.Valid()
    modifies r
    ensures r.Valid()
    ensures r.Rest() == old(r.Rest())[Min(70, |old(r.Rest())|)..]
  {
    var scriptCode := ReadU16(r, order);
    if scriptCode.Err? {
      return;
    }
    var scriptCount := ReadU8(r);
    if scriptCount.Err? {
      return;
    }
    var script := r.Read(67);
  }

  /** Skims the Unicode text and the ScriptCode block, `size` being the tag size still left. */
  method SkipUnicodeAndScript(r: Reader, order: ByteOrder, unicodeBytes: nat, size: nat)
    requires r.Valid()
    modifies r
    ensures r.Valid()
    ensures r.Rest() == old(r.Rest())[UnicodeConsumed(old(r.Rest()), unicodeBytes, size)..]
  {
    ghost var u := r.Rest();
    var tagSize := size;
    if tagSize < unicodeBytes {
      return;
    }
    var dummy := r.Read(unicodeBytes);
    ghost var k := Min(unicodeBytes, |u|);
    assert r.Rest() == u[k..];
    tagSize := tagSize - unicodeBytes;
    if tagSize >= 2 + 1 + 67 {
      SkipScriptCode(r, order);
      assert u[k..][Min(70, |u| - k)..] == u[k + Min(70, |u| - k)..];
    }
  }

  /** Skims the optional part of the description; its outcome never reaches the caller. */
  method SkipTextDescriptionTrailer(r: Reader, order: ByteOrder, size: nat)
    requires r.Valid()
    modifies r
    ensures r.Valid()
    ensures r.Rest() == old(r.Rest())[TrailerConsumed(order, old(r.Rest()), size)..]
  {
    ghost var t := r.Rest();
    var tagSize := size;
    if tagSize < 8 {
      return;
    }
    var unicodeCode := ReadU32(r, order);
    if unicodeCode.Err? {
      assert |t| < 4 && r.Rest() == t[|t|..];
      return;
    }
    assert r.Rest() == t[4..];
    var unicodeCount := ReadU32(r, order);
    if unicodeCount.Err? {
      assert |t| < 8 && r.Rest() == t[|t|..];
      return;
    }
    assert t[4..][..4] == t[4..8] && t[4..][4..] == t[8..];
    assert unicodeCount.value == Decode(order, t[4..8]) && r.Rest() == t[8..];
    tagSize := tagSize - 8;
    SkipUnicodeAndScript(r, order, unicodeCount.value * 2, tagSize);
    ghost var n := UnicodeConsumed(t[8..], unicodeCount.value * 2, tagSize);
    assert TrailerConsumed(order, t, size) == 8 + n;
    assert t[8..][n..] == t[8 + n..];
  }

  /** What `text_description_read` makes of the bytes `t` after the ASCII count, as the source
      has it: it demands `tagSize + 1` bytes, where the ASCII text is only `count` bytes long. */
  function AsciiSectionDecoded(t: seq<byte>, count: nat, tagSize: nat): (res: Result<(nat, seq<byte>)>)
    requires count <= tagSize
    ensures res.Ok? <==> |t| >= tagSize + 1
    ensures res.Err? ==> res.kind == UnexpectedEof
    ensures res.Ok? ==> res.value.0 == 1 && |res.value.1| == tagSize + 1 && res.value.1[count] == 0
    ensures res.Ok? ==> res.value.1[..count] == t[..count] && res.value.1[count + 1..] == t[count + 1..tagSize + 1]
  {
    if |t| < tagSize + 1 then Err(UnexpectedEof) else Ok((1, t[..tagSize + 1][count := 0]))
  }

  /** How many bytes of `t` the source's reader takes after the ASCII count. */
  function AsciiSectionConsumed(order: ByteOrder, t: seq<byte>, count: nat, tagSize: nat): (n: nat)
    requires count <= tagSize
    ensures n <= |t|
  {
    if |t| < tagSize + 1 then |t|
    else tagSize + 1 + TrailerConsumed(order, t[tagSize + 1..], tagSize - count)
  }

  /** What `text_description_read` makes of `s`, as the source has it. */
  function TextDescriptionDecoded(order: ByteOrder, s: seq<byte>, tagSize: nat): (res: Result<(nat, seq<byte>)>)
    ensures tagSize < 4 ==> res == Err(InvalidData)
    ensures tagSize >= 4 && |s| >= 4 && Decode(order, s[..4]) > tagSize ==> res == Err(InvalidData)
    ensures res.Ok? <==> tagSize >= 4 && |s| >= 5 + tagSize && Decode(order, s[..4]) <= tagSize
    ensures res.Ok? ==> res.value.0 == 1 && |res.value.1| == tagSize + 1 &&
                        res.value.1[Decode(order, s[..4])] == 0
    ensures res.Ok? ==> var count := Decode(order, s[..4]);
                        res.value.1[..count] == s[4..4 + count] &&
                        res.value.1[count + 1..] == s[5 + count..5 + tagSize]
  {
    if tagSize < 4 then Err(InvalidData)
    else if |s| < 4 then Err(UnexpectedEof)
    else
      var count := Decode(order, s[..4]);
      if tagSize < count then Err(InvalidData)
      else AsciiSectionDecoded(s[4..], count, tagSize)
  }

  /** How many bytes `text_description_read` takes from `s`, as the source has it. */
  function TextDescriptionConsumed(order: ByteOrder, s: seq<byte>, tagSize: nat): (n: nat)
    ensures n <= |s|
  {
    if tagSize < 4 then 0
    else if |s| < 4 then |s|
    else
      var count := Decode(order, s[..4]);
      if tagSize < count then 4
      else 4 + AsciiSectionConsumed(order, s[4..], count, tagSize)
  }

  /** The part of `text_description_read` after the ASCII count, as the source has it. */
  method ReadAsciiSection(r: Reader, order: ByteOrder, count: nat, tagSize: nat) returns (res: Result<(nat, seq<byte>)>)
    requires count <= tagSize
    requires r.Valid()
    modifies r
    ensures r.Valid()
    ensures res == AsciiSectionDecoded(old(r.Rest()), count, tagSize)
    ensures r.Rest() == old(r.Rest())[AsciiSectionConsumed(order, old(r.Rest()), count, tagSize)..]
  {
    ghost var t := r.Rest();
    var text := r.ReadExact(tagSize + 1);
    if text.Err? {
      assert |t| < tagSize + 1;
      return Err(text.kind);
    }
    assert text.value == t[..tagSize + 1] && r.Rest() == t[tagSize + 1..];
    res := Ok((1, text.value[count := 0]));
    assert res == AsciiSectionDecoded(t, count, tagSize);
    SkipAfter(r, order, t, tagSize + 1, tagSize - count);
  }

  /** Skims the trailer once the first `k` bytes of `t` are taken. */
  method SkipAfter(r: Reader, order: ByteOrder, ghost t: seq<byte>, k: nat, size: nat)
    requires r.Valid() && k <= |t| && r.Rest() == t[k..]
    modifies r
    ensures r.Valid()
    ensures r.Rest() == t[k + TrailerConsumed(order, t[k..], size)..]
  {
    SkipTextDescriptionTrailer(r, order, size);
    ghost var n := TrailerConsumed(order, t[k..], size);
    assert t[k..][n..] == t[k + n..];
  }

  /** `text_description_read` as the source has it. */
  method TextDescriptionRead(r: Reader, order: ByteOrder, tagSize: nat) returns (res: Result<(nat, seq<byte>)>)
    requires r.Valid()
    modifies r
    ensures r.Valid()
    ensures res == TextDescriptionDecoded(order, old(r.Rest()), tagSize)
    ensures r.Rest() == old(r.Rest())[TextDescriptionConsumed(order, old(r.Rest()), tagSize)..]
  {
    ghost var s := r.Rest();
    if tagSize < 4 {
      return Err(InvalidData);
    }
    var asciiCount := ReadU32(r, order);
    if asciiCount.Err? {
      return Err(asciiCount.kind);
    }
    if tagSize < asciiCount.value {
      return Err(InvalidData);
    }
    res := ReadAsciiSection(r, order, asciiCount.value, tagSize);
  }

  /** A description holding just its ASCII section, with the tag size that section implies, is
      refused: `read_exact` asks for more bytes than the section has. */
  lemma TextDescriptionAsWrittenCounterexample(order: ByteOrder)
    ensures TextDescriptionDecoded(order, Encode(order, 1, 4) + [65], 5) == Err(UnexpectedEof)
  {
    Pow256Values();
    DecodeEncode(order, 1, 4);
    assert (Encode(order, 1, 4) + [65])[..4] == Encode(order, 1, 4);
  }

  /** The buffer the reader means to build: the `count` ASCII bytes, then zeros to `tagSize + 1`. */
  function TextDescriptionBuffer(text: seq<byte>, tagSize: nat): (b: seq<byte>)
    requires |text| <= tagSize
    ensures |b| == tagSize + 1 && b[..|text|] == text
    ensures forall i | |text| <= i <= tagSize :: b[i] == 0
  {
    text + Zeros(tagSize + 1 - |text|)
  }

  /** Corrected decoding of the bytes `t` after the ASCII count: the section is `count` bytes. */
  function AsciiSectionDecodedCorrected(t: seq<byte>, count: nat, tagSize: nat): (res: Result<(nat, seq<byte>)>)
    requires count <= tagSize
    ensures res.Ok? <==> |t| >= count
    ensures res.Err? ==> res.kind == UnexpectedEof
    ensures res.Ok? ==> res.value == (1, TextDescriptionBuffer(t[..count], tagSize))
  {
    if |t| < count then Err(UnexpectedEof) else Ok((1, TextDescriptionBuffer(t[..count], tagSize)))
  }

  /** How many bytes of `t` the corrected reader takes after the ASCII count. */
  function AsciiSectionConsumedCorrected(order: ByteOrder, t: seq<byte>, count: nat, tagSize: nat): (n: nat)
    requires count <= tagSize
    ensures n <= |t|
  {
    if |t| < count then |t|
    else count + TrailerConsumed(order, t[count..], tagSize - count)
  }

  /** Corrected decoding: the ASCII section is `count` bytes long. */
  function TextDescriptionDecodedCorrected(order: ByteOrder, s: seq<byte>, tagSize: nat): (res: Result<(nat, seq<byte>)>)
    ensures tagSize < 4 ==> res == Err(InvalidData)
    ensures tagSize >= 4 && |s| >= 4 && Decode(order, s[..4]) > tagSize ==> res == Err(InvalidData)
    ensures res.Ok? <==> tagSize >= 4 && |s| >= 4 && Decode(order, s[..4]) <= tagSize &&
                         |s| >= 4 + Decode(order, s[..4])
  {
    if tagSize < 4 then Err(InvalidData)
    else if |s| < 4 then Err(UnexpectedEof)
    else
      var count := Decode(order, s[..4]);
      if tagSize < count then Err(InvalidData)
      else AsciiSectionDecodedCorrected(s[4..], count, tagSize)
  }

  /** How many bytes the corrected reader takes from `s`. */
  function TextDescriptionConsumedCorrected(order: ByteOrder, s: seq<byte>, tagSize: nat): (n: nat)
    ensures n <= |s|
  {
    if tagSize < 4 then 0
    else if |s| < 4 then |s|
    else
      var count := Decode(order, s[..4]);
      if tagSize < count then 4
      else 4 + AsciiSectionConsumedCorrected(order, s[4..], count, tagSize)
  }

  /** The corrected part after the ASCII count: the `count` ASCII bytes go into a zeroed buffer
      of `tagSize + 1` bytes. */
  method ReadAsciiSectionCorrected(r: Reader, order: ByteOrder, count: nat, tagSize: nat)
    returns (res: Result<(nat, seq<byte>)>)
    requires count <= tagSize
    requires r.Valid()
    modifies r
    ensures r.Valid()
    ensures res == AsciiSectionDecodedCorrected(old(r.Rest()), count, tagSize)
    ensures r.Rest() == old(r.Rest())[AsciiSectionConsumedCorrected(order, old(r.Rest()), count, tagSize)..]
  {
    ghost var t := r.Rest();
    var ascii := r.ReadExact(count);
    if ascii.Err? {
      assert |t| < count;
      return Err(ascii.kind);
    }
    assert ascii.value == t[..count] && r.Rest() == t[count..];
    res := Ok((1, ascii.value + Zeros(tagSize + 1 - count)));
    assert res == AsciiSectionDecodedCorrected(t, count, tagSize);
    SkipAfter(r, order, t, count, tagSize - count);
  }

  /** Corrected `text_description_read`. */
  method TextDescriptionReadCorrected(r: Reader, order: ByteOrder, tagSize: nat) returns (res: Result<(nat, seq<byte>)>)
    requires r.Valid()
    modifies r
    ensures r.Valid()
    ensures res == TextDescriptionDecodedCorrected(order, old(r.Rest()), tagSize)
    ensures r.Rest() == old(r.Rest())[TextDescriptionConsumedCorrected(order, old(r.Rest()), tagSize)..]
  {
    ghost var s := r.Rest();
    if tagSize < 4 {
      return Err(InvalidData);
    }
    var asciiCount := ReadU32(r, order);
    if asciiCount.Err? {
      return Err(asciiCount.kind);
    }
    if tagSize < asciiCount.value {
      return Err(InvalidData);
    }
    res := ReadAsciiSectionCorrected(r, order, asciiCount.value, tagSize);
  }

  /** With the correction, a description holding its ASCII section and nothing more is read, and
      the buffer starts with the text followed by its terminator. */
  lemma {:induction false} TextDescriptionCorrectedReadsAscii(order: ByteOrder, text: seq<byte>, tagSize: nat)
    requires 4 <= tagSize && |text| <= tagSize && |text| < 0x1_0000_0000
    ensures var res := TextDescriptionDecodedCorrected(order, Encode(order, |text|, 4) + text, tagSize);
      res.Ok? && res.value.0 == 1 && res.value.1[..|text|] == text && res.value.1[|text|] == 0
  {
    Pow256Values();
    var s := Encode(order, |text|, 4) + text;
    assert s[..4] == Encode(order, |text|, 4);
    DecodeEncode(order, |text|, 4);
    assert s[4..4 + |text|] == text;
  }

  /** For the counterexample input the corrected reader gives the text "A" and its terminator. */
  lemma TextDescriptionCorrectedExample(order: ByteOrder)
    ensures TextDescriptionDecodedCorrected(order, Encode(order, 1, 4) + [65], 5) == Ok((1, [65, 0, 0, 0, 0, 0]))
  {
    Pow256Values();
    DecodeEncode(order, 1, 4);
    var s := Encode(order, 1, 4) + [65];
    assert s[..4] == Encode(order, 1, 4);
    assert s[4..] == [65];
    assert TextDescriptionBuffer([65], 5) == [65, 0, 0, 0, 0, 0];
    assert [65][..1] == [65];
  }

  // ===== The handler table =====

  /** The read/write pair a table entry names. */
  datatype Codec = ChromaticityCodec | ColorantOrderCodec | S15F16Codec | U16F16Codec | TextCodec | SignatureCodec
                   | DataCodec | XyzCodec

  /** `TagTypeHandler`: the type signature, the version (0 for every built-in entry) and the codec. */
  datatype TagTypeHandler = TagTypeHandler(signature: Signature, version: u32, codec: Codec)

  /** The first argument form of `type_handler!`, which sets version 0. */
  function TypeHandler(sig: Signature, codec: Codec): (h: TagTypeHandler)
    ensures h.signature == sig && h.version == 0 && h.codec == codec
  {
    TagTypeHandler(sig, 0, codec)
  }

  /** `SUPPORTED_TAG_TYPES`. */
  const SUPPORTED_TAG_TYPES: seq<TagTypeHandler> := [
    TypeHandler(CHROMATICITY, ChromaticityCodec),
    TypeHandler(COLORANT_ORDER, ColorantOrderCodec),
    TypeHandler(S15_FIXED16_ARRAY, S15F16Codec),
    TypeHandler(U16_FIXED16_ARRAY, U16F16Codec),
    TypeHandler(TEXT, TextCodec),
    TypeHandler(SIGNATURE, SignatureCodec),
    TypeHandler(DATA, DataCodec),
    TypeHandler(XYZ, XyzCodec),
    TypeHandler(CORBIS_BROKEN_XYZ_TYPE, XyzCodec)
  ]

  /** The handler for a type signature, the first in table order. */
  function HandlerFor(table: seq<TagTypeHandler>, sig: Signature): (h: Options.Option<TagTypeHandler>)
    ensures h.None? <==> forall i | 0 <= i < |table| :: table[i].signature != sig
    ensures h.Some? ==> exists i | 0 <= i < |table| :: table[i] == h.value && h.value.signature == sig &&
                                                      forall j | 0 <= j < i :: table[j].signature != sig
  {
    if table == [] then Options.None
    else if table[0].signature == sig then Options.Some(table[0])
    else
      var h := HandlerFor(table[1..], sig);
      assert forall i | 1 <= i < |table| :: table[i] == table[1..][i - 1];
      if h.Some? then
        var k :| 0 <= k < |table[1..]| && table[1..][k] == h.value && h.value.signature == sig &&
                 forall j | 0 <= j < k :: table[1..][j].signature != sig;
        assert table[k + 1] == h.value;
        assert forall j | 0 <= j < k + 1 :: table[j].signature != sig by {
          forall j | 0 <= j < k + 1 ensures table[j].signature != sig {
            if j > 0 {
              assert table[j] == table[1..][j - 1];
            }
          }
        }
        h
      else
        h
  }

  /** The handler found for a signature is the first entry carrying it. */
  lemma HandlerForFirst(table: seq<TagTypeHandler>, sig: Signature, i: nat)
    requires i < |table| && table[i].signature == sig
    requires forall j | 0 <= j < i :: table[j].signature != sig
    ensures HandlerFor(table, sig) == Options.Some(table[i])
  {
    var h := HandlerFor(table, sig);
    var k :| 0 <= k < |table| && table[k] == h.value && h.value.signature == sig &&
             forall j | 0 <= j < k :: table[j].signature != sig;
  }

  /** Nine entries, all of version 0, with distinct signatures. */
  lemma SupportedTagTypes()
    ensures |SUPPORTED_TAG_TYPES| == 9
    ensures forall i | 0 <= i < 9 :: SUPPORTED_TAG_TYPES[i].version == 0
    ensures forall i, j | 0 <= i < j < 9 :: SUPPORTED_TAG_TYPES[i].signature != SUPPORTED_TAG_TYPES[j].signature
  {
  }

  /** Both XYZ signatures find the XYZ codec. */
  lemma SupportedTagTypeLookups()
    ensures HandlerFor(SUPPORTED_TAG_TYPES, XYZ) == Options.Some(TypeHandler(XYZ, XyzCodec))
    ensures HandlerFor(SUPPORTED_TAG_TYPES, CORBIS_BROKEN_XYZ_TYPE) ==
            Options.Some(TypeHandler(CORBIS_BROKEN_XYZ_TYPE, XyzCodec))
  {
    SupportedTagTypes();
    HandlerForFirst(SUPPORTED_TAG_TYPES, XYZ, 7);
    HandlerForFirst(SUPPORTED_TAG_TYPES, CORBIS_BROKEN_XYZ_TYPE, 8);
  }

  /** The text description type finds no handler. */
  lemma TextDescriptionUnhandled()
    ensures HandlerFor(SUPPORTED_TAG_TYPES, TEXT_DESCRIPTION).None?
  {
    assert forall i | 0 <= i < |SUPPORTED_TAG_TYPES| :: SUPPORTED_TAG_TYPES[i].signature != TEXT_DESCRIPTION;
  }
}
