/** Clients that drive the codec end to end: each writes a value into a fresh sink, hands the
    bytes to a fresh stream and reads them back. */
module RoundTrips {
  import opened ByteCodec
  import opened Streams
  import opened Lcms
  import opened Options
  import opened Signatures
  import opened Plugin
  import opened PluginTags
  import opened Chunks
  import Context
  import InternalTypes
  import TagBase

  /** Writes `v` as a u32 and reads it back, in either byte order. */
  method U32WriteRead(order: ByteOrder, v: u32) returns (back: Result<u32>)
    ensures back == Ok(v)
  {
    Pow256Values();
    var expected := Encode(order, v, 4);
    var w := new Writer(4);
    var written := WriteU32(w, order, v);
    assert w.bytes == expected;
    var r := new Reader(w.bytes);
    back := ReadU32(r, order);
    assert expected[..4] == expected;
    DecodeEncode(order, v, 4);
  }

  /** Writes one byte into a one-byte sink and reads it back. */
  method U8WriteRead(v: byte) returns (back: Result<byte>)
    ensures back == Ok(v)
  {
    var w := new Writer(1);
    var written := WriteU8(w, v);
    var r := new Reader(w.bytes);
    back := ReadU8(r);
  }

  /** Writes a u16 into a two-byte sink and reads it back in the same byte order. */
  method U16WriteRead(order: ByteOrder, v: u16) returns (back: Result<u16>)
    ensures back == Ok(v)
  {
    Pow256Values();
    var expected := Encode(order, v, 2);
    var w := new Writer(2);
    var written := WriteU16(w, order, v);
    assert w.bytes == expected;
    var r := new Reader(w.bytes);
    back := ReadU16(r, order);
    assert expected[..2] == expected;
    DecodeEncode(order, v, 2);
  }

  /** Writes a u64 into an eight-byte sink and reads it back in the same byte order. */
  method U64WriteRead(order: ByteOrder, v: u64) returns (back: Result<u64>)
    ensures back == Ok(v)
  {
    Pow256Values();
    var expected := Encode(order, v, 8);
    var w := new Writer(8);
    var written := WriteU64(w, order, v);
    assert w.bytes == expected;
    var r := new Reader(w.bytes);
    back := ReadU64(r, order);
    assert expected[..8] == expected;
    DecodeEncode(order, v, 8);
  }

  /** Writes a u16 array into a sink with room for it and reads back as many elements. */
  method U16ArrayWriteRead(order: ByteOrder, values: seq<u16>) returns (back: Result<seq<u16>>)
    ensures back == Ok(values)
  {
    var expected := U16ArrayBytes(order, values);
    var w := new Writer(2 * |values|);
    var written := WriteU16Array(w, order, values);
    assert w.bytes == expected;
    var r := new Reader(w.bytes);
    assert r.Rest() == expected && |expected| == 2 * |values|;
    back := ReadU16Array(r, order, |values|);
    assert forall i | 0 <= i < |values| :: back.value[i] == U16At(order, expected, i);
    forall i | 0 <= i < |values| ensures back.value[i] == values[i] {
      U16ArrayRoundTrip(order, values, i);
    }
    assert back.value == values;
  }

  /** An XYZ triple written and read back is the triple rounded to the fixed-point grid. */
  method XyzWriteRead(order: ByteOrder, v: CieXyz) returns (back: Result<(nat, CieXyz)>)
    ensures back == Ok((1, CieXyz(Quantize(v.x), Quantize(v.y), Quantize(v.z))))
  {
    var w := new Writer(12);
    var written := InternalTypes.XyzWrite(w, order, v, 1);
    assert w.bytes == XyzBytes(order, v);
    var r := new Reader(w.bytes);
    back := InternalTypes.XyzRead(r, order, 1);
    XyzBytesRoundTrip(order, v);
  }

  /** Chromaticities through the writer as the source has it: green and blue come back as red. */
  method ChromaticityWriteReadAsWritten(order: ByteOrder, items: CieXyYTriple) returns (back: Result<(nat, CieXyYTriple)>)
    ensures back == Ok((1, CieXyYTriple(InternalTypes.QuantizeXyY(items.red), InternalTypes.QuantizeXyY(items.red),
                                        InternalTypes.QuantizeXyY(items.red))))
  {
    var expected := InternalTypes.ChromaticityBytesAsWritten(order, items);
    var w := new Writer(|expected|);
    var written := InternalTypes.ChromaticityWrite(w, order, items, 1);
    assert w.bytes == expected;
    var r := new Reader(w.bytes);
    back := InternalTypes.ChromaticityRead(r, order, 1);
    InternalTypes.ChromaticityAsWrittenLosesPrimaries(order, items);
  }

  /** Chromaticities through the corrected writer come back as the three primaries. */
  method ChromaticityWriteRead(order: ByteOrder, items: CieXyYTriple) returns (back: Result<(nat, CieXyYTriple)>)
    ensures back == Ok((1, CieXyYTriple(InternalTypes.QuantizeXyY(items.red), InternalTypes.QuantizeXyY(items.green),
                                        InternalTypes.QuantizeXyY(items.blue))))
  {
    var expected := InternalTypes.ChromaticityBytes(order, items);
    var w := new Writer(|expected|);
    var written := InternalTypes.ChromaticityWriteCorrected(w, order, items, 1);
    assert w.bytes == expected;
    var r := new Reader(w.bytes);
    back := InternalTypes.ChromaticityRead(r, order, 1);
    InternalTypes.ChromaticityRoundTrip(order, items);
  }

  /** A colorant order of at most 16 entries without the 0xFF end mark survives a write and a read. */
  method ColorantOrderWriteRead(order: ByteOrder, items: seq<byte>) returns (back: Result<(nat, seq<byte>)>)
    requires |items| <= MAX_CHANNELS && forall i | 0 <= i < |items| :: items[i] != 0xFF
    ensures back == Ok((1, items))
  {
    var expected := InternalTypes.ColorantOrderBytes(order, items);
    var w := new Writer(|expected|);
    var written := InternalTypes.ColorantOrderWrite(w, order, items, 1);
    assert w.bytes == expected;
    var r := new Reader(w.bytes);
    back := InternalTypes.ColorantOrderRead(r, order, 1);
    InternalTypes.ColorantOrderRoundTrip(order, items);
  }

  /** A data buffer whose header states its payload length survives a write and a read. */
  method DataWriteRead(order: ByteOrder, native: ByteOrder, flag: u32, payload: seq<byte>)
    returns (back: Result<(nat, seq<byte>)>)
    requires |payload| < 0x1_0000_0000
    ensures back == Ok((1, InternalTypes.DataBuffer(native, flag, payload)))
  {
    var items := InternalTypes.DataBuffer(native, flag, payload);
    var w := new Writer(4 + |payload|);
    var written := InternalTypes.DataWrite(w, order, native, items, 1);
    var r := new Reader(w.bytes);
    InternalTypes.DataRoundTrip(order, native, flag, payload, []);
    assert w.bytes == InternalTypes.DataBytes(order, native, items) + [];
    back := InternalTypes.DataRead(r, order, native, 4 + |payload|);
  }

  /** An ASCII text written whole is read back with the tag size it was written with. */
  method TextWriteRead(items: seq<byte>) returns (back: Result<(nat, seq<byte>)>)
    requires |items| > 0 && IsAscii(items)
    ensures back == Ok((1, InternalTypes.TextBytes(items) + [0]))
  {
    var size := |InternalTypes.TextBytes(items)|;
    var w := new Writer(size);
    var written := InternalTypes.TextWrite(w, items, 1);
    var r := new Reader(w.bytes);
    InternalTypes.TextRoundTrip(items, []);
    assert w.bytes == InternalTypes.TextBytes(items) + [];
    back := InternalTypes.TextRead(r, size);
  }

  /** A tag-type header written in its stored form is read back as itself. */
  method TagBaseWireWriteRead(t: TagBase.TagBase) returns (back: Result<TagBase.TagBase>)
    ensures back == Ok(t)
  {
    var w := new Writer(8);
    var written := TagBase.WriteWire(t, w);
    assert w.bytes == TagBase.WireBytes(t);
    var r := new Reader(w.bytes);
    back := TagBase.Read(r);
    TagBase.WireRoundTrip(t, w.bytes);
  }

  /** The description made only of its ASCII part "A": refused as the source has it, read
      with the correction. */
  method TextDescriptionAsciiOnly(order: ByteOrder) returns (asWritten: Result<(nat, seq<byte>)>, corrected: Result<(nat, seq<byte>)>)
    ensures asWritten == Err(UnexpectedEof)
    ensures corrected == Ok((1, [65, 0, 0, 0, 0, 0]))
  {
    Pow256Values();
    var body := Encode(order, 1, 4) + [65];
    var first := new Reader(body);
    asWritten := InternalTypes.TextDescriptionRead(first, order, 5);
    var second := new Reader(body);
    corrected := InternalTypes.TextDescriptionReadCorrected(second, order, 5);
    InternalTypes.TextDescriptionAsWrittenCounterexample(order);
    InternalTypes.TextDescriptionCorrectedExample(order);
  }

  /** Registering a second plugin for a signature already registered leaves the first one in
      force: lookup still answers with the first descriptor. */
  method RegisterTwiceKeepsFirst(sig: Signature, first: TagDescriptor, second: TagDescriptor)
    returns (found: Option<TagDescriptor>)
    ensures found.Some? && found.value == first
  {
    var context := new Context.Context();
    var ok := context.RegisterTagPlugin(Some(Context.PluginTag(sig, first)));
    assert context.tagPlugin.tag == [TagListItem(sig, first)];
    assert Lookup(context.tagPlugin.tag, sig) == Some(0);
    ok := context.RegisterTagPlugin(Some(Context.PluginTag(sig, second)));
    found := context.tagPlugin.GetTagDescriptor(sig);
  }
}
