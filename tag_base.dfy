/** The eight-byte header that starts every tag body: the type signature and four reserved bytes. */
module TagBase {
  import opened ByteCodec
  import opened Streams
  import opened Signatures
  import Plugin

  datatype TagBase = TagBase(signature: Signature, reserved: Bytes4)

  /** `From<u32>`: the signature of the value, with zero reserved bytes. */
  function FromU32(value: u32): (t: TagBase)
    ensures t.signature.value == value && t.reserved == [0, 0, 0, 0]
  {
    TagBase(Signatures.FromU32(value), [0, 0, 0, 0])
  }

  /** `From<TagBase> for u32`: the signature value; the reserved bytes are dropped. */
  function ToU32(t: TagBase): (v: u32)
    ensures FromU32(v).signature == t.signature
  {
    Signatures.ToU32(t.signature)
  }

  lemma U32RoundTrip(value: u32)
    ensures ToU32(FromU32(value)) == value
  {
  }

  /** The header stored in the first eight bytes of `s`, as `read` takes it apart: the signature
      big-endian whatever the byte-order setting, the reserved bytes verbatim. */
  function Parse(s: seq<byte>): (t: TagBase)
    requires |s| >= 8
    ensures ToBytes(t.signature) == s[..4] && t.reserved == s[4..8]
  {
    TagBase(New(s[..4]), s[4..8])
  }

  /** `TagBase::read`. */
  method Read(r: Reader) returns (res: Result<TagBase>)
    requires r.Valid()
    modifies r
    ensures r.Valid()
    ensures |old(r.Rest())| >= 8 ==> res == Ok(Parse(old(r.Rest()))) && r.Rest() == old(r.Rest())[8..]
    ensures |old(r.Rest())| < 8 ==> res == Err(UnexpectedEof) && r.Rest() == []
  {
    ghost var s := r.Rest();
    var buf := r.Read(4);
    if |buf| < 4 {
      return Err(UnexpectedEof);
    }
    Pow256Values();
    var sig := Signature(Decode(BigEndian, buf));
    buf := r.Read(4);
    if |buf| < 4 {
      return Err(UnexpectedEof);
    }
    assert s[4..][..4] == s[4..8];
    res := Ok(TagBase(sig, buf));
  }

  /** `read_type_base`: the signature of the header, or signature 0 when it cannot be read. */
  method ReadTypeBase(r: Reader) returns (sig: Signature)
    requires r.Valid()
    modifies r
    ensures r.Valid()
    ensures |old(r.Rest())| >= 8 ==> sig == Parse(old(r.Rest())).signature && r.Rest() == old(r.Rest())[8..]
    ensures |old(r.Rest())| < 8 ==> sig == Signature(0) && r.Rest() == []
  {
    var value := Read(r);
    if value.Err? {
      return Signature(0);
    }
    return value.value.signature;
  }

  /** What `write` emits: the signature through `write_u32`, then the reserved bytes taken as a
      host-order integer and put through `write_u32` too. */
  function WrittenBytes(order: ByteOrder, native: ByteOrder, t: TagBase): (s: seq<byte>)
    ensures |s| == 8
  {
    Pow256Values();
    Encode(order, t.signature.value, 4) + Encode(order, Decode(native, t.reserved), 4)
  }

  /** `TagBase::write`, in the byte order `write_u32` follows, on a host of order `native`. */
  method Write(t: TagBase, w: Writer, order: ByteOrder, native: ByteOrder) returns (res: Result<()>)
    requires w.Valid()
    modifies w
    ensures w.Valid()
    ensures w.bytes == old(w.bytes) + Clip(WrittenBytes(order, native, t), old(w.Room()))
    ensures res == if old(w.Room()) >= 8 then Ok(()) else Err(UnexpectedEof)
  {
    ghost var room := w.Room();
    Pow256Values();
    var reserved := Decode(native, t.reserved);
    ClipConcat(Encode(order, t.signature.value, 4), Encode(order, reserved, 4), room);
    var first := Plugin.WriteU32(w, order, t.signature.value);
    if first.Err? {
      return Err(first.kind);
    }
    var second := Plugin.WriteU32(w, order, reserved);
    if second.Err? {
      return Err(second.kind);
    }
    res := Ok(());
  }

  /** In the big-endian setting, on a host whose integers are also big-endian, `read` gives back
      what `write` wrote; with a little-endian `write_u32` the signature comes back byte-reversed. */
  lemma {:induction false} WrittenBytesParse(order: ByteOrder, native: ByteOrder, t: TagBase)
    ensures order == native ==> Parse(WrittenBytes(order, native, t)).reserved == t.reserved
    ensures order == BigEndian ==> Parse(WrittenBytes(order, native, t)).signature == t.signature
    ensures order == LittleEndian ==>
      ToBytes(Parse(WrittenBytes(order, native, t)).signature) == Reverse(ToBytes(t.signature))
  {
    Pow256Values();
    var s := WrittenBytes(order, native, t);
    EncodeDecode(native, t.reserved);
    assert s[4..8] == Encode(order, Decode(native, t.reserved), 4);
    assert s[..4] == Encode(order, t.signature.value, 4);
    EncodeOrders(t.signature.value, 4);
    BytesRoundTrip(s[..4], t.signature);
  }

  /** The smallest case of the mismatch: the XYZ type signature written little-endian reads back
      as the signature with the reversed bytes. */
  lemma LittleEndianWriteMisreads()
    ensures Parse(WrittenBytes(LittleEndian, LittleEndian, FromU32(0x5859_5A20))).signature
         == Signature(0x205A_5958)
  {
    var t := FromU32(0x5859_5A20);
    var written: Bytes4 := [0x58, 0x59, 0x5A, 0x20];
    var reversed: Bytes4 := [0x20, 0x5A, 0x59, 0x58];
    BeValue4(written);
    assert New(written) == t.signature;
    WrittenBytesParse(LittleEndian, LittleEndian, t);
    assert Reverse(written) == reversed by {
      ReverseAt(written, 0);
      ReverseAt(written, 1);
      ReverseAt(written, 2);
      ReverseAt(written, 3);
    }
    var back := Parse(WrittenBytes(LittleEndian, LittleEndian, t)).signature;
    BytesRoundTrip(reversed, back);
    BeValue4(reversed);
  }

  /** The header as the profile format stores it: the signature big-endian and the reserved bytes
      verbatim, in every byte-order setting. */
  function WireBytes(t: TagBase): (s: seq<byte>)
    ensures |s| == 8
  {
    ToBytes(t.signature) + t.reserved
  }

  /** Corrected counterpart of `Write`: emits `WireBytes`. */
  method WriteWire(t: TagBase, w: Writer) returns (res: Result<()>)
    requires w.Valid()
    modifies w
    ensures w.Valid()
    ensures w.bytes == old(w.bytes) + Clip(WireBytes(t), old(w.Room()))
    ensures res == if old(w.Room()) >= 8 then Ok(()) else Err(UnexpectedEof)
  {
    ghost var room := w.Room();
    ClipConcat(ToBytes(t.signature), t.reserved, room);
    Pow256Values();
    var first := Plugin.WriteU32(w, BigEndian, t.signature.value);
    if first.Err? {
      return Err(first.kind);
    }
    var second := w.Write(t.reserved);
    if second != 4 {
      return Err(UnexpectedEof);
    }
    res := Ok(());
  }

  /** `read` takes apart exactly what `WireBytes` puts together. */
  lemma {:induction false} WireRoundTrip(t: TagBase, s: seq<byte>)
    requires |s| >= 8
    ensures Parse(WireBytes(t)) == t
    ensures WireBytes(Parse(s)) == s[..8]
  {
    var b := WireBytes(t);
    assert b[..4] == ToBytes(t.signature) && b[4..8] == t.reserved;
    BytesRoundTrip(ToBytes(t.signature), t.signature);
    BytesRoundTrip(s[..4], t.signature);
    assert s[..8] == s[..4] + s[4..8];
  }
}
