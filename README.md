# rusty-lcms2 tag codec and registry, modelled in Dafny

This project models the core of rusty-lcms2, a Rust port of the Little CMS colour-management
engine. It covers the layer that turns ICC profile tags into bytes and back, and the tables and
registries that decide which codec handles which tag:

- **Primitive codecs** (`src/plugin/mod.rs`). These read and write u8, u16, u32 and u64 values,
  u16 arrays, s15Fixed16 numbers and XYZ triples over a byte stream. The stream's byte order is
  the `ByteOrder` parameter, which stands for the `use_big_endian!()` switch. The module also
  holds the u8Fixed8 and s15Fixed16 conversions to and from floating point.
- **Endianness helpers** (`src/plugin/little_endian.rs`).
- **Signatures** (`src/signature.rs`). A signature is a four-character code held in a u32. The
  model covers its conversions from byte arrays, slices and strings, and back to a string.
- **The tag base header** (`src/plugin/tag_base.rs`). This is the eight-byte type signature plus
  reserved word that begins every tag.
- **The built-in tag-type handlers** (`src/internal/types.rs`): XYZ, chromaticity, colorant order,
  signature, text, data and text description. Also modelled is the `SUPPORTED_TAG_TYPES` table
  that maps a type signature to its handler.
- **The built-in tag table** (`src/internal/tags.rs`). This is the 64-entry `SUPPORTED_TAGS` list
  together with the version-dependent "decide type" functions.
- **Tag descriptors and the plugin registry** (`src/plugin/tags.rs`, `src/plugin/chunks.rs`,
  `src/plugin/context.rs`). These cover the `TagListItem!` constructor macro, first-match lookup
  of a descriptor by tag signature, registration of plugin tags, and the log-error handler.
- **Pixel-format words** (`src/pixel_type.rs`). A pixel format is a 32-bit word assembled from
  bit fields. The model includes its named constants and its colour-space accessor and setter.
- **The named colour list** (`src/internal/named_color_list.rs`).

## How the model is built

Streams follow `std::io::Read` and `std::io::Write`.

- A `Streams.Reader` delivers, on each `read` call, as many bytes as were asked for or as
  remain, whichever is fewer. The primitives compare the length of that one call with the size
  they need and report `UnexpectedEof` when it falls short; `read_exact` fails the same way.
- A `Streams.Writer` has a fixed capacity. Each `write` call stores the prefix of the buffer
  that fits and returns its length; the primitives report `UnexpectedEof` when that length falls
  short.

Every codec method is proved against a pure function of the stream contents. Examples are
`ChromaticityDecoded`, `ColorantOrderBytes` and `DataDecoded`. Round-trip lemmas then connect each
encoder with its decoder.

Values are represented as follows:

- Integers are unbounded. The source's fixed widths (u8/u16/u32/u64, i32, i8) are subset types,
  and the wrap-arounds and saturations of those widths are written out. A `usize` is taken to be
  four bytes wide, except in `InternalTypes.DataDecodedOnHost`, which takes the host width as a
  parameter (see "## Left out").
- An `f64` is a `real`.
- The handlers' native-endian `Box<[u8]>` item buffers are byte sequences. Their host byte order
  is a second `native` parameter.

## Model

| member | source | states |
|---|---|---|
| ByteCodec.DecodeEncode | src/plugin/mod.rs:56-89 | decoding the n bytes that encode v in either byte order gives v back |
| ByteCodec.EncodeDecode | src/plugin/mod.rs:56-89 | re-encoding a decoded byte string in the same order reproduces it exactly |
| ByteCodec.EncodeOrders | src/plugin/mod.rs:210-241 | the little-endian encoding is the big-endian encoding reversed, and vice versa |
| ByteCodec.I32BitsRoundTrip | src/plugin/mod.rs:133-149 | reinterpreting an i32 as u32 bits and back is the identity, in both directions |
| LittleEndian.AdjustEndianness16 | src/plugin/little_endian.rs:1-3 | the big-endian bytes of the result are the big-endian bytes of the input reversed |
| LittleEndian.AdjustEndianness32 | src/plugin/little_endian.rs:5-7 | same byte reversal for 32-bit words |
| LittleEndian.AdjustEndianness64 | src/plugin/little_endian.rs:9-11 | same byte reversal for 64-bit words |
| LittleEndian.AdjustEndiannessInvolutions | src/plugin/little_endian.rs:1-11 | adjusting endianness twice gives the original word, for all three widths |
| LittleEndian.AdjustEndianness16Example | src/plugin/little_endian.rs:1-3 | 0x1234 becomes 0x3412 |
| Plugin.S15F16ToF64 | src/plugin/mod.rs:345-356 | the fixed-point value divided by 65536, exact for every i32; for i32::MIN this is the release-build result, where `abs` wraps (a debug build panics there) |
| Plugin.F64ToS15F16 | src/plugin/mod.rs:377-379 | in range, the result is the integer r with r <= v * 65536 + 0.5 < r + 1; below i32::MIN it saturates to i32::MIN and above i32::MAX to i32::MAX; S15F16RoundTrip, S15F16Accuracy and S15F16Examples state what this means for values |
| Plugin.S15F16RoundTrip | src/plugin/mod.rs:345-379 | converting any s15Fixed16 to f64 and back gives the same fixed-point value |
| Plugin.S15F16Accuracy | src/plugin/mod.rs:377-379 | for in-range inputs, quantising to s15Fixed16 moves a value by at most half of 1/65536 |
| Plugin.S15F16Examples | src/plugin/mod.rs:345-379 | 2.5, 42.0 and -1.0 map to 0x28000, 0x2A0000 and -0x10000 and back |
| Plugin.U8F8ToF64 | src/plugin/mod.rs:315-319 | the u8Fixed8 value divided by 256 |
| Plugin.U8F8RoundTrip | src/plugin/mod.rs:315-324 | converting any u8Fixed8 to f64 and back gives the same fixed-point value |
| Plugin.F64ToU8F8 | src/plugin/mod.rs:320-324 | when the s15Fixed16 encoding lies in [0, 2^24), the result is that encoding with its low eight bits dropped; U8F8RoundTrip, U8F8Accuracy and U8F8NegativeWraps state what this means for values |
| Plugin.U8F8Accuracy | src/plugin/mod.rs:315-324 | for 0 <= v below 256, the u8Fixed8 encoding of v reads back less than 1/256 below v and at most 1/131072 above it |
| Plugin.U8F8NegativeWraps | src/plugin/mod.rs:320-324 | -1.0 converts to 0xFF00 because the conversion truncates to 16 bits |
| Plugin.S15F16BytesRoundTrip | src/plugin/mod.rs:133-149 | the four bytes written for v read back as v quantised to s15Fixed16 |
| Plugin.XyzBytesRoundTrip | src/plugin/mod.rs:191-197 | the twelve bytes written for an XYZ triple read back as its quantised components |
| Plugin.XyzExampleExact | src/plugin/mod.rs:191-197 | an exactly representable XYZ value survives a write and a read unchanged, in either order |
| Plugin.U16ArrayBytesConcat | src/plugin/mod.rs:223-228 | encoding a u16 array is compositional over concatenation |
| Plugin.U16ArrayRoundTrip | src/plugin/mod.rs:70-77 | element i decoded from an encoded u16 array is element i of the original |
| Plugin.ReadU8 | src/plugin/mod.rs:46-54 | returns the next byte and consumes it; on an empty stream gives UnexpectedEof |
| Plugin.ReadU16 | src/plugin/mod.rs:56-68 | decodes the next two bytes in the stream order and consumes them; a short stream gives UnexpectedEof |
| Plugin.ReadU32 | src/plugin/mod.rs:79-89 | the same for four bytes |
| Plugin.ReadU64 | src/plugin/mod.rs:105-117 | the same for eight bytes |
| Plugin.ReadU16Array | src/plugin/mod.rs:70-77 | reads count elements, each decoded from its two bytes, and consumes 2*count bytes; a short stream fails |
| Plugin.ReadS15F16 | src/plugin/mod.rs:133-149 | returns the s15Fixed16 value of the next four bytes and consumes them |
| Plugin.ReadXyz | src/plugin/mod.rs:191-197 | returns three consecutive s15Fixed16 values and consumes twelve bytes |
| Plugin.WriteU8 | src/plugin/mod.rs:199-208 | appends the byte if there is room, otherwise writes nothing and fails |
| Plugin.WriteU16 | src/plugin/mod.rs:210-221 | appends the two-byte encoding (as much as fits) and fails exactly when it does not fit |
| Plugin.WriteU32 | src/plugin/mod.rs:230-241 | the same for four bytes |
| Plugin.WriteU64 | src/plugin/mod.rs:256-267 | the same for eight bytes |
| Plugin.WriteU16Array | src/plugin/mod.rs:223-228 | appends the encoding of every element in order, stopping at the first element that does not fit |
| Plugin.WriteS15F16 | src/plugin/mod.rs:281-292 | appends the four bytes of the quantised value |
| Plugin.WriteXyz | src/plugin/mod.rs:294-300 | appends the twelve bytes of the three quantised components |
| Signatures.New | src/signature.rs:4-6 | the signature's bytes are the given four bytes |
| Signatures.Default | src/signature.rs:8-12 | the default signature is four spaces, 0x20202020 |
| Signatures.ToU32 | src/signature.rs:13-17 | the u32 converts back to the same signature |
| Signatures.FromU32 | src/signature.rs:18-22 | the signature's big-endian bytes spell the given u32 |
| Signatures.ToBytes | src/signature.rs:23-27 | the four bytes, read big-endian, are the signature's u32 value |
| Signatures.U32RoundTrip | src/signature.rs:13-22 | u32 to signature to u32, and signature to u32 to signature, are identities |
| Signatures.BytesRoundTrip | src/signature.rs:23-32 | byte array to signature to byte array, and back, are identities |
| Signatures.FromBytes3 | src/signature.rs:33-39 | three bytes are padded with one trailing space |
| Signatures.FromBytes2 | src/signature.rs:40-46 | two bytes are padded with two trailing spaces |
| Signatures.FromBytes1 | src/signature.rs:47-53 | one byte is padded with three trailing spaces |
| Signatures.FromSlice | src/signature.rs:54-67 | an empty slice gives signature 0; one to three bytes are space-padded; longer slices keep their first four bytes |
| Signatures.ToString | src/signature.rs:68-75 | a signature whose bytes are valid UTF-8 prints as those bytes; otherwise it prints as four spaces |
| Signatures.FromStr | src/signature.rs:76-80 | a string converts exactly as its byte slice does |
| Signatures.StringRoundTrip | src/signature.rs:68-80 | printing and re-parsing gives the signature back, or the default signature when its bytes are not UTF-8 |
| Signatures.AsciiSignaturePrints | src/signature.rs:68-75 | an ASCII signature prints as its own four bytes |
| TagBase.FromU32 | src/plugin/tag_base.rs:14-21 | a header built from a u32 carries that signature and zero reserved bytes |
| TagBase.ToU32 | src/plugin/tag_base.rs:22-26 | the u32 converts back to a header with the same signature |
| TagBase.U32RoundTrip | src/plugin/tag_base.rs:14-26 | u32 to header to u32 is the identity |
| TagBase.Read | src/plugin/tag_base.rs:28-45 | reads eight bytes as a big-endian signature plus four reserved bytes; a short stream gives UnexpectedEof |
| TagBase.ReadTypeBase | src/plugin/tag_base.rs:46-52 | returns the signature of a readable header, or signature 0 when the read fails |
| TagBase.Write | src/plugin/tag_base.rs:53-58 | appends the two u32 words of the header in the stream byte order and fails when they do not fit |
| TagBase.WrittenBytesParse | src/plugin/tag_base.rs:28-58 | with a big-endian stream the written signature reads back unchanged; with a little-endian stream it reads back byte-reversed |
| TagBase.LittleEndianWriteMisreads | src/plugin/tag_base.rs:34-55 | with a little-endian stream, the header of type XYZ (0x58595A20) reads back as 0x205A5958 |
| TagBase.WireRoundTrip | src/plugin/tag_base.rs:28-45 | the corrected always-big-endian header bytes parse back to the header, and parsing then re-writing reproduces eight stream bytes |
| InternalTypes.XyzRead | src/internal/types.rs:11-20 | yields one XYZ value decoded from the next twelve bytes |
| InternalTypes.XyzWrite | src/internal/types.rs:22-29 | appends the twelve-byte encoding of the item |
| InternalTypes.ChromaticityDecoded | src/internal/types.rs:31-55 | succeeds exactly when the channel count is 3 and 28 bytes are present; a different count is InvalidData; every luminance Y is 1.0 |
| InternalTypes.ChromaticityRead | src/internal/types.rs:31-55 | returns ChromaticityDecoded of the stream and consumes what it read |
| InternalTypes.SaveOneChromaticity | src/internal/types.rs:325-336 | appends the x and y of one chromaticity as two s15Fixed16 words |
| InternalTypes.ChromaticityWrite | src/internal/types.rs:57-66 | as written: appends the header and then the red primary three times |
| InternalTypes.ChromaticityAsWrittenLosesPrimaries | src/internal/types.rs:57-66 | reading back what the handler writes gives red in all three slots |
| InternalTypes.ChromaticityAsWrittenCounterexample | src/internal/types.rs:61-63 | a concrete triple whose green x is lost by the as-written encoder and kept by the corrected one |
| InternalTypes.ChromaticityWriteCorrected | src/internal/types.rs:57-66 | appends the header and then red, green and blue |
| InternalTypes.ChromaticityRoundTrip | src/internal/types.rs:31-66 | the corrected encoding reads back as the quantised red, green and blue primaries |
| InternalTypes.CountLeading | src/internal/types.rs:92-99 | the loop's count is the length of the longest prefix without 0xFF |
| InternalTypes.LeadingCountUnique | src/internal/types.rs:92-99 | that length is the only one with no 0xFF before it and a 0xFF (or the end) at it |
| InternalTypes.ColorantOrderDecoded | src/internal/types.rs:68-85 | succeeds exactly when the count is at most 16 and that many bytes follow; a count above 16 is InvalidData; the result has exactly count entries |
| InternalTypes.ColorantOrderRead | src/internal/types.rs:68-85 | returns ColorantOrderDecoded of the stream and consumes what it read |
| InternalTypes.ColorantCount | src/internal/types.rs:92-102 | the written count is at most 16 and covers no 0xFF byte |
| InternalTypes.ColorantOrderBytes | src/internal/types.rs:87-111 | the bytes the writer emits: a four-byte count plus that many entries, 4 + count bytes in all; ColorantOrderRoundTrip proves they decode back |
| InternalTypes.ColorantOrderWrite | src/internal/types.rs:87-111 | appends the count and that many entries; fails when they do not fit |
| InternalTypes.ColorantOrderRoundTrip | src/internal/types.rs:68-111 | up to 16 entries without 0xFF are written and read back unchanged |
| InternalTypes.ColorantOrderExample | src/internal/types.rs:68-111 | the order [2, 0, 1] survives a write and a read |
| InternalTypes.ColorantOrderCapped | src/internal/types.rs:100-102 | more than 16 entries come back as their first 16 |
| InternalTypes.SignatureDecoded | src/internal/types.rs:166-170 | four stream bytes are turned into a host-order buffer holding the same u32 |
| InternalTypes.SignatureRead | src/internal/types.rs:166-170 | returns SignatureDecoded of the stream and consumes at most four bytes |
| InternalTypes.SignatureWrite | src/internal/types.rs:172-175 | appends the u32 held by the first four item bytes in the stream order |
| InternalTypes.SignatureRoundTrip | src/internal/types.rs:166-175 | a written signature item reads back as the same four bytes |
| InternalTypes.AllAscii | src/internal/types.rs:184-188 | the loop accepts exactly the byte strings with no byte above 127 |
| InternalTypes.TextDecoded | src/internal/types.rs:177-191 | succeeds exactly when the bytes read are ASCII, otherwise InvalidData; the result is tag_size+1 bytes, zero-filled past what was read and zero-terminated |
| InternalTypes.TextRead | src/internal/types.rs:177-191 | returns TextDecoded of the stream and consumes at most tag_size bytes |
| InternalTypes.TextBytes | src/internal/types.rs:201-206 | the item bytes followed by a terminating zero unless one is already last |
| InternalTypes.TextWrite | src/internal/types.rs:193-208 | non-ASCII input is InvalidData with nothing written; otherwise the terminated text is appended |
| InternalTypes.TextRoundTrip | src/internal/types.rs:177-208 | written ASCII text reads back as the terminated text |
| InternalTypes.DataDecoded | src/internal/types.rs:210-231 | fails with InvalidData below four bytes; succeeds exactly when tag_size bytes are present; the payload is the bytes after the flag; the length slot holds `len_of_data as u32`, as on a host with a four-byte `usize` |
| InternalTypes.DataDecodedOnHost | src/internal/types.rs:210-231 | below four bytes InvalidData; otherwise it panics (None) exactly when the host `usize` is not four bytes wide, and on a four-byte host it is DataDecoded |
| InternalTypes.DataRead | src/internal/types.rs:210-231 | returns DataDecoded of the stream and consumes what it read (the four-byte `usize` case) |
| InternalTypes.DataBytes | src/internal/types.rs:233-247 | the flag in the stream order, then the payload only when its length matches the recorded length |
| InternalTypes.DataWrite | src/internal/types.rs:233-247 | UnexpectedEof without room for the flag; InvalidData when the length field disagrees, after the flag has been written; otherwise Ok |
| InternalTypes.DataRoundTrip | src/internal/types.rs:210-247 | a well-formed data item is written and read back unchanged, with the length stored as a u32 |
| InternalTypes.DataRoundTripOnHosts | src/internal/types.rs:219-224 | the same item read on a host with a four-byte `usize` comes back unchanged, and on an eight-byte host the read panics |
| InternalTypes.SkipScriptCode | src/internal/types.rs:308-314 | skips up to 70 bytes of ScriptCode |
| InternalTypes.SkipTextDescriptionTrailer | src/internal/types.rs:276-316 | consumes the Unicode and ScriptCode trailer as far as the size and stream allow |
| InternalTypes.TextDescriptionDecoded | src/internal/types.rs:249-274 | as written: InvalidData below four bytes or when the ASCII count exceeds tag_size; succeeds only when tag_size+1 bytes follow the count; the buffer is those tag_size+1 stream bytes with a zero put at the count, so its first count bytes are the stream's text |
| InternalTypes.TextDescriptionRead | src/internal/types.rs:249-317 | as written: returns TextDescriptionDecoded of the stream (the text bytes, the terminator at the count, the stream bytes after it) and consumes the text and the trailer it skips |
| InternalTypes.TextDescriptionAsWrittenCounterexample | src/internal/types.rs:267-268 | a five-byte tag holding the one-character text "A" fails with UnexpectedEof |
| InternalTypes.TextDescriptionDecodedCorrected | src/internal/types.rs:249-274 | reads only the ASCII count's bytes; succeeds exactly when they are present |
| InternalTypes.TextDescriptionReadCorrected | src/internal/types.rs:249-317 | returns the corrected decoding and consumes the text and trailer |
| InternalTypes.TextDescriptionCorrectedReadsAscii | src/internal/types.rs:260-272 | a counted ASCII text followed by nothing else is read back and zero-terminated |
| InternalTypes.TextDescriptionCorrectedExample | src/internal/types.rs:249-274 | the same five-byte tag decodes to "A" padded with zeros |
| InternalTypes.TypeHandler | src/internal/types.rs:338-359 | a handler built by the macro has the given signature, version 0 and the named codec |
| InternalTypes.HandlerFor | src/internal/types.rs:361-371 | a first-match query over the handler table, which the source declares without a lookup function of its own: it returns the first handler with the signature, and None exactly when none has it |
| InternalTypes.HandlerForFirst | src/internal/types.rs:361-371 | the first matching entry is the one returned |
| InternalTypes.SupportedTagTypes | src/internal/types.rs:361-371 | nine handlers, all version 0 and with distinct signatures |
| InternalTypes.SupportedTagTypeLookups | src/internal/types.rs:361-371 | looking up XYZ or the Corbis broken XYZ signature finds the XYZ codec |
| InternalTypes.TextDescriptionUnhandled | src/internal/types.rs:361-371 | looking up the text description signature finds no handler |
| InternalTags.DecideXyzType | src/internal/tags.rs:6-8 | always XYZ |
| InternalTags.DecideTextType | src/internal/tags.rs:10-15 | multiLocalizedUnicode exactly for version 4 and later, text exactly before it |
| InternalTags.DecideLutTypeAToB | src/internal/tags.rs:17-30 | lut8 or lut16 before version 4, chosen by the first data byte; lutAtoB exactly from version 4 |
| InternalTags.DecideLutTypeBToA | src/internal/tags.rs:32-45 | the same choice with lutBtoA |
| InternalTags.DecideCurveType | src/internal/tags.rs:47-64 | parametricCurve exactly when version is at least 4, the segment count is 1 and the segment type is 0 to 5; curve otherwise |
| InternalTags.DecideTextDescType | src/internal/tags.rs:66-71 | multiLocalizedUnicode exactly from version 4, textDescription before it |
| InternalTags.DecideCurveExamples | src/internal/tags.rs:47-64 | version 3.9 always gives curve; version 4.1 gives parametricCurve for [1, 0] and curve for [2, 0] |
| InternalTags.SupportedTagsShape | src/internal/tags.rs:73-390 | 64 entries, each with at least one supported type; element count 9 exactly for chad, the multilingual profile description and Argyll arts, and 1 for every other tag |
| InternalTags.SupportedTagsDecisions | src/internal/tags.rs:73-390 | whatever an entry's decide function returns is one of that entry's supported types |
| InternalTags.SupportedTagsNamedEntries | src/internal/tags.rs:192-268 | chad and the two last entries hold nine elements; the media black and white points accept XYZ and the Corbis broken XYZ, with no decide function |
| PluginTags.DefaultsAreEmpty | src/plugin/tags.rs:9-32 | the default descriptor has no elements, no types and no decide function; the default item has signature four spaces |
| PluginTags.TagListItem3 | src/plugin/mod.rs:416-426 | the three-argument macro builds an item with those fields and no decide function |
| PluginTags.TagListItem4 | src/plugin/mod.rs:427-437 | the four-argument macro builds an item with those fields and that decide function |
| Chunks.Lookup | src/plugin/chunks.rs:29-36 | None exactly when no item has the signature; otherwise the index of the first item that has it |
| Chunks.LookupAppend | src/plugin/chunks.rs:29-36 | appending an item never changes an existing match, and a new signature is found at the appended item |
| Chunks.LogErrorChunk.constructor | src/plugin/chunks.rs:10-16 | the handler is the given one, or the default handler when none is given |
| Chunks.TagPluginChunk.constructor | src/plugin/chunks.rs:23-28 | a new chunk has no tags |
| Chunks.TagPluginChunk.GetTagDescriptor | src/plugin/chunks.rs:29-36 | the loop returns the descriptor of the first item with the signature, and None when there is none |
| Context.Context.RegisterTagPlugin | src/plugin/context.rs:12-28 | always returns true; None clears the list; Some appends one item, and every signature found before is still found at the same place |
| Context.Context.SetLogErrorHandler | src/plugin/context.rs:33-38 | installs the given handler or the default one, and leaves the tag list alone |
| RoundTrips.RegisterTwiceKeepsFirst | src/plugin/context.rs:12-28 | registering the same signature twice keeps the first descriptor visible through the chunk lookup |
| RoundTrips.U8WriteRead | src/plugin/mod.rs:46-54 | a byte written to a stream reads back unchanged |
| RoundTrips.U16WriteRead | src/plugin/mod.rs:56-68 | a u16 written to a stream reads back unchanged, in either byte order |
| RoundTrips.U32WriteRead | src/plugin/mod.rs:79-89 | a u32 written to a stream reads back unchanged, in either byte order |
| RoundTrips.U64WriteRead | src/plugin/mod.rs:105-117 | a u64 written to a stream reads back unchanged, in either byte order |
| RoundTrips.U16ArrayWriteRead | src/plugin/mod.rs:70-77 | a u16 array written to a stream reads back unchanged |
| RoundTrips.XyzWriteRead | src/internal/types.rs:11-29 | the XYZ handler pair returns the quantised value |
| RoundTrips.ChromaticityWriteReadAsWritten | src/internal/types.rs:31-66 | the as-written chromaticity handlers return red three times |
| RoundTrips.ChromaticityWriteRead | src/internal/types.rs:31-66 | the corrected chromaticity handlers return the quantised primaries |
| RoundTrips.ColorantOrderWriteRead | src/internal/types.rs:68-111 | the colorant-order handlers return a valid order unchanged |
| RoundTrips.DataWriteRead | src/internal/types.rs:210-247 | the data handlers return a well-formed item unchanged, with the length stored as a u32 |
| RoundTrips.TextWriteRead | src/internal/types.rs:177-208 | the text handlers return the terminated text |
| RoundTrips.TagBaseWireWriteRead | src/plugin/tag_base.rs:28-58 | the corrected header writer and the reader agree |
| RoundTrips.TextDescriptionAsciiOnly | src/internal/types.rs:249-317 | on the five-byte tag, the as-written reader fails and the corrected one succeeds |
| NamedColorLists.TruncateName | src/internal/named_color_list.rs:31-34 | names of at least 256 bytes are cut to their first 256; shorter names are kept |
| NamedColorLists.TruncateNameIdempotent | src/internal/named_color_list.rs:31-34 | a truncated name is at most 256 bytes and truncating it again changes nothing |
| NamedColorLists.PrefixAtBoundary | src/internal/named_color_list.rs:32 | cutting valid UTF-8 at a character boundary leaves valid UTF-8 |
| NamedColorLists.ZeroColorant | src/internal/named_color_list.rs:28 | the default colorant is sixteen zeros |
| NamedColorLists.NamedColorList.Append | src/internal/named_color_list.rs:22-41 | pushes one colour with the truncated name, the given PCS and colorant when they are Some and zeros when they are None; the count grows by one; earlier colours and the header are unchanged |
| NamedColorLists.NamedColorList.Count | src/internal/named_color_list.rs:43-45 | an index is below the count exactly when Get finds a colour there |
| NamedColorLists.NamedColorList.Get | src/internal/named_color_list.rs:47-52 | the colour at the index when it exists, otherwise None |
| PixelTypes.SetBitsSlots | src/pixel_type.rs:10-47 | each field sets only its own bit slot, masked to the slot's width |
| PixelTypes.PackAppend | src/pixel_type.rs:50-58 | packing a field list is the OR of packing its parts |
| PixelTypes.PackOrder | src/pixel_type.rs:50-58 | the order of fields does not matter |
| PixelTypes.PackRecovers | src/pixel_type.rs:10-58 | a slot set by exactly one field reads back as that field's masked value |
| PixelTypes.ColorSpaceOf | src/pixel_type.rs:284-316 | codes 3 to 30 map to the colour space with that code; every other code gives Any |
| PixelTypes.ColorSpaceCodeRoundTrip | src/pixel_type.rs:284-316 | decoding a colour space's own code gives that colour space |
| Lcms.FromCode | src/pixel_type.rs:284-316 | a code from 3 to 30 gives the colour space whose discriminant it is; any other code gives Any |
| Lcms.FromCodeRoundTrip | src/lib.rs:155-187 | every colour space, Any included, comes back from its own discriminant |
| PixelTypes.SetColorSpaceRoundTrip | src/pixel_type.rs:280-316 | after setting a colour space it reads back, and every other slot is unchanged |
| PixelTypes.PixelType.ColorSpace | src/pixel_type.rs:284-316 | the accessor decodes the colour-space slot of the word |
| PixelTypes.PixelType.SetColorSpace | src/pixel_type.rs:280-282 | replaces the colour-space slot; ColorSpace() then returns the new space and no other slot changes |
| PixelFormats.Gray8Value | src/pixel_type.rs:62 | GRAY_8 is 0x30009 |
| PixelFormats.YuvkAliases | src/pixel_type.rs:123-128 | YUVK_8 and YUVK_16 are the reversed CMYK formats |
| PixelFormats.DoubleFormat | src/pixel_type.rs:260-261 | any float format declared with bps 0 has a zero bytes field and the float flag set |
| PixelFormats.XyzDblFormat | src/pixel_type.rs:262 | XYZ_DBL has bytes field 0 and the float flag set |
| PixelFormats.LabDblFormat | src/pixel_type.rs:263 | LAB_DBL has bytes field 0 and the float flag set |
| PixelFormats.GrayDblFormat | src/pixel_type.rs:264 | GRAY_DBL has bytes field 0 and the float flag set |
| PixelFormats.RgbDblFormat | src/pixel_type.rs:265 | RGB_DBL has bytes field 0 and the float flag set |
| PixelFormats.BgrDblFormat | src/pixel_type.rs:266 | BGR_DBL has bytes field 0 and the float flag set |
| PixelFormats.CmykDblFormat | src/pixel_type.rs:267 | CMYK_DBL has bytes field 0 and the float flag set |
| PixelFormats.BpsEightOverflows | src/pixel_type.rs:45-47 | a bps of 8 does not fit the three-bit field and packs to 0 |
| PixelFormats.Bgra16SeOrder | src/pixel_type.rs:113 | BGRA_16_SE is BGRA_16 with the endian16 flag |
| PixelFormats.Gray8ColorSpace | src/pixel_type.rs:62 | the colour space read from GRAY_8 is Gray |
| PixelFormats.Cmyk16SeColorSpace | src/pixel_type.rs:130 | the colour space read from CMYK_16_SE is Cmyk |
| PixelFormats.NamedColorIndexColorSpace | src/pixel_type.rs:237 | NAMED_COLOR_INDEX declares no colour space, so it reads as Any |

## Left out

- The s15Fixed16-array and u16Fixed16-array handlers (`src/internal/types.rs:113-164`) are
  left out; their signatures are in the handler table. Both readers allocate `n` bytes for `n`
  elements and then copy eight bytes at offset `4 * i`, so for `n >= 1` they panic unless a
  short stream makes a read fail first (`s15_f16_read` indexes before it reads, so for `n < 8`
  it panics before any read). `s15_f16_write` takes overlapping eight-byte windows at
  stride four and panics only when `items` is shorter than `4 * count + 4` bytes.
  `u16_f16_write` is coherent (eight-byte windows at stride eight, rounded and written as u32)
  but is left out with its reader, which only ever returns an empty buffer or fails.
- `read_f32`, `read_f64`, `write_f32` and `write_f64` are left out. The model does not cover
  IEEE 754 bit patterns, NaN or rounding: `f64` is a real number, and the `as i32` cast in
  `f64_to_s15f16` is modelled as floor-then-saturate.
- The handlers' item buffers carry `f64` values in native byte order. The model carries the
  real values directly, so the layout of those buffers is not modelled.
- `Arc<Mutex<…>>` locking in `Context` is not modelled: the chunks are plain objects. The log
  error handler is a name, and calling it is not modelled.
- The text description writer is left out because it is commented out in the source.
- `mat3`, `vec3`, `fast_floor`, the MLU type, the `Debug`/`Display`/`Hash` impls and the plugin
  list walk are not part of this model.
- `MAX_PATH` and `PixelType`'s `_color_space`/`_set_color_space` helpers are not defined in the
  files modelled. The model takes `MAX_PATH = 256` and a colour-space field in bits 16 to 20, as
  the pixel-type macro writes it.
- The `tag` and `tag_type` signature modules are not part of this model. Their constants take
  the FourCC values of the ICC.1:2010 profile format, plus the Corbis (0x17A505B8) and Monaco
  (0x9478EE00) workaround codes.
- In `DecideLutTypeAToB`, `DecideLutTypeBToA` and `DecideCurveType`, the preconditions on the
  data length stand in for a slice-index panic in the source.
- `InternalTypes.TextWrite`: its precondition excludes an empty buffer, where the source panics
  on `items[items.len() - 1]`.
- `InternalTypes.SignatureWrite` and `InternalTypes.DataWrite`: their preconditions on the item
  length stand in for slice panics in the source.
- `InternalTypes.DataDecoded`, `InternalTypes.DataRead`, `InternalTypes.DataRoundTrip` and
  `RoundTrips.DataWriteRead` store the length as `len_of_data as u32`. This is the source on a
  host with a four-byte `usize`. On an eight-byte host the source panics in `copy_from_slice`,
  and only `InternalTypes.DataDecodedOnHost` models that (see "## Findings").
- `Plugin.S15F16ToF64` follows a release build at i32::MIN, where `S15F16::abs` wraps; a debug
  build panics there instead.
- `NamedColorLists.NamedColorList.Append`: its precondition excludes names whose 256th byte is
  not a character boundary. At such a boundary the source's string slice panics.
- `InternalTypes.ColorantOrderDecoded`: the decoded buffer is exactly `count` bytes long. It is
  not padded with 0xFF to 16 bytes, because `vec![0xFF; count]` allocates only `count` bytes.
- `InternalTypes.ColorantOrderWrite`: more than 16 entries are capped to 16 and written, not
  rejected. `Signatures.ToString` prints four spaces for bytes that are not UTF-8, not a hex
  form. Both follow the code rather than the library's documentation.
- `InternalTypes.TextDescriptionRead` and `InternalTypes.SkipTextDescriptionTrailer` compute
  `unicode_count * SIZE_U16` without bounds, as on a host with a 64-bit `usize`. On a host with
  a four-byte `usize` that product can wrap; only the number of bytes consumed would differ.
- `InternalTypes.ColorantOrderDecoded` returns InvalidData for a count above 16. The source
  allocates `vec![0xFF; count]` before that check, so a huge count can abort on allocation first;
  the model does not capture allocation failure.

## Findings

| source | as written | input that shows it | evidently intended | confidence | as-written member | corrected member |
|---|---|---|---|---|---|---|
| src/internal/types.rs:61-63 | `chromaticity_write` saves the red primary three times | primaries red (0.5, 0.25), green (0.25, 0.5), blue (0.125, 0.0625): reading back gives green x = 0.5 | save red, green and blue in turn | high, not executed | InternalTypes.ChromaticityAsWrittenCounterexample | InternalTypes.ChromaticityRoundTrip |
| src/internal/types.rs:267-268 | `text_description_read` reads `tag_size + 1` bytes with `read_exact`, whatever the ASCII count | a stream holding count 1 and then "A", with tag_size 5: fails with UnexpectedEof although the text is complete | read the `ascii_count` bytes of text into the zeroed buffer | medium, not executed | InternalTypes.TextDescriptionAsWrittenCounterexample | InternalTypes.TextDescriptionCorrectedReadsAscii |
| src/plugin/tag_base.rs:34-55 | `read` decodes the type signature as big-endian, but `write` emits it with `write_u32` in the configured stream order | little-endian stream, header of type XYZ 0x58595A20: reads back as 0x205A5958 | write the signature in ICC (big-endian) order, as `read` expects | medium, not executed | TagBase.LittleEndianWriteMisreads | TagBase.WireRoundTrip |
| src/internal/types.rs:219-224 | `data_read` copies `len_of_data.to_ne_bytes()` of a `usize` into the four-byte `length` slot | any tag_size of 4 or more on a host with an eight-byte `usize`: `copy_from_slice` gets eight bytes for four and panics | store `(len_of_data as u32).to_ne_bytes()` | high, not executed | InternalTypes.DataRoundTripOnHosts | InternalTypes.DataRoundTrip |
