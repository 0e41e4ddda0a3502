/** The four-byte identifier (FourCC) naming tags, tag types and everything else in a profile,
    with its conversions to and from integers, byte arrays, byte slices and strings. */
module Signatures {
  import opened ByteCodec

  /** A signature holds its four bytes as one big-endian 32-bit value. */
  datatype Signature = Signature(value: u32)

  type Bytes4 = s: seq<byte> | |s| == 4 witness [0, 0, 0, 0]
  type Bytes3 = s: seq<byte> | |s| == 3 witness [0, 0, 0]
  type Bytes2 = s: seq<byte> | |s| == 2 witness [0, 0]
  type Bytes1 = s: seq<byte> | |s| == 1 witness [0]

  const SPACE: byte := 0x20
  const SPACES: Bytes4 := [SPACE, SPACE, SPACE, SPACE]

  /** `From<Signature> for [u8; 4]`: the four bytes, first byte most significant. */
  function ToBytes(s: Signature): (b: Bytes4)
    ensures BeValue(b) == s.value
  {
    Pow256Values();
    BeValueOfBytes(s.value, 4);
    BeBytes(s.value, 4)
  }

  /** `Signature::new` and `From<&[u8; 4]>`: the big-endian value of the four bytes. */
  function New(b: Bytes4): (s: Signature)
    ensures ToBytes(s) == b
  {
    Pow256Values();
    BeBytesOfValue(b);
    Signature(BeValue(b))
  }

  /** `Default`: four spaces. */
  function Default(): (s: Signature)
    ensures s.value == 0x2020_2020 && ToBytes(s) == SPACES
  {
    BeValue4(SPACES);
    New(SPACES)
  }

  /** `From<u32> for Signature`. */
  function FromU32(v: u32): (s: Signature)
    ensures BeValue(ToBytes(s)) == v
  {
    Signature(v)
  }

  /** `From<Signature> for u32`. */
  function ToU32(s: Signature): (v: u32)
    ensures FromU32(v) == s
  {
    s.value
  }

  /** The integer conversions are inverse to each other. */
  lemma U32RoundTrip(v: u32, s: Signature)
    ensures ToU32(FromU32(v)) == v && FromU32(ToU32(s)) == s
  {
  }

  /** Converting bytes to a signature and back gives the bytes; a signature's bytes give it back. */
  lemma {:induction false} BytesRoundTrip(b: Bytes4, s: Signature)
    ensures ToBytes(New(b)) == b
    ensures New(ToBytes(s)) == s
  {
    Pow256Values();
    BeValueOfBytes(s.value, 4);
  }

  /** A short array, right-padded with spaces to four bytes. */
  function Padded(b: seq<byte>): (r: Bytes4)
    requires |b| <= 4
    ensures r[..|b|] == b && forall i | |b| <= i < 4 :: r[i] == SPACE
  {
    b + SPACES[|b|..]
  }

  /** `From<&[u8; 3]>`. */
  function FromBytes3(b: Bytes3): (s: Signature)
    ensures ToBytes(s) == b + [SPACE]
  {
    New(Padded(b))
  }

  /** `From<&[u8; 2]>`. */
  function FromBytes2(b: Bytes2): (s: Signature)
    ensures ToBytes(s) == b + [SPACE, SPACE]
  {
    New(Padded(b))
  }

  /** `From<&[u8; 1]>`. */
  function FromBytes1(b: Bytes1): (s: Signature)
    ensures ToBytes(s) == b + [SPACE, SPACE, SPACE]
  {
    New(Padded(b))
  }

  /** `From<&[u8]>`: empty gives four zero bytes (not spaces), one to three bytes are
      space-padded, and of a longer slice only the first four bytes count. */
  function FromSlice(b: seq<byte>): (s: Signature)
    ensures |b| == 0 ==> ToBytes(s) == [0, 0, 0, 0] && s.value == 0
    ensures 1 <= |b| <= 3 ==> ToBytes(s)[..|b|] == b && forall i | |b| <= i < 4 :: ToBytes(s)[i] == SPACE
    ensures |b| >= 4 ==> ToBytes(s) == b[..4]
  {
    if |b| == 0 then
      BeValue4([0, 0, 0, 0]);
      New([0, 0, 0, 0])
    else if |b| <= 3 then New(Padded(b))
    else New(b[..4])
  }

  // ----- Strings -----
  // A Rust `String` / `&str` is its UTF-8 bytes, which are always well formed.

  predicate IsContinuation(b: byte)
  {
    0x80 <= b <= 0xBF
  }

  /** The length of the well-formed UTF-8 sequence that starts `s` (table 3-7 of the Unicode
      Standard, which `std::str::from_utf8` follows), or 0 when `s` does not start with one. */
  function LeadLength(s: seq<byte>): (n: nat)
    requires |s| > 0
    ensures n <= 4 && n <= |s|
  {
    var b := s[0];
    if b <= 0x7F then 1
    else if 0xC2 <= b <= 0xDF then
      if |s| >= 2 && IsContinuation(s[1]) then 2 else 0
    else if 0xE0 <= b <= 0xEF then
      var lo := if b == 0xE0 then 0xA0 else 0x80;
      var hi := if b == 0xED then 0x9F else 0xBF;
      if |s| >= 3 && lo <= s[1] <= hi && IsContinuation(s[2]) then 3 else 0
    else if 0xF0 <= b <= 0xF4 then
      var lo := if b == 0xF0 then 0x90 else 0x80;
      var hi := if b == 0xF4 then 0x8F else 0xBF;
      if |s| >= 4 && lo <= s[1] <= hi && IsContinuation(s[2]) && IsContinuation(s[3]) then 4 else 0
    else 0
  }

  predicate ValidUtf8(s: seq<byte>)
    decreases |s|
  {
    s == [] || (LeadLength(s) > 0 && ValidUtf8(s[LeadLength(s)..]))
  }

  type Utf8String = s: seq<byte> | ValidUtf8(s) witness []

  predicate IsAscii(s: seq<byte>)
  {
    forall i | 0 <= i < |s| :: s[i] <= 0x7F
  }

  /** Every ASCII byte sequence is a well-formed string. */
  lemma {:induction false} AsciiIsUtf8(s: seq<byte>)
    requires IsAscii(s)
    ensures ValidUtf8(s)
  {
    if s != [] {
      assert LeadLength(s) == 1;
      assert IsAscii(s[1..]) by {
        forall i | 0 <= i < |s| - 1 ensures s[1..][i] <= 0x7F {
          assert s[1..][i] == s[i + 1];
        }
      }
      AsciiIsUtf8(s[1..]);
    }
  }

  /** `From<Signature> for String`: the four bytes when they form valid UTF-8, otherwise four spaces. */
  function ToString(s: Signature): (r: Utf8String)
    ensures |r| == 4
    ensures ValidUtf8(ToBytes(s)) ==> r == ToBytes(s)
    ensures !ValidUtf8(ToBytes(s)) ==> r == SPACES
  {
    var b := ToBytes(s);
    if ValidUtf8(b) then b
    else
      AsciiIsUtf8(SPACES);
      SPACES
  }

  /** `From<&str>`: the signature of the string's bytes. */
  function FromStr(s: Utf8String): (r: Signature)
    ensures r == FromSlice(s)
  {
    FromSlice(s)
  }

  /** A signature that prints as itself converts back from its string; any other comes back as the default. */
  lemma StringRoundTrip(s: Signature)
    ensures ValidUtf8(ToBytes(s)) ==> FromStr(ToString(s)) == s
    ensures !ValidUtf8(ToBytes(s)) ==> FromStr(ToString(s)) == Default()
  {
    BytesRoundTrip(ToBytes(s), s);
    assert ToString(s)[..4] == ToString(s);
  }

  /** Signatures made of printable ASCII characters always print as themselves. */
  lemma AsciiSignaturePrints(s: Signature)
    requires IsAscii(ToBytes(s))
    ensures ToString(s) == ToBytes(s)
  {
    AsciiIsUtf8(ToBytes(s));
  }
}
