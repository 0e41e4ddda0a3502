/** The byte-swap helpers compiled for little-endian hosts: a value's little-endian bytes read
    back as big-endian, which reverses its bytes. */
module LittleEndian {
  import opened ByteCodec

  /** The value whose `n` bytes are those of `v` in reverse order. */
  function Swapped(v: nat, n: nat): (r: nat)
    ensures r < Pow256(n)
  {
    Decode(BigEndian, Encode(LittleEndian, v, n))
  }

  /** `adjust_endianness_16`. */
  function AdjustEndianness16(word: u16): (r: u16)
    ensures Encode(BigEndian, r, 2) == Reverse(Encode(BigEndian, word, 2))
  {
    Pow256Values();
    SwappedBytes(word, 2);
    Swapped(word, 2)
  }

  /** `adjust_endianness_32`. */
  function AdjustEndianness32(dword: u32): (r: u32)
    ensures Encode(BigEndian, r, 4) == Reverse(Encode(BigEndian, dword, 4))
  {
    Pow256Values();
    SwappedBytes(dword, 4);
    Swapped(dword, 4)
  }

  /** `adjust_endianness_64`. */
  function AdjustEndianness64(qword: u64): (r: u64)
    ensures Encode(BigEndian, r, 8) == Reverse(Encode(BigEndian, qword, 8))
  {
    Pow256Values();
    SwappedBytes(qword, 8);
    Swapped(qword, 8)
  }

  /** The big-endian bytes of the swapped value are the reversed big-endian bytes of the value. */
  lemma SwappedBytes(v: nat, n: nat)
    ensures Encode(BigEndian, Swapped(v, n), n) == Reverse(Encode(BigEndian, v, n))
  {
    EncodeDecode(BigEndian, Encode(LittleEndian, v, n));
  }

  /** Swapping twice gives the value back. */
  lemma {:induction false} SwappedInvolution(v: nat, n: nat)
    requires v < Pow256(n)
    ensures Swapped(Swapped(v, n), n) == v
  {
    var once := Swapped(v, n);
    SwappedBytes(once, n);
    SwappedBytes(v, n);
    ReverseInvolution(Encode(BigEndian, v, n));
    DecodeEncode(BigEndian, v, n);
    EncodeOrders(once, n);
  }

  lemma AdjustEndiannessInvolutions(word: u16, dword: u32, qword: u64)
    ensures AdjustEndianness16(AdjustEndianness16(word)) == word
    ensures AdjustEndianness32(AdjustEndianness32(dword)) == dword
    ensures AdjustEndianness64(AdjustEndianness64(qword)) == qword
  {
    Pow256Values();
    SwappedInvolution(word, 2);
    SwappedInvolution(dword, 4);
    SwappedInvolution(qword, 8);
  }

  /** The two bytes of 0x1234 trade places. */
  lemma AdjustEndianness16Example()
    ensures AdjustEndianness16(0x1234) == 0x3412
  {
    var b := Encode(BigEndian, 0x1234, 2);
    assert b == [0x12, 0x34];
    var r := AdjustEndianness16(0x1234);
    assert Encode(BigEndian, r, 2) == [0x34, 0x12];
    Pow256Values();
    BeValueOfBytes(r, 2);
    assert [0x34, 0x12][..1] == [0x34];
  }
}
