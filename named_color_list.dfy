/** The named-colour list: colour names with their PCS values and device colorants, in the
    order they were appended. */
module NamedColorLists {
  import opened ByteCodec
  import opened Lcms
  import opened Signatures
  import opened Options

  /** Longest name kept (`MAX_PATH`, which is not part of this model; the C library's value). */
  const MAX_PATH: nat := 256

  type Pcs = s: seq<u16> | |s| == 3 witness [0, 0, 0]
  type Colorant = s: seq<u16> | |s| == MAX_CHANNELS witness [0, 0, 0, 0, 0, 0, 0, 0, 0, 0, 0, 0, 0, 0, 0, 0]

  datatype NamedColor = NamedColor(name: Utf8String, pcs: Pcs, deviceColorant: Colorant)

  /** Whether byte offset `k` of a string starts a character or is its end (`str::is_char_boundary`). */
  predicate IsCharBoundary(s: seq<byte>, k: nat)
  {
    k == 0 || k == |s| || (k < |s| && !IsContinuation(s[k]))
  }

  /** The bytes after the first of a well-formed character are continuation bytes. */
  lemma LeadTail(s: seq<byte>, j: nat)
    requires |s| > 0 && 0 < j < LeadLength(s)
    ensures IsContinuation(s[j])
  {
  }

  /** A character's length depends only on its own bytes. */
  lemma LeadLengthPrefix(s: seq<byte>, k: nat)
    requires |s| > 0 && 0 < LeadLength(s) <= k <= |s|
    ensures LeadLength(s[..k]) == LeadLength(s)
  {
    assert s[..k][0] == s[0];
    if k >= 2 {
      assert s[..k][1] == s[1];
    }
    if k >= 3 {
      assert s[..k][2] == s[2];
    }
    if k >= 4 {
      assert s[..k][3] == s[3];
    }
  }

  /** Cutting a well-formed string at a character boundary leaves a well-formed string. */
  lemma {:induction false} PrefixAtBoundary(s: seq<byte>, k: nat)
    requires ValidUtf8(s) && k <= |s| && IsCharBoundary(s, k)
    ensures ValidUtf8(s[..k])
    decreases |s|
  {
    if k > 0 {
      var n := LeadLength(s);
      if k < n {
        LeadTail(s, k);
      }
      LeadLengthPrefix(s, k);
      assert s[..k][n..] == s[n..][..k - n];
      if k < |s| {
        assert s[n..][k - n] == s[k];
      }
      PrefixAtBoundary(s[n..], k - n);
    }
  }

  /** The name `append` stores: a name of `MAX_PATH` bytes or more is cut to its first
      `MAX_PATH` bytes, which must end on a character boundary (the source panics otherwise). */
  function TruncateName(name: Utf8String): (r: Utf8String)
    requires |name| < MAX_PATH || IsCharBoundary(name, MAX_PATH)
    ensures |name| >= MAX_PATH ==> r == name[..MAX_PATH] && |r| == MAX_PATH
    ensures |name| < MAX_PATH ==> r == name
  {
    if |name| >= MAX_PATH then
      PrefixAtBoundary(name, MAX_PATH);
      name[..MAX_PATH]
    else name
  }

  /** Truncating twice is truncating once. */
  lemma TruncateNameIdempotent(name: Utf8String)
    requires |name| < MAX_PATH || IsCharBoundary(name, MAX_PATH)
    ensures |TruncateName(name)| <= MAX_PATH
    ensures TruncateName(TruncateName(name)) == TruncateName(name)
  {
  }

  function ZeroColorant(): (c: Colorant)
    ensures forall i | 0 <= i < MAX_CHANNELS :: c[i] == 0
  {
    [0, 0, 0, 0, 0, 0, 0, 0, 0, 0, 0, 0, 0, 0, 0, 0]
  }

  /** `NamedColorList`. */
  class NamedColorList {
    var numColors: u32
    var colorantCount: u32
    var prefix: Utf8String
    var suffix: Utf8String
    var list: seq<NamedColor>

    /** The struct built with the given header fields and no colours. */
    constructor (numColors: u32, colorantCount: u32, prefix: Utf8String, suffix: Utf8String)
      ensures this.numColors == numColors && this.colorantCount == colorantCount
      ensures this.prefix == prefix && this.suffix == suffix && list == []
    {
      this.numColors := numColors;
      this.colorantCount := colorantCount;
      this.prefix := prefix;
      this.suffix := suffix;
      list := [];
    }

    /** `append`: one entry at the end, with the name truncated and the missing PCS and
        colorant values zero; the header fields stay as they are. */
    method Append(name: Utf8String, pcs: Option<Pcs>, colorant: Option<Colorant>)
      requires |name| < MAX_PATH || IsCharBoundary(name, MAX_PATH)
      modifies this
      ensures list == old(list) + [NamedColor(TruncateName(name),
                                              if pcs.Some? then pcs.value else [0, 0, 0],
                                              if colorant.Some? then colorant.value else ZeroColorant())]
      ensures Count() == old(Count()) + 1
      ensures forall i | 0 <= i < old(Count()) :: Get(i) == old(Get(i))
      ensures numColors == old(numColors) && colorantCount == old(colorantCount)
      ensures prefix == old(prefix) && suffix == old(suffix)
    {
      var deviceColorant := if colorant.Some? then colorant.value else ZeroColorant();
      var pcsValue: Pcs := if pcs.Some? then pcs.value else [0, 0, 0];
      var stored := if |name| >= MAX_PATH then name[..MAX_PATH] else name;
      assert stored == TruncateName(name);
      list := list + [NamedColor(stored, pcsValue, deviceColorant)];
    }

    /** `count`: the number of entries, which is exactly the range of indices `get` answers. */
    function Count(): (n: nat)
      reads this
      ensures forall i: nat :: i < n <==> Get(i).Some?
    {
      |list|
    }

    /** `get`: the entry at `colorNumber`, or None past the end. */
    function Get(colorNumber: nat): (r: Option<NamedColor>)
      reads this
      ensures colorNumber < |list| ==> r == Some(list[colorNumber])
      ensures colorNumber >= |list| ==> r == None
    {
      if colorNumber < |list| then Some(list[colorNumber]) else None
    }
  }
}
