/** Packed pixel formats: a 32-bit word whose bit ranges hold the bytes per sample, the channel
    and extra-channel counts, the colour-space code and a set of one-bit flags. */
module PixelTypes {
  import opened Lcms

  /** One argument of the `PixelType!` macro. */
  datatype Field =
    | Premul | Float | Optimized | ColorSpaceField(space: ColorSpace) | SwapFirst | MinIsWhite
    | Planar | Endian16 | DoSwap | Extra(extra: bv32) | Channels(channels: bv32) | Bps(bps: bv32)

  /** The bit ranges of a packed format. */
  datatype Slot =
    | BpsSlot | ChannelsSlot | ExtraSlot | DoSwapSlot | Endian16Slot | PlanarSlot | MinIsWhiteSlot
    | SwapFirstSlot | ColorSpaceSlot | OptimizedSlot | FloatSlot | PremulSlot
  {
    /** The largest value the range holds. */
    function Mask(): (m: bv32)
      ensures m == 1 || m == 7 || m == 15 || m == 31
    {
      match this
      case BpsSlot => 7
      case ChannelsSlot => 15
      case ExtraSlot => 7
      case ColorSpaceSlot => 31
      case _ => 1
    }
  }

  /** `cs as u32`: the discriminant of a colour space as a 32-bit word. */
  function SpaceBits(cs: ColorSpace): (b: bv32)
    ensures b <= 30 && b & 31 == b
  {
    match cs
    case Any => 0
    case Gray => 3
    case Rgb => 4
    case Cmy => 5
    case Cmyk => 6
    case YCbCr => 7
    case Yuv => 8
    case Xyz => 9
    case Lab => 10
    case Yuvk => 11
    case Hsv => 12
    case Hls => 13
    case Yxy => 14
    case Mch1 => 15
    case Mch2 => 16
    case Mch3 => 17
    case Mch4 => 18
    case Mch5 => 19
    case Mch6 => 20
    case Mch7 => 21
    case Mch8 => 22
    case Mch9 => 23
    case Mch10 => 24
    case Mch11 => 25
    case Mch12 => 26
    case Mch13 => 27
    case Mch14 => 28
    case Mch15 => 29
    case LabV2 => 30
  }

  /** The word `SpaceBits` gives is the discriminant. */
  lemma SpaceBitsCode(cs: ColorSpace)
    ensures SpaceBits(cs) as int == cs.Code()
  {
  }

  /** The bit range a macro argument fills. */
  function SlotOf(f: Field): Slot
  {
    match f
    case Premul => PremulSlot
    case Float => FloatSlot
    case Optimized => OptimizedSlot
    case ColorSpaceField(_) => ColorSpaceSlot
    case SwapFirst => SwapFirstSlot
    case MinIsWhite => MinIsWhiteSlot
    case Planar => PlanarSlot
    case Endian16 => Endian16Slot
    case DoSwap => DoSwapSlot
    case Extra(_) => ExtraSlot
    case Channels(_) => ChannelsSlot
    case Bps(_) => BpsSlot
  }

  /** The number a macro argument stands for, before it is masked: 1 for a flag, the
      discriminant for a colour space. */
  function ValueOf(f: Field): bv32
  {
    match f
    case ColorSpaceField(cs) => SpaceBits(cs)
    case Extra(n) => n
    case Channels(n) => n
    case Bps(n) => n
    case _ => 1
  }

  /** The `(set ...)` arms of `PixelType!`: each value is masked to the width of its range and
      then shifted into place. */
  function SetBits(f: Field): bv32
  {
    match f
    case Premul => 1 << 23
    case Float => 1 << 22
    case Optimized => 1 << 21
    case ColorSpaceField(cs) => ((SpaceBits(cs)) & 31) << 16
    case SwapFirst => 1 << 14
    case MinIsWhite => 1 << 13
    case Planar => 1 << 12
    case Endian16 => 1 << 11
    case DoSwap => 1 << 10
    case Extra(n) => (n & 7) << 7
    case Channels(n) => (n & 15) << 3
    case Bps(n) => n & 7
  }

  /** `PixelType!` over a list of arguments: the OR of their `(set ...)` values. */
  function Pack(fields: seq<Field>): bv32
  {
    if fields == [] then 0 else SetBits(fields[0]) | Pack(fields[1..])
  }

  /** Shift-and-mask: the content of one bit range. */
  function Get(v: bv32, s: Slot): (r: bv32)
    ensures r & s.Mask() == r
  {
    match s
    case BpsSlot => v & 7
    case ChannelsSlot => (v >> 3) & 15
    case ExtraSlot => (v >> 7) & 7
    case DoSwapSlot => (v >> 10) & 1
    case Endian16Slot => (v >> 11) & 1
    case PlanarSlot => (v >> 12) & 1
    case MinIsWhiteSlot => (v >> 13) & 1
    case SwapFirstSlot => (v >> 14) & 1
    case ColorSpaceSlot => (v >> 16) & 31
    case OptimizedSlot => (v >> 21) & 1
    case FloatSlot => (v >> 22) & 1
    case PremulSlot => (v >> 23) & 1
  }

  /** Each argument lands in its own range, masked, and leaves every other range zero. */
  lemma SetBitsSlots(f: Field, s: Slot)
    ensures Get(SetBits(f), s) == if s == SlotOf(f) then ValueOf(f) & s.Mask() else 0
  {
    match f
    case Premul => FlagSlots(f, s);
    case Float => FlagSlots(f, s);
    case Optimized => FlagSlots(f, s);
    case SwapFirst => FlagSlots(f, s);
    case MinIsWhite => FlagSlots(f, s);
    case Planar => FlagSlots(f, s);
    case Endian16 => FlagSlots(f, s);
    case DoSwap => FlagSlots(f, s);
    case ColorSpaceField(cs) => ColorSpaceFieldSlots(cs, s);
    case Extra(n) => ExtraSlots(n, s);
    case Channels(n) => ChannelsSlots(n, s);
    case Bps(n) => BpsSlots(n, s);
  }

  /** A flag sets the one bit of its own range. */
  lemma FlagSlots(f: Field, s: Slot)
    requires f.Premul? || f.Float? || f.Optimized? || f.SwapFirst? || f.MinIsWhite? || f.Planar? ||
             f.Endian16? || f.DoSwap?
    ensures Get(SetBits(f), s) == if s == SlotOf(f) then 1 else 0
  {
    match f
    case Premul => PremulSlots(s);
    case Float => FloatSlots(s);
    case Optimized => OptimizedSlots(s);
    case SwapFirst => SwapFirstSlots(s);
    case MinIsWhite => MinIsWhiteSlots(s);
    case Planar => PlanarSlots(s);
    case Endian16 => Endian16Slots(s);
    case DoSwap => DoSwapSlots(s);
  }

  lemma PremulSlots(s: Slot)
    ensures Get(SetBits(Premul), s) == if s == PremulSlot then 1 else 0
  {
  }

  lemma FloatSlots(s: Slot)
    ensures Get(SetBits(Float), s) == if s == FloatSlot then 1 else 0
  {
  }

  lemma OptimizedSlots(s: Slot)
    ensures Get(SetBits(Optimized), s) == if s == OptimizedSlot then 1 else 0
  {
  }

  lemma SwapFirstSlots(s: Slot)
    ensures Get(SetBits(SwapFirst), s) == if s == SwapFirstSlot then 1 else 0
  {
  }

  lemma MinIsWhiteSlots(s: Slot)
    ensures Get(SetBits(MinIsWhite), s) == if s == MinIsWhiteSlot then 1 else 0
  {
  }

  lemma PlanarSlots(s: Slot)
    ensures Get(SetBits(Planar), s) == if s == PlanarSlot then 1 else 0
  {
  }

  lemma Endian16Slots(s: Slot)
    ensures Get(SetBits(Endian16), s) == if s == Endian16Slot then 1 else 0
  {
  }

  lemma DoSwapSlots(s: Slot)
    ensures Get(SetBits(DoSwap), s) == if s == DoSwapSlot then 1 else 0
  {
  }

  lemma ColorSpaceFieldSlots(cs: ColorSpace, s: Slot)
    ensures Get(SetBits(ColorSpaceField(cs)), s) == if s == ColorSpaceSlot then SpaceBits(cs) & 31 else 0
  {
  }

  lemma ExtraSlots(n: bv32, s: Slot)
    ensures Get(SetBits(Extra(n)), s) == if s == ExtraSlot then n & 7 else 0
  {
  }

  lemma ChannelsSlots(n: bv32, s: Slot)
    ensures Get(SetBits(Channels(n)), s) == if s == ChannelsSlot then n & 15 else 0
  {
  }

  lemma BpsSlots(n: bv32, s: Slot)
    ensures Get(SetBits(Bps(n)), s) == if s == BpsSlot then n & 7 else 0
  {
  }

  lemma GetOr(a: bv32, b: bv32, s: Slot)
    ensures Get(a | b, s) == Get(a, s) | Get(b, s)
  {
  }

  /** Packing two argument lists one after the other is the OR of packing each. */
  lemma {:induction false} PackAppend(a: seq<Field>, b: seq<Field>)
    ensures Pack(a + b) == Pack(a) | Pack(b)
  {
    if a != [] {
      assert (a + b)[0] == a[0] && (a + b)[1..] == a[1..] + b;
      PackAppend(a[1..], b);
    } else {
      assert a + b == b;
    }
  }

  /** The order in which the arguments are listed does not change the packed value. */
  lemma PackOrder(a: seq<Field>, b: seq<Field>)
    ensures Pack(a + b) == Pack(b + a)
  {
    PackAppend(a, b);
    PackAppend(b, a);
  }

  /** A range no argument fills reads as zero. */
  lemma {:induction false} PackUnfilled(fields: seq<Field>, s: Slot)
    requires forall j | 0 <= j < |fields| :: SlotOf(fields[j]) != s
    ensures Get(Pack(fields), s) == 0
  {
    if fields != [] {
      GetOr(SetBits(fields[0]), Pack(fields[1..]), s);
      SetBitsSlots(fields[0], s);
      TailUnfilled(fields, |fields|, s);
      PackUnfilled(fields[1..], s);
    }
  }

  /** The part of `fields` after the first argument, with every argument outside range `s` below
      position `i` still outside it. */
  lemma TailUnfilled(fields: seq<Field>, i: nat, s: Slot)
    requires 0 < |fields| && i <= |fields|
    requires forall j | 0 <= j < |fields| && j != i :: SlotOf(fields[j]) != s
    ensures forall j | 0 <= j < |fields| - 1 && j + 1 != i :: SlotOf(fields[1..][j]) != s
  {
    forall j | 0 <= j < |fields| - 1 && j + 1 != i ensures SlotOf(fields[1..][j]) != s {
      assert fields[1..][j] == fields[j + 1];
    }
  }

  /** A range filled by exactly one argument gives back that argument's value, masked. */
  lemma {:induction false} PackRecovers(fields: seq<Field>, i: nat, s: Slot)
    requires i < |fields| && SlotOf(fields[i]) == s
    requires forall j | 0 <= j < |fields| && j != i :: SlotOf(fields[j]) != s
    ensures Get(Pack(fields), s) == ValueOf(fields[i]) & s.Mask()
  {
    var head, tail := fields[0], fields[1..];
    assert Pack(fields) == SetBits(head) | Pack(tail);
    GetOr(SetBits(head), Pack(tail), s);
    SetBitsSlots(head, s);
    TailUnfilled(fields, i, s);
    if i == 0 {
      PackUnfilled(tail, s);
      assert Get(Pack(tail), s) == 0;
    } else {
      assert tail[i - 1] == fields[i];
      PackRecovers(tail, i - 1, s);
      assert Get(SetBits(head), s) == 0;
    }
  }

  /** The colour-space code `color_space` decodes: 3 to 30 name the space with that
      discriminant, anything else is `Any`. */
  function ColorSpaceOf(code: bv32): (cs: ColorSpace)
    ensures 3 <= code <= 30 ==> SpaceBits(cs) == code
    ensures !(3 <= code <= 30) ==> cs == Any
  {
    SpaceBitsCode(FromCode(code as int));
    FromCode(code as int)
  }

  /** Decoding a colour space's discriminant gives the colour space back, for every space. */
  lemma ColorSpaceCodeRoundTrip(cs: ColorSpace)
    ensures ColorSpaceOf(SpaceBits(cs)) == cs
  {
    FromCodeRoundTrip(cs);
  }

  const COLOR_SPACE_BITS: bv32 := 0x1F_0000

  /** The word with its colour-space range replaced by the discriminant of `cs`. */
  function WithColorSpace(v: bv32, cs: ColorSpace): bv32
  {
    (v & !COLOR_SPACE_BITS) | (SpaceBits(cs) << 16)
  }

  /** What replacing the colour-space range does to one range of the word. */
  lemma WithColorSpaceSlot(v: bv32, cs: ColorSpace, s: Slot)
    ensures Get(WithColorSpace(v, cs), s) == if s == ColorSpaceSlot then SpaceBits(cs) else Get(v, s)
  {
    ReplaceColorSpaceRange(v, SpaceBits(cs), s);
  }

  /** Replacing the colour-space range by a five-bit value changes that range and no other. */
  lemma ReplaceColorSpaceRange(v: bv32, b: bv32, s: Slot)
    requires b <= 31
    ensures Get((v & !COLOR_SPACE_BITS) | (b << 16), s) == if s == ColorSpaceSlot then b else Get(v, s)
  {
  }

  /** `CmsPixelType`: a packed format word that can be updated in place. */
  class PixelType {
    var value: bv32

    constructor (value: bv32)
      ensures this.value == value
    {
      this.value := value;
    }

    /** `color_space`: the space named by the colour-space range. */
    function ColorSpace(): (cs: Lcms.ColorSpace)
      reads this
      ensures 3 <= Get(value, ColorSpaceSlot) <= 30 ==> SpaceBits(cs) == Get(value, ColorSpaceSlot)
      ensures !(3 <= Get(value, ColorSpaceSlot) <= 30) ==> cs == Any
    {
      ColorSpaceOf(Get(value, ColorSpaceSlot))
    }

    /** `set_color_space`: stores the discriminant of `cs` in the colour-space range. */
    method SetColorSpace(cs: Lcms.ColorSpace)
      modifies this
      ensures value == WithColorSpace(old(value), cs)
      ensures ColorSpace() == cs
      ensures forall s: Slot | s != ColorSpaceSlot :: Get(value, s) == Get(old(value), s)
    {
      SetColorSpaceRoundTrip(value, cs);
      value := WithColorSpace(value, cs);
    }
  }

  /** Setting a colour space and reading it back gives that space, and leaves every other
      range of the word as it was. */
  lemma SetColorSpaceRoundTrip(v: bv32, cs: ColorSpace)
    ensures ColorSpaceOf(Get(WithColorSpace(v, cs), ColorSpaceSlot)) == cs
    ensures forall s: Slot | s != ColorSpaceSlot :: Get(WithColorSpace(v, cs), s) == Get(v, s)
  {
    ColorSpaceCodeRoundTrip(cs);
    WithColorSpaceSlot(v, cs, ColorSpaceSlot);
    forall s: Slot | s != ColorSpaceSlot
      ensures Get(WithColorSpace(v, cs), s) == Get(v, s)
    {
      WithColorSpaceSlot(v, cs, s);
    }
  }
}
