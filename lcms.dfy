/** Shared definitions of the library root: the colour-space codes, the colour records the tag
    handlers decode into, and the channel limit. */
module Lcms {

  /** Most colorant channels a device colour can have. */
  const MAX_CHANNELS: nat := 16

  /** The colour spaces a packed pixel format can name, with their numeric codes; 1 and 2 are reserved. */
  datatype ColorSpace =
    | Any | Gray | Rgb | Cmy | Cmyk | YCbCr | Yuv | Xyz | Lab | Yuvk | Hsv | Hls | Yxy
    | Mch1 | Mch2 | Mch3 | Mch4 | Mch5 | Mch6 | Mch7 | Mch8 | Mch9 | Mch10 | Mch11 | Mch12
    | Mch13 | Mch14 | Mch15 | LabV2
  {
    /** The enum discriminant (`cs as u32`). */
    function Code(): (c: nat)
      ensures c < 31 && (c == 0 <==> this == Any)
    {
      match this
      case Any => 0
      case Gray => 3
      case Rgb => 4
      case Cmy => 5
      case Cmyk => 6
      case YCbCr => 7
      case Yuv => 8
      case Xyz => 9
      case Lab => 10
      case Yuvk => 11
      case Hsv => 12
      case Hls => 13
      case Yxy => 14
      case Mch1 => 15
      case Mch2 => 16
      case Mch3 => 17
      case Mch4 => 18
      case Mch5 => 19
      case Mch6 => 20
      case Mch7 => 21
      case Mch8 => 22
      case Mch9 => 23
      case Mch10 => 24
      case Mch11 => 25
      case Mch12 => 26
      case Mch13 => 27
      case Mch14 => 28
      case Mch15 => 29
      case LabV2 => 30
    }
  }

  /** The colour space with discriminant `c`; a code that names none (1, 2 or above 30) gives `Any`. */
  function FromCode(c: int): (cs: ColorSpace)
    ensures 3 <= c <= 30 ==> cs.Code() == c
    ensures !(3 <= c <= 30) ==> cs == Any
  {
    if c <= 16 then FromLowCode(c) else FromHighCode(c)
  }

  /** `FromCode` for the codes up to 16. */
  function FromLowCode(c: int): (cs: ColorSpace)
    requires c <= 16
    ensures 3 <= c ==> cs.Code() == c
    ensures c < 3 ==> cs == Any
  {
    match c
    case 3 => Gray
    case 4 => Rgb
    case 5 => Cmy
    case 6 => Cmyk
    case 7 => YCbCr
    case 8 => Yuv
    case 9 => Xyz
    case 10 => Lab
    case 11 => Yuvk
    case 12 => Hsv
    case 13 => Hls
    case 14 => Yxy
    case 15 => Mch1
    case 16 => Mch2
    case _ => Any
  }

  /** `FromCode` for the codes above 16. */
  function FromHighCode(c: int): (cs: ColorSpace)
    requires c > 16
    ensures c <= 30 ==> cs.Code() == c
    ensures c > 30 ==> cs == Any
  {
    match c
    case 17 => Mch3
    case 18 => Mch4
    case 19 => Mch5
    case 20 => Mch6
    case 21 => Mch7
    case 22 => Mch8
    case 23 => Mch9
    case 24 => Mch10
    case 25 => Mch11
    case 26 => Mch12
    case 27 => Mch13
    case 28 => Mch14
    case 29 => Mch15
    case 30 => LabV2
    case _ => Any
  }

  /** Every colour space is recovered from its own discriminant. */
  lemma FromCodeRoundTrip(cs: ColorSpace)
    ensures FromCode(cs.Code()) == cs
  {
  }

  /** CIE XYZ tristimulus values; the decoded buffer of the XYZ tag type. */
  datatype CieXyz = CieXyz(x: real, y: real, z: real)

  /** CIE xyY chromaticity with luminance. */
  datatype CieXyY = CieXyY(x: real, y: real, bigY: real)

  /** Chromaticities of the three primaries; the decoded buffer of the chromaticity tag type. */
  datatype CieXyYTriple = CieXyYTriple(red: CieXyY, green: CieXyY, blue: CieXyY)
}
