/** The predefined packed pixel formats (the associated constants of the pixel-type struct), each
    built with `Pack` from the fields the source lists, in the order it lists them. */
module PixelFormats {
  import opened Lcms
  import opened PixelTypes

  const GRAY_8: bv32 := Pack([ColorSpaceField(Gray), Channels(1), Bps(1)])
  const GRAY_8_REV: bv32 := Pack([ColorSpaceField(Gray), Channels(1), Bps(1), MinIsWhite])
  const GRAY_16: bv32 := Pack([ColorSpaceField(Gray), Channels(1), Bps(2)])
  const GRAY_16_REV: bv32 := Pack([ColorSpaceField(Gray), Channels(1), Bps(2), MinIsWhite])
  const GRAY_16_SE: bv32 := Pack([ColorSpaceField(Gray), Channels(1), Bps(2), Endian16])
  const GRAYA_8: bv32 := Pack([ColorSpaceField(Gray), Extra(1), Channels(1), Bps(1)])
  const GRAYA_8_PREMUL: bv32 := Pack([ColorSpaceField(Gray), Extra(1), Channels(1), Bps(1), Premul])
  const GRAYA_16: bv32 := Pack([ColorSpaceField(Gray), Extra(1), Channels(1), Bps(2)])
  const GRAYA_16_PREMUL: bv32 := Pack([ColorSpaceField(Gray), Extra(1), Channels(1), Bps(2), Premul])
  const GRAYA_16_SE: bv32 := Pack([ColorSpaceField(Gray), Extra(1), Channels(1), Bps(2), Endian16])
  const GRAYA_8_PLANAR: bv32 := Pack([ColorSpaceField(Gray), Extra(1), Channels(1), Bps(1), Planar])
  const GRAYA_16_PLANAR: bv32 := Pack([ColorSpaceField(Gray), Extra(1), Channels(1), Bps(2), Planar])

  const RGB_8: bv32 := Pack([ColorSpaceField(Rgb), Channels(3), Bps(1)])
  const RGB_8_PLANAR: bv32 := Pack([ColorSpaceField(Rgb), Channels(3), Bps(1), Planar])
  const BGR_8: bv32 := Pack([ColorSpaceField(Rgb), Channels(3), Bps(1), DoSwap])
  const BGR_8_PLANAR: bv32 := Pack([ColorSpaceField(Rgb), Channels(3), Bps(1), DoSwap, Planar])
  const RGB_16: bv32 := Pack([ColorSpaceField(Rgb), Channels(3), Bps(2)])
  const RGB_16_PLANAR: bv32 := Pack([ColorSpaceField(Rgb), Channels(3), Bps(2), Planar])
  const RGB_16_SE: bv32 := Pack([ColorSpaceField(Rgb), Channels(3), Bps(2), Endian16])
  const BGR_16: bv32 := Pack([ColorSpaceField(Rgb), Channels(3), Bps(2), DoSwap])
  const BGR_16_PLANAR: bv32 := Pack([ColorSpaceField(Rgb), Channels(3), Bps(2), DoSwap, Planar])
  const BGR_16_SE: bv32 := Pack([ColorSpaceField(Rgb), Channels(3), Bps(2), DoSwap, Endian16])

  const RGBA_8: bv32 := Pack([ColorSpaceField(Rgb), Extra(1), Channels(3), Bps(1)])
  const RGBA_8_PREMUL: bv32 := Pack([ColorSpaceField(Rgb), Extra(1), Channels(3), Bps(1), Premul])
  const RGBA_8_PLANAR: bv32 := Pack([ColorSpaceField(Rgb), Extra(1), Channels(3), Bps(1), Planar])
  const RGBA_16: bv32 := Pack([ColorSpaceField(Rgb), Extra(1), Channels(3), Bps(2)])
  const RGBA_16_PREMUL: bv32 := Pack([ColorSpaceField(Rgb), Extra(1), Channels(3), Bps(2), Premul])
  const RGBA_16_PLANAR: bv32 := Pack([ColorSpaceField(Rgb), Extra(1), Channels(3), Bps(2), Planar])
  const RGBA_16_SE: bv32 := Pack([ColorSpaceField(Rgb), Extra(1), Channels(3), Bps(2), Endian16])

  const ARGB_8: bv32 := Pack([ColorSpaceField(Rgb), Extra(1), Channels(3), Bps(1), SwapFirst])
  const ARGB_8_PREMUL: bv32 := Pack([ColorSpaceField(Rgb), Extra(1), Channels(3), Bps(1), SwapFirst, Premul])
  const ARGB_8_PLANAR: bv32 := Pack([ColorSpaceField(Rgb), Extra(1), Channels(3), Bps(1), SwapFirst, Planar])
  const ARGB_16: bv32 := Pack([ColorSpaceField(Rgb), Extra(1), Channels(3), Bps(2), SwapFirst])
  const ARGB_16_PREMUL: bv32 := Pack([ColorSpaceField(Rgb), Extra(1), Channels(3), Bps(2), SwapFirst, Premul])

  const ABGR_8: bv32 := Pack([ColorSpaceField(Rgb), Extra(1), Channels(3), Bps(1), DoSwap])
  const ABGR_8_PREMUL: bv32 := Pack([ColorSpaceField(Rgb), Extra(1), Channels(3), Bps(1), DoSwap, Premul])
  const ABGR_8_PLANAR: bv32 := Pack([ColorSpaceField(Rgb), Extra(1), Channels(3), Bps(1), DoSwap, Planar])
  const ABGR_16: bv32 := Pack([ColorSpaceField(Rgb), Extra(1), Channels(3), Bps(2), DoSwap])
  const ABGR_16_PREMUL: bv32 := Pack([ColorSpaceField(Rgb), Extra(1), Channels(3), Bps(2), DoSwap, Premul])
  const ABGR_16_PLANAR: bv32 := Pack([ColorSpaceField(Rgb), Extra(1), Channels(3), Bps(2), DoSwap, Planar])
  const ABGR_16_SE: bv32 := Pack([ColorSpaceField(Rgb), Extra(1), Channels(3), Bps(2), DoSwap, Endian16])

  const BGRA_8: bv32 := Pack([ColorSpaceField(Rgb), Extra(1), Channels(3), Bps(1), DoSwap, SwapFirst])
  const BGRA_8_PREMUL: bv32 := Pack([ColorSpaceField(Rgb), Extra(1), Channels(3), Bps(1), DoSwap, SwapFirst, Premul])
  const BGRA_8_PLANAR: bv32 := Pack([ColorSpaceField(Rgb), Extra(1), Channels(3), Bps(1), DoSwap, SwapFirst, Planar])
  const BGRA_16: bv32 := Pack([ColorSpaceField(Rgb), Extra(1), Channels(3), Bps(2), DoSwap, SwapFirst])
  const BGRA_16_PREMUL: bv32 := Pack([ColorSpaceField(Rgb), Extra(1), Channels(3), Bps(2), DoSwap, SwapFirst, Premul])
  const BGRA_16_SE: bv32 := Pack([ColorSpaceField(Rgb), Extra(1), Channels(3), Bps(2), Endian16, DoSwap, SwapFirst])

  const CMY_8: bv32 := Pack([ColorSpaceField(Cmy), Channels(3), Bps(1)])
  const CMY_8_PLANAR: bv32 := Pack([ColorSpaceField(Cmy), Channels(3), Bps(1), Planar])
  const CMY_16: bv32 := Pack([ColorSpaceField(Cmy), Channels(3), Bps(2)])
  const CMY_16_PLANAR: bv32 := Pack([ColorSpaceField(Cmy), Channels(3), Bps(2), Planar])
  const CMY_16_SE: bv32 := Pack([ColorSpaceField(Cmy), Channels(3), Bps(2), Endian16])

  const CMYK_8: bv32 := Pack([ColorSpaceField(Cmyk), Channels(4), Bps(1)])
  const CMYKA_8: bv32 := Pack([ColorSpaceField(Cmyk), Extra(1), Channels(4), Bps(1)])
  const CMYK_8_REV: bv32 := Pack([ColorSpaceField(Cmyk), Channels(4), Bps(1), MinIsWhite])
  const YUVK_8: bv32 := CMYK_8_REV
  const CMYK_8_PLANAR: bv32 := Pack([ColorSpaceField(Cmyk), Channels(4), Bps(1), Planar])
  const CMYK_16: bv32 := Pack([ColorSpaceField(Cmyk), Channels(4), Bps(2)])
  const CMYK_16_REV: bv32 := Pack([ColorSpaceField(Cmyk), Channels(4), Bps(2), MinIsWhite])
  const YUVK_16: bv32 := CMYK_16_REV
  const CMYK_16_PLANAR: bv32 := Pack([ColorSpaceField(Cmyk), Channels(4), Bps(2), Planar])
  const CMYK_16_SE: bv32 := Pack([ColorSpaceField(Cmyk), Channels(4), Bps(2), Endian16])

  const KYMC_8: bv32 := Pack([ColorSpaceField(Cmyk), Channels(4), Bps(1), DoSwap])
  const KYMC_16: bv32 := Pack([ColorSpaceField(Cmyk), Channels(4), Bps(2), DoSwap])
  const KYMC_16_SE: bv32 := Pack([ColorSpaceField(Cmyk), Channels(4), Bps(2), DoSwap, Endian16])

  const KCMY_8: bv32 := Pack([ColorSpaceField(Cmyk), Channels(4), Bps(1), SwapFirst])
  const KCMY_8_REV: bv32 := Pack([ColorSpaceField(Cmyk), Channels(4), Bps(1), MinIsWhite, SwapFirst])
  const KCMY_16: bv32 := Pack([ColorSpaceField(Cmyk), Channels(4), Bps(2), SwapFirst])
  const KCMY_16_REV: bv32 := Pack([ColorSpaceField(Cmyk), Channels(4), Bps(2), MinIsWhite, SwapFirst])
  const KCMY_16_SE: bv32 := Pack([ColorSpaceField(Cmyk), Channels(4), Bps(2), Endian16, SwapFirst])

  const CMYK5_8: bv32 := Pack([ColorSpaceField(Mch5), Channels(5), Bps(1)])
  const CMYK5_16: bv32 := Pack([ColorSpaceField(Mch5), Channels(5), Bps(2)])
  const CMYK5_16_SE: bv32 := Pack([ColorSpaceField(Mch5), Channels(5), Bps(2), Endian16])
  const KYMC5_8: bv32 := Pack([ColorSpaceField(Mch5), Channels(5), Bps(1), DoSwap])
  const KYMC5_16: bv32 := Pack([ColorSpaceField(Mch5), Channels(5), Bps(2), DoSwap])
  const KYMC5_16_SE: bv32 := Pack([ColorSpaceField(Mch5), Channels(5), Bps(2), DoSwap, Endian16])

  const CMYK6_8: bv32 := Pack([ColorSpaceField(Mch6), Channels(6), Bps(1)])
  const CMYK6_8_PLANAR: bv32 := Pack([ColorSpaceField(Mch6), Channels(6), Bps(1), Planar])
  const CMYK6_16: bv32 := Pack([ColorSpaceField(Mch6), Channels(6), Bps(2)])
  const CMYK6_16_PLANAR: bv32 := Pack([ColorSpaceField(Mch6), Channels(6), Bps(2), Planar])
  const CMYK6_16_SE: bv32 := Pack([ColorSpaceField(Mch6), Channels(6), Bps(2), Endian16])

  const CMYK7_8: bv32 := Pack([ColorSpaceField(Mch7), Channels(7), Bps(1)])
  const CMYK7_16: bv32 := Pack([ColorSpaceField(Mch7), Channels(7), Bps(2)])
  const CMYK7_16_SE: bv32 := Pack([ColorSpaceField(Mch7), Channels(7), Bps(2), Endian16])
  const KYMC7_8: bv32 := Pack([ColorSpaceField(Mch7), Channels(7), Bps(1), DoSwap])
  const KYMC7_16: bv32 := Pack([ColorSpaceField(Mch7), Channels(7), Bps(2), DoSwap])
  const KYMC7_16_SE: bv32 := Pack([ColorSpaceField(Mch7), Channels(7), Bps(2), DoSwap, Endian16])

  const CMYK8_8: bv32 := Pack([ColorSpaceField(Mch8), Channels(8), Bps(1)])
  const CMYK8_16: bv32 := Pack([ColorSpaceField(Mch8), Channels(8), Bps(2)])
  const CMYK8_16_SE: bv32 := Pack([ColorSpaceField(Mch8), Channels(8), Bps(2), Endian16])
  const KYMC8_8: bv32 := Pack([ColorSpaceField(Mch8), Channels(8), Bps(1), DoSwap])
  const KYMC8_16: bv32 := Pack([ColorSpaceField(Mch8), Channels(8), Bps(2), DoSwap])
  const KYMC8_16_SE: bv32 := Pack([ColorSpaceField(Mch8), Channels(8), Bps(2), DoSwap, Endian16])

  const CMYK9_8: bv32 := Pack([ColorSpaceField(Mch9), Channels(9), Bps(1)])
  const CMYK9_16: bv32 := Pack([ColorSpaceField(Mch9), Channels(9), Bps(2)])
  const CMYK9_16_SE: bv32 := Pack([ColorSpaceField(Mch9), Channels(9), Bps(2), Endian16])
  const KYMC9_8: bv32 := Pack([ColorSpaceField(Mch9), Channels(9), Bps(1), DoSwap])
  const KYMC9_16: bv32 := Pack([ColorSpaceField(Mch9), Channels(9), Bps(2), DoSwap])
  const KYMC9_16_SE: bv32 := Pack([ColorSpaceField(Mch9), Channels(9), Bps(2), DoSwap, Endian16])

  const CMYK10_8: bv32 := Pack([ColorSpaceField(Mch10), Channels(10), Bps(1)])
  const CMYK10_16: bv32 := Pack([ColorSpaceField(Mch10), Channels(10), Bps(2)])
  const CMYK10_16_SE: bv32 := Pack([ColorSpaceField(Mch10), Channels(10), Bps(2), Endian16])
  const KYMC10_8: bv32 := Pack([ColorSpaceField(Mch10), Channels(10), Bps(1), DoSwap])
  const KYMC10_16: bv32 := Pack([ColorSpaceField(Mch10), Channels(10), Bps(2), DoSwap])
  const KYMC10_16_SE: bv32 := Pack([ColorSpaceField(Mch10), Channels(10), Bps(2), DoSwap, Endian16])

  const CMYK11_8: bv32 := Pack([ColorSpaceField(Mch11), Channels(11), Bps(1)])
  const CMYK11_16: bv32 := Pack([ColorSpaceField(Mch11), Channels(11), Bps(2)])
  const CMYK11_16_SE: bv32 := Pack([ColorSpaceField(Mch11), Channels(11), Bps(2), Endian16])
  const KYMC11_8: bv32 := Pack([ColorSpaceField(Mch11), Channels(11), Bps(1), DoSwap])
  const KYMC11_16: bv32 := Pack([ColorSpaceField(Mch11), Channels(11), Bps(2), DoSwap])
  const KYMC11_16_SE: bv32 := Pack([ColorSpaceField(Mch11), Channels(11), Bps(2), DoSwap, Endian16])

  const CMYK12_8: bv32 := Pack([ColorSpaceField(Mch12), Channels(12), Bps(1)])
  const CMYK12_16: bv32 := Pack([ColorSpaceField(Mch12), Channels(12), Bps(2)])
  const CMYK12_16_SE: bv32 := Pack([ColorSpaceField(Mch12), Channels(12), Bps(2), Endian16])
  const KYMC12_8: bv32 := Pack([ColorSpaceField(Mch12), Channels(12), Bps(1), DoSwap])
  const KYMC12_16: bv32 := Pack([ColorSpaceField(Mch12), Channels(12), Bps(2), DoSwap])
  const KYMC12_16_SE: bv32 := Pack([ColorSpaceField(Mch12), Channels(12), Bps(2), DoSwap, Endian16])

  const XYZ_16: bv32 := Pack([ColorSpaceField(Xyz), Channels(3), Bps(2)])
  const LAB_8: bv32 := Pack([ColorSpaceField(Lab), Channels(3), Bps(1)])
  const LAB_V2_8: bv32 := Pack([ColorSpaceField(LabV2), Channels(3), Bps(1)])

  const ALAB_8: bv32 := Pack([ColorSpaceField(Lab), Channels(3), Bps(1), Extra(1), SwapFirst])
  const ALAB_V2_8: bv32 := Pack([ColorSpaceField(LabV2), Channels(3), Bps(1), Extra(1), SwapFirst])
  const LAB_16: bv32 := Pack([ColorSpaceField(Lab), Channels(3), Bps(2)])
  const LAB_V2_16: bv32 := Pack([ColorSpaceField(LabV2), Channels(3), Bps(2)])
  const YXY_16: bv32 := Pack([ColorSpaceField(Yxy), Channels(3), Bps(2)])

  const YCBCR_8: bv32 := Pack([ColorSpaceField(YCbCr), Channels(3), Bps(1)])
  const YCBCR_8_PLANAR: bv32 := Pack([ColorSpaceField(YCbCr), Channels(3), Bps(1), Planar])
  const YCBCR_16: bv32 := Pack([ColorSpaceField(YCbCr), Channels(3), Bps(2)])
  const YCBCR_16_PLANAR: bv32 := Pack([ColorSpaceField(YCbCr), Channels(3), Bps(2), Planar])
  const YCBCR_16_SE: bv32 := Pack([ColorSpaceField(YCbCr), Channels(3), Bps(2), Endian16])

  const YUV_8: bv32 := Pack([ColorSpaceField(Yuv), Channels(3), Bps(1)])
  const YUV_8_PLANAR: bv32 := Pack([ColorSpaceField(Yuv), Channels(3), Bps(1), Planar])
  const YUV_16: bv32 := Pack([ColorSpaceField(Yuv), Channels(3), Bps(2)])
  const YUV_16_PLANAR: bv32 := Pack([ColorSpaceField(Yuv), Channels(3), Bps(2), Planar])
  const YUV_16_SE: bv32 := Pack([ColorSpaceField(Yuv), Channels(3), Bps(2), Endian16])

  const HLS_8: bv32 := Pack([ColorSpaceField(Hls), Channels(3), Bps(1)])
  const HLS_8_PLANAR: bv32 := Pack([ColorSpaceField(Hls), Channels(3), Bps(1), Planar])
  const HLS_16: bv32 := Pack([ColorSpaceField(Hls), Channels(3), Bps(2)])
  const HLS_16_PLANAR: bv32 := Pack([ColorSpaceField(Hls), Channels(3), Bps(2), Planar])
  const HLS_16_SE: bv32 := Pack([ColorSpaceField(Hls), Channels(3), Bps(2), Endian16])

  const HSV_8: bv32 := Pack([ColorSpaceField(Hsv), Channels(3), Bps(1)])
  const HSV_8_PLANAR: bv32 := Pack([ColorSpaceField(Hsv), Channels(3), Bps(1), Planar])
  const HSV_16: bv32 := Pack([ColorSpaceField(Hsv), Channels(3), Bps(2)])
  const HSV_16_PLANAR: bv32 := Pack([ColorSpaceField(Hsv), Channels(3), Bps(2), Planar])
  const HSV_16_SE: bv32 := Pack([ColorSpaceField(Hsv), Channels(3), Bps(2), Endian16])

  const NAMED_COLOR_INDEX: bv32 := Pack([Channels(1), Bps(2)])

  const XYZ_FLT: bv32 := Pack([Float, ColorSpaceField(Xyz), Channels(3), Bps(4)])
  const LAB_FLT: bv32 := Pack([Float, ColorSpaceField(Lab), Channels(3), Bps(4)])
  const LABA_FLT: bv32 := Pack([Float, ColorSpaceField(Lab), Extra(1), Channels(3), Bps(4)])
  const GRAY_FLT: bv32 := Pack([Float, ColorSpaceField(Gray), Channels(1), Bps(4)])
  const GRAYA_FLT: bv32 := Pack([Float, ColorSpaceField(Gray), Channels(1), Bps(4), Extra(1)])
  const GRAYA_FLT_PREMUL: bv32 := Pack([Float, ColorSpaceField(Gray), Channels(1), Bps(4), Extra(1), Premul])
  const RGB_FLT: bv32 := Pack([Float, ColorSpaceField(Rgb), Channels(3), Bps(4)])

  const RGBA_FLT: bv32 := Pack([Float, ColorSpaceField(Rgb), Extra(1), Channels(3), Bps(4)])
  const RGBA_FLT_PREMUL: bv32 := Pack([Float, ColorSpaceField(Rgb), Extra(1), Channels(3), Bps(4), Premul])
  const ARGB_FLT: bv32 := Pack([Float, ColorSpaceField(Rgb), Extra(1), Channels(3), Bps(4), SwapFirst])
  const ARGB_FLT_PREMUL: bv32 := Pack([Float, ColorSpaceField(Rgb), Extra(1), Channels(3), Bps(4), SwapFirst, Premul])
  const BGR_FLT: bv32 := Pack([Float, ColorSpaceField(Rgb), Channels(3), Bps(4), DoSwap])
  const BGRA_FLT: bv32 := Pack([Float, ColorSpaceField(Rgb), Extra(1), Channels(3), Bps(4), DoSwap, SwapFirst])
  const BGRA_FLT_PREMUL: bv32 := Pack([Float, ColorSpaceField(Rgb), Extra(1), Channels(3), Bps(4), DoSwap, SwapFirst, Premul])
  const ABGR_FLT: bv32 := Pack([Float, ColorSpaceField(Rgb), Extra(1), Channels(3), Bps(4), DoSwap])
  const ABGR_FLT_PREMUL: bv32 := Pack([Float, ColorSpaceField(Rgb), Extra(1), Channels(3), Bps(4), DoSwap, Premul])

  const CMYK_FLT: bv32 := Pack([Float, ColorSpaceField(Cmyk), Channels(4), Bps(4)])

  const XYZ_DBL: bv32 := Pack([Float, ColorSpaceField(Xyz), Channels(3), Bps(0)])
  const LAB_DBL: bv32 := Pack([Float, ColorSpaceField(Lab), Channels(3), Bps(0)])
  const GRAY_DBL: bv32 := Pack([Float, ColorSpaceField(Gray), Channels(1), Bps(0)])
  const RGB_DBL: bv32 := Pack([Float, ColorSpaceField(Rgb), Channels(3), Bps(0)])
  const BGR_DBL: bv32 := Pack([Float, ColorSpaceField(Rgb), Channels(3), Bps(0), DoSwap])
  const CMYK_DBL: bv32 := Pack([Float, ColorSpaceField(Cmyk), Channels(4), Bps(0)])

  const GRAY_HALF_FLT: bv32 := Pack([Float, ColorSpaceField(Gray), Channels(1), Bps(2)])
  const RGB_HALF_FLT: bv32 := Pack([Float, ColorSpaceField(Rgb), Channels(3), Bps(2)])
  const RGBA_HALF_FLT: bv32 := Pack([Float, ColorSpaceField(Rgb), Extra(1), Channels(3), Bps(2)])
  const CMYK_HALF_FLT: bv32 := Pack([Float, ColorSpaceField(Cmyk), Channels(4), Bps(2)])

  const ARGB_HALF_FLT: bv32 := Pack([Float, ColorSpaceField(Rgb), Extra(1), Channels(3), Bps(2), SwapFirst])
  const BGR_HALF_FLT: bv32 := Pack([Float, ColorSpaceField(Rgb), Channels(3), Bps(2), DoSwap])
  const BGRA_HALF_FLT: bv32 := Pack([Float, ColorSpaceField(Rgb), Extra(1), Channels(3), Bps(2), DoSwap, SwapFirst])
  const ABGR_HALF_FLT: bv32 := Pack([Float, ColorSpaceField(Rgb), Channels(3), Bps(2), DoSwap])

  /** 8-bit grey: colour space 3 in bits 16..20, one channel in bits 3..6, one byte per sample. */
  lemma Gray8Value()
    ensures GRAY_8 == 0x3_0009
  {
    assert Pack([Bps(1)]) == 1;
    assert Pack([Channels(1), Bps(1)]) == 9;
  }

  /** The YUVK formats are the reversed CMYK ones. */
  lemma YuvkAliases()
    ensures YUVK_8 == CMYK_8_REV && YUVK_16 == CMYK_16_REV
  {
  }

  /** A float format with bps 0 and no other float or bps argument reads back those two ranges. */
  lemma {:induction false} DoubleFormat(fields: seq<Field>)
    requires |fields| >= 4 && fields[0] == Float && fields[3] == Bps(0)
    requires forall j | 0 <= j < |fields| && j != 0 :: SlotOf(fields[j]) != FloatSlot
    requires forall j | 0 <= j < |fields| && j != 3 :: SlotOf(fields[j]) != BpsSlot
    ensures Get(Pack(fields), BpsSlot) == 0 && Get(Pack(fields), FloatSlot) == 1
  {
    PackRecovers(fields, 3, BpsSlot);
    PackRecovers(fields, 0, FloatSlot);
  }

  /** The double-precision XYZ format has the float flag and bps 0. */
  lemma XyzDblFormat()
    ensures Get(XYZ_DBL, BpsSlot) == 0 && Get(XYZ_DBL, FloatSlot) == 1
  {
  }

  /** The double-precision Lab format has the float flag and bps 0. */
  lemma LabDblFormat()
    ensures Get(LAB_DBL, BpsSlot) == 0 && Get(LAB_DBL, FloatSlot) == 1
  {
  }

  /** The double-precision grey format has the float flag and bps 0. */
  lemma GrayDblFormat()
    ensures Get(GRAY_DBL, BpsSlot) == 0 && Get(GRAY_DBL, FloatSlot) == 1
  {
  }

  /** The double-precision RGB format has the float flag and bps 0. */
  lemma RgbDblFormat()
    ensures Get(RGB_DBL, BpsSlot) == 0 && Get(RGB_DBL, FloatSlot) == 1
  {
  }

  /** The double-precision BGR format has the float flag and bps 0. */
  lemma BgrDblFormat()
    ensures Get(BGR_DBL, BpsSlot) == 0 && Get(BGR_DBL, FloatSlot) == 1
  {
  }

  /** The double-precision CMYK format has the float flag and bps 0. */
  lemma CmykDblFormat()
    ensures Get(CMYK_DBL, BpsSlot) == 0 && Get(CMYK_DBL, FloatSlot) == 1
  {
  }

  /** Eight bytes per sample would not fit the three-bit range: it would read back as 0. */
  lemma BpsEightOverflows()
    ensures Get(Pack([Bps(8)]), BpsSlot) == 0
  {
    PackRecovers([Bps(8)], 0, BpsSlot);
  }

  /** Three argument lists packed in either of two orders give the same word. */
  lemma {:induction false} PackSwapTail(front: seq<Field>, b: seq<Field>, c: seq<Field>)
    ensures Pack(front + b + c) == Pack(front + c + b)
    ensures Pack(front + b + c) == Pack(front + c) | Pack(b)
  {
    PackAppend(front + b, c);
    PackAppend(front, b);
    PackAppend(front + c, b);
    PackAppend(front, c);
  }

  /** `BGRA_16_SE` lists the endian flag before the swap flags; it is still the 16-bit BGRA
      format with the endian flag added. */
  lemma Bgra16SeOrder()
    ensures BGRA_16_SE == BGRA_16 | Pack([Endian16])
  {
    var front := [ColorSpaceField(Rgb), Extra(1), Channels(3), Bps(2)];
    var endian, swaps := [Endian16], [DoSwap, SwapFirst];
    assert front + endian + swaps == [ColorSpaceField(Rgb), Extra(1), Channels(3), Bps(2), Endian16, DoSwap, SwapFirst];
    assert front + swaps == [ColorSpaceField(Rgb), Extra(1), Channels(3), Bps(2), DoSwap, SwapFirst];
    PackSwapTail(front, endian, swaps);
  }

  /** 8-bit grey reads back the grey colour space it was built with. */
  lemma Gray8ColorSpace()
    ensures ColorSpaceOf(Get(GRAY_8, ColorSpaceSlot)) == Gray
  {
    PackRecovers([ColorSpaceField(Gray), Channels(1), Bps(1)], 0, ColorSpaceSlot);
    assert Get(GRAY_8, ColorSpaceSlot) == SpaceBits(Gray);
    ColorSpaceCodeRoundTrip(Gray);
  }

  /** 16-bit swapped-endian CMYK reads back the CMYK colour space it was built with. */
  lemma Cmyk16SeColorSpace()
    ensures ColorSpaceOf(Get(CMYK_16_SE, ColorSpaceSlot)) == Cmyk
  {
    var fields := [ColorSpaceField(Cmyk), Channels(4), Bps(2), Endian16];
    PackRecovers(fields, 0, ColorSpaceSlot);
    assert CMYK_16_SE == Pack(fields);
    ColorSpaceCodeRoundTrip(Cmyk);
  }

  /** The named-colour index, built without a colour space, reads as `Any`. */
  lemma NamedColorIndexColorSpace()
    ensures ColorSpaceOf(Get(NAMED_COLOR_INDEX, ColorSpaceSlot)) == Any
  {
    PackUnfilled([Channels(1), Bps(2)], ColorSpaceSlot);
    assert Get(NAMED_COLOR_INDEX, ColorSpaceSlot) == 0;
  }
}
