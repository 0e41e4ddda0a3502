/** The type signatures that name tag-type encodings. The module that defines them is not part of
    this model; each value is the four-character code of ICC.1:2010, section 10, or the code lcms2
    uses for a known-broken encoding. */
module TagTypeSignatures {
  import opened Signatures

  const CHROMATICITY: Signature := Signature(0x6368_726D)  // 'chrm'
  const COLORANT_ORDER: Signature := Signature(0x636C_726F)  // 'clro'
  const COLORANT_TABLE: Signature := Signature(0x636C_7274)  // 'clrt'
  const CRD_INFO: Signature := Signature(0x6372_6469)  // 'crdi'
  const CURVE: Signature := Signature(0x6375_7276)  // 'curv'
  const DATA: Signature := Signature(0x6461_7461)  // 'data'
  const DATE_TIME: Signature := Signature(0x6474_696D)  // 'dtim'
  const DICT: Signature := Signature(0x6469_6374)  // 'dict'
  const LUT16: Signature := Signature(0x6D66_7432)  // 'mft2'
  const LUT8: Signature := Signature(0x6D66_7431)  // 'mft1'
  const LUTA_TO_B: Signature := Signature(0x6D41_4220)  // 'mAB '
  const LUTB_TO_A: Signature := Signature(0x6D42_4120)  // 'mBA '
  const MEASUREMENT: Signature := Signature(0x6D65_6173)  // 'meas'
  const MULTI_LOCALIZED_UNICODE: Signature := Signature(0x6D6C_7563)  // 'mluc'
  const MULTI_PROCESS_ELEMENT: Signature := Signature(0x6D70_6574)  // 'mpet'
  const NAMED_COLOR2: Signature := Signature(0x6E63_6C32)  // 'ncl2'
  const PARAMETRIC_CURVE: Signature := Signature(0x7061_7261)  // 'para'
  const PROFILE_SEQUENCE_DESC: Signature := Signature(0x7073_6571)  // 'pseq'
  const PROFILE_SEQUENCE_ID: Signature := Signature(0x7073_6964)  // 'psid'
  const S15_FIXED16_ARRAY: Signature := Signature(0x7366_3332)  // 'sf32'
  const SCREENING: Signature := Signature(0x7363_726E)  // 'scrn'
  const SIGNATURE: Signature := Signature(0x7369_6720)  // 'sig '
  const TEXT: Signature := Signature(0x7465_7874)  // 'text'
  const TEXT_DESCRIPTION: Signature := Signature(0x6465_7363)  // 'desc'
  const U16_FIXED16_ARRAY: Signature := Signature(0x7566_3332)  // 'uf32'
  const UCR_BG: Signature := Signature(0x6266_6420)  // 'bfd '
  const VCGT: Signature := Signature(0x7663_6774)  // 'vcgt'
  const VIEWING_CONDITIONS: Signature := Signature(0x7669_6577)  // 'view'
  const XYZ: Signature := Signature(0x5859_5A20)  // 'XYZ '

  /** An XYZ type some Corbis profiles carry instead of 'XYZ '. */
  const CORBIS_BROKEN_XYZ_TYPE: Signature := Signature(0x17A5_05B8)
  /** A curve type some Monaco profiles carry instead of 'curv'. */
  const MONACO_BROKEN_CURVE_TYPE: Signature := Signature(0x9478_EE00)
}

/** The tag signatures that name the purpose of a tag. The module that defines them is not part of
    this model; each value is the four-character code of ICC.1:2010, section 9, or of the
    vendor extensions lcms2 knows. */
module TagSignatures {
  import opened Signatures

  const A_TO_B0: Signature := Signature(0x4132_4230)  // 'A2B0'
  const A_TO_B1: Signature := Signature(0x4132_4231)  // 'A2B1'
  const A_TO_B2: Signature := Signature(0x4132_4232)  // 'A2B2'
  const B_TO_A0: Signature := Signature(0x4232_4130)  // 'B2A0'
  const B_TO_A1: Signature := Signature(0x4232_4131)  // 'B2A1'
  const B_TO_A2: Signature := Signature(0x4232_4132)  // 'B2A2'
  const B_TO_D0: Signature := Signature(0x4232_4430)  // 'B2D0'
  const B_TO_D1: Signature := Signature(0x4232_4431)  // 'B2D1'
  const B_TO_D2: Signature := Signature(0x4232_4432)  // 'B2D2'
  const B_TO_D3: Signature := Signature(0x4232_4433)  // 'B2D3'
  const D_TO_B0: Signature := Signature(0x4432_4230)  // 'D2B0'
  const D_TO_B1: Signature := Signature(0x4432_4231)  // 'D2B1'
  const D_TO_B2: Signature := Signature(0x4432_4232)  // 'D2B2'
  const D_TO_B3: Signature := Signature(0x4432_4233)  // 'D2B3'
  const BLUE_COLORANT: Signature := Signature(0x6258_595A)  // 'bXYZ'
  const BLUE_TRC: Signature := Signature(0x6254_5243)  // 'bTRC'
  const CALIBRATION_DATE_TIME: Signature := Signature(0x6361_6C74)  // 'calt'
  const CHAR_TARGET: Signature := Signature(0x7461_7267)  // 'targ'
  const CHROMATICITY: Signature := Signature(0x6368_726D)  // 'chrm'
  const CHROMATIC_ADAPTATION: Signature := Signature(0x6368_6164)  // 'chad'
  const COLORANT_ORDER: Signature := Signature(0x636C_726F)  // 'clro'
  const COLORANT_TABLE: Signature := Signature(0x636C_7274)  // 'clrt'
  const COLORANT_TABLE_OUT: Signature := Signature(0x636C_6F74)  // 'clot'
  const COLORIMETRIC_INTENT_IMAGE_STATE: Signature := Signature(0x6369_6973)  // 'ciis'
  const COPYRIGHT: Signature := Signature(0x6370_7274)  // 'cprt'
  const CRD_INFO: Signature := Signature(0x6372_6469)  // 'crdi'
  const DATE_TIME: Signature := Signature(0x6474_696D)  // 'dtim'
  const DEVICE_MFG_DESC: Signature := Signature(0x646D_6E64)  // 'dmnd'
  const DEVICE_MODEL_DESC: Signature := Signature(0x646D_6464)  // 'dmdd'
  const GAMUT: Signature := Signature(0x6761_6D74)  // 'gamt'
  const GRAY_TRC: Signature := Signature(0x6B54_5243)  // 'kTRC'
  const GREEN_COLORANT: Signature := Signature(0x6758_595A)  // 'gXYZ'
  const GREEN_TRC: Signature := Signature(0x6754_5243)  // 'gTRC'
  const LUMINANCE: Signature := Signature(0x6C75_6D69)  // 'lumi'
  const MEASUREMENT: Signature := Signature(0x6D65_6173)  // 'meas'
  const MEDIA_BLACK_POINT: Signature := Signature(0x626B_7074)  // 'bkpt'
  const MEDIA_WHITE_POINT: Signature := Signature(0x7774_7074)  // 'wtpt'
  const META: Signature := Signature(0x6D65_7461)  // 'meta'
  const NAMED_COLOR2: Signature := Signature(0x6E63_6C32)  // 'ncl2'
  const PERCEPTUAL_RENDERING_INTENT_GAMUT: Signature := Signature(0x7269_6730)  // 'rig0'
  const PREVIEW0: Signature := Signature(0x7072_6530)  // 'pre0'
  const PREVIEW1: Signature := Signature(0x7072_6531)  // 'pre1'
  const PREVIEW2: Signature := Signature(0x7072_6532)  // 'pre2'
  const PROFILE_DESCRIPTION: Signature := Signature(0x6465_7363)  // 'desc'
  const PROFILE_DESCRIPTION_ML: Signature := Signature(0x6473_636D)  // 'dscm'
  const PROFILE_SEQUENCE_DESC: Signature := Signature(0x7073_6571)  // 'pseq'
  const PROFILE_SEQUENCE_ID: Signature := Signature(0x7073_6964)  // 'psid'
  const PS2_CRD0: Signature := Signature(0x7073_6430)  // 'psd0'
  const PS2_CRD1: Signature := Signature(0x7073_6431)  // 'psd1'
  const PS2_CRD2: Signature := Signature(0x7073_6432)  // 'psd2'
  const PS2_CRD3: Signature := Signature(0x7073_6433)  // 'psd3'
  const PS2_CSA: Signature := Signature(0x7073_3273)  // 'ps2s'
  const PS2_RENDERING_INTENT: Signature := Signature(0x7073_3269)  // 'ps2i'
  const RED_COLORANT: Signature := Signature(0x7258_595A)  // 'rXYZ'
  const RED_TRC: Signature := Signature(0x7254_5243)  // 'rTRC'
  const SATURATION_RENDERING_INTENT_GAMUT: Signature := Signature(0x7269_6732)  // 'rig2'
  const SCREENING: Signature := Signature(0x7363_726E)  // 'scrn'
  const SCREENING_DESC: Signature := Signature(0x7363_7264)  // 'scrd'
  const TECHNOLOGY: Signature := Signature(0x7465_6368)  // 'tech'
  const UCR_BG: Signature := Signature(0x6266_6420)  // 'bfd '
  const VCGT: Signature := Signature(0x7663_6774)  // 'vcgt'
  const VIEWING_CONDITIONS: Signature := Signature(0x7669_6577)  // 'view'
  const VIEWING_COND_DESC: Signature := Signature(0x7675_6564)  // 'vued'
  const ARGYLL_ARTS: Signature := Signature(0x6172_7473)  // 'arts'
}
