/** The built-in tag descriptor registry: the rules that pick a tag type when a tag is written,
    and the table of every tag signature the library knows with its element count, legal types
    and rule. */
module InternalTags {
  import opened ByteCodec
  import opened Options
  import opened Signatures
  import opened PluginTags
  import opened TagTypeSignatures
  import Tag = TagSignatures

  /** `decide_xyz_type`: always the XYZ type. */
  function DecideXyzType(version: real, data: seq<i8>): (r: Signature)
    ensures r == XYZ
  {
    XYZ
  }

  /** `decide_text_type`: localized Unicode from version 4 on, plain text before. */
  function DecideTextType(version: real, data: seq<i8>): (r: Signature)
    ensures r == MULTI_LOCALIZED_UNICODE <==> version >= 4.0
    ensures r == TEXT <==> version < 4.0
  {
    if version >= 4.0 then MULTI_LOCALIZED_UNICODE else TEXT
  }

  /** `decide_lut_type_a_to_b`: before version 4 the first peek byte chooses between the 8-bit and
      16-bit tables; from version 4 on, the A-to-B type. Panics without a peek byte. */
  function DecideLutTypeAToB(version: real, data: seq<i8>): (r: Signature)
    requires |data| >= 1
    ensures r == LUT8 <==> version < 4.0 && data[0] != 0
    ensures r == LUT16 <==> version < 4.0 && data[0] == 0
    ensures r == LUTA_TO_B <==> version >= 4.0
  {
    var saveAs8Bits := data[0];
    if version < 4.0 then (if saveAs8Bits != 0 then LUT8 else LUT16) else LUTA_TO_B
  }

  /** `decide_lut_type_b_to_a`: as for A-to-B, with the B-to-A type from version 4 on. */
  function DecideLutTypeBToA(version: real, data: seq<i8>): (r: Signature)
    requires |data| >= 1
    ensures r == LUT8 <==> version < 4.0 && data[0] != 0
    ensures r == LUT16 <==> version < 4.0 && data[0] == 0
    ensures r == LUTB_TO_A <==> version >= 4.0
  {
    var saveAs8Bits := data[0];
    if version < 4.0 then (if saveAs8Bits != 0 then LUT8 else LUT16) else LUTB_TO_A
  }

  /** `decide_curve_type`: the parametric type only from version 4 on, for a single segment whose
      type code is 0 to 5; the sampled curve type in every other case. Panics without two peek bytes. */
  function DecideCurveType(version: real, data: seq<i8>): (r: Signature)
    requires |data| >= 2
    ensures r == PARAMETRIC_CURVE <==> version >= 4.0 && data[0] == 1 && 0 <= data[1] <= 5
    ensures r == CURVE <==> !(version >= 4.0 && data[0] == 1 && 0 <= data[1] <= 5)
  {
    var segments, segmentType := data[0], data[1];
    if version < 4.0 then CURVE
    else if segments != 1 then CURVE
    else if segmentType < 0 then CURVE
    else if segmentType > 5 then CURVE
    else PARAMETRIC_CURVE
  }

  /** `decide_text_desc_type`: localized Unicode from version 4 on, the legacy description before. */
  function DecideTextDescType(version: real, data: seq<i8>): (r: Signature)
    ensures r == MULTI_LOCALIZED_UNICODE <==> version >= 4.0
    ensures r == TEXT_DESCRIPTION <==> version < 4.0
  {
    if version >= 4.0 then MULTI_LOCALIZED_UNICODE else TEXT_DESCRIPTION
  }

  /** The decision examples: a version 3.9 curve is always sampled; at 4.1 one segment of type 0 is
      parametric and two segments are sampled. */
  lemma DecideCurveExamples(a: i8, b: i8)
    ensures DecideCurveType(3.9, [a, b]) == CURVE
    ensures DecideCurveType(4.1, [1, 0]) == PARAMETRIC_CURVE
    ensures DecideCurveType(4.1, [2, 0]) == CURVE
  {
  }

  /** `SUPPORTED_TAGS`, in the groups the source lays it out in. */
  const SUPPORTED_TAGS: seq<TagListItem> :=
    [
      TagListItem4(Tag.A_TO_B0, 1, [LUT16, LUTA_TO_B, LUT8], DecideLutTypeAToB),
      TagListItem4(Tag.A_TO_B1, 1, [LUT16, LUTA_TO_B, LUT8], DecideLutTypeAToB),
      TagListItem4(Tag.A_TO_B2, 1, [LUT16, LUTA_TO_B, LUT8], DecideLutTypeAToB),
      TagListItem4(Tag.B_TO_A0, 1, [LUT16, LUTB_TO_A, LUT8], DecideLutTypeBToA),
      TagListItem4(Tag.B_TO_A1, 1, [LUT16, LUTB_TO_A, LUT8], DecideLutTypeBToA),
      TagListItem4(Tag.B_TO_A2, 1, [LUT16, LUTB_TO_A, LUT8], DecideLutTypeBToA)
    ]
    + [
      TagListItem4(Tag.RED_COLORANT, 1, [XYZ, CORBIS_BROKEN_XYZ_TYPE], DecideXyzType),
      TagListItem4(Tag.GREEN_COLORANT, 1, [XYZ, CORBIS_BROKEN_XYZ_TYPE], DecideXyzType),
      TagListItem4(Tag.BLUE_COLORANT, 1, [XYZ, CORBIS_BROKEN_XYZ_TYPE], DecideXyzType)
    ]
    + [
      TagListItem4(Tag.RED_TRC, 1, [CURVE, PARAMETRIC_CURVE, MONACO_BROKEN_CURVE_TYPE], DecideCurveType),
      TagListItem4(Tag.GREEN_TRC, 1, [CURVE, PARAMETRIC_CURVE, MONACO_BROKEN_CURVE_TYPE], DecideCurveType),
      TagListItem4(Tag.BLUE_TRC, 1, [CURVE, PARAMETRIC_CURVE, MONACO_BROKEN_CURVE_TYPE], DecideCurveType)
    ]
    + [
      TagListItem3(Tag.CALIBRATION_DATE_TIME, 1, [DATE_TIME]),
      TagListItem3(Tag.CHAR_TARGET, 1, [TEXT])
    ]
    + [
      TagListItem3(Tag.CHROMATIC_ADAPTATION, 9, [S15_FIXED16_ARRAY]),
      TagListItem3(Tag.CHROMATICITY, 1, [CHROMATICITY]),
      TagListItem3(Tag.COLORANT_ORDER, 1, [COLORANT_ORDER]),
      TagListItem3(Tag.COLORANT_TABLE, 1, [COLORANT_TABLE]),
      TagListItem3(Tag.COLORANT_TABLE_OUT, 1, [COLORANT_TABLE])
    ]
    + [
      TagListItem4(Tag.COPYRIGHT, 1, [TEXT, MULTI_LOCALIZED_UNICODE, TEXT_DESCRIPTION], DecideTextType),
      TagListItem3(Tag.DATE_TIME, 1, [DATE_TIME])
    ]
    + [
      TagListItem4(Tag.DEVICE_MFG_DESC, 1, [TEXT_DESCRIPTION, MULTI_LOCALIZED_UNICODE, TEXT], DecideTextDescType),
      TagListItem4(Tag.DEVICE_MODEL_DESC, 1, [TEXT_DESCRIPTION, MULTI_LOCALIZED_UNICODE, TEXT], DecideTextDescType)
    ]
    + [
      TagListItem4(Tag.GAMUT, 1, [LUT16, LUTB_TO_A, LUT8], DecideLutTypeBToA)
    ]
    + [
      TagListItem4(Tag.GRAY_TRC, 1, [CURVE, PARAMETRIC_CURVE], DecideCurveType),
      TagListItem3(Tag.LUMINANCE, 1, [XYZ])
    ]
    + [
      TagListItem3(Tag.MEDIA_BLACK_POINT, 1, [XYZ, CORBIS_BROKEN_XYZ_TYPE]),
      TagListItem3(Tag.MEDIA_WHITE_POINT, 1, [XYZ, CORBIS_BROKEN_XYZ_TYPE])
    ]
    + [
      TagListItem3(Tag.NAMED_COLOR2, 1, [NAMED_COLOR2])
    ]
    + [
      TagListItem4(Tag.PREVIEW0, 1, [LUT16, LUTB_TO_A, LUT8], DecideLutTypeBToA),
      TagListItem4(Tag.PREVIEW1, 1, [LUT16, LUTB_TO_A, LUT8], DecideLutTypeBToA),
      TagListItem4(Tag.PREVIEW2, 1, [LUT16, LUTB_TO_A, LUT8], DecideLutTypeBToA)
    ]
    + [
      TagListItem4(Tag.PROFILE_DESCRIPTION, 1, [TEXT_DESCRIPTION, MULTI_LOCALIZED_UNICODE, TEXT], DecideTextDescType),
      TagListItem3(Tag.PROFILE_SEQUENCE_DESC, 1, [PROFILE_SEQUENCE_DESC]),
      TagListItem3(Tag.TECHNOLOGY, 1, [SIGNATURE])
    ]
    + [
      TagListItem3(Tag.COLORIMETRIC_INTENT_IMAGE_STATE, 1, [SIGNATURE]),
      TagListItem3(Tag.PERCEPTUAL_RENDERING_INTENT_GAMUT, 1, [SIGNATURE]),
      TagListItem3(Tag.SATURATION_RENDERING_INTENT_GAMUT, 1, [SIGNATURE])
    ]
    + [
      TagListItem3(Tag.MEASUREMENT, 1, [MEASUREMENT])
    ]
    + [
      TagListItem3(Tag.PS2_CRD0, 1, [DATA]),
      TagListItem3(Tag.PS2_CRD1, 1, [DATA]),
      TagListItem3(Tag.PS2_CRD2, 1, [DATA]),
      TagListItem3(Tag.PS2_CRD3, 1, [DATA]),
      TagListItem3(Tag.PS2_CSA, 1, [DATA]),
      TagListItem3(Tag.PS2_RENDERING_INTENT, 1, [DATA])
    ]
    + [
      TagListItem4(Tag.VIEWING_COND_DESC, 1, [TEXT_DESCRIPTION, MULTI_LOCALIZED_UNICODE, TEXT], DecideTextDescType)
    ]
    + [
      TagListItem3(Tag.UCR_BG, 1, [UCR_BG]),
      TagListItem3(Tag.CRD_INFO, 1, [CRD_INFO])
    ]
    + [
      TagListItem3(Tag.D_TO_B0, 1, [MULTI_PROCESS_ELEMENT]),
      TagListItem3(Tag.D_TO_B1, 1, [MULTI_PROCESS_ELEMENT]),
      TagListItem3(Tag.D_TO_B2, 1, [MULTI_PROCESS_ELEMENT]),
      TagListItem3(Tag.D_TO_B3, 1, [MULTI_PROCESS_ELEMENT]),
      TagListItem3(Tag.B_TO_D0, 1, [MULTI_PROCESS_ELEMENT]),
      TagListItem3(Tag.B_TO_D1, 1, [MULTI_PROCESS_ELEMENT]),
      TagListItem3(Tag.B_TO_D2, 1, [MULTI_PROCESS_ELEMENT]),
      TagListItem3(Tag.B_TO_D3, 1, [MULTI_PROCESS_ELEMENT])
    ]
    + [
      TagListItem3(Tag.SCREENING_DESC, 1, [TEXT_DESCRIPTION]),
      TagListItem3(Tag.VIEWING_CONDITIONS, 1, [VIEWING_CONDITIONS])
    ]
    + [
      TagListItem3(Tag.SCREENING, 1, [SCREENING]),
      TagListItem3(Tag.VCGT, 1, [VCGT]),
      TagListItem3(Tag.META, 1, [DICT]),
      TagListItem3(Tag.PROFILE_SEQUENCE_ID, 1, [PROFILE_SEQUENCE_ID])
    ]
    + [
      TagListItem3(Tag.PROFILE_DESCRIPTION_ML, 9, [MULTI_LOCALIZED_UNICODE]),
      TagListItem3(Tag.ARGYLL_ARTS, 9, [S15_FIXED16_ARRAY])
    ]

  /** Every rule a table entry carries picks one of that entry's legal types, whatever it is asked. */
  ghost predicate DecisionsSupported(e: TagListItem)
  {
    e.desc.decideType.Some? ==>
      forall version: real, data: seq<i8> | e.desc.decideType.value.requires(version, data) ::
        e.desc.decideType.value(version, data) in e.desc.supportedTypes
  }

  /** The shape every table entry has: one element, or nine for the three array-shaped tags;
      at least one legal type. */
  predicate WellShaped(e: TagListItem)
  {
    (e.desc.elementCount == 1 || e.desc.elementCount == 9) &&
    (e.desc.elementCount == 9 <==>
       e.sig == Tag.CHROMATIC_ADAPTATION || e.sig == Tag.PROFILE_DESCRIPTION_ML || e.sig == Tag.ARGYLL_ARTS) &&
    |e.desc.supportedTypes| > 0
  }

  lemma SupportedTagsShape()
    ensures |SUPPORTED_TAGS| == 64
    ensures forall i | 0 <= i < |SUPPORTED_TAGS| :: WellShaped(SUPPORTED_TAGS[i])
  {
    WellShapedBlock0();
    WellShapedBlock1();
    WellShapedBlock2();
    WellShapedBlock3();
    WellShapedBlock4();
    WellShapedBlock5();
    WellShapedBlock6();
    WellShapedBlock7();
  }

  lemma WellShapedBlock0()
    ensures forall i | 0 <= i < 8 :: WellShaped(SUPPORTED_TAGS[i])
  {
  }

  lemma WellShapedBlock1()
    ensures forall i | 8 <= i < 16 :: WellShaped(SUPPORTED_TAGS[i])
  {
  }

  lemma WellShapedBlock2()
    ensures forall i | 16 <= i < 24 :: WellShaped(SUPPORTED_TAGS[i])
  {
  }

  lemma WellShapedBlock3()
    ensures forall i | 24 <= i < 32 :: WellShaped(SUPPORTED_TAGS[i])
  {
  }

  lemma WellShapedBlock4()
    ensures forall i | 32 <= i < 40 :: WellShaped(SUPPORTED_TAGS[i])
  {
  }

  lemma WellShapedBlock5()
    ensures forall i | 40 <= i < 48 :: WellShaped(SUPPORTED_TAGS[i])
  {
  }

  lemma WellShapedBlock6()
    ensures forall i | 48 <= i < 56 :: WellShaped(SUPPORTED_TAGS[i])
  {
  }

  lemma WellShapedBlock7()
    ensures forall i | 56 <= i < 64 :: WellShaped(SUPPORTED_TAGS[i])
  {
  }

  /** Whatever the version and the peek bytes, a table entry's rule picks one of its legal types. */
  lemma SupportedTagsDecisions()
    ensures forall i | 0 <= i < |SUPPORTED_TAGS| :: DecisionsSupported(SUPPORTED_TAGS[i])
  {
    DecisionsBlock0();
    DecisionsBlock1();
    DecisionsBlock2();
    DecisionsBlock3();
    DecisionsBlock4();
    DecisionsBlock5();
    DecisionsBlock6();
    DecisionsBlock7();
  }

  lemma DecisionsBlock0()
    ensures forall i | 0 <= i < 8 :: DecisionsSupported(SUPPORTED_TAGS[i])
  {
  }

  lemma DecisionsBlock1()
    ensures forall i | 8 <= i < 16 :: DecisionsSupported(SUPPORTED_TAGS[i])
  {
  }

  lemma DecisionsBlock2()
    ensures forall i | 16 <= i < 24 :: DecisionsSupported(SUPPORTED_TAGS[i])
  {
  }

  lemma DecisionsBlock3()
    ensures forall i | 24 <= i < 32 :: DecisionsSupported(SUPPORTED_TAGS[i])
  {
  }

  lemma DecisionsBlock4()
    ensures forall i | 32 <= i < 40 :: DecisionsSupported(SUPPORTED_TAGS[i])
  {
  }

  lemma DecisionsBlock5()
    ensures forall i | 40 <= i < 48 :: DecisionsSupported(SUPPORTED_TAGS[i])
  {
  }

  lemma DecisionsBlock6()
    ensures forall i | 48 <= i < 56 :: DecisionsSupported(SUPPORTED_TAGS[i])
  {
  }

  lemma DecisionsBlock7()
    ensures forall i | 56 <= i < 64 :: DecisionsSupported(SUPPORTED_TAGS[i])
  {
  }

  /** The array-shaped tags and the media points, as the table lists them. */
  lemma SupportedTagsNamedEntries()
    ensures SUPPORTED_TAGS[14].sig == Tag.CHROMATIC_ADAPTATION && SUPPORTED_TAGS[14].desc.elementCount == 9
    ensures SUPPORTED_TAGS[62].sig == Tag.PROFILE_DESCRIPTION_ML && SUPPORTED_TAGS[62].desc.elementCount == 9
    ensures SUPPORTED_TAGS[63].sig == Tag.ARGYLL_ARTS && SUPPORTED_TAGS[63].desc.elementCount == 9
    ensures SUPPORTED_TAGS[26].sig == Tag.MEDIA_BLACK_POINT && SUPPORTED_TAGS[27].sig == Tag.MEDIA_WHITE_POINT
    ensures forall i | 26 <= i <= 27 ::
      SUPPORTED_TAGS[i].desc.supportedTypes == [XYZ, CORBIS_BROKEN_XYZ_TYPE] && SUPPORTED_TAGS[i].desc.decideType.None?
  {
  }
}
