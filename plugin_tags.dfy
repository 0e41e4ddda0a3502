/** The records of the tag descriptor registry: what a tag signature may hold (how many elements,
    which type signatures, and the rule that picks a type when writing), the list items pairing a
    signature with its descriptor, their default values, and the `TagListItem!` constructor macro. */
module PluginTags {
  import opened ByteCodec
  import opened Options
  import opened Signatures

  /** `DecideType`: picks a type signature from the profile version and a peek at the content. A
      rule may demand enough peek bytes; the decide functions panic otherwise. */
  type DecideType = (real, seq<i8>) --> Signature

  datatype TagDescriptor = TagDescriptor(
    elementCount: u32,
    supportedTypes: seq<Signature>,
    decideType: Option<DecideType>)

  datatype TagListItem = TagListItem(sig: Signature, desc: TagDescriptor)

  /** `EMPTY_SIGNATURES`. */
  const EMPTY_SIGNATURES: seq<Signature> := []

  /** `TagDescriptor::DEFAULT`. */
  const DEFAULT_DESCRIPTOR: TagDescriptor := TagDescriptor(0, EMPTY_SIGNATURES, None)

  /** `TagListItem::DEFAULT`. */
  const DEFAULT_ITEM: TagListItem := TagListItem(New(SPACES), DEFAULT_DESCRIPTOR)

  /** The default descriptor admits nothing: no elements, no types, no decide rule; the default
      item carries it under the blank (four-space) signature. */
  lemma DefaultsAreEmpty()
    ensures DEFAULT_DESCRIPTOR.elementCount == 0
    ensures |DEFAULT_DESCRIPTOR.supportedTypes| == 0
    ensures DEFAULT_DESCRIPTOR.decideType.None?
    ensures DEFAULT_ITEM.sig == Default() && DEFAULT_ITEM.sig.value == 0x2020_2020
    ensures DEFAULT_ITEM.desc.elementCount == DEFAULT_DESCRIPTOR.elementCount
    ensures DEFAULT_ITEM.desc.supportedTypes == DEFAULT_DESCRIPTOR.supportedTypes
    ensures DEFAULT_ITEM.desc.decideType.None?
  {
    var d := Default();
  }

  /** The `TagListItem!($signature, $element_count, $supported_types)` arm: `decide_type: None`. */
  function TagListItem3(sig: Signature, elementCount: u32, supportedTypes: seq<Signature>): (t: TagListItem)
    ensures t.sig == sig && t.desc.elementCount == elementCount
    ensures t.desc.supportedTypes == supportedTypes && t.desc.decideType.None?
  {
    TagListItem(sig, TagDescriptor(elementCount, supportedTypes, None))
  }

  /** The `TagListItem!($signature, $element_count, $supported_types, $decide_type)` arm:
      `decide_type: Some($decide_type)`. */
  function TagListItem4(sig: Signature, elementCount: u32, supportedTypes: seq<Signature>,
                        decideType: DecideType): (t: TagListItem)
    ensures t.sig == sig && t.desc.elementCount == elementCount
    ensures t.desc.supportedTypes == supportedTypes
    ensures t.desc.decideType.Some? && t.desc.decideType.value == decideType
  {
    TagListItem(sig, TagDescriptor(elementCount, supportedTypes, Some(decideType)))
  }
}
