/**
 * Tagged pointers: object references whose bits carry a class slot and a
 * small payload instead of the address of a heap object. The bit layout is
 * the most-significant-bit one of arm64; its constants come from
 * objc-internal.h, which is not part of this model.
 */
module TaggedPointer {
  import opened Header

  /** The `this` of an objc_object: a pointer-sized word, never nil. */
  type Ptr = p: bv64 | p != 0 witness 1

  /** The nil object reference. */
  const Nil: bv64 := 0

  /** _OBJC_TAG_MASK: the bit that marks a tagged pointer. */
  const TagMask: bv64 := 1 << 63

  /** _OBJC_TAG_SLOT_SHIFT and _OBJC_TAG_SLOT_MASK: the basic slot, tag bit included. */
  const TagSlotShift: bv64 := 60
  const TagSlotMask: bv64 := 0xf
  const TagSlotCount: nat := 16

  /** _OBJC_TAG_EXT_MASK: the four top bits that are all set in an extended tagged pointer. */
  const TagExtMask: bv64 := 0xf << 60

  /** _OBJC_TAG_EXT_SLOT_SHIFT and _OBJC_TAG_EXT_SLOT_MASK: the extended slot. */
  const TagExtSlotShift: bv64 := 52
  const TagExtSlotMask: bv64 := 0xff
  const TagExtSlotCount: nat := 256

  /** The basic slot index of objc_tag_classes that marks an extended tagged pointer. */
  const ExtMarkerSlot: nat := 15

  /** `_objc_isTaggedPointer`. */
  predicate IsTaggedPointer(p: bv64): (b: bool)
    ensures b <==> p >= 0x8000_0000_0000_0000
  {
    p & TagMask == TagMask
  }

  /** `_objc_decodeTaggedPointer`: undo the per-process obfuscation. */
  function Decode(p: bv64, obfuscator: bv64): bv64
  {
    p ^ obfuscator
  }

  /** `isExtTaggedPointer`. */
  predicate IsExtTaggedPointer(p: bv64, obfuscator: bv64): (b: bool)
    ensures b ==> IsTaggedPointer(Decode(p, obfuscator))
    ensures b && obfuscator & TagMask == 0 ==> IsTaggedPointer(p)
  {
    Decode(p, obfuscator) & TagExtMask == TagExtMask
  }

  /** `isBasicTaggedPointer`. */
  predicate IsBasicTaggedPointer(p: bv64, obfuscator: bv64)
  {
    IsTaggedPointer(p) && !IsExtTaggedPointer(p, obfuscator)
  }

  /** The index into objc_tag_classes that `getIsa` reads for a tagged pointer. */
  function TagSlot(p: bv64): (slot: nat)
    ensures slot < TagSlotCount
    ensures IsTaggedPointer(p) ==> 8 <= slot
  {
    ((p >> TagSlotShift) & TagSlotMask) as nat
  }

  /** The index into objc_tag_ext_classes that `getIsa` falls back to. */
  function ExtTagSlot(p: bv64): (slot: nat)
    ensures slot < TagExtSlotCount
  {
    ((p >> TagExtSlotShift) & TagExtSlotMask) as nat
  }

  /**
   * The two class tables registered at process start, indexed by slot,
   * and the address of the __NSUnrecognizedTaggedPointer sentinel class.
   */
  datatype TagTables = TagTables(classes: seq<nat>, extClasses: seq<nat>, unrecognized: nat)
  {
    predicate WellSized()
    {
      |classes| == TagSlotCount && |extClasses| == TagExtSlotCount
    }
  }

  /** The class `getIsa` finds for a tagged pointer. */
  function TaggedClass(p: bv64, t: TagTables): (cls: nat)
    requires t.WellSized()
    ensures t.classes[TagSlot(p)] != t.unrecognized ==> cls == t.classes[TagSlot(p)]
    ensures t.classes[TagSlot(p)] == t.unrecognized ==> cls == t.extClasses[ExtTagSlot(p)]
  {
    var cls := t.classes[TagSlot(p)];
    if cls == t.unrecognized then t.extClasses[ExtTagSlot(p)] else cls
  }

  /** `getIsa`: the class of any reference, tagged or not. */
  function GetIsa(self: Ptr, isa: Isa, t: TagTables): (cls: nat)
    requires t.WellSized()
    ensures !IsTaggedPointer(self) ==> cls == ClassOf(isa)
    ensures IsTaggedPointer(self) && t.classes[TagSlot(self)] != t.unrecognized
        ==> cls == t.classes[TagSlot(self)]
    ensures IsTaggedPointer(self) && t.classes[TagSlot(self)] == t.unrecognized
        ==> cls == t.extClasses[ExtTagSlot(self)]
  {
    if !IsTaggedPointer(self) then ClassOf(isa) else TaggedClass(self, t)
  }

  /**
   * When the obfuscator leaves the four top bits alone and the sentinel
   * occupies exactly the extended-marker slot, the sentinel test in
   * `getIsa` agrees with `isExtTaggedPointer`: extended pointers are looked
   * up in the extended table and basic ones in the basic table.
   */
  lemma TaggedClassFollowsExtTag(p: bv64, obfuscator: bv64, t: TagTables)
    requires IsTaggedPointer(p)
    requires obfuscator & TagExtMask == 0
    requires t.WellSized()
    requires t.classes[ExtMarkerSlot] == t.unrecognized
    requires forall i :: 8 <= i < ExtMarkerSlot ==> t.classes[i] != t.unrecognized
    ensures IsExtTaggedPointer(p, obfuscator) <==> TagSlot(p) == ExtMarkerSlot
    ensures IsBasicTaggedPointer(p, obfuscator) <==> TagSlot(p) != ExtMarkerSlot
    ensures TaggedClass(p, t)
        == if IsExtTaggedPointer(p, obfuscator) then t.extClasses[ExtTagSlot(p)]
           else t.classes[TagSlot(p)]
  {
    assert IsExtTaggedPointer(p, obfuscator) <==> (p >> TagSlotShift) & TagSlotMask == 0xf;
  }
}
