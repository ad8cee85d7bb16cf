/**
 * The packed per-object header word `isa_t`, in the non-indexed,
 * nonpointer-capable configuration with the arm64 field layout.
 *
 * The word is modelled field by field. The bit positions themselves
 * (ISA_MASK, RC_ONE, ISA_MAGIC_VALUE) live in isa.h, which is not part of
 * this model; only the widths of `extra_rc` and `shiftcls` matter here.
 */
module Header {

  /** 2 to the power n. */
  function Pow2(n: nat): (r: nat)
    ensures r >= 1
  {
    if n == 0 then 1 else 2 * Pow2(n - 1)
  }

  /** Width in bits of the inline `extra_rc` field (19 on arm64, 8 on x86_64). */
  const ExtraRcBits: nat := 19

  /** RC_HALF: half the capacity of `extra_rc`, moved to or borrowed from the side table. */
  const RcHalf: nat := Pow2(ExtraRcBits - 1)

  /** `extra_rc` holds the values below RcLimit; adding one to RcLimit - 1 carries out of the field. */
  const RcLimit: nat := 2 * RcHalf

  /**
   * `shiftcls` holds the values below ShiftclsLimit = 2^33: the class
   * address bits 3..35 that ISA_MASK keeps on arm64.
   */
  const ShiftclsLimit: nat := 0x2_0000_0000

  /**
   * A class, seen only through its address and the flags the lifetime
   * engine consults; its method tables and layout are not modelled.
   */
  datatype Class = Class(
    addr: nat,
    isMetaClass: bool,
    hasCustomRR: bool,
    instancesRequireRawIsa: bool,
    hasCxxDtor: bool,
    canAllocNonpointer: bool,
    isFuture: bool)

  /**
   * The header word of one heap object.
   *  - Unset: `isa.bits == 0`, the word of freshly allocated memory.
   *  - Raw: `nonpointer == 0`, the word is the class pointer itself and all
   *    counting lives in the side table.
   *  - Packed: `nonpointer == 1`, the bit fields of `isa_t`.
   */
  datatype Isa =
    | Unset
    | Raw(cls: Class)
    | Packed(
        hasAssoc: bool,
        hasCxxDtor: bool,
        shiftcls: nat,
        weaklyReferenced: bool,
        deallocating: bool,
        hasSidetableRc: bool,
        extraRc: nat)

  /** ISA_MAGIC_VALUE: a packed word with `nonpointer` (and `magic`) set and every other field zero. */
  const MagicIsa: Isa := Packed(false, false, 0, false, false, false, 0)

  /**
   * `ISA()`: the class address the word designates. For a packed word it is
   * `isa.bits & ISA_MASK`, which keeps no bit below bit 3.
   */
  function ClassOf(isa: Isa): (addr: nat)
    ensures isa.Packed? ==> addr % 8 == 0
  {
    match isa
    case Unset => 0
    case Raw(cls) => cls.addr
    case Packed(_, _, shiftcls, _, _, _, _) => shiftcls * 8
  }

  /** `(uintptr_t)cls >> 3`, truncated to the width of the `shiftcls` bit field. */
  function ShiftedClass(addr: nat): (s: nat)
    ensures s < ShiftclsLimit
    ensures s * 8 <= addr
  {
    (addr / 8) % ShiftclsLimit
  }

  /** The word `initIsa(cls, true, hasCxxDtor)` stores. */
  function NonpointerIsa(cls: Class, hasCxxDtor: bool): Isa
  {
    MagicIsa.(hasCxxDtor := hasCxxDtor, shiftcls := ShiftedClass(cls.addr))
  }

  /**
   * A packed word gives back the class it was built from exactly when the
   * class address is 8-byte aligned and fits the `shiftcls` field.
   */
  lemma NonpointerClassRoundTrip(cls: Class, hasCxxDtor: bool)
    ensures ClassOf(NonpointerIsa(cls, hasCxxDtor)) == cls.addr
        <==> cls.addr % 8 == 0 && cls.addr < 8 * ShiftclsLimit
  {
  }
}
