/**
 * The side table's view of one object. The real table (NSObject.mm, not
 * part of this model) is a striped, locked map from object address to a
 * word holding an extra retain count and the DEALLOCATING and
 * WEAKLY_REFERENCED bits; here it is that record for a single object, with
 * an unbounded count.
 */
module SideTable {

  /** The side-table record of one object; Absent is "no entry". */
  datatype Entry = Entry(extra: nat, deallocating: bool, weaklyReferenced: bool)

  const Absent: Entry := Entry(0, false, false)

  /**
   * What one release decided: the object keeps an owner, the last owner
   * went and the object must now be deallocated, or the object was already
   * deallocating (the fatal over-release).
   */
  datatype ReleaseOutcome = StillAlive | ShouldDealloc | OverRelease

  /** `sidetable_addExtraRC_nolock`: park `delta` more owners in the side table. */
  function AddExtraRc(e: Entry, delta: nat): Entry
  {
    e.(extra := e.extra + delta)
  }

  datatype Borrow = Borrow(amount: nat, entry: Entry)

  /**
   * `sidetable_subExtraRC_nolock`: take back up to `delta` owners; nothing
   * when the side-table count is zero.
   */
  function SubExtraRc(e: Entry, delta: nat): (b: Borrow)
    ensures b.amount <= delta && b.amount + b.entry.extra == e.extra
    ensures b.amount == 0 <==> e.extra == 0 || delta == 0
    ensures b.amount == 0 ==> b.entry == e
    ensures b.entry.deallocating == e.deallocating
    ensures b.entry.weaklyReferenced == e.weaklyReferenced
  {
    if e.extra == 0 then Borrow(0, e)
    else
      var n := if e.extra < delta then e.extra else delta;
      Borrow(n, e.(extra := e.extra - n))
  }

  /** `sidetable_getExtraRC_nolock`. */
  function GetExtraRc(e: Entry): nat
  {
    e.extra
  }

  /**
   * `sidetable_moveExtraRC_nolock`: when a packed header becomes a raw
   * pointer, its inline count and flags move into the side table.
   */
  function MoveExtraRc(e: Entry, extraRc: nat, isDeallocating: bool, weaklyReferenced: bool): Entry
  {
    Entry(e.extra + extraRc, e.deallocating || isDeallocating, e.weaklyReferenced || weaklyReferenced)
  }

  /** `sidetable_retain`, for an object with a raw-pointer header. */
  function Retain(e: Entry): Entry
  {
    e.(extra := e.extra + 1)
  }

  datatype TryRetained = TryRetained(ok: bool, entry: Entry)

  /** `sidetable_tryRetain`: refuse a deallocating object. */
  function TryRetain(e: Entry): TryRetained
  {
    if e.deallocating then TryRetained(false, e)
    else TryRetained(true, e.(extra := e.extra + 1))
  }

  datatype SideReleased = SideReleased(outcome: ReleaseOutcome, entry: Entry)

  /** `sidetable_release`, for an object with a raw-pointer header. */
  function Release(e: Entry): SideReleased
  {
    if e.extra > 0 then SideReleased(StillAlive, e.(extra := e.extra - 1))
    else if e.deallocating then SideReleased(OverRelease, e)
    else SideReleased(ShouldDealloc, e.(deallocating := true))
  }

  /** `sidetable_retainCount`. */
  function RetainCount(e: Entry): nat
  {
    1 + e.extra
  }

  /** `sidetable_setWeaklyReferenced_nolock`. */
  function SetWeaklyReferenced(e: Entry): Entry
  {
    e.(weaklyReferenced := true)
  }
}
