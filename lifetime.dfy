/**
 * The reference-count state machine of one object, as values: the header
 * word together with the object's side-table record, and one function per
 * operation giving the state after it. Each compare-and-swap loop of the
 * runtime is one atomic step here (a sequential model, where the store
 * always succeeds). The methods of `Runtime.ObjcObject` are proved to
 * follow these functions; the functions' contracts state what the runtime
 * promises.
 */
module Lifetime {
  import opened Header
  import opened TaggedPointer
  import opened SideTable

  /** The lifetime state of one heap object. */
  datatype ObjState = ObjState(isa: Isa, side: Entry)

  /**
   * The invariant the engine keeps. A packed header keeps its fields in
   * range and never uses the side table's flag bits, and nothing is parked
   * in the side table unless `has_sidetable_rc` says so. A header that was
   * never set has no side-table entry.
   */
  predicate Valid(st: ObjState)
  {
    match st.isa
    case Unset => st.side == Absent
    case Raw(_) => true
    case Packed(_, _, shiftcls, _, _, hasSidetableRc, extraRc) =>
      && extraRc < RcLimit
      && shiftcls < ShiftclsLimit
      && !st.side.deallocating
      && !st.side.weaklyReferenced
      && (!hasSidetableRc ==> st.side.extra == 0)
  }

  /**
   * The owners the engine has on record: the implicit first owner, the
   * inline extra count and whatever is parked in the side table.
   */
  function Count(st: ObjState): nat
  {
    1 + (if st.isa.Packed? then st.isa.extraRc else 0) + st.side.extra
  }

  /** `rawISA()->isMetaClass()`: class objects are never counted. */
  predicate IsMetaClassObject(st: ObjState)
  {
    st.isa.Raw? && st.isa.cls.isMetaClass
  }

  /** The deallocating gate of a heap object, wherever its header keeps it. */
  predicate Deallocating(st: ObjState)
  {
    if st.isa.Packed? then st.isa.deallocating else st.side.deallocating
  }

  /** `rootIsDeallocating`: a tagged pointer is never deallocating. */
  predicate IsDeallocating(self: Ptr, st: ObjState)
  {
    !IsTaggedPointer(self) && Deallocating(st)
  }

  /** Whether the header admits associated objects: only a packed header can say no. */
  predicate AssocRecorded(st: ObjState)
  {
    if st.isa.Packed? then st.isa.hasAssoc else true
  }

  /** `hasAssociatedObjects`: answers "maybe" (true) whenever the header cannot tell. */
  predicate HasAssociatedObjects(self: Ptr, st: ObjState)
  {
    IsTaggedPointer(self) || AssocRecorded(st)
  }

  /** `isWeaklyReferenced`. */
  predicate IsWeaklyReferenced(st: ObjState)
  {
    if st.isa.Packed? then st.isa.weaklyReferenced else st.side.weaklyReferenced
  }

  /** `hasCxxDtor`: a raw header asks its class. */
  predicate HasCxxDtor(st: ObjState)
    requires !st.isa.Unset?
  {
    if st.isa.Packed? then st.isa.hasCxxDtor else st.isa.cls.hasCxxDtor
  }

  /** The facts other than the owner count and the deallocating gate are the same in both states. */
  predicate SameFlags(a: ObjState, b: ObjState)
  {
    && a.isa.Unset? == b.isa.Unset?
    && a.isa.Packed? == b.isa.Packed?
    && IsMetaClassObject(a) == IsMetaClassObject(b)
    && ClassOf(a.isa) == ClassOf(b.isa)
    && AssocRecorded(a) == AssocRecorded(b)
    && IsWeaklyReferenced(a) == IsWeaklyReferenced(b)
    && (!a.isa.Unset? && !b.isa.Unset? ==> HasCxxDtor(a) == HasCxxDtor(b))
  }

  /** `rootRetainCount`: a tagged pointer reports its own bits. */
  function RetainCount(self: Ptr, st: ObjState): (n: nat)
    ensures IsTaggedPointer(self) ==> n == self as nat
    ensures !IsTaggedPointer(self) && Valid(st) ==> n == Count(st)
    ensures !IsTaggedPointer(self) ==> n >= 1
  {
    if IsTaggedPointer(self) then self as nat
    else match st.isa
      case Packed(_, _, _, _, _, hasSidetableRc, extraRc) =>
        1 + extraRc + (if hasSidetableRc then GetExtraRc(st.side) else 0)
      case _ => SideTable.RetainCount(st.side)
  }

  datatype Retained = Retained(st: ObjState, r: bv64)

  /**
   * `rootRetain(tryRetain, true)`: add one owner, spilling RC_HALF into the
   * side table when `extra_rc` would carry. A try-retain refuses a
   * deallocating object and then returns nil.
   */
  function RetainStep(self: Ptr, st: ObjState, tryRetain: bool): (res: Retained)
    requires IsTaggedPointer(self) || !st.isa.Unset?
    ensures res.r == self || res.r == Nil
    ensures res.r == Nil
        <==> !IsTaggedPointer(self) && tryRetain && !IsMetaClassObject(st) && IsDeallocating(self, st)
    ensures IsTaggedPointer(self) || IsMetaClassObject(st) || res.r == Nil ==> res.st == st
    ensures !IsTaggedPointer(self) && !IsMetaClassObject(st) && res.r == self && Valid(st)
        ==> Count(res.st) == Count(st) + 1
    ensures Valid(st) ==> Valid(res.st)
    ensures SameFlags(st, res.st)
    ensures IsDeallocating(self, res.st) == IsDeallocating(self, st)
    ensures !IsTaggedPointer(self) && st.isa.Packed? && res.r == self && st.isa.extraRc + 1 == RcLimit
        ==> && res.st.isa == st.isa.(extraRc := RcHalf, hasSidetableRc := true)
            && res.st.side.extra == st.side.extra + RcHalf
    ensures !IsTaggedPointer(self) && !st.isa.Packed? ==> res.st.isa == st.isa
    ensures !IsTaggedPointer(self) && st.isa.Packed? && res.r == self && st.isa.extraRc + 1 < RcLimit
        ==> res.st == st.(isa := st.isa.(extraRc := st.isa.extraRc + 1))
  {
    if IsTaggedPointer(self) then Retained(st, self)
    else match st.isa
      case Raw(cls) =>
        if cls.isMetaClass then Retained(st, self)
        else if tryRetain then
          var t := SideTable.TryRetain(st.side);
          Retained(st.(side := t.entry), if t.ok then self else Nil)
        else Retained(st.(side := SideTable.Retain(st.side)), self)
      case Packed(_, _, _, _, deallocating, _, extraRc) =>
        if tryRetain && deallocating then Retained(st, Nil)
        else if extraRc + 1 < RcLimit then
          Retained(st.(isa := st.isa.(extraRc := extraRc + 1)), self)
        else
          Retained(ObjState(st.isa.(extraRc := RcHalf, hasSidetableRc := true),
                            AddExtraRc(st.side, RcHalf)), self)
  }

  datatype Released = Released(st: ObjState, outcome: ReleaseOutcome)

  /**
   * `rootRelease(performDealloc, true)`: remove one owner, borrowing up to
   * RC_HALF back from the side table when `extra_rc` would borrow. When
   * nothing is left to borrow the last owner has gone: the object becomes
   * deallocating, or, if it already was, the release is an over-release.
   */
  function ReleaseStep(self: Ptr, st: ObjState): (res: Released)
    requires IsTaggedPointer(self) || !st.isa.Unset?
    ensures IsTaggedPointer(self) || IsMetaClassObject(st) ==> res == Released(st, StillAlive)
    ensures res.outcome == ShouldDealloc ==> !IsDeallocating(self, st) && IsDeallocating(self, res.st)
    ensures res.outcome != ShouldDealloc ==> IsDeallocating(self, res.st) == IsDeallocating(self, st)
    ensures res.outcome == OverRelease ==> res.st == st && IsDeallocating(self, st)
    ensures !IsTaggedPointer(self) && !IsMetaClassObject(st) && Valid(st) ==>
      && Valid(res.st)
      && (res.outcome == StillAlive <==> Count(st) > 1)
      && (res.outcome == ShouldDealloc <==> Count(st) == 1 && !IsDeallocating(self, st))
      && (res.outcome == StillAlive ==> Count(res.st) + 1 == Count(st))
      && (res.outcome != StillAlive ==> Count(res.st) == 1)
    ensures SameFlags(st, res.st)
    ensures !IsTaggedPointer(self) && st.isa.Packed? && st.isa.extraRc == 0
            && st.isa.hasSidetableRc && st.side.extra > 0
        ==> && res.outcome == StillAlive
            && res.st.isa.hasSidetableRc
            && res.st.isa.extraRc < RcHalf
            && res.st.isa.extraRc + 1 + res.st.side.extra == st.side.extra
            && res.st.isa == st.isa.(extraRc := res.st.isa.extraRc)
    ensures !IsTaggedPointer(self) && !st.isa.Packed? ==> res.st.isa == st.isa
    ensures !IsTaggedPointer(self) && st.isa.Packed? && st.isa.extraRc > 0
        ==> res == Released(st.(isa := st.isa.(extraRc := st.isa.extraRc - 1)), StillAlive)
    ensures res.outcome == ShouldDealloc && st.isa.Packed? ==> res.st == st.(isa := st.isa.(deallocating := true))
  {
    if IsTaggedPointer(self) then Released(st, StillAlive)
    else match st.isa
      case Raw(cls) =>
        if cls.isMetaClass then Released(st, StillAlive)
        else
          var s := SideTable.Release(st.side);
          Released(st.(side := s.entry), s.outcome)
      case Packed(_, _, _, _, deallocating, hasSidetableRc, extraRc) =>
        if extraRc > 0 then Released(st.(isa := st.isa.(extraRc := extraRc - 1)), StillAlive)
        else
          var b := if hasSidetableRc then SubExtraRc(st.side, RcHalf) else Borrow(0, st.side);
          if b.amount > 0 then Released(ObjState(st.isa.(extraRc := b.amount - 1), b.entry), StillAlive)
          else if deallocating then Released(st, OverRelease)
          else Released(st.(isa := st.isa.(deallocating := true)), ShouldDealloc)
  }

  datatype Changed = Changed(st: ObjState, prev: nat)

  /** Whether `changeIsa(newCls)` builds a packed header. */
  predicate ChangesToNonpointer(isa: Isa, newCls: Class)
  {
    (isa.Unset? || isa.Packed?) && !newCls.isFuture && newCls.canAllocNonpointer
  }

  /**
   * `changeIsa(newCls)`: give the object a new class and return the old
   * one. A packed header that becomes a raw pointer hands its count and
   * flags to the side table, so no owner and no flag is lost.
   */
  function ChangeIsaStep(st: ObjState, newCls: Class): (res: Changed)
    ensures res.prev == ClassOf(st.isa)
    ensures !res.st.isa.Unset?
    ensures res.st.isa.Packed? <==> ChangesToNonpointer(st.isa, newCls)
    ensures res.st.isa.Packed? ==> ClassOf(res.st.isa) == ShiftedClass(newCls.addr) * 8
                                   && res.st.isa.hasCxxDtor == newCls.hasCxxDtor
    ensures !res.st.isa.Packed? ==> res.st.isa == Raw(newCls)
    ensures Valid(st) ==>
      && Valid(res.st)
      && Count(res.st) == Count(st)
      && Deallocating(res.st) == Deallocating(st)
      && IsWeaklyReferenced(res.st) == IsWeaklyReferenced(st)
    ensures !st.isa.Unset? && AssocRecorded(st) ==> AssocRecorded(res.st)
    ensures ChangesToNonpointer(st.isa, newCls) ==>
      res.st == st.(isa := (if st.isa.Unset? then MagicIsa else st.isa)
                           .(hasCxxDtor := newCls.hasCxxDtor, shiftcls := ShiftedClass(newCls.addr)))
  {
    var oldisa := st.isa;
    if ChangesToNonpointer(oldisa, newCls) then
      var base := if oldisa.Unset? then MagicIsa else oldisa;
      Changed(st.(isa := base.(hasCxxDtor := newCls.hasCxxDtor, shiftcls := ShiftedClass(newCls.addr))),
              ClassOf(oldisa))
    else if oldisa.Packed? then
      Changed(ObjState(Raw(newCls),
                       MoveExtraRc(st.side, oldisa.extraRc, oldisa.deallocating, oldisa.weaklyReferenced)),
              ClassOf(oldisa))
    else
      Changed(st.(isa := Raw(newCls)), ClassOf(oldisa))
  }

  /**
   * `setHasAssociatedObjects`: set `has_assoc` in a packed header and touch
   * nothing else; a tagged pointer or a raw header is left alone.
   */
  function SetAssocStep(self: Ptr, st: ObjState): (res: ObjState)
    ensures !IsTaggedPointer(self) ==> HasAssociatedObjects(self, res)
    ensures IsTaggedPointer(self) || !st.isa.Packed? || st.isa.hasAssoc ==> res == st
    ensures !IsTaggedPointer(self) && st.isa.Packed? ==> res == st.(isa := st.isa.(hasAssoc := true))
    ensures Valid(st) ==> Valid(res)
    ensures Count(res) == Count(st) && IsDeallocating(self, res) == IsDeallocating(self, st)
    ensures IsWeaklyReferenced(res) == IsWeaklyReferenced(st) && ClassOf(res.isa) == ClassOf(st.isa)
  {
    if IsTaggedPointer(self) then st
    else if !st.isa.Packed? || st.isa.hasAssoc then st
    else st.(isa := st.isa.(hasAssoc := true))
  }

  /**
   * `setWeaklyReferenced_nolock`: set `weakly_referenced` in a packed
   * header, or the side table's flag for any other header, and touch
   * nothing else.
   */
  function SetWeakStep(st: ObjState): (res: ObjState)
    ensures IsWeaklyReferenced(res)
    ensures IsWeaklyReferenced(st) ==> res == st
    ensures st.isa.Packed? ==> res == st.(isa := st.isa.(weaklyReferenced := true))
    ensures !st.isa.Packed? ==> res == st.(side := st.side.(weaklyReferenced := true))
    ensures Valid(st) && !st.isa.Unset? ==> Valid(res)
    ensures Count(res) == Count(st) && ClassOf(res.isa) == ClassOf(st.isa)
    ensures Deallocating(res) == Deallocating(st) && AssocRecorded(res) == AssocRecorded(st)
  {
    if !st.isa.Packed? then st.(side := SetWeaklyReferenced(st.side))
    else if st.isa.weaklyReferenced then st
    else st.(isa := st.isa.(weaklyReferenced := true))
  }

  /** Setting either flag twice is the same as setting it once. */
  lemma FlagSettersIdempotent(self: Ptr, st: ObjState)
    ensures SetAssocStep(self, SetAssocStep(self, st)) == SetAssocStep(self, st)
    ensures SetWeakStep(SetWeakStep(st)) == SetWeakStep(st)
  {
  }

  /**
   * The fast-path test of `rootDealloc`: a packed header with no weak
   * references, no associated objects, no C++ destructor and nothing in the
   * side table may simply be freed.
   */
  function DeallocFastPath(self: Ptr, st: ObjState): (fast: bool)
    requires !IsTaggedPointer(self)
    ensures fast <==> && st.isa.Packed?
                      && !IsWeaklyReferenced(st)
                      && !HasAssociatedObjects(self, st)
                      && !HasCxxDtor(st)
                      && !st.isa.hasSidetableRc
    ensures fast && Valid(st) ==> st.side == Absent
  {
    match st.isa
    case Packed(hasAssoc, hasCxxDtor, _, weaklyReferenced, _, hasSidetableRc, _) =>
      !weaklyReferenced && !hasAssoc && !hasCxxDtor && !hasSidetableRc
    case _ => false
  }

  /** Which teardown `clearDeallocating` asks the side table for. */
  datatype ClearPath = NothingToClear | SidetableClear | SlowClear

  datatype Cleared = Cleared(st: ObjState, path: ClearPath)

  /**
   * `clearDeallocating`: a raw header has its side-table entry cleared; a
   * packed header goes the slow way only with weak references or a
   * side-table count, and the slow way erases the count. Afterwards the
   * object has no side-table entry.
   */
  function ClearDeallocatingStep(st: ObjState): (res: Cleared)
    ensures res.st.isa == st.isa
    ensures res.path == SidetableClear <==> !st.isa.Packed?
    ensures res.path == SlowClear <==> st.isa.Packed? && (st.isa.weaklyReferenced || st.isa.hasSidetableRc)
    ensures res.path == NothingToClear ==> res.st == st
    ensures Valid(st) ==> Valid(res.st) && res.st.side == Absent
  {
    if !st.isa.Packed? then Cleared(st.(side := Absent), SidetableClear)
    else if st.isa.weaklyReferenced || st.isa.hasSidetableRc then
      Cleared(if st.isa.hasSidetableRc then st.(side := Absent) else st, SlowClear)
    else Cleared(st, NothingToClear)
  }
}
