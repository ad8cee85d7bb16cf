/**
 * `objc_object` as the runtime sees it: a header word updated in place,
 * the object's side-table record, and the calls the runtime makes into
 * code outside this model, recorded as events. Each method follows the
 * control flow of the runtime's inline method of the same name and is
 * proved to produce the state the matching function of `Lifetime` gives.
 */
module Runtime {
  import opened Header
  import opened TaggedPointer
  import SideTable
  import opened Lifetime
  import opened OptimizedReturn

  /** Calls into code this model does not contain, in the order they were made. */
  datatype Event =
    | SendRetain                  // objc_msgSend(self, @selector(retain))
    | SendRelease                 // objc_msgSend(self, @selector(release))
    | SendAutorelease             // objc_msgSend(self, @selector(autorelease))
    | SendDealloc                 // objc_msgSend(self, @selector(dealloc))
    | Free                        // free(self)
    | ObjectDispose               // object_dispose(self)
    | SidetableClearDeallocating  // sidetable_clearDeallocating()
    | ClearDeallocatingSlow       // clearDeallocating_slow()
    | AutoreleaseToPool           // rootAutorelease2()
    | OverreleaseError            // overrelease_error(), which does not return

  /** The teardown call `clearDeallocating` makes for each path. */
  function ClearEvents(path: ClearPath): (evs: seq<Event>)
    ensures |evs| <= 1
    ensures evs == [] <==> path == NothingToClear
  {
    match path
    case NothingToClear => []
    case SidetableClear => [SidetableClearDeallocating]
    case SlowClear => [ClearDeallocatingSlow]
  }

  /** The fatal report of a release, if any. */
  function ReleaseEvents(outcome: SideTable.ReleaseOutcome, performDealloc: bool): (evs: seq<Event>)
    ensures OverreleaseError in evs <==> outcome == SideTable.OverRelease
    ensures SendDealloc in evs <==> performDealloc && outcome == SideTable.ShouldDealloc
    ensures |evs| <= 1
  {
    if outcome == SideTable.OverRelease then [OverreleaseError]
    else if performDealloc && outcome == SideTable.ShouldDealloc then [SendDealloc]
    else []
  }

  class ObjcObject {
    /** The object reference `this`, tagged or not. */
    const self: Ptr
    /** The header word `isa`. */
    var isa: Isa
    /** This object's record in its side table. */
    var side: SideTable.Entry
    /** The calls made so far into code outside this model. */
    var events: seq<Event>

    function State(): ObjState
      reads this
    {
      ObjState(isa, side)
    }

    /** Freshly allocated memory: the header is zero and the side table has no entry. */
    constructor(p: Ptr)
      ensures self == p && isa == Unset && side == SideTable.Absent && events == []
    {
      self := p;
      isa := Unset;
      side := SideTable.Absent;
      events := [];
    }

    /**
     * `initIsa(cls, nonpointer, hasCxxDtor)`: store either the class
     * pointer itself or a packed word holding the class address shifted
     * right by three.
     */
    method InitIsa(cls: Class, nonpointer: bool, hasCxxDtor: bool)
      requires !IsTaggedPointer(self)
      requires nonpointer ==> !cls.instancesRequireRawIsa
      modifies this
      ensures isa == if nonpointer then NonpointerIsa(cls, hasCxxDtor) else Raw(cls)
      ensures side == old(side) && events == old(events)
      ensures old(side) == SideTable.Absent ==> Valid(State()) && Count(State()) == 1
      ensures cls.addr % 8 == 0 && cls.addr < 8 * ShiftclsLimit ==> ClassOf(isa) == cls.addr
    {
      if !nonpointer {
        isa := Raw(cls);
      } else {
        var newisa := MagicIsa;
        newisa := newisa.(hasCxxDtor := hasCxxDtor);
        newisa := newisa.(shiftcls := ShiftedClass(cls.addr));
        isa := newisa;
        NonpointerClassRoundTrip(cls, hasCxxDtor);
      }
    }

    /** `initIsa(cls)`: a raw-pointer header. */
    method InitRawIsa(cls: Class)
      requires !IsTaggedPointer(self)
      modifies this
      ensures isa == Raw(cls) && ClassOf(isa) == cls.addr
      ensures side == old(side) && events == old(events)
    {
      InitIsa(cls, false, false);
    }

    /**
     * `initClassIsa`: a packed header unless packed headers are disabled
     * process-wide or the class demands raw ones.
     */
    method InitClassIsa(cls: Class, disableNonpointerIsa: bool)
      requires !IsTaggedPointer(self)
      modifies this
      ensures isa == if disableNonpointerIsa || cls.instancesRequireRawIsa then Raw(cls)
                     else NonpointerIsa(cls, false)
      ensures side == old(side) && events == old(events)
    {
      if disableNonpointerIsa || cls.instancesRequireRawIsa {
        InitIsa(cls, false, false);
      } else {
        InitIsa(cls, true, false);
      }
    }

    /** `initProtocolIsa`: the same as `initClassIsa`. */
    method InitProtocolIsa(cls: Class, disableNonpointerIsa: bool)
      requires !IsTaggedPointer(self)
      modifies this
      ensures isa == if disableNonpointerIsa || cls.instancesRequireRawIsa then Raw(cls)
                     else NonpointerIsa(cls, false)
      ensures side == old(side) && events == old(events)
    {
      InitClassIsa(cls, disableNonpointerIsa);
    }

    /** `initInstanceIsa`: always a packed header, with the class's C++ destructor bit. */
    method InitInstanceIsa(cls: Class, hasCxxDtor: bool)
      requires !IsTaggedPointer(self)
      requires !cls.instancesRequireRawIsa && hasCxxDtor == cls.hasCxxDtor
      modifies this
      ensures isa == NonpointerIsa(cls, hasCxxDtor)
      ensures HasCxxDtor(State()) == cls.hasCxxDtor
      ensures side == old(side) && events == old(events)
    {
      InitIsa(cls, true, hasCxxDtor);
    }

    /** `changeIsa`: install the new class, moving the count to the side table when the header stops being packed. */
    method ChangeIsa(newCls: Class) returns (prev: nat)
      requires !IsTaggedPointer(self)
      modifies this
      ensures Changed(State(), prev) == ChangeIsaStep(old(State()), newCls)
      ensures events == old(events)
    {
      var oldisa := isa;
      var newisa: Isa;
      var transcribeToSideTable := false;
      if (oldisa.Unset? || oldisa.Packed?) && !newCls.isFuture && newCls.canAllocNonpointer {
        newisa := if oldisa.Unset? then MagicIsa else oldisa;
        newisa := newisa.(hasCxxDtor := newCls.hasCxxDtor);
        newisa := newisa.(shiftcls := ShiftedClass(newCls.addr));
      } else if oldisa.Packed? {
        transcribeToSideTable := true;
        newisa := Raw(newCls);
      } else {
        newisa := Raw(newCls);
      }
      isa := newisa;
      if transcribeToSideTable {
        side := SideTable.MoveExtraRc(side, oldisa.extraRc, oldisa.deallocating, oldisa.weaklyReferenced);
      }
      prev := ClassOf(oldisa);
    }

    /** `setHasAssociatedObjects`. */
    method SetHasAssociatedObjects()
      modifies this
      ensures State() == SetAssocStep(self, old(State()))
      ensures events == old(events)
    {
      if IsTaggedPointer(self) {
        return;
      }
      var oldisa := isa;
      if !oldisa.Packed? || oldisa.hasAssoc {
        return;
      }
      isa := oldisa.(hasAssoc := true);
    }

    /** `setWeaklyReferenced_nolock`. */
    method SetWeaklyReferencedNolock()
      modifies this
      ensures State() == SetWeakStep(old(State()))
      ensures events == old(events)
    {
      var oldisa := isa;
      if !oldisa.Packed? {
        side := SideTable.SetWeaklyReferenced(side);
        return;
      }
      if oldisa.weaklyReferenced {
        return;
      }
      isa := oldisa.(weaklyReferenced := true);
    }

    /**
     * `rootRetain(tryRetain, handleOverflow)`. The frameless call
     * (`handleOverflow` false) hands a carry out of `extra_rc` to the
     * framed one, as `rootRetain_overflow` does.
     */
    method RootRetainBase(tryRetain: bool, handleOverflow: bool) returns (r: bv64)
      requires IsTaggedPointer(self) || !isa.Unset?
      modifies this
      ensures Retained(State(), r) == RetainStep(self, old(State()), tryRetain)
      ensures events == old(events)
      decreases if handleOverflow then 0 else 1
    {
      if IsTaggedPointer(self) {
        return self;
      }
      var oldisa := isa;
      var newisa := oldisa;
      var transcribeToSideTable := false;
      if !newisa.Packed? {
        if newisa.cls.isMetaClass {
          return self;
        }
        if tryRetain {
          var t := SideTable.TryRetain(side);
          side := t.entry;
          return if t.ok then self else Nil;
        }
        side := SideTable.Retain(side);
        return self;
      }
      if tryRetain && newisa.deallocating {
        return Nil;
      }
      var carry := newisa.extraRc + 1 >= RcLimit;
      newisa := newisa.(extraRc := if carry then 0 else newisa.extraRc + 1);
      if carry {
        if !handleOverflow {
          r := RootRetainBase(tryRetain, true);
          return;
        }
        transcribeToSideTable := true;
        newisa := newisa.(extraRc := RcHalf, hasSidetableRc := true);
      }
      isa := newisa;
      if transcribeToSideTable {
        side := SideTable.AddExtraRc(side, RcHalf);
      }
      return self;
    }

    /** `rootRetain()`. */
    method RootRetain() returns (r: bv64)
      requires IsTaggedPointer(self) || !isa.Unset?
      modifies this
      ensures Retained(State(), r) == RetainStep(self, old(State()), false)
      ensures r == self
      ensures events == old(events)
    {
      r := RootRetainBase(false, false);
    }

    /** `rootTryRetain`: false exactly when a deallocating object refused the retain. */
    method RootTryRetain() returns (ok: bool)
      requires IsTaggedPointer(self) || !isa.Unset?
      modifies this
      ensures var res := RetainStep(self, old(State()), true);
              State() == res.st && ok == (res.r != Nil)
      ensures ok <==> !(IsDeallocating(self, old(State())) && !IsMetaClassObject(old(State())))
      ensures events == old(events)
    {
      var r := RootRetainBase(true, false);
      ok := r != Nil;
    }

    /**
     * `rootRelease(performDealloc, handleUnderflow)`. The frameless call
     * (`handleUnderflow` false) hands a borrow from the side table to the
     * framed one, as `rootRelease_underflow` does. The result is true when
     * the object must now be deallocated.
     */
    method RootReleaseBase(performDealloc: bool, handleUnderflow: bool) returns (shouldDealloc: bool)
      requires IsTaggedPointer(self) || !isa.Unset?
      modifies this
      ensures var res := ReleaseStep(self, old(State()));
              && State() == res.st
              && shouldDealloc == (res.outcome == SideTable.ShouldDealloc)
              && events == old(events) + ReleaseEvents(res.outcome, performDealloc)
      decreases if handleUnderflow then 0 else 1
    {
      if IsTaggedPointer(self) {
        return false;
      }
      var oldisa := isa;
      if !oldisa.Packed? {
        if oldisa.cls.isMetaClass {
          return false;
        }
        var s := SideTable.Release(side);
        side := s.entry;
        events := events + ReleaseEvents(s.outcome, performDealloc);
        return s.outcome == SideTable.ShouldDealloc;
      }
      if oldisa.extraRc > 0 {
        isa := oldisa.(extraRc := oldisa.extraRc - 1);
        return false;
      }
      // underflow: extra_rc was zero
      var newisa := oldisa;
      if newisa.hasSidetableRc {
        if !handleUnderflow {
          shouldDealloc := RootReleaseBase(performDealloc, true);
          return;
        }
        var borrowed := SideTable.SubExtraRc(side, RcHalf);
        if borrowed.amount > 0 {
          side := borrowed.entry;
          isa := newisa.(extraRc := borrowed.amount - 1);
          return false;
        }
      }
      if newisa.deallocating {
        events := events + [OverreleaseError];
        return false;
      }
      isa := newisa.(deallocating := true);
      if performDealloc {
        events := events + [SendDealloc];
      }
      return true;
    }

    /** `rootRelease()`: release, and send `dealloc` when the last owner went. */
    method RootRelease() returns (shouldDealloc: bool)
      requires IsTaggedPointer(self) || !isa.Unset?
      modifies this
      ensures var res := ReleaseStep(self, old(State()));
              && State() == res.st
              && shouldDealloc == (res.outcome == SideTable.ShouldDealloc)
              && events == old(events) + ReleaseEvents(res.outcome, true)
    {
      shouldDealloc := RootReleaseBase(true, false);
    }

    /** `rootReleaseShouldDealloc`: release, and leave `dealloc` to the caller. */
    method RootReleaseShouldDealloc() returns (shouldDealloc: bool)
      requires IsTaggedPointer(self) || !isa.Unset?
      modifies this
      ensures var res := ReleaseStep(self, old(State()));
              && State() == res.st
              && shouldDealloc == (res.outcome == SideTable.ShouldDealloc)
              && events == old(events) + ReleaseEvents(res.outcome, false)
    {
      shouldDealloc := RootReleaseBase(false, false);
    }

    /** `rootRetainCount`. */
    method RootRetainCount() returns (n: nat)
      ensures n == RetainCount(self, State())
      ensures !IsTaggedPointer(self) && Valid(State()) ==> n == Count(State())
    {
      if IsTaggedPointer(self) {
        return self as nat;
      }
      var bits := isa;
      if bits.Packed? {
        var rc := 1 + bits.extraRc;
        if bits.hasSidetableRc {
          rc := rc + SideTable.GetExtraRc(side);
        }
        return rc;
      }
      return SideTable.RetainCount(side);
    }

    /** `rootIsDeallocating`. */
    method RootIsDeallocating() returns (b: bool)
      ensures b == IsDeallocating(self, State())
    {
      if IsTaggedPointer(self) {
        return false;
      }
      if isa.Packed? {
        return isa.deallocating;
      }
      return side.deallocating;
    }

    /** `rootDealloc`: free a plain packed object directly, hand anything else to `object_dispose`. */
    method RootDealloc()
      modifies this
      ensures State() == old(State())
      ensures IsTaggedPointer(self) ==> events == old(events)
      ensures !IsTaggedPointer(self) ==>
        events == old(events) + [if DeallocFastPath(self, old(State())) then Free else ObjectDispose]
    {
      if IsTaggedPointer(self) {
        return;
      }
      if DeallocFastPath(self, State()) {
        events := events + [Free];
      } else {
        events := events + [ObjectDispose];
      }
    }

    /**
     * `clearDeallocating`: ask the side table to drop this object's entry
     * and weak references, the slow way only when there is something to
     * drop.
     */
    method ClearDeallocating()
      modifies this
      ensures var res := ClearDeallocatingStep(old(State()));
              State() == res.st && events == old(events) + ClearEvents(res.path)
      ensures Valid(old(State())) ==> side == SideTable.Absent
    {
      if !isa.Packed? {
        side := SideTable.Absent;
        events := events + [SidetableClearDeallocating];
      } else if isa.weaklyReferenced || isa.hasSidetableRc {
        if isa.hasSidetableRc {
          side := SideTable.Absent;
        }
        events := events + [ClearDeallocatingSlow];
      }
    }

    /**
     * `rootAutorelease`: hand the object to a caller that will retain it at
     * once through the thread's return disposition, else put it in the
     * autorelease pool.
     */
    method RootAutorelease(tls: ThreadState, callerAccepts: bool) returns (r: bv64)
      requires !IsTaggedPointer(self) ==> tls.disposition == ReturnAtPlus0
      modifies this, tls
      ensures r == self && State() == old(State())
      ensures IsTaggedPointer(self) ==> events == old(events) && tls.disposition == old(tls.disposition)
      ensures !IsTaggedPointer(self) ==>
        && tls.disposition == (if callerAccepts then ReturnAtPlus1 else ReturnAtPlus0)
        && events == old(events) + (if callerAccepts then [] else [AutoreleaseToPool])
    {
      if IsTaggedPointer(self) {
        return self;
      }
      var optimized := tls.PrepareOptimizedReturn(ReturnAtPlus1, callerAccepts);
      if optimized {
        return self;
      }
      events := events + [AutoreleaseToPool];
      return self;
    }

    /** The class `ISA()` designates, as the dispatchers below are given it. */
    predicate IsClassOf(cls: Class)
      reads this
    {
      !isa.Unset? && cls.addr == ClassOf(isa) && (isa.Raw? ==> isa.cls == cls)
    }

    /** `retain`: the runtime's own retain unless the class overrides it. */
    method Retain(cls: Class) returns (r: bv64)
      requires !IsTaggedPointer(self) && IsClassOf(cls)
      modifies this
      ensures r == self
      ensures cls.hasCustomRR ==> State() == old(State()) && events == old(events) + [SendRetain]
      ensures !cls.hasCustomRR ==>
        State() == RetainStep(self, old(State()), false).st && events == old(events)
    {
      if !cls.hasCustomRR {
        r := RootRetain();
        return;
      }
      events := events + [SendRetain];
      return self;
    }

    /** `release`: the runtime's own release unless the class overrides it. */
    method Release(cls: Class)
      requires !IsTaggedPointer(self) && IsClassOf(cls)
      modifies this
      ensures cls.hasCustomRR ==> State() == old(State()) && events == old(events) + [SendRelease]
      ensures !cls.hasCustomRR ==>
        var res := ReleaseStep(self, old(State()));
        State() == res.st && events == old(events) + ReleaseEvents(res.outcome, true)
    {
      if !cls.hasCustomRR {
        var _ := RootRelease();
        return;
      }
      events := events + [SendRelease];
    }

    /** `autorelease`: the runtime's own autorelease unless the class overrides it. */
    method Autorelease(cls: Class, tls: ThreadState, callerAccepts: bool) returns (r: bv64)
      requires !IsTaggedPointer(self) && IsClassOf(cls)
      requires !cls.hasCustomRR ==> tls.disposition == ReturnAtPlus0
      modifies this, tls
      ensures r == self && State() == old(State())
      ensures cls.hasCustomRR ==> events == old(events) + [SendAutorelease] && tls.disposition == old(tls.disposition)
      ensures !cls.hasCustomRR ==>
        && tls.disposition == (if callerAccepts then ReturnAtPlus1 else ReturnAtPlus0)
        && events == old(events) + (if callerAccepts then [] else [AutoreleaseToPool])
    {
      if !cls.hasCustomRR {
        r := RootAutorelease(tls, callerAccepts);
        return;
      }
      events := events + [SendAutorelease];
      return self;
    }
  }
}
