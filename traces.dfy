/**
 * Sequences of lifetime operations on one heap object: what repeated
 * retains and releases do to the owner count, and that the one-way
 * deallocating gate lets at most one release start deallocation.
 */
module Traces {
  import opened Header
  import opened TaggedPointer
  import SideTable
  import opened Lifetime

  /** A heap object that is counted: not tagged, header set, not a class object. */
  predicate Counted(self: Ptr, st: ObjState)
  {
    !IsTaggedPointer(self) && !st.isa.Unset? && !IsMetaClassObject(st) && Valid(st)
  }

  /** The state after `n` plain retains. */
  function RetainTimes(self: Ptr, st: ObjState, n: nat): (r: ObjState)
    requires Counted(self, st)
    ensures Counted(self, r)
    ensures Count(r) == Count(st) + n
    ensures RetainCount(self, r) == RetainCount(self, st) + n
    ensures Deallocating(r) == Deallocating(st)
    ensures SameFlags(st, r)
    decreases n
  {
    if n == 0 then st
    else RetainTimes(self, RetainStep(self, st, false).st, n - 1)
  }

  /** The state after `n` releases, each of which leaves an owner behind. */
  function ReleaseTimes(self: Ptr, st: ObjState, n: nat): (r: ObjState)
    requires Counted(self, st)
    requires Count(st) > n
    ensures Counted(self, r)
    ensures Count(r) == Count(st) - n
    ensures RetainCount(self, r) + n == RetainCount(self, st)
    ensures Deallocating(r) == Deallocating(st)
    ensures SameFlags(st, r)
    decreases n
  {
    if n == 0 then st
    else
      var step := ReleaseStep(self, st);
      assert step.outcome == SideTable.StillAlive;
      ReleaseTimes(self, step.st, n - 1)
  }

  /**
   * Every release of a retained object leaves an owner behind, and `n`
   * retains followed by `n` releases give back the retain count, however
   * often the inline count overflowed into the side table on the way up and
   * borrowed back on the way down.
   */
  lemma RetainsThenReleasesRestoreCount(self: Ptr, st: ObjState, n: nat)
    requires Counted(self, st)
    ensures Count(RetainTimes(self, st, n)) > n
    ensures RetainCount(self, ReleaseTimes(self, RetainTimes(self, st, n), n)) == RetainCount(self, st)
  {
  }

  /** One retain and one release in a row leave the retain count as it was. */
  lemma RetainThenReleaseRoundTrip(self: Ptr, st: ObjState)
    requires Counted(self, st)
    ensures var up := RetainStep(self, st, false);
            var down := ReleaseStep(self, up.st);
            && up.r == self
            && down.outcome == SideTable.StillAlive
            && RetainCount(self, down.st) == RetainCount(self, st)
  {
  }

  /**
   * Starting from a fresh nonpointer object, retaining it `RcLimit + k`
   * times loses no owner: the count is exact and the overflow sits in the
   * side table.
   */
  lemma OverflowKeepsEveryOwner(self: Ptr, cls: Class, hasCxxDtor: bool, k: nat)
    requires !IsTaggedPointer(self)
    ensures var st := ObjState(NonpointerIsa(cls, hasCxxDtor), SideTable.Absent);
            var r := RetainTimes(self, st, RcLimit + k);
            && RetainCount(self, r) == 1 + RcLimit + k
            && r.isa.Packed? && r.isa.hasSidetableRc
            && r.side.extra > 0
  {
  }

  /**
   * After `changeIsa(cls)`, the next `changeIsa` reports `cls` as the
   * previous class, provided a packed header can hold its address.
   */
  lemma ChangeIsaReportsInstalledClass(st: ObjState, cls: Class, next: Class)
    requires cls.addr % 8 == 0 && cls.addr < 8 * ShiftclsLimit
    ensures ChangeIsaStep(ChangeIsaStep(st, cls).st, next).prev == cls.addr
  {
  }

  /** The lifetime operations a trace is made of. */
  datatype Op =
    | Retain
    | TryRetain
    | Release
    | SetAssoc
    | SetWeak
    | ChangeIsa(cls: Class)

  /**
   * The end of a trace: the final state, how many releases asked for
   * deallocation, and whether the trace stopped at a fatal over-release.
   */
  datatype Outcome = Outcome(st: ObjState, deallocs: nat, faulted: bool)

  /** One operation of a trace; the result says whether it asked for deallocation. */
  function Step(self: Ptr, st: ObjState, op: Op): Released
    requires !IsTaggedPointer(self) && !st.isa.Unset?
  {
    match op
    case Retain => Released(RetainStep(self, st, false).st, SideTable.StillAlive)
    case TryRetain => Released(RetainStep(self, st, true).st, SideTable.StillAlive)
    case Release => ReleaseStep(self, st)
    case SetAssoc => Released(SetAssocStep(self, st), SideTable.StillAlive)
    case SetWeak => Released(SetWeakStep(st), SideTable.StillAlive)
    case ChangeIsa(cls) => Released(ChangeIsaStep(st, cls).st, SideTable.StillAlive)
  }

  /**
   * Run a trace. Whatever the operations and their order, at most one
   * release starts deallocation, none does once the object is
   * deallocating, and the gate, once shut, stays shut.
   */
  function Run(self: Ptr, st: ObjState, ops: seq<Op>): (o: Outcome)
    requires !IsTaggedPointer(self) && !st.isa.Unset? && Valid(st)
    ensures Valid(o.st) && !o.st.isa.Unset?
    ensures o.deallocs <= 1
    ensures Deallocating(st) ==> o.deallocs == 0 && Deallocating(o.st)
    ensures o.deallocs == 1 ==> Deallocating(o.st)
    decreases |ops|
  {
    if ops == [] then Outcome(st, 0, false)
    else
      var step := Step(self, st, ops[0]);
      if step.outcome == SideTable.OverRelease then Outcome(st, 0, true)
      else
        var rest := Run(self, step.st, ops[1..]);
        Outcome(rest.st, rest.deallocs + (if step.outcome == SideTable.ShouldDealloc then 1 else 0), rest.faulted)
  }

  /**
   * A release that drops the last owner starts deallocation; a second one
   * is reported as an over-release and changes nothing.
   */
  lemma LastReleaseThenOverRelease(self: Ptr, st: ObjState)
    requires Counted(self, st)
    requires Count(st) == 1 && !Deallocating(st)
    ensures var first := ReleaseStep(self, st);
            var second := ReleaseStep(self, first.st);
            && first.outcome == SideTable.ShouldDealloc
            && IsDeallocating(self, first.st)
            && second.outcome == SideTable.OverRelease
            && second.st == first.st
  {
  }

  /** Once the object is deallocating, every try-retain is refused and changes nothing. */
  lemma TryRetainRefusedAfterDealloc(self: Ptr, st: ObjState)
    requires Counted(self, st)
    requires Deallocating(st)
    ensures RetainStep(self, st, true) == Retained(st, Nil)
  {
  }
}
