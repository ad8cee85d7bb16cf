# Objective-C object lifetime engine (objc4-781), modelled in Dafny

This project models the inline object lifetime engine of the Objective-C
runtime, `objc4-781/runtime/objc-object.h`: the packed header word `isa_t`
of every heap object, the reference count kept partly inline (`extra_rc`)
and partly in a side table, the one-way `deallocating` gate, the header
set-up and class-change paths, tagged-pointer classification and the
thread-local optimized-return handshake.

The model is sequential: each compare-and-swap loop of the runtime is one
atomic step whose store always succeeds. It covers one configuration,
non-indexed and nonpointer-capable, with the arm64 field widths
(`extra_rc` 19 bits, so `RC_HALF` is 2^18; `shiftcls` 33 bits).

Modules, one file each:

- `Header` (`header.dfy`): the header word as a datatype `Isa`: `Unset`
  (all-zero bits), `Raw` (a class pointer) or `Packed` (the bit fields).
  Also the class as an opaque record of the flags the engine reads, and
  `ISA()` with the `initIsa` round trip.
- `TaggedPointer` (`tagged_pointer.dfy`): tag bits, slot extraction and
  `getIsa`'s class lookup with its fallback to the extended table.
- `SideTable` (`side_table.dfy`): the abstract side-table record of one
  object, which holds an extra count, a deallocating flag and a
  weakly-referenced flag. It also gives the `sidetable_*` operations the
  engine calls.
- `Lifetime` (`lifetime.dfy`): the lifetime state (header plus side-table
  record) as a value, the accounting invariant `Valid`, the owner count
  `Count`, and one function per operation giving the next state. Their
  contracts state what the engine promises.
- `Traces` (`traces.dfy`): repeated retains and releases, arbitrary
  operation sequences, and the lemmas that relate several operations.
- `OptimizedReturn` (`optimized_return.dfy`): the thread's
  return-disposition slot as a class, with prepare and accept.
- `Runtime` (`objc_object.dfy`): `objc_object` as a class whose header
  and side-table record are updated in place. Its calls into code outside
  the model (`objc_msgSend`, `free`, `object_dispose`, the side-table
  teardown, the autorelease pool) are appended to an event log. Each
  method follows the runtime's control flow. Its `ensures` ties the new
  state to the matching `Lifetime` function, so everything proved about
  those functions holds for the methods.

`rootRetainCount` reports 1 + `extra_rc`, plus the side-table count when
`has_sidetable_rc` is set. The model's central invariant makes this the
exact owner count: `Count = 1 + extra_rc + side.extra`, and nothing is
parked in the side table unless `has_sidetable_rc` is set.

The last release does not itself reclaim memory: `rootRelease` sends
`dealloc` only when `performDealloc` is set, `rootReleaseShouldDealloc`
leaves the `dealloc` to its caller, and memory is reclaimed later by
`rootDealloc`.

## Model

| member | source | states |
|---|---|---|
| Header.ClassOf | objc4-781/runtime/objc-object.h:163-176 | `ISA()` of a packed header is an 8-byte-aligned class address |
| Header.ShiftedClass | objc4-781/runtime/objc-object.h:253 | `cls >> 3` stored in `shiftcls` fits the field and never exceeds the address it came from |
| Header.NonpointerClassRoundTrip | objc4-781/runtime/objc-object.h:224-258 | a packed header built by `initIsa` gives back the class through `ISA()` exactly when the class address is 8-byte aligned and fits `shiftcls` |
| TaggedPointer.IsTaggedPointer | objc4-781/runtime/objc-object.h:100-104 | a reference is a tagged pointer exactly when its top bit is set, that is when it is at least 2^63 |
| TaggedPointer.IsExtTaggedPointer | objc4-781/runtime/objc-object.h:112-117 | an extended tagged pointer decodes to a tagged pointer, and is one itself when the obfuscator leaves the tag bit alone |
| TaggedPointer.TagSlot | objc4-781/runtime/objc-object.h:85 | the basic slot is below 16, and at least 8 for a tagged pointer (the tag bit is part of it) |
| TaggedPointer.ExtTagSlot | objc4-781/runtime/objc-object.h:88 | the extended slot is below 256 |
| TaggedPointer.TaggedClass | objc4-781/runtime/objc-object.h:85-91 | the class comes from the basic table unless that entry is the unrecognized sentinel, and then from the extended table |
| TaggedPointer.GetIsa | objc4-781/runtime/objc-object.h:76-92 | a heap object's class is `ISA()`; a tagged pointer's comes from the basic table, or the extended one when the basic entry is the sentinel |
| TaggedPointer.TaggedClassFollowsExtTag | objc4-781/runtime/objc-object.h:106-117 | when the obfuscator leaves the four top bits alone and the sentinel sits in the extended-marker slot only, the sentinel test agrees with `isExtTaggedPointer` and `isBasicTaggedPointer`: extended pointers are looked up in the extended table, basic ones in the basic table |
| SideTable.SubExtraRc | objc4-781/runtime/objc-object.h:704 | a borrow takes at most `RC_HALF`, removes exactly what it returns, returns zero only from an empty count and keeps the flags |
| Lifetime.RetainCount | objc4-781/runtime/objc-object.h:817-842 | a tagged pointer reports its own bits; a heap object reports 1 + `extra_rc` + the side-table count, which under the invariant is the owner count |
| Lifetime.RetainStep | objc4-781/runtime/objc-object.h:494-584 | tagged and class objects are unchanged; try-retain of a deallocating object returns nil and changes nothing; otherwise exactly one owner is added: a raw header stays as it was and only the side table changes; without carry it goes into `extra_rc` and nothing else changes, and on carry `extra_rc` becomes `RC_HALF`, `has_sidetable_rc` is set and `RC_HALF` goes to the side table; the invariant and every other flag are kept |
| Lifetime.ReleaseStep | objc4-781/runtime/objc-object.h:628-790 | tagged and class objects are unchanged and not deallocated; a raw header stays as it was and only the side table changes; a release with `extra_rc > 0` only decrements `extra_rc`; a release keeps the object alive iff it had more than one owner, and then removes exactly one; it starts deallocation iff it removed the last owner of an object not yet deallocating, and then a packed header changes only its `deallocating` bit (so `has_sidetable_rc` survives); otherwise it is an over-release that changes nothing; a side-table borrow sets `extra_rc` to `borrowed - 1 < RC_HALF` and keeps `has_sidetable_rc` |
| Lifetime.ChangeIsaStep | objc4-781/runtime/objc-object.h:261-339 | returns the previous class; builds a packed header iff the old header was zero or packed and the new class is not a future class and allows packed headers, and then only `has_cxx_dtor` and `shiftcls` change (a zero header starts from the magic value) and the side table is untouched; a packed-to-raw change moves `extra_rc`, `deallocating` and `weakly_referenced` to the side table, so the owner count and both flags are kept |
| Lifetime.SetAssocStep | objc4-781/runtime/objc-object.h:351-365 | afterwards the object has associated objects; only `has_assoc` of a packed header changes, and tagged pointers, raw headers and already-set bits are left alone |
| Lifetime.SetWeakStep | objc4-781/runtime/objc-object.h:377-394 | afterwards the object is weakly referenced; only `weakly_referenced` changes, in the header when packed and in the side table otherwise |
| Lifetime.FlagSettersIdempotent | objc4-781/runtime/objc-object.h:351-394 | setting either flag twice is the same as setting it once |
| Lifetime.DeallocFastPath | objc4-781/runtime/objc-object.h:434-451 | `free` is taken iff the header is packed and none of weakly-referenced, associated objects, C++ destructor, side-table count holds; then, under the invariant, the object has no side-table entry |
| Lifetime.ClearDeallocatingStep | objc4-781/runtime/objc-object.h:416-431 | a raw header takes the side-table path, a packed one the slow path iff it is weakly referenced or has a side-table count; afterwards, under the invariant, no side-table entry is present |
| Traces.RetainTimes | objc4-781/runtime/objc-object.h:546-578 | `n` retains add exactly `n` owners, however often `extra_rc` overflows, and keep the gate and the flags |
| Traces.ReleaseTimes | objc4-781/runtime/objc-object.h:659-755 | `n` releases of an object with more than `n` owners remove exactly `n`, however often they borrow from the side table |
| Traces.RetainsThenReleasesRestoreCount | objc4-781/runtime/objc-object.h:494-790 | `n` retains followed by `n` releases give back the retain count |
| Traces.RetainThenReleaseRoundTrip | objc4-781/runtime/objc-object.h:827-836 | a retain followed by a release returns the object, keeps it alive and leaves `rootRetainCount` unchanged |
| Traces.OverflowKeepsEveryOwner | objc4-781/runtime/objc-object.h:546-578 | retaining a fresh packed object `2^19 + k` times counts every owner, with the overflow held in the side table |
| Traces.ChangeIsaReportsInstalledClass | objc4-781/runtime/objc-object.h:329-338 | after `changeIsa(cls)` the next `changeIsa` returns `cls` when a packed header can hold its address |
| Traces.Run | objc4-781/runtime/objc-object.h:757-790 | over any sequence of lifetime operations at most one release starts deallocation, none does once the object is deallocating, and the gate stays shut |
| Traces.LastReleaseThenOverRelease | objc4-781/runtime/objc-object.h:757-790 | the release of the last owner starts deallocation and a further release is an over-release that changes nothing |
| Traces.TryRetainRefusedAfterDealloc | objc4-781/runtime/objc-object.h:533-541 | a try-retain of a deallocating object returns nil and changes nothing |
| OptimizedReturn.ThreadState.GetReturnDisposition | objc4-781/runtime/objc-object.h:1270-1274 | reads the thread's disposition slot |
| OptimizedReturn.ThreadState.SetReturnDisposition | objc4-781/runtime/objc-object.h:1277-1281 | writes the thread's disposition slot |
| OptimizedReturn.ThreadState.PrepareOptimizedReturn | objc4-781/runtime/objc-object.h:1287-1298 | succeeds iff the caller accepts, and then the slot holds the given disposition; otherwise the slot stays +0 |
| OptimizedReturn.ThreadState.AcceptOptimizedReturn | objc4-781/runtime/objc-object.h:1304-1310 | returns the stored disposition and resets the slot to +0 |
| OptimizedReturn.Handoff | objc4-781/runtime/objc-object.h:1284-1310 | prepare then accept delivers the callee's disposition iff the caller accepted, +0 otherwise, and leaves the slot at +0 |
| Runtime.ObjcObject.InitIsa | objc4-781/runtime/objc-object.h:223-258 | stores the class pointer or the packed word with `has_cxx_dtor` and `cls >> 3`; from fresh memory the result satisfies the invariant with one owner, and `ISA()` gives back an aligned class |
| Runtime.ObjcObject.InitRawIsa | objc4-781/runtime/objc-object.h:192-196 | stores the class pointer |
| Runtime.ObjcObject.InitClassIsa | objc4-781/runtime/objc-object.h:198-206 | packed header unless packed headers are disabled or the class requires raw ones |
| Runtime.ObjcObject.InitProtocolIsa | objc4-781/runtime/objc-object.h:208-212 | the same header as `initClassIsa` |
| Runtime.ObjcObject.InitInstanceIsa | objc4-781/runtime/objc-object.h:214-221 | packed header whose C++ destructor bit is the class's |
| Runtime.ObjcObject.ChangeIsa | objc4-781/runtime/objc-object.h:261-339 | new state and returned class are those of `Lifetime.ChangeIsaStep` |
| Runtime.ObjcObject.SetHasAssociatedObjects | objc4-781/runtime/objc-object.h:351-365 | new state is that of `Lifetime.SetAssocStep` |
| Runtime.ObjcObject.SetWeaklyReferencedNolock | objc4-781/runtime/objc-object.h:377-394 | new state is that of `Lifetime.SetWeakStep` |
| Runtime.ObjcObject.RootRetainBase | objc4-781/runtime/objc-object.h:493-584 | new state and result are those of `Lifetime.RetainStep`, whether or not the overflow is handled by re-entering with `handleOverflow` |
| Runtime.ObjcObject.RootRetain | objc4-781/runtime/objc-object.h:481-485 | a plain retain always returns the object itself |
| Runtime.ObjcObject.RootTryRetain | objc4-781/runtime/objc-object.h:487-491 | succeeds iff the object is not a deallocating instance |
| Runtime.ObjcObject.RootReleaseBase | objc4-781/runtime/objc-object.h:627-790 | new state is that of `Lifetime.ReleaseStep`; returns true iff the release started deallocation; sends `dealloc` iff that happened and `performDealloc` is set; reports an over-release |
| Runtime.ObjcObject.RootRelease | objc4-781/runtime/objc-object.h:613-617 | release that sends `dealloc` itself |
| Runtime.ObjcObject.RootReleaseShouldDealloc | objc4-781/runtime/objc-object.h:619-623 | release that never sends `dealloc` |
| Runtime.ObjcObject.RootRetainCount | objc4-781/runtime/objc-object.h:817-842 | the count `Lifetime.RetainCount` gives, which is the owner count under the invariant |
| Runtime.ObjcObject.RootIsDeallocating | objc4-781/runtime/objc-object.h:407-413 | false for a tagged pointer, else the gate wherever the header keeps it |
| Runtime.ObjcObject.RootDealloc | objc4-781/runtime/objc-object.h:434-451 | nothing for a tagged pointer; otherwise one `free` on the fast path, else one `object_dispose` |
| Runtime.ObjcObject.ClearDeallocating | objc4-781/runtime/objc-object.h:416-431 | the side-table teardown of `Lifetime.ClearDeallocatingStep`, after which no entry is present |
| Runtime.ObjcObject.RootAutorelease | objc4-781/runtime/objc-object.h:807-814 | returns the object; a tagged pointer changes nothing; otherwise a +1 disposition if the caller accepts, else the object goes to the autorelease pool |
| Runtime.ObjcObject.Retain | objc4-781/runtime/objc-object.h:456-469 | a class with custom retain/release gets the message, any other the runtime's own retain |
| Runtime.ObjcObject.Release | objc4-781/runtime/objc-object.h:589-600 | a class with custom retain/release gets the message, any other the runtime's own release |
| Runtime.ObjcObject.Autorelease | objc4-781/runtime/objc-object.h:794-803 | a class with custom retain/release gets the message, any other the runtime's own autorelease |

## Left out

- Atomics and locks: `LoadExclusive`, `StoreExclusive`, `ClearExclusive`, the acquire fence and the side-table lock serve concurrency. Each loop is one atomic step whose store succeeds. So the `goto retry` after taking the side-table lock, and the store-failed branches of the borrow (lines 716-747), which put `borrowed` back, are not modelled.
- Side-table internals: `sidetable_retain`, `sidetable_release`, `sidetable_tryRetain`, `sidetable_clearDeallocating`, the weak table, the pinned count and the striping of tables live in NSObject.mm, which is not part of this model. The side table is one unbounded record per object.
- SideTable.Release: a raw-header release of an object that is already deallocating and has no extra count is treated as the fatal over-release, like the packed header's. The real `sidetable_release` is not part of this model.
- `objc_msgSend` dispatch (custom retain, release, autorelease and `dealloc`), `free`, `object_dispose`, `clearDeallocating_slow` and `rootAutorelease2` are foreign calls and appear only as events in `ObjcObject.events`.
- Runtime.ObjcObject.Retain: with a custom retain the result is taken to be the object itself; what the override returns is not modelled.
- Runtime.ObjcObject.Autorelease: with a custom autorelease the result is taken to be the object itself; what the override returns is not modelled.
- `overrelease_error` is fatal and does not return. The model records an `OverreleaseError` event and leaves the state unchanged.
- `callerAcceptsOptimizedReturn` reads machine code at the return address; it is a boolean input here. Thread-local storage is a single field per thread object.
- `isClass`, `hasNonpointerIsa`, `rawISA` and `isaBits` are plain reads of the header, covered by the `Isa` datatype. `isClass` also needs the class flags of a packed header's class, which the model does not look up from an address.
- TaggedPointer.IsBasicTaggedPointer, Lifetime.HasAssociatedObjects, Lifetime.IsWeaklyReferenced, Lifetime.HasCxxDtor and Header.NonpointerIsa (lines 106-110, 342-348, 368-374, 397-403, 246-253) are plain reads or constructions with no contract of their own. What they answer is stated by the contracts that use them: TaggedClassFollowsExtTag, SetAssocStep, SetWeakStep, DeallocFastPath, ChangeIsaStep and NonpointerClassRoundTrip.
- The `SUPPORT_INDEXED_ISA` configuration (class index tables) and the `!SUPPORT_NONPOINTER_ISA` and `!SUPPORT_TAGGED_POINTERS` variants are not modelled.
- The bit positions of `isa_t` (isa.h) and the tagged-pointer constants (objc-internal.h) are not part of this model. Fields are modelled by value with the arm64 widths, and the tag layout is the most-significant-bit one.
- The `magic` bits, `ISA_MASK` itself and the placement of the tagged-pointer tables in memory are not modelled. The tables are given as sequences, and the sentinel is given as an address.
- The debug-only assertions `!DisableNonpointerIsa` in `initIsa` and `!sidetable_present()` after teardown are not preconditions. The second is proved as a postcondition under the invariant.
- The retain-count word width: `rootRetainCount` returns a `uintptr_t`, and the side-table count is bounded in the real table. Counts here are unbounded naturals.
- The weakly-referenced bit and the C++ destructor are not tied to a weak table or a destructor; they are flags only.
- The other headers of the repository (YYImage, ProtocolKit, YYModel and demo classes) declare interfaces only and hold no logic to model.
