/**
 * The optimized-return handshake. A callee returning an object either
 * autoreleases it or, when the caller's code right after the call shows it
 * will retain the result at once, leaves a note in a thread-local slot
 * instead; the caller reads and clears the note. Whether the caller's code
 * has the marker instruction is an input here: reading the instruction
 * stream is not modelled.
 */
module OptimizedReturn {

  /** Whether the returned object comes with an owner (+1) or not (+0). */
  datatype ReturnDisposition = ReturnAtPlus0 | ReturnAtPlus1

  /** The thread-local storage slot RETURN_DISPOSITION_KEY of one thread. */
  class ThreadState {
    var disposition: ReturnDisposition

    /** A thread starts in the unoptimized state. */
    constructor()
      ensures disposition == ReturnAtPlus0
    {
      disposition := ReturnAtPlus0;
    }

    /** `getReturnDisposition`. */
    method GetReturnDisposition() returns (d: ReturnDisposition)
      ensures d == disposition
    {
      d := disposition;
    }

    /** `setReturnDisposition`. */
    method SetReturnDisposition(d: ReturnDisposition)
      modifies this
      ensures disposition == d
    {
      disposition := d;
    }

    /**
     * `prepareOptimizedReturn`: succeeds exactly when the caller accepts an
     * optimized return, and then records the disposition (+0 needs no
     * store, the slot already says +0).
     */
    method PrepareOptimizedReturn(d: ReturnDisposition, callerAccepts: bool) returns (ok: bool)
      requires disposition == ReturnAtPlus0
      modifies this
      ensures ok == callerAccepts
      ensures disposition == if ok then d else ReturnAtPlus0
    {
      if callerAccepts {
        if d == ReturnAtPlus1 {
          SetReturnDisposition(d);
        }
        return true;
      }
      return false;
    }

    /**
     * `acceptOptimizedReturn`: hand back the recorded disposition and reset
     * the slot to +0, the answer for an unoptimized return.
     */
    method AcceptOptimizedReturn() returns (d: ReturnDisposition)
      modifies this
      ensures d == old(disposition)
      ensures disposition == ReturnAtPlus0
    {
      d := GetReturnDisposition();
      SetReturnDisposition(ReturnAtPlus0);
    }
  }

  /**
   * A callee's prepare followed by the caller's accept: the caller learns
   * the callee's disposition exactly when the handshake succeeded, +0
   * otherwise, and the thread is left in the unoptimized state, ready for
   * the next call.
   */
  method Handoff(tls: ThreadState, d: ReturnDisposition, callerAccepts: bool)
    returns (optimized: bool, received: ReturnDisposition)
    requires tls.disposition == ReturnAtPlus0
    modifies tls
    ensures optimized == callerAccepts
    ensures received == if optimized then d else ReturnAtPlus0
    ensures tls.disposition == ReturnAtPlus0
  {
    optimized := tls.PrepareOptimizedReturn(d, callerAccepts);
    received := tls.AcceptOptimizedReturn();
  }
}
