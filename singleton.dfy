/**
 * The "only one instance per process" guard shared by BaseViewManager and
 * BaseEventManager: a static `_isInstantiated` flag that each base
 * constructor tests and then sets.  The static field becomes one explicit
 * object that every construction of the same base class is handed.
 */
module Singleton {

  class InstanceGuard {
    /** `_isInstantiated`: false until the first construction. */
    var isInstantiated: bool

    constructor ()
      ensures !isInstantiated
    {
      isInstantiated := false;
    }

    /**
     * The body shared by both base constructors: the first call succeeds and
     * sets the flag; every later call (of any subclass, since the flag is
     * static) throws and leaves the flag set.
     */
    method Claim() returns (ok: bool)
      modifies this
      ensures ok == !old(isInstantiated)
      ensures isInstantiated
    {
      if isInstantiated {
        ok := false;
        return;
      }
      isInstantiated := true;
      ok := true;
    }
  }
}
