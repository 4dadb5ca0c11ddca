/** `src/lib/spells/create-init.svelte.ts`: a function that runs its
  * callback on the first call only. `called` is set before the callback
  * is awaited, so a call made while it is still running does nothing too;
  * nothing ever clears it. */
module CreateInit {

  class Init {
    /** The exposed `called` flag. */
    var called: bool
    /** How many times the callback has been started. */
    var runs: nat

    /** `createInit(cb)`: not called yet. */
    constructor()
      ensures !called && runs == 0
    {
      called := false;
      runs := 0;
    }

    /** Calling the returned `init()`: `ran` tells whether the callback was
      * started by this call. */
    method Call() returns (ran: bool)
      modifies this
      ensures ran <==> !old(called)
      ensures called
      ensures runs == if ran then old(runs) + 1 else old(runs)
    {
      if called {
        return false;
      }
      called := true;
      runs := runs + 1;
      return true;
    }
  }

  /** However many calls follow the first, the callback has run once. */
  method CallTimes(n: nat) returns (init: Init)
    requires n >= 1
    ensures fresh(init) && init.called && init.runs == 1
  {
    init := new Init();
    var i := 0;
    while i < n
      invariant 0 <= i <= n
      invariant init.called <==> i > 0
      invariant init.runs == if i == 0 then 0 else 1
    {
      var _ := init.Call();
      i := i + 1;
    }
  }
}
