/** `src/lib/spells/abort-manager.svelte.ts`: the abort controllers a
  * component has handed out, aborted together when it unmounts. A
  * controller is its identity here; `aborted` holds the identities whose
  * `abort()` has run. Registering the unmount hook fails outside a
  * component's initialisation, and that failure is ignored. */
module AbortManager {
  import opened CreateInit

  /** The identities in `s`. */
  function Members(s: seq<nat>): (r: set<nat>)
    ensures forall c :: c in r <==> c in s
  {
    set c | c in s
  }

  class AbortManager {
    /** The tracked controllers, oldest first. */
    var controllers: seq<nat>
    /** The controllers aborted so far, tracked or not. */
    var aborted: set<nat>
    /** The identity the next controller gets. */
    var nextId: nat
    /** Whether `abortAll` runs when the component unmounts. */
    var teardownRegistered: bool
    const init: Init

    /** Every identity in use was handed out before `nextId`. */
    predicate Valid()
      reads this
    {
      (forall c :: c in controllers ==> c < nextId)
      && (forall c :: c in aborted ==> c < nextId)
    }

    /** `new AbortManager()`: runs `init`, whose callback registers the
      * unmount hook when the manager is created during a component's
      * initialisation. */
    constructor(insideComponent: bool)
      ensures Valid() && fresh(init)
      ensures controllers == [] && aborted == {}
      ensures init.called && init.runs == 1
      ensures teardownRegistered == insideComponent
    {
      controllers := [];
      aborted := {};
      nextId := 0;
      teardownRegistered := false;
      init := new Init();
      new;
      var ran := init.Call();
      if ran && insideComponent {
        teardownRegistered := true;
      }
    }

    /** `createController()`: a fresh controller, appended and returned. */
    method CreateController() returns (c: nat)
      requires Valid()
      modifies this
      ensures Valid()
      ensures c !in old(controllers) && c !in old(aborted)
      ensures c == old(nextId) && nextId == old(nextId) + 1
      ensures controllers == old(controllers) + [c]
      ensures aborted == old(aborted) && teardownRegistered == old(teardownRegistered)
    {
      c := nextId;
      nextId := nextId + 1;
      controllers := controllers + [c];
    }

    /** `abortAll()`: every tracked controller is aborted, in order, and the
      * manager is emptied. */
    method AbortAll()
      requires Valid()
      modifies this
      ensures Valid()
      ensures controllers == []
      ensures aborted == old(aborted) + Members(old(controllers))
      ensures nextId == old(nextId) && teardownRegistered == old(teardownRegistered)
    {
      var tracked := controllers;
      for i := 0 to |tracked|
        invariant aborted == old(aborted) + Members(tracked[..i])
        invariant forall c :: c in aborted ==> c < nextId
        invariant controllers == tracked && nextId == old(nextId) && teardownRegistered == old(teardownRegistered)
      {
        assert tracked[..i + 1] == tracked[..i] + [tracked[i]];
        assert tracked[i] in controllers;
        aborted := aborted + {tracked[i]};
      }
      assert tracked[..|tracked|] == tracked;
      controllers := [];
    }

    /** `clear()`: the manager is emptied and nothing is aborted. */
    method Clear()
      requires Valid()
      modifies this
      ensures Valid()
      ensures controllers == [] && aborted == old(aborted)
      ensures nextId == old(nextId) && teardownRegistered == old(teardownRegistered)
    {
      controllers := [];
    }

    /** The component unmounts: the registered hook aborts everything. */
    method Unmount()
      requires Valid()
      modifies this
      ensures Valid()
      ensures teardownRegistered ==> controllers == [] && aborted == old(aborted) + Members(old(controllers))
      ensures !teardownRegistered ==> controllers == old(controllers) && aborted == old(aborted)
      ensures teardownRegistered == old(teardownRegistered)
    {
      if teardownRegistered {
        AbortAll();
      }
    }
  }

  /** A controller the manager was cleared of escapes a later `abortAll`,
    * while one created after the clearing is aborted by it. */
  method ClearedEscapesAbort(m: AbortManager) returns (before: nat, after: nat)
    requires m.Valid()
    modifies m
    ensures before !in m.aborted && after in m.aborted
    ensures m.controllers == []
  {
    before := m.CreateController();
    m.Clear();
    after := m.CreateController();
    m.AbortAll();
  }
}
