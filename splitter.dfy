/** `src/lib/spells/splitter.svelte.ts`: a draggable separator whose value
  * moves by 20 with the arrow keys and follows the pointer while resizing,
  * always clamped to `[min, max]`. The full-page overlay shown while
  * resizing is tracked by identity: the overlays in the document and the
  * one the stored remover would take out. An absent `max` is `Infinity`.
  * The value's `Synced` wrapper and its change callback are left out. */
module Splitter {
  import opened Wrappers
  import Number

  const Step: real := 20.0

  /** `clamp(min, v, max)` with `max` possibly infinite. */
  function Bounded(min: real, v: real, max: Option<real>): real
  {
    if max.Some? then Number.Clamp(min, v, max.value) else Number.Max(min, v)
  }

  /** The result lies in `[min, max]` when that range is not empty, and is
    * `v` when `v` already does. */
  lemma BoundedInRange(min: real, v: real, max: Option<real>)
    requires max.None? || min <= max.value
    ensures min <= Bounded(min, v, max)
    ensures max.Some? ==> Bounded(min, v, max) <= max.value
    ensures min <= v && (max.None? || v <= max.value) ==> Bounded(min, v, max) == v
  {
    if max.Some? {
      Number.ClampInRange(min, v, max.value);
    }
  }

  class Splitter {
    var isResizing: bool
    const min: real
    const max: Option<real>
    var value: real
    /** Whether the attachment's document listeners are installed. */
    var attached: bool
    /** The overlays in the document, by identity. */
    var overlays: set<nat>
    /** The overlay `#removeOverlay` would remove, if it is set. */
    var removeOverlay: Option<nat>
    /** The identity the next overlay gets. */
    var nextOverlay: nat

    /** `new Splitter(props)`: `min` defaults to 0, `max` to `Infinity`, the
      * value to 0. */
    constructor(min: Option<real>, max: Option<real>, value: Option<real>)
      ensures this.min == min.GetOr(0.0) && this.max == max
      ensures this.value == value.GetOr(0.0)
      ensures !isResizing && !attached && overlays == {} && removeOverlay == None
    {
      this.min := min.GetOr(0.0);
      this.max := max;
      this.value := value.GetOr(0.0);
      isResizing := false;
      attached := false;
      overlays := {};
      removeOverlay := None;
      nextOverlay := 0;
    }

    /** Whether the stored remover refers to an overlay in the document. */
    predicate Valid()
      reads this
    {
      (removeOverlay.Some? ==> removeOverlay.value in overlays)
      && forall o :: o in overlays ==> o < nextOverlay
    }

    /** `onkeydown`: ArrowLeft and ArrowRight move the value by 20 within
      * the bounds; other keys change nothing. */
    method KeyDown(key: string)
      modifies this
      ensures key == "ArrowLeft" ==> value == Bounded(min, old(value) - Step, max)
      ensures key == "ArrowRight" ==> value == Bounded(min, old(value) + Step, max)
      ensures key != "ArrowLeft" && key != "ArrowRight" ==> value == old(value)
      ensures isResizing == old(isResizing) && overlays == old(overlays) && removeOverlay == old(removeOverlay)
      ensures attached == old(attached) && nextOverlay == old(nextOverlay)
    {
      if key == "ArrowLeft" {
        value := Bounded(min, value - Step, max);
      } else if key == "ArrowRight" {
        value := Bounded(min, value + Step, max);
      }
    }

    /** `onmousedown`: resizing starts and a new overlay is put in the
      * document, its remover replacing any earlier one. */
    method MouseDown()
      requires Valid()
      modifies this
      ensures Valid()
      ensures isResizing && value == old(value) && attached == old(attached)
      ensures old(nextOverlay) !in old(overlays)
      ensures overlays == old(overlays) + {old(nextOverlay)} && removeOverlay == Some(old(nextOverlay))
    {
      isResizing := true;
      overlays := overlays + {nextOverlay};
      removeOverlay := Some(nextOverlay);
      nextOverlay := nextOverlay + 1;
    }

    /** Running `#removeOverlay?.()`: the overlay leaves the document and the
      * remover clears itself. */
    method RemoveOverlay()
      modifies this
      ensures removeOverlay == None
      ensures old(removeOverlay).Some? ==> overlays == old(overlays) - {old(removeOverlay).value}
      ensures old(removeOverlay).None? ==> overlays == old(overlays)
      ensures isResizing == old(isResizing) && value == old(value) && attached == old(attached)
      ensures nextOverlay == old(nextOverlay)
    {
      if removeOverlay.Some? {
        overlays := overlays - {removeOverlay.value};
        removeOverlay := None;
      }
    }

    /** Attaching installs the document listeners. */
    method Attach()
      modifies this
      ensures attached && isResizing == old(isResizing) && value == old(value)
      ensures overlays == old(overlays) && removeOverlay == old(removeOverlay) && nextOverlay == old(nextOverlay)
    {
      attached := true;
    }

    /** A document `mousemove`: only while attached and resizing does the
      * value follow the pointer. */
    method MouseMove(clientX: real)
      modifies this
      ensures attached && isResizing ==> value == Bounded(min, clientX, max)
      ensures !(attached && isResizing) ==> value == old(value)
      ensures isResizing == old(isResizing) && attached == old(attached)
      ensures overlays == old(overlays) && removeOverlay == old(removeOverlay) && nextOverlay == old(nextOverlay)
    {
      if !attached || !isResizing {
        return;
      }
      value := Bounded(min, clientX, max);
    }

    /** A document `mouseup` while attached: resizing stops and the overlay
      * goes. */
    method MouseUp()
      modifies this
      ensures attached ==> !isResizing && removeOverlay == None
      ensures attached && old(removeOverlay).Some? ==> overlays == old(overlays) - {old(removeOverlay).value}
      ensures attached && old(removeOverlay).None? ==> overlays == old(overlays)
      ensures !attached ==> isResizing == old(isResizing) && overlays == old(overlays) && removeOverlay == old(removeOverlay)
      ensures value == old(value) && attached == old(attached) && nextOverlay == old(nextOverlay)
    {
      if !attached {
        return;
      }
      isResizing := false;
      RemoveOverlay();
    }

    /** The attachment's cleanup: the listeners go, then the overlay. */
    method Detach()
      modifies this
      ensures !attached && removeOverlay == None
      ensures old(removeOverlay).Some? ==> overlays == old(overlays) - {old(removeOverlay).value}
      ensures old(removeOverlay).None? ==> overlays == old(overlays)
      ensures isResizing == old(isResizing) && value == old(value) && nextOverlay == old(nextOverlay)
    {
      attached := false;
      RemoveOverlay();
    }
  }

  /** A press and release on an attached splitter leave no overlay behind
    * and end the resize; a second removal then changes nothing. */
  method PressAndRelease(s: Splitter)
    requires s.Valid() && s.attached && s.removeOverlay.None?
    modifies s
    ensures !s.isResizing && s.overlays == old(s.overlays) && s.removeOverlay == None && s.value == old(s.value)
  {
    s.MouseDown();
    s.MouseUp();
    s.RemoveOverlay();
  }

  /** A second press before a release leaves the first overlay in the
    * document for good: the release only removes the latest one. This
    * follows from keeping a single remover; the first overlay covers the
    * page, so a second press reaches the separator only when it is
    * dispatched to it directly. */
  method PressTwiceLeaks(s: Splitter)
    requires s.Valid() && s.attached && s.removeOverlay.None?
    modifies s
    ensures exists o :: o in s.overlays && o !in old(s.overlays)
    ensures s.removeOverlay == None && !s.isResizing
  {
    var first := s.nextOverlay;
    s.MouseDown();
    s.MouseDown();
    s.MouseUp();
    assert first in s.overlays;
  }
}
