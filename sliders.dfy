/** The two vertical range sliders of the tank-drive pages (left and right
    track speed) and the two operations every page applies to them: the
    magnetic snap, which pulls a released slider onto a detent when it is
    close enough, and the mirror copy that keeps the sliders together while
    the slide lock is on. A slider's value is held as the integer that
    `parseInt(slider.value, 10)` reads. */
module Sliders {
  import opened Common

  /** A range input element; only its value is modelled. */
  class Slider {
    var value: int

    constructor (v: int)
      ensures value == v
    {
      value := v;
    }
  }

  /** Which of the two sliders an event comes from. */
  datatype Side = Left | Right

  /** A call of `sendSpeedCommandDebounced(left, right)` with the two
      sliders' values. */
  datatype SpeedRequest = SpeedRequest(left: int, right: int)

  /** The slider's value after a snap and whether the snap fired. */
  datatype Snap = Snap(value: int, applied: bool)

  /** `applyMagneticSnap` on a value: a value within `range` of the detent
      `target` (but not on it) moves onto the detent. */
  function MagneticSnap(v: int, target: int, range: int): (r: Snap)
    ensures r.applied <==> r.value != v
    ensures r.applied ==> r.value == target
    ensures Abs(v - target) <= range ==> r.value == target
    ensures Abs(v - target) > range ==> r == Snap(v, false)
    ensures Abs(r.value - target) <= Abs(v - target)
  {
    if Abs(v - target) <= range && v != target then Snap(target, true) else Snap(v, false)
  }

  /** Snapping a value that has already been snapped changes nothing. */
  lemma SnapIdempotent(v: int, target: int, range: int)
    ensures var once := MagneticSnap(v, target, range).value;
            MagneticSnap(once, target, range) == Snap(once, false)
  {
  }

  /** The detents and ranges the pages use: centre 0 with range 8 on the
      operator pages, centre 50 with range 10 on the plain dashboard. */
  lemma SnapScenarios()
    ensures MagneticSnap(5, 0, 8) == Snap(0, true)
    ensures MagneticSnap(-8, 0, 8) == Snap(0, true)
    ensures MagneticSnap(9, 0, 8) == Snap(9, false)
    ensures MagneticSnap(0, 0, 8) == Snap(0, false)
    ensures MagneticSnap(41, 50, 10) == Snap(50, true)
    ensures MagneticSnap(39, 50, 10) == Snap(39, false)
  {
  }

  /** `applyMagneticSnap(slider, snapValue, snapRange)`: writes the snapped
      value back into the slider and returns whether the snap fired. */
  method ApplyMagneticSnap(slider: Slider, snapValue: int, snapRange: int) returns (snapped: bool)
    modifies slider`value
    ensures Snap(slider.value, snapped) == MagneticSnap(old(slider.value), snapValue, snapRange)
  {
    var value := slider.value;
    if Abs(value - snapValue) <= snapRange && value != snapValue {
      slider.value := snapValue;
      return true;
    }
    return false;
  }

  /** The body shared by every page's `syncSliders` once past its guard:
      snap the source and, when the lock is on, copy it into the target
      (the `input` event then dispatched to the target finds the guard set
      and does nothing). */
  method SnapAndMirror(source: Slider, target: Slider, lock: bool, snapValue: int, snapRange: int)
    returns (snapped: bool)
    requires source != target
    modifies source`value, target`value
    ensures Snap(source.value, snapped) == MagneticSnap(old(source.value), snapValue, snapRange)
    ensures lock ==> target.value == source.value
    ensures !lock ==> target.value == old(target.value)
  {
    snapped := ApplyMagneticSnap(source, snapValue, snapRange);
    if lock {
      target.value := source.value;
    }
  }
}
