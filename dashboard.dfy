/** dashboard.js, the plain dashboard's slider wiring: the two sliders
    snap onto a centre detent at 50 and mirror each other while the slide
    lock is on, and nothing is sent anywhere. The page's globals
    (`isSyncing`, `slideLockActive`) and its switch states are the fields
    of one object, the two sliders the objects it acts on; the guard's
    clearing timer (50 ms after a sync or a lock, 10 ms after a mirrored
    input) is the explicit step `GuardElapsed`. */
module Dashboard {
  import opened Sliders
  import opened Switches

  /** The detent, `applyMagneticSnap`'s default range and the wider range
      `syncSliders` passes it. */
  const SNAP_VALUE: int := 50
  const DEFAULT_SNAP_RANGE: int := 5
  const SYNC_SNAP_RANGE: int := 10

  /** Through `syncSliders` every value within 10 of 50 lands on 50,
      although `applyMagneticSnap`'s own default would leave those farther
      than 5 from it. */
  lemma SyncSnapsWithinTen(v: int)
    requires SNAP_VALUE - SYNC_SNAP_RANGE <= v <= SNAP_VALUE + SYNC_SNAP_RANGE
    ensures MagneticSnap(v, SNAP_VALUE, SYNC_SNAP_RANGE).value == SNAP_VALUE
    ensures v < SNAP_VALUE - DEFAULT_SNAP_RANGE || v > SNAP_VALUE + DEFAULT_SNAP_RANGE ==>
              MagneticSnap(v, SNAP_VALUE, DEFAULT_SNAP_RANGE) == Snap(v, false)
  {
  }

  class Page {
    var isSyncing: bool
    var slideLockActive: bool
    var lit: set<SwitchId>
    const left: Slider
    const right: Slider

    /** The slider an event on `side` comes from, and the other one. */
    function Source(side: Side): Slider
    {
      if side == Left then left else right
    }

    function Target(side: Side): Slider
    {
      if side == Left then right else left
    }

    /** The slide lock agrees with its switch. */
    predicate LockMatchesSwitch()
      reads this`slideLockActive, this`lit
    {
      slideLockActive <==> SlideLock in lit
    }

    /** The globals once the page has loaded: the lock is read from its
        switch, lit or not by the markup. */
    constructor (l: Slider, r: Slider, initiallyLit: set<SwitchId>)
      requires l != r
      ensures left == l && right == r && left != right && lit == initiallyLit
      ensures !isSyncing && LockMatchesSwitch()
    {
      left := l;
      right := r;
      lit := initiallyLit;
      isSyncing := false;
      slideLockActive := SlideLock in initiallyLit;
    }

    /** `syncSliders(source, target)` on a slider's `change` event: nothing
        while guarded; otherwise the source snaps onto 50 with range 10 and
        a locked target follows. The result is whether the "lock on but
        values differ" warning is logged, and it never is. */
    method SyncSliders(side: Side) returns (warned: bool)
      requires left != right
      modifies this`isSyncing, left`value, right`value
      ensures isSyncing && !warned
      ensures old(isSyncing) ==> left.value == old(left.value) && right.value == old(right.value)
      ensures !old(isSyncing) ==>
                Source(side).value == MagneticSnap(old(Source(side).value), SNAP_VALUE, SYNC_SNAP_RANGE).value
      ensures !old(isSyncing) && slideLockActive ==> left.value == right.value
      ensures !old(isSyncing) && !slideLockActive ==> Target(side).value == old(Target(side).value)
    {
      if isSyncing {
        return false;
      }
      isSyncing := true;
      var _ := SnapAndMirror(Source(side), Target(side), slideLockActive, SNAP_VALUE, SYNC_SNAP_RANGE);
      warned := slideLockActive && left.value != right.value;
    }

    /** A slider's `input` event after the user moved it to `v`: while
        guarded nothing else happens; otherwise a locked partner is set to
        `v` under the guard. No command is sent. */
    method SliderInput(side: Side, v: int)
      requires left != right
      modifies this`isSyncing, left`value, right`value
      ensures Source(side).value == v
      ensures old(isSyncing) ==> isSyncing && Target(side).value == old(Target(side).value)
      ensures !old(isSyncing) ==> isSyncing == slideLockActive
      ensures !old(isSyncing) && slideLockActive ==> Target(side).value == v
      ensures !old(isSyncing) && !slideLockActive ==> Target(side).value == old(Target(side).value)
    {
      Source(side).value := v;
      if isSyncing {
        return;
      }
      if slideLockActive {
        isSyncing := true;
        Target(side).value := Source(side).value;
      }
    }

    /** The guard's `setTimeout` callback. */
    method GuardElapsed()
      modifies this`isSyncing
      ensures !isSyncing
    {
      isSyncing := false;
    }

    /** A click on a switch: it toggles; on the slide-lock switch a second
        listener flips the lock and, when locking, copies left into right
        under the guard. */
    method ClickSwitch(id: SwitchId)
      requires left != right
      modifies this`lit, this`slideLockActive, this`isSyncing, right`value
      ensures lit == Toggle(old(lit), id)
      ensures old(LockMatchesSwitch()) ==> LockMatchesSwitch()
      ensures id == SlideLock ==> slideLockActive == !old(slideLockActive)
      ensures id != SlideLock ==> slideLockActive == old(slideLockActive)
      ensures id == SlideLock && slideLockActive ==> isSyncing && right.value == left.value
      ensures !(id == SlideLock && slideLockActive) ==>
                isSyncing == old(isSyncing) && right.value == old(right.value)
    {
      lit := Toggle(lit, id);
      if id == SlideLock {
        slideLockActive := !slideLockActive;
        if slideLockActive {
          isSyncing := true;
          right.value := left.value;
        }
      }
    }
  }
}
