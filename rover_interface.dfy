/** The slider and switch wiring of rover-interface.js. Its two module
    globals (`isSyncing`, the re-entrancy guard, and `slideLockActive`) and
    the page's switch states are the fields of one object, and the left and
    right sliders are the objects it acts on. The guard's clearing timer
    (20 ms after a sync, 5 ms after a mirrored input) is the explicit step
    `GuardElapsed`. What the handlers hand on to the command layer
    (`sendSpeedCommandDebounced`, the `roverCommunication` setters, the page
    navigation) is returned as a value. */
module RoverInterface {
  import opened Common
  import opened Sliders
  import opened Switches

  /** The detent and snap range `syncSliders` uses by default. */
  const SNAP_VALUE: int := 0
  const SNAP_RANGE: int := 8

  /** What a switch click hands on. */
  datatype SwitchEffect =
    | SetHeadlampState(on: bool)
    | SetStopModeState(on: bool)
    | SetAvoidObjectState(on: bool)
    | SetFollowObjectState(on: bool)
    | OpenJoystickPage
    | NoEffect

  class Interface {
    var isSyncing: bool
    var slideLockActive: bool
    /** The switches whose element carries the `active` class. */
    var lit: set<SwitchId>
    const left: Slider
    const right: Slider

    /** The slider an event on `side` comes from. */
    function Source(side: Side): Slider
    {
      if side == Left then left else right
    }

    /** The other slider. */
    function Target(side: Side): Slider
    {
      if side == Left then right else left
    }

    /** The slide lock agrees with its switch. */
    predicate LockMatchesSwitch()
      reads this`slideLockActive, this`lit
    {
      slideLockActive <==> SlideLock in lit
    }

    /** The globals when the script loads, over a page whose switches
        `initiallyLit` are lit by its markup. */
    constructor (l: Slider, r: Slider, initiallyLit: set<SwitchId>)
      requires l != r
      ensures left == l && right == r && left != right
      ensures !isSyncing && !slideLockActive && lit == initiallyLit
    {
      left := l;
      right := r;
      isSyncing := false;
      slideLockActive := false;
      lit := initiallyLit;
    }

    /** The slide-lock part of `initializeInterface`: the lock is read from
        its switch. */
    method InitializeInterface()
      modifies this`slideLockActive
      ensures LockMatchesSwitch()
    {
      slideLockActive := SlideLock in lit;
    }

    /** `syncSliders(source, target)`, run by a slider's `change` event:
        nothing while the guard is set; otherwise the guard is set, the
        source snaps onto the centre detent, a locked target follows it, and
        both values are sent on. */
    method SyncSliders(side: Side) returns (send: Option<SpeedRequest>)
      requires left != right
      modifies this`isSyncing, left`value, right`value
      ensures isSyncing && slideLockActive == old(slideLockActive)
      ensures old(isSyncing) ==>
                send == None && left.value == old(left.value) && right.value == old(right.value)
      ensures !old(isSyncing) ==>
                Source(side).value == MagneticSnap(old(Source(side).value), SNAP_VALUE, SNAP_RANGE).value
      ensures !old(isSyncing) && slideLockActive ==> left.value == right.value
      ensures !old(isSyncing) && !slideLockActive ==> Target(side).value == old(Target(side).value)
      ensures !old(isSyncing) ==> send == Some(SpeedRequest(left.value, right.value))
    {
      if isSyncing {
        return None;
      }
      isSyncing := true;
      var _ := SnapAndMirror(Source(side), Target(side), slideLockActive, SNAP_VALUE, SNAP_RANGE);
      send := Some(SpeedRequest(left.value, right.value));
    }

    /** A slider's `input` event after the user moved it to `v`: the
        browser has already stored `v`; while the guard is set nothing else
        happens, otherwise a locked partner is set to `v` under the guard
        and both values are sent on. */
    method SliderInput(side: Side, v: int) returns (send: Option<SpeedRequest>)
      requires left != right
      modifies this`isSyncing, left`value, right`value
      ensures Source(side).value == v
      ensures old(isSyncing) ==>
                send == None && isSyncing && Target(side).value == old(Target(side).value)
      ensures !old(isSyncing) ==> isSyncing == slideLockActive
      ensures !old(isSyncing) && slideLockActive ==> Target(side).value == v
      ensures !old(isSyncing) && !slideLockActive ==> Target(side).value == old(Target(side).value)
      ensures !old(isSyncing) ==> send == Some(SpeedRequest(left.value, right.value))
    {
      Source(side).value := v;
      if isSyncing {
        return None;
      }
      if slideLockActive {
        isSyncing := true;
        Target(side).value := Source(side).value;
      }
      send := Some(SpeedRequest(left.value, right.value));
    }

    /** The guard's `setTimeout` callback. */
    method GuardElapsed()
      modifies this`isSyncing
      ensures !isSyncing
    {
      isSyncing := false;
    }

    /** A click on a switch (`initializeSwitches`): the switch toggles; the
        headlamp, stop-mode, avoid and follow switches pass their new state
        to the matching `roverCommunication` setter; the slide-lock switch
        sets the lock from its new state and, when locking, copies the left
        slider into the right one under the guard; a lit joystick-mode
        switch opens the joystick page. */
    method ClickSwitch(id: SwitchId) returns (effect: SwitchEffect)
      requires left != right
      modifies this`lit, this`slideLockActive, this`isSyncing, right`value
      ensures lit == Toggle(old(lit), id)
      ensures id == Headlamp ==> effect == SetHeadlampState(Headlamp in lit)
      ensures id == StopMode ==> effect == SetStopModeState(StopMode in lit)
      ensures id == Avoid ==> effect == SetAvoidObjectState(Avoid in lit)
      ensures id == Follow ==> effect == SetFollowObjectState(Follow in lit)
      ensures id == JoystickMode ==> effect == if JoystickMode in lit then OpenJoystickPage else NoEffect
      ensures id.SlideLock? || id.OtherSwitch? ==> effect == NoEffect
      ensures id == SlideLock ==> LockMatchesSwitch()
      ensures id == SlideLock && slideLockActive ==> isSyncing && right.value == left.value
      ensures id != SlideLock ==> slideLockActive == old(slideLockActive)
      ensures !(id == SlideLock && slideLockActive) ==>
                isSyncing == old(isSyncing) && right.value == old(right.value)
    {
      lit := Toggle(lit, id);
      var on := id in lit;
      match id
      case Headlamp => effect := SetHeadlampState(on);
      case StopMode => effect := SetStopModeState(on);
      case Avoid => effect := SetAvoidObjectState(on);
      case Follow => effect := SetFollowObjectState(on);
      case SlideLock =>
        slideLockActive := on;
        if slideLockActive {
          isSyncing := true;
          right.value := left.value;
        }
        effect := NoEffect;
      case JoystickMode => effect := if on then OpenJoystickPage else NoEffect;
      case OtherSwitch(_) => effect := NoEffect;
    }

    /** `roverInterface.setSlideLockState(state)`: sets the lock and lights
        or dims its switch, without touching the sliders. */
    method SetSlideLockState(state: bool)
      modifies this`slideLockActive, this`lit
      ensures slideLockActive == state && LockMatchesSwitch()
      ensures lit - {SlideLock} == old(lit) - {SlideLock}
    {
      slideLockActive := state;
      if state {
        lit := lit + {SlideLock};
      } else {
        lit := lit - {SlideLock};
      }
    }
  }
}
