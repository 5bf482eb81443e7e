/** The drive arithmetic shared by joystick-control.js and rover-controls.js:
    the knob offset, its dead zone, the differential-drive mix that turns an
    offset and a speed multiplier into two wheel percentages, the nine
    direction zones, the zone pre-filter that decides whether a new motor
    intent is worth forwarding, the keyboard offsets and the gamepad stick
    dead zone. Both controller classes are proved against these functions. */
module DifferentialDrive {
  import opened Common

  /** `JOYSTICK_RADIUS`: the knob travels at most this many pixels. */
  const JOYSTICK_RADIUS: real := 70.0

  /** `DEAD_ZONE`: a knob offset closer than this to the centre is zero. */
  const DEAD_ZONE: real := 10.0

  /** `GAMEPAD_DEAD_ZONE`: a stick axis at most this far from 0 reads as 0. */
  const GAMEPAD_DEAD_ZONE: real := 0.15

  /** `KEYBOARD_SPEED * JOYSTICK_RADIUS`: the offset one held key produces. */
  const KEYBOARD_OFFSET: real := 0.7 * 70.0

  /** Within a zone, a wheel must move this much to forward a new intent. */
  const ZONE_DRIFT: int := 15

  /** A knob offset in pixels; positive y is downwards (backwards). */
  datatype Position = Position(x: real, y: real)

  const CENTRE: Position := Position(0.0, 0.0)

  /** The two wheel percentages `calculateMotorValues` returns. */
  datatype Motors = Motors(left: int, right: int)

  /** Normalised turn component: right is positive. */
  function NormX(p: Position): real { p.x / JOYSTICK_RADIUS }

  /** Normalised forward component: the y axis is inverted. */
  function NormY(p: Position): real { -p.y / JOYSTICK_RADIUS }

  /** `updateJoystickPosition` after the radius clamp: an offset whose
      distance from the centre is below the dead zone is stored as the
      centre. The distance test is written on squares. */
  function ApplyDeadZone(dx: real, dy: real): (p: Position)
    requires dx * dx + dy * dy <= JOYSTICK_RADIUS * JOYSTICK_RADIUS
    ensures dx * dx + dy * dy < DEAD_ZONE * DEAD_ZONE ==> p == CENTRE
    ensures dx * dx + dy * dy >= DEAD_ZONE * DEAD_ZONE ==> p == Position(dx, dy)
  {
    if dx * dx + dy * dy < DEAD_ZONE * DEAD_ZONE then CENTRE else Position(dx, dy)
  }

  /** The unscaled wheel pair: forward plus and minus turn. */
  datatype Wheels = Wheels(l: real, r: real)

  /** `x / m` lies in `[-1, 1]` when `|x| <= m`. */
  lemma QuotientWithinOne(x: real, m: real)
    requires m > 0.0 && AbsReal(x) <= m
    ensures -1.0 <= x / m <= 1.0
  {
    assert (x / m) * m == x;
  }

  /** Dividing two numbers by the same positive `m` keeps each recoverable
      and keeps their ratio. */
  lemma CommonQuotient(l: real, r: real, m: real)
    requires m > 0.0
    ensures (l / m) * m == l && (r / m) * m == r
    ensures (l / m) * r == (r / m) * l
  {
    assert (l / m) * r == (l * r) / m;
    assert (r / m) * l == (l * r) / m;
  }

  /** Dividing a pair by a bound on both magnitudes: the facts `Normalise`
      needs, proved apart from it. */
  lemma DivideByLarger(l: real, r: real, m: real)
    requires m > 0.0 && AbsReal(l) <= m && AbsReal(r) <= m
    ensures -1.0 <= l / m <= 1.0 && -1.0 <= r / m <= 1.0
    ensures (l / m) * m == l && (r / m) * m == r
    ensures (l / m) * r == (r / m) * l
  {
    QuotientWithinOne(l, m);
    QuotientWithinOne(r, m);
    CommonQuotient(l, r, m);
  }

  /** The scaling step of `calculateMotorValues`: the pair is divided by
      the larger magnitude when that exceeds 1, which brings both wheels
      into `[-1, 1]` and keeps their ratio. */
  function Normalise(l: real, r: real): (w: Wheels)
    // a larger pair is divided by its larger magnitude, and a pair already
    // within [-1, 1] is kept
    ensures var m := MaxReal(AbsReal(l), AbsReal(r));
            m > 1.0 ==> w.l * m == l && w.r * m == r
    ensures -1.0 <= w.l <= 1.0 && -1.0 <= w.r <= 1.0
    ensures MaxReal(AbsReal(l), AbsReal(r)) <= 1.0 ==> w == Wheels(l, r)
  {
    var m := MaxReal(AbsReal(l), AbsReal(r));
    if m > 1.0 then
      DivideByLarger(l, r, m);
      Wheels(l / m, r / m)
    else
      Wheels(l, r)
  }

  /** Normalising keeps the ratio of the two wheels. */
  lemma NormaliseKeepsRatio(l: real, r: real)
    ensures Normalise(l, r).l * r == Normalise(l, r).r * l
  {
    var m := MaxReal(AbsReal(l), AbsReal(r));
    if m > 1.0 {
      CommonQuotient(l, r, m);
    }
  }

  /** `w` is the pair `(l, r)` divided by 1, or by the larger magnitude
      when that exceeds 1. */
  predicate ScaledFrom(w: Wheels, l: real, r: real)
  {
    var k := MaxReal(1.0, MaxReal(AbsReal(l), AbsReal(r)));
    w.l * k == l && w.r * k == r
  }

  /** Both `Normalise` cases in one: the pair divided by the larger of 1
      and its larger magnitude. */
  lemma NormaliseDividesByLarger(l: real, r: real)
    ensures ScaledFrom(Normalise(l, r), l, r)
  {
    var m := MaxReal(AbsReal(l), AbsReal(r));
    if m <= 1.0 {
      assert MaxReal(1.0, m) == 1.0;
    } else {
      assert MaxReal(1.0, m) == m;
    }
  }

  /** The mix before the speed multiplier: forward plus and minus turn,
      normalised. */
  function Mix(p: Position): (w: Wheels)
    ensures -1.0 <= w.l <= 1.0 && -1.0 <= w.r <= 1.0
  {
    Normalise(NormY(p) + NormX(p), NormY(p) - NormX(p))
  }

  /** The wheels of the mix are forward + turn and forward - turn, divided
      by the larger of 1 and their larger magnitude. */
  lemma MixScalesForwardAndTurn(p: Position)
    ensures ScaledFrom(Mix(p), NormY(p) + NormX(p), NormY(p) - NormX(p))
  {
    NormaliseDividesByLarger(NormY(p) + NormX(p), NormY(p) - NormX(p));
  }

  /** `n` is `Math.round(x)`: the nearest integer, a half rounded up. */
  predicate RoundsTo(n: int, x: real)
  {
    n as real <= x + 0.5 < n as real + 1.0
  }

  /** A wheel times the speed multiplier, as a percentage. */
  function Percent(w: real, speed: real): real { w * speed * 100.0 }

  /** `calculateMotorValues`: the mixed pair times the speed multiplier
      times 100, each rounded with `Math.round`. */
  function CalculateMotorValues(p: Position, speed: real): (m: Motors)
    ensures RoundsTo(m.left, Percent(Mix(p).l, speed)) && RoundsTo(m.right, Percent(Mix(p).r, speed))
  {
    var w := Mix(p);
    Motors(Round(Percent(w.l, speed)), Round(Percent(w.r, speed)))
  }

  /** A unit-bounded wheel times a speed in `[0, 1]` times 100 stays within
      `100 * speed` either way. */
  lemma ScaledWithin(w: real, speed: real)
    requires -1.0 <= w <= 1.0 && 0.0 <= speed
    ensures -(100.0 * speed) <= Percent(w, speed) <= 100.0 * speed
  {
    assert w * speed <= 1.0 * speed;
    assert -1.0 * speed <= w * speed;
  }

  /** Whatever the position, for a speed multiplier in `[0, 1]` neither
      wheel exceeds `Math.round(100 * speed)`, which is at most 100. */
  lemma MotorsWithinSpeed(p: Position, speed: real)
    requires 0.0 <= speed <= 1.0
    ensures var m := CalculateMotorValues(p, speed);
            Abs(m.left) <= Round(100.0 * speed) && Abs(m.right) <= Round(100.0 * speed)
    ensures Round(100.0 * speed) <= 100
  {
    var w := Mix(p);
    var a := 100.0 * speed;
    var l := Percent(w.l, speed);
    var r := Percent(w.r, speed);
    ScaledWithin(w.l, speed);
    ScaledWithin(w.r, speed);
    assert -a <= l <= a && -a <= r <= a;
    RoundWithin(l, a);
    RoundWithin(r, a);
    RoundMonotone(a, 100.0);
    assert CalculateMotorValues(p, speed) == Motors(Round(l), Round(r));
  }

  /** The centre gives two stopped wheels at any speed. */
  lemma CentreStopsBothWheels(speed: real)
    ensures CalculateMotorValues(CENTRE, speed) == Motors(0, 0)
  {
    assert Mix(CENTRE) == Wheels(0.0, 0.0);
    assert Percent(0.0, speed) == 0.0;
    assert Round(0.0) == 0;
  }

  /** Swapping the pair swaps the normalised pair. */
  lemma NormaliseSwap(l: real, r: real)
    ensures Normalise(r, l) == Wheels(Normalise(l, r).r, Normalise(l, r).l)
  {
    assert MaxReal(AbsReal(r), AbsReal(l)) == MaxReal(AbsReal(l), AbsReal(r));
  }

  /** Mirroring the knob left to right swaps the wheels. */
  lemma MirrorSwapsWheels(p: Position, speed: real)
    ensures var m := CalculateMotorValues(p, speed);
            CalculateMotorValues(Position(-p.x, p.y), speed) == Motors(m.right, m.left)
  {
    var q := Position(-p.x, p.y);
    assert NormX(q) == -NormX(p) && NormY(q) == NormY(p);
    NormaliseSwap(NormY(p) + NormX(p), NormY(p) - NormX(p));
    assert Mix(q) == Wheels(Mix(p).r, Mix(p).l);
    assert CalculateMotorValues(q, speed)
           == Motors(Round(Percent(Mix(p).r, speed)), Round(Percent(Mix(p).l, speed)));
  }

  /** Full forward drives both wheels at `Math.round(100 * speed)`. */
  lemma FullForward(speed: real)
    ensures CalculateMotorValues(Position(0.0, -JOYSTICK_RADIUS), speed)
            == Motors(Round(100.0 * speed), Round(100.0 * speed))
  {
  }

  /** Full right at half speed spins in place: left 50, right -50. */
  lemma FullRightAtHalfSpeed()
    ensures CalculateMotorValues(Position(JOYSTICK_RADIUS, 0.0), 0.5) == Motors(50, -50)
  {
  }

  /** The nine direction zones of `DIRECTION_ZONES`. */
  datatype Zone = Stop | Forward | Backward | ForwardLeft | ForwardRight
                | BackwardLeft | BackwardRight | TurnLeft | TurnRight

  predicate IsForwardZone(z: Zone) { z == Forward || z == ForwardLeft || z == ForwardRight }
  predicate IsBackwardZone(z: Zone) { z == Backward || z == BackwardLeft || z == BackwardRight }
  predicate IsTurnZone(z: Zone) { z == TurnLeft || z == TurnRight }

  /** `getCurrentDirectionZone`: a small offset on both axes is STOP; a
      clear forward or backward component picks the forward or backward
      family, split into diagonals at 0.25 on the turn axis; otherwise a
      clear turn component picks a turn zone; anything else is STOP. */
  function DirectionZone(p: Position): (z: Zone)
    // a small offset on both axes is STOP, and any other zone needs a clear
    // forward, backward or turn component
    ensures AbsReal(NormX(p)) < 0.15 && AbsReal(NormY(p)) < 0.15 ==> z == Stop
    ensures z != Stop ==> AbsReal(NormY(p)) > 0.3 || AbsReal(NormX(p)) > 0.4
  {
    var nx := NormX(p);
    var ny := NormY(p);
    if AbsReal(nx) < 0.15 && AbsReal(ny) < 0.15 then Stop
    else if AbsReal(ny) > 0.3 then
      if ny > 0.0 then
        if nx > 0.25 then ForwardRight else if nx < -0.25 then ForwardLeft else Forward
      else
        if nx > 0.25 then BackwardRight else if nx < -0.25 then BackwardLeft else Backward
    else if AbsReal(nx) > 0.4 then
      if nx > 0.0 then TurnRight else TurnLeft
    else Stop
  }

  /** The zone families in terms of the normalised offset, in both
      directions: forward iff `ny > 0.3`, backward iff `ny < -0.3`, a turn
      iff `|ny| <= 0.3` and `|nx| > 0.4`, and STOP in every other case; the
      diagonals are exactly the family members with `|nx| > 0.25`. */
  lemma ZoneFamilies(p: Position)
    ensures IsForwardZone(DirectionZone(p)) <==> NormY(p) > 0.3
    ensures IsBackwardZone(DirectionZone(p)) <==> NormY(p) < -0.3
    ensures IsTurnZone(DirectionZone(p)) <==> AbsReal(NormY(p)) <= 0.3 && AbsReal(NormX(p)) > 0.4
    ensures DirectionZone(p) == Stop <==> AbsReal(NormY(p)) <= 0.3 && AbsReal(NormX(p)) <= 0.4
    ensures DirectionZone(p) == ForwardRight <==> NormY(p) > 0.3 && NormX(p) > 0.25
    ensures DirectionZone(p) == ForwardLeft <==> NormY(p) > 0.3 && NormX(p) < -0.25
    ensures DirectionZone(p) == BackwardRight <==> NormY(p) < -0.3 && NormX(p) > 0.25
    ensures DirectionZone(p) == BackwardLeft <==> NormY(p) < -0.3 && NormX(p) < -0.25
    ensures DirectionZone(p) == TurnRight <==> AbsReal(NormY(p)) <= 0.3 && NormX(p) > 0.4
  {
  }

  /** The left-right mirror of a zone. */
  function MirrorZone(z: Zone): Zone {
    match z
    case ForwardLeft => ForwardRight
    case ForwardRight => ForwardLeft
    case BackwardLeft => BackwardRight
    case BackwardRight => BackwardLeft
    case TurnLeft => TurnRight
    case TurnRight => TurnLeft
    case _ => z
  }

  /** The thresholds are symmetric: mirroring the knob mirrors the zone. */
  lemma MirrorMirrorsZone(p: Position)
    ensures DirectionZone(Position(-p.x, p.y)) == MirrorZone(DirectionZone(p))
  {
    assert NormX(Position(-p.x, p.y)) == -NormX(p);
  }

  /** An offset the dead zone swallows stops both wheels at any speed and
      reads as STOP. */
  lemma DeadZoneStops(dx: real, dy: real, speed: real)
    requires dx * dx + dy * dy < DEAD_ZONE * DEAD_ZONE
    ensures CalculateMotorValues(ApplyDeadZone(dx, dy), speed) == Motors(0, 0)
    ensures DirectionZone(ApplyDeadZone(dx, dy)) == Stop
  {
  }

  /** `lastZoneCommand`: the zone and wheels of the last forwarded intent. */
  datatype ZoneRecord = ZoneRecord(zone: Zone, left: int, right: int)

  /** The zone pre-filter's two fields, `lastDirectionZone` and
      `lastZoneCommand`; `None` is the source's `null`. */
  datatype ZoneTracking = ZoneTracking(lastZone: Option<Zone>, lastRecord: Option<ZoneRecord>)

  const NO_TRACKING: ZoneTracking := ZoneTracking(None, None)

  /** The two fields agree: both null, or the zone is the record's zone. */
  predicate TrackingValid(t: ZoneTracking) {
    (t.lastZone.None? && t.lastRecord.None?)
    || (t.lastRecord.Some? && t.lastZone == Some(t.lastRecord.value.zone))
  }

  /** The verdict of the pre-filter and the tracking it leaves. */
  datatype ZoneDecision = ZoneDecision(fire: bool, tracking: ZoneTracking)

  /** `shouldSendCommandForZone` on the current zone and wheels. */
  function ShouldSendForZone(t: ZoneTracking, zone: Zone, m: Motors): (d: ZoneDecision)
    ensures TrackingValid(t) ==> TrackingValid(d.tracking)
  {
    if Some(zone) != t.lastZone then
      ZoneDecision(true, ZoneTracking(Some(zone), Some(ZoneRecord(zone, m.left, m.right))))
    else if t.lastRecord.Some?
            && (Abs(m.left - t.lastRecord.value.left) >= ZONE_DRIFT
                || Abs(m.right - t.lastRecord.value.right) >= ZONE_DRIFT) then
      ZoneDecision(true, t.(lastRecord := Some(ZoneRecord(zone, m.left, m.right))))
    else
      ZoneDecision(false, t)
  }

  /** The pre-filter fires exactly on a zone change (a null record included)
      or on a drift of at least 15 on either wheel within the zone; when it
      fires it records the current zone and wheels, otherwise it leaves the
      tracking alone. */
  lemma ZoneFilterSpec(t: ZoneTracking, zone: Zone, m: Motors)
    requires TrackingValid(t)
    ensures var d := ShouldSendForZone(t, zone, m);
            (d.fire <==> t.lastZone != Some(zone)
                         || Abs(m.left - t.lastRecord.value.left) >= ZONE_DRIFT
                         || Abs(m.right - t.lastRecord.value.right) >= ZONE_DRIFT)
            && (d.fire ==> d.tracking == ZoneTracking(Some(zone), Some(ZoneRecord(zone, m.left, m.right))))
            && (!d.fire ==> d.tracking == t)
  {
  }

  /** A repeat of the same zone and wheels right after the filter ran never
      fires again, and changes nothing. */
  lemma ZoneFilterSettles(t: ZoneTracking, zone: Zone, m: Motors)
    ensures var d := ShouldSendForZone(t, zone, m);
            ShouldSendForZone(d.tracking, zone, m) == ZoneDecision(false, d.tracking)
  {
  }

  /** After a reset of the tracking the next call always fires. */
  lemma ResetTrackingFires(zone: Zone, m: Motors)
    ensures ShouldSendForZone(NO_TRACKING, zone, m).fire
  {
  }

  /** `lastZoneCommand && lastZoneCommand.zone === STOP` compared with the
      stop-mode flag by `!==`: a null record makes the comparison true
      whichever way stop mode is set. */
  function StopModeMismatch(stopMode: bool, record: Option<ZoneRecord>): (b: bool)
    ensures record.None? ==> b
    ensures record.Some? ==> (b <==> stopMode != (record.value.zone == Stop))
  {
    match record
    case None => true
    case Some(r) => stopMode != (r.zone == Stop)
  }

  /** A motor intent handed to `sendSpeedCommandWithSpeed`. */
  datatype Intent = Intent(left: int, right: int, speed: real, force: bool)

  /** What `updateMotorValues` does: the intent it forwards (if any) and
      the tracking the pre-filter leaves. */
  datatype DriveStep = DriveStep(intent: Option<Intent>, tracking: ZoneTracking)

  /** The wheels stop mode lets through: both zero while it is active. */
  function Displayed(m: Motors, stopMode: bool): (d: Motors)
    ensures stopMode ==> d == Motors(0, 0)
    ensures !stopMode ==> d == m
  {
    if stopMode then Motors(0, 0) else m
  }

  /** `updateMotorValues`: the pre-filter always runs; an (unforced) intent
      with the stop-mode-overridden wheels is forwarded if it fires or if
      stop mode disagrees with the recorded zone being STOP. */
  function UpdateMotorValues(t: ZoneTracking, p: Position, speed: real, stopMode: bool): (s: DriveStep)
    ensures s.tracking == ShouldSendForZone(t, DirectionZone(p), CalculateMotorValues(p, speed)).tracking
    ensures s.intent.Some? ==> !s.intent.value.force && s.intent.value.speed == speed
    ensures stopMode && s.intent.Some? ==> s.intent.value.left == 0 && s.intent.value.right == 0
  {
    var m := CalculateMotorValues(p, speed);
    var d := ShouldSendForZone(t, DirectionZone(p), m);
    var shown := Displayed(m, stopMode);
    DriveStep(
      if d.fire || StopModeMismatch(stopMode, d.tracking.lastRecord)
      then Some(Intent(shown.left, shown.right, speed, false)) else None,
      d.tracking)
  }

  /** Forwarding in terms of the inputs: an intent goes out exactly when
      the zone changed, a wheel drifted 15 or more within the zone, or stop
      mode disagrees with the zone being STOP; a repeat of the same input
      right after is forwarded only for that last reason. */
  lemma UpdateMotorValuesForwards(t: ZoneTracking, p: Position, speed: real, stopMode: bool)
    requires TrackingValid(t)
    ensures var m := CalculateMotorValues(p, speed);
            var z := DirectionZone(p);
            var s := UpdateMotorValues(t, p, speed, stopMode);
            (s.intent.Some? <==> t.lastZone != Some(z)
                                 || Abs(m.left - t.lastRecord.value.left) >= ZONE_DRIFT
                                 || Abs(m.right - t.lastRecord.value.right) >= ZONE_DRIFT
                                 || stopMode != (z == Stop))
            && (s.intent.Some? ==> s.intent.value.left == Displayed(m, stopMode).left
                                   && s.intent.value.right == Displayed(m, stopMode).right)
            && (UpdateMotorValues(s.tracking, p, speed, stopMode).intent.Some? <==> stopMode != (z == Stop))
  {
    var m := CalculateMotorValues(p, speed);
    var z := DirectionZone(p);
    ZoneFilterSpec(t, z, m);
    ZoneFilterSettles(t, z, m);
  }

  /** The intent every recentring produces: the tracking was just reset,
      so the pre-filter fires and a stop at the current speed goes out. */
  lemma RecentreSendsStop(speed: real, stopMode: bool)
    ensures UpdateMotorValues(NO_TRACKING, CENTRE, speed, stopMode).intent == Some(Intent(0, 0, speed, false))
  {
    CentreStopsBothWheels(speed);
  }

  /** Recentring without a tracking reset still sends a stop while stop
      mode is off: the centre is the STOP zone, so either the zone changed
      or the record's zone is STOP and disagrees with stop mode being off. */
  lemma CentreWithoutResetStops(t: ZoneTracking, speed: real)
    requires TrackingValid(t)
    ensures UpdateMotorValues(t, CENTRE, speed, false).intent == Some(Intent(0, 0, speed, false))
  {
    CentreStopsBothWheels(speed);
    assert DirectionZone(CENTRE) == Stop;
  }

  /** The keys `handleKeyboardInput` reads: W or ArrowUp, S or ArrowDown,
      A or ArrowLeft, D or ArrowRight, and Space. */
  datatype Keys = Keys(up: bool, down: bool, left: bool, right: bool, space: bool)

  /** The knob offset of `handleKeyboardInput`. The assignments run in the
      order up, down, left, right, so S wins over W and D over A; Space
      recentres. */
  function KeyboardOffset(k: Keys): (p: Position)
    ensures k.space ==> p == CENTRE
    // without Space an axis moves exactly when one of its keys is held
    ensures !k.space ==> (p.y == 0.0 <==> !k.up && !k.down) && (p.x == 0.0 <==> !k.left && !k.right)
  {
    var y := if k.down then KEYBOARD_OFFSET else if k.up then -KEYBOARD_OFFSET else 0.0;
    var x := if k.right then KEYBOARD_OFFSET else if k.left then -KEYBOARD_OFFSET else 0.0;
    if k.space then CENTRE else Position(x, y)
  }

  /** Every key combination lands inside the knob's travel (`49² + 49² <=
      70²`), on one of the eight compass points or the centre. */
  lemma KeyboardWithinRadius(k: Keys)
    ensures var p := KeyboardOffset(k);
            p.x * p.x + p.y * p.y <= JOYSTICK_RADIUS * JOYSTICK_RADIUS
            && (p.x == 0.0 || AbsReal(p.x) == KEYBOARD_OFFSET)
            && (p.y == 0.0 || AbsReal(p.y) == KEYBOARD_OFFSET)
  {
  }

  /** Space stops whatever else is held; S overrides W and D overrides A. */
  lemma KeyboardPrecedence(k: Keys)
    ensures k.space ==> KeyboardOffset(k) == CENTRE
    ensures !k.space && k.down ==> KeyboardOffset(k).y == KEYBOARD_OFFSET
    ensures !k.space && k.right ==> KeyboardOffset(k).x == KEYBOARD_OFFSET
    ensures !k.space && k.up && !k.down ==> KeyboardOffset(k).y == -KEYBOARD_OFFSET
    ensures !k.space && k.left && !k.right ==> KeyboardOffset(k).x == -KEYBOARD_OFFSET
  {
  }

  /** W alone drives straight ahead at 70% of the speed; W with D is the
      forward-right diagonal with the right wheel stopped. */
  lemma KeyboardScenarios(speed: real)
    ensures var w := KeyboardOffset(Keys(true, false, false, false, false));
            DirectionZone(w) == Forward
            && CalculateMotorValues(w, speed) == Motors(Round(0.7 * speed * 100.0), Round(0.7 * speed * 100.0))
    ensures var wd := KeyboardOffset(Keys(true, false, false, true, false));
            DirectionZone(wd) == ForwardRight
            && CalculateMotorValues(wd, speed) == Motors(Round(speed * 100.0), 0)
  {
    var wd := KeyboardOffset(Keys(true, false, false, true, false));
    assert NormY(wd) + NormX(wd) == 1.4;
    assert (NormY(wd) + NormX(wd)) / 1.4 == 1.0;
  }

  /** A gamepad stick axis after the dead zone: kept when its magnitude
      exceeds 0.15, zero otherwise. */
  function GamepadAxis(v: real): (r: real)
    ensures r == 0.0 || r == v
    ensures r != 0.0 <==> AbsReal(v) > GAMEPAD_DEAD_ZONE
  {
    if AbsReal(v) > GAMEPAD_DEAD_ZONE then v else 0.0
  }

  /** `Math.abs(new - old) > 0.01`: the speed change that counts. */
  predicate SpeedChanged(previous: real, current: real) {
    AbsReal(current - previous) > 0.01
  }
}
