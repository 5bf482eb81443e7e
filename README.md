# Rover teleoperation console — a Dafny model

The console is a set of browser pages that drive a two-wheeled rover over a
WebSocket. They send frames `{K, Q, D, M, E, F}`: left and right wheel
percentage, camera angle, headlamp, and the avoid-obstacle and
follow-object modes. This project models the parts of the console that
decide what goes over the wire and proves what they promise:

- **The communication layer** (rover-communication.js).
  - A command arbiter. It suppresses frames that do not move a wheel by at
    least 25 points and change no flag. Stop mode overrides the wheels and
    the lamp. A 1500 ms heartbeat resends the last frame, forced.
  - A link state machine with up to ten reconnection attempts. The n-th
    attempt waits `min(3000 n, 30000)` ms.
  - The telemetry decoder for the ultrasonic and infrared readouts.
  - The mode setters, the statistics, initialisation and shutdown.
- **Two joystick controllers.**
  - joystick-control.js, and its later generation rover-controls.js.
  - Both share the differential-drive mix: forward ± turn, normalised,
    times the speed multiplier, rounded.
  - Both share the nine direction zones, and the zone pre-filter that
    forwards an intent only on a zone change, a drift of 15 points within a
    zone, or a stop-mode mismatch.
  - Both also handle keyboard offsets and gamepad stick dead zones.
    joystick-control.js takes speed input from the right stick.
    rover-controls.js takes it from the triggers, and toggles the headlamp
    and stop mode on the rising edge of buttons A and B.
- **The tank-drive slider pages.**
  - rover-interface.js, dashboard-clean.js and dashboard.js.
  - Magnetic snap onto a detent, and lock-step mirroring of the two sliders
    under a re-entrancy guard.
  - The switches.
  - dashboard-clean.js has its own earlier arbiter: no threshold, a fixed
    3000 ms reconnect with no bound.

## How the model is built

- **Modules and state.**
  - Each pure computation is a function, with its properties as lemmas.
  - Each file's module globals are the fields of one class, whose methods
    change them.
  - Every method is proved against the pure functions. Examples:
    `Communication.Session.SendSpeedCommand` against `Command.Submit`, and
    every link event against `Reconnect.Step`.
- **Events and things outside the code.**
  - Socket events, timer callbacks, heartbeat ticks and gamepad polls are
    method calls made by the environment.
  - What `websocket.send` does is a parameter (`Transport`). So are whether
    `new WebSocket` throws, `Date.now()`, and whether the stop-mode switch
    is lit.
  - What one module hands to another is returned as a value: a motor
    `Intent`, a `SpeedRequest` for the debounced sender, a `SwitchEffect`.
- **Numbers.**
  - Reals are exact. `Math.round` is `Floor(x + 1/2)`.
  - `toFixed(1)` is a count of tenths, ties rounded away from zero.

## Behaviour the proofs bring out

- rover-communication.js:
  - An error event and the close event that follows both schedule a
    reconnection, so one failed attempt uses two attempt numbers.
    `Reconnect.FailureCountsTwice` proves this.
  - The connection timeout counts a failure itself and then closes the
    socket while it is still CONNECTING. Under the WebSocket standard that
    close fails the connection, which fires an error event and then a close
    event. Their handlers are still attached, so a timed-out attempt uses
    three attempt numbers (`Reconnect.TimeoutCountsThrice`).
  - The performance monitor zeroes both command counters every 10 s once
    either is non-zero. `getCommandStats` therefore reports the calls since
    the last tick, not since start-up (`Communication.Session.PerformanceTick`).
  - The only scheduled reconnection that waits the full 30 s is the tenth.
    When it fires, `connectToServer` refuses it because the counter has
    reached its bound. `Reconnect.CappedWaitEndsInRefusal` proves this.
  - The `!isReconnecting` test in `onclose` is always true, because
    `cleanup()` has just cleared the flag.
- Zone pre-filter, in both controllers:
  - With stop mode off, the STOP zone always disagrees with stop mode. So
    every update in the STOP zone forwards an intent, including a repeat
    (`DifferentialDrive.UpdateMotorValuesForwards`).
  - As a consequence, with stop mode off, recentring always sends a stop,
    even without a tracking reset
    (`DifferentialDrive.CentreWithoutResetStops`).
- rover-controls.js triggers:
  - The triggers move the speed by `(rt - lt) * 0.02`.
  - The change is applied only above 0.01. So a trigger difference of up
    to half its travel never changes the speed
    (`RoverControls.NextSpeedDeadBand`).
  - A trigger axis resting just above zero masks the trigger button
    (`RoverControls.TriggerValue`).
- dashboard-clean.js:
  - When `new WebSocket` throws, no close event follows and nothing
    schedules a retry, so the page stops reconnecting
    (`DashboardClean.Dashboard.ConnectToServer`).
- Slide lock, on all three slider pages:
  - A user move while the guard is still set is not mirrored
    (`SliderInput`).
  - `setSlideLockState(true)` does not copy the sliders.

## Model

| member | source | states |
|---|---|---|
| Common.Round | joystick-control.js:192-193 | `Math.round`: the result is the integer `r` with `r <= x + 1/2 < r + 1` |
| Common.Clamp01 | joystick-control.js:608 | `Math.max(0, Math.min(1, x))` lies in [0,1], is `x` inside it and the nearer end outside it |
| Command.CameraAngle | rover-communication.js:284 | `window.cameraAngle \|\| 90` is never 0: a set non-zero angle is kept, an unset or zero one becomes 90 |
| Command.BuildCommand | rover-communication.js:276-288 | stop mode zeroes both wheels and forces the lamp off; otherwise the wheels and lamp pass through; E and F always pass through; D is the camera angle |
| Command.RestCommand | rover-communication.js:387 | the resting frame has zero wheels, D 90, the lamp only when stop mode is off, and E/F from the flags |
| Command.HasSignificantChange | rover-communication.js:325-332 | true with nothing sent yet; otherwise true iff a wheel is at least 25 from the last sent frame |
| Command.HasStateChange | rover-communication.js:334-339 | true with nothing sent yet; otherwise true iff M, E or F differs from the last sent frame |
| Command.ShouldSendImmediate | rover-communication.js:292-294 | the send verdict iff forced, a cold start, a 25-point wheel delta or a changed flag |
| Command.CameraAngleNeverCompared | rover-communication.js:292-294 | two frames differing only in D get the same verdict |
| Command.SuppressedIffQuiet | rover-communication.js:296-300 | an unforced frame is suppressed iff a frame was sent and both wheels are within 25 with equal flags |
| Command.Submit | rover-communication.js:270-318 | one call: no-op when not ready; otherwise records `lastCommand`; transmits iff the verdict holds and send returns; only a transmission moves `lastSentCommand` and `commandsSent`; a suppression counts as skipped; a throw on a closing socket drops the link |
| Command.ForcedSubmit | rover-communication.js:292-317 | a forced call on a ready link goes out iff send returns and drops the link iff send throws on a closing socket |
| Command.Run | rover-communication.js:270-318 | over a sequence of calls the counters never decrease and grow by at most one per call |
| Command.ReadyCalls | rover-communication.js:271 | the number of calls that pass the connection guard: zero iff none does, all of them iff every one does |
| Command.QuietCallsAreSuppressed | rover-communication.js:292-300 | unforced quiet calls transmit nothing, keep the comparison base, and each connected one counts as skipped |
| Command.IdenticalResubmissionIsSuppressed | rover-communication.js:292-300 | after a frame went out, resubmitting it unforced any number of times transmits nothing more |
| Command.LastWriteWins | rover-communication.js:290 | after any calls `lastCommand` is the frame of the latest connected call |
| Command.RetryAfterFailedSend | rover-communication.js:302-316 | a frame whose send threw leaves the base behind, so resubmitting it goes out |
| Command.ThresholdScenario | rover-communication.js:325-332 | after (40,40) went out, (50,50) is skipped and (70,70) is transmitted |
| Command.SpeedLatch | rover-communication.js:341-353 | the first call records and reports no change; later calls report, and re-record, iff the new multiplier is more than 0.01 away |
| Command.LatchRun | rover-communication.js:341-353 | after a sequence of readings the latch holds its starting value or one of the readings, and after a non-empty one it holds some value |
| Command.LatchIgnoresSmallDrift | rover-communication.js:347-352 | readings each within 0.01 of the recorded one never report a change and never move the latch, whatever their total drift |
| Reconnect.BackoffDelay | rover-communication.js:146-160 | the delay is `min(3000 n, 30000)`: at most the cap, at most linear |
| Reconnect.BackoffMonotone | rover-communication.js:152 | later attempts never wait less |
| Reconnect.BackoffWithinAttemptBound | rover-communication.js:139-152 | for attempts 1..10 the delay is exactly 3000 n and reaches the cap only at the tenth |
| Reconnect.TotalBackoff | rover-communication.js:152 | the total wait of n attempts is at most 30000 n |
| Reconnect.TotalBackoffClosedForm | rover-communication.js:139-152 | n attempts wait 1500 n (n+1) ms in total (165000 ms for ten) |
| Reconnect.Cleanup | rover-communication.js:125-134 | clears the timeout and both flags and keeps the rest |
| Reconnect.ScheduleReconnect | rover-communication.js:146-160 | increments the counter and arms a reconnection with that attempt's backoff, changing nothing else |
| Reconnect.ConnectionFailure | rover-communication.js:136-144 | cleans up, then schedules a reconnection iff the bound allows it |
| Reconnect.Connect | rover-communication.js:44-123 | refuses while an attempt is in flight or at the bound; otherwise a new socket is connecting with its timeout armed, or a throwing constructor counts as a failure |
| Reconnect.Step | rover-communication.js:44-195 | onopen: open, connected, timeout cleared, counter zero; onclose and onerror: cleaned up, counting an attempt and arming its backoff while below ten; the timeout closes a connecting socket and counts a failure, and otherwise only clears itself; the reconnect timer and a reset run `connectToServer`, a reset from the initial globals; a throwing send on a closing socket drops the link; shutdown restores the initial link |
| Reconnect.StepPreservesValid | rover-communication.js:44-195 | every call and socket event keeps the link invariant: counter bound, in-flight iff CONNECTING iff timeout armed, connected only on a live socket |
| Reconnect.AttemptsStayBounded | rover-communication.js:50 | along any sequence of events the counter never exceeds ten and the invariant holds |
| Reconnect.CounterResets | rover-communication.js:82-92 | an open, a reset and a shutdown set the counter back to zero; a reset that can create its socket is connecting |
| Reconnect.ConnectRefusals | rover-communication.js:45-53 | a refused `connectToServer` leaves the link exactly as it was |
| Reconnect.CappedWaitEndsInRefusal | rover-communication.js:103-110 | the 30 s wait is scheduled iff it is the tenth attempt, and that reconnection is then refused |
| Reconnect.FailureCountsTwice | rover-communication.js:103-116 | an error on a connecting socket and the close event after it use two attempt numbers, and the pending reconnection waits the second one's backoff |
| Reconnect.TimeoutCountsThrice | rover-communication.js:73-116 | a timeout closes the connecting socket and counts one failure; the error and close events of that failed connection count two more and arm the third one's backoff |
| Telemetry.ToFixed1 | rover-communication.js:202 | `toFixed(1)` in tenths: the nearest tenth with the value's sign, a tie going away from zero |
| Telemetry.HandleServerResponse | rover-communication.js:197-223 | null throws; a non-object changes nothing; a non-numeric O throws before any write; otherwise O, N and P each replace their readout when present |
| Telemetry.OnMessage | rover-communication.js:94-101 | an unparsable frame or a throwing handler changes nothing; a frame the handler completes on gives exactly the handler's display; each readout keeps its value or takes the frame's |
| Telemetry.OnMessageIdempotent | rover-communication.js:94-101 | a frame applied twice has the effect of applying it once |
| Telemetry.SampleFrame | rover-communication.js:197-223 | `{"O":42.58,"N":0,"P":0}` shows 42.6 cm and two zero readings |
| Communication.EfficiencyTenths | rover-communication.js:393-395 | the efficiency in tenths of a percent is the skipped share `1000 skipped / (sent + skipped)` rounded to the nearest tenth, a tie up; 0 before any call; within 0..1000 |
| Communication.Session.constructor | rover-communication.js:10-39 | the initial globals: no socket, zero counters, all flags off |
| Communication.Session.Cleanup | rover-communication.js:125-134 | the link becomes `Reconnect.Cleanup` of the old link |
| Communication.Session.ScheduleReconnect | rover-communication.js:146-160 | the link becomes `Reconnect.ScheduleReconnect` of the old link |
| Communication.Session.HandleConnectionFailure | rover-communication.js:136-144 | the link becomes `Reconnect.ConnectionFailure` of the old link |
| Communication.Session.ConnectToServer | rover-communication.js:44-123 | keeps the invariant; the link is the `Step` of a connect call |
| Communication.Session.OnOpen | rover-communication.js:82-92 | keeps the invariant; open and connected, counter reset |
| Communication.Session.OnClose | rover-communication.js:103-110 | keeps the invariant; the link is the `Step` of a close event |
| Communication.Session.OnError | rover-communication.js:112-116 | keeps the invariant; the link is the `Step` of an error event |
| Communication.Session.ConnectTimeoutFires | rover-communication.js:74-80 | keeps the invariant; the guard always holds; the link is the `Step` of a timeout |
| Communication.Session.ReconnectTimerFires | rover-communication.js:156-159 | keeps the invariant; the link is the `Step` of the fired reconnection |
| Communication.Session.ResetConnection | rover-communication.js:162-195 | keeps the invariant; the link is the `Step` of a reset |
| Communication.Session.OnMessage | rover-communication.js:94-101 | the readouts become `Telemetry.OnMessage` of the old ones |
| Communication.Session.SendSpeedCommand | rover-communication.js:270-318 | keeps the invariant; counters, `lastCommand`, `lastSentCommand`, outbox and link are exactly `Command.Submit` of the frame built from the flags; the result says whether a frame went out |
| Communication.Session.HasSpeedChange | rover-communication.js:341-353 | the latch and the result are `Command.SpeedLatch` |
| Communication.Session.SendSpeedCommandWithSpeed | rover-communication.js:320-323 | the latch is consulted first, and a latched change forces the submission |
| Communication.Session.SendSpeedCommandDebounced | rover-communication.js:257-268 | a pending send is replaced by this pair |
| Communication.Session.DebounceFires | rover-communication.js:262-267 | the latest pair is submitted unforced and nothing stays pending |
| Communication.Session.StartCommandInterval | rover-communication.js:358-373 | the heartbeat runs |
| Communication.Session.HeartbeatTick | rover-communication.js:364-372 | while connected the last command's wheels are resubmitted, forced, under the current flags; otherwise nothing changes |
| Communication.Session.StopCommandInterval | rover-communication.js:375-388 | the heartbeat stops; a stop frame goes out iff the link is up and send returns; `lastCommand` is the rest frame; nothing is skipped |
| Communication.Session.GetCommandStats | rover-communication.js:393-404 | total = sent + skipped; the efficiency is `EfficiencyTenths` of the current counters; the attempt counter and the connected flag are the current ones |
| Communication.Session.StartPerformanceMonitoring | rover-communication.js:406-419 | the performance monitor runs |
| Communication.Session.PerformanceTick | rover-communication.js:411-418 | after a tick both counters are zero |
| Communication.Session.StopPerformanceMonitoring | rover-communication.js:421-426 | the performance monitor is stopped |
| Communication.Session.ResendLastCommand | rover-communication.js:435-437 | with a last command and the connected flag up, its wheels are resubmitted, forced; otherwise nothing changes |
| Communication.Session.SetHeadlampState | rover-communication.js:431-438 | only the lamp flag changes, then the last command is resent, forced |
| Communication.Session.SetStopModeState | rover-communication.js:440-447 | only the stop flag changes, then the last command is resent, forced |
| Communication.Session.SetAvoidObjectState | rover-communication.js:457-464 | only the avoid flag changes, then the last command is resent, forced |
| Communication.Session.SetFollowObjectState | rover-communication.js:466-473 | only the follow flag changes, then the last command is resent, forced |
| Communication.Session.Initialize | rover-communication.js:486-511 | the rest frame becomes `lastCommand`, the heartbeat and the performance monitor run, and the link is the `Step` of a connect call |
| Communication.Session.CloseForShutdown | rover-communication.js:537-554 | the shutdown frame is written iff the socket is open and send returns; the socket is dropped |
| Communication.Session.Shutdown | rover-communication.js:513-562 | link back to the initial state, heartbeat, monitor and timers stopped, rest frame recorded; the stop frame goes out, and becomes `lastSentCommand` and counts as sent, iff the link was up and send returned; nothing is skipped; then the shutdown frame is written iff the socket was still open and send returned |
| Communication.Session.ClearTimeouts | rover-communication.js:520-534 | no reconnection, connection timeout or debounce stays pending |
| Communication.ErrorThenClose | rover-communication.js:103-116 | an error and its close event use two attempt numbers and arm the matching backoff |
| DifferentialDrive.ApplyDeadZone | joystick-control.js:138-161 | an offset closer than 10 px to the centre becomes the centre; any other is kept |
| DifferentialDrive.Normalise | joystick-control.js:184-190 | a pair within [-1,1] is kept; a larger pair is divided by its larger magnitude; both wheels end in [-1,1] |
| DifferentialDrive.NormaliseKeepsRatio | joystick-control.js:184-190 | normalising keeps the ratio of the two wheels |
| DifferentialDrive.NormaliseDividesByLarger | joystick-control.js:184-190 | the normalised pair times the larger of 1 and the pair's larger magnitude is the pair |
| DifferentialDrive.Mix | joystick-control.js:171-190 | the unscaled mix of an offset lies in [-1,1] on both wheels |
| DifferentialDrive.MixScalesForwardAndTurn | joystick-control.js:171-190 | the wheels are forward + turn and forward - turn, divided by the larger of 1 and their larger magnitude |
| DifferentialDrive.CalculateMotorValues | joystick-control.js:171-196 | each wheel is `Math.round` of its mixed wheel times the multiplier times 100 |
| DifferentialDrive.MotorsWithinSpeed | joystick-control.js:171-196 | for a multiplier in [0,1] neither wheel exceeds `Math.round(100 * speed)`, which is at most 100 |
| DifferentialDrive.CentreStopsBothWheels | joystick-control.js:171-196 | the centre gives (0, 0) at any speed |
| DifferentialDrive.NormaliseSwap | joystick-control.js:184-190 | normalising the swapped pair swaps the normalised pair |
| DifferentialDrive.MirrorSwapsWheels | joystick-control.js:171-196 | mirroring the knob left to right swaps the wheels |
| DifferentialDrive.FullForward | joystick-control.js:171-196 | full forward drives both wheels at `Math.round(100 * speed)` |
| DifferentialDrive.FullRightAtHalfSpeed | joystick-control.js:171-196 | full right at half speed is (50, -50) |
| DifferentialDrive.ZoneFamilies | joystick-control.js:199-247 | forward iff ny > 0.3, backward iff ny < -0.3, turn iff \|ny\| <= 0.3 and \|nx\| > 0.4, STOP otherwise; each diagonal iff \|nx\| > 0.25 on its side |
| DifferentialDrive.DirectionZone | joystick-control.js:199-247 | an offset under 0.15 on both axes is STOP, and any other zone needs a forward or backward component over 0.3 or a turn component over 0.4 |
| DifferentialDrive.MirrorMirrorsZone | joystick-control.js:199-247 | mirroring the knob mirrors the zone |
| DifferentialDrive.DeadZoneStops | joystick-control.js:150-153 | an offset inside the dead zone gives (0, 0) and the STOP zone |
| DifferentialDrive.ShouldSendForZone | joystick-control.js:250-276 | the filter keeps the two tracking fields consistent |
| DifferentialDrive.ZoneFilterSpec | joystick-control.js:250-276 | fires iff the zone changed or a wheel drifted 15 or more; on firing it records zone and wheels, otherwise it changes nothing |
| DifferentialDrive.ZoneFilterSettles | joystick-control.js:250-276 | the same input right after never fires and changes nothing |
| DifferentialDrive.ResetTrackingFires | joystick-control.js:254-259 | after a tracking reset the next call fires |
| DifferentialDrive.StopModeMismatch | joystick-control.js:297 | a null record mismatches; otherwise a mismatch iff stop mode differs from the record being STOP |
| DifferentialDrive.Displayed | joystick-control.js:282-287 | stop mode shows (0, 0), otherwise the computed wheels |
| DifferentialDrive.UpdateMotorValues | joystick-control.js:278-315 | the tracking is the filter's; any intent is unforced, carries the speed, and is (0, 0) under stop mode |
| DifferentialDrive.UpdateMotorValuesForwards | joystick-control.js:278-315 | an intent goes out iff the zone changed, a wheel drifted 15, or stop mode disagrees with the zone being STOP; a repeat goes out only for the last reason |
| DifferentialDrive.RecentreSendsStop | joystick-control.js:119-136 | recentring after a tracking reset forwards (0, 0) at the current speed |
| DifferentialDrive.CentreWithoutResetStops | rover-controls.js:493-499 | with stop mode off, recentring without a reset still forwards (0, 0) |
| DifferentialDrive.KeyboardWithinRadius | joystick-control.js:386-408 | every key combination stays within the knob's travel, on the compass points or the centre |
| DifferentialDrive.KeyboardPrecedence | joystick-control.js:386-408 | Space recentres; S overrides W; D overrides A |
| DifferentialDrive.KeyboardScenarios | joystick-control.js:386-408 | W drives forward at 70 %; W+D is the forward-right diagonal with the right wheel stopped |
| DifferentialDrive.KeyboardOffset | joystick-control.js:386-402 | Space recentres; otherwise an axis moves exactly when one of its two keys is held |
| DifferentialDrive.GamepadAxis | joystick-control.js:484-489 | an axis is zero or itself, and non-zero iff its magnitude exceeds 0.15 |
| JoystickControl.Controller.constructor | joystick-control.js:11-31 | the initial globals: centre, speed 0.5, no gamepad, no tracking |
| JoystickControl.Controller.ShouldSendCommandForZone | joystick-control.js:250-276 | result and tracking are `ShouldSendForZone` of the current zone and wheels |
| JoystickControl.Controller.UpdateMotorValues | joystick-control.js:278-315 | intent and tracking are `DifferentialDrive.UpdateMotorValues` |
| JoystickControl.Controller.StartDrag | joystick-control.js:81-93 | dragging and the mouse in control |
| JoystickControl.Controller.UpdateJoystickPosition | joystick-control.js:138-161 | the knob takes the dead-zoned offset and the motors are updated |
| JoystickControl.Controller.HandleDrag | joystick-control.js:95-117 | without a drag nothing changes; with one, as `UpdateJoystickPosition` |
| JoystickControl.Controller.StopDrag | joystick-control.js:119-136 | a release recentres, releases the mouse and forwards a stop; without a drag nothing changes |
| JoystickControl.Controller.ChangeSpeed | joystick-control.js:40-63 | a change over 0.01 forces the displayed wheels at the new speed and leaves the tracking; otherwise the motors are updated |
| JoystickControl.Controller.SpeedSliderInput | joystick-control.js:40-63 | the multiplier is the slider value / 100, then as `ChangeSpeed` |
| JoystickControl.Controller.SetSpeedMultiplier | joystick-control.js:607-633 | the multiplier is the clamped value, then as `ChangeSpeed` |
| JoystickControl.Controller.Reset | joystick-control.js:634-645 | recentres, releases the gamepad, resets the tracking and forwards a stop |
| JoystickControl.Controller.ForceZoneReset | joystick-control.js:661-665 | the tracking is empty |
| JoystickControl.Controller.KeyboardInput | joystick-control.js:386-408 | ignored while the mouse or the gamepad is in control; otherwise the knob takes the key offset and the motors are updated |
| JoystickControl.Controller.GamepadConnected | joystick-control.js:420-424 | the pad's index is recorded |
| JoystickControl.Controller.GamepadDisconnected | joystick-control.js:426-442 | the gamepad is released and the tracking reset; unless the mouse holds the knob it is recentred, a stop goes out and the tracking records the centre |
| JoystickControl.Controller.GamepadTick | joystick-control.js:462-550 | no pad releases control; a stick past the dead zone sets the knob and nudges the speed by the clamped right stick; a neutral pad that had control recentres, resets the tracking (which then records the centre) and forwards a stop |
| JoystickControl.DragForwardScenario | joystick-control.js:95-136 | dragging straight ahead at half speed forwards (50, 50), holding still forwards nothing, releasing forwards a stop |
| RoverControls.TriggerValue | rover-controls.js:452-466 | the trigger is zero or past its 0.05 dead zone; an axis past it is used; an axis in (0, 0.05] masks the button; otherwise the button value |
| RoverControls.NextSpeed | rover-controls.js:473-483 | the clamped candidate `speed + (rt - lt) * 0.02` is taken iff it moves the speed by more than 0.01, otherwise the speed stays; a speed in [0,1] stays in it |
| RoverControls.NextSpeedDeadBand | rover-controls.js:473-483 | a trigger difference of at most 0.5 never changes the speed |
| RoverControls.FullRightTrigger | rover-controls.js:473-483 | a full right trigger adds 0.02 per tick up to 0.98 and nothing from 0.99 |
| RoverControls.EdgeCount | rover-controls.js:398-412 | no two polls in a row both toggle: at most every other poll toggles, and the first only if the button was up before |
| RoverControls.HoldingTogglesOnce | rover-controls.js:398-412 | holding a button for any number of polls toggles once |
| RoverControls.HeldStaysToggled | rover-controls.js:398-412 | a button already seen down toggles nothing while held |
| RoverControls.PressCycles | rover-controls.js:398-412 | k press-release cycles are 2k polls |
| RoverControls.EachPressTogglesOnce | rover-controls.js:398-412 | k press-release cycles toggle exactly k times |
| RoverControls.Controller.constructor | rover-controls.js:9-41 | the initial globals: centre, speed 0.5, no gamepad, buttons up, no tracking |
| RoverControls.Controller.ShouldSendCommandForZone | rover-controls.js:214-245 | result and tracking are `ShouldSendForZone`; a record carries the time it was taken |
| RoverControls.Controller.UpdateMotorValues | rover-controls.js:247-270 | intent and tracking are `DifferentialDrive.UpdateMotorValues`; the record's timestamp is the call's time iff the filter fired |
| RoverControls.Controller.StartDrag | rover-controls.js:75-87 | dragging and the mouse in control |
| RoverControls.Controller.HandleDrag | rover-controls.js:89-149 | without a drag nothing changes; with one the knob takes the dead-zoned offset and the motors are updated |
| RoverControls.Controller.StopDrag | rover-controls.js:113-127 | a release recentres, releases the mouse, forwards a stop, and leaves the tracking recording the centre at the call's time; without a drag nothing changes |
| RoverControls.Controller.SpeedSliderInput | rover-controls.js:54-58 | the multiplier is the slider value / 100; the motors are updated through the filter, never forced |
| RoverControls.Controller.SetSpeedMultiplier | rover-controls.js:549-573 | the multiplier is the clamped value; a change over 0.01 forces the displayed wheels, otherwise the motors are updated |
| RoverControls.Controller.Reset | rover-controls.js:574-583 | recentres, releases the gamepad, forwards a stop, and leaves the tracking recording the centre at the call's time |
| RoverControls.Controller.ForceZoneReset | rover-controls.js:592-596 | the tracking and its timestamp are empty |
| RoverControls.Controller.KeyboardInput | rover-controls.js:340-361 | ignored only while the mouse is in control; otherwise the knob takes the key offset and the motors are updated |
| RoverControls.Controller.GamepadConnected | rover-controls.js:373-377 | the pad's index is recorded |
| RoverControls.Controller.GamepadDisconnected | rover-controls.js:379-385 | only the pad in use is released; knob and tracking stay |
| RoverControls.Controller.HandleGamepadButtons | rover-controls.js:398-412 | A and B toggle the headlamp and stop mode on a rising edge; the states are remembered |
| RoverControls.Controller.GamepadTick | rover-controls.js:436-502 | no pad forgets its index; buttons first; any stick or trigger takes control, applies `NextSpeed` when a trigger is pressed and sets the knob; a neutral pad that had control recentres and, with stop mode off, forwards a stop |
| Sliders.MagneticSnap | rover-interface.js:15-24 | the snap fires iff the value changes; a fired snap lands on the detent; a value within range lands on it; a value out of range is untouched; the value never moves away from the detent |
| Sliders.SnapIdempotent | rover-interface.js:15-24 | snapping a snapped value again reports false and changes nothing |
| Sliders.SnapScenarios | rover-interface.js:15-24 | 5 and -8 snap to 0, 9 and 0 stay; with detent 50 and range 10, 41 snaps and 39 stays |
| Sliders.ApplyMagneticSnap | rover-interface.js:15-24 | the slider holds `MagneticSnap` of its old value and the result is whether it fired |
| Sliders.SnapAndMirror | rover-interface.js:29-42 | the source is snapped; under the lock the target equals the snapped source, otherwise it is untouched |
| Switches.Toggle | rover-interface.js:163 | a click flips exactly the clicked switch |
| Switches.ToggleTwice | rover-interface.js:163 | two clicks restore every switch |
| RoverInterface.Interface.constructor | rover-interface.js:9-10 | guard and lock off; the switches as the markup lights them |
| RoverInterface.Interface.InitializeInterface | rover-interface.js:460-464 | the lock agrees with its switch |
| RoverInterface.Interface.SyncSliders | rover-interface.js:26-58 | a no-op while guarded; otherwise the guard is set, the source snaps onto 0 (range 8), a locked target equals it, an unlocked one is untouched, and both values are sent on |
| RoverInterface.Interface.SliderInput | rover-interface.js:73-109 | the moved slider holds the new value; while guarded nothing else happens; otherwise a locked partner copies it under the guard and both values are sent on |
| RoverInterface.Interface.GuardElapsed | rover-interface.js:55-57 | the guard is clear |
| RoverInterface.Interface.ClickSwitch | rover-interface.js:154-222 | the switch toggles; each flag switch passes its new state to its setter; the slide lock follows its switch and, when locking, copies left into right under the guard; a lit joystick switch opens the joystick page; nothing else changes |
| RoverInterface.Interface.SetSlideLockState | rover-interface.js:489-498 | the lock takes the state and its switch agrees; other switches and the sliders are untouched |
| DashboardClean.Dashboard.constructor | dashboard-clean.js:1-17 | the initial globals: no socket, nothing recorded, all off |
| DashboardClean.Dashboard.ConnectToServer | dashboard-clean.js:20-72 | keeps the link invariant; a created socket is connecting with its timeout armed; a throwing constructor arms nothing |
| DashboardClean.Dashboard.ConnectTimeoutFires | dashboard-clean.js:27-32 | the connecting socket is closing |
| DashboardClean.Dashboard.SocketOpened | dashboard-clean.js:34-39 | open, connected, timeout cleared |
| DashboardClean.Dashboard.SocketClosed | dashboard-clean.js:50-58 | closed, disconnected, and a reopen pending whatever came before |
| DashboardClean.Dashboard.SocketError | dashboard-clean.js:60-65 | disconnected and timeout cleared; no reopen is scheduled |
| DashboardClean.Dashboard.ReconnectTimerFires | dashboard-clean.js:57 | nothing pending; a new socket is connecting unless its constructor throws |
| DashboardClean.Dashboard.SendSpeedCommand | dashboard-clean.js:90-113 | `lastCommand` is always `{K, Q, 90, lamp}`; the frame is written, and becomes `lastSentCommand`, iff the socket is open and send returns; there is no threshold |
| DashboardClean.Dashboard.SendSpeedCommandDebounced | dashboard-clean.js:74-88 | a pending send is replaced by this pair |
| DashboardClean.Dashboard.DebounceElapsed | dashboard-clean.js:81-87 | the latest pair is sent and nothing stays pending; the frame is written and becomes `lastSentCommand` iff the socket is open and send returns |
| DashboardClean.Dashboard.StartCommandInterval | dashboard-clean.js:115-128 | the heartbeat runs |
| DashboardClean.Dashboard.HeartbeatTick | dashboard-clean.js:122-127 | the last frame's wheels are resent with the current lamp state; the frame is written and becomes `lastSentCommand` iff there was one, the socket is open and send returns |
| DashboardClean.Dashboard.StopCommandInterval | dashboard-clean.js:130-138 | the heartbeat stops; (0, 0) is written, and becomes `lastSentCommand`, iff the socket is open and send returns; `lastCommand` is the rest frame |
| DashboardClean.Dashboard.ContentLoaded | dashboard-clean.js:212-218 | connects, records the rest frame, starts the heartbeat, and the lock agrees with its switch |
| DashboardClean.Dashboard.SyncSliders | dashboard-clean.js:178-210 | a no-op while guarded; otherwise the source snaps onto 0 (range 8), a locked target equals it, and both values are queued |
| DashboardClean.Dashboard.SliderInput | dashboard-clean.js:374-408 | while guarded nothing else happens; otherwise a locked partner copies the value under the guard and both values are queued |
| DashboardClean.Dashboard.GuardElapsed | dashboard-clean.js:207-209 | the guard is clear |
| DashboardClean.Dashboard.ClickSwitch | dashboard-clean.js:328-372 | the switch toggles; the lamp follows its switch and the last frame is resent with it, becoming `lastSentCommand` iff written; the lock flips and stays in step with its switch, copying left into right when locking; a lit joystick switch opens its page |
| Dashboard.SyncSnapsWithinTen | dashboard.js:16-21 | through sync every value within 10 of 50 lands on 50, while the default range of 5 leaves those farther than 5 alone |
| Dashboard.Page.constructor | dashboard.js:2-3 | guard off and the lock read from its switch |
| Dashboard.Page.SyncSliders | dashboard.js:16-47 | a no-op while guarded; otherwise the source snaps onto 50 (range 10), a locked target equals it, and the mismatch warning never fires |
| Dashboard.Page.SliderInput | dashboard.js:100-124 | while guarded nothing else happens; otherwise a locked partner copies the value under the guard; nothing is sent |
| Dashboard.Page.GuardElapsed | dashboard.js:44-46 | the guard is clear |
| Dashboard.Page.ClickSwitch | dashboard.js:73-98 | the switch toggles; the lock flips and stays in step with its switch, copying left into right when locking |

## Left out

- The DOM, the WebSocket API and JSON.
  - Element lookups, `classList` styling, the `snap-effect` pulse, knob and
    slider-thumb layout, and text displays are not modelled.
  - The socket is a `readyState` plus explicit events.
  - An inbound frame is modelled already parsed, down to the three keys
    the decoder reads.
- Time. Timers, intervals, `requestAnimationFrame` and the 100 ms gamepad
  throttle are steps the caller takes. The delays are recorded as
  constants, not simulated.
- Console logging, including the gamepad debug log and the statistics line
  the performance monitor prints before it zeroes the counters.
- `getWebSocketStatusText`, the getters of the exported objects, and
  `testGamepad`. They only read or print state.
- main-dashboard.js. Its navigation, alerts, random status values and
  marker animation have nothing to prove.
- The `.slider-input` listeners. They lay out the slider thumb. On
  rover-interface.js and dashboard-clean.js they also queue a debounced
  send on every `input` event, even while the guard is set.
- The controllers' page wiring. This covers the stop-mode switch listener
  that re-runs `updateMotorValues` 10 ms after a click, the initial
  `updateMotorValues` of `initializeJoystick`, the back-navigation switch,
  and the pads found already connected at start-up. The caller models the
  first two by calling `UpdateMotorValues` and the last by calling
  `GamepadConnected`.
- Events of a socket that has already been replaced. Only the current
  socket's events are modelled.
- `parseInt` of a non-numeric slider value (`NaN`). Slider values are
  integers.
- IEEE-754. Arithmetic is on exact reals, so ties in `Math.round` and
  `toFixed(1)` fall exactly where the real value puts them.
- `typeof … === 'function'` and `typeof roverCommunication !== 'undefined'`.
  The peer script is taken to be loaded.
- DifferentialDrive.ApplyDeadZone: the clamp of the drag offset to the
  70 px radius (with `atan2`, `cos` and `sin`) is not modelled. Offsets
  come within the radius by precondition.
- JoystickControl.Controller.SpeedSliderInput: the slider's 0..100 range
  is a precondition.
- RoverControls.Controller.SpeedSliderInput: the slider's 0..100 range is
  a precondition.
- Communication.Session: `window.cameraAngle` is a field set at
  construction. Code outside the core may change it.
- DashboardClean.Dashboard.ConnectToServer: the precondition admits only
  its two callers' states: no socket yet, or one that has closed.
