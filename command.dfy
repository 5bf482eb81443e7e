/** The command arbiter of rover-communication.js as pure functions: how a
    `{K,Q,D,M,E,F}` frame is built from a motor intent and the session flags,
    when a frame is transmitted rather than suppressed, how the arbiter's
    bookkeeping (`lastCommand`, `lastSentCommand`, the sent/skipped counters)
    evolves over a sequence of calls, and the speed-multiplier latch. The
    session class in communication.dfy is proved against these functions. */
module Command {
  import opened Common

  /** `COMMAND_CHANGE_THRESHOLD`: a wheel must move this many percentage
      points away from the last transmitted frame to force a transmission. */
  const COMMAND_CHANGE_THRESHOLD: int := 25

  /** The camera angle sent when `window.cameraAngle` is unset or zero. */
  const DEFAULT_CAMERA_ANGLE: int := 90

  /** One outbound frame: left motor K, right motor Q, camera angle D,
      headlamp M, avoid-obstacle mode E, follow-object mode F. */
  datatype MotorCommand = MotorCommand(K: int, Q: int, D: int, M: bool, E: bool, F: bool)

  /** The session flags that shape every frame. */
  datatype Flags = Flags(headLamp: bool, stopMode: bool, avoidObject: bool, followObject: bool)

  /** The frame written to the socket on shutdown, whatever the flags. */
  const SHUTDOWN_FRAME: MotorCommand := MotorCommand(0, 0, 90, false, false, false)

  /** `window.cameraAngle || 90`: unset and the falsy 0 both fall back to 90. */
  function CameraAngle(windowAngle: Option<int>): (d: int)
    ensures d != 0
    ensures windowAngle.Some? && windowAngle.value != 0 ==> d == windowAngle.value
    ensures windowAngle.None? || windowAngle == Some(0) ==> d == DEFAULT_CAMERA_ANGLE
  {
    match windowAngle
    case None => DEFAULT_CAMERA_ANGLE
    case Some(a) => if a == 0 then DEFAULT_CAMERA_ANGLE else a
  }

  /** The frame `sendSpeedCommand` builds: stop mode zeroes both wheels and
      turns the headlamp off, but passes the avoid/follow modes through. */
  function BuildCommand(left: int, right: int, windowAngle: Option<int>, flags: Flags): (c: MotorCommand)
    ensures flags.stopMode ==> c.K == 0 && c.Q == 0 && !c.M
    ensures !flags.stopMode ==> c.K == left && c.Q == right && c.M == flags.headLamp
    ensures c.E == flags.avoidObject && c.F == flags.followObject
    ensures c.D == CameraAngle(windowAngle)
  {
    MotorCommand(
      if flags.stopMode then 0 else left,
      if flags.stopMode then 0 else right,
      CameraAngle(windowAngle),
      if flags.stopMode then false else flags.headLamp,
      flags.avoidObject,
      flags.followObject)
  }

  /** The resting frame that `initializeCommunicationSystem` and
      `stopCommandInterval` store as `lastCommand`. */
  function RestCommand(flags: Flags): (c: MotorCommand)
    ensures c.K == 0 && c.Q == 0 && c.D == DEFAULT_CAMERA_ANGLE
    ensures c.M == (!flags.stopMode && flags.headLamp)
    ensures c.E == flags.avoidObject && c.F == flags.followObject
  {
    BuildCommand(0, 0, None, flags)
  }

  /** `hasSignificantChange`: true before anything was sent, otherwise when
      either wheel is at least the threshold away from the last sent frame. */
  function HasSignificantChange(k: int, q: int, lastSent: Option<MotorCommand>): (b: bool)
    ensures lastSent.None? ==> b
    ensures lastSent.Some? ==>
      (b <==> (Abs(k - lastSent.value.K) >= COMMAND_CHANGE_THRESHOLD
               || Abs(q - lastSent.value.Q) >= COMMAND_CHANGE_THRESHOLD))
  {
    match lastSent
    case None => true
    case Some(s) => Abs(k - s.K) >= COMMAND_CHANGE_THRESHOLD || Abs(q - s.Q) >= COMMAND_CHANGE_THRESHOLD
  }

  /** `hasStateChange`: true before anything was sent, otherwise when the
      headlamp or a mode flag differs from the last sent frame. */
  function HasStateChange(c: MotorCommand, lastSent: Option<MotorCommand>): (b: bool)
    ensures lastSent.None? ==> b
    ensures lastSent.Some? ==>
      (b <==> c.M != lastSent.value.M || c.E != lastSent.value.E || c.F != lastSent.value.F)
  {
    match lastSent
    case None => true
    case Some(s) => s.M != c.M || s.E != c.E || s.F != c.F
  }

  /** `shouldSendImmediate` of `sendSpeedCommand`: a forced call, a cold
      start, a wheel delta at or over the threshold, or a changed flag. The
      camera angle D is never compared. */
  function ShouldSendImmediate(c: MotorCommand, lastSent: Option<MotorCommand>, force: bool): (b: bool)
    ensures b <==>
      force || lastSent.None?
      || Abs(c.K - lastSent.value.K) >= COMMAND_CHANGE_THRESHOLD
      || Abs(c.Q - lastSent.value.Q) >= COMMAND_CHANGE_THRESHOLD
      || c.M != lastSent.value.M || c.E != lastSent.value.E || c.F != lastSent.value.F
  {
    force || HasSignificantChange(c.K, c.Q, lastSent) || HasStateChange(c, lastSent)
  }

  /** Two frames that differ only in their camera angle get the same verdict. */
  lemma CameraAngleNeverCompared(c: MotorCommand, d: int, lastSent: Option<MotorCommand>, force: bool)
    ensures ShouldSendImmediate(c.(D := d), lastSent, force) == ShouldSendImmediate(c, lastSent, force)
  {
  }

  /** A frame the threshold lets through unforced: same flags as the last
      sent frame and both wheels strictly within the threshold of it. */
  predicate Quiet(c: MotorCommand, last: MotorCommand) {
    Abs(c.K - last.K) < COMMAND_CHANGE_THRESHOLD && Abs(c.Q - last.Q) < COMMAND_CHANGE_THRESHOLD
    && c.M == last.M && c.E == last.E && c.F == last.F
  }

  /** An unforced frame is suppressed exactly when it is quiet with respect to
      a frame already sent. */
  lemma SuppressedIffQuiet(c: MotorCommand, lastSent: Option<MotorCommand>)
    ensures !ShouldSendImmediate(c, lastSent, false) <==> lastSent.Some? && Quiet(c, lastSent.value)
  {
  }

  /** The arbiter's module state: `lastCommand`, `lastSentCommand`,
      `commandsSent` and `commandsSkipped`. */
  datatype Arbiter = Arbiter(lastCommand: Option<MotorCommand>, lastSent: Option<MotorCommand>, sent: nat, skipped: nat)

  /** What `websocket.send` did: returned, or threw; after a throw the socket
      either still reads OPEN or has started to close. */
  datatype Transport = Delivered | Threw(socketClosing: bool)

  /** The arbiter state after one call, whether the frame went out (the
      function's return value) and whether the link must be marked down. */
  datatype Outcome = Outcome(after: Arbiter, transmitted: bool, linkLost: bool)

  /** One call of `sendSpeedCommand` with an already built frame. `ready` is
      the guard `websocket && readyState === OPEN && isConnected`. */
  function Submit(a: Arbiter, ready: bool, c: MotorCommand, force: bool, t: Transport): (o: Outcome)
    // not connected: nothing changes and nothing is sent
    ensures !ready ==> o.after == a && !o.transmitted && !o.linkLost
    // connected: the frame becomes lastCommand, sent or not
    ensures ready ==> o.after.lastCommand == Some(c)
    ensures o.transmitted <==> ready && t == Delivered && ShouldSendImmediate(c, a.lastSent, force)
    // only a successful send moves the comparison base
    ensures o.after.lastSent == if o.transmitted then Some(c) else a.lastSent
    ensures o.after.sent == a.sent + (if o.transmitted then 1 else 0)
    ensures o.after.skipped == a.skipped + (if ready && !ShouldSendImmediate(c, a.lastSent, force) then 1 else 0)
    // exactly one counter moves per connected call, unless send threw
    ensures ready && !(ShouldSendImmediate(c, a.lastSent, force) && t.Threw?) ==>
      o.after.sent + o.after.skipped == a.sent + a.skipped + 1
    ensures o.linkLost <==> ready && ShouldSendImmediate(c, a.lastSent, force) && t == Threw(true)
  {
    if !ready then Outcome(a, false, false)
    else if !ShouldSendImmediate(c, a.lastSent, force) then
      Outcome(a.(lastCommand := Some(c), skipped := a.skipped + 1), false, false)
    else
      match t
      case Delivered => Outcome(a.(lastCommand := Some(c), lastSent := Some(c), sent := a.sent + 1), true, false)
      case Threw(closing) => Outcome(a.(lastCommand := Some(c)), false, closing)
  }

  /** A forced call on a ready link goes out exactly when `send` returns,
      and takes the link down exactly when `send` throws on a closing socket. */
  lemma ForcedSubmit(a: Arbiter, c: MotorCommand, t: Transport)
    ensures Submit(a, true, c, true, t).transmitted <==> t == Delivered
    ensures Submit(a, true, c, true, t).linkLost <==> t == Threw(true)
  {
  }

  /** One call of `sendSpeedCommand` as seen from outside. */
  datatype Call = Call(ready: bool, cmd: MotorCommand, force: bool, transport: Transport)

  /** The arbiter state after a sequence of calls, in order. */
  function Run(a: Arbiter, calls: seq<Call>): (r: Arbiter)
    ensures r.sent >= a.sent && r.skipped >= a.skipped
    ensures r.sent + r.skipped <= a.sent + a.skipped + |calls|
    decreases |calls|
  {
    if calls == [] then a
    else
      var c := calls[0];
      Run(Submit(a, c.ready, c.cmd, c.force, c.transport).after, calls[1..])
  }

  /** The number of calls made while connected. */
  function ReadyCalls(calls: seq<Call>): (n: nat)
    ensures n <= |calls|
    ensures n == 0 <==> forall i | 0 <= i < |calls| :: !calls[i].ready
    ensures n == |calls| <==> forall i | 0 <= i < |calls| :: calls[i].ready
    decreases |calls|
  {
    if calls == [] then 0 else (if calls[0].ready then 1 else 0) + ReadyCalls(calls[1..])
  }

  /** Rate bound: unforced calls whose frames stay quiet with respect to the
      last sent frame transmit nothing, leave the comparison base alone and
      are each counted as skipped when connected. Only a forced call, such as
      the heartbeat's, can send between them. */
  lemma {:induction false} QuietCallsAreSuppressed(a: Arbiter, calls: seq<Call>)
    requires a.lastSent.Some?
    requires forall i | 0 <= i < |calls| :: !calls[i].force && Quiet(calls[i].cmd, a.lastSent.value)
    ensures Run(a, calls).lastSent == a.lastSent
    ensures Run(a, calls).sent == a.sent
    ensures Run(a, calls).skipped == a.skipped + ReadyCalls(calls)
    decreases |calls|
  {
    if calls != [] {
      var c := calls[0];
      SuppressedIffQuiet(c.cmd, a.lastSent);
      var a' := Submit(a, c.ready, c.cmd, c.force, c.transport).after;
      assert a'.lastSent == a.lastSent;
      QuietCallsAreSuppressed(a', calls[1..]);
    }
  }

  /** Idempotence: once a frame has been sent, submitting the identical frame
      again any number of times unforced yields no further transmission. */
  lemma IdenticalResubmissionIsSuppressed(a: Arbiter, c: MotorCommand, calls: seq<Call>)
    requires a.lastSent == Some(c)
    requires forall i | 0 <= i < |calls| :: calls[i].cmd == c && !calls[i].force
    ensures Run(a, calls).sent == a.sent && Run(a, calls).lastSent == Some(c)
  {
    QuietCallsAreSuppressed(a, calls);
  }

  /** The `lastCommand` of the last connected call, or `prior` if none. */
  function LastReadyCommand(calls: seq<Call>, prior: Option<MotorCommand>): (r: Option<MotorCommand>)
    decreases |calls|
  {
    if calls == [] then prior
    else LastReadyCommand(calls[1..], if calls[0].ready then Some(calls[0].cmd) else prior)
  }

  /** Last write wins: after any sequence of calls `lastCommand` is the frame
      of the most recent connected call. */
  lemma {:induction false} LastWriteWins(a: Arbiter, calls: seq<Call>)
    ensures Run(a, calls).lastCommand == LastReadyCommand(calls, a.lastCommand)
    decreases |calls|
  {
    if calls != [] {
      var c := calls[0];
      LastWriteWins(Submit(a, c.ready, c.cmd, c.force, c.transport).after, calls[1..]);
    }
  }

  /** A frame that could not be delivered leaves `lastSentCommand` behind, so
      resubmitting it unforced while connected transmits it as long as it
      differs from the older frame by a threshold step or a flag. */
  lemma RetryAfterFailedSend(a: Arbiter, c: MotorCommand, force: bool, closing: bool)
    requires ShouldSendImmediate(c, a.lastSent, false)
    ensures var a' := Submit(a, true, c, force, Threw(closing)).after;
            Submit(a', true, c, false, Delivered).transmitted
  {
  }

  /** Scenario: after `{K:40,Q:40}` went out, an unforced `{K:50,Q:50}` with
      the same flags is suppressed and counted as skipped, while
      `{K:70,Q:70}` is transmitted. */
  lemma ThresholdScenario(flags: Flags, angle: Option<int>)
    requires !flags.stopMode
    ensures var sent := BuildCommand(40, 40, angle, flags);
            var a := Arbiter(Some(sent), Some(sent), 1, 0);
            var small := Submit(a, true, BuildCommand(50, 50, angle, flags), false, Delivered);
            var large := Submit(a, true, BuildCommand(70, 70, angle, flags), false, Delivered);
            !small.transmitted && small.after.skipped == 1 && small.after.lastSent == Some(sent)
            && large.transmitted && large.after.lastSent == Some(BuildCommand(70, 70, angle, flags))
  {
  }

  /** The two results of `hasSpeedChange`: the value now recorded in
      `lastSpeedMultiplier` and whether the speed counted as changed. */
  datatype Latch = Latch(recorded: Option<real>, changed: bool)

  /** `hasSpeedChange`: the first call records the multiplier and reports no
      change; later calls report a change, and re-record, only when the new
      multiplier is more than 0.01 away from the recorded one. */
  function SpeedLatch(recorded: Option<real>, current: real): (r: Latch)
    ensures r.recorded.Some?
    ensures recorded.None? ==> r == Latch(Some(current), false)
    ensures recorded.Some? ==> (r.changed <==> AbsReal(current - recorded.value) > 0.01)
    ensures r.changed ==> r.recorded == Some(current)
    ensures recorded.Some? && !r.changed ==> r.recorded == recorded
  {
    match recorded
    case None => Latch(Some(current), false)
    case Some(last) =>
      if AbsReal(current - last) > 0.01 then Latch(Some(current), true) else Latch(recorded, false)
  }

  /** The recorded multiplier after a sequence of `hasSpeedChange` calls. */
  function LatchRun(recorded: Option<real>, readings: seq<real>): (r: Option<real>)
    ensures readings != [] ==> r.Some?
    // the latch only ever holds the value it started with or one of the readings
    ensures r == recorded || exists i | 0 <= i < |readings| :: r == Some(readings[i])
    decreases |readings|
  {
    if readings == [] then recorded
    else
      var next := SpeedLatch(recorded, readings[0]).recorded;
      var r := LatchRun(next, readings[1..]);
      assert forall i | 0 <= i < |readings[1..]| :: readings[1..][i] == readings[i + 1];
      assert next == recorded || next == Some(readings[0]);
      r
  }

  /** A slow drift does not move the latch: readings each within 0.01 of the
      recorded multiplier never report a change and leave it recorded, even
      when they add up to more than 0.01 in total. */
  lemma {:induction false} LatchIgnoresSmallDrift(v: real, readings: seq<real>)
    requires forall i | 0 <= i < |readings| :: AbsReal(readings[i] - v) <= 0.01
    ensures LatchRun(Some(v), readings) == Some(v)
    ensures forall i | 0 <= i < |readings| :: !SpeedLatch(Some(v), readings[i]).changed
    decreases |readings|
  {
    if readings != [] {
      LatchIgnoresSmallDrift(v, readings[1..]);
    }
  }
}
