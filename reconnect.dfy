/** The connection state machine of rover-communication.js as pure
    functions: the reconnect policy (at most ten scheduled attempts, the n-th
    after `Math.min(3000 * n, 30000)` milliseconds) and the effect of every
    call and socket event on the link globals `websocket`, `isConnected`,
    `isReconnecting`, `connectionTimeout`, `reconnectAttempts` and
    `reconnectTimeout`. The session class in communication.dfy is proved
    against these functions. */
module Reconnect {
  import opened Common

  const MAX_RECONNECT_ATTEMPTS: nat := 10
  const RECONNECT_BASE_MS: nat := 3000
  const RECONNECT_CAP_MS: nat := 30000
  /** How long a connection attempt may stay CONNECTING before it is closed. */
  const CONNECT_TIMEOUT_MS: nat := 5000

  /** The delay before the `attempt`-th reconnection. */
  function BackoffDelay(attempt: nat): (d: nat)
    ensures d <= RECONNECT_CAP_MS
    ensures d <= RECONNECT_BASE_MS * attempt
    ensures d == RECONNECT_CAP_MS || d == RECONNECT_BASE_MS * attempt
  {
    if RECONNECT_BASE_MS * attempt <= RECONNECT_CAP_MS then RECONNECT_BASE_MS * attempt else RECONNECT_CAP_MS
  }

  /** Later attempts never wait less than earlier ones. */
  lemma BackoffMonotone(m: nat, n: nat)
    requires m <= n
    ensures BackoffDelay(m) <= BackoffDelay(n)
  {
  }

  /** Within the ten attempts that can ever be scheduled the delay is linear,
      and the cap is reached exactly at the last one. */
  lemma BackoffWithinAttemptBound(n: nat)
    requires 1 <= n <= MAX_RECONNECT_ATTEMPTS
    ensures BackoffDelay(n) == RECONNECT_BASE_MS * n
    ensures BackoffDelay(n) == RECONNECT_CAP_MS <==> n == MAX_RECONNECT_ATTEMPTS
  {
  }

  /** The longest the policy ever waits in total before giving up. */
  function TotalBackoff(n: nat): (t: nat)
    ensures t <= RECONNECT_CAP_MS * n
    decreases n
  {
    if n == 0 then 0 else TotalBackoff(n - 1) + BackoffDelay(n)
  }

  /** Ten attempts wait 3000 + 6000 + ... + 30000 = 165000 ms altogether. */
  lemma {:induction false} TotalBackoffClosedForm(n: nat)
    requires n <= MAX_RECONNECT_ATTEMPTS
    ensures 2 * TotalBackoff(n) == RECONNECT_BASE_MS * n * (n + 1)
    decreases n
  {
    if n > 0 {
      TotalBackoffClosedForm(n - 1);
      BackoffWithinAttemptBound(n);
    }
  }

  /** The `readyState` of the current `websocket`, or `NoSocket` for `null`. */
  datatype ReadyState = NoSocket | Connecting | Open | Closing | Closed

  /** The link globals. `connectTimer` is whether the 5000 ms connection
      timeout is pending; `reconnectTimer` holds the delay of a pending
      reconnection. */
  datatype Link = Link(
    socket: ReadyState,
    isConnected: bool,
    isReconnecting: bool,
    connectTimer: bool,
    attempts: nat,
    reconnectTimer: Option<nat>)

  /** What every reachable link satisfies: the attempt counter stays within
      its bound, a connection attempt is in flight exactly while the socket
      is CONNECTING and its timeout is pending, and the connected flag is
      only up on a socket that is open or (after a manual reconnect over a
      live link) being replaced. */
  predicate LinkValid(l: Link) {
    l.attempts <= MAX_RECONNECT_ATTEMPTS
    && (l.isReconnecting <==> l.socket == Connecting)
    && (l.connectTimer <==> l.isReconnecting)
    && (l.isConnected ==> l.socket == Open || l.socket == Connecting)
  }

  /** The page's initial globals. */
  const INITIAL_LINK: Link := Link(NoSocket, false, false, false, 0, None)

  /** `cleanup`: cancel the connection timeout and drop both flags. */
  function Cleanup(l: Link): (r: Link)
    ensures !r.isConnected && !r.isReconnecting && !r.connectTimer
    ensures r.socket == l.socket && r.attempts == l.attempts && r.reconnectTimer == l.reconnectTimer
  {
    l.(connectTimer := false, isConnected := false, isReconnecting := false)
  }

  /** `scheduleReconnect`: replace any pending reconnection by one for the
      next attempt number. */
  function ScheduleReconnect(l: Link): (r: Link)
    ensures r.attempts == l.attempts + 1
    ensures r.reconnectTimer == Some(BackoffDelay(l.attempts + 1))
    ensures r.(attempts := l.attempts, reconnectTimer := l.reconnectTimer) == l
  {
    l.(attempts := l.attempts + 1, reconnectTimer := Some(BackoffDelay(l.attempts + 1)))
  }

  /** `handleConnectionFailure`: clean up, then schedule a reconnection while
      the bound allows it. */
  function ConnectionFailure(l: Link): (r: Link)
    ensures !r.isConnected && !r.isReconnecting && !r.connectTimer && r.socket == l.socket
    ensures l.attempts < MAX_RECONNECT_ATTEMPTS ==>
      r.attempts == l.attempts + 1 && r.reconnectTimer == Some(BackoffDelay(r.attempts))
    ensures l.attempts >= MAX_RECONNECT_ATTEMPTS ==>
      r.attempts == l.attempts && r.reconnectTimer == l.reconnectTimer
  {
    var c := Cleanup(l);
    if c.attempts < MAX_RECONNECT_ATTEMPTS then ScheduleReconnect(c) else c
  }

  /** `connectToServer`. It refuses while an attempt is in flight or the
      bound is reached. Otherwise it detaches and closes the old socket and
      opens a new one; `createFails` is whether `new WebSocket` throws. */
  function Connect(l: Link, createFails: bool): (r: Link)
    ensures l.isReconnecting || l.attempts >= MAX_RECONNECT_ATTEMPTS ==> r == l
    ensures !l.isReconnecting && l.attempts < MAX_RECONNECT_ATTEMPTS && !createFails ==>
      r == l.(socket := Connecting, isReconnecting := true, connectTimer := true)
    ensures !l.isReconnecting && l.attempts < MAX_RECONNECT_ATTEMPTS && createFails ==>
      r.socket == NoSocket && !r.isConnected && !r.isReconnecting
      && r.attempts == l.attempts + 1 && r.reconnectTimer == Some(BackoffDelay(r.attempts))
  {
    if l.isReconnecting || l.attempts >= MAX_RECONNECT_ATTEMPTS then l
    else if createFails then ConnectionFailure(l.(socket := NoSocket, isReconnecting := true))
    else l.(socket := Connecting, isReconnecting := true, connectTimer := true)
  }

  /** A call or socket event that changes the link. */
  datatype Event =
    | ConnectCall(createFails: bool)      // connectToServer()
    | SocketOpened                        // websocket.onopen
    | SocketClosed                        // websocket.onclose
    | SocketErrored                       // websocket.onerror
    | ConnectTimeout                      // the 5000 ms connection timeout fires
    | ReconnectFires(createFails: bool)   // the pending reconnection fires
    | ResetCall(createFails: bool)        // resetConnection()
    | SendThrew(socketClosing: bool)      // websocket.send threw in sendSpeedCommand
    | ShutdownCall                        // the socket part of shutdownCommunicationSystem()

  /** When an event can occur. Socket events come only from a socket that
      still has handlers; an error moves the socket to `Closing` because its
      close event is still due. A socket closed while CONNECTING (by the
      connection timeout) is Closing and has not yet reported its failure:
      the WebSocket standard's `close()` fails such a connection, which
      fires an error event before the close event. A throwing send happens
      only on a link that passed the send guard. */
  predicate Enabled(l: Link, e: Event) {
    match e
    case SocketOpened => l.socket == Connecting
    case SocketClosed => l.socket == Connecting || l.socket == Open || l.socket == Closing
    case SocketErrored => l.socket == Connecting || l.socket == Open || l.socket == Closing
    case ConnectTimeout => l.connectTimer
    case ReconnectFires(_) => l.reconnectTimer.Some?
    case SendThrew(_) => l.socket == Open && l.isConnected
    case _ => true
  }

  /** The link after one event. */
  function Step(l: Link, e: Event): (r: Link)
    requires Enabled(l, e)
    // onopen: the socket is open and connected, the timeout cleared and the
    // counter zero
    ensures e.SocketOpened? ==>
              r.socket == Open && r.isConnected && !r.isReconnecting && !r.connectTimer
              && r.attempts == 0 && r.reconnectTimer == l.reconnectTimer
    // onclose and onerror both clean up and both count an attempt and arm
    // its backoff while the bound allows
    ensures e.SocketClosed? || e.SocketErrored? ==>
              !r.isConnected && !r.isReconnecting && !r.connectTimer
              && r.socket == (if e.SocketClosed? then Closed else Closing)
              && (l.attempts < MAX_RECONNECT_ATTEMPTS ==>
                    r.attempts == l.attempts + 1 && r.reconnectTimer == Some(BackoffDelay(r.attempts)))
              && (l.attempts >= MAX_RECONNECT_ATTEMPTS ==>
                    r.attempts == l.attempts && r.reconnectTimer == l.reconnectTimer)
    // the timeout only acts on a socket still connecting, which it closes
    // and counts as a failure
    ensures e.ConnectTimeout? && l.socket == Connecting ==> r == ConnectionFailure(l.(socket := Closing))
    ensures e.ConnectTimeout? && l.socket != Connecting ==> r == l.(connectTimer := false)
    // the reconnect timer and a reset both end in connectToServer, a reset
    // from fresh globals
    ensures e.ReconnectFires? ==> r == Connect(l.(reconnectTimer := None), e.createFails)
    ensures e.ResetCall? ==> r == Connect(INITIAL_LINK, e.createFails)
    ensures e.SendThrew? ==> r == if e.socketClosing then l.(isConnected := false, socket := Closing) else l
    ensures e.ShutdownCall? ==> r == INITIAL_LINK
  {
    match e
    case ConnectCall(fails) => Connect(l, fails)
    case SocketOpened =>
      l.(socket := Open, connectTimer := false, isConnected := true, isReconnecting := false, attempts := 0)
    case SocketClosed =>
      // cleanup() has just cleared isReconnecting, so only the bound is checked
      var c := Cleanup(l.(socket := Closed));
      if !c.isReconnecting && c.attempts < MAX_RECONNECT_ATTEMPTS then ScheduleReconnect(c) else c
    case SocketErrored => ConnectionFailure(Cleanup(l.(socket := Closing)))
    case ConnectTimeout =>
      if l.socket == Connecting then ConnectionFailure(l.(socket := Closing))
      else l.(connectTimer := false)
    case ReconnectFires(fails) => Connect(l.(reconnectTimer := None), fails)
    case ResetCall(fails) =>
      Connect(Link(NoSocket, false, false, false, 0, None), fails)
    case SendThrew(closing) =>
      if closing then l.(isConnected := false, socket := Closing) else l
    case ShutdownCall => INITIAL_LINK
  }

  /** Every event keeps the link invariant. */
  lemma StepPreservesValid(l: Link, e: Event)
    requires LinkValid(l) && Enabled(l, e)
    ensures LinkValid(Step(l, e))
  {
  }

  /** The link after a sequence of events, or `None` if one of them could
      not have occurred. */
  function Trace(l: Link, events: seq<Event>): (r: Option<Link>)
    decreases |events|
  {
    if events == [] then Some(l)
    else if !Enabled(l, events[0]) then None
    else Trace(Step(l, events[0]), events[1..])
  }

  /** Whatever happens, the page never counts more than ten reconnection
      attempts, and the other link invariants hold throughout. */
  lemma {:induction false} AttemptsStayBounded(l: Link, events: seq<Event>)
    requires LinkValid(l)
    requires Trace(l, events).Some?
    ensures LinkValid(Trace(l, events).value)
    ensures Trace(l, events).value.attempts <= MAX_RECONNECT_ATTEMPTS
    decreases |events|
  {
    if events != [] {
      StepPreservesValid(l, events[0]);
      AttemptsStayBounded(Step(l, events[0]), events[1..]);
    }
  }

  /** A successful open, a reset and a shutdown all set the counter back to
      zero; a reset that can create its socket is then connecting. */
  lemma CounterResets(l: Link, fails: bool)
    requires LinkValid(l)
    ensures l.socket == Connecting ==> Step(l, SocketOpened).attempts == 0 && Step(l, SocketOpened).isConnected
    ensures Step(l, ResetCall(fails)).attempts == (if fails then 1 else 0)
    ensures !fails ==> Step(l, ResetCall(fails)).socket == Connecting
    ensures Step(l, ShutdownCall).attempts == 0
  {
  }

  /** `connectToServer` refuses while an attempt is in flight or once the
      bound is reached: the link is left exactly as it was. */
  lemma ConnectRefusals(l: Link, fails: bool)
    requires l.isReconnecting || l.attempts >= MAX_RECONNECT_ATTEMPTS
    ensures Step(l, ConnectCall(fails)) == l
    ensures l.reconnectTimer.Some? ==> Step(l, ReconnectFires(fails)) == l.(reconnectTimer := None)
  {
  }

  /** The tenth scheduled reconnection is the only one that waits the 30 s
      cap, and when it fires `connectToServer` refuses it: the cap is never
      waited before a real attempt. */
  lemma CappedWaitEndsInRefusal(l: Link, fails: bool)
    requires LinkValid(l)
    requires l.socket == Open || l.socket == Connecting
    requires l.attempts < MAX_RECONNECT_ATTEMPTS
    ensures var s := Step(l, SocketClosed);
            (s.reconnectTimer == Some(RECONNECT_CAP_MS) <==> l.attempts == MAX_RECONNECT_ATTEMPTS - 1)
            && (l.attempts == MAX_RECONNECT_ATTEMPTS - 1 ==> Step(s, ReconnectFires(fails)).socket == Closed)
  {
    BackoffWithinAttemptBound(l.attempts + 1);
  }

  /** An error on the socket is followed by its close event, and both
      handlers schedule a reconnection: one failed attempt uses up two
      attempt numbers, and the pending reconnection is the second one's. */
  lemma FailureCountsTwice(l: Link)
    requires LinkValid(l) && l.socket == Connecting
    requires l.attempts + 2 <= MAX_RECONNECT_ATTEMPTS
    ensures Step(Step(l, SocketErrored), SocketClosed).attempts == l.attempts + 2
    ensures Step(Step(l, SocketErrored), SocketClosed).reconnectTimer == Some(BackoffDelay(l.attempts + 2))
  {
  }

  /** A connection timeout counts a failure itself and closes the socket
      while it is CONNECTING, so the error and close events that failed
      connection then reports count one more each: a timed-out attempt uses
      up three attempt numbers. */
  lemma TimeoutCountsThrice(l: Link)
    requires LinkValid(l) && l.socket == Connecting
    requires l.attempts + 3 <= MAX_RECONNECT_ATTEMPTS
    ensures var t := Step(l, ConnectTimeout);
            t.socket == Closing && t.attempts == l.attempts + 1
            && Step(Step(t, SocketErrored), SocketClosed).attempts == l.attempts + 3
            && Step(Step(t, SocketErrored), SocketClosed).reconnectTimer == Some(BackoffDelay(l.attempts + 3))
  {
  }
}
