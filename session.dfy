/** The client's WebSocket session: the connect guard, the offline send
    buffer flushed on open, the exponential reconnect backoff, disconnect and
    reconnect, and the hand-off of incoming messages to the notification queue.
    Each callback is one atomic step that reads the current state; the socket
    itself is reduced to a log of what it sent, and a scheduled reconnect to
    the delay it was scheduled with. */
module Session {
  import opened Types
  import MessageQueue

  const MaxReconnectAttempts := 5
  const ReconnectDelay := 1000

  const ConnectionError := "WebSocket connection error"
  const ConnectFailed := "Failed to connect to WebSocket server"
  const NotConnected := "Cannot send message: not connected"
  const SendFailed := "Failed to send message"

  function Pow2(k: nat): (r: nat)
    ensures r >= 1
  {
    if k == 0 then 1 else 2 * Pow2(k - 1)
  }

  /** The delay the close handler schedules a reconnect with, if it does. */
  function Backoff(attempts: nat): Option<nat>
  {
    if attempts < MaxReconnectAttempts then Some(ReconnectDelay * Pow2(attempts)) else None
  }

  /** The schedule: 1000, 2000, 4000, 8000 and 16000 ms, then nothing. */
  lemma BackoffSchedule(k: nat)
    ensures Backoff(0) == Some(1000) && Backoff(1) == Some(2000) && Backoff(2) == Some(4000)
    ensures Backoff(3) == Some(8000) && Backoff(4) == Some(16000)
    ensures k >= MaxReconnectAttempts <==> Backoff(k) == None
    ensures k + 1 < MaxReconnectAttempts ==> Backoff(k + 1).value == 2 * Backoff(k).value
  {
    assert Pow2(1) == 2 && Pow2(2) == 4 && Pow2(3) == 8 && Pow2(4) == 16;
  }

  /** The session's state. `socket` says whether a socket is held (it is set
      when one opens), `sent` is what the held socket sent, `delays` the
      reconnects scheduled so far and `timers` those not yet fired. */
  datatype Conn = Conn(
    socket: bool,
    connected: bool,
    connecting: bool,
    error: Option<string>,
    attempts: nat,
    buffer: seq<Message>,
    sent: seq<Message>,
    delays: seq<nat>,
    timers: nat)

  /** A callback or a call on the provider. `fails` says whether the socket
      constructor or the transport send throws. */
  datatype Event =
    | ConnectCall(authenticated: bool, fails: bool)
    | Opened
    | Closed
    | TimerFired(authenticated: bool, fails: bool)
    | Errored
    | SendCall(message: Message, fails: bool)
    | DisconnectCall
    | ReconnectCall(authenticated: bool, fails: bool)

  /** The session's own invariant: a connected session holds a socket, and a
      held socket is no longer connecting. */
  predicate Coherent(s: Conn)
  {
    (s.connected ==> s.socket) && (s.socket ==> !s.connecting)
  }

  function Connect(s: Conn, authenticated: bool, fails: bool): Conn
  {
    if s.socket || s.connecting || !authenticated then s
    else if fails then s.(error := Some(ConnectFailed))
    else s.(connecting := true, error := None)
  }

  function Open(s: Conn): Conn
  {
    s.(socket := true, connected := true, connecting := false, attempts := 0,
       sent := s.sent + s.buffer, buffer := [])
  }

  function Close(s: Conn): Conn
  {
    var b := Backoff(s.attempts);
    s.(connected := false, socket := false,
       delays := if b.Some? then s.delays + [b.value] else s.delays,
       timers := if b.Some? then s.timers + 1 else s.timers)
  }

  function Disconnect(s: Conn): Conn
  {
    if s.socket then s.(socket := false, connected := false) else s
  }

  function Send(s: Conn, m: Message, fails: bool): Conn
  {
    if !s.socket || !s.connected then s.(buffer := s.buffer + [m], error := Some(NotConnected))
    else if fails then s.(buffer := s.buffer + [m], error := Some(SendFailed))
    else s.(sent := s.sent + [m])
  }

  function Next(s: Conn, e: Event): Conn
  {
    match e
    case ConnectCall(auth, fails) => Connect(s, auth, fails)
    case Opened => Open(s)
    case Closed => Close(s)
    case TimerFired(auth, fails) =>
      Connect(s.(timers := if s.timers > 0 then s.timers - 1 else 0, attempts := s.attempts + 1), auth, fails)
    case Errored => s.(error := Some(ConnectionError), connected := false)
    case SendCall(m, fails) => Send(s, m, fails)
    case DisconnectCall => Disconnect(s)
    case ReconnectCall(auth, fails) => Connect(Disconnect(s).(attempts := 0), auth, fails)
  }

  function Run(s: Conn, events: seq<Event>): Conn
    decreases |events|
  {
    if events == [] then s else Run(Next(s, events[0]), events[1..])
  }

  /** Every callback keeps the session coherent. */
  lemma NextKeepsCoherent(s: Conn, e: Event)
    requires Coherent(s)
    ensures Coherent(Next(s, e))
  {
  }

  lemma {:induction false} RunKeepsCoherent(s: Conn, events: seq<Event>)
    requires Coherent(s)
    ensures Coherent(Run(s, events))
    decreases |events|
  {
    if events != [] {
      NextKeepsCoherent(s, events[0]);
      RunKeepsCoherent(Next(s, events[0]), events[1..]);
    }
  }

  /** `connect` does nothing while a socket is held, while a connection is in
      progress, or when the user is not authenticated. */
  lemma ConnectGuard(s: Conn, authenticated: bool, fails: bool)
    ensures Connect(s, authenticated, fails) == s <==>
      s.socket || s.connecting || !authenticated || (fails && s.error == Some(ConnectFailed))
  {
  }

  function SendsOffline(ms: seq<Message>): (r: seq<Event>)
    ensures |r| == |ms|
  {
    seq(|ms|, i requires 0 <= i < |ms| => SendCall(ms[i], false))
  }

  /** Sends while not connected are buffered in order, each setting the error. */
  lemma {:induction false} OfflineSendsAreBuffered(s: Conn, ms: seq<Message>)
    requires !s.connected
    ensures var r := Run(s, SendsOffline(ms));
      && r == s.(buffer := s.buffer + ms, error := r.error)
      && (ms != [] ==> r.error == Some(NotConnected))
    decreases |ms|
  {
    if ms != [] {
      var s1 := Send(s, ms[0], false);
      assert SendsOffline(ms)[1..] == SendsOffline(ms[1..]);
      OfflineSendsAreBuffered(s1, ms[1..]);
      assert s1.buffer + ms[1..] == s.buffer + ms;
    }
  }

  /** Messages sent while offline go out, in the order they were sent, when
      the socket opens; the buffer is then empty and attempts are reset. */
  lemma OfflineSendsFlushOnOpen(s: Conn, ms: seq<Message>)
    requires !s.connected
    ensures var r := Run(s, SendsOffline(ms) + [Opened]);
      && r.sent == s.sent + s.buffer + ms && r.buffer == []
      && r.connected && r.socket && !r.connecting && r.attempts == 0
  {
    RunAppend(s, SendsOffline(ms), [Opened]);
    OfflineSendsAreBuffered(s, ms);
  }

  lemma {:induction false} RunAppend(s: Conn, a: seq<Event>, b: seq<Event>)
    ensures Run(s, a + b) == Run(Run(s, a), b)
    decreases |a|
  {
    if a != [] {
      assert (a + b)[1..] == a[1..] + b;
      RunAppend(Next(s, a[0]), a[1..], b);
    } else {
      assert a + b == b;
    }
  }

  /** After a close, a reconnect is scheduled with the backoff delay exactly
      when fewer than five attempts were made; once five are reached nothing
      is scheduled. */
  lemma CloseSchedulesBackoff(s: Conn)
    ensures var r := Close(s);
      && !r.connected && !r.socket
      && (s.attempts < MaxReconnectAttempts ==>
            r.delays == s.delays + [ReconnectDelay * Pow2(s.attempts)] && r.timers == s.timers + 1)
      && (s.attempts >= MaxReconnectAttempts ==> r.delays == s.delays && r.timers == s.timers)
  {
  }

  /** A manual disconnect is followed by the socket's close event, and that
      event schedules a reconnect like any other close while fewer than five
      attempts were made. */
  lemma DisconnectThenCloseReconnects(s: Conn)
    requires s.socket && s.attempts < MaxReconnectAttempts
    ensures Run(s, [DisconnectCall, Closed]).delays == s.delays + [ReconnectDelay * Pow2(s.attempts)]
  {
    assert [DisconnectCall, Closed][1..] == [Closed];
  }

  /** The close handler as the comment above it intends: after a manual
      disconnect no reconnect is scheduled; any other close backs off. */
  function IntendedClose(s: Conn, manuallyDisconnected: bool): Conn
  {
    if manuallyDisconnected then s.(connected := false, socket := false) else Close(s)
  }

  /** Under the intended handler a manual disconnect stays down: its close
      schedules no timer and no delay, where the handler as written schedules
      one; every other close is handled exactly as written. */
  lemma ManualDisconnectStaysDown(s: Conn, t: Conn)
    requires s.socket && s.attempts < MaxReconnectAttempts
    ensures var r := IntendedClose(Disconnect(s), true);
      && !r.socket && !r.connected && r.delays == s.delays && r.timers == s.timers
      && r.buffer == s.buffer && r.attempts == s.attempts
    ensures Run(s, [DisconnectCall, Closed]).delays != s.delays
    ensures IntendedClose(t, false) == Close(t)
  {
    DisconnectThenCloseReconnects(s);
    assert |Run(s, [DisconnectCall, Closed]).delays| == |s.delays| + 1;
  }

  /** A session that opened and then lost its connection retries once after
      1000 ms; when that retry closes without opening, a second reconnect is
      scheduled after 2000 ms, but it finds `connecting` still set and does
      nothing: no socket, no further timer, attempts at 2. */
  lemma RetryStopsAfterUnopenedClose(s: Conn)
    requires s.socket && !s.connecting && s.timers == 0
    ensures var r := Run(s, [Opened, Closed, TimerFired(true, false), Closed, TimerFired(true, false)]);
      && r.delays == s.delays + [1000, 2000]
      && r.connecting && !r.socket && r.timers == 0 && r.attempts == 2
  {
    var e := [Opened, Closed, TimerFired(true, false), Closed, TimerFired(true, false)];
    var s1 := Open(s);
    var s2 := Close(s1);
    var s3 := Next(s2, TimerFired(true, false));
    var s4 := Close(s3);
    var s5 := Next(s4, TimerFired(true, false));
    assert Pow2(1) == 2;
    assert Run(s5, []) == s5;
    assert e[1..][1..][1..][1..][1..] == [];
    assert Run(s, e) == s5;
  }

  /** `reconnect` resets the attempts before connecting, so a session that is
      neither holding a socket nor connecting starts a new connection with a
      fresh backoff. */
  lemma ReconnectResetsAttempts(s: Conn, fails: bool)
    requires Coherent(s) && !s.connecting
    ensures var r := Next(s, ReconnectCall(true, fails));
      && r.attempts == 0 && !r.socket && !r.connected
      && r.connecting == !fails
      && r.error == (if fails then Some(ConnectFailed) else None)
  {
  }

  /** The message types handed to the notification queue. */
  predicate Forwarded(kind: string)
  {
    kind == "new_bid" || kind == "bid_accepted" || kind == "bid_rejected" || kind == "auction_update"
  }

  /** `WebSocketProvider`'s state and callbacks. */
  class WebSocketSession {
    var socket: bool
    var connected: bool
    var connecting: bool
    var error: Option<string>
    var attempts: nat
    var buffer: seq<Message>
    var sent: seq<Message>
    var delays: seq<nat>
    var timers: nat
    const service: MessageQueue.QueueService

    function State(): Conn
      reads this
    {
      Conn(socket, connected, connecting, error, attempts, buffer, sent, delays, timers)
    }

    constructor (service: MessageQueue.QueueService)
      ensures State() == Conn(false, false, false, None, 0, [], [], [], 0)
      ensures Coherent(State()) && this.service == service
    {
      socket := false;
      connected := false;
      connecting := false;
      error := None;
      attempts := 0;
      buffer := [];
      sent := [];
      delays := [];
      timers := 0;
      this.service := service;
    }

    /** `connect`. */
    method Connect(authenticated: bool, fails: bool)
      modifies this`connecting, this`error
      ensures State() == Next(old(State()), ConnectCall(authenticated, fails))
    {
      if socket || connecting || !authenticated {
        return;
      }
      connecting := true;
      error := None;
      if fails {
        error := Some(ConnectFailed);
        connecting := false;
      }
    }

    /** `onopen`: the buffered messages are sent in order, then the buffer is
        emptied. */
    method OnOpen()
      modifies this
      ensures State() == Next(old(State()), Opened)
    {
      socket := true;
      connected := true;
      connecting := false;
      attempts := 0;
      var out := sent;
      var i := 0;
      while i < |buffer|
        invariant 0 <= i <= |buffer|
        invariant out == sent + buffer[..i]
      {
        out := out + [buffer[i]];
        i := i + 1;
      }
      assert buffer[..i] == buffer;
      sent := out;
      buffer := [];
    }

    /** `onclose`. */
    method OnClose()
      modifies this
      ensures State() == Next(old(State()), Closed)
    {
      connected := false;
      socket := false;
      if attempts < MaxReconnectAttempts {
        var delay := ReconnectDelay * Pow2(attempts);
        delays := delays + [delay];
        timers := timers + 1;
      }
    }

    /** The scheduled reconnect: attempts grow by one, then `connect`. */
    method OnTimer(authenticated: bool, fails: bool)
      modifies this
      ensures State() == Next(old(State()), TimerFired(authenticated, fails))
    {
      timers := if timers > 0 then timers - 1 else 0;
      attempts := attempts + 1;
      Connect(authenticated, fails);
    }

    /** `onerror`. */
    method OnError()
      modifies this
      ensures State() == Next(old(State()), Errored)
    {
      error := Some(ConnectionError);
      connected := false;
    }

    /** `send`. */
    method Send(message: Message, fails: bool)
      modifies this
      ensures State() == Next(old(State()), SendCall(message, fails))
    {
      if !socket || !connected {
        buffer := buffer + [message];
        error := Some(NotConnected);
        return;
      }
      if fails {
        error := Some(SendFailed);
        buffer := buffer + [message];
      } else {
        sent := sent + [message];
      }
    }

    /** `disconnect`: the socket's close is requested, and its close event
        arrives later as `OnClose`. */
    method Disconnect()
      modifies this
      ensures State() == Next(old(State()), DisconnectCall)
    {
      if socket {
        socket := false;
        connected := false;
      }
    }

    /** `reconnect`. */
    method Reconnect(authenticated: bool, fails: bool)
      modifies this
      ensures State() == Next(old(State()), ReconnectCall(authenticated, fails))
    {
      Disconnect();
      attempts := 0;
      Connect(authenticated, fails);
    }

    /** `onmessage`: a parsed message of a forwarded type is added to the
        notification queue; anything else, and text that does not parse, is
        dropped. */
    method OnMessage(parsed: Option<Message>, clock: seq<nat>) returns (forwarded: bool)
      requires service.Valid()
      modifies service, service.store, service.notificationQueue
      ensures service.Valid()
      ensures forwarded <==> parsed.Some? && Forwarded(parsed.value.kind)
      ensures forwarded ==> service.notificationQueue.submitted
                            == old(service.notificationQueue.submitted) + [MessageQueue.NoticeJob(parsed.value)]
      ensures !forwarded ==> unchanged(service, service.store, service.notificationQueue)
    {
      forwarded := false;
      if parsed.Some? && Forwarded(parsed.value.kind) {
        var _ := service.AddNotification(parsed.value, clock);
        forwarded := true;
      }
    }
  }
}
