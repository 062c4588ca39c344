/** The live-feed client's connection lifecycle as a state machine over values.

    `Feed` holds what the hook keeps between renders: the window of points,
    the `isConnected`/`error`/`lastCandle` slots, the three refs (current
    socket, pending reconnect timer, `shouldReconnect` flag), and the part of
    the browser the hook talks to: every socket it has created (a socket's id
    is its index) with its ready state, and the reconnect timers still pending.

    Each handler is a function from the old state to the new one. Handlers are
    attached per socket but all write the same shared slots and refs, so an
    event from a socket that is no longer current still acts. Browser events
    carry the id of the socket that fires them; their `requires` say when the
    browser can fire them at all. */
module LiveFeed {

  import opened Wrappers
  import opened Types
  import Api
  import RollingWindow

  /** The point stored in the window for one candle. */
  datatype LiveDataPoint = LiveDataPoint(
    time: int,
    open: real,
    high: real,
    low: real,
    close: real,
    volume: real,
    tradeCount: int)

  datatype ReadyState = Connecting | Open | Closing | Closed

  /** A socket the hook created: the symbol and URL it was opened for. */
  datatype Socket = Socket(symbol: string, url: string, state: ReadyState)

  /** One inbound frame, after the JSON decoder has looked at it. */
  datatype Frame = Decoded(candle: LiveCandleData) | Malformed

  const ReconnectDelayMs: nat := 3000

  /** A pending reconnect timer: the symbol whose `connect` it will call, and its delay. */
  datatype Timer = Timer(symbol: string, delayMs: nat)
  const ConnectionErrorMessage: string := "WebSocket connection error"

  datatype Feed = Feed(
    symbol: string,                   // the symbol the hook is currently rendered with
    data: seq<LiveDataPoint>,
    isConnected: bool,
    error: Option<string>,
    lastCandle: Option<LiveCandleData>,
    ws: Option<nat>,                  // wsRef: the current socket
    reconnectTimeout: Option<nat>,    // reconnectTimeoutRef: the last timer scheduled
    shouldReconnect: bool,            // shouldReconnectRef
    sockets: seq<Socket>,             // every socket created so far, by id
    timers: map<nat, Timer>,          // pending reconnect timers, by id
    timersIssued: nat)                // timer ids handed out so far (ids are 1, 2, ...)

  /** The state of a socket; ids never handed out read as closed. */
  function SocketState(f: Feed, id: nat): ReadyState {
    if id < |f.sockets| then f.sockets[id].state else Closed
  }

  /** What holds of every state the hook can reach. */
  ghost predicate Inv(f: Feed) {
    && |f.data| <= RollingWindow.MaxDataPoints
    && (f.ws.Some? ==> f.ws.value < |f.sockets|)
    && (forall t :: t in f.timers ==> 1 <= t <= f.timersIssued)
    && (f.reconnectTimeout.Some? ==> 1 <= f.reconnectTimeout.value <= f.timersIssued)
    && (forall id :: 0 <= id < |f.sockets| ==> f.sockets[id].url == Api.LiveWebSocketUrl(f.sockets[id].symbol))
  }

  /** The hook's state on first render, before its effect runs. */
  function Initial(symbol: string): Feed {
    Feed(symbol, [], false, None, None, None, None, true, [], map[], 0)
  }

  function SetState(sockets: seq<Socket>, id: nat, s: ReadyState): seq<Socket>
    requires id < |sockets|
  {
    sockets[id := sockets[id].(state := s)]
  }

  /** `socket.close()`: a connecting or open socket starts closing; on a
      closing or closed socket it does nothing. */
  function CloseSocket(sockets: seq<Socket>, id: nat): (r: seq<Socket>)
    ensures |r| == |sockets|
  {
    if id < |sockets| && sockets[id].state in {Connecting, Open} then SetState(sockets, id, Closing) else sockets
  }

  /** `connect` as created for `symbol`: close the current socket only if it is
      open, re-arm the reconnect flag, and open a new socket that becomes current. */
  function Connect(f: Feed, symbol: string): (r: Feed)
    ensures r.ws == Some(|f.sockets|) && |r.sockets| == |f.sockets| + 1
    ensures r.sockets[|f.sockets|] == Socket(symbol, Api.LiveWebSocketUrl(symbol), Connecting)
    ensures r.shouldReconnect
    ensures r.data == f.data && r.timers == f.timers && r.isConnected == f.isConnected && r.error == f.error
  {
    var closed :=
      if f.ws.Some? && SocketState(f, f.ws.value) == Open then CloseSocket(f.sockets, f.ws.value) else f.sockets;
    var id := |closed|;
    f.(shouldReconnect := true,
       sockets := closed + [Socket(symbol, Api.LiveWebSocketUrl(symbol), Connecting)],
       ws := Some(id))
  }

  /** `disconnect`: stop wanting reconnection, cancel the timer the ref names,
      close and forget the current socket, and mark the feed disconnected. */
  function Disconnect(f: Feed): (r: Feed)
    ensures !r.shouldReconnect && r.ws == None && r.reconnectTimeout == None && !r.isConnected
    ensures r.timers.Keys <= f.timers.Keys && |r.sockets| == |f.sockets|
    ensures r.data == f.data && r.lastCandle == f.lastCandle && r.error == f.error && r.symbol == f.symbol
  {
    var f1 := f.(shouldReconnect := false);
    var f2 :=
      if f1.reconnectTimeout.Some? then f1.(timers := f1.timers - {f1.reconnectTimeout.value}, reconnectTimeout := None)
      else f1;
    var f3 :=
      if f2.ws.Some? then f2.(sockets := CloseSocket(f2.sockets, f2.ws.value), ws := None)
      else f2;
    f3.(isConnected := false)
  }

  /** The effect that runs when the symbol is first set or changes: empty the
      window, then connect for the new symbol. */
  function Subscribe(f: Feed, symbol: string): Feed {
    Connect(f.(symbol := symbol, data := []), symbol)
  }

  /** Mounting the hook: the first render, then its effect. */
  function Mount(symbol: string): Feed {
    Subscribe(Initial(symbol), symbol)
  }

  /** A symbol change: the previous effect's cleanup, then the new effect. */
  function ChangeSymbol(f: Feed, symbol: string): (r: Feed)
    ensures r.symbol == symbol && r.data == [] && r.shouldReconnect && !r.isConnected
    ensures r.reconnectTimeout == None && r.timers.Keys <= f.timers.Keys
    ensures r.lastCandle == f.lastCandle && r.error == f.error
  {
    Subscribe(Disconnect(f), symbol)
  }

  /** The `reconnect` the hook returns: the current render's `connect`. */
  function Reconnect(f: Feed): Feed {
    Connect(f, f.symbol)
  }

  function ClearData(f: Feed): Feed {
    f.(data := [])
  }

  /** The window point built from a candle: its close time and its figures. */
  function PointOf(c: LiveCandleData): LiveDataPoint {
    LiveDataPoint(c.closeTime, c.open, c.high, c.low, c.close, c.volume, c.tradeCount)
  }

  /** `onopen` of socket `id`. */
  function OnOpen(f: Feed, id: nat): (r: Feed)
    requires SocketState(f, id) == Connecting
    ensures SocketState(r, id) == Open && |r.sockets| == |f.sockets|
    ensures forall j :: 0 <= j < |f.sockets| && j != id ==> r.sockets[j] == f.sockets[j]
    ensures r.data == f.data && r.timers == f.timers && r.ws == f.ws && r.shouldReconnect == f.shouldReconnect
  {
    f.(sockets := SetState(f.sockets, id, Open), isConnected := true, error := None)
  }

  /** `onmessage` of socket `id`: a decoded candle becomes the last candle and
      is pushed into the window; a frame that does not decode is dropped. */
  function OnMessage(f: Feed, id: nat, frame: Frame): (r: Feed)
    requires SocketState(f, id) == Open
    ensures frame.Decoded? ==> |r.data| <= RollingWindow.MaxDataPoints && r.data != [] && r.data[|r.data| - 1] == PointOf(frame.candle)
    ensures r.sockets == f.sockets && r.timers == f.timers && r.isConnected == f.isConnected && r.error == f.error
  {
    match frame
    case Malformed => f
    case Decoded(c) => f.(lastCandle := Some(c), data := RollingWindow.Push(f.data, PointOf(c)))
  }

  /** `onerror` of socket `id`. */
  function OnError(f: Feed, id: nat): (r: Feed)
    requires SocketState(f, id) != Closed
    ensures r.sockets == f.sockets && r.timers == f.timers && r.ws == f.ws && r.reconnectTimeout == f.reconnectTimeout
    ensures r.shouldReconnect == f.shouldReconnect
    ensures r.data == f.data && r.lastCandle == f.lastCandle
  {
    f.(error := Some(ConnectionErrorMessage), isConnected := false)
  }

  /** `onclose` of socket `id`: always disconnected; while the shared flag is
      set, a new timer is scheduled and overwrites the ref, without cancelling
      any timer the ref named before. The timer reconnects to the symbol of
      the `connect` that created this socket. */
  function OnClose(f: Feed, id: nat): (r: Feed)
    requires SocketState(f, id) != Closed
    ensures SocketState(r, id) == Closed && !r.isConnected && |r.sockets| == |f.sockets|
    ensures forall j :: 0 <= j < |f.sockets| && j != id ==> r.sockets[j] == f.sockets[j]
    ensures forall t :: t in f.timers && t <= f.timersIssued ==> t in r.timers && r.timers[t] == f.timers[t]
    ensures r.ws == f.ws && r.shouldReconnect == f.shouldReconnect
    ensures r.data == f.data && r.lastCandle == f.lastCandle && r.error == f.error
  {
    var f1 := f.(sockets := SetState(f.sockets, id, Closed), isConnected := false);
    if !f1.shouldReconnect then f1
    else
      var t := f1.timersIssued + 1;
      f1.(timers := f1.timers[t := Timer(f.sockets[id].symbol, ReconnectDelayMs)], timersIssued := t, reconnectTimeout := Some(t))
  }

  /** Timer `t` fires after the delay: it calls `connect` for its symbol. The
      ref still names `t` afterwards. */
  function TimerFires(f: Feed, t: nat): (r: Feed)
    requires t in f.timers
    ensures t !in r.timers && r.shouldReconnect
    ensures r.ws == Some(|f.sockets|) && |r.sockets| == |f.sockets| + 1 && r.sockets[|f.sockets|].symbol == f.timers[t].symbol
    ensures r.reconnectTimeout == f.reconnectTimeout
  {
    Connect(f.(timers := f.timers - {t}), f.timers[t].symbol)
  }

  // ---------------------------------------------------------------------------
  // Traces

  datatype Event =
    | SocketOpen(id: nat)
    | SocketMessage(id: nat, frame: Frame)
    | SocketError(id: nat)
    | SocketClose(id: nat)
    | TimerFired(t: nat)
    | UserReconnect
    | SymbolChanged(symbol: string)
    | UserClear
    | Unmounted

  /** Whether the browser or the UI can deliver `e` in state `f`. */
  predicate Enabled(f: Feed, e: Event) {
    match e
    case SocketOpen(id) => SocketState(f, id) == Connecting
    case SocketMessage(id, _) => SocketState(f, id) == Open
    case SocketError(id) => SocketState(f, id) != Closed
    case SocketClose(id) => SocketState(f, id) != Closed
    case TimerFired(t) => t in f.timers
    case _ => true
  }

  function Step(f: Feed, e: Event): Feed
    requires Enabled(f, e)
  {
    match e
    case SocketOpen(id) => OnOpen(f, id)
    case SocketMessage(id, frame) => OnMessage(f, id, frame)
    case SocketError(id) => OnError(f, id)
    case SocketClose(id) => OnClose(f, id)
    case TimerFired(t) => TimerFires(f, t)
    case UserReconnect => Reconnect(f)
    case SymbolChanged(s) => ChangeSymbol(f, s)
    case UserClear => ClearData(f)
    case Unmounted => Disconnect(f)
  }

  /** The state after delivering `events` in order, or None when one of them
      could not have been delivered. */
  function Run(f: Feed, events: seq<Event>): Option<Feed>
    decreases |events|
  {
    if events == [] then Some(f)
    else if Enabled(f, events[0]) then Run(Step(f, events[0]), events[1..])
    else None
  }

  // ---------------------------------------------------------------------------
  // Properties

  /** Every handler keeps the invariant. */
  lemma StepKeepsInv(f: Feed, e: Event)
    requires Inv(f) && Enabled(f, e)
    ensures Inv(Step(f, e))
  {
    match e
    case SocketOpen(id) =>
    case SocketMessage(id, frame) =>
    case SocketError(id) =>
    case SocketClose(id) =>
    case TimerFired(t) =>
    case UserReconnect =>
    case SymbolChanged(s) =>
    case UserClear =>
    case Unmounted =>
  }

  /** Whatever events arrive after mounting, the window never holds more than
      100 points. */
  lemma {:induction false} RunKeepsWindowBounded(f: Feed, events: seq<Event>)
    requires Inv(f)
    ensures Run(f, events).Some? ==> Inv(Run(f, events).value)
    ensures Run(f, events).Some? ==> |Run(f, events).value.data| <= RollingWindow.MaxDataPoints
    decreases |events|
  {
    if events != [] && Enabled(f, events[0]) {
      StepKeepsInv(f, events[0]);
      RunKeepsWindowBounded(Step(f, events[0]), events[1..]);
    }
  }

  /** Mounting starts from an empty window with one connecting socket for the
      symbol, and the invariant holds. */
  lemma MountState(symbol: string)
    ensures var f := Mount(symbol);
            Inv(f) && f.data == [] && f.shouldReconnect && !f.isConnected &&
            f.ws == Some(0) && f.sockets == [Socket(symbol, Api.LiveWebSocketUrl(symbol), Connecting)]
  {
  }

  /** A decoded frame makes its candle the last one and pushes the point built
      from its close time and figures; nothing else changes. */
  lemma DecodedFrame(f: Feed, id: nat, c: LiveCandleData)
    requires SocketState(f, id) == Open
    ensures var g := OnMessage(f, id, Decoded(c));
            g.lastCandle == Some(c) &&
            g.data == RollingWindow.Push(f.data, LiveDataPoint(c.closeTime, c.open, c.high, c.low, c.close, c.volume, c.tradeCount)) &&
            g.(data := f.data, lastCandle := f.lastCandle) == f
  {
  }

  /** A frame that does not decode changes nothing: not the window, the last
      candle, the connection flag or the error. */
  lemma MalformedFrame(f: Feed, id: nat)
    requires SocketState(f, id) == Open
    ensures OnMessage(f, id, Malformed) == f
  {
  }

  /** Open marks the feed connected and clears any earlier error. */
  lemma OpenState(f: Feed, id: nat)
    requires SocketState(f, id) == Connecting
    ensures OnOpen(f, id).isConnected && OnOpen(f, id).error == None
  {
  }

  /** An error from a socket in any state but closed sets the fixed message
      and marks the feed disconnected; the socket and the timers are left to
      the close that follows. */
  lemma ErrorState(f: Feed, id: nat)
    requires SocketState(f, id) != Closed
    ensures !OnError(f, id).isConnected && OnError(f, id).error == Some("WebSocket connection error")
    ensures SocketState(OnError(f, id), id) == SocketState(f, id)
  {
  }

  /** Close always marks the feed disconnected, and schedules a reconnect (a
      new pending timer, named by the ref) if and only if the flag is set. */
  lemma CloseSchedulesIffFlag(f: Feed, id: nat)
    requires Inv(f) && SocketState(f, id) != Closed
    ensures var g := OnClose(f, id);
            !g.isConnected && SocketState(g, id) == Closed &&
            (f.shouldReconnect <==> |g.timers| == |f.timers| + 1) &&
            (!f.shouldReconnect <==> g.timers == f.timers && g.reconnectTimeout == f.reconnectTimeout) &&
            (f.shouldReconnect ==> g.reconnectTimeout.Some? && g.reconnectTimeout.value !in f.timers &&
                                   g.timers[g.reconnectTimeout.value] == Timer(f.sockets[id].symbol, 3000))
  {
    var g := OnClose(f, id);
    if f.shouldReconnect {
      var t := f.timersIssued + 1;
      assert t !in f.timers;
      assert g.timers.Keys == f.timers.Keys + {t};
    }
  }

  /** Disconnect turns the flag off, cancels the timer the ref names, closes and
      forgets the current socket and leaves the feed disconnected. */
  lemma DisconnectState(f: Feed)
    requires Inv(f)
    ensures var g := Disconnect(f);
            !g.shouldReconnect && g.ws == None && g.reconnectTimeout == None && !g.isConnected &&
            (f.reconnectTimeout.Some? ==> g.timers == f.timers - {f.reconnectTimeout.value}) &&
            (f.reconnectTimeout.None? ==> g.timers == f.timers) &&
            (f.ws.Some? ==> SocketState(g, f.ws.value) in {Closing, Closed}) &&
            g.data == f.data
  {
    if f.ws.Some? {
      var id := f.ws.value;
      var before := SocketState(f, id);
      var g := Disconnect(f);
      if before in {Connecting, Open} {
        assert g.sockets[id].state == Closing;
      } else {
        assert before == Closing || before == Closed;
        assert g.sockets[id] == f.sockets[id];
      }
    }
  }

  /** Disconnecting twice is the same as disconnecting once. */
  lemma DisconnectIdempotent(f: Feed)
    ensures Disconnect(Disconnect(f)) == Disconnect(f)
  {
  }

  /** Changing the symbol empties the window and leaves a new connecting socket
      for the new symbol as the current one. */
  lemma ChangeSymbolClearsWindow(f: Feed, symbol: string)
    requires Inv(f)
    ensures var g := ChangeSymbol(f, symbol);
            g.data == [] && g.symbol == symbol && g.shouldReconnect && g.ws.Some? &&
            g.sockets[g.ws.value] == Socket(symbol, Api.LiveWebSocketUrl(symbol), Connecting)
    ensures ClearData(f).data == []
  {
  }

  /** `connect` closes the current socket only when it is open: an open one
      starts closing, and one still connecting is left alive beside the new
      current socket. */
  lemma ConnectClosesOnlyOpenSocket(f: Feed, symbol: string)
    requires Inv(f) && f.ws.Some?
    ensures var g := Connect(f, symbol);
            g.ws.Some? && g.ws.value != f.ws.value && SocketState(g, g.ws.value) == Connecting
    ensures SocketState(f, f.ws.value) == Open ==> SocketState(Connect(f, symbol), f.ws.value) == Closing
    ensures SocketState(f, f.ws.value) != Open ==> SocketState(Connect(f, symbol), f.ws.value) == SocketState(f, f.ws.value)
  {
  }

  /** A late close from the socket of the previous symbol: the symbol change
      closes the old (open) socket and re-arms the shared flag for the new
      one, so when the old socket's close arrives it schedules a reconnect,
      and when that timer fires it connects to the OLD symbol and makes that
      socket current. */
  lemma LateCloseReconnectsOldSymbol(f: Feed, symbol: string)
    requires Inv(f) && f.ws.Some? && SocketState(f, f.ws.value) == Open
    ensures var old_ := f.ws.value;
            var g := ChangeSymbol(f, symbol);
            SocketState(g, old_) == Closing &&
            var h := OnClose(g, old_);
            h.reconnectTimeout.Some? && h.reconnectTimeout.value in h.timers &&
            var k := TimerFires(h, h.reconnectTimeout.value);
            k.ws.Some? && k.sockets[k.ws.value].symbol == f.sockets[old_].symbol &&
            k.sockets[k.ws.value].url == Api.LiveWebSocketUrl(f.sockets[old_].symbol)
  {
  }

  /** A new timer overwrites the ref without cancelling the one before: two
      closes while the flag is set leave two pending timers, disconnect cancels
      only the second, and the first, when it fires, re-arms the flag and opens
      a new socket after the feed was disconnected. */
  lemma OverwrittenTimerOutlivesDisconnect(f: Feed, a: nat, b: nat)
    requires Inv(f) && f.shouldReconnect && a != b
    requires SocketState(f, a) != Closed && SocketState(f, b) != Closed
    ensures var g := OnClose(OnClose(f, a), b);
            var first := f.timersIssued + 1;
            var d := Disconnect(g);
            first in d.timers && d.reconnectTimeout == None && !d.shouldReconnect &&
            var k := TimerFires(d, first);
            k.shouldReconnect && k.ws == Some(|d.sockets|) && SocketState(k, |d.sockets|) == Connecting
  {
    var g1 := OnClose(f, a);
    var g := OnClose(g1, b);
    assert g.reconnectTimeout == Some(f.timersIssued + 2);
  }

  /** The same, reached from mount: pressing reconnect while the first socket
      is still connecting leaves two sockets; both close, the page unmounts,
      and a reconnect still happens. */
  lemma ReconnectAfterUnmountTrace(symbol: string)
    ensures var events := [UserReconnect, SocketClose(0), SocketClose(1), Unmounted, TimerFired(1)];
            var r := Run(Mount(symbol), events);
            r.Some? && r.value.shouldReconnect && r.value.ws == Some(2) &&
            r.value.sockets[2] == Socket(symbol, Api.LiveWebSocketUrl(symbol), Connecting)
  {
    var f0 := Mount(symbol);
    var f1 := Reconnect(f0);
    assert SocketState(f1, 0) == Connecting && SocketState(f1, 1) == Connecting;
    var f2 := OnClose(f1, 0);
    assert f2.timers == map[1 := Timer(symbol, 3000)];
    var f3 := OnClose(f2, 1);
    assert f3.timers == map[1 := Timer(symbol, 3000), 2 := Timer(symbol, 3000)] && f3.reconnectTimeout == Some(2);
    var f4 := Disconnect(f3);
    assert f4.timers == map[1 := Timer(symbol, 3000)];
    var f5 := TimerFires(f4, 1);
    var events := [UserReconnect, SocketClose(0), SocketClose(1), Unmounted, TimerFired(1)];
    assert events[1..] == [SocketClose(0), SocketClose(1), Unmounted, TimerFired(1)];
    assert Run(f4, [TimerFired(1)]) == Some(f5);
    assert Run(f3, [Unmounted, TimerFired(1)]) == Run(f4, [TimerFired(1)]);
    assert Run(f2, [SocketClose(1), Unmounted, TimerFired(1)]) == Run(f3, [Unmounted, TimerFired(1)]);
    assert Run(f1, [SocketClose(0), SocketClose(1), Unmounted, TimerFired(1)]) == Run(f2, [SocketClose(1), Unmounted, TimerFired(1)]);
    assert Run(f0, events) == Run(f1, events[1..]);
  }

  /** A socket that `reconnect` left connecting may open later. Not being
      current, it is not closed by the symbol change, and its frames then land
      in the new symbol's window. */
  lemma StaleSocketFeedsNewSymbol(symbol: string, next: string, c: LiveCandleData)
    ensures var f := OnOpen(Reconnect(Mount(symbol)), 0);
            var g := ChangeSymbol(f, next);
            SocketState(g, 0) == Open && g.sockets[0].symbol == symbol &&
            OnMessage(g, 0, Decoded(c)).symbol == next &&
            OnMessage(g, 0, Decoded(c)).data == [PointOf(c)]
  {
    var f1 := Reconnect(Mount(symbol));
    assert SocketState(f1, 0) == Connecting && f1.ws == Some(1);
    var f := OnOpen(f1, 0);
    assert SocketState(f, 0) == Open && f.ws == Some(1);
    var g := ChangeSymbol(f, next);
    assert SocketState(g, 0) == Open && g.data == [];
    assert RollingWindow.Push([], PointOf(c)) == [PointOf(c)];
  }
}
