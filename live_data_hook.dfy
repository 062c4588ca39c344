/** The live-feed hook as an object: its state slots and refs are fields that
    the handlers update in place, in the order the hook does. Each method is
    proved to perform the transition of the same name in `LiveFeed`, and to
    keep that module's invariant. */
module LiveDataHook {

  import opened Wrappers
  import opened Types
  import Api
  import RollingWindow
  import opened LiveFeed

  class LiveData {
    var symbol: string
    var data: seq<LiveDataPoint>
    var isConnected: bool
    var error: Option<string>
    var lastCandle: Option<LiveCandleData>
    var wsRef: Option<nat>
    var reconnectTimeoutRef: Option<nat>
    var shouldReconnectRef: bool
    // the browser side: sockets created so far and pending timers
    var sockets: seq<Socket>
    var timers: map<nat, Timer>
    var timersIssued: nat

    /** The hook's state as a value. */
    function State(): Feed
      reads this
    {
      Feed(symbol, data, isConnected, error, lastCandle, wsRef, reconnectTimeoutRef,
           shouldReconnectRef, sockets, timers, timersIssued)
    }

    ghost predicate Valid()
      reads this
    {
      Inv(State())
    }

    /** Mounting: initial slots and refs, then the effect (empty window, connect). */
    constructor (initialSymbol: string)
      ensures Valid() && State() == Mount(initialSymbol)
    {
      symbol := initialSymbol;
      data := [];
      isConnected := false;
      error := None;
      lastCandle := None;
      wsRef := None;
      reconnectTimeoutRef := None;
      shouldReconnectRef := true;
      sockets := [];
      timers := map[];
      timersIssued := 0;
      new;
      data := [];
      Connect(initialSymbol);
    }

    /** `socket.close()` on socket `id`. */
    method CloseSocketAt(id: nat)
      modifies this
      ensures State() == old(State()).(sockets := CloseSocket(old(sockets), id))
    {
      if id < |sockets| && sockets[id].state in {Connecting, Open} {
        sockets := sockets[id := sockets[id].(state := Closing)];
      }
    }

    /** `connect`, as created for `forSymbol`. */
    method Connect(forSymbol: string)
      modifies this
      ensures State() == LiveFeed.Connect(old(State()), forSymbol)
    {
      if wsRef.Some? && wsRef.value < |sockets| && sockets[wsRef.value].state == Open {
        CloseSocketAt(wsRef.value);
      }
      shouldReconnectRef := true;
      var wsUrl := Api.LiveWebSocketUrl(forSymbol);
      var id := |sockets|;
      sockets := sockets + [Socket(forSymbol, wsUrl, Connecting)];
      wsRef := Some(id);
    }

    /** `disconnect`. */
    method Disconnect()
      requires Valid()
      modifies this
      ensures Valid() && State() == LiveFeed.Disconnect(old(State()))
    {
      StepKeepsInv(State(), Unmounted);
      shouldReconnectRef := false;
      if reconnectTimeoutRef.Some? {
        timers := timers - {reconnectTimeoutRef.value};
        reconnectTimeoutRef := None;
      }
      if wsRef.Some? {
        CloseSocketAt(wsRef.value);
        wsRef := None;
      }
      isConnected := false;
    }

    /** The effect on a symbol change: the old effect's cleanup, then the new one. */
    method SetSymbol(newSymbol: string)
      requires Valid()
      modifies this
      ensures Valid() && State() == ChangeSymbol(old(State()), newSymbol)
    {
      StepKeepsInv(State(), SymbolChanged(newSymbol));
      Disconnect();
      symbol := newSymbol;
      data := [];
      Connect(newSymbol);
    }

    /** The `reconnect` the hook returns. */
    method Reconnect()
      requires Valid()
      modifies this
      ensures Valid() && State() == LiveFeed.Reconnect(old(State()))
    {
      StepKeepsInv(State(), UserReconnect);
      Connect(symbol);
    }

    /** `clearData`. */
    method ClearData()
      requires Valid()
      modifies this
      ensures Valid() && State() == LiveFeed.ClearData(old(State()))
    {
      data := [];
    }

    method HandleOpen(id: nat)
      requires Valid() && SocketState(State(), id) == Connecting
      modifies this
      ensures Valid() && State() == OnOpen(old(State()), id)
    {
      StepKeepsInv(State(), SocketOpen(id));
      sockets := sockets[id := sockets[id].(state := Open)];
      isConnected := true;
      error := None;
    }

    method HandleMessage(id: nat, frame: Frame)
      requires Valid() && SocketState(State(), id) == Open
      modifies this
      ensures Valid() && State() == OnMessage(old(State()), id, frame)
    {
      StepKeepsInv(State(), SocketMessage(id, frame));
      match frame
      case Malformed =>
      case Decoded(candle) =>
        lastCandle := Some(candle);
        var newPoint := LiveDataPoint(candle.closeTime, candle.open, candle.high, candle.low,
                                      candle.close, candle.volume, candle.tradeCount);
        data := RollingWindow.Push(data, newPoint);
    }

    method HandleError(id: nat)
      requires Valid() && SocketState(State(), id) != Closed
      modifies this
      ensures Valid() && State() == OnError(old(State()), id)
    {
      error := Some(ConnectionErrorMessage);
      isConnected := false;
    }

    method HandleClose(id: nat)
      requires Valid() && SocketState(State(), id) != Closed
      modifies this
      ensures Valid() && State() == OnClose(old(State()), id)
    {
      StepKeepsInv(State(), SocketClose(id));
      var socketSymbol := sockets[id].symbol;
      sockets := sockets[id := sockets[id].(state := Closed)];
      isConnected := false;
      if !shouldReconnectRef {
        return;
      }
      var t := timersIssued + 1;
      timers := timers[t := Timer(socketSymbol, ReconnectDelayMs)];
      timersIssued := t;
      reconnectTimeoutRef := Some(t);
    }

    /** Timer `t` runs its callback. */
    method FireTimer(t: nat)
      requires Valid() && t in timers
      modifies this
      ensures Valid() && State() == TimerFires(old(State()), t)
    {
      StepKeepsInv(State(), TimerFired(t));
      var target := timers[t].symbol;
      timers := timers - {t};
      Connect(target);
    }
  }

  /** A client: after a symbol change, the old socket's late close still
      schedules a reconnect, and the timer reopens the old symbol's stream. */
  method LateCloseClient() returns (reopened: string)
    ensures reopened == Api.LiveWebSocketUrl("BTCUSDT")
  {
    var hook := new LiveData("BTCUSDT");
    hook.HandleOpen(0);
    hook.SetSymbol("ETHUSDT");
    assert hook.sockets[0].state == Closing;
    hook.HandleClose(0);
    assert 1 in hook.timers;
    hook.FireTimer(1);
    reopened := hook.sockets[hook.wsRef.value].url;
  }
}
