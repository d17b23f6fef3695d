/**
 * The browser client's network manager: one WebSocket at a time, the
 * reconnection counter and timer, the socket event handlers, the message
 * handler that updates the game store, and the public send operations.
 *
 * The browser is the environment: it moves a socket through its ready
 * states (`WebSocket.Advance`) and delivers the open, close, error and
 * message events and the firing of the reconnect timer, each modelled as a
 * method of `NetworkManager` called with whatever the browser reports.
 */
module NetworkClient {
  import opened Wire
  import opened ClientStore
  import opened Reconciler
  import Reconnect

  const DefaultServerUrl := "ws://localhost:8080"

  datatype ReadyState = Connecting | Open | Closing | Closed

  /** The ready-state changes a browser makes on its own. */
  predicate BrowserTransition(from: ReadyState, to: ReadyState) {
    match from
    case Connecting => to == Open || to == Closed
    case Open => to == Closing || to == Closed
    case Closing => to == Closed
    case Closed => false
  }

  /** A browser WebSocket: its endpoint, its ready state and the messages sent through it. */
  class WebSocket {
    const url: string
    var readyState: ReadyState
    var sent: seq<ClientMessage>

    /** `new WebSocket(url)` starts out connecting. */
    constructor (url: string)
      ensures this.url == url && readyState == Connecting && sent == []
    {
      this.url := url;
      readyState := Connecting;
      sent := [];
    }

    /** `send(JSON.stringify(m))`. */
    method Send(m: ClientMessage)
      requires readyState == Open
      modifies this
      ensures readyState == old(readyState) && sent == old(sent) + [m]
    {
      sent := sent + [m];
    }

    /** `close()`: an opening or open socket starts closing; otherwise nothing happens. */
    method Close()
      modifies this
      ensures sent == old(sent)
      ensures readyState == if old(readyState) in {Connecting, Open} then Closing else old(readyState)
    {
      if readyState in {Connecting, Open} {
        readyState := Closing;
      }
    }

    /** The browser moves the socket to its next ready state. */
    method Advance(to: ReadyState)
      requires BrowserTransition(readyState, to)
      modifies this
      ensures readyState == to && sent == old(sent)
    {
      readyState := to;
    }
  }

  /** The position a provisional local player starts at. */
  const SpawnPosition := Position(0.0, 1.0, 0.0)

  class NetworkManager {
    var socket: WebSocket?
    var reconnectAttempts: nat
    var reconnectTimer: Option<nat>
    /** The game store the handlers write to. */
    const store: GameStore

    /** The reconnection state as the controller sees it. */
    function Controller(): Reconnect.Controller
      reads this
    {
      Reconnect.Controller(reconnectAttempts, reconnectTimer)
    }

    ghost predicate Valid()
      reads this
    {
      Reconnect.Valid(Controller())
    }

    /** The current socket is open or still opening. */
    predicate Busy()
      reads this, socket
    {
      socket != null && socket.readyState in {Open, Connecting}
    }

    predicate IsOpen()
      reads this, socket
    {
      socket != null && socket.readyState == Open
    }

    constructor (store: GameStore)
      ensures Valid() && this.store == store
      ensures socket == null && Controller() == Reconnect.Initial
    {
      this.store := store;
      socket := null;
      reconnectAttempts := 0;
      reconnectTimer := None;
    }

    /** `connect(serverUrl)`: a no-op while a socket is open or opening; otherwise a new socket to `serverUrl`. */
    method Connect(serverUrl: string)
      requires Valid()
      modifies this
      ensures Valid() && Controller() == old(Controller())
      ensures old(Busy()) ==> socket == old(socket)
      ensures !old(Busy()) ==>
        socket != null && fresh(socket) && socket.url == serverUrl && socket.readyState == Connecting && socket.sent == []
    {
      if socket != null && socket.readyState == Open {
        return;
      }
      if socket != null && socket.readyState == Connecting {
        return;
      }
      socket := new WebSocket(serverUrl);
    }

    /** `onopen`: mark the store connected, reset the attempt counter, cancel any pending timer. */
    method OnOpen()
      requires Valid()
      modifies this, store
      ensures Valid() && socket == old(socket)
      ensures Controller() == Reconnect.Step(old(Controller()), Reconnect.Opened)
      ensures store.View() == old(store.View()).(isConnected := true)
    {
      store.isConnected := true;
      reconnectAttempts := 0;
      if reconnectTimer.Some? {
        reconnectTimer := None;
      }
    }

    /** `onclose`: mark the store disconnected; reconnect unless the close code is 1000. */
    method OnClose(code: int)
      requires Valid()
      modifies this, store
      ensures Valid() && socket == old(socket)
      ensures Controller() == Reconnect.Step(old(Controller()), Reconnect.Closed(code))
      ensures store.View() == old(store.View()).(isConnected := false)
    {
      store.isConnected := false;
      if code != Reconnect.NormalClosure {
        HandleReconnect();
      }
    }

    /** `onerror`: try to reconnect; the store is left as it is. */
    method OnError()
      requires Valid()
      modifies this
      ensures Valid() && socket == old(socket)
      ensures Controller() == Reconnect.Step(old(Controller()), Reconnect.Errored)
    {
      HandleReconnect();
    }

    /** `handleReconnect`: below the cap and with no timer pending, count an attempt and schedule one timer. */
    method HandleReconnect()
      requires Valid()
      modifies this
      ensures Valid() && socket == old(socket)
      ensures Controller() == Reconnect.Retry(old(Controller()))
    {
      if reconnectAttempts < Reconnect.MaxReconnectAttempts && reconnectTimer.None? {
        reconnectAttempts := reconnectAttempts + 1;
        reconnectTimer := Some(Reconnect.BaseDelayMs * reconnectAttempts);
      }
    }

    /** The pending reconnect timer fires: forget it and connect to the default endpoint. */
    method OnReconnectTimer()
      requires Valid() && reconnectTimer.Some?
      modifies this
      ensures Valid()
      ensures Controller() == Reconnect.Step(old(Controller()), Reconnect.TimerFired)
      ensures old(Busy()) ==> socket == old(socket)
      ensures !old(Busy()) ==>
        socket != null && fresh(socket) && socket.url == DefaultServerUrl && socket.readyState == Connecting && socket.sent == []
    {
      reconnectTimer := None;
      Connect(DefaultServerUrl);
    }

    /**
     * `onmessage`: `parsed` is the outcome of parsing the payload (`None`
     * when parsing throws); a failed parse is logged and changes nothing.
     */
    method OnMessage(parsed: Option<ServerMessage>)
      modifies store
      ensures parsed.None? ==> store.View() == old(store.View())
      ensures parsed.Some? ==> Reconciled(old(store.View()), parsed.value, store.View())
    {
      if parsed.Some? {
        HandleServerMessage(parsed.value);
      }
    }

    /** `handleServerMessage`: apply one server event to the store. */
    method HandleServerMessage(message: ServerMessage)
      modifies store
      ensures Reconciled(old(store.View()), message, store.View())
    {
      match message
      case PlayerJoined(player) =>
        store.otherPlayers := store.otherPlayers[player.id := player];
        store.AddChatMessage(JoinNotice(player.name));
      case PlayerLeft(playerId) =>
        if playerId in store.otherPlayers {
          var player := store.otherPlayers[playerId];
          store.otherPlayers := store.otherPlayers - {playerId};
          store.AddChatMessage(LeaveNotice(player.name));
        }
      case PlayerMoved(playerId, position) =>
        store.UpdatePlayer(playerId, PositionPatch(position));
      case Chat(playerName, text) =>
        store.AddChatMessage(ChatLine(playerName, text));
      case GameState(players) =>
        ApplySnapshot(players);
    }

    /** The `game_state` case: clear the roster, then copy every snapshot player but the local one under its own id. */
    method ApplySnapshot(players: map<string, Player>)
      modifies store
      ensures store.View() == old(store.View()).(otherPlayers := store.otherPlayers)
      ensures SnapshotRoster(players, CurrentId(old(store.View())), store.otherPlayers)
    {
      var current := if store.currentPlayer.Some? then Some(store.currentPlayer.value.id) else None;
      store.otherPlayers := map[];
      var pending := players.Keys;
      while pending != {}
        invariant pending <= players.Keys
        invariant current == CurrentId(old(store.View()))
        invariant store.View() == old(store.View()).(otherPlayers := store.otherPlayers)
        invariant RosterFrom(players, players.Keys - pending, current, store.otherPlayers)
        decreases pending
      {
        var k :| k in pending;
        var serverPlayer := players[k];
        if current.None? || serverPlayer.id != current.value {
          store.otherPlayers := store.otherPlayers[serverPlayer.id := serverPlayer];
        }
        pending := pending - {k};
      }
    }

    /** `sendPlayerMove`: sent only while the socket is open. */
    method SendPlayerMove(position: Position)
      modifies socket
      ensures socket == old(socket)
      ensures old(IsOpen()) ==> socket.sent == old(socket.sent) + [PlayerMove(position)] && socket.readyState == Open
      ensures !old(IsOpen()) && socket != null ==> unchanged(socket)
    {
      if socket != null && socket.readyState == Open {
        socket.Send(PlayerMove(position));
      }
    }

    /** `sendChatMessage`: sent only while the socket is open. */
    method SendChatMessage(message: string)
      modifies socket
      ensures socket == old(socket)
      ensures old(IsOpen()) ==> socket.sent == old(socket.sent) + [ChatMessage(message)] && socket.readyState == Open
      ensures !old(IsOpen()) && socket != null ==> unchanged(socket)
    {
      if socket != null && socket.readyState == Open {
        socket.Send(ChatMessage(message));
      }
    }

    /**
     * `joinGame`: while open, send `join` and set a provisional local player
     * (empty id, level 1, full health of 100, at (0,1,0)); otherwise nothing.
     */
    method JoinGame(playerName: string)
      modifies socket, store
      ensures socket == old(socket)
      ensures old(IsOpen()) ==> socket.sent == old(socket.sent) + [Join(playerName)] && socket.readyState == Open
      ensures old(IsOpen()) ==>
        store.View() == old(store.View()).(currentPlayer := Some(Player("", playerName, SpawnPosition, 1, 100, 100)))
      ensures !old(IsOpen()) ==> store.View() == old(store.View())
      ensures !old(IsOpen()) && socket != null ==> unchanged(socket)
    {
      if socket != null && socket.readyState == Open {
        socket.Send(Join(playerName));
        store.currentPlayer := Some(Player("", playerName, SpawnPosition, 1, 100, 100));
      }
    }

    /**
     * `disconnect`: cancel the pending timer, ask the socket to close (no
     * close code is chosen) and drop it. The attempt counter is kept.
     */
    method Disconnect()
      requires Valid()
      modifies this, socket
      ensures Valid() && socket == null
      ensures Controller() == Reconnect.Step(old(Controller()), Reconnect.ManualDisconnect)
      ensures old(socket) != null ==> old(socket).sent == old(socket.sent)
      ensures old(socket) != null ==>
        old(socket).readyState == (if old(socket.readyState) in {Connecting, Open} then Closing else old(socket.readyState))
    {
      if reconnectTimer.Some? {
        reconnectTimer := None;
      }
      if socket != null {
        socket.Close();
        socket := null;
      }
    }
  }
}
