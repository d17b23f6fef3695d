/**
 * One server-side connection: the per-connection player id, how each
 * client message is handled against the shared game state, and the
 * cleanup when the connection ends. Parsing a text frame is an input: the
 * handler receives `None` when the text does not parse as a client
 * message, and the id a new player would get is supplied by the caller.
 */
module ServerConnection {
  import opened Wire
  import opened ServerGame

  /** `Ok(())`, or the error a text frame that does not parse yields. */
  datatype Outcome = Ok | MalformedMessage

  /** The game state, the connection's player id and the outcome after one client message. */
  datatype Handled = Handled(world: World, playerId: Option<string>, outcome: Outcome)

  /** `handle_client_message`, on values. */
  function Handle(w: World, playerId: Option<string>, decoded: Option<ClientMessage>, freshId: string): (r: Handled)
    ensures decoded.None? ==> r == Handled(w, playerId, MalformedMessage)
    ensures decoded.Some? ==> r.outcome == Ok
    ensures playerId.Some? ==> r.playerId == playerId
    ensures r.playerId.Some? && playerId.None? ==> decoded.Some? && decoded.value.Join? && r.playerId == Some(freshId)
  {
    match decoded
    case None => Handled(w, playerId, MalformedMessage)
    case Some(Join(name)) =>
      if playerId.Some? then Handled(w, playerId, Ok)
      else Handled(Added(w, NewPlayer(freshId, name)), Some(freshId), Ok)
    case Some(PlayerMove(pos)) =>
      if playerId.Some? then Handled(Moved(w, playerId.value, pos), playerId, Ok)
      else Handled(w, playerId, Ok)
    case Some(ChatMessage(text)) =>
      if playerId.Some? then Handled(Chatted(w, playerId.value, text), playerId, Ok)
      else Handled(w, playerId, Ok)
  }

  /** A second `join` on a connection that has joined is ignored: Ok, nothing added. */
  lemma SecondJoinIgnored(w: World, id: string, name: string, freshId: string)
    ensures Handle(w, Some(id), Some(Join(name)), freshId) == Handled(w, Some(id), Ok)
  {
  }

  /** The first `join` adds exactly one player, a new one with the given name, and records its id. */
  lemma FirstJoinAddsOnePlayer(w: World, name: string, freshId: string)
    ensures var r := Handle(w, None, Some(Join(name)), freshId);
      && r.playerId == Some(freshId)
      && r.world.players == w.players[freshId := NewPlayer(freshId, name)]
      && r.world.players[freshId].name == name
      && r.outcome == Ok
  {
  }

  /** Moves and chat sent before joining change nothing. */
  lemma UnjoinedMessagesIgnored(w: World, m: ClientMessage, freshId: string)
    requires !m.Join?
    ensures Handle(w, None, Some(m), freshId) == Handled(w, None, Ok)
  {
  }

  /** A joined connection's move changes the position of its own player and of no other. */
  lemma MoveTouchesOwnPlayerOnly(w: World, id: string, pos: Position, freshId: string)
    ensures var r := Handle(w, Some(id), Some(PlayerMove(pos)), freshId);
      && r.world.players.Keys == w.players.Keys
      && (forall k :: k in w.players && k != id ==> r.world.players[k] == w.players[k])
      && (id in w.players ==> r.world.players[id] == w.players[id].(position := pos))
  {
    MovePlayer(w, id, pos);
  }

  /** The game state and player id after a run of client messages, with the ids new players would get. */
  function Session(w: World, playerId: Option<string>, messages: seq<Option<ClientMessage>>, freshIds: seq<string>): (World, Option<string>)
    requires |freshIds| == |messages|
    decreases |messages|
  {
    if messages == [] then (w, playerId)
    else
      var h := Handle(w, playerId, messages[0], freshIds[0]);
      Session(h.world, h.playerId, messages[1..], freshIds[1..])
  }

  /** One message only appends broadcasts, and a `PlayerJoined` among them exactly when it assigned the player id. */
  lemma HandleAppends(w: World, playerId: Option<string>, decoded: Option<ClientMessage>, freshId: string)
    ensures var r := Handle(w, playerId, decoded, freshId);
      && |r.world.outbox| >= |w.outbox|
      && r.world.outbox[..|w.outbox|] == w.outbox
      && CountJoins(r.world.outbox) == CountJoins(w.outbox) + (if playerId.None? && r.playerId.Some? then 1 else 0)
  {
    var r := Handle(w, playerId, decoded, freshId);
    var added := r.world.outbox[|w.outbox|..];
    assert r.world.outbox == w.outbox + added;
    CountJoinsAppend(w.outbox, added);
    if playerId.None? && r.playerId.Some? {
      var p := NewPlayer(freshId, decoded.value.playerName);
      assert added == JoinBroadcasts(w.players[freshId := p], p);
      assert CountJoins([PlayerJoined(p)]) == 1;
      if |added| == 2 {
        assert added == [PlayerJoined(p)] + [added[1]];
        CountJoinsAppend([PlayerJoined(p)], [added[1]]);
      }
    } else if |added| == 1 {
      assert !added[0].PlayerJoined?;
      assert CountJoins(added) == CountJoins([]) + 0;
    } else {
      assert added == [];
    }
  }

  /**
   * Over any run of messages on one connection, the player id, once
   * assigned, never changes, and at most one `PlayerJoined` is broadcast
   * (none if the connection had already joined); the broadcast history is
   * only appended to.
   */
  lemma {:induction false} SessionJoinsAtMostOnce(w: World, playerId: Option<string>, messages: seq<Option<ClientMessage>>, freshIds: seq<string>)
    requires |freshIds| == |messages|
    ensures var (w', id') := Session(w, playerId, messages, freshIds);
      && (playerId.Some? ==> id' == playerId)
      && |w'.outbox| >= |w.outbox| && w'.outbox[..|w.outbox|] == w.outbox
      && CountJoins(w'.outbox) <= CountJoins(w.outbox) + (if playerId.None? then 1 else 0)
      && (playerId.Some? ==> CountJoins(w'.outbox) == CountJoins(w.outbox))
      && (id'.Some? && playerId.None? ==> CountJoins(w'.outbox) == CountJoins(w.outbox) + 1)
    decreases |messages|
  {
    if messages != [] {
      var h := Handle(w, playerId, messages[0], freshIds[0]);
      HandleAppends(w, playerId, messages[0], freshIds[0]);
      SessionJoinsAtMostOnce(h.world, h.playerId, messages[1..], freshIds[1..]);
      var (w', id') := Session(h.world, h.playerId, messages[1..], freshIds[1..]);
      assert w'.outbox[..|w.outbox|] == w'.outbox[..|h.world.outbox|][..|w.outbox|];
    }
  }

  /** The cleanup when a connection ends: a joined player is removed, an unjoined connection removes nothing. */
  function Cleanup(w: World, playerId: Option<string>): (r: World)
    ensures playerId.None? ==> r == w
    ensures playerId.Some? ==> r.players.Keys == w.players.Keys - {playerId.value}
    ensures playerId.Some? && playerId.value in w.players ==> r.outbox == w.outbox + [PlayerLeft(playerId.value)]
  {
    if playerId.Some? then Removed(w, playerId.value) else w
  }

  /** `handle_client_message`: writes the connection's player id through `playerId` and updates `game`. */
  method HandleClientMessage(message: Option<ClientMessage>, game: GameState, playerId: Option<string>, freshId: string)
    returns (outcome: Outcome, newPlayerId: Option<string>)
    modifies game
    ensures Handled(game.View(), newPlayerId, outcome) == Handle(old(game.View()), playerId, message, freshId)
  {
    newPlayerId := playerId;
    outcome := Ok;
    if message.None? {
      return MalformedMessage, newPlayerId;
    }
    match message.value
    case Join(playerName) =>
      if playerId.Some? {
        return Ok, newPlayerId;
      }
      var player := NewPlayer(freshId, playerName);
      var id := player.id;
      game.AddPlayer(player);
      newPlayerId := Some(id);
    case PlayerMove(position) =>
      if playerId.Some? {
        game.UpdatePlayerPosition(playerId.value, position);
      }
    case ChatMessage(text) =>
      if playerId.Some? {
        game.SendChatMessage(playerId.value, text);
      }
  }

  /** The end of `handle_connection`: remove the connection's player if it joined. */
  method CloseConnection(game: GameState, playerId: Option<string>)
    modifies game
    ensures game.View() == Cleanup(old(game.View()), playerId)
  {
    if playerId.Some? {
      game.RemovePlayer(playerId.value);
    }
  }
}
