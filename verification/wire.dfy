/**
 * The wire vocabulary shared by the game server and the browser client:
 * positions, players, the three client intents and the five server events.
 * The server's `types.rs` and the client's `socket.ts` declare the same
 * shapes (field for field), so one set of datatypes serves both sides.
 */
module Wire {

  datatype Option<+T> = None | Some(value: T)

  /** A 3D position. Coordinates are only copied and compared, never computed with. */
  datatype Position = Position(x: real, y: real, z: real)

  const Origin := Position(0.0, 0.0, 0.0)

  /**
   * A player as the server stores it and as it travels on the wire.
   * The client's store calls the last field `maxHealth`; the wire and the
   * server call it `max_health`. The model uses one field for both.
   */
  datatype Player = Player(
    id: string,
    name: string,
    position: Position,
    level: nat,
    health: nat,
    maxHealth: nat)

  const StartLevel: nat := 1
  const StartHealth: nat := 100

  /** `Player::new`: the server-side constructor, with the generated UUID supplied as `id`. */
  function NewPlayer(id: string, name: string): (p: Player)
    ensures p.id == id && p.name == name
    ensures p.position == Origin
    ensures p.level == 1 && p.health == p.maxHealth == 100
  {
    Player(id, name, Origin, StartLevel, StartHealth, StartHealth)
  }

  /** Messages a client sends to the server. */
  datatype ClientMessage =
    | Join(playerName: string)
    | PlayerMove(position: Position)
    | ChatMessage(message: string)

  /** Messages the server broadcasts to every client. */
  datatype ServerMessage =
    | PlayerJoined(player: Player)
    | PlayerLeft(playerId: string)
    | PlayerMoved(playerId: string, position: Position)
    | Chat(playerName: string, message: string)
    | GameState(players: map<string, Player>)

  /** The variant of a client message, without its payload. */
  datatype ClientKind = JoinKind | PlayerMoveKind | ChatMessageKind

  /** The variant of a server message, without its payload. */
  datatype ServerKind = PlayerJoinedKind | PlayerLeftKind | PlayerMovedKind | ChatKind | GameStateKind

  function ClientKindOf(m: ClientMessage): ClientKind {
    match m
    case Join(_) => JoinKind
    case PlayerMove(_) => PlayerMoveKind
    case ChatMessage(_) => ChatMessageKind
  }

  function ServerKindOf(m: ServerMessage): ServerKind {
    match m
    case PlayerJoined(_) => PlayerJoinedKind
    case PlayerLeft(_) => PlayerLeftKind
    case PlayerMoved(_, _) => PlayerMovedKind
    case Chat(_, _) => ChatKind
    case GameState(_) => GameStateKind
  }

  /** The `type` tag each client variant carries on the wire. */
  function ClientTag(k: ClientKind): string {
    match k
    case JoinKind => "join"
    case PlayerMoveKind => "player_move"
    case ChatMessageKind => "chat_message"
  }

  /** The `type` tag each server variant carries on the wire. */
  function ServerTag(k: ServerKind): string {
    match k
    case PlayerJoinedKind => "player_joined"
    case PlayerLeftKind => "player_left"
    case PlayerMovedKind => "player_moved"
    case ChatKind => "chat_message"
    case GameStateKind => "game_state"
  }

  /** Reads a client variant back from its tag; `None` for a tag no variant carries. */
  function ClientKindOfTag(tag: string): (r: Option<ClientKind>)
    ensures r.Some? ==> ClientTag(r.value) == tag
  {
    if tag == "join" then Some(JoinKind)
    else if tag == "player_move" then Some(PlayerMoveKind)
    else if tag == "chat_message" then Some(ChatMessageKind)
    else None
  }

  /** Reads a server variant back from its tag; `None` for a tag no variant carries. */
  function ServerKindOfTag(tag: string): (r: Option<ServerKind>)
    ensures r.Some? ==> ServerTag(r.value) == tag
  {
    if tag == "player_joined" then Some(PlayerJoinedKind)
    else if tag == "player_left" then Some(PlayerLeftKind)
    else if tag == "player_moved" then Some(PlayerMovedKind)
    else if tag == "chat_message" then Some(ChatKind)
    else if tag == "game_state" then Some(GameStateKind)
    else None
  }

  /** Every client tag reads back as the variant that carries it, so the three tags are distinct. */
  lemma ClientTagRoundTrip(k: ClientKind)
    ensures ClientKindOfTag(ClientTag(k)) == Some(k)
  {
    match k
    case JoinKind =>
    case PlayerMoveKind =>
      assert ClientTag(k) != "join" by { assert ClientTag(k)[1] != "join"[1]; }
    case ChatMessageKind =>
      assert ClientTag(k) != "join" by { assert |ClientTag(k)| != |"join"|; }
      assert ClientTag(k) != "player_move" by { assert ClientTag(k)[0] != "player_move"[0]; }
  }

  /** Every server tag reads back as the variant that carries it, so the five tags are distinct. */
  lemma ServerTagRoundTrip(k: ServerKind)
    ensures ServerKindOfTag(ServerTag(k)) == Some(k)
  {
    match k
    case PlayerJoinedKind =>
    case PlayerLeftKind =>
      assert ServerTag(k) != "player_joined" by { assert |ServerTag(k)| != |"player_joined"|; }
    case PlayerMovedKind =>
      assert ServerTag(k) != "player_joined" by { assert ServerTag(k)[7] != "player_joined"[7]; }
      assert ServerTag(k) != "player_left" by { assert |ServerTag(k)| != |"player_left"|; }
    case ChatKind =>
      assert ServerTag(k) != "player_joined" by { assert ServerTag(k)[0] != "player_joined"[0]; }
      assert ServerTag(k) != "player_left" by { assert ServerTag(k)[0] != "player_left"[0]; }
      assert ServerTag(k) != "player_moved" by { assert ServerTag(k)[0] != "player_moved"[0]; }
    case GameStateKind =>
      assert ServerTag(k) != "player_joined" by { assert ServerTag(k)[0] != "player_joined"[0]; }
      assert ServerTag(k) != "player_left" by { assert ServerTag(k)[0] != "player_left"[0]; }
      assert ServerTag(k) != "player_moved" by { assert ServerTag(k)[0] != "player_moved"[0]; }
      assert ServerTag(k) != "chat_message" by { assert ServerTag(k)[0] != "chat_message"[0]; }
  }

  /** Two server messages carry the same tag exactly when they are the same variant. */
  lemma ServerTagsDistinct(a: ServerMessage, b: ServerMessage)
    ensures ServerTag(ServerKindOf(a)) == ServerTag(ServerKindOf(b)) <==> ServerKindOf(a) == ServerKindOf(b)
  {
    ServerTagRoundTrip(ServerKindOf(a));
    ServerTagRoundTrip(ServerKindOf(b));
  }

  /** Two client messages carry the same tag exactly when they are the same variant. */
  lemma ClientTagsDistinct(a: ClientMessage, b: ClientMessage)
    ensures ClientTag(ClientKindOf(a)) == ClientTag(ClientKindOf(b)) <==> ClientKindOf(a) == ClientKindOf(b)
  {
    ClientTagRoundTrip(ClientKindOf(a));
    ClientTagRoundTrip(ClientKindOf(b));
  }
}
