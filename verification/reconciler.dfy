/**
 * How the client mirrors server events into its store: the state each of
 * the five server messages leads to. The network manager's message
 * handler is proved to produce exactly these states.
 */
module Reconciler {
  import opened Wire
  import opened ClientStore

  function JoinNotice(name: string): string { name + " joined the game" }
  function LeaveNotice(name: string): string { name + " left the game" }
  function ChatLine(name: string, text: string): string { name + ": " + text }

  /** `player_joined`: insert or overwrite the remote entry, then log a join notice. */
  function AfterPlayerJoined(s: State, p: Player): State {
    s.(otherPlayers := s.otherPlayers[p.id := p],
       chatMessages := WithChat(s.chatMessages, JoinNotice(p.name)))
  }

  /** `player_left`: an unknown id changes nothing; a known one is removed and its name logged. */
  function AfterPlayerLeft(s: State, id: string): State {
    if id in s.otherPlayers then
      s.(otherPlayers := s.otherPlayers - {id},
         chatMessages := WithChat(s.chatMessages, LeaveNotice(s.otherPlayers[id].name)))
    else
      s
  }

  /** `chat_message`: log `name: text`. */
  function AfterChat(s: State, name: string, text: string): State {
    s.(chatMessages := WithChat(s.chatMessages, ChatLine(name, text)))
  }

  /** A snapshot entry is copied unless its id is the local player's. */
  predicate Kept(current: Option<string>, p: Player) {
    current.None? || p.id != current.value
  }

  /**
   * `roster` is what the snapshot loop builds after visiting the keys
   * `done`: every kept visited player is present under its own id, and
   * every entry is a kept visited player stored under its own id. (The
   * loop inserts under each value's `id`, not under the snapshot's key, and
   * visits keys in an order the model leaves open.)
   */
  ghost predicate RosterFrom(players: map<string, Player>, done: set<string>, current: Option<string>, roster: map<string, Player>) {
    && (forall k :: k in done && k in players && Kept(current, players[k]) ==> players[k].id in roster)
    && (forall id :: id in roster ==>
          exists k :: k in done && k in players && Kept(current, players[k]) && players[k].id == id && roster[id] == players[k])
  }

  /** The remote roster after the whole snapshot has been copied. */
  ghost predicate SnapshotRoster(players: map<string, Player>, current: Option<string>, roster: map<string, Player>) {
    RosterFrom(players, players.Keys, current, roster)
  }

  /** The store `t` is what handling `msg` in store `s` leads to. */
  ghost predicate Reconciled(s: State, msg: ServerMessage, t: State) {
    match msg
    case PlayerJoined(p) => t == AfterPlayerJoined(s, p)
    case PlayerLeft(id) => t == AfterPlayerLeft(s, id)
    case PlayerMoved(id, pos) => t == PatchPlayer(s, id, PositionPatch(pos))
    case Chat(name, text) => t == AfterChat(s, name, text)
    case GameState(players) =>
      t == s.(otherPlayers := t.otherPlayers) && SnapshotRoster(players, CurrentId(s), t.otherPlayers)
  }

  /** Delivering the same `player_joined` twice leaves the roster as delivering it once; each delivery logs a notice. */
  lemma PlayerJoinedIdempotent(s: State, p: Player)
    ensures AfterPlayerJoined(AfterPlayerJoined(s, p), p).otherPlayers == AfterPlayerJoined(s, p).otherPlayers
    ensures p.id in AfterPlayerJoined(s, p).otherPlayers && AfterPlayerJoined(s, p).otherPlayers[p.id] == p
    ensures var chat := AfterPlayerJoined(s, p).chatMessages; chat[|chat| - 1] == JoinNotice(p.name)
  {
    WithChatEndsWithMessage(s.chatMessages, JoinNotice(p.name));
  }

  /** `player_left` for an id that is not in the roster changes nothing and logs nothing. */
  lemma PlayerLeftUnknownIsNoOp(s: State, id: string)
    requires id !in s.otherPlayers
    ensures AfterPlayerLeft(s, id) == s
  {
  }

  /** `player_left` for a known id removes only that key and logs the removed player's name. */
  lemma PlayerLeftRemovesOnlyThatKey(s: State, id: string)
    requires id in s.otherPlayers
    ensures AfterPlayerLeft(s, id).otherPlayers.Keys == s.otherPlayers.Keys - {id}
    ensures forall k :: k in AfterPlayerLeft(s, id).otherPlayers ==> AfterPlayerLeft(s, id).otherPlayers[k] == s.otherPlayers[k]
    ensures var chat := AfterPlayerLeft(s, id).chatMessages; chat[|chat| - 1] == LeaveNotice(s.otherPlayers[id].name)
    ensures AfterPlayerLeft(s, id).currentPlayer == s.currentPlayer
  {
    WithChatEndsWithMessage(s.chatMessages, LeaveNotice(s.otherPlayers[id].name));
  }

  /** `chat_message` logs `name: text` as the newest entry and touches nothing but the chat log. */
  lemma ChatMessageLogged(s: State, name: string, text: string)
    ensures AfterChat(s, name, text) == s.(chatMessages := AfterChat(s, name, text).chatMessages)
    ensures var chat := AfterChat(s, name, text).chatMessages;
      |chat| <= MaxChatMessages && chat[|chat| - 1] == name + ": " + text
  {
    WithChatEndsWithMessage(s.chatMessages, ChatLine(name, text));
  }

  /** After a snapshot, the roster never holds the local player's id. */
  lemma SnapshotExcludesSelf(players: map<string, Player>, current: string, roster: map<string, Player>)
    requires SnapshotRoster(players, Some(current), roster)
    ensures current !in roster
  {
  }

  /**
   * When every snapshot key is its player's id (as the server builds it),
   * the roster after the snapshot is exactly the snapshot without the local
   * player's entry.
   */
  lemma WellKeyedSnapshot(players: map<string, Player>, current: Option<string>, roster: map<string, Player>)
    requires forall k :: k in players ==> players[k].id == k
    requires SnapshotRoster(players, current, roster)
    ensures roster == map k | k in players && Kept(current, players[k]) :: players[k]
  {
    var expected := map k | k in players && Kept(current, players[k]) :: players[k];
    forall id | id in roster ensures id in expected && roster[id] == expected[id] {
      var k :| k in players && Kept(current, players[k]) && players[k].id == id && roster[id] == players[k];
    }
    forall id | id in expected ensures id in roster {
      assert players[id].id == id;
    }
  }

  /** The remote-player roster never holds the local player's id. */
  ghost predicate SelfExcluded(s: State) {
    CurrentId(s).Some? ==> CurrentId(s).value !in s.otherPlayers
  }

  /**
   * Every event except a `player_joined` that carries the local player's own
   * id keeps the local player out of the remote roster, and a snapshot
   * restores that from any state.
   */
  lemma ReconcileKeepsSelfExclusion(s: State, msg: ServerMessage, t: State)
    requires Reconciled(s, msg, t)
    requires SelfExcluded(s) || msg.GameState?
    requires !(msg.PlayerJoined? && CurrentId(s) == Some(msg.player.id))
    ensures SelfExcluded(t)
  {
    match msg
    case GameState(players) =>
      if CurrentId(s).Some? {
        SnapshotExcludesSelf(players, CurrentId(s).value, t.otherPlayers);
      }
    case PlayerMoved(id, pos) =>
      if CurrentId(s) != Some(id) && id in s.otherPlayers {
        PatchRemotePlayer(s, id, PositionPatch(pos));
      }
    case _ =>
  }

  /** A `player_joined` carrying the local player's id puts that id into the remote roster. */
  lemma PlayerJoinedOfSelfBreaksSelfExclusion(s: State, p: Player)
    requires CurrentId(s) == Some(p.id)
    ensures !SelfExcluded(AfterPlayerJoined(s, p))
  {
  }

  /**
   * A snapshot `{A at (0,0,0), B at (1,0,0)}` received while the local
   * player's id is "A" leaves only B in the roster.
   */
  lemma SnapshotScenario(s: State, t: State)
    requires s.currentPlayer.Some? && s.currentPlayer.value.id == "A"
    requires Reconciled(s, GameState(map["A" := NewPlayer("A", "a"), "B" := NewPlayer("B", "b").(position := Position(1.0, 0.0, 0.0))]), t)
    ensures t.otherPlayers == map["B" := NewPlayer("B", "b").(position := Position(1.0, 0.0, 0.0))]
    ensures t.currentPlayer == s.currentPlayer && t.chatMessages == s.chatMessages
  {
    var b := NewPlayer("B", "b").(position := Position(1.0, 0.0, 0.0));
    var players := map["A" := NewPlayer("A", "a"), "B" := b];
    WellKeyedSnapshot(players, Some("A"), t.otherPlayers);
    assert "A" != "B";
    assert (map k | k in players && Kept(Some("A"), players[k]) :: players[k]) == map["B" := b];
  }
}
