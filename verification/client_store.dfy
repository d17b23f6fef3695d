/**
 * The browser client's game store: connection flag, the local player,
 * the roster of remote players and the bounded chat log.
 * `GameStore` is the mutable store the rest of the client updates in place;
 * `State` is its value, on which the specification functions are stated.
 */
module ClientStore {
  import opened Wire

  /** Chat history is trimmed to this many most recent entries. */
  const MaxChatMessages: nat := 100

  datatype State = State(
    isConnected: bool,
    currentPlayer: Option<Player>,
    otherPlayers: map<string, Player>,
    chatMessages: seq<string>)

  const InitialState := State(false, None, map[], [])

  /** The last `n` entries of `s`, or all of `s` when it is not longer than `n`. */
  function KeepLast<T>(s: seq<T>, n: nat): (r: seq<T>)
    ensures |r| == if |s| <= n then |s| else n
    ensures forall i :: 0 <= i < |r| ==> r[i] == s[|s| - |r| + i]
  {
    if |s| <= n then s else s[|s| - n..]
  }

  /** The chat log after one `addChatMessage`. */
  function WithChat(chat: seq<string>, message: string): seq<string> {
    KeepLast(chat + [message], MaxChatMessages)
  }

  /**
   * A `Partial<Player>`: each field either absent (`None`) or given.
   * Spreading it over a player overrides exactly the given fields.
   */
  datatype PlayerPatch = PlayerPatch(
    id: Option<string>,
    name: Option<string>,
    position: Option<Position>,
    level: Option<nat>,
    health: Option<nat>,
    maxHealth: Option<nat>)

  const EmptyPatch := PlayerPatch(None, None, None, None, None, None)

  /** The patch `{ position }` that a move event applies. */
  function PositionPatch(pos: Position): PlayerPatch {
    EmptyPatch.(position := Some(pos))
  }

  function Override<T>(field: Option<T>, current: T): T {
    if field.Some? then field.value else current
  }

  /** `{ ...p, ...patch }`. */
  function Merge(p: Player, patch: PlayerPatch): Player {
    Player(
      Override(patch.id, p.id),
      Override(patch.name, p.name),
      Override(patch.position, p.position),
      Override(patch.level, p.level),
      Override(patch.health, p.health),
      Override(patch.maxHealth, p.maxHealth))
  }

  /** The id of the local player, if there is one. */
  function CurrentId(s: State): Option<string> {
    if s.currentPlayer.Some? then Some(s.currentPlayer.value.id) else None
  }

  /** The store after `updatePlayer(id, patch)`. */
  function PatchPlayer(s: State, id: string, patch: PlayerPatch): State {
    if CurrentId(s) == Some(id) then
      s.(currentPlayer := Some(Merge(s.currentPlayer.value, patch)))
    else if id in s.otherPlayers then
      s.(otherPlayers := s.otherPlayers[id := Merge(s.otherPlayers[id], patch)])
    else
      s
  }

  /** The initial store: not connected, no local player, nobody else, no chat. */
  lemma InitialStateIsEmpty()
    ensures !InitialState.isConnected && InitialState.currentPlayer.None?
    ensures |InitialState.otherPlayers| == 0 && |InitialState.chatMessages| == 0
  {
  }

  /** A patch overrides exactly the fields it gives; every absent field keeps its value. */
  lemma MergeOverridesGivenFields(p: Player, patch: PlayerPatch)
    ensures patch.id.None? ==> Merge(p, patch).id == p.id
    ensures patch.name.None? ==> Merge(p, patch).name == p.name
    ensures patch.position.None? ==> Merge(p, patch).position == p.position
    ensures patch.level.None? ==> Merge(p, patch).level == p.level
    ensures patch.health.None? ==> Merge(p, patch).health == p.health
    ensures patch.maxHealth.None? ==> Merge(p, patch).maxHealth == p.maxHealth
    ensures patch.id.Some? ==> Merge(p, patch).id == patch.id.value
    ensures patch.name.Some? ==> Merge(p, patch).name == patch.name.value
    ensures patch.position.Some? ==> Merge(p, patch).position == patch.position.value
    ensures patch.level.Some? ==> Merge(p, patch).level == patch.level.value
    ensures patch.health.Some? ==> Merge(p, patch).health == patch.health.value
    ensures patch.maxHealth.Some? ==> Merge(p, patch).maxHealth == patch.maxHealth.value
    ensures patch == EmptyPatch ==> Merge(p, patch) == p
    ensures Merge(Merge(p, patch), patch) == Merge(p, patch)
  {
  }

  /** A move patch changes the position and nothing else. */
  lemma PositionPatchOnlyMoves(p: Player, pos: Position)
    ensures Merge(p, PositionPatch(pos)) == p.(position := pos)
  {
  }

  /** When the id is the local player's, only the local player is patched, even if a remote entry has the same key. */
  lemma PatchPrefersCurrentPlayer(s: State, id: string, patch: PlayerPatch)
    requires s.currentPlayer.Some? && s.currentPlayer.value.id == id
    ensures PatchPlayer(s, id, patch).otherPlayers == s.otherPlayers
    ensures PatchPlayer(s, id, patch).currentPlayer == Some(Merge(s.currentPlayer.value, patch))
    ensures PatchPlayer(s, id, patch).chatMessages == s.chatMessages
  {
  }

  /** Otherwise a remote entry under the id is merged with the patch and every other key is untouched. */
  lemma PatchRemotePlayer(s: State, id: string, patch: PlayerPatch)
    requires CurrentId(s) != Some(id) && id in s.otherPlayers
    ensures PatchPlayer(s, id, patch).currentPlayer == s.currentPlayer
    ensures PatchPlayer(s, id, patch).otherPlayers.Keys == s.otherPlayers.Keys
    ensures PatchPlayer(s, id, patch).otherPlayers[id] == Merge(s.otherPlayers[id], patch)
    ensures forall k :: k in s.otherPlayers && k != id ==>
      PatchPlayer(s, id, patch).otherPlayers[k] == s.otherPlayers[k]
  {
  }

  /** An id that is neither the local player's nor a remote key leaves the store as it was. */
  lemma PatchUnknownIdIsNoOp(s: State, id: string, patch: PlayerPatch)
    requires CurrentId(s) != Some(id) && id !in s.otherPlayers
    ensures PatchPlayer(s, id, patch) == s
  {
  }

  /** After adding a message, it is the last entry and the log holds at most 100 entries. */
  lemma WithChatEndsWithMessage(chat: seq<string>, message: string)
    ensures |WithChat(chat, message)| <= MaxChatMessages
    ensures |WithChat(chat, message)| > 0 && WithChat(chat, message)[|WithChat(chat, message)| - 1] == message
  {
  }

  /** While the log is below the cap, adding a message drops nothing. */
  lemma WithChatBelowCapKeepsAll(chat: seq<string>, message: string)
    requires |chat| < MaxChatMessages
    ensures WithChat(chat, message) == chat + [message]
  {
  }

  /** At the cap, adding a message evicts exactly the oldest entry. */
  lemma WithChatAtCapEvictsOldest(chat: seq<string>, message: string)
    requires |chat| == MaxChatMessages
    ensures WithChat(chat, message) == chat[1..] + [message]
  {
    assert (chat + [message])[1..] == chat[1..] + [message];
  }

  /** The chat log after adding `messages` one after another. */
  function WithChats(chat: seq<string>, messages: seq<string>): seq<string>
    decreases |messages|
  {
    if messages == [] then chat
    else WithChats(WithChat(chat, messages[0]), messages[1..])
  }

  /**
   * Starting from a log within the cap, adding any number of messages yields
   * the last `min(100, total)` entries of the old log followed by the new
   * messages, in order: after more than 100 messages it is exactly the last
   * 100 of them.
   */
  lemma {:induction false} WithChatsKeepsLast100(chat: seq<string>, messages: seq<string>)
    requires |chat| <= MaxChatMessages
    ensures WithChats(chat, messages) == KeepLast(chat + messages, MaxChatMessages)
    decreases |messages|
  {
    if messages == [] {
      assert chat + messages == chat;
    } else {
      var next := WithChat(chat, messages[0]);
      WithChatsKeepsLast100(next, messages[1..]);
      assert chat + messages == (chat + [messages[0]]) + messages[1..];
      KeepLastOfConcat(chat + [messages[0]], messages[1..], MaxChatMessages);
    }
  }

  /** Trimming a prefix before appending more does not change the final trimmed result. */
  lemma KeepLastOfConcat<T>(s: seq<T>, t: seq<T>, n: nat)
    ensures KeepLast(KeepLast(s, n) + t, n) == KeepLast(s + t, n)
  {
    var a, b := KeepLast(KeepLast(s, n) + t, n), KeepLast(s + t, n);
    assert |a| == |b|;
    forall i | 0 <= i < |a| ensures a[i] == b[i] {
      var k := |KeepLast(s, n)| + |t| - |a| + i;
      if k < |KeepLast(s, n)| {
        assert a[i] == KeepLast(s, n)[k];
      } else {
        assert a[i] == t[k - |KeepLast(s, n)|];
      }
    }
  }

  /** The store object that the client updates in place. */
  class GameStore {
    var isConnected: bool
    var currentPlayer: Option<Player>
    var otherPlayers: map<string, Player>
    var chatMessages: seq<string>

    /** The store's current value. */
    function View(): State
      reads this
    {
      State(isConnected, currentPlayer, otherPlayers, chatMessages)
    }

    /** `initialGameState`. */
    constructor ()
      ensures View() == InitialState
    {
      isConnected := false;
      currentPlayer := None;
      otherPlayers := map[];
      chatMessages := [];
    }

    /** `updatePlayer`: the local player takes priority over a remote entry with the same id. */
    method UpdatePlayer(playerId: string, playerData: PlayerPatch)
      modifies this
      ensures View() == PatchPlayer(old(View()), playerId, playerData)
    {
      if currentPlayer.Some? && currentPlayer.value.id == playerId {
        currentPlayer := Some(Merge(currentPlayer.value, playerData));
      } else if playerId in otherPlayers {
        var existing := otherPlayers[playerId];
        otherPlayers := otherPlayers[playerId := Merge(existing, playerData)];
      }
    }

    /** `addChatMessage`: push, then keep only the last 100 entries. */
    method AddChatMessage(message: string)
      modifies this
      ensures View() == old(View()).(chatMessages := WithChat(old(chatMessages), message))
    {
      chatMessages := chatMessages + [message];
      if |chatMessages| > MaxChatMessages {
        chatMessages := chatMessages[|chatMessages| - MaxChatMessages..];
      }
    }
  }
}
