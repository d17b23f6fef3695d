# Multiplayer synchronisation of the online RPG, modelled in Dafny

This project models the two halves of the game's multiplayer synchronisation.

**The browser client.** The `NetworkManager` (`client/src/lib/network/socket.ts`) owns one WebSocket at a time. It reconnects with a linear backoff of `2000 * attempt` ms, up to 5 attempts, and keeps at most one reconnect timer pending. It mirrors the five server events into the game store (`client/src/lib/stores/gameStore.ts`). The store holds:

- the connection flag;
- the provisional local player;
- the map of remote players;
- a chat log trimmed to its last 100 entries.

**The game server.** `GameState` (`server/src/game_state.rs`) owns the authoritative `id → player` roster. It broadcasts a message on every join, leave, move and chat. Each connection (`server/src/connection.rs`) holds an optional player id. Only the first `join` assigns it. Moves and chat sent before joining are ignored. The connection's player is removed when the connection ends.

Modules, one per source component:

| file | module | models |
|---|---|---|
| `wire.dfy` | `Wire` | the shared message vocabulary (`types.rs`, and the mirror types in `socket.ts`), `Player::new`, wire tags |
| `client_store.dfy` | `ClientStore` | the store value `State`, its update functions, and the mutable `GameStore` class |
| `reconnect.dfy` | `Reconnect` | the reconnection counter and timer as a state machine over socket events |
| `reconciler.dfy` | `Reconciler` | the store each server event leads to |
| `network_client.dfy` | `NetworkClient` | `WebSocket` (the browser object) and the `NetworkManager` class with its handlers |
| `server_game.dfy` | `ServerGame` | the roster plus broadcast outbox as a value `World`, and the mutable `GameState` class |
| `server_connection.dfy` | `ServerConnection` | `handle_client_message`, runs of messages on one connection, and the final cleanup |
| `join_sync.dfy` | `JoinSync` | what a client already in the game makes of the two broadcasts of a join |

Every class method is proved to change its object exactly as a pure function of the old state says. For `game_state`, which has no fixed order, a relation is used instead. The properties the source promises are proved as lemmas about those functions:

- The reconnection invariant holds in every reachable state: at most 5 attempts, and a pending timer always carries `2000 * attempts`.
- An error followed by a close costs only one attempt.
- Repeated failures schedule exactly 2000, 4000, 6000, 8000 and 10000 ms, then stop.
- Once the cap is reached, only a successful open restarts reconnection.
- Chat logs keep the last 100 entries, in order.
- `player_joined` is idempotent on the roster.
- A snapshot excludes the local player's id.
- A connection assigns its player id at most once and broadcasts at most one `PlayerJoined`.

Behaviour of the code worth knowing:

- The backoff is linear: the n-th attempt waits `2000 * n` ms.
- `disconnect()` cancels the pending timer and calls `close()` without a close code. It does not reset the attempt counter, and it does not by itself suppress reconnection. The close event that follows triggers a new attempt unless its code is 1000. The model leaves that code open; `Reconnect.DisconnectThenClose` proves both outcomes.
- A later manual `connect()` does not reset the attempt counter either. Only a successful open does.
- `onerror` does not mark the store disconnected; only `onclose` does.
- The invariant "the remote roster never holds the local player's id" is restored by every `game_state` snapshot. The other events keep it, except a `player_joined` carrying the local id, which breaks it (`Reconciler.PlayerJoinedOfSelfBreaksSelfExclusion`). The local player's id stays `""` after `joinGame`. So in practice the exclusion never matches the server-assigned id.
- The `game_state` loop stores each player under the player's own `id`, not under the snapshot's key. The model states the result for any snapshot. It is exactly "the snapshot minus the local id" when every key equals its player's id, which is how the server builds snapshots.
- When a player joins a game that already has players, `add_player` broadcasts `PlayerJoined` for the newcomer and then a `game_state` snapshot of everyone else, to every connection. A client already in the game lists the newcomer after the first message. The snapshot then replaces its roster and drops the newcomer again, so the newcomer's later moves leave that client's store unchanged (`JoinSync.JoinBroadcastsDropJoiner`).

## Model

| member | source | states |
|---|---|---|
| `Wire.NewPlayer` | server/src/types.rs:22-33 | a new player keeps the given name and id, starts at (0,0,0) with level 1 and health = max health = 100 |
| `Wire.ClientKindOfTag` | server/src/types.rs:35-44 | a client tag read back names a variant that carries that tag |
| `Wire.ServerKindOfTag` | server/src/types.rs:46-59 | a server tag read back names a variant that carries that tag |
| `Wire.ClientTagRoundTrip` | server/src/types.rs:35-44 | each of the three client variants is recovered from its tag `join`, `player_move`, `chat_message` |
| `Wire.ServerTagRoundTrip` | server/src/types.rs:46-59 | each of the five server variants is recovered from its tag |
| `Wire.ClientTagsDistinct` | server/src/types.rs:35-44 | two client messages share a tag iff they are the same variant |
| `Wire.ServerTagsDistinct` | server/src/types.rs:46-59 | two server messages share a tag iff they are the same variant |
| `ClientStore.InitialStateIsEmpty` | client/src/lib/stores/gameStore.ts:20-25 | the initial store is disconnected, has no local player, no remote players and no chat |
| `ClientStore.GameStore.constructor` | client/src/lib/stores/gameStore.ts:20-27 | a new store holds the initial state |
| `ClientStore.KeepLast` | client/src/lib/stores/gameStore.ts:46-48 | the result has length min(n, \|s\|) and is the tail of `s` of that length, in order |
| `ClientStore.MergeOverridesGivenFields` | client/src/lib/stores/gameStore.ts:32-36 | spreading a partial player overrides exactly the given fields, the empty patch is the identity, and re-applying a patch changes nothing |
| `ClientStore.PositionPatchOnlyMoves` | client/src/lib/network/socket.ts:125-128 | the `{ position }` patch of a move changes the position and nothing else |
| `ClientStore.PatchPrefersCurrentPlayer` | client/src/lib/stores/gameStore.ts:31-32 | when the local player has the id, only it is patched; remote players and chat are untouched |
| `ClientStore.PatchRemotePlayer` | client/src/lib/stores/gameStore.ts:34-37 | otherwise a remote entry with the id is merged with the patch, every other key and the local player are unchanged |
| `ClientStore.PatchUnknownIdIsNoOp` | client/src/lib/stores/gameStore.ts:29-41 | an id matching neither the local player nor a remote key leaves the store unchanged |
| `ClientStore.GameStore.UpdatePlayer` | client/src/lib/stores/gameStore.ts:29-41 | the store after the call is the store patched with local-player priority |
| `ClientStore.WithChatEndsWithMessage` | client/src/lib/stores/gameStore.ts:43-48 | after adding a message it is the last entry and the log holds at most 100 entries |
| `ClientStore.WithChatBelowCapKeepsAll` | client/src/lib/stores/gameStore.ts:45-46 | below the cap no earlier entry is dropped |
| `ClientStore.WithChatAtCapEvictsOldest` | client/src/lib/stores/gameStore.ts:46-48 | at the cap exactly the oldest entry is evicted |
| `ClientStore.WithChatsKeepsLast100` | client/src/lib/stores/gameStore.ts:43-51 | after any number of additions from a log within the cap, the log is the last min(100, total) entries of old log plus new messages, in order |
| `ClientStore.GameStore.AddChatMessage` | client/src/lib/stores/gameStore.ts:43-51 | the chat log becomes the last 100 entries of the old log plus the message; nothing else changes |
| `Reconnect.Retry` | client/src/lib/network/socket.ts:87-96 | below the cap with no timer pending: exactly one more attempt and one timer of `2000 * attempts`; otherwise no change; the invariant is kept |
| `Reconnect.Step` | client/src/lib/network/socket.ts:52-96 | every event keeps the invariant, adds at most one attempt, never replaces a pending timer; close code 1000 changes nothing; open resets to no attempts and no timer |
| `Reconnect.RunPreservesValid` | client/src/lib/network/socket.ts:87-96 | in every state reachable by events, attempts <= 5 and a pending timer has delay `2000 * attempts` |
| `Reconnect.ErrorThenCloseRetriesOnce` | client/src/lib/network/socket.ts:62-75 | an error followed by a close counts one attempt and schedules at most one timer |
| `Reconnect.DisconnectThenClose` | client/src/lib/network/socket.ts:195-204 | after `disconnect()`, a close with code 1000 leaves nothing scheduled, and any other code schedules the next attempt while below the cap |
| `Reconnect.FailuresBackOff` | client/src/lib/network/socket.ts:87-96 | n failed reconnections from a attempts schedule the delays 2000·(a+1), 2000·(a+2), … up to the cap and end with min(a+n, 5) attempts |
| `Reconnect.ReconnectBound` | client/src/lib/network/socket.ts:87-96 | repeated abnormal closures from a fresh client schedule exactly 2000, 4000, 6000, 8000, 10000 ms and then stop |
| `Reconnect.GivenUpIsTerminal` | client/src/lib/network/socket.ts:88 | at 5 attempts with nothing pending, no event short of an open schedules anything again |
| `Reconciler.PlayerJoinedIdempotent` | client/src/lib/network/socket.ts:100-112 | `player_joined` stores the player under its id, applying it twice gives the same roster, and it always logs "name joined the game" |
| `Reconciler.PlayerLeftUnknownIsNoOp` | client/src/lib/network/socket.ts:114-122 | `player_left` for an absent id changes nothing and logs nothing |
| `Reconciler.PlayerLeftRemovesOnlyThatKey` | client/src/lib/network/socket.ts:114-122 | for a present id only that key is removed and "name left the game" with the removed player's name is logged |
| `Reconciler.ChatMessageLogged` | client/src/lib/network/socket.ts:130-132 | `chat_message` logs "name: text" as the newest entry, keeps the cap and changes nothing else |
| `Reconciler.SnapshotExcludesSelf` | client/src/lib/network/socket.ts:138 | after a snapshot the roster does not hold the local player's id |
| `Reconciler.WellKeyedSnapshot` | client/src/lib/network/socket.ts:134-149 | for a snapshot keyed by player id, the roster afterwards equals the snapshot without the local player's entry |
| `Reconciler.ReconcileKeepsSelfExclusion` | client/src/lib/network/socket.ts:98-152 | every event except a `player_joined` of the local id keeps the local id out of the roster; a snapshot restores it from any state |
| `Reconciler.PlayerJoinedOfSelfBreaksSelfExclusion` | client/src/lib/network/socket.ts:108 | a `player_joined` carrying the local id puts it into the roster |
| `Reconciler.SnapshotScenario` | client/src/lib/network/socket.ts:134-149 | snapshot {A at (0,0,0), B at (1,0,0)} with local id "A" leaves exactly {B} and touches nothing else |
| `NetworkClient.NetworkManager.constructor` | client/src/lib/network/socket.ts:32-36 | no socket, no attempts, no timer |
| `NetworkClient.NetworkManager.Connect` | client/src/lib/network/socket.ts:38-50 | with an open or connecting socket nothing changes; otherwise a fresh connecting socket to the given URL; the reconnection state is unchanged |
| `NetworkClient.NetworkManager.OnOpen` | client/src/lib/network/socket.ts:52-60 | the store becomes connected, attempts reset to 0, any pending timer is cleared |
| `NetworkClient.NetworkManager.OnClose` | client/src/lib/network/socket.ts:62-70 | the store becomes disconnected; code 1000 schedules nothing, any other code goes through `handleReconnect` |
| `NetworkClient.NetworkManager.OnError` | client/src/lib/network/socket.ts:72-75 | goes through `handleReconnect`; the store is untouched |
| `NetworkClient.NetworkManager.HandleReconnect` | client/src/lib/network/socket.ts:87-96 | the reconnection state after the call is `Retry` of the one before, and the invariant is kept |
| `NetworkClient.NetworkManager.OnReconnectTimer` | client/src/lib/network/socket.ts:91-94 | the timer is forgotten and `connect` runs with the default URL |
| `NetworkClient.NetworkManager.OnMessage` | client/src/lib/network/socket.ts:77-84 | an unparsable payload changes nothing; a parsed one is reconciled |
| `NetworkClient.NetworkManager.HandleServerMessage` | client/src/lib/network/socket.ts:98-152 | the store afterwards is the one the event leads to, for each of the five events |
| `NetworkClient.NetworkManager.ApplySnapshot` | client/src/lib/network/socket.ts:134-149 | after the loop the roster is the snapshot's kept players under their own ids, and nothing else in the store changed |
| `NetworkClient.NetworkManager.SendPlayerMove` | client/src/lib/network/socket.ts:154-162 | a `player_move` is sent only while the socket is open; otherwise the socket is untouched |
| `NetworkClient.NetworkManager.SendChatMessage` | client/src/lib/network/socket.ts:164-172 | a `chat_message` is sent only while the socket is open; otherwise the socket is untouched |
| `NetworkClient.NetworkManager.JoinGame` | client/src/lib/network/socket.ts:174-193 | only while open: sends `join` and sets the local player to id "", the name, level 1, health and max health 100, position (0,1,0) |
| `NetworkClient.NetworkManager.Disconnect` | client/src/lib/network/socket.ts:195-204 | the timer is cancelled, the socket asked to close and dropped; the attempt counter is kept |
| `ServerGame.OthersThan` | server/src/game_state.rs:45-49 | the result holds exactly the entries whose id differs from the given one, with their values |
| `ServerGame.OthersNonEmpty` | server/src/game_state.rs:44-51 | with the new player in and more than one player, the "others" map is never empty |
| `ServerGame.AddPlayerBroadcasts` | server/src/game_state.rs:30-57 | the player is stored under its id (overwriting), other keys unchanged, `PlayerJoined` is broadcast first, a snapshot of everyone else follows iff the roster has more than one player |
| `ServerGame.RemovePresentPlayer` | server/src/game_state.rs:59-66 | a present id: only that key is deleted and `PlayerLeft` is broadcast |
| `ServerGame.RemoveAbsentPlayer` | server/src/game_state.rs:67-69 | an absent id: roster and broadcasts unchanged |
| `ServerGame.MovePlayer` | server/src/game_state.rs:72-84 | a present id: only that player's position changes and `PlayerMoved` with the same id and position is broadcast; an absent id: no change |
| `ServerGame.ChatFromPlayer` | server/src/game_state.rs:86-98 | the roster never changes; a chat with the sender's stored name is broadcast only when the sender exists |
| `ServerGame.CountJoinsAppend` | server/src/game_state.rs:41 | counting `PlayerJoined` broadcasts is additive over concatenation |
| `ServerGame.GameState.constructor` | server/src/game_state.rs:17-24 | a new server state has no players and has broadcast nothing |
| `ServerGame.GameState.AddPlayer` | server/src/game_state.rs:30-57 | the state afterwards is `Added` of the state before |
| `ServerGame.GameState.RemovePlayer` | server/src/game_state.rs:59-70 | the state afterwards is `Removed` of the state before |
| `ServerGame.GameState.UpdatePlayerPosition` | server/src/game_state.rs:72-84 | the state afterwards is `Moved` of the state before |
| `ServerGame.GameState.SendChatMessage` | server/src/game_state.rs:86-98 | the state afterwards is `Chatted` of the state before |
| `ServerGame.GameState.GetPlayerCount` | server/src/game_state.rs:100-103 | the count is the number of keys in the roster |
| `ServerGame.GameState.GetAllPlayers` | server/src/game_state.rs:105-108 | the result has the roster's keys and values |
| `ServerConnection.Handle` | server/src/connection.rs:88-129 | a frame that does not parse gives an error and changes neither state nor id; a parsed one gives Ok; an assigned id never changes; an id is assigned only by a `join`, and it is the new player's id |
| `ServerConnection.SecondJoinIgnored` | server/src/connection.rs:97-100 | a `join` on a joined connection returns Ok and adds nobody |
| `ServerConnection.FirstJoinAddsOnePlayer` | server/src/connection.rs:102-106 | the first `join` adds exactly one new player with the given name and records its id |
| `ServerConnection.UnjoinedMessagesIgnored` | server/src/connection.rs:111-125 | moves and chat before joining change nothing |
| `ServerConnection.MoveTouchesOwnPlayerOnly` | server/src/connection.rs:111-114 | a joined connection's move changes only its own player's position |
| `ServerConnection.HandleAppends` | server/src/connection.rs:88-129 | each message only appends broadcasts, including one `PlayerJoined` exactly when it assigns the id |
| `ServerConnection.SessionJoinsAtMostOnce` | server/src/connection.rs:33-39 | over any run of messages on one connection, the id once assigned never changes and at most one `PlayerJoined` is broadcast |
| `ServerConnection.Cleanup` | server/src/connection.rs:80-83 | a joined connection's player is removed (with `PlayerLeft` if present); an unjoined connection removes nothing |
| `ServerConnection.HandleClientMessage` | server/src/connection.rs:88-129 | the outcome, new player id and game state are those `Handle` gives |
| `ServerConnection.CloseConnection` | server/src/connection.rs:80-83 | the game state afterwards is `Cleanup` of the state before |
| `JoinSync.JoinBroadcastsDropJoiner` | server/src/game_state.rs:41-54 | a client already in the game that is not the newcomer lists the newcomer after `PlayerJoined`, no longer lists it after the following snapshot, and then ignores the newcomer's moves |

## Left out

- Serialisation. JSON parsing on the client, `serde_json` on the server, and `JSON.stringify` are not modelled. A payload arrives already parsed, or as `None` when parsing fails.
- Parsed but ill-shaped server messages received by the client. The client casts any parsed JSON to a server message without checking it. If a handler then throws halfway, the store can be partly updated: for example, a `game_state` without `players` clears the roster before it throws. The model treats every parsed message as well formed.
- Timer timing. Real `setTimeout` timing is not modelled; a pending timer is only its delay. It fires only through `NetworkManager.OnReconnectTimer`, and only while it is pending.
- Browser state changes. The browser's own ready-state changes are not driven by the model. They are the environment transition `WebSocket.Advance`, and the socket events may arrive in any order. `send` on a socket that is still connecting would throw, but no modelled caller does it.
- Logging. `console.log` and `tracing` output are not modelled.
- Numeric types. Positions are three reals that are only copied and compared; `f32`, JavaScript numbers and `Vector3` are not modelled. `u32` level and health become `nat`: only the constants 1 and 100 are ever stored.
- Store reactivity. Svelte's subscribers and notifications are not modelled. The store is a plain object updated in place.
- Server concurrency. `tokio::select!`, `RwLock` and interleavings between tasks are not modelled; each `GameState` operation is atomic. One consequence: `add_player` takes its snapshot under a separate read lock, after the insert. The model assumes no other task runs in between.
- Server transport. The broadcast channel's capacity of 1000, lagging receivers, `subscribe`, and the forwarding of broadcasts to each socket are not modelled. The outbox stands for everything sent on the channel.
- The WebSocket handshake failure and the TCP accept loop in `server/src/main.rs` are not modelled.
- UUID generation in `Player::new` is not modelled. The id is supplied by the caller.
- Rendering and tooling. `client/src/lib/AnimationManager.ts`, `client/src/lib/components/makeSplatStandardMaterial.ts` and `client/eslint.config.ts` are not part of this model. They hold rendering, asset loading and lint configuration.
