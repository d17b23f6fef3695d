/**
 * The server's authoritative roster: a map from player id to player and the
 * broadcast channel every connection listens to. The channel is modelled as
 * an append-only outbox of the messages sent on it; each operation runs
 * atomically.
 */
module ServerGame {
  import opened Wire

  /** The roster and everything broadcast so far. */
  datatype World = World(players: map<string, Player>, outbox: seq<ServerMessage>)

  const EmptyWorld := World(map[], [])

  /** The entries of `players` whose id is not `id` (the `other_players` filter of `add_player`). */
  function OthersThan(players: map<string, Player>, id: string): (r: map<string, Player>)
    ensures r.Keys == players.Keys - {id}
    ensures forall k :: k in r ==> r[k] == players[k]
  {
    map k | k in players && k != id :: players[k]
  }

  /** What `add_player(p)` broadcasts, given the roster after the insertion. */
  function JoinBroadcasts(players: map<string, Player>, p: Player): seq<ServerMessage> {
    var others := OthersThan(players, p.id);
    if |players| > 1 && others != map[] then [PlayerJoined(p), ServerMessage.GameState(others)]
    else [PlayerJoined(p)]
  }

  /** `add_player`. */
  function Added(w: World, p: Player): World {
    var players := w.players[p.id := p];
    World(players, w.outbox + JoinBroadcasts(players, p))
  }

  /** `remove_player`. */
  function Removed(w: World, id: string): World {
    if id in w.players then World(w.players - {id}, w.outbox + [PlayerLeft(id)]) else w
  }

  /** `update_player_position`. */
  function Moved(w: World, id: string, pos: Position): World {
    if id in w.players then
      World(w.players[id := w.players[id].(position := pos)], w.outbox + [PlayerMoved(id, pos)])
    else
      w
  }

  /** `send_chat_message`. */
  function Chatted(w: World, id: string, message: string): World {
    if id in w.players then w.(outbox := w.outbox + [Chat(w.players[id].name, message)]) else w
  }

  /** Once the new player is in, a roster of more than one player always has someone else in it. */
  lemma OthersNonEmpty(players: map<string, Player>, id: string)
    requires id in players && |players| > 1
    ensures OthersThan(players, id) != map[]
  {
    var others := OthersThan(players, id);
    assert players.Keys == others.Keys + {id};
    assert |players.Keys| <= |others.Keys| + 1;
  }

  /**
   * `add_player(p)` stores `p` under its id (overwriting any earlier entry),
   * broadcasts `PlayerJoined(p)` first, and then a snapshot exactly when the
   * roster now holds more than one player; the snapshot is the roster
   * without `p`.
   */
  lemma AddPlayerBroadcasts(w: World, p: Player)
    ensures var r := Added(w, p);
      && r.players.Keys == w.players.Keys + {p.id}
      && r.players[p.id] == p
      && (forall k :: k in w.players && k != p.id ==> r.players[k] == w.players[k])
      && |r.outbox| > |w.outbox|
      && r.outbox[..|w.outbox|] == w.outbox
      && r.outbox[|w.outbox|] == PlayerJoined(p)
      && (|r.outbox| == |w.outbox| + 2 <==> |r.players| > 1)
      && (|r.players| <= 1 ==> |r.outbox| == |w.outbox| + 1)
      && (|r.players| > 1 ==> r.outbox[|w.outbox| + 1] == ServerMessage.GameState(OthersThan(r.players, p.id)))
  {
    var players := w.players[p.id := p];
    if |players| > 1 {
      OthersNonEmpty(players, p.id);
    }
  }

  /** `remove_player` on a present id deletes only that key and broadcasts `PlayerLeft`. */
  lemma RemovePresentPlayer(w: World, id: string)
    requires id in w.players
    ensures Removed(w, id).players.Keys == w.players.Keys - {id}
    ensures forall k :: k in Removed(w, id).players ==> Removed(w, id).players[k] == w.players[k]
    ensures Removed(w, id).outbox == w.outbox + [PlayerLeft(id)]
  {
  }

  /** `remove_player` on an absent id changes nothing and broadcasts nothing. */
  lemma RemoveAbsentPlayer(w: World, id: string)
    requires id !in w.players
    ensures Removed(w, id) == w
  {
  }

  /**
   * `update_player_position` on a present id changes only that player's
   * position and broadcasts the same id and position; on an absent id it
   * does nothing.
   */
  lemma MovePlayer(w: World, id: string, pos: Position)
    ensures id !in w.players ==> Moved(w, id, pos) == w
    ensures id in w.players ==>
      && Moved(w, id, pos).players.Keys == w.players.Keys
      && Moved(w, id, pos).players[id] == w.players[id].(position := pos)
      && (forall k :: k in w.players && k != id ==> Moved(w, id, pos).players[k] == w.players[k])
      && Moved(w, id, pos).outbox == w.outbox + [PlayerMoved(id, pos)]
  {
  }

  /** `send_chat_message` never changes the roster, and broadcasts the sender's stored name only when the sender exists. */
  lemma ChatFromPlayer(w: World, id: string, message: string)
    ensures Chatted(w, id, message).players == w.players
    ensures id !in w.players ==> Chatted(w, id, message).outbox == w.outbox
    ensures id in w.players ==> Chatted(w, id, message).outbox == w.outbox + [Chat(w.players[id].name, message)]
  {
  }

  /** The number of `PlayerJoined` messages in a sequence of broadcasts. */
  function CountJoins(s: seq<ServerMessage>): nat
    decreases |s|
  {
    if s == [] then 0 else CountJoins(s[..|s| - 1]) + (if s[|s| - 1].PlayerJoined? then 1 else 0)
  }

  lemma {:induction false} CountJoinsAppend(a: seq<ServerMessage>, b: seq<ServerMessage>)
    ensures CountJoins(a + b) == CountJoins(a) + CountJoins(b)
    decreases |b|
  {
    if b != [] {
      assert (a + b)[..|a + b| - 1] == a + b[..|b| - 1];
      CountJoinsAppend(a, b[..|b| - 1]);
    } else {
      assert a + b == a;
    }
  }

  /** The server state: the roster and the broadcast channel. */
  class GameState {
    var players: map<string, Player>
    var outbox: seq<ServerMessage>

    function View(): World
      reads this
    {
      World(players, outbox)
    }

    /** `GameState::new`: no players, nothing broadcast. */
    constructor ()
      ensures View() == EmptyWorld
    {
      players := map[];
      outbox := [];
    }

    method AddPlayer(player: Player)
      modifies this
      ensures View() == Added(old(View()), player)
    {
      var playerId := player.id;
      players := players[playerId := player];
      outbox := outbox + [PlayerJoined(player)];
      var currentPlayers := players;
      if |currentPlayers| > 1 {
        var otherPlayers := map id | id in currentPlayers && id != playerId :: currentPlayers[id];
        if otherPlayers != map[] {
          outbox := outbox + [ServerMessage.GameState(otherPlayers)];
        }
      }
    }

    method RemovePlayer(playerId: string)
      modifies this
      ensures View() == Removed(old(View()), playerId)
    {
      if playerId in players {
        players := players - {playerId};
        outbox := outbox + [PlayerLeft(playerId)];
      }
    }

    method UpdatePlayerPosition(playerId: string, newPosition: Position)
      modifies this
      ensures View() == Moved(old(View()), playerId, newPosition)
    {
      if playerId in players {
        var player := players[playerId];
        players := players[playerId := player.(position := newPosition)];
        outbox := outbox + [PlayerMoved(playerId, newPosition)];
      }
    }

    method SendChatMessage(playerId: string, message: string)
      modifies this
      ensures View() == Chatted(old(View()), playerId, message)
    {
      if playerId in players {
        outbox := outbox + [Chat(players[playerId].name, message)];
      }
    }

    /** `get_player_count`: the number of players in the roster. */
    method GetPlayerCount() returns (count: nat)
      ensures count == |players.Keys|
    {
      count := |players|;
    }

    /** `get_all_players`: a copy of the roster. */
    method GetAllPlayers() returns (all: map<string, Player>)
      ensures all.Keys == players.Keys
      ensures forall id :: id in all ==> all[id] == players[id]
    {
      all := players;
    }
  }
}
