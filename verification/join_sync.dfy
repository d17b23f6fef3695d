/**
 * What a client already in the game makes of the two broadcasts
 * `add_player` sends when a player joins: `PlayerJoined` for the newcomer,
 * then a `GameState` snapshot of everyone but the newcomer. The snapshot
 * replaces the client's roster, so the newcomer is dropped again.
 */
module JoinSync {
  import opened Wire
  import opened ClientStore
  import opened Reconciler
  import opened ServerGame

  /**
   * A client whose local player is not the newcomer `c`, and which receives
   * both broadcasts of `add_player(c)` in order, first lists `c` and then
   * no longer does; later moves of `c` leave its store unchanged.
   */
  lemma JoinBroadcastsDropJoiner(w: World, c: Player, s: State, t1: State, t2: State)
    requires forall k :: k in w.players ==> w.players[k].id == k
    requires |Added(w, c).outbox| == |w.outbox| + 2
    requires CurrentId(s) != Some(c.id)
    requires Reconciled(s, Added(w, c).outbox[|w.outbox|], t1)
    requires Reconciled(t1, Added(w, c).outbox[|w.outbox| + 1], t2)
    ensures c.id in t1.otherPlayers
    ensures c.id !in t2.otherPlayers
    ensures forall pos :: PatchPlayer(t2, c.id, PositionPatch(pos)) == t2
  {
    AddPlayerBroadcasts(w, c);
    var players := Added(w, c).players;
    assert players == w.players[c.id := c];
    var others := OthersThan(players, c.id);
    assert t1 == AfterPlayerJoined(s, c);
    assert CurrentId(t1) == CurrentId(s);
    assert SnapshotRoster(others, CurrentId(t1), t2.otherPlayers);
    forall id | id in t2.otherPlayers
      ensures id != c.id
    {
      var k :| k in others && Kept(CurrentId(t1), others[k]) && others[k].id == id && t2.otherPlayers[id] == others[k];
      assert others[k] == w.players[k] && k != c.id;
    }
    assert t2.currentPlayer == t1.currentPlayer;
  }
}
