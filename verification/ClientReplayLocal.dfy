// The replay of one game does not depend on the logs of other games, nor on the order in which
// the two players' moves are replayed.
module ClientReplayLocal {
  import opened Wrappers
  import opened Boards
  import opened Interop
  import opened TicTacToeContract
  import opened TicTacToeWorld
  import opened ClientReplay
  import opened TicTacToeSession

  predicate Mine(c: nat, n: nat, event: Event) {
    !event.Foreign? && event.chainId == c && event.gameId == n
  }

  function Project(acts: seq<Act>, c: nat, n: nat): seq<Act> {
    if acts == [] then []
    else
      var l := |acts| - 1;
      if Mine(c, n, acts[l].event) then Project(acts[..l], c, n) + [acts[l]] else Project(acts[..l], c, n)
  }

  function Restrict(g: Games, c: nat, n: nat): Games {
    map k | k in g && k.chainId == c && k.gameId == n :: g[k]
  }

  lemma RecordLocal(g: Games, act: Act, c: nat, n: nat)
    requires Mine(c, n, act.event)
    ensures Record(Restrict(g, c, n), act).Some? <==> Record(g, act).Some?
    ensures Record(g, act).Some? ==>
              Restrict(Record(g, act).value, c, n) == Record(Restrict(g, c, n), act).value
  {
  }

  lemma RecordElsewhere(g: Games, act: Act, c: nat, n: nat)
    requires !Mine(c, n, act.event) && Record(g, act).Some?
    ensures Restrict(Record(g, act).value, c, n) == Restrict(g, c, n)
  {
  }

  // The replayed map, restricted to one game, is the replay of that game's logs alone.
  lemma {:induction false} ReplayProject(acts: seq<Act>, c: nat, n: nat)
    requires Replay(map[], acts).Some?
    ensures Replay(map[], Project(acts, c, n)).Some?
    ensures Restrict(Replay(map[], acts).value, c, n) == Replay(map[], Project(acts, c, n)).value
  {
    if acts == [] {
      assert Restrict(map[], c, n) == map[];
    } else {
      var l := |acts| - 1;
      ReplayProject(acts[..l], c, n);
      var g := Replay(map[], acts[..l]).value;
      if Mine(c, n, acts[l].event) {
        RecordLocal(g, acts[l], c, n);
        ReplayOne(map[], Project(acts[..l], c, n), acts[l]);
      } else {
        RecordElsewhere(g, acts[l], c, n);
      }
    }
  }

  // The replay throws only if the replay of a single game does.
  lemma {:induction false} ReplaySucceeds(acts: seq<Act>)
    requires forall c, n :: Replay(map[], Project(acts, c, n)).Some?
    ensures Replay(map[], acts).Some?
  {
    if acts != [] {
      var l := |acts| - 1;
      var last := acts[l];
      forall c, n ensures Replay(map[], Project(acts[..l], c, n)).Some? {
        assert Replay(map[], Project(acts, c, n)).Some?;
        if Mine(c, n, last.event) {
          ReplayOne(map[], Project(acts[..l], c, n), last);
        }
      }
      ReplaySucceeds(acts[..l]);
      if !last.event.Foreign? {
        var (c, n) := (last.event.chainId, last.event.gameId);
        assert Replay(map[], Project(acts, c, n)).Some?;
        ReplayOne(map[], Project(acts[..l], c, n), last);
        ReplayProject(acts[..l], c, n);
        RecordLocal(Replay(map[], acts[..l]).value, last, c, n);
      }
    }
  }

  lemma {:induction false} ProjectAppend(a: seq<Act>, b: seq<Act>, c: nat, n: nat)
    ensures Project(a + b, c, n) == Project(a, c, n) + Project(b, c, n)
  {
    if b == [] {
      assert a + b == a;
    } else {
      var l := |b| - 1;
      assert (a + b)[..|a + b| - 1] == a + b[..l];
      ProjectAppend(a, b[..l], c, n);
    }
  }

  // ---- The moves of one game, replayed in any order ----

  // acts are moves of game (c, n) by the two players a and p.
  predicate MovesOfTwo(acts: seq<Act>, c: nat, n: nat, a: Address, p: Address) {
    forall i :: 0 <= i < |acts| ==>
      && IsMove(acts[i].event) && Mine(c, n, acts[i].event)
      && (acts[i].event.player == a || acts[i].event.player == p)
      && acts[i].event.x < 3 && acts[i].event.y < 3
  }

  // The board of player me after the moves in the order replayed.
  function BoardOf(acts: seq<Act>, me: Address): Board {
    if acts == [] then EMPTY
    else
      var last := acts[|acts| - 1].event;
      if last.Foreign? then EMPTY
      else BoardOf(acts[..|acts| - 1], me)[CellOf(last) := if last.player == me then 1 else 2]
  }

  function StatusOf(acts: seq<Act>, me: Address): Status {
    if acts == [] then Active
    else
      var last := acts[|acts| - 1].event;
      StatusAfter(last, StatusOf(acts[..|acts| - 1], me), !last.Foreign? && last.player == me)
  }

  // The latest action of player me, by block number, starting from the opening one.
  function LatestOf(acts: seq<Act>, me: Address, first: Act): Act {
    if acts == [] then first
    else
      var last := acts[|acts| - 1];
      var before := LatestOf(acts[..|acts| - 1], me, first);
      if !last.event.Foreign? && last.event.player == me && before.id.blockNumber < last.id.blockNumber then last
      else before
  }

  function PlayerGame(game: ClientGame, acts: seq<Act>, me: Address): ClientGame {
    var latest := LatestOf(acts, me, Act(game.lastActionId, game.lastActionData));
    game.(moves := BoardOf(acts, me), status := StatusOf(acts, me),
          lastActionId := latest.id, lastActionData := latest.event)
  }

  // Replaying the moves of two opponents rebuilds both games from the moves alone.
  lemma {:induction false} ReplayMoves(ga: ClientGame, gp: ClientGame, acts: seq<Act>, c: nat, n: nat, a: Address,
                                       p: Address)
    requires a != p && MovesOfTwo(acts, c, n, a, p)
    requires ga.opponent == Some(p) && gp.opponent == Some(a)
    requires ga.moves == EMPTY && gp.moves == EMPTY && ga.status == Active && gp.status == Active
    ensures Replay(map[Key(c, n, a) := ga, Key(c, n, p) := gp], acts)
         == Some(map[Key(c, n, a) := PlayerGame(ga, acts, a), Key(c, n, p) := PlayerGame(gp, acts, p)])
  {
    if acts != [] {
      var l := |acts| - 1;
      ReplayMoves(ga, gp, acts[..l], c, n, a, p);
      var g := map[Key(c, n, a) := PlayerGame(ga, acts[..l], a), Key(c, n, p) := PlayerGame(gp, acts[..l], p)];
      var e := acts[l].event;
      if e.player == a {
        RecordTwo(PlayerGame(ga, acts[..l], a), PlayerGame(gp, acts[..l], p), acts[l], c, n, a, p, g);
      } else {
        RecordTwo(PlayerGame(gp, acts[..l], p), PlayerGame(ga, acts[..l], a), acts[l], c, n, p, a, g);
      }
      assert Record(g, acts[l]).value == map[Key(c, n, a) := PlayerGame(ga, acts, a),
                                             Key(c, n, p) := PlayerGame(gp, acts, p)];
    }
  }

  // One move of player m against o.
  lemma RecordTwo(gm: ClientGame, go: ClientGame, act: Act, c: nat, n: nat, m: Address, o: Address, g: Games)
    requires m != o && g == map[Key(c, n, m) := gm, Key(c, n, o) := go]
    requires gm.opponent == Some(o)
    requires var e := act.event; IsMove(e) && Mine(c, n, e) && e.player == m && e.x < 3 && e.y < 3
    ensures var e := act.event;
            Record(g, act) == Some(map[
              Key(c, n, m) :=
                Progressed(gm.(moves := gm.moves[CellOf(e) := 1], status := StatusAfter(e, gm.status, true)), act),
              Key(c, n, o) := go.(moves := go.moves[CellOf(e) := 2], status := StatusAfter(e, go.status, false))])
  {
    var e := act.event;
    var (k, k') := (Key(c, n, m), Key(c, n, o));
    var gm' := gm.(moves := gm.moves[CellOf(e) := 1], status := StatusAfter(e, gm.status, true));
    var go' := go.(moves := go.moves[CellOf(e) := 2], status := StatusAfter(e, go.status, false));
    assert Record(g, act) == Some(g[k := gm'][k' := go'][k := Progressed(gm', act)]);
    assert g[k := gm'][k' := go'][k := Progressed(gm', act)] == map[k := Progressed(gm', act), k' := go'];
  }
}
