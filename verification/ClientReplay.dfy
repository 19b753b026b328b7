// The web client's replay: all boards rebuilt from the sealed logs, event kind by event kind and
// chain by chain, that is, out of causal order.
module ClientReplay {
  import opened Wrappers
  import opened Boards
  import opened Interop
  import opened TicTacToeContract
  import opened TicTacToeWorld

  datatype Status = Active | Draw | WonGame | LostGame

  // A cell that the client leaves null is 0 here.
  datatype ClientGame = ClientGame(opponent: Option<Address>, opponentChainId: Option<nat>,
                                   moves: Board, status: Status, lastActionId: Identifier, lastActionData: Event)

  type Games = map<Key, ClientGame>

  // A sealed log of the contract as the client fetches it: its place and its payload.
  datatype Act = Act(id: Identifier, event: Event)

  datatype Kind = NewGameLogs | AcceptedLogs | MoveLogs | WonLogs | DrawLogs

  predicate IsKind(k: Kind, event: Event) {
    match k
    case NewGameLogs => event.NewGame?
    case AcceptedLogs => event.AcceptedGame?
    case MoveLogs => event.MovePlayed?
    case WonLogs => event.GameWon?
    case DrawLogs => event.GameDraw?
  }

  // The logs before the block under construction lie in sealed blocks.
  predicate Settled(c: Chain) {
    forall i :: 0 <= i < c.start ==> c.logs[i].block < |c.times|
  }

  // The first n sealed logs of chain ch that the contract emitted with the given kind.
  function ActsOf(w: World, ch: nat, k: Kind, n: nat): seq<Act>
    requires ch in w && Settled(w[ch]) && n <= w[ch].start
  {
    if n == 0 then []
    else
      var e := w[ch].logs[n - 1];
      ActsOf(w, ch, k, n - 1)
      + if e.origin == SELF && IsKind(k, e.event)
        then [Act(Identifier(e.origin, e.block, e.index, w[ch].times[e.block], ch), e.event)] else []
  }

  ghost predicate Ordered(w: World, order: seq<nat>) {
    forall i :: 0 <= i < |order| ==> order[i] in w && Settled(w[order[i]])
  }

  // All logs of one kind, chain after chain.
  ghost function Acts(w: World, order: seq<nat>, k: Kind): seq<Act>
    requires Ordered(w, order)
  {
    if order == [] then []
    else
      var n := |order| - 1;
      Acts(w, order[..n], k) + ActsOf(w, order[n], k, w[order[n]].start)
  }

  ghost function AllActs(w: World, order: seq<nat>): seq<Act>
    requires Ordered(w, order)
  {
    Acts(w, order, NewGameLogs) + Acts(w, order, AcceptedLogs) + Acts(w, order, MoveLogs)
    + Acts(w, order, WonLogs) + Acts(w, order, DrawLogs)
  }

  // The chains move on while the client fetches: the world as the query for logs of a kind on
  // the i-th chain finds it.
  type Snapshots = (Kind, nat) -> World

  ghost predicate Answering(v: Snapshots, order: seq<nat>) {
    forall k: Kind, i: nat :: i < |order| ==> order[i] in v(k, i) && Settled(v(k, i)[order[i]])
  }

  // All logs of one kind, each chain as its query finds it.
  ghost function Fetched(v: Snapshots, order: seq<nat>, k: Kind): seq<Act>
    requires Answering(v, order)
  {
    if order == [] then []
    else
      var n := |order| - 1;
      var w := v(k, n);
      Fetched(v, order[..n], k) + ActsOf(w, order[n], k, w[order[n]].start)
  }

  ghost function AllFetched(v: Snapshots, order: seq<nat>): seq<Act>
    requires Answering(v, order)
  {
    Fetched(v, order, NewGameLogs) + Fetched(v, order, AcceptedLogs) + Fetched(v, order, MoveLogs)
    + Fetched(v, order, WonLogs) + Fetched(v, order, DrawLogs)
  }

  // Chains that stand still during the fetch.
  ghost predicate Still(v: Snapshots, w: World) {
    forall k: Kind, i: nat :: v(k, i) == w
  }

  lemma {:induction false} StillFetched(v: Snapshots, w: World, order: seq<nat>, k: Kind)
    requires Still(v, w) && Ordered(w, order)
    ensures Answering(v, order) && Fetched(v, order, k) == Acts(w, order, k)
  {
    if order != [] {
      StillFetched(v, w, order[..|order| - 1], k);
      assert v(k, |order| - 1) == w;
    }
  }

  // If no sealed log is added during the fetch, the fetch is that of one world.
  lemma StillAllFetched(v: Snapshots, w: World, order: seq<nat>)
    requires Still(v, w) && Ordered(w, order)
    ensures Answering(v, order) && AllFetched(v, order) == AllActs(w, order)
  {
    StillFetched(v, w, order, NewGameLogs);
    StillFetched(v, w, order, AcceptedLogs);
    StillFetched(v, w, order, MoveLogs);
    StillFetched(v, w, order, WonLogs);
    StillFetched(v, w, order, DrawLogs);
  }

  // ---- What one log does to the game map; None is a TypeError on a missing entry ----

  function Fresh(g: Games, k: Key, act: Act): ClientGame {
    if k in g then ClientGame(g[k].opponent, g[k].opponentChainId, EMPTY, Active, act.id, act.event)
    else ClientGame(None, None, EMPTY, Active, act.id, act.event)
  }

  function Progressed(game: ClientGame, act: Act): ClientGame {
    if game.lastActionId.blockNumber < act.id.blockNumber
    then game.(lastActionId := act.id, lastActionData := act.event) else game
  }

  function StatusAfter(event: Event, before: Status, mover: bool): Status {
    if event.GameWon? then (if mover then WonGame else LostGame)
    else if event.GameDraw? then Draw else before
  }

  function RecordMove(g: Games, act: Act): Option<Games>
    requires IsMove(act.event)
  {
    var e := act.event;
    var k := Key(e.chainId, e.gameId, e.player);
    if k !in g || e.x >= 3 || e.y >= 3 || g[k].opponent.None? then None
    else
      var c := CellIndex(e.x, e.y);
      var g1 := g[k := g[k].(moves := g[k].moves[c := 1], status := StatusAfter(e, g[k].status, true))];
      var k' := Key(e.chainId, e.gameId, g[k].opponent.value);
      if k' !in g1 then None
      else
        var g2 := g1[k' := g1[k'].(moves := g1[k'].moves[c := 2], status := StatusAfter(e, g1[k'].status, false))];
        Some(g2[k := Progressed(g2[k], act)])
  }

  // What one move, win or draw leaves of the two players' entries, and that no other entry
  // changes.
  lemma RecordMoveMeaning(g: Games, act: Act)
    requires IsMove(act.event) && RecordMove(g, act).Some?
    requires g[Key(act.event.chainId, act.event.gameId, act.event.player)].opponent != Some(act.event.player)
    ensures var (e, g') := (act.event, RecordMove(g, act).value);
            var k := Key(e.chainId, e.gameId, e.player);
            && k in g && g[k].opponent.Some? && e.x < 3 && e.y < 3
            && var k' := Key(e.chainId, e.gameId, g[k].opponent.value);
            && k' in g && g'.Keys == g.Keys
            && (forall j :: j in g && j != k && j != k' ==> g'[j] == g[j])
            && Marks(g[k].moves, g'[k].moves, e.x, e.y, 1) && Marks(g[k'].moves, g'[k'].moves, e.x, e.y, 2)
            && (e.GameWon? ==> g'[k].status == WonGame && g'[k'].status == LostGame)
            && (e.GameDraw? ==> g'[k].status == Draw && g'[k'].status == Draw)
            && (e.MovePlayed? ==> g'[k].status == g[k].status && g'[k'].status == g[k'].status)
            && Act(g'[k].lastActionId, g'[k].lastActionData)
               == (if g[k].lastActionId.blockNumber < act.id.blockNumber then act
                   else Act(g[k].lastActionId, g[k].lastActionData))
            && Act(g'[k'].lastActionId, g'[k'].lastActionData) == Act(g[k'].lastActionId, g[k'].lastActionData)
  {
    forall u: nat, v: nat | u < 3 && v < 3
      ensures CellIndex(u, v) == CellIndex(act.event.x, act.event.y) <==> (u, v) == (act.event.x, act.event.y)
    {
      CellsDiffer(u, v, act.event.x, act.event.y);
    }
  }

  // b' is b with the mark m at (x, y).
  ghost predicate Marks(b: Board, b': Board, x: nat, y: nat, m: nat) {
    forall u: nat, v: nat :: u < 3 && v < 3 ==>
      CellAt(b', u, v) == if (u, v) == (x, y) then m else CellAt(b, u, v)
  }

  function Record(g: Games, act: Act): Option<Games> {
    match act.event
    case NewGame(c, n, p) => Some(g[Key(c, n, p) := Fresh(g, Key(c, n, p), act)])
    case AcceptedGame(c, n, o, p) =>
      var g1 := g[Key(c, n, p) := Fresh(g, Key(c, n, p), act).(opponent := Some(o), opponentChainId := Some(c))];
      if Key(c, n, o) !in g1 then None
      else Some(g1[Key(c, n, o) := g1[Key(c, n, o)].(opponent := Some(p), opponentChainId := Some(act.id.chainId))])
    case Foreign(_) => Some(g)
    case _ => RecordMove(g, act)
  }

  // What a NewGame leaves: an empty active game with this action as its last. An opponent that
  // was known before stays known.
  lemma RecordNewGameMeaning(g: Games, act: Act)
    requires act.event.NewGame?
    ensures Record(g, act).Some?
    ensures var (k, g') := (Key(act.event.chainId, act.event.gameId, act.event.player), Record(g, act).value);
            && g'.Keys == g.Keys + {k} && (forall j :: j in g && j != k ==> g'[j] == g[j])
            && (g'[k].moves, g'[k].status, g'[k].lastActionId, g'[k].lastActionData)
               == (EMPTY, Active, act.id, act.event)
            && (g'[k].opponent, g'[k].opponentChainId)
               == if k in g then (g[k].opponent, g[k].opponentChainId) else (None, None)
  {
  }

  // What an acceptance leaves: an empty active game of the player who accepts against the creator
  // on the game's chain, and in the creator's game only the player and the chain of the acceptance.
  // It throws exactly when the creator's game is missing.
  lemma RecordAcceptanceMeaning(g: Games, act: Act)
    requires act.event.AcceptedGame? && act.event.player != act.event.opponent
    ensures Record(g, act).Some? <==> Key(act.event.chainId, act.event.gameId, act.event.opponent) in g
    ensures Record(g, act).Some? ==>
      var (e, g') := (act.event, Record(g, act).value);
      var (k, k') := (Key(e.chainId, e.gameId, e.player), Key(e.chainId, e.gameId, e.opponent));
      && g'.Keys == g.Keys + {k} && (forall j :: j in g && j != k && j != k' ==> g'[j] == g[j])
      && g'[k] == ClientGame(Some(e.opponent), Some(e.chainId), EMPTY, Active, act.id, e)
      && g'[k'] == g[k'].(opponent := Some(e.player), opponentChainId := Some(act.id.chainId))
  {
  }

  function Replay(g: Games, acts: seq<Act>): Option<Games> {
    if acts == [] then Some(g)
    else
      var before := Replay(g, acts[..|acts| - 1]);
      if before.None? then None else Record(before.value, acts[|acts| - 1])
  }

  lemma {:induction false} ReplayAppend(g: Games, a: seq<Act>, b: seq<Act>)
    ensures Replay(g, a + b) ==
            if Replay(g, a).None? then None else Replay(Replay(g, a).value, b)
  {
    if b == [] {
      assert a + b == a;
    } else {
      var n := |b| - 1;
      assert (a + b)[..|a + b| - 1] == a + b[..n];
      ReplayAppend(g, a, b[..n]);
    }
  }

  lemma ReplayOne(g: Games, acts: seq<Act>, act: Act)
    ensures Replay(g, acts + [act]) ==
            if Replay(g, acts).None? then None else Record(Replay(g, acts).value, act)
  {
    assert (acts + [act])[..|acts|] == acts;
  }

  // ---- The imperative replay ----

  class Fetcher {
    var gamesInit: Games

    constructor ()
      ensures gamesInit == map[]
    {
      gamesInit := map[];
    }

    // gamesInit is what acts make of g, or the replay has thrown.
    predicate Holds(g: Games, acts: seq<Act>, ok: bool)
      reads this
    {
      Replay(g, acts) == if ok then Some(gamesInit) else None
    }

    method AddGame(k: Key, opponent: Option<Address>, opponentChainId: Option<nat>, act: Act)
      modifies this
      ensures gamesInit == old(gamesInit)[k :=
                var f := Fresh(old(gamesInit), k, act);
                f.(opponent := if opponent.Some? then opponent else f.opponent,
                   opponentChainId := if opponentChainId.Some? then opponentChainId else f.opponentChainId)]
    {
      var game := Fresh(gamesInit, k, act);
      if opponent.Some? {
        game := game.(opponent := opponent);
      }
      if opponentChainId.Some? {
        game := game.(opponentChainId := opponentChainId);
      }
      gamesInit := gamesInit[k := game];
    }

    method OnNewGame(act: Act) returns (ok: bool)
      requires act.event.NewGame?
      modifies this
      ensures Record(old(gamesInit), act) == if ok then Some(gamesInit) else None
    {
      AddGame(Key(act.event.chainId, act.event.gameId, act.event.player), None, None, act);
      return true;
    }

    method OnAcceptedGame(act: Act) returns (ok: bool)
      requires act.event.AcceptedGame?
      modifies this
      ensures Record(old(gamesInit), act) == if ok then Some(gamesInit) else None
    {
      var e := act.event;
      AddGame(Key(e.chainId, e.gameId, e.player), Some(e.opponent), Some(e.chainId), act);
      var opponentKey := Key(e.chainId, e.gameId, e.opponent);
      if opponentKey !in gamesInit {
        return false;
      }
      var opponentGame := gamesInit[opponentKey];
      opponentGame := opponentGame.(opponent := Some(e.player));
      opponentGame := opponentGame.(opponentChainId := Some(act.id.chainId));
      gamesInit := gamesInit[opponentKey := opponentGame];
      return true;
    }

    method OnMove(act: Act) returns (ok: bool)
      requires IsMove(act.event)
      modifies this
      ensures Record(old(gamesInit), act) == if ok then Some(gamesInit) else None
    {
      var e := act.event;
      var k := Key(e.chainId, e.gameId, e.player);
      if k !in gamesInit || e.x >= 3 || e.y >= 3 || gamesInit[k].opponent.None? {
        return false;
      }
      var c := CellIndex(e.x, e.y);
      gamesInit := gamesInit[k := gamesInit[k].(moves := gamesInit[k].moves[c := 1],
                                                status := StatusAfter(e, gamesInit[k].status, true))];
      var opponentKey := Key(e.chainId, e.gameId, gamesInit[k].opponent.value);
      if opponentKey !in gamesInit {
        return false;
      }
      gamesInit := gamesInit[opponentKey := gamesInit[opponentKey].(
                               moves := gamesInit[opponentKey].moves[c := 2],
                               status := StatusAfter(e, gamesInit[opponentKey].status, false))];
      if gamesInit[k].lastActionId.blockNumber < act.id.blockNumber {
        gamesInit := gamesInit[k := gamesInit[k].(lastActionId := act.id, lastActionData := e)];
      } else {
        assert gamesInit == gamesInit[k := gamesInit[k]];
      }
      return true;
    }

    method OnLog(kind: Kind, act: Act) returns (ok: bool)
      requires IsKind(kind, act.event)
      modifies this
      ensures Record(old(gamesInit), act) == if ok then Some(gamesInit) else None
    {
      match kind
      case NewGameLogs => ok := OnNewGame(act);
      case AcceptedLogs => ok := OnAcceptedGame(act);
      case MoveLogs => ok := OnMove(act);
      case WonLogs => ok := OnMove(act);
      case DrawLogs => ok := OnMove(act);
    }

    // The logs of one kind on one chain.
    method PassChain(w: World, ch: nat, kind: Kind) returns (ok: bool)
      requires ch in w && Settled(w[ch])
      modifies this
      ensures Holds(old(gamesInit), ActsOf(w, ch, kind, w[ch].start), ok)
    {
      ghost var g := gamesInit;
      for n := 0 to w[ch].start
        invariant Holds(g, ActsOf(w, ch, kind, n), true)
      {
        var e := w[ch].logs[n];
        if e.origin == SELF && IsKind(kind, e.event) {
          var act := Act(Identifier(e.origin, e.block, e.index, w[ch].times[e.block], ch), e.event);
          ReplayOne(g, ActsOf(w, ch, kind, n), act);
          ok := OnLog(kind, act);
          if !ok {
            ActsOfPrefix(w, ch, kind, n + 1, w[ch].start);
            PrefixThrows(g, ActsOf(w, ch, kind, n + 1), ActsOf(w, ch, kind, w[ch].start));
            return false;
          }
        } else {
          assert ActsOf(w, ch, kind, n + 1) == ActsOf(w, ch, kind, n);
        }
      }
      return true;
    }

    // One pass over all chains for one kind of event.
    method Pass(v: Snapshots, order: seq<nat>, kind: Kind) returns (ok: bool)
      requires Answering(v, order)
      modifies this
      ensures Holds(old(gamesInit), Fetched(v, order, kind), ok)
    {
      ghost var g := gamesInit;
      for i := 0 to |order|
        invariant Holds(g, Fetched(v, order[..i], kind), true)
      {
        assert order[..i + 1][..i] == order[..i];
        ghost var w := v(kind, i);
        ReplayAppend(g, Fetched(v, order[..i], kind), ActsOf(w, order[i], kind, w[order[i]].start));
        ok := PassChain(v(kind, i), order[i], kind);
        if !ok {
          FetchedPrefix(v, order, kind, i + 1);
          PrefixThrows(g, Fetched(v, order[..i + 1], kind), Fetched(v, order, kind));
          return false;
        }
      }
      assert order[..|order|] == order;
      return true;
    }

    // The whole replay: five passes in the order of the game's life.
    method FetchPastEvents(v: Snapshots, order: seq<nat>) returns (ok: bool)
      requires Answering(v, order) && gamesInit == map[]
      modifies this
      ensures Holds(map[], AllFetched(v, order), ok)
    {
      ghost var news, accs := Fetched(v, order, NewGameLogs), Fetched(v, order, AcceptedLogs);
      ghost var moves, wins := Fetched(v, order, MoveLogs), Fetched(v, order, WonLogs);
      ReplayAppend(map[], news, accs);
      ReplayAppend(map[], news + accs, moves);
      ReplayAppend(map[], news + accs + moves, wins);
      ReplayAppend(map[], news + accs + moves + wins, Fetched(v, order, DrawLogs));
      ok := Pass(v, order, NewGameLogs);
      if ok {
        ok := Pass(v, order, AcceptedLogs);
        if ok {
          ok := Pass(v, order, MoveLogs);
          if ok {
            ok := Pass(v, order, WonLogs);
            if ok {
              ok := Pass(v, order, DrawLogs);
            }
          }
        }
      }
    }
  }

  // A replay that has thrown stays thrown, whatever logs follow.
  lemma PrefixThrows(g: Games, a: seq<Act>, b: seq<Act>)
    requires a <= b && Replay(g, a).None?
    ensures Replay(g, b).None?
  {
    ReplayAppend(g, a, b[|a|..]);
    assert a + b[|a|..] == b;
  }

  lemma {:induction false} ActsOfPrefix(w: World, ch: nat, k: Kind, n: nat, m: nat)
    requires ch in w && Settled(w[ch]) && n <= m <= w[ch].start
    ensures ActsOf(w, ch, k, n) <= ActsOf(w, ch, k, m)
  {
    if n < m {
      ActsOfPrefix(w, ch, k, n, m - 1);
    }
  }

  lemma {:induction false} FetchedPrefix(v: Snapshots, order: seq<nat>, k: Kind, i: nat)
    requires Answering(v, order) && i <= |order|
    ensures Fetched(v, order[..i], k) <= Fetched(v, order, k)
  {
    if i < |order| {
      var n := |order| - 1;
      assert order[..n][..i] == order[..i];
      FetchedPrefix(v, order[..n], k, i);
    } else {
      assert order[..i] == order;
    }
  }
}
