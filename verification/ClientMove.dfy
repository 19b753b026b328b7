// The client's move button: it picks the contract call from the opponent's replayed game, and on
// an honest session the call it picks passes every check of the contract.
module ClientMove {
  import opened Wrappers
  import opened Boards
  import opened Interop
  import opened TicTacToeContract
  import opened TicTacToeWorld
  import opened TicTacToeRuns
  import opened TicTacToeSession
  import opened TicTacToeResults
  import opened ClientReplay
  import opened ClientReplayLocal
  import opened ClientReplayTapes
  import opened ClientReplayGame
  import opened ClientReplaySafety
  import opened ClientReplayResults
  import opened ClientReplayRivals

  // startGame on a board without marks, makeMove otherwise, answering the opponent's last action.
  function ClientCall(opponentGame: ClientGame, x: nat, y: nat): Call {
    if opponentGame.moves == EMPTY then CallStart(opponentGame.lastActionId, opponentGame.lastActionData, x, y)
    else CallMove(opponentGame.lastActionId, opponentGame.lastActionData, x, y)
  }

  method MakeMove(opponentGame: ClientGame, x: nat, y: nat) returns (call: Call)
    ensures call == ClientCall(opponentGame, x, y)
  {
    var moves := opponentGame.moves;
    var movesMade := 0;
    for i := 0 to 3
      invariant movesMade >= 0
      invariant movesMade == 0 <==> forall c :: 0 <= c < 3 * i ==> moves[c] == 0
    {
      for j := 0 to 3
        invariant movesMade >= 0
        invariant movesMade == 0 <==> forall c :: 0 <= c < 3 * i + j ==> moves[c] == 0
      {
        if moves[3 * i + j] != 0 {
          movesMade := movesMade + 1;
        }
      }
    }
    assert movesMade == 0 <==> moves == EMPTY;
    call := CallStart(opponentGame.lastActionId, opponentGame.lastActionData, x, y);
    if movesMade > 0 {
      call := CallMove(opponentGame.lastActionId, opponentGame.lastActionData, x, y);
    }
  }

  // All announcements of the session lie in sealed blocks, so the client has fetched them.
  ghost predicate AllSealed(w: World, s: Session)
    requires s.In(w)
  {
    var t := TapesIn(w, s);
    && InSealed(w, s.chain, t.a) && InSealed(w, s.acceptChain, t.p) && InSealed(w, s.acceptChain, t.acc)
  }

  lemma PlaceIsAct(w: World, ch: nat, e: Entry)
    requires ch in w && e.block < |w[ch].times|
    ensures ToAct(w, ch, e) == Act(PlaceOf(w, ch, e), e.event)
  {
  }

  // A history with a move shows a mark on both boards; without one, none.
  lemma MarksShow(h: Game, me: nat)
    requires me < 2
    ensures Play(h, me) == EMPTY <==> h == []
  {
    if h != [] {
      PlayAt(h, me, h[0]);
    }
  }

  // The client's state of an accepted session whose logs are all sealed, spelled out.
  lemma ShownGames(w: World, s: Session, games: Games)
    requires Inv(w) && SessionOk(w, s) && s.In(w) && AllSealed(w, s) && TapesIn(w, s).acc != []
    requires ShowsPlayers(w, games, s)
    ensures var t := TapesIn(w, s);
            && GoodTapes(s, t) && Alternate(t.a, t.p) && t.news != []
            && InSealed(w, s.chain, t.news)
            && s.CreatorKey() in games && s.AcceptorKey() in games
            && var (c, p) := (games[s.CreatorKey()], games[s.AcceptorKey()]);
            && c.moves == Play(History(t.a, t.p), 0) && p.moves == Play(History(t.a, t.p), 1)
            && c.opponent == Some(s.acceptor) && p.opponent == Some(s.creator)
            && c.status == StatusFor(t, s.creator) && p.status == StatusFor(t, s.acceptor)
            && Act(c.lastActionId, c.lastActionData)
               == ToAct(w, s.chain, if t.a == [] then t.news[0] else t.a[|t.a| - 1])
            && Act(p.lastActionId, p.lastActionData)
               == ToAct(w, s.acceptChain, if t.p == [] then t.acc[0] else t.p[|t.p| - 1])
  {
    hide Inv;
    hide SessionOk;
    hide Play;
    hide History;
    hide StatusFor;
    hide TapesIn;
    hide SealedTapes;
    var t := TapesIn(w, s);
    TurnSealed(w, s);
    SealedGood(w, s);
    SealedNews(w, s);
    assert SealedTapes(w, s) == t;
    assert s.CreatorKey() != s.AcceptorKey();
  }

  lemma SealedNews(w: World, s: Session)
    requires Inv(w) && SessionOk(w, s) && s.In(w) && TapesIn(w, s).acc != []
    ensures SealedTapes(w, s).news == TapesIn(w, s).news && InSealed(w, s.chain, TapesIn(w, s).news)
  {
    assert ChainOk(w, s.chain);
    SealedTape(w[s.chain], NewGames(s.chain, s.gameId));
  }

  lemma FreeCellShown(h: Game, me: nat, c: nat)
    requires me < 2 && c < 9 && Play(h, me)[c] == 0
    ensures c !in h
  {
    PlayAt(h, me, c);
  }

  // The opponent's game is looked up through the player's own.
  predicate HasOpponent(games: Games, me: Key) {
    me in games && games[me].opponent.Some? && Key(me.chainId, me.gameId, games[me].opponent.value) in games
  }

  // What a click on (x, y) of the player's board calls.
  function Click(games: Games, me: Key, x: nat, y: nat): Call
    requires HasOpponent(games, me)
  {
    ClientCall(games[Key(me.chainId, me.gameId, games[me].opponent.value)], x, y)
  }

  // The player to move, and that player's chain.
  function Mover(s: Session, t: Tapes): Key {
    if |t.a| == |t.p| then s.CreatorKey() else s.AcceptorKey()
  }

  function MoverChain(s: Session, t: Tapes): nat {
    if |t.a| == |t.p| then s.chain else s.acceptChain
  }

  predicate Clickable(games: Games, me: Key, x: nat, y: nat) {
    me in games && games[me].status == Active && x < 3 && y < 3 && games[me].moves[CellIndex(x, y)] == 0
  }

  // On the games the client shows, an active game and a free cell of the mover's own board are
  // enough for the call of the click to succeed on the mover's chain.
  lemma ClientMoveSucceeds(w: World, s: Session, games: Games, x: nat, y: nat)
    requires Inv(w) && SessionOk(w, s) && s.In(w) && AllSealed(w, s) && TapesIn(w, s).acc != []
    requires ShowsPlayers(w, games, s) && Clickable(games, Mover(s, TapesIn(w, s)), x, y)
    ensures var (t, me) := (TapesIn(w, s), Mover(s, TapesIn(w, s)));
            HasOpponent(games, me) && Execute(w, MoverChain(s, t), me.player, Click(games, me, x, y)).Done?
  {
    hide Inv;
    hide SessionOk;
    hide ShowsPlayers;
    hide GoodTapes;
    hide TapesIn;
    hide Execute;
    hide Play;
    hide History;
    var t := TapesIn(w, s);
    ShownGames(w, s, games);
    var h := History(t.a, t.p);
    MarksShow(h, 0);
    MarksShow(h, 1);
    FreeCellShown(h, if |t.a| == |t.p| then 0 else 1, CellIndex(x, y));
    StillPlaying(s, t, if |t.a| == |t.p| then s.creator else s.acceptor);
    if t.a == [] {
      PlaceIsAct(w, s.acceptChain, t.acc[0]);
      CreatorCanStartIn(w, s, x, y);
    } else if |t.a| == |t.p| {
      PlaceIsAct(w, s.acceptChain, t.p[|t.p| - 1]);
      CreatorCanMoveIn(w, s, x, y);
    } else {
      PlaceIsAct(w, s.chain, t.a[|t.a| - 1]);
      AcceptorCanMoveIn(w, s, x, y);
    }
  }

  lemma StillPlaying(s: Session, t: Tapes, me: Address)
    requires GoodTapes(s, t) && StatusFor(t, me) == Active
    ensures t.a != [] ==> LastOf(t.a, t.p).event.MovePlayed?
    ensures t.a == [] ==> History(t.a, t.p) == []
    ensures |History(t.a, t.p)| == |t.a| + |t.p|
  {
  }

  // The session's logs prevail when no third player has logged anything about its game.
  lemma AlonePrevails(w: World, s: Session, steps: seq<Step>, order: seq<nat>)
    requires Initial(w) && HonestRun(w, s, steps) && Complete(Run(w, steps), order) && Alone(Run(w, steps), s)
    ensures Ordered(Run(w, steps), order) && Prevails(Run(w, steps), order, s)
  {
    hide HonestRun;
    hide Run;
    hide Replay;
    hide AllActs;
    hide Fetchable;
    hide ExpectedGames;
    hide Prevails;
    var u := Run(w, steps);
    ReplayAgrees(w, steps, order, s);
    ReplayShowsIff(w, steps, order, s);
    var games := Replay(map[], AllActs(u, order)).value;
    assert forall k :: k in Restrict(games, s.chain, s.gameId) <==>
           k in games && k.chainId == s.chain && k.gameId == s.gameId;
    assert ShowsPlayers(u, games, s);
  }
}
