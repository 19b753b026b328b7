// The click of the player to move when anybody may have accepted, and moved in, the same game:
// exactly when it makes the call that the session needs, and when that call succeeds.
module ClientClick {
  import opened Boards
  import opened Interop
  import opened Wrappers

  import opened ClientMove
  import opened ClientReplay
  import opened ClientReplayGame
  import opened ClientReplayLocal
  import opened ClientReplayResults
  import opened ClientReplayRivals
  import opened ClientReplaySafety
  import opened ClientReplayTapes
  import opened TicTacToeContract
  import opened TicTacToeResults
  import opened TicTacToeRuns
  import opened TicTacToeSession
  import opened TicTacToeWorld

  // ---- The click, with arbitrary rivals in the game ----

  // The acceptances and the moves of the session's game, as the fetch returns them.
  ghost function GameAccs(w: World, order: seq<nat>, s: Session): seq<Act>
    requires Ordered(w, order)
  {
    Project(Acts(w, order, AcceptedLogs), s.chain, s.gameId)
  }

  ghost function GameMoves(w: World, order: seq<nat>, s: Session): seq<Act>
    requires Ordered(w, order)
  {
    Project(MoveActs(w, order), s.chain, s.gameId)
  }

  // The session that the creator is shown: its acceptor is whoever's acceptance is fetched last.
  predicate Faced(s: Session, r: Session, accs: seq<Act>) {
    && r.chain == s.chain && r.gameId == s.gameId && r.creator == s.creator
    && accs != []
    && var last := accs[|accs| - 1];
    && last.event.AcceptedGame? && last.event.player == r.acceptor && last.id.chainId == r.acceptChain
  }

  function FacedSession(s: Session, last: Act): Session
    requires last.event.AcceptedGame?
  {
    Session(s.chain, s.gameId, s.creator, last.id.chainId, last.event.player)
  }

  // Everything a reachable state of an accepted, sealed and fetched session guarantees.
  ghost predicate Displayed(w: World, order: seq<nat>, s: Session) {
    && Inv(w) && SessionOk(w, s) && Backed(w) && AllStarted(w)
    && Complete(w, order) && Ordered(w, order) && Fetchable(w, s)
    && SealedTapes(w, s) == TapesIn(w, s) && TapesIn(w, s).acc != []
    && Replay(map[], AllActs(w, order)).Some?
  }

  // The games of whoever the creator faces, and whom the acceptor faces.
  lemma ShownTo(w: World, order: seq<nat>, s: Session, r: Session)
    requires Displayed(w, order, s) && Faced(s, r, GameAccs(w, order, s))
    ensures var (accs, movs) := (GameAccs(w, order, s), GameMoves(w, order, s));
            var games := Replay(map[], AllActs(w, order)).value;
            var n0 := ToAct(w, s.chain, TapesIn(w, s).news[0]);
            && s.CreatorKey() in games && r.AcceptorKey() in games && s.AcceptorKey() in games
            && games[s.CreatorKey()] == PlayerGame(OpenGame(r.acceptor, r.acceptChain, n0), movs, s.creator)
            && games[r.AcceptorKey()] ==
               PlayerGame(OpenGame(s.creator, s.chain, accs[|accs| - 1]), TwoOf(movs, r), r.acceptor)
            && games[s.AcceptorKey()].opponent == Some(s.creator)
  {
    hide Inv;
    hide Backed;
    hide SessionOk;
    hide Complete;
    hide Acts;
    hide AllActs;
    hide Replay;
    hide Legal;
    hide Announced;
    hide RisingFrom;
    hide History;
    hide OnBoard;
    hide ToActs;
    hide AllStarted;
    var t := SealedTapes(w, s);
    var (accs, movs) := (GameAccs(w, order, s), GameMoves(w, order, s));
    var mine := Project(AllActs(w, order), s.chain, s.gameId);
    ReplayProject(AllActs(w, order), s.chain, s.gameId);
    ProjectAll(w, order, s);
    SealedNewGame(w, order, s);
    MovesRival(w, order, s);
    AcceptancesInvited(w, order, s);
    var n0 := ToAct(w, s.chain, t.news[0]);
    OpenedAfter(s, n0, accs);
    var g := Replay(map[], [n0] + accs).value;
    ReplayAppend(map[], [n0] + accs, movs);
    OwnAcceptance(w, order, s, t.acc, ToAct(w, s.acceptChain, t.acc[0]));
    hide SealedTapes;
    RivalMoves(movs, s);
    OpenedFaces(g, s, r, n0, accs);
    MovesKeepOpponents(g, movs);
    RivalReplay(g, movs, r);
    assert forall k :: k in Replay(g, movs).value ==> k in Replay(map[], AllActs(w, order)).value;
  }

  // After the openings the creator faces r's acceptor and everybody else the creator.
  lemma OpenedFaces(g: Games, s: Session, r: Session, n0: Act, accs: seq<Act>)
    requires Opened(g, s, n0, accs) && Invitations(accs, s) && Faced(s, r, accs)
    ensures Facing(g, r)
    ensures g[s.CreatorKey()] == OpenGame(r.acceptor, r.acceptChain, n0)
    ensures g[r.AcceptorKey()] == OpenGame(s.creator, s.chain, accs[|accs| - 1])
  {
    assert IsAcceptance(accs[|accs| - 1].event, s.chain, s.gameId);
    assert s.CreatorKey() != r.AcceptorKey();
    assert LastBy(accs, r.acceptor) == Some(accs[|accs| - 1]);
  }

  // ---- The call that the session needs ----

  // startGame on the session's acceptance, later makeMove on the other player's latest move.
  ghost function SessionCall(w: World, s: Session, x: nat, y: nat): Call
    requires s.In(w) && AllSealed(w, s) && TapesIn(w, s).acc != []
  {
    var t := TapesIn(w, s);
    if t.a == [] then CallStart(PlaceOf(w, s.acceptChain, t.acc[0]), t.acc[0].event, x, y)
    else if |t.a| == |t.p| then
      var e := t.p[|t.p| - 1];
      CallMove(PlaceOf(w, s.acceptChain, e), e.event, x, y)
    else
      var e := t.a[|t.a| - 1];
      CallMove(PlaceOf(w, s.chain, e), e.event, x, y)
  }

  // A free cell of the shared history of an unfinished session.
  predicate Playable(t: Tapes, x: nat, y: nat)
    requires Alternate(t.a, t.p)
  {
    && x < 3 && y < 3
    && (t.a != [] ==> LastOf(t.a, t.p).event.MovePlayed?)
    && CellIndex(x, y) !in History(t.a, t.p)
  }

  // An empty cell of the mover's board after the opponent's mark is free in the shared history.
  lemma FreeCellOnly(g: Game, me: nat, d: nat, c: nat)
    requires me < 2 && d < 9 && c < 9 && Play(g, me)[d := 2][c] == 0
    ensures c !in g + [d]
  {
    PlayAt(g, me, c);
  }

  lemma CreatorMovesOnly(u: World, s: Session, x: nat, y: nat)
    requires SessionOk(u, s) && s.In(u) && TapesIn(u, s).p != [] && |TapesIn(u, s).a| == |TapesIn(u, s).p|
    requires var e := TapesIn(u, s).p[|TapesIn(u, s).p| - 1];
             && e.block < |u[s.acceptChain].times|
             && Execute(u, s.chain, s.creator, CallMove(PlaceOf(u, s.acceptChain, e), e.event, x, y)).Done?
    ensures Playable(TapesIn(u, s), x, y)
  {
    hide MoveCall;
    hide Play;
    hide Legal;
    hide Announced;
    hide RisingFrom;
    hide Admitted;
    hide TapesIn;
    var t := TapesIn(u, s);
    var e := t.p[|t.p| - 1];
    var id := PlaceOf(u, s.acceptChain, e);
    MoveCallMeaning(SELF, u[s.chain].storage, s.creator, Admitted(u, id, e.event), id, e.event, x, y);
    FreeCellOnly(History(t.a, t.p[..|t.p| - 1]), 0, CellOf(e.event), CellIndex(x, y));
  }

  lemma AcceptorMovesOnly(u: World, s: Session, x: nat, y: nat)
    requires SessionOk(u, s) && s.In(u) && |TapesIn(u, s).a| == |TapesIn(u, s).p| + 1
    requires var e := TapesIn(u, s).a[|TapesIn(u, s).a| - 1];
             && e.block < |u[s.chain].times|
             && Execute(u, s.acceptChain, s.acceptor, CallMove(PlaceOf(u, s.chain, e), e.event, x, y)).Done?
    ensures Playable(TapesIn(u, s), x, y)
  {
    hide MoveCall;
    hide Play;
    hide Legal;
    hide Announced;
    hide RisingFrom;
    hide Admitted;
    hide TapesIn;
    var t := TapesIn(u, s);
    var e := t.a[|t.a| - 1];
    var id := PlaceOf(u, s.chain, e);
    MoveCallMeaning(SELF, u[s.acceptChain].storage, s.acceptor, Admitted(u, id, e.event), id, e.event, x, y);
    FreeCellOnly(History(t.a[..|t.a| - 1], t.p), 1, CellOf(e.event), CellIndex(x, y));
  }

  // The call that the session needs passes every check exactly on a free cell of the shared
  // history of an unfinished session.
  lemma SessionCallIff(w: World, s: Session, x: nat, y: nat)
    requires Inv(w) && SessionOk(w, s) && s.In(w) && AllSealed(w, s) && TapesIn(w, s).acc != []
    ensures Alternate(TapesIn(w, s).a, TapesIn(w, s).p)
    ensures var t := TapesIn(w, s);
            Execute(w, MoverChain(s, t), Mover(s, t).player, SessionCall(w, s, x, y)).Done? <==> Playable(t, x, y)
  {
    hide Inv;
    hide GoodTapes;
    hide TapesIn;
    hide MoveCall;
    hide Admitted;
    hide History;
    var t := TapesIn(w, s);
    TurnSealed(w, s);
    NoHistory(s, t);
    hide SessionOk;
    if t.a == [] {
      if Playable(t, x, y) {
        CreatorCanStartIn(w, s, x, y);
      }
    } else if |t.a| == |t.p| {
      var e := t.p[|t.p| - 1];
      if Playable(t, x, y) {
        CreatorCanMoveIn(w, s, x, y);
      } else if Execute(w, s.chain, s.creator, CallMove(PlaceOf(w, s.acceptChain, e), e.event, x, y)).Done? {
        CreatorMovesOnly(w, s, x, y);
      }
    } else {
      var e := t.a[|t.a| - 1];
      if Playable(t, x, y) {
        AcceptorCanMoveIn(w, s, x, y);
      } else if Execute(w, s.acceptChain, s.acceptor, CallMove(PlaceOf(w, s.chain, e), e.event, x, y)).Done? {
        AcceptorMovesOnly(w, s, x, y);
      }
    }
  }

  lemma NoHistory(s: Session, t: Tapes)
    requires GoodTapes(s, t)
    ensures Alternate(t.a, t.p) && (t.a == [] ==> t.p == [] && History(t.a, t.p) == [])
  {
  }

  // ---- What the click presents ----

  lemma BoardMarked(acts: seq<Act>, me: Address)
    requires AllMoves(acts)
    ensures BoardOf(acts, me) == EMPTY <==> acts == []
  {
    if acts != [] {
      BoardByLast(acts, me, CellOf(acts[|acts| - 1].event));
    }
  }

  // The latest action is the opening one or one of the player's moves, and none of them is newer.
  lemma {:induction false} LatestMax(acts: seq<Act>, me: Address, first: Act)
    requires AllMoves(acts)
    ensures var latest := LatestOf(acts, me, first);
            && (latest == first || (latest in acts && IsMove(latest.event) && latest.event.player == me))
            && first.id.blockNumber <= latest.id.blockNumber
            && forall act :: act in acts && IsMove(act.event) && act.event.player == me ==>
                 act.id.blockNumber <= latest.id.blockNumber
  {
    if acts != [] {
      LatestMax(acts[..|acts| - 1], me, first);
      assert forall act :: act in acts <==> act in acts[..|acts| - 1] || act == acts[|acts| - 1];
    }
  }

  lemma {:induction false} TwoHas(acts: seq<Act>, s: Session, act: Act)
    requires act in acts && ByTwo(s, act)
    ensures act in TwoOf(acts, s)
  {
    var n := |acts| - 1;
    if act != acts[n] {
      TwoHas(acts[..n], s, act);
    }
  }

  lemma {:induction false} OwnIn(acts: seq<Act>, s: Session, act: Act)
    ensures act in OwnOf(acts, s) <==> act in acts && Own(s, act)
  {
    if acts != [] {
      var n := |acts| - 1;
      OwnIn(acts[..n], s, act);
      assert act in acts <==> act in acts[..n] || act == acts[n];
    }
  }

  // The newest fetched action of whoever is fetched last as the acceptor is the session's.
  predicate RightAction(accs: seq<Act>, movs: seq<Act>, s: Session) {
    && accs != []
    && var last := accs[|accs| - 1];
    && last.event.AcceptedGame?
    && Own(s, LatestOf(movs, last.event.player, last))
  }

  // When the acceptor's address has accepted the game nowhere else: the session's acceptance is
  // fetched last, and the newest fetched action of the acceptor's address is the session's.
  lemma RightActionIff(accs: seq<Act>, movs: seq<Act>, s: Session)
    requires Invitations(accs, s) && Rivalry(movs, s)
    requires forall act :: act in accs && act.event.AcceptedGame? && act.event.player == s.acceptor ==> Own(s, act)
    ensures RightAction(accs, movs, s) <==>
            accs != [] && Own(s, accs[|accs| - 1]) && NewestKept(movs, s, accs[|accs| - 1])
  {
    hide LatestOf;
    RivalMoves(movs, s);
    if accs != [] {
      var last := accs[|accs| - 1];
      assert last in accs;
      assert IsAcceptance(last.event, s.chain, s.gameId);
      LatestMax(movs, last.event.player, last);
    }
  }

  // The session's own moves among all moves of the game.
  lemma TapeFetched(w: World, s: Session, t: Tapes, movs: seq<Act>)
    requires s.In(w) && InSealed(w, s.chain, t.a) && InSealed(w, s.acceptChain, t.p)
    requires Interleaves(w, s, t, OwnOf(movs, s)) && Rivalry(movs, s)
    requires forall act :: act in movs ==> act.id.origin == SELF
    ensures forall act :: act in ToActs(w, s.chain, t.a) ==> act in movs
    ensures forall act :: act in ToActs(w, s.acceptChain, t.p) ==> act in movs
    ensures forall act :: act in movs && Own(s, act) && IsMove(act.event) && act.event.player == s.acceptor ==>
              act in ToActs(w, s.acceptChain, t.p)
  {
    hide OwnOf;
    hide SelectActs;
    hide ToActs;
    var own := OwnOf(movs, s);
    var q' := Moves(s.chain, s.gameId, s.acceptor);
    SelectedIn(own, Moves(s.chain, s.gameId, s.creator));
    SelectedIn(own, q');
    forall act ensures act in own <==> act in movs && Own(s, act) {
      OwnIn(movs, s, act);
    }
    forall act | act in movs && Own(s, act) && IsMove(act.event) && act.event.player == s.acceptor
      ensures act in ToActs(w, s.acceptChain, t.p) {
      assert Mine(s.chain, s.gameId, act.event) by {
        var i :| 0 <= i < |movs| && movs[i] == act;
      }
      SelectedAll(own, q', act);
    }
  }

  // The session's own acceptance is fetched, and is the only one that is the session's.
  lemma AcceptanceFetched(w: World, order: seq<nat>, s: Session, act: Act)
    requires Displayed(w, order, s)
    ensures act in GameAccs(w, order, s) && Own(s, act) <==> act == ToAct(w, s.acceptChain, TapesIn(w, s).acc[0])
  {
    hide Inv;
    hide SessionOk;
    hide AllActs;
    hide Replay;
    hide Acts;
    hide Legal;
    hide Announced;
    hide RisingFrom;
    hide History;
    OwnAcceptance(w, order, s, TapesIn(w, s).acc, act);
  }

  // The acceptor's latest entry: the acceptance, or the last move.
  function LastAction(t: Tapes): Entry
    requires t.acc != []
  {
    if t.p == [] then t.acc[0] else t.p[|t.p| - 1]
  }

  // What the creator's click presents is the session's exactly if it is the session's latest.
  lemma PresentedIff(w: World, s: Session, t: Tapes, accs: seq<Act>, movs: seq<Act>)
    requires s.In(w) && GoodTapes(s, t) && t.acc != []
    requires InSealed(w, s.chain, t.a) && InSealed(w, s.acceptChain, t.acc) && InSealed(w, s.acceptChain, t.p)
    requires Interleaves(w, s, t, OwnOf(movs, s)) && Rivalry(movs, s)
    requires forall act :: act in movs ==> act.id.origin == SELF
    requires Invitations(accs, s)
    requires forall act :: act in accs && Own(s, act) <==> act == ToAct(w, s.acceptChain, t.acc[0])
    ensures accs != [] && accs[|accs| - 1].event.AcceptedGame?
    ensures RightAction(accs, movs, s) <==>
            LatestOf(movs, accs[|accs| - 1].event.player, accs[|accs| - 1]) == ToAct(w, s.acceptChain, LastAction(t))
  {
    hide LatestOf;
    hide Legal;
    hide Announced;
    hide History;
    hide Interleaves;
    var (a0, latest) := (ToAct(w, s.acceptChain, t.acc[0]), ToAct(w, s.acceptChain, LastAction(t)));
    assert a0 in accs;
    var last := accs[|accs| - 1];
    assert IsAcceptance(last.event, s.chain, s.gameId);
    RivalMoves(movs, s);
    TapeFetched(w, s, t, movs);
    LatestMax(movs, last.event.player, last);
    var presented := LatestOf(movs, last.event.player, last);
    if Own(s, presented) {
      LatestFetched(w, s, t, movs);
      OwnIsLatest(w, s, t, presented, a0);
    }
  }

  lemma LatestFetched(w: World, s: Session, t: Tapes, movs: seq<Act>)
    requires s.In(w) && GoodTapes(s, t) && t.acc != []
    requires InSealed(w, s.acceptChain, t.acc) && InSealed(w, s.acceptChain, t.p)
    requires forall act :: act in ToActs(w, s.acceptChain, t.p) ==> act in movs
    ensures var latest := ToAct(w, s.acceptChain, LastAction(t));
            t.p != [] ==> latest in movs && IsMove(latest.event) && latest.event.player == s.acceptor
  {
    hide Legal;
    hide Announced;
    hide History;
    if t.p != [] {
      assert ToActs(w, s.acceptChain, t.p)[|t.p| - 1] == ToAct(w, s.acceptChain, LastAction(t));
    }
  }

  // Of the acceptor's own acts the latest is the only one not older than the latest.
  lemma OwnIsLatest(w: World, s: Session, t: Tapes, act: Act, a0: Act)
    requires s.In(w) && GoodTapes(s, t) && t.acc != []
    requires InSealed(w, s.acceptChain, t.acc) && InSealed(w, s.acceptChain, t.p)
    requires a0 == ToAct(w, s.acceptChain, t.acc[0]) && (act == a0 || act in ToActs(w, s.acceptChain, t.p))
    requires ToAct(w, s.acceptChain, LastAction(t)).id.blockNumber <= act.id.blockNumber
    ensures act == ToAct(w, s.acceptChain, LastAction(t))
  {
    hide Legal;
    hide Announced;
    hide History;
    var n := |t.p| - 1;
    if t.p != [] && act == a0 {
      RisingOrder(t.p, 0, n);
    } else if t.p != [] {
      var j :| 0 <= j < |t.p| && ToActs(w, s.acceptChain, t.p)[j] == act;
      if j < n {
        RisingOrder(t.p, j, n - 1);
      }
    }
  }

  // Before the creator's start nobody's move of the game is fetched.
  lemma NoMovesYet(w: World, order: seq<nat>, s: Session)
    requires Displayed(w, order, s) && TapesIn(w, s).a == []
    ensures GameMoves(w, order, s) == []
  {
    hide Inv;
    hide Backed;
    hide AllActs;
    hide Replay;
    hide Acts;
    hide Legal;
    hide Announced;
    hide RisingFrom;
    hide History;
    hide SealedTapes;
    hide Fetchable;
    hide SessionOk;
    hide Created;
    var movs := GameMoves(w, order, s);
    ProjectSound(MoveActs(w, order), s.chain, s.gameId);
    if movs != [] {
      var act := movs[0];
      assert act in movs;
      var k := if act in Acts(w, order, MoveLogs) then MoveLogs
               else if act in Acts(w, order, WonLogs) then WonLogs else DrawLogs;
      var ch, i := FetchedAt(w, order, k, act);
      assert EntryStarted(w, w[ch].logs[i]);
      var p :| Created(w, s.chain, s.gameId, p) && Select(w[s.chain].logs, Moves(s.chain, s.gameId, p)) != [];
      OneCreator(w, s, p);
    }
  }

  // What the session's own tapes are among the fetched acts.
  lemma OwnFetched(w: World, order: seq<nat>, s: Session)
    requires Displayed(w, order, s)
    ensures s.In(w) && Ordered(w, order) && Replay(map[], AllActs(w, order)).Some?
    ensures var (t, movs) := (TapesIn(w, s), GameMoves(w, order, s));
            && GoodTapes(s, t) && t.news != [] && t.acc != [] && Alternate(t.a, t.p)
            && InSealed(w, s.chain, t.news) && InSealed(w, s.chain, t.a)
            && InSealed(w, s.acceptChain, t.acc) && InSealed(w, s.acceptChain, t.p)
            && Interleaves(w, s, t, OwnOf(movs, s)) && AnsweredArePlain(t.a, t.p)
            && Rivalry(movs, s) && (forall act :: act in movs ==> act.id.origin == SELF)
            && Invitations(GameAccs(w, order, s), s)
  {
    hide Inv;
    hide SessionOk;
    hide AllActs;
    hide Replay;
    hide Acts;
    hide Legal;
    hide Announced;
    hide RisingFrom;
    hide History;
    hide SealedTapes;
    OwnTapes(w, order, s);
    MovesRival(w, order, s);
    AcceptancesInvited(w, order, s);
  }

  // The creator's latest action, as the fetch shows it, is the creator's latest logged event.
  lemma CreatorShown(w: World, s: Session, t: Tapes, movs: seq<Act>)
    requires s.In(w) && GoodTapes(s, t) && t.acc != [] && Rivalry(movs, s)
    requires InSealed(w, s.chain, t.news) && InSealed(w, s.chain, t.a)
    requires InSealed(w, s.acceptChain, t.acc) && InSealed(w, s.acceptChain, t.p)
    requires Interleaves(w, s, t, OwnOf(movs, s))
    ensures LatestOf(movs, s.creator, ToAct(w, s.chain, t.news[0]))
            == ToAct(w, s.chain, if t.a == [] then t.news[0] else t.a[|t.a| - 1])
  {
    hide Legal;
    hide Announced;
    hide RisingFrom;
    hide History;
    hide Interleaves;
    hide LatestOf;
    hide OwnOf;
    CreatorLatest(movs, s, ToAct(w, s.chain, t.news[0]));
    RebuiltLatest(w, s, t, OwnOf(movs, s));
  }

  // A started game has a move of the creator among the fetched ones.
  lemma CreatorMoved(w: World, s: Session, t: Tapes, movs: seq<Act>) returns (act: Act)
    requires s.In(w) && GoodTapes(s, t) && t.a != [] && Rivalry(movs, s)
    requires InSealed(w, s.chain, t.a) && InSealed(w, s.acceptChain, t.p)
    requires Interleaves(w, s, t, OwnOf(movs, s)) && forall act :: act in movs ==> act.id.origin == SELF
    ensures act in movs && IsMove(act.event) && act.event.player == s.creator
  {
    hide Legal;
    hide Announced;
    hide RisingFrom;
    hide History;
    hide OwnOf;
    TapeFetched(w, s, t, movs);
    act := ToAct(w, s.chain, t.a[0]);
    assert ToActs(w, s.chain, t.a)[0] == act;
  }

  // The call that a click makes against a game rebuilt from acts.
  lemma CallOfGame(open: ClientGame, acts: seq<Act>, me: Address, x: nat, y: nat)
    requires AllMoves(acts)
    ensures var latest := LatestOf(acts, me, Act(open.lastActionId, open.lastActionData));
            ClientCall(PlayerGame(open, acts, me), x, y) ==
            if acts == [] then CallStart(latest.id, latest.event, x, y) else CallMove(latest.id, latest.event, x, y)
  {
    BoardMarked(acts, me);
  }

  // Whoever else takes part: the acceptor's click always makes the call that the session needs.
  lemma AcceptorClicks(w: World, order: seq<nat>, s: Session, x: nat, y: nat)
    requires Displayed(w, order, s) && AllSealed(w, s) && |TapesIn(w, s).a| == |TapesIn(w, s).p| + 1
    ensures var games := Replay(map[], AllActs(w, order)).value;
            && HasOpponent(games, s.AcceptorKey())
            && Click(games, s.AcceptorKey(), x, y) == SessionCall(w, s, x, y)
  {
    hide GoodTapes;
    hide Interleaves;
    hide Displayed;
    hide GameAccs;
    hide GameMoves;
    hide TapesIn;
    hide Replay;
    hide AllActs;
    hide LatestOf;
    hide Rivalry;
    hide RightAction;
    hide TwoOf;
    hide OwnOf;
    hide PlayerGame;
    hide ClientCall;
    hide Invitations;
    OwnFetched(w, order, s);
    var (t, accs, movs) := (TapesIn(w, s), GameAccs(w, order, s), GameMoves(w, order, s));
    AcceptanceFetched(w, order, s, ToAct(w, s.acceptChain, t.acc[0]));
    var last := accs[|accs| - 1];
    LastAccepts(accs, s);
    var r := FacedSession(s, last);
    ShownTo(w, order, s, r);
    RivalMoves(movs, s);
    CreatorShown(w, s, t, movs);
    var act := CreatorMoved(w, s, t, movs);
    var n0 := ToAct(w, s.chain, t.news[0]);
    CallOfGame(OpenGame(r.acceptor, r.acceptChain, n0), movs, s.creator, x, y);
    PlaceIsAct(w, s.chain, t.a[|t.a| - 1]);
    KeptOpponent(OpenGame(r.acceptor, r.acceptChain, n0), movs, s.creator);
  }

  lemma LastAccepts(accs: seq<Act>, s: Session)
    requires Invitations(accs, s) && accs != []
    ensures accs[|accs| - 1].event.AcceptedGame? && accs[|accs| - 1].event.player != s.creator
  {
    assert IsAcceptance(accs[|accs| - 1].event, s.chain, s.gameId);
  }

  lemma KeptOpponent(open: ClientGame, acts: seq<Act>, me: Address)
    ensures PlayerGame(open, acts, me).opponent == open.opponent
  {
  }

  // The creator's click does exactly if the newest action of the creator's opponent, as fetched,
  // is the session's.
  lemma CreatorClicks(w: World, order: seq<nat>, s: Session, x: nat, y: nat)
    requires Displayed(w, order, s) && AllSealed(w, s) && |TapesIn(w, s).a| == |TapesIn(w, s).p|
    ensures var games := Replay(map[], AllActs(w, order)).value;
            && HasOpponent(games, s.CreatorKey())
            && (Click(games, s.CreatorKey(), x, y) == SessionCall(w, s, x, y) <==>
                 RightAction(GameAccs(w, order, s), GameMoves(w, order, s), s))
  {
    hide GoodTapes;
    hide Interleaves;
    hide Displayed;
    hide GameAccs;
    hide GameMoves;
    hide TapesIn;
    hide Replay;
    hide AllActs;
    hide LatestOf;
    hide Rivalry;
    hide RightAction;
    hide TwoOf;
    hide OwnOf;
    hide PlayerGame;
    hide ClientCall;
    hide Invitations;
    OwnFetched(w, order, s);
    var (t, accs, movs) := (TapesIn(w, s), GameAccs(w, order, s), GameMoves(w, order, s));
    forall act ensures act in accs && Own(s, act) <==> act == ToAct(w, s.acceptChain, t.acc[0]) {
      AcceptanceFetched(w, order, s, act);
    }
    PresentedIff(w, s, t, accs, movs);
    var last := accs[|accs| - 1];
    LastAccepts(accs, s);
    var r := FacedSession(s, last);
    ShownTo(w, order, s, r);
    var n0 := ToAct(w, s.chain, t.news[0]);
    KeptOpponent(OpenGame(r.acceptor, r.acceptChain, n0), movs, s.creator);
    RivalMoves(movs, s);
    LatestIff(movs, r, last);
    FilterFacts(movs, r);
    CallOfGame(OpenGame(s.creator, s.chain, last), TwoOf(movs, r), r.acceptor, x, y);
    PlaceIsAct(w, s.acceptChain, LastAction(t));
    if t.a == [] {
      NoMovesYet(w, order, s);
      NothingOfTwo(r);
    } else {
      var act := CreatorMoved(w, s, t, movs);
      TwoHas(movs, r, act);
    }
  }

  lemma NothingOfTwo(r: Session)
    ensures TwoOf([], r) == []
  {
  }

  // ---- After an honest run ----

  // An accepted session whose announcements all lie in sealed blocks, after an honest run.
  ghost predicate AcceptedRun(w: World, s: Session, steps: seq<Step>, order: seq<nat>) {
    && Initial(w) && HonestRun(w, s, steps) && Complete(Run(w, steps), order)
    && var u := Run(w, steps);
    && s.In(u) && AllSealed(u, s) && TapesIn(u, s).acc != []
  }

  lemma RunDisplayed(w: World, s: Session, steps: seq<Step>, order: seq<nat>)
    requires AcceptedRun(w, s, steps, order)
    ensures Displayed(Run(w, steps), order, s)
  {
    hide HonestRun;
    hide Inv;
    hide Run;
    hide Replay;
    hide AllActs;
    hide Backed;
    hide AllStarted;
    hide GoodTapes;
    hide Complete;
    hide SealedTapes;
    hide TapesIn;
    var u := Run(w, steps);
    HonestSession(w, s, steps);
    RunBacked(w, steps);
    NothingBeforeStart(w, steps);
    ReplayNeverThrows(w, steps, order);
    SessionFetchable(u, s);
    TurnSealed(u, s);
    SealedGood(u, s);
    hide SessionOk;
    SealedNews(u, s);
  }

  // On the creator's turn the newest action of whoever the creator faces must be the session's;
  // on the acceptor's turn nothing is asked.
  ghost predicate Answerable(u: World, order: seq<nat>, s: Session)
    requires s.In(u) && Ordered(u, order)
  {
    Mover(s, TapesIn(u, s)) == s.CreatorKey() ==> RightAction(GameAccs(u, order, s), GameMoves(u, order, s), s)
  }

  // The exact click, for every honest run with arbitrary rivals in the game and every order of
  // the chains: it makes the call that the session needs if and only if the newest action of the
  // creator's shown opponent is the session's, or it is the acceptor's turn; and that call passes
  // every check if and only if the cell is free in the shared history of an unfinished session.
  lemma ClickIff(w: World, s: Session, steps: seq<Step>, order: seq<nat>, x: nat, y: nat)
    requires AcceptedRun(w, s, steps, order)
    ensures var u := Run(w, steps);
            && Ordered(u, order) && Replay(map[], AllActs(u, order)).Some?
            && Alternate(TapesIn(u, s).a, TapesIn(u, s).p)
    ensures var (u, t) := (Run(w, steps), TapesIn(Run(w, steps), s));
            var (games, me) := (Replay(map[], AllActs(u, order)).value, Mover(s, t));
            && HasOpponent(games, me)
            && (Click(games, me, x, y) == SessionCall(u, s, x, y) <==> Answerable(u, order, s))
            && (Execute(u, MoverChain(s, t), me.player, SessionCall(u, s, x, y)).Done? <==> Playable(t, x, y))
  {
    hide Run;
    hide HonestRun;
    hide Initial;
    hide Complete;
    hide Execute;
    hide Displayed;
    hide GameAccs;
    hide GameMoves;
    hide RightAction;
    hide SessionCall;
    hide Click;
    hide Playable;
    hide TapesIn;
    hide AllSealed;
    hide GoodTapes;
    hide HasOpponent;
    hide Replay;
    hide AllActs;
    var u := Run(w, steps);
    RunDisplayed(w, s, steps, order);
    OwnFetched(u, order, s);
    HonestSession(w, s, steps);
    hide SessionOk;
    hide Inv;
    SessionCallIff(u, s, x, y);
    assert s.CreatorKey() != s.AcceptorKey();
    if |TapesIn(u, s).a| == |TapesIn(u, s).p| {
      CreatorClicks(u, order, s, x, y);
    } else {
      AcceptorClicks(u, order, s, x, y);
    }
  }

  lemma {:induction false} SameTwo(acts: seq<Act>, s: Session, r: Session)
    requires s.creator == r.creator && s.acceptor == r.acceptor
    ensures TwoOf(acts, s) == TwoOf(acts, r)
  {
    if acts != [] {
      SameTwo(acts[..|acts| - 1], s, r);
    }
  }

  // Whatever else is fetched, a cell that shows empty is free among the session's own moves, and
  // a game that shows active has no verdict among them.
  lemma OwnShows(acts: seq<Act>, s: Session, me: Address, cell: nat)
    requires AllMoves(acts) && cell < 9
    ensures BoardOf(acts, me)[cell] == 0 || BoardOf(TwoOf(acts, s), me)[cell] == 0 ==>
            BoardOf(OwnOf(acts, s), me)[cell] == 0
    ensures StatusOf(acts, me) == Active || StatusOf(TwoOf(acts, s), me) == Active ==>
            StatusOf(OwnOf(acts, s), me) == Active
  {
    hide BoardOf;
    hide StatusOf;
    hide LastOn;
    hide LastVerdictOf;
    FilterFacts(acts, s);
    LastOnNested(acts, s, cell);
    LastVerdictNested(acts, s);
    BoardByLast(acts, me, cell);
    BoardByLast(TwoOf(acts, s), me, cell);
    BoardByLast(OwnOf(acts, s), me, cell);
    StatusByLast(acts, me);
    StatusByLast(TwoOf(acts, s), me);
    StatusByLast(OwnOf(acts, s), me);
  }

  // A cell free among the session's own moves, without a verdict among them, can be played.
  lemma OwnPlayable(w: World, s: Session, t: Tapes, own: seq<Act>, me: Address, x: nat, y: nat)
    requires s.In(w) && GoodTapes(s, t) && AnsweredArePlain(t.a, t.p)
    requires InSealed(w, s.chain, t.a) && InSealed(w, s.acceptChain, t.p) && Interleaves(w, s, t, own)
    requires x < 3 && y < 3 && (me == s.creator || me == s.acceptor)
    requires BoardOf(own, me)[CellIndex(x, y)] == 0 && StatusOf(own, me) == Active
    ensures Playable(t, x, y)
  {
    hide Legal;
    hide Announced;
    hide RisingFrom;
    hide Play;
    hide BoardOf;
    hide StatusOf;
    hide Interleaves;
    hide History;
    RebuiltBoards(w, s, t, own);
    RebuiltStatus(w, s, t, own, me);
    FreeCellShown(History(t.a, t.p), if me == s.creator then 0 else 1, CellIndex(x, y));
    StillPlaying(s, t, me);
  }

  // What a player who is shown the right opponent may click on can be played.
  lemma ClickablePlayable(w: World, order: seq<nat>, s: Session, x: nat, y: nat)
    requires Displayed(w, order, s)
    requires var accs := GameAccs(w, order, s);
             accs != [] && accs[|accs| - 1].event.AcceptedGame? && accs[|accs| - 1].event.player == s.acceptor
    ensures Alternate(TapesIn(w, s).a, TapesIn(w, s).p)
    ensures var games := Replay(map[], AllActs(w, order)).value;
            Clickable(games, Mover(s, TapesIn(w, s)), x, y) ==> Playable(TapesIn(w, s), x, y)
  {
    hide GoodTapes;
    hide Interleaves;
    hide Displayed;
    hide GameAccs;
    hide GameMoves;
    hide TapesIn;
    hide Replay;
    hide AllActs;
    hide LatestOf;
    hide BoardOf;
    hide StatusOf;
    hide Rivalry;
    hide TwoOf;
    hide OwnOf;
    hide Playable;
    hide AnsweredArePlain;
    hide Invitations;
    OwnFetched(w, order, s);
    var (t, accs, movs) := (TapesIn(w, s), GameAccs(w, order, s), GameMoves(w, order, s));
    var games := Replay(map[], AllActs(w, order)).value;
    var r := FacedSession(s, accs[|accs| - 1]);
    ShownTo(w, order, s, r);
    SameTwo(movs, s, r);
    RivalMoves(movs, s);
    var me := Mover(s, t).player;
    if Clickable(games, Mover(s, t), x, y) {
      OwnShows(movs, s, me, CellIndex(x, y));
      OwnPlayable(w, s, t, OwnOf(movs, s), me, x, y);
    }
  }

  // End to end: after any honest run, with arbitrary rivals in the game and for every order of
  // the chains, as long as the acceptance fetched last is by the acceptor's address and, on the
  // creator's turn, the newest action fetched of it is the session's: every cell that the player
  // to move can click on gives a call that the contract accepts.
  lemma ClientComposition(w: World, s: Session, steps: seq<Step>, order: seq<nat>, x: nat, y: nat)
    requires AcceptedRun(w, s, steps, order) && Ordered(Run(w, steps), order)
    requires var accs := GameAccs(Run(w, steps), order, s);
             accs != [] && accs[|accs| - 1].event.AcceptedGame? && accs[|accs| - 1].event.player == s.acceptor
    requires Answerable(Run(w, steps), order, s)
    ensures Replay(map[], AllActs(Run(w, steps), order)).Some?
    ensures var (u, t) := (Run(w, steps), TapesIn(Run(w, steps), s));
            var (games, me) := (Replay(map[], AllActs(u, order)).value, Mover(s, t));
            me in games && (Clickable(games, me, x, y) ==>
              HasOpponent(games, me) && Execute(u, MoverChain(s, t), me.player, Click(games, me, x, y)).Done?)
  {
    hide Run;
    hide HonestRun;
    hide Initial;
    hide Complete;
    hide Execute;
    hide Displayed;
    hide GameAccs;
    hide Answerable;
    hide SessionCall;
    hide Click;
    hide Clickable;
    hide Playable;
    hide TapesIn;
    hide AllSealed;
    hide Replay;
    hide AllActs;
    RunDisplayed(w, s, steps, order);
    ClickIff(w, s, steps, order, x, y);
    ClickablePlayable(Run(w, steps), order, s, x, y);
  }

  // In particular if the session's logs prevail in the fetch.
  lemma PrevailingAnswers(w: World, order: seq<nat>, s: Session)
    requires Displayed(w, order, s) && Prevails(w, order, s)
    ensures var accs := GameAccs(w, order, s);
            && accs != [] && accs[|accs| - 1].event.AcceptedGame? && accs[|accs| - 1].event.player == s.acceptor
            && s.In(w) && Answerable(w, order, s)
  {
    hide GoodTapes;
    hide Interleaves;
    hide Displayed;
    hide TapesIn;
    hide Replay;
    hide AllActs;
    hide LatestOf;
    hide Rivalry;
    hide OwnOf;
    hide CellsKept;
    hide VerdictKept;
    hide AnsweredArePlain;
    hide Acts;
    hide Project;
    hide Invitations;
    OwnFetched(w, order, s);
    AcceptanceFetched(w, order, s, ToAct(w, s.acceptChain, TapesIn(w, s).acc[0]));
    LastAccepts(GameAccs(w, order, s), s);
  }
}
