// Anyone may accept an invitation. What the replay shows of an honest session when other players
// accepted, and moved in, the same game: exactly when it is still the session's own game.
module ClientReplayRivals {
  import opened Wrappers
  import opened Boards
  import opened Interop
  import opened TicTacToeContract
  import opened TicTacToeWorld
  import opened TicTacToeRuns
  import opened TicTacToeSession
  import opened TicTacToeResults
  import opened ClientReplay
  import opened ClientReplayLocal
  import opened ClientReplayTapes
  import opened ClientReplayGame
  import opened ClientReplaySafety
  import opened ClientReplayResults

  // ---- The session's own acts among those of its game ----

  predicate Own(s: Session, act: Act) {
    Belongs(s, act.id.chainId, act.event)
  }

  function OwnOf(acts: seq<Act>, s: Session): seq<Act> {
    if acts == [] then []
    else
      var n := |acts| - 1;
      if Own(s, acts[n]) then OwnOf(acts[..n], s) + [acts[n]] else OwnOf(acts[..n], s)
  }

  // The acts of the session's two addresses, on whatever chain.
  predicate ByTwo(s: Session, act: Act) {
    IsMove(act.event) && (act.event.player == s.creator || act.event.player == s.acceptor)
  }

  function TwoOf(acts: seq<Act>, s: Session): seq<Act> {
    if acts == [] then []
    else
      var n := |acts| - 1;
      if ByTwo(s, acts[n]) then TwoOf(acts[..n], s) + [acts[n]] else TwoOf(acts[..n], s)
  }

  // Moves of one game, where the creator plays on the game's chain only and alone can draw.
  predicate Rivalry(acts: seq<Act>, s: Session) {
    forall i :: 0 <= i < |acts| ==>
      && IsMove(acts[i].event) && Mine(s.chain, s.gameId, acts[i].event)
      && acts[i].event.x < 3 && acts[i].event.y < 3
      && (acts[i].event.player == s.creator || acts[i].event.GameDraw? ==> Own(s, acts[i]))
  }

  // ---- The last act on a cell, and the last verdict ----

  function LastOn(acts: seq<Act>, cell: nat): Option<Act> {
    if acts == [] then None
    else if CellOf(acts[|acts| - 1].event) == cell then Some(acts[|acts| - 1])
    else LastOn(acts[..|acts| - 1], cell)
  }

  predicate IsVerdict(event: Event) {
    event.GameWon? || event.GameDraw?
  }

  function LastVerdictOf(acts: seq<Act>): Option<Act> {
    if acts == [] then None
    else if IsVerdict(acts[|acts| - 1].event) then Some(acts[|acts| - 1])
    else LastVerdictOf(acts[..|acts| - 1])
  }

  function MarkBy(last: Option<Act>, me: Address): nat {
    match last case None => 0 case Some(act) => if IsMove(act.event) && act.event.player == me then 1 else 2
  }

  function StatusBy(last: Option<Act>, me: Address): Status {
    match last case None => Active case Some(act) => if IsMove(act.event) then Verdicts(act.event, me) else Active
  }

  predicate AllMoves(acts: seq<Act>) {
    forall i :: 0 <= i < |acts| ==> IsMove(acts[i].event)
  }

  // A cell shows the last act on it, a status the last verdict.
  lemma {:induction false} BoardByLast(acts: seq<Act>, me: Address, cell: nat)
    requires AllMoves(acts) && cell < 9
    ensures BoardOf(acts, me)[cell] == MarkBy(LastOn(acts, cell), me)
  {
    if acts != [] {
      BoardByLast(acts[..|acts| - 1], me, cell);
    }
  }

  lemma {:induction false} StatusByLast(acts: seq<Act>, me: Address)
    requires AllMoves(acts)
    ensures StatusOf(acts, me) == StatusBy(LastVerdictOf(acts), me)
  {
    if acts != [] {
      StatusByLast(acts[..|acts| - 1], me);
    }
  }

  // How the last acts of the three lists hang together.
  predicate Nested(all: Option<Act>, two: Option<Act>, own: Option<Act>, s: Session) {
    && (all.None? ==> two.None?) && (two.None? ==> own.None?)
    && (all.Some? && Own(s, all.value) ==> two == all && own == all)
    && (two.Some? ==> ByTwo(s, two.value) && (Own(s, two.value) ==> own == two))
    && (own.Some? ==> Own(s, own.value) && ByTwo(s, own.value))
  }

  lemma {:induction false} LastOnNested(acts: seq<Act>, s: Session, cell: nat)
    requires AllMoves(acts)
    ensures Nested(LastOn(acts, cell), LastOn(TwoOf(acts, s), cell), LastOn(OwnOf(acts, s), cell), s)
  {
    if acts != [] {
      var n := |acts| - 1;
      LastOnNested(acts[..n], s, cell);
      var (two, own) := (TwoOf(acts[..n], s), OwnOf(acts[..n], s));
      assert (two + [acts[n]])[..|two|] == two && (own + [acts[n]])[..|own|] == own;
    }
  }

  lemma {:induction false} LastVerdictNested(acts: seq<Act>, s: Session)
    requires AllMoves(acts)
    ensures Nested(LastVerdictOf(acts), LastVerdictOf(TwoOf(acts, s)), LastVerdictOf(OwnOf(acts, s)), s)
    ensures LastVerdictOf(acts).Some? ==> IsVerdict(LastVerdictOf(acts).value.event)
    ensures LastVerdictOf(TwoOf(acts, s)).Some? ==> IsVerdict(LastVerdictOf(TwoOf(acts, s)).value.event)
    ensures LastVerdictOf(OwnOf(acts, s)).Some? ==> IsVerdict(LastVerdictOf(OwnOf(acts, s)).value.event)
  {
    if acts != [] {
      var n := |acts| - 1;
      LastVerdictNested(acts[..n], s);
      var (two, own) := (TwoOf(acts[..n], s), OwnOf(acts[..n], s));
      assert (two + [acts[n]])[..|two|] == two && (own + [acts[n]])[..|own|] == own;
    }
  }

  // ---- The conditions ----

  // On every cell the move fetched last is the session's, unless the cell is the acceptor's anyway.
  predicate CellsKept(acts: seq<Act>, s: Session) {
    forall cell :: 0 <= cell < 9 ==> CellKept(acts, s, cell)
  }

  predicate CellKept(acts: seq<Act>, s: Session, cell: nat) {
    var (last, own) := (LastOn(acts, cell), LastOn(OwnOf(acts, s), cell));
    last.None? || Own(s, last.value)
    || (own.Some? && IsMove(own.value.event) && own.value.event.player == s.acceptor)
  }

  // The verdict fetched last is the session's, unless the acceptor has won the session anyway.
  predicate VerdictKept(acts: seq<Act>, s: Session) {
    var (last, own) := (LastVerdictOf(acts), LastVerdictOf(OwnOf(acts, s)));
    last.None? || Own(s, last.value)
    || (own.Some? && own.value.event.GameWon? && own.value.event.player == s.acceptor)
  }

  // The newest action fetched of the acceptor's address is the session's.
  predicate NewestKept(acts: seq<Act>, s: Session, first: Act) {
    Own(s, LatestOf(acts, s.acceptor, first))
  }

  lemma {:induction false} FilterFacts(acts: seq<Act>, s: Session)
    requires AllMoves(acts)
    ensures AllMoves(TwoOf(acts, s)) && AllMoves(OwnOf(acts, s))
  {
    if acts != [] {
      FilterFacts(acts[..|acts| - 1], s);
    }
  }

  lemma RivalMoves(acts: seq<Act>, s: Session)
    requires Rivalry(acts, s)
    ensures AllMoves(acts)
  {
  }

  lemma {:induction false} LastIn(acts: seq<Act>, cell: nat)
    ensures LastOn(acts, cell).Some? ==> LastOn(acts, cell).value in acts
    ensures LastVerdictOf(acts).Some? ==> LastVerdictOf(acts).value in acts
  {
    if acts != [] {
      LastIn(acts[..|acts| - 1], cell);
    }
  }

  lemma {:induction false} TwoIn(acts: seq<Act>, s: Session)
    ensures forall act :: act in TwoOf(acts, s) ==> act in acts
  {
    if acts != [] {
      TwoIn(acts[..|acts| - 1], s);
    }
  }

  // The creator's board is the session's exactly when all cells are kept, and then so is the
  // acceptor's.
  lemma CellIff(acts: seq<Act>, s: Session, cell: nat)
    requires Rivalry(acts, s) && s.creator != s.acceptor && cell < 9
    ensures CellKept(acts, s, cell) <==> BoardOf(acts, s.creator)[cell] == BoardOf(OwnOf(acts, s), s.creator)[cell]
    ensures CellKept(acts, s, cell) ==>
            BoardOf(TwoOf(acts, s), s.acceptor)[cell] == BoardOf(OwnOf(acts, s), s.acceptor)[cell]
  {
    hide BoardOf;
    hide LastOn;
    RivalMoves(acts, s);
    FilterFacts(acts, s);
    LastOnNested(acts, s, cell);
    LastIn(acts, cell);
    LastIn(TwoOf(acts, s), cell);
    TwoIn(acts, s);
    BoardByLast(acts, s.creator, cell);
    BoardByLast(OwnOf(acts, s), s.creator, cell);
    BoardByLast(TwoOf(acts, s), s.acceptor, cell);
    BoardByLast(OwnOf(acts, s), s.acceptor, cell);
    assert LastOn(acts, cell).Some? ==> LastOn(acts, cell).value in acts;
  }

  lemma BoardsIff(acts: seq<Act>, s: Session)
    requires Rivalry(acts, s) && s.creator != s.acceptor
    ensures CellsKept(acts, s) <==> BoardOf(acts, s.creator) == BoardOf(OwnOf(acts, s), s.creator)
    ensures CellsKept(acts, s) ==> BoardOf(TwoOf(acts, s), s.acceptor) == BoardOf(OwnOf(acts, s), s.acceptor)
  {
    hide BoardOf;
    hide CellKept;
    hide Rivalry;
    forall cell: nat | cell < 9
      ensures CellKept(acts, s, cell) <==> BoardOf(acts, s.creator)[cell] == BoardOf(OwnOf(acts, s), s.creator)[cell]
      ensures CellKept(acts, s, cell) ==>
              BoardOf(TwoOf(acts, s), s.acceptor)[cell] == BoardOf(OwnOf(acts, s), s.acceptor)[cell]
    {
      CellIff(acts, s, cell);
    }
  }

  lemma StatusIff(acts: seq<Act>, s: Session)
    requires Rivalry(acts, s) && s.creator != s.acceptor
    ensures VerdictKept(acts, s) <==> StatusOf(acts, s.creator) == StatusOf(OwnOf(acts, s), s.creator)
    ensures VerdictKept(acts, s) ==> StatusOf(TwoOf(acts, s), s.acceptor) == StatusOf(OwnOf(acts, s), s.acceptor)
  {
    hide StatusOf;
    hide LastVerdictOf;
    RivalMoves(acts, s);
    FilterFacts(acts, s);
    LastVerdictNested(acts, s);
    LastIn(acts, 0);
    LastIn(TwoOf(acts, s), 0);
    TwoIn(acts, s);
    StatusByLast(acts, s.creator);
    StatusByLast(OwnOf(acts, s), s.creator);
    StatusByLast(TwoOf(acts, s), s.acceptor);
    StatusByLast(OwnOf(acts, s), s.acceptor);
  }

  lemma FilterStep(acts: seq<Act>, act: Act, s: Session)
    ensures OwnOf(acts + [act], s) == OwnOf(acts, s) + if Own(s, act) then [act] else []
    ensures TwoOf(acts + [act], s) == TwoOf(acts, s) + if ByTwo(s, act) then [act] else []
  {
    assert (acts + [act])[..|acts|] == acts;
  }

  lemma LatestStep(acts: seq<Act>, act: Act, me: Address, first: Act)
    ensures var before := LatestOf(acts, me, first);
            LatestOf(acts + [act], me, first) ==
            if !act.event.Foreign? && act.event.player == me && before.id.blockNumber < act.id.blockNumber then act
            else before
  {
    assert (acts + [act])[..|acts|] == acts;
  }

  // The creator's latest action is untouched by others, the acceptor's exactly when the newest
  // is the session's.
  lemma {:induction false} LatestIff(acts: seq<Act>, s: Session, first: Act)
    requires AllMoves(acts) && s.creator != s.acceptor && Own(s, first)
    ensures var (all, own) := (LatestOf(acts, s.acceptor, first), LatestOf(OwnOf(acts, s), s.acceptor, first));
            own.id.blockNumber <= all.id.blockNumber && Own(s, own) && (Own(s, all) ==> own == all)
    ensures LatestOf(TwoOf(acts, s), s.acceptor, first) == LatestOf(acts, s.acceptor, first)
  {
    if acts != [] {
      var n := |acts| - 1;
      LatestIff(acts[..n], s, first);
      var (two, own) := (TwoOf(acts[..n], s), OwnOf(acts[..n], s));
      hide OwnOf;
      hide TwoOf;
      FilterStep(acts[..n], acts[n], s);
      assert acts == acts[..n] + [acts[n]];
      LatestStep(acts[..n], acts[n], s.acceptor, first);
      LatestStep(two, acts[n], s.acceptor, first);
      LatestStep(own, acts[n], s.acceptor, first);
      hide LatestOf;
    }
  }

  lemma {:induction false} CreatorLatest(acts: seq<Act>, s: Session, first: Act)
    requires Rivalry(acts, s)
    ensures LatestOf(acts, s.creator, first) == LatestOf(OwnOf(acts, s), s.creator, first)
  {
    if acts != [] {
      var n := |acts| - 1;
      CreatorLatest(acts[..n], s, first);
      var own := OwnOf(acts[..n], s);
      assert (own + [acts[n]])[..|own|] == own;
    }
  }

  // Given the same openings, the players' games after all acts of the game are those after the
  // session's own acts exactly under the three conditions.
  lemma GamesIff(ga: ClientGame, gp: ClientGame, acts: seq<Act>, s: Session)
    requires Rivalry(acts, s) && s.creator != s.acceptor && Own(s, Act(gp.lastActionId, gp.lastActionData))
    ensures var own := OwnOf(acts, s);
            && PlayerGame(ga, acts, s.creator) == PlayerGame(ga, own, s.creator)
            && PlayerGame(gp, TwoOf(acts, s), s.acceptor) == PlayerGame(gp, own, s.acceptor)
            <==>
            && CellsKept(acts, s) && VerdictKept(acts, s)
            && NewestKept(acts, s, Act(gp.lastActionId, gp.lastActionData))
  {
    hide BoardOf;
    hide StatusOf;
    hide LatestOf;
    hide CellsKept;
    hide VerdictKept;
    hide OwnOf;
    hide TwoOf;
    var first := Act(gp.lastActionId, gp.lastActionData);
    RivalMoves(acts, s);
    BoardsIff(acts, s);
    StatusIff(acts, s);
    LatestIff(acts, s, first);
    CreatorLatest(acts, s, Act(ga.lastActionId, ga.lastActionData));
  }

  // ---- The opening of a contested game ----

  // The last acceptance by player p.
  function LastBy(accs: seq<Act>, p: Address): Option<Act> {
    if accs == [] then None
    else
      var last := accs[|accs| - 1];
      if last.event.AcceptedGame? && last.event.player == p then Some(last) else LastBy(accs[..|accs| - 1], p)
  }

  predicate Invitations(accs: seq<Act>, s: Session) {
    forall i :: 0 <= i < |accs| ==>
      && IsAcceptance(accs[i].event, s.chain, s.gameId)
      && accs[i].event.opponent == s.creator && accs[i].event.player != s.creator
  }

  // The creator's game after the acceptances: joined by whoever is fetched last.
  function InvitedGame(n0: Act, accs: seq<Act>): ClientGame {
    if accs == [] || !accs[|accs| - 1].event.AcceptedGame? then ClientGame(None, None, EMPTY, Active, n0.id, n0.event)
    else
      var last := accs[|accs| - 1];
      ClientGame(Some(last.event.player), Some(last.id.chainId), EMPTY, Active, n0.id, n0.event)
  }

  // The map after the two opening passes.
  predicate Opened(g: Games, s: Session, n0: Act, accs: seq<Act>) {
    && s.CreatorKey() in g && g[s.CreatorKey()] == InvitedGame(n0, accs)
    && (forall k :: k in g && k != s.CreatorKey() ==>
         && k.chainId == s.chain && k.gameId == s.gameId && LastBy(accs, k.player).Some?
         && g[k] == OpenGame(s.creator, s.chain, LastBy(accs, k.player).value))
    && (forall i :: 0 <= i < |accs| && accs[i].event.AcceptedGame? ==>
        Key(s.chain, s.gameId, accs[i].event.player) in g)
  }

  lemma OpenedStep(g: Games, s: Session, n0: Act, accs: seq<Act>, act: Act)
    requires Opened(g, s, n0, accs) && Invitations(accs + [act], s)
    ensures Record(g, act).Some? && Opened(Record(g, act).value, s, n0, accs + [act])
  {
    var all := accs + [act];
    assert all[|accs|] == act && all[..|accs|] == accs;
    var g' := Record(g, act).value;
    forall p: Address ensures LastBy(all, p) == if p == act.event.player then Some(act) else LastBy(accs, p) {
    }
    forall i | 0 <= i < |all| && all[i].event.AcceptedGame? ensures Key(s.chain, s.gameId, all[i].event.player) in g' {
      if i < |accs| {
        assert all[i] == accs[i];
      }
    }
  }

  lemma {:induction false} OpenedAfter(s: Session, n0: Act, accs: seq<Act>)
    requires n0.event == NewGame(s.chain, s.gameId, s.creator) && Invitations(accs, s)
    ensures Replay(map[], [n0] + accs).Some? && Opened(Replay(map[], [n0] + accs).value, s, n0, accs)
  {
    hide Opened;
    if accs == [] {
      OpenedFirst(s, n0);
    } else {
      var n := |accs| - 1;
      OpenedAfter(s, n0, accs[..n]);
      assert ([n0] + accs)[..n + 1] == [n0] + accs[..n];
      assert accs == accs[..n] + [accs[n]];
      OpenedStep(Replay(map[], [n0] + accs[..n]).value, s, n0, accs[..n], accs[n]);
    }
  }

  lemma OpenedFirst(s: Session, n0: Act)
    requires n0.event == NewGame(s.chain, s.gameId, s.creator)
    ensures Replay(map[], [n0] + []).Some? && Opened(Replay(map[], [n0] + []).value, s, n0, [])
  {
    assert [n0] + [] == [n0];
    ReplayOne(map[], [], n0);
    assert [] + [n0] == [n0];
  }

  // ---- The moves of a contested game ----

  lemma RecordMoveKeeps(g: Games, act: Act)
    requires IsMove(act.event) && Record(g, act).Some?
    ensures var g' := Record(g, act).value;
            g'.Keys == g.Keys && forall k :: k in g ==>
              g'[k].opponent == g[k].opponent && g'[k].opponentChainId == g[k].opponentChainId
  {
  }

  // Moves leave everybody's opponent as it is.
  lemma {:induction false} MovesKeepOpponents(g: Games, acts: seq<Act>)
    requires AllMoves(acts) && Replay(g, acts).Some?
    ensures var g' := Replay(g, acts).value;
            g'.Keys == g.Keys && forall k :: k in g ==>
              g'[k].opponent == g[k].opponent && g'[k].opponentChainId == g[k].opponentChainId
  {
    hide Record;
    if acts != [] {
      var n := |acts| - 1;
      MovesKeepOpponents(g, acts[..n]);
      RecordMoveKeeps(Replay(g, acts[..n]).value, acts[n]);
    }
  }

  // The session's two players face each other, everybody else faces the creator.
  predicate Facing(g: Games, s: Session) {
    && s.CreatorKey() in g && s.AcceptorKey() in g && s.creator != s.acceptor
    && g[s.CreatorKey()].opponent == Some(s.acceptor)
    && (forall k :: k in g && k.chainId == s.chain && k.gameId == s.gameId && k.player != s.creator ==>
         g[k].opponent == Some(s.creator))
  }

  // One move of the game, in terms of the two players' games.
  lemma RivalRecord(g: Games, act: Act, s: Session)
    requires Facing(g, s) && IsMove(act.event) && Mine(s.chain, s.gameId, act.event) && Record(g, act).Some?
    ensures var (e, g') := (act.event, Record(g, act).value);
            var (ga, gp) := (g[s.CreatorKey()], g[s.AcceptorKey()]);
            && e.x < 3 && e.y < 3
            && s.CreatorKey() in g' && s.AcceptorKey() in g'
            && g'[s.CreatorKey()] == (if e.player == s.creator
                 then Progressed(ga.(moves := ga.moves[CellOf(e) := 1], status := StatusAfter(e, ga.status, true)), act)
                 else ga.(moves := ga.moves[CellOf(e) := 2], status := StatusAfter(e, ga.status, false)))
            && g'[s.AcceptorKey()] == (if e.player == s.acceptor
                 then Progressed(gp.(moves := gp.moves[CellOf(e) := 1], status := StatusAfter(e, gp.status, true)), act)
                 else if e.player == s.creator
                 then gp.(moves := gp.moves[CellOf(e) := 2], status := StatusAfter(e, gp.status, false))
                 else gp)
  {
  }

  // The replay of any moves of the game gives the creator the game against everybody, and the
  // acceptor the game between the session's two addresses.
  lemma {:induction false} RivalReplay(g: Games, acts: seq<Act>, s: Session)
    requires Facing(g, s) && Replay(g, acts).Some?
    requires AllMoves(acts) && forall i :: 0 <= i < |acts| ==> Mine(s.chain, s.gameId, acts[i].event)
    requires g[s.CreatorKey()].moves == EMPTY && g[s.AcceptorKey()].moves == EMPTY
    requires g[s.CreatorKey()].status == Active && g[s.AcceptorKey()].status == Active
    ensures var g' := Replay(g, acts).value;
            && Facing(g', s)
            && g'[s.CreatorKey()] == PlayerGame(g[s.CreatorKey()], acts, s.creator)
            && g'[s.AcceptorKey()] == PlayerGame(g[s.AcceptorKey()], TwoOf(acts, s), s.acceptor)
  {
    if acts != [] {
      hide Record;
      var n := |acts| - 1;
      RivalReplay(g, acts[..n], s);
      var h := Replay(g, acts[..n]).value;
      RivalRecord(h, acts[n], s);
      RecordMoveKeeps(h, acts[n]);
      var two := TwoOf(acts[..n], s);
      assert (two + [acts[n]])[..|two|] == two;
      hide Replay;
    }
  }

  // ---- The fetched logs of a contested game ----

  lemma {:induction false} OwnIsHome(acts: seq<Act>, s: Session, player: Address, home: nat)
    requires s.creator != s.acceptor
    requires (player == s.creator && home == s.chain) || (player == s.acceptor && home == s.acceptChain)
    ensures var q := Moves(s.chain, s.gameId, player);
            SelectActs(OwnOf(Project(acts, s.chain, s.gameId), s), q) == SelectHome(acts, q, home)
  {
    if acts != [] {
      var n := |acts| - 1;
      var q := Moves(s.chain, s.gameId, player);
      OwnIsHome(acts[..n], s, player, home);
      var mine := Project(acts[..n], s.chain, s.gameId);
      FilterStep(mine, acts[n], s);
      SelectActsOne(OwnOf(mine, s), acts[n], q);
      hide OwnOf;
      hide SelectActs;
    }
  }

  // One player's own moves among the three move passes are that player's tape.
  lemma OwnTape(w: World, order: seq<nat>, s: Session, player: Address, home: nat, tape: seq<Entry>)
    requires Ordered(w, order) && Complete(w, order) && home in w && Settled(w[home])
    requires tape == Select(Sealed(w, home), Moves(s.chain, s.gameId, player)) && InSealed(w, home, tape)
    requires forall i :: 0 <= i < |tape| ==> IsMove(tape[i].event)
    requires forall i :: 0 <= i < |tape| - 1 ==> tape[i].event.MovePlayed?
    ensures SelectHome(MoveActs(w, order), Moves(s.chain, s.gameId, player), home) == ToActs(w, home, tape)
  {
    hide Select;
    hide SelectHome;
    hide Acts;
    hide OfKind;
    hide ToActs;
    hide IsMove;
    var q := Moves(s.chain, s.gameId, player);
    var (m, o, d) := (Acts(w, order, MoveLogs), Acts(w, order, WonLogs), Acts(w, order, DrawLogs));
    AllHomeActs(w, order, q, MoveLogs, home);
    AllHomeActs(w, order, q, WonLogs, home);
    AllHomeActs(w, order, q, DrawLogs, home);
    SelectHomeAppend(m, o, q, home);
    SelectHomeAppend(m + o, d, q, home);
    ToActsAppend(w, home, OfKind(tape, MoveLogs), OfKind(tape, WonLogs));
    ToActsAppend(w, home, OfKind(tape, MoveLogs) + OfKind(tape, WonLogs), OfKind(tape, DrawLogs));
    KindsRejoin(tape);
  }

  // The game has no creator but the session's.
  lemma OneCreator(w: World, s: Session, p: Address)
    requires SessionOk(w, s) && Created(w, s.chain, s.gameId, p)
    ensures p == s.creator
  {
    assert GoodTapes(s, TapesIn(w, s));
  }

  // A player's view of the creator's game lies on the game's chain if the player is the creator.
  lemma CreatorAtHome(w: World, s: Session, ch: nat, k: Key)
    requires Inv(w) && SessionOk(w, s) && ch in w && k in w[ch].storage.games && k == s.CreatorKey()
    ensures ch == s.chain
  {
    assert ChainOk(w, ch);
    var v := w[ch].storage.games[k];
    assert ViewOk(w, ch, k, v);
    if ch != s.chain {
      OneCreator(w, s, v.opponent);
    }
  }

  lemma MovesRival(w: World, order: seq<nat>, s: Session)
    requires Inv(w) && SessionOk(w, s) && Complete(w, order) && Ordered(w, order)
    ensures Rivalry(Project(MoveActs(w, order), s.chain, s.gameId), s)
    ensures forall act :: act in Project(MoveActs(w, order), s.chain, s.gameId) ==> act.id.origin == SELF
  {
    hide Acts;
    hide SessionOk;
    var acts := Project(MoveActs(w, order), s.chain, s.gameId);
    ProjectSound(MoveActs(w, order), s.chain, s.gameId);
    forall act | act in acts
      ensures && IsMove(act.event) && Mine(s.chain, s.gameId, act.event) && act.event.x < 3 && act.event.y < 3
              && act.id.origin == SELF && (act.event.player == s.creator || act.event.GameDraw? ==> Own(s, act)) {
      var k := if act in Acts(w, order, MoveLogs) then MoveLogs
               else if act in Acts(w, order, WonLogs) then WonLogs else DrawLogs;
      var ch, i := FetchedAt(w, order, k, act);
      var e := w[ch].logs[i];
      assert ChainOk(w, ch);
      assert EntryOk(w, ch, e);
      if e.event.GameDraw? {
        OneCreator(w, s, e.event.player);
      } else if e.event.player == s.creator {
        CreatorAtHome(w, s, ch, s.CreatorKey());
      }
    }
    forall i | 0 <= i < |acts| ensures acts[i] in acts {
    }
  }

  lemma AcceptancesInvited(w: World, order: seq<nat>, s: Session)
    requires Inv(w) && SessionOk(w, s) && Complete(w, order) && Ordered(w, order)
    ensures var accs := Project(Acts(w, order, AcceptedLogs), s.chain, s.gameId);
            Invitations(accs, s) && forall act :: act in accs ==> act.id.origin == SELF
  {
    hide Acts;
    hide SessionOk;
    var accs := Project(Acts(w, order, AcceptedLogs), s.chain, s.gameId);
    ProjectSound(Acts(w, order, AcceptedLogs), s.chain, s.gameId);
    forall act | act in accs
      ensures && IsAcceptance(act.event, s.chain, s.gameId) && act.id.origin == SELF
              && act.event.opponent == s.creator && act.event.player != s.creator {
      var ch, i := FetchedAt(w, order, AcceptedLogs, act);
      assert ChainOk(w, ch);
      assert EntryOk(w, ch, w[ch].logs[i]);
      OneCreator(w, s, act.event.opponent);
    }
    forall i | 0 <= i < |accs| ensures accs[i] in accs {
    }
  }

  lemma {:induction false} ProjectIsHome(acts: seq<Act>, q: Query, home: nat)
    requires forall act :: act in acts && Mine(QueryGame(q).0, QueryGame(q).1, act.event) ==>
               act.id.chainId == home && Hits(q, Entry(0, 0, act.id.origin, act.event))
    ensures Project(acts, QueryGame(q).0, QueryGame(q).1) == SelectHome(acts, q, home)
  {
    if acts != [] {
      var n := |acts| - 1;
      assert acts[n] in acts;
      ProjectIsHome(acts[..n], q, home);
    }
  }

  // The NewGame pass yields the session's NewGame, if it is sealed.
  lemma NewGamePass(w: World, order: seq<nat>, s: Session, news: seq<Entry>)
    requires Inv(w) && s.In(w) && Complete(w, order) && Ordered(w, order)
    requires news == Select(Sealed(w, s.chain), NewGames(s.chain, s.gameId)) && InSealed(w, s.chain, news)
    ensures Project(Acts(w, order, NewGameLogs), s.chain, s.gameId) == ToActs(w, s.chain, news)
  {
    hide Acts;
    hide Select;
    hide ToActs;
    hide OfKind;
    hide SelectHome;
    var q := NewGames(s.chain, s.gameId);
    InvSettled(w, order);
    forall act | act in Acts(w, order, NewGameLogs) && Mine(s.chain, s.gameId, act.event)
      ensures act.id.chainId == s.chain && Hits(q, Entry(0, 0, act.id.origin, act.event)) {
      var ch, i := FetchedAt(w, order, NewGameLogs, act);
      assert ChainOk(w, ch);
      assert EntryOk(w, ch, w[ch].logs[i]);
    }
    ProjectIsHome(Acts(w, order, NewGameLogs), q, s.chain);
    AllHomeActs(w, order, q, NewGameLogs, s.chain);
    SelectSound(Sealed(w, s.chain), q);
    AllOfKind(news, NewGameLogs);
  }

  lemma {:induction false} HomeOfProject(acts: seq<Act>, s: Session)
    ensures var q := Acceptances(s.chain, s.gameId, s.acceptor);
            SelectHome(Project(acts, s.chain, s.gameId), q, s.acceptChain) == SelectHome(acts, q, s.acceptChain)
  {
    if acts != [] {
      var n := |acts| - 1;
      HomeOfProject(acts[..n], s);
      var mine := Project(acts[..n], s.chain, s.gameId);
      assert (mine + [acts[n]])[..|mine|] == mine;
    }
  }

  lemma {:induction false} HomeIn(acts: seq<Act>, q: Query, home: nat, act: Act)
    ensures act in SelectHome(acts, q, home) <==>
            act in acts && act.id.chainId == home && Hits(q, Entry(0, 0, act.id.origin, act.event))
  {
    if acts != [] {
      HomeIn(acts[..|acts| - 1], q, home, act);
      assert act in acts <==> act in acts[..|acts| - 1] || act == acts[|acts| - 1];
    }
  }

  lemma OwnAcceptances(w: World, order: seq<nat>, s: Session, acc: seq<Entry>)
    requires Inv(w) && s.In(w) && Complete(w, order) && Ordered(w, order)
    requires acc == Select(Sealed(w, s.acceptChain), Acceptances(s.chain, s.gameId, s.acceptor))
    requires InSealed(w, s.acceptChain, acc)
    ensures SelectHome(Project(Acts(w, order, AcceptedLogs), s.chain, s.gameId),
                       Acceptances(s.chain, s.gameId, s.acceptor), s.acceptChain) == ToActs(w, s.acceptChain, acc)
  {
    hide Acts;
    hide Select;
    hide SelectHome;
    hide Project;
    hide ToActs;
    hide OfKind;
    var q := Acceptances(s.chain, s.gameId, s.acceptor);
    InvSettled(w, order);
    hide Inv;
    SelectSound(Sealed(w, s.acceptChain), q);
    AllOfKind(acc, AcceptedLogs);
    AllHomeActs(w, order, q, AcceptedLogs, s.acceptChain);
    HomeOfProject(Acts(w, order, AcceptedLogs), s);
  }

  // Among the acceptances of the game the session's own is the one on its tape.
  lemma OwnAcceptance(w: World, order: seq<nat>, s: Session, acc: seq<Entry>, act: Act)
    requires Inv(w) && s.In(w) && SessionOk(w, s) && Complete(w, order) && Ordered(w, order)
    requires acc == Select(Sealed(w, s.acceptChain), Acceptances(s.chain, s.gameId, s.acceptor))
    requires InSealed(w, s.acceptChain, acc) && |acc| <= 1
    ensures var accs := Project(Acts(w, order, AcceptedLogs), s.chain, s.gameId);
            act in accs && Own(s, act) <==> acc != [] && act == ToAct(w, s.acceptChain, acc[0])
  {
    hide Acts;
    hide Select;
    hide SelectHome;
    hide SessionOk;
    hide Project;
    hide Inv;
    hide Complete;
    hide Ordered;
    hide ToActs;
    var q := Acceptances(s.chain, s.gameId, s.acceptor);
    var accs := Project(Acts(w, order, AcceptedLogs), s.chain, s.gameId);
    AcceptancesInvited(w, order, s);
    OwnAcceptances(w, order, s, acc);
    SingleAct(w, s.acceptChain, acc);
    HomeIn(accs, q, s.acceptChain, act);
    if act in accs {
      assert IsAcceptance(act.event, s.chain, s.gameId) && act.id.origin == SELF by {
        var i :| 0 <= i < |accs| && accs[i] == act;
      }
    }
  }

  // The session's own moves among all moves of the game tell its tapes.
  lemma OwnInterleave(w: World, order: seq<nat>, s: Session)
    requires Inv(w) && SessionOk(w, s) && Complete(w, order) && Ordered(w, order) && Fetchable(w, s)
    requires AnsweredArePlain(SealedTapes(w, s).a, SealedTapes(w, s).p)
    ensures Interleaves(w, s, SealedTapes(w, s), OwnOf(Project(MoveActs(w, order), s.chain, s.gameId), s))
  {
    hide Legal;
    hide Announced;
    hide RisingFrom;
    hide History;
    hide Select;
    hide SelectActs;
    hide SelectHome;
    hide Acts;
    hide ToActs;
    hide SessionOk;
    var t := SealedTapes(w, s);
    var movs := Project(MoveActs(w, order), s.chain, s.gameId);
    InvSettled(w, order);
    MovesRival(w, order, s);
    OwnTape(w, order, s, s.creator, s.chain, t.a);
    OwnTape(w, order, s, s.acceptor, s.acceptChain, t.p);
    OwnIsHome(MoveActs(w, order), s, s.creator, s.chain);
    OwnIsHome(MoveActs(w, order), s, s.acceptor, s.acceptChain);
    OwnFacts(movs, s);
  }

  lemma {:induction false} OwnFacts(movs: seq<Act>, s: Session)
    requires Rivalry(movs, s) && forall act :: act in movs ==> act.id.origin == SELF
    ensures var own := OwnOf(movs, s);
            && MovesOfTwo(own, s.chain, s.gameId, s.creator, s.acceptor)
            && forall i :: 0 <= i < |own| ==> own[i].id.origin == SELF
  {
    if movs != [] {
      assert movs[|movs| - 1] in movs;
      OwnFacts(movs[..|movs| - 1], s);
    }
  }

  // ---- The theorem ----

  // What the replay shows under the two players' keys is what the session expects.
  ghost predicate ShowsPlayers(w: World, games: Games, s: Session) {
    && Fetchable(w, s)
    && ShowsKey(games, ExpectedGames(w, s), s.CreatorKey())
    && ShowsKey(games, ExpectedGames(w, s), s.AcceptorKey())
  }

  predicate ShowsKey(games: Games, expected: Games, k: Key) {
    (k in games <==> k in expected) && (k in games ==> games[k] == expected[k])
  }

  // Of all the acceptances and moves of the game: those fetched last, and the newest of the
  // acceptor's address, are the session's.
  predicate OwnPrevails(accs: seq<Act>, movs: seq<Act>, s: Session) {
    && (accs == [] || (Own(s, accs[|accs| - 1]) && NewestKept(movs, s, accs[|accs| - 1])))
    && CellsKept(movs, s) && VerdictKept(movs, s)
  }

  ghost predicate Prevails(w: World, order: seq<nat>, s: Session)
    requires Ordered(w, order)
  {
    OwnPrevails(Project(Acts(w, order, AcceptedLogs), s.chain, s.gameId),
                Project(MoveActs(w, order), s.chain, s.gameId), s)
  }

  // No acceptances, no moves: a sound list of the game without acceptances has none.
  lemma QuietGame(w: World, order: seq<nat>, s: Session)
    requires Inv(w) && Backed(w) && Complete(w, order) && Ordered(w, order)
    ensures var (ns, accs, movs) := (Project(Acts(w, order, NewGameLogs), s.chain, s.gameId),
                                     Project(Acts(w, order, AcceptedLogs), s.chain, s.gameId),
                                     Project(MoveActs(w, order), s.chain, s.gameId));
            (ns == [] ==> accs == []) && (accs == [] ==> movs == [])
  {
    hide Acts;
    hide Backed;
    hide Inv;
    var (ns, accs, movs) := (Acts(w, order, NewGameLogs), Acts(w, order, AcceptedLogs), MoveActs(w, order));
    ProjectSound(accs, s.chain, s.gameId);
    ProjectSound(movs, s.chain, s.gameId);
    var (mine, moves) := (Project(accs, s.chain, s.gameId), Project(movs, s.chain, s.gameId));
    if mine != [] {
      var act := mine[0];
      assert act in mine;
      var ch, i := FetchedAt(w, order, AcceptedLogs, act);
      AcceptanceEnabled(w, order, act);
      var e := act.event;
      var b :| b in ns && (Creates(b, e.chainId, e.gameId, e.opponent) || Involves(b, e.chainId, e.gameId, e.opponent));
      ProjectComplete(ns, s.chain, s.gameId, b);
    }
    if moves != [] {
      var act := moves[0];
      assert act in moves;
      var k := if act in Acts(w, order, MoveLogs) then MoveLogs
               else if act in Acts(w, order, WonLogs) then WonLogs else DrawLogs;
      MoveEnabled(w, order, k, act);
      var ch, i := FetchedAt(w, order, k, act);
      var b :| b in accs && Involves(b, act.event.chainId, act.event.gameId, act.event.player);
      ProjectComplete(accs, s.chain, s.gameId, b);
    }
  }

  lemma {:induction false} ProjectComplete(acts: seq<Act>, c: nat, n: nat, act: Act)
    requires act in acts && Mine(c, n, act.event)
    ensures act in Project(acts, c, n)
  {
    var l := |acts| - 1;
    if act != acts[l] {
      ProjectComplete(acts[..l], c, n, act);
    }
  }

  // The expected games are what the session's own moves make of its openings.
  lemma ExpectedFromOwn(w: World, s: Session, own: seq<Act>)
    requires Fetchable(w, s) && SealedTapes(w, s).acc != [] && Interleaves(w, s, SealedTapes(w, s), own)
    requires AnsweredArePlain(SealedTapes(w, s).a, SealedTapes(w, s).p)
    ensures var t := SealedTapes(w, s);
            var (n0, a0) := (ToAct(w, s.chain, t.news[0]), ToAct(w, s.acceptChain, t.acc[0]));
            && s.CreatorKey() in ExpectedGames(w, s) && s.AcceptorKey() in ExpectedGames(w, s)
            && ExpectedGames(w, s)[s.CreatorKey()]
               == PlayerGame(OpenGame(s.acceptor, s.acceptChain, n0), own, s.creator)
            && ExpectedGames(w, s)[s.AcceptorKey()] == PlayerGame(OpenGame(s.creator, s.chain, a0), own, s.acceptor)
  {
    hide Legal;
    hide Announced;
    hide RisingFrom;
    hide Play;
    hide History;
    hide BoardOf;
    hide StatusOf;
    hide LatestOf;
    hide SealedTapes;
    hide Interleaves;
    var t := SealedTapes(w, s);
    assert s.CreatorKey() != s.AcceptorKey();
    RebuiltBoards(w, s, t, own);
    RebuiltStatus(w, s, t, own, s.creator);
    RebuiltStatus(w, s, t, own, s.acceptor);
    RebuiltLatest(w, s, t, own);
  }

  // Somebody else's acceptance is fetched last: the creator is shown the wrong opponent.
  lemma WrongOpponent(w: World, g: Games, movs: seq<Act>, s: Session, n0: Act, accs: seq<Act>)
    requires Fetchable(w, s) && Opened(g, s, n0, accs) && AllMoves(movs) && Replay(g, movs).Some?
    requires accs != [] && Invitations(accs, s) && !Own(s, accs[|accs| - 1])
    ensures !ShowsKey(Replay(g, movs).value, ExpectedGames(w, s), s.CreatorKey())
  {
    hide Legal;
    hide Announced;
    hide RisingFrom;
    hide Play;
    hide History;
    hide StatusFor;
    MovesKeepOpponents(g, movs);
    assert s.CreatorKey() != s.AcceptorKey();
    assert IsAcceptance(accs[|accs| - 1].event, s.chain, s.gameId);
  }

  // The session's own acceptance is fetched last: the two players face each other.
  lemma RightOpponent(w: World, g: Games, movs: seq<Act>, s: Session, n0: Act, accs: seq<Act>)
    requires Fetchable(w, s) && Opened(g, s, n0, accs) && Rivalry(movs, s) && Replay(g, movs).Some?
    requires accs != [] && Invitations(accs, s) && Own(s, accs[|accs| - 1])
    requires var t := SealedTapes(w, s);
             && t.acc != [] && accs[|accs| - 1] == ToAct(w, s.acceptChain, t.acc[0])
             && n0 == ToAct(w, s.chain, t.news[0])
             && AnsweredArePlain(t.a, t.p) && Interleaves(w, s, t, OwnOf(movs, s))
    ensures ShowsPlayers(w, Replay(g, movs).value, s) <==>
            CellsKept(movs, s) && VerdictKept(movs, s) && NewestKept(movs, s, accs[|accs| - 1])
  {
    hide CellsKept;
    hide VerdictKept;
    hide NewestKept;
    hide PlayerGame;
    hide Replay;
    hide ExpectedGames;
    hide Interleaves;
    hide SealedTapes;
    hide OwnOf;
    hide TwoOf;
    var a0 := accs[|accs| - 1];
    assert IsAcceptance(a0.event, s.chain, s.gameId);
    var (ga, gp) := (OpenGame(s.acceptor, s.acceptChain, n0), OpenGame(s.creator, s.chain, a0));
    assert s.CreatorKey() != s.AcceptorKey();
    assert LastBy(accs, s.acceptor) == Some(a0);
    assert g[s.CreatorKey()] == ga && g[s.AcceptorKey()] == gp;
    RivalMoves(movs, s);
    RivalReplay(g, movs, s);
    ExpectedFromOwn(w, s, OwnOf(movs, s));
    assert Act(gp.lastActionId, gp.lastActionData) == a0;
    GamesIff(ga, gp, movs, s);
  }

  // In any reachable state, with arbitrary rivals in the session's own game: the games shown under
  // the session's two keys are the expected ones exactly if the session's acceptance is fetched
  // last, no rival move is fetched last on a cell that is not the acceptor's, no rival win is
  // fetched last unless the acceptor has won, and the acceptor's newest action is the session's.
  lemma ShownIff(w: World, order: seq<nat>, s: Session)
    requires Inv(w) && SessionOk(w, s) && Backed(w) && Complete(w, order) && Ordered(w, order) && Fetchable(w, s)
    requires Replay(map[], AllActs(w, order)).Some?
    ensures ShowsPlayers(w, Replay(map[], AllActs(w, order)).value, s) <==> Prevails(w, order, s)
  {
    hide Inv;
    hide Backed;
    hide SessionOk;
    hide Complete;
    hide Acts;
    hide AllActs;
    hide Replay;
    hide ExpectedGames;
    hide Legal;
    hide Announced;
    hide RisingFrom;
    hide History;
    hide OnBoard;
    hide Rivalry;
    hide Interleaves;
    hide AnsweredArePlain;
    hide Opened;
    hide CellsKept;
    hide VerdictKept;
    hide NewestKept;
    hide SealedTapes;
    hide ToActs;
    var t := SealedTapes(w, s);
    var accs := Project(Acts(w, order, AcceptedLogs), s.chain, s.gameId);
    var movs := Project(MoveActs(w, order), s.chain, s.gameId);
    var games := Replay(map[], AllActs(w, order)).value;
    var mine := Project(AllActs(w, order), s.chain, s.gameId);
    ReplayProject(AllActs(w, order), s.chain, s.gameId);
    var shown := Replay(map[], mine).value;
    RestrictShows(w, games, shown, s);
    ProjectAll(w, order, s);
    SealedNewGame(w, order, s);
    QuietGame(w, order, s);
    MovesRival(w, order, s);
    AcceptancesInvited(w, order, s);
    if t.news == [] {
      assert mine == [] + [] + [];
      assert mine == [];
      NothingShown(w, s, movs);
    } else {
      var n0 := ToAct(w, s.chain, t.news[0]);
      var ns := [n0];
      OpenedAfter(s, n0, accs);
      var g := Replay(map[], ns + accs).value;
      ReplayAppend(map[], ns + accs, movs);
      RivalMoves(movs, s);
      if accs == [] {
        assert mine == ns + [] + [];
        InvitationShown(w, order, s, g, n0, movs);
      } else if !Own(s, accs[|accs| - 1]) {
        WrongOpponent(w, g, movs, s, n0, accs);
      } else {
        SealedOwnAcceptance(w, order, s);
        OwnTapes(w, order, s);
        RightOpponent(w, g, movs, s, n0, accs);
      }
    }
  }

  lemma RestrictShows(w: World, games: Games, shown: Games, s: Session)
    requires Restrict(games, s.chain, s.gameId) == shown
    ensures ShowsPlayers(w, games, s) <==> ShowsPlayers(w, shown, s)
  {
    hide ExpectedGames;
    hide Fetchable;
    assert forall k :: k in shown <==> k in games && k.chainId == s.chain && k.gameId == s.gameId;
  }

  lemma SealedNewGame(w: World, order: seq<nat>, s: Session)
    requires Inv(w) && Complete(w, order) && Ordered(w, order) && Fetchable(w, s)
    ensures var t := SealedTapes(w, s);
            Project(Acts(w, order, NewGameLogs), s.chain, s.gameId)
            == if t.news == [] then [] else [ToAct(w, s.chain, t.news[0])]
    ensures var t := SealedTapes(w, s);
            t.news != [] ==> ToAct(w, s.chain, t.news[0]).event == NewGame(s.chain, s.gameId, s.creator)
  {
    hide Legal;
    hide Announced;
    hide RisingFrom;
    hide History;
    hide OnBoard;
    hide Acts;
    hide ToActs;
    hide Inv;
    NewGamePass(w, order, s, SealedTapes(w, s).news);
    SingleAct(w, s.chain, SealedTapes(w, s).news);
  }

  lemma SealedOwnAcceptance(w: World, order: seq<nat>, s: Session)
    requires Inv(w) && SessionOk(w, s) && Complete(w, order) && Ordered(w, order) && Fetchable(w, s)
    requires var accs := Project(Acts(w, order, AcceptedLogs), s.chain, s.gameId);
             accs != [] && Own(s, accs[|accs| - 1])
    ensures var accs := Project(Acts(w, order, AcceptedLogs), s.chain, s.gameId);
            SealedTapes(w, s).acc != [] && accs[|accs| - 1] == ToAct(w, s.acceptChain, SealedTapes(w, s).acc[0])
  {
    hide Legal;
    hide Announced;
    hide RisingFrom;
    hide History;
    hide OnBoard;
    hide Acts;
    hide Inv;
    hide SessionOk;
    var accs := Project(Acts(w, order, AcceptedLogs), s.chain, s.gameId);
    OwnAcceptance(w, order, s, SealedTapes(w, s).acc, accs[|accs| - 1]);
  }

  lemma OwnTapes(w: World, order: seq<nat>, s: Session)
    requires Inv(w) && SessionOk(w, s) && Complete(w, order) && Ordered(w, order) && Fetchable(w, s)
    ensures var t := SealedTapes(w, s);
            AnsweredArePlain(t.a, t.p) && Interleaves(w, s, t, OwnOf(Project(MoveActs(w, order), s.chain, s.gameId), s))
  {
    hide Acts;
    hide Inv;
    hide SessionOk;
    hide SealedTapes;
    hide Legal;
    hide RisingFrom;
    hide Interleaves;
    var t := SealedTapes(w, s);
    TapesAreMoves(s, t);
    AllButLastPlayed(t.a, t.p);
    OwnInterleave(w, order, s);
  }

  lemma NothingShown(w: World, s: Session, movs: seq<Act>)
    requires Fetchable(w, s) && SealedTapes(w, s).news == []
    ensures Replay(map[], []).Some? && ShowsPlayers(w, Replay(map[], []).value, s)
    ensures OwnPrevails([], [], s)
  {
  }

  // An invitation nobody has accepted yet.
  lemma InvitationShown(w: World, order: seq<nat>, s: Session, g: Games, n0: Act, movs: seq<Act>)
    requires Fetchable(w, s) && Opened(g, s, n0, []) && SealedTapes(w, s).news != []
    requires n0 == ToAct(w, s.chain, SealedTapes(w, s).news[0])
    requires Inv(w) && SessionOk(w, s) && Complete(w, order) && Ordered(w, order)
    requires Project(Acts(w, order, AcceptedLogs), s.chain, s.gameId) == []
    ensures Replay(g, []).Some? && ShowsPlayers(w, Replay(g, []).value, s)
    ensures OwnPrevails([], [], s)
  {
    hide Legal;
    hide Announced;
    hide RisingFrom;
    hide History;
    hide OnBoard;
    hide Acts;
    hide Inv;
    hide SessionOk;
    hide Complete;
    var t := SealedTapes(w, s);
    if t.acc != [] {
      OwnAcceptance(w, order, s, t.acc, ToAct(w, s.acceptChain, t.acc[0]));
    }
    assert t.acc == [] && t.a == [];
    assert s.CreatorKey() != s.AcceptorKey();
  }

  // The same for every honest run.
  lemma ReplayShowsIff(w: World, steps: seq<Step>, order: seq<nat>, s: Session)
    requires Initial(w) && HonestRun(w, s, steps) && Complete(Run(w, steps), order)
    ensures Ordered(Run(w, steps), order) && Replay(map[], AllActs(Run(w, steps), order)).Some?
    ensures var u := Run(w, steps);
            ShowsPlayers(u, Replay(map[], AllActs(u, order)).value, s) <==> Prevails(u, order, s)
  {
    hide HonestRun;
    hide SessionOk;
    hide Inv;
    hide Replay;
    hide AllActs;
    hide Run;
    hide Fetchable;
    hide ShowsPlayers;
    hide Prevails;
    hide Backed;
    var u := Run(w, steps);
    ReplayNeverThrows(w, steps, order);
    RunBacked(w, steps);
    HonestSession(w, s, steps);
    SessionFetchable(u, s);
    ShownIff(u, order, s);
  }

  // When rivals have accepted but not moved, only the last acceptance counts.
  lemma RivalsWithoutMoves(accs: seq<Act>, movs: seq<Act>, s: Session)
    requires Rivalry(movs, s) && forall i :: 0 <= i < |movs| ==> Own(s, movs[i])
    ensures OwnPrevails(accs, movs, s) <==> accs == [] || Own(s, accs[|accs| - 1])
  {
    hide Rivalry;
    forall cell: nat ensures LastOn(movs, cell).Some? ==> Own(s, LastOn(movs, cell).value) {
      LastIn(movs, cell);
    }
    LastIn(movs, 0);
    if accs != [] && Own(s, accs[|accs| - 1]) {
      LatestOwn(movs, s, accs[|accs| - 1]);
    }
  }

  lemma {:induction false} LatestOwn(movs: seq<Act>, s: Session, first: Act)
    requires Own(s, first) && forall i :: 0 <= i < |movs| ==> Own(s, movs[i])
    ensures Own(s, LatestOf(movs, s.acceptor, first))
  {
    if movs != [] {
      LatestOwn(movs[..|movs| - 1], s, first);
    }
  }
}
