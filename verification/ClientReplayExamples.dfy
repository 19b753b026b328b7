// A rival's acceptance on another chain: what the client shows depends on the order in which it
// fetches the chains, and its move button can fail an honest player.
module ClientReplayExamples {
  import opened Wrappers
  import opened Boards
  import opened Interop
  import opened TicTacToeContract
  import opened TicTacToeWorld
  import opened TicTacToeRuns
  import opened TicTacToeSession
  import opened TicTacToeResults
  import opened TicTacToeExamples
  import opened ClientReplay
  import opened ClientReplayLocal
  import opened ClientReplayTapes
  import opened ClientReplaySafety
  import opened ClientReplayFetch
  import opened ClientReplayRivals
  import opened ClientMove
  import opened ClientClick

  const CONTESTED: World := map[1 := ACCEPTED.Seal(101), 2 := RIVALLED.Seal(101)]
  const PLAYED: World := map[1 := ANSWERED.Seal(103), 2 := RIVALLED.Seal(101)]

  const INVITE_ACT := Act(INVITE_ID, INVITE)
  const ACCEPT_ACT := Act(ACCEPT_ID, ACCEPT)
  const RIVAL_ACT := Act(RIVAL_ID, RIVAL)
  const OPENING_ACT := Act(OPENING_ID, OPENING)
  const REPLY_ACT := Act(Identifier(SELF, 3, 0, 103, 1), REPLY)

  // ---- What is fetched ----

  lemma NextAct(w: World, ch: nat, k: Kind, n: nat)
    requires ch in w && Settled(w[ch]) && 0 < n <= w[ch].start
    ensures var e := w[ch].logs[n - 1];
            ActsOf(w, ch, k, n) == ActsOf(w, ch, k, n - 1) +
              if e.origin == SELF && IsKind(k, e.event) then [ToAct(w, ch, e)] else []
  {
  }

  lemma TwoChains(w: World, a: nat, b: nat, k: Kind)
    requires a in w && b in w && Settled(w[a]) && Settled(w[b])
    ensures Ordered(w, [a, b])
    ensures Acts(w, [a, b], k) == ActsOf(w, a, k, w[a].start) + ActsOf(w, b, k, w[b].start)
  {
    hide ActsOf;
    hide Settled;
    assert [a, b][..1] == [a] && [a][..0] == [];
    LastFetched(w, [a], k);
    LastFetched(w, [a, b], k);
    assert Acts(w, [a], k) == ActsOf(w, a, k, w[a].start);
    hide Acts;
  }

  lemma ContestedActs(k: Kind)
    ensures ActsOf(CONTESTED, 1, k, 2) ==
            match k case NewGameLogs => [INVITE_ACT] case AcceptedLogs => [ACCEPT_ACT] case _ => []
    ensures ActsOf(CONTESTED, 2, k, 1) == match k case AcceptedLogs => [RIVAL_ACT] case _ => []
  {
    NextAct(CONTESTED, 1, k, 2);
    NextAct(CONTESTED, 1, k, 1);
    NextAct(CONTESTED, 2, k, 1);
  }

  lemma PlayedActs(k: Kind)
    ensures ActsOf(PLAYED, 1, k, 4) ==
            match k case NewGameLogs => [INVITE_ACT] case AcceptedLogs => [ACCEPT_ACT]
                    case MoveLogs => [OPENING_ACT, REPLY_ACT] case _ => []
    ensures ActsOf(PLAYED, 2, k, 1) == match k case AcceptedLogs => [RIVAL_ACT] case _ => []
  {
    hide ActsOf;
    PlayedOpenings(k);
    NextAct(PLAYED, 1, k, 4);
    NextAct(PLAYED, 1, k, 3);
  }

  lemma PlayedOpenings(k: Kind)
    ensures ActsOf(PLAYED, 1, k, 2) ==
            match k case NewGameLogs => [INVITE_ACT] case AcceptedLogs => [ACCEPT_ACT] case _ => []
    ensures ActsOf(PLAYED, 2, k, 1) == match k case AcceptedLogs => [RIVAL_ACT] case _ => []
  {
    NextAct(PLAYED, 1, k, 2);
    NextAct(PLAYED, 1, k, 1);
    NextAct(PLAYED, 2, k, 1);
  }

  lemma BothOrders(w: World)
    requires w.Keys == {1, 2}
    ensures Complete(w, [1, 2]) && Complete(w, [2, 1])
  {
    assert [1, 2][..1] == [1] && [2, 1][..1] == [2];
    assert [1][..0] == [] && [2][..0] == [];
  }

  lemma FetchContested(k: Kind)
    ensures Ordered(CONTESTED, [1, 2]) && Ordered(CONTESTED, [2, 1])
    ensures Acts(CONTESTED, [1, 2], k) ==
            match k case NewGameLogs => [INVITE_ACT] case AcceptedLogs => [ACCEPT_ACT, RIVAL_ACT] case _ => []
    ensures Acts(CONTESTED, [2, 1], k) ==
            match k case NewGameLogs => [INVITE_ACT] case AcceptedLogs => [RIVAL_ACT, ACCEPT_ACT] case _ => []
  {
    hide Acts;
    hide ActsOf;
    ContestedActs(k);
    TwoChains(CONTESTED, 1, 2, k);
    TwoChains(CONTESTED, 2, 1, k);
  }

  lemma FetchPlayed(k: Kind)
    ensures Ordered(PLAYED, [1, 2])
    ensures Acts(PLAYED, [1, 2], k) ==
            match k case NewGameLogs => [INVITE_ACT] case AcceptedLogs => [ACCEPT_ACT, RIVAL_ACT]
                    case MoveLogs => [OPENING_ACT, REPLY_ACT] case _ => []
  {
    hide Acts;
    hide ActsOf;
    PlayedActs(k);
    TwoChains(PLAYED, 1, 2, k);
  }

  lemma AllContested()
    ensures Ordered(CONTESTED, [1, 2]) && Ordered(CONTESTED, [2, 1])
    ensures AllActs(CONTESTED, [1, 2]) == [INVITE_ACT] + [ACCEPT_ACT, RIVAL_ACT]
    ensures AllActs(CONTESTED, [2, 1]) == [INVITE_ACT] + [RIVAL_ACT, ACCEPT_ACT]
  {
    hide Acts;
    FetchContested(NewGameLogs);
    FetchContested(AcceptedLogs);
    FetchContested(MoveLogs);
    FetchContested(WonLogs);
    FetchContested(DrawLogs);
  }

  lemma AllPlayed()
    ensures Ordered(PLAYED, [1, 2])
    ensures AllActs(PLAYED, [1, 2]) == [INVITE_ACT] + [ACCEPT_ACT, RIVAL_ACT] + [OPENING_ACT, REPLY_ACT]
  {
    hide Acts;
    FetchPlayed(NewGameLogs);
    FetchPlayed(AcceptedLogs);
    FetchPlayed(MoveLogs);
    FetchPlayed(WonLogs);
    FetchPlayed(DrawLogs);
  }

  // ---- The order of the chains decides who the opponent is ----

  // After an honest run in which a rival accepted on another chain: fetching chain 1 first shows
  // the creator the rival, fetching it last shows the session's acceptor.
  lemma OrderDecides()
    ensures Initial(START) && HonestRun(START, SESSION, CONTEST) && Run(START, CONTEST) == CONTESTED
    ensures Complete(CONTESTED, [1, 2]) && Ordered(CONTESTED, [1, 2])
    ensures Complete(CONTESTED, [2, 1]) && Ordered(CONTESTED, [2, 1])
    ensures var r := Replay(map[], AllActs(CONTESTED, [1, 2]));
            r.Some? && SESSION.CreatorKey() in r.value && r.value[SESSION.CreatorKey()].opponent == Some(30)
    ensures var r := Replay(map[], AllActs(CONTESTED, [2, 1]));
            r.Some? && SESSION.CreatorKey() in r.value && r.value[SESSION.CreatorKey()].opponent == Some(20)
  {
    hide Complete;
    hide Ordered;
    hide AllActs;
    hide Replay;
    hide HonestRun;
    hide Run;
    hide Initial;
    StartIsInitial();
    ContestRuns();
    BothOrders(CONTESTED);
    AllContested();
    LastOpens([ACCEPT_ACT, RIVAL_ACT], 30);
    LastOpens([RIVAL_ACT, ACCEPT_ACT], 20);
  }

  lemma LastOpens(accs: seq<Act>, p: Address)
    requires |accs| == 2 && accs[0] in {ACCEPT_ACT, RIVAL_ACT} && accs[1] in {ACCEPT_ACT, RIVAL_ACT}
    requires accs[1].event.AcceptedGame? && accs[1].event.player == p
    ensures var r := Replay(map[], [INVITE_ACT] + accs);
            r.Some? && SESSION.CreatorKey() in r.value && r.value[SESSION.CreatorKey()].opponent == Some(p)
  {
    OpenedAfter(SESSION, INVITE_ACT, accs);
  }

  // ---- The chains move on during the fetch ----

  // The NewGame logs are queried before the run, everything else after it.
  function Queries(): Snapshots {
    (k: Kind, i: nat) => if k.NewGameLogs? then START else CONTESTED
  }

  function QueryTimes(): (Kind, nat) -> nat {
    (k: Kind, i: nat) => if k.NewGameLogs? then 0 else |CONTEST|
  }

  // The invitation is sealed after the NewGame queries and accepted before the acceptance
  // queries: the fetch throws, although everything it needs is sealed when it ends.
  lemma LateInvitation()
    ensures Initial(START) && Along(Queries(), START, CONTEST, QueryTimes()) && Complete(START, [1, 2])
    ensures Answering(Queries(), [1, 2]) && Replay(map[], AllFetched(Queries(), [1, 2])).None?
    ensures Ordered(CONTESTED, [1, 2]) && Replay(map[], AllActs(CONTESTED, [1, 2])).Some?
  {
    QueriesAlong();
    AcceptanceLate();
    BothOrders(START);
    OrderDecides();
    hide *;
    FetchThrowsIff(Queries(), START, CONTEST, QueryTimes(), [1, 2]);
  }

  lemma QueriesAlong()
    ensures Along(Queries(), START, CONTEST, QueryTimes())
  {
    hide HonestRun;
    hide Initial;
    hide Replay;
    hide AllActs;
    OrderDecides();
    assert CONTEST[..0] == [] && CONTEST[..|CONTEST|] == CONTEST;
    assert Run(START, []) == START;
    hide Run;
  }

  lemma AcceptanceLate()
    ensures Answering(Queries(), [1, 2]) && LateAcceptance(Queries(), [1, 2], ACCEPT_ACT)
  {
    hide Fetched;
    QueryReturns(Queries(), [1, 2], AcceptedLogs, 0, 1);
    assert forall i: nat :: i < 2 ==> !NewGameSealed(Queries()(NewGameLogs, i), 1, 0, 10);
  }

  // ---- The move button ----

  function Invited(): ClientGame { ClientGame(Some(30), Some(2), EMPTY, Active, INVITE_ID, INVITE) }
  function Accepting(): ClientGame { ClientGame(Some(10), Some(1), EMPTY, Active, ACCEPT_ID, ACCEPT) }
  function Rivalling(): ClientGame { ClientGame(Some(10), Some(1), EMPTY, Active, RIVAL_ID, RIVAL) }

  const CREATOR := Key(1, 0, 10)
  const ACCEPTOR := Key(1, 0, 20)
  const STRANGER := Key(1, 0, 30)

  lemma OpenedGames(g: Games)
    requires Opened(g, SESSION, INVITE_ACT, [ACCEPT_ACT, RIVAL_ACT])
    ensures g == map[CREATOR := Invited(), ACCEPTOR := Accepting(), STRANGER := Rivalling()]
  {
    var accs := [ACCEPT_ACT, RIVAL_ACT];
    assert accs[..1] == [ACCEPT_ACT] && [ACCEPT_ACT][..0] == [];
    assert accs[0].event.AcceptedGame? && accs[1].event.AcceptedGame?;
    forall p: Address
      ensures LastBy(accs, p) == if p == 30 then Some(RIVAL_ACT) else if p == 20 then Some(ACCEPT_ACT) else None {
      assert LastBy([ACCEPT_ACT], p) == if p == 20 then Some(ACCEPT_ACT) else None;
    }
    assert forall k :: k in g ==> k in {CREATOR, ACCEPTOR, STRANGER};
  }

  // What the client shows in the contested game after one move each.
  lemma ShownContest()
    ensures Replay(map[], AllActs(PLAYED, [1, 2])).Some?
    ensures var games := Replay(map[], AllActs(PLAYED, [1, 2])).value;
            && CREATOR in games && STRANGER in games
            && games[CREATOR].opponent == Some(30) && games[CREATOR].status == Active
            && games[CREATOR].moves == EMPTY[0 := 1][4 := 2]
            && games[STRANGER].moves == EMPTY[0 := 2] && games[STRANGER].lastActionId == RIVAL_ID
            && games[STRANGER].lastActionData == RIVAL
  {
    AllPlayed();
    var openings := [INVITE_ACT] + [ACCEPT_ACT, RIVAL_ACT];
    OpenedAfter(SESSION, INVITE_ACT, [ACCEPT_ACT, RIVAL_ACT]);
    var g := Replay(map[], openings).value;
    OpenedGames(g);
    hide Opened;
    assert openings + [OPENING_ACT, REPLY_ACT] == openings + [OPENING_ACT] + [REPLY_ACT];
    ReplayOne(map[], openings, OPENING_ACT);
    ReplayOne(map[], openings + [OPENING_ACT], REPLY_ACT);
    hide Replay;
    ContestMoves(g);
  }

  lemma ContestMoves(g: Games)
    requires g == map[CREATOR := Invited(), ACCEPTOR := Accepting(), STRANGER := Rivalling()]
    ensures Record(g, OPENING_ACT).Some? && Record(Record(g, OPENING_ACT).value, REPLY_ACT).Some?
    ensures var games := Record(Record(g, OPENING_ACT).value, REPLY_ACT).value;
            && CREATOR in games && STRANGER in games
            && games[CREATOR].opponent == Some(30) && games[CREATOR].status == Active
            && games[CREATOR].moves == EMPTY[0 := 1][4 := 2]
            && games[STRANGER].moves == EMPTY[0 := 2] && games[STRANGER].lastActionId == RIVAL_ID
            && games[STRANGER].lastActionData == RIVAL
  {
  }

  // It is the creator's turn, everything is sealed, the creator's game is active and the cell is
  // free; but the button answers the rival's acceptance with makeMove, and the contract reverts.
  lemma ButtonFails()
    ensures HonestRun(START, SESSION, PLAY) && Run(START, PLAY) == PLAYED && SESSION.In(PLAYED)
    ensures Complete(PLAYED, [1, 2]) && Ordered(PLAYED, [1, 2]) && Replay(map[], AllActs(PLAYED, [1, 2])).Some?
    ensures var games := Replay(map[], AllActs(PLAYED, [1, 2])).value;
            && Mover(SESSION, TapesIn(PLAYED, SESSION)) == CREATOR
            && Clickable(games, CREATOR, 2, 2) && HasOpponent(games, CREATOR)
            && Execute(PLAYED, 1, 10, Click(games, CREATOR, 2, 2)) == Reverted(DataNotMovePlayed)
    ensures !Prevails(PLAYED, [1, 2], SESSION) && !Answerable(PLAYED, [1, 2], SESSION)
  {
    PlayRuns();
    hide Replay;
    hide AllActs;
    hide HonestRun;
    hide Run;
    hide Prevails;
    hide Execute;
    hide Initial;
    BothOrders(PLAYED);
    ShownContest();
    PlayedTapes();
    NotPrevailing();
    NotRight();
    hide TapesIn;
    hide Complete;
    assert EMPTY[0 := 2][0] == 2 && EMPTY[0 := 2] != EMPTY;
    RivalCallReverts();
  }

  lemma RivalCallReverts()
    ensures Execute(PLAYED, 1, 10, CallMove(RIVAL_ID, RIVAL, 2, 2)) == Reverted(DataNotMovePlayed)
  {
    Presents(PLAYED, 2, 0, RIVAL_ID);
  }

  lemma PlayedTapes()
    ensures |TapesIn(PLAYED, SESSION).a| == 1 && |TapesIn(PLAYED, SESSION).p| == 1
  {
    var (e0, e1, e2, e3) := (ANSWERED.logs[0], ANSWERED.logs[1], ANSWERED.logs[2], ANSWERED.logs[3]);
    var (q, q') := (Moves(1, 0, 10), Moves(1, 0, 20));
    assert PLAYED[1].logs == [e0, e1] + [e2] + [e3];
    SelectAppend([e0, e1] + [e2], e3, q);
    SelectAppend([e0, e1] + [e2], e3, q');
    SelectAppend([e0, e1], e2, q);
    SelectAppend([e0, e1], e2, q');
    SelectNone([e0, e1], q);
    SelectNone([e0, e1], q');
  }

  lemma NotPrevailing()
    ensures Ordered(PLAYED, [1, 2]) && !Prevails(PLAYED, [1, 2], SESSION)
  {
    FetchPlayed(AcceptedLogs);
    hide Acts;
    var accs := Acts(PLAYED, [1, 2], AcceptedLogs);
    assert accs[..1] == [ACCEPT_ACT] && [ACCEPT_ACT][..0] == [];
    assert Project([ACCEPT_ACT], 1, 0) == [] + [ACCEPT_ACT];
    assert Project(accs, 1, 0) == [ACCEPT_ACT] + [RIVAL_ACT];
  }

  lemma NotRight()
    ensures Ordered(PLAYED, [1, 2])
    ensures !RightAction(GameAccs(PLAYED, [1, 2], SESSION), GameMoves(PLAYED, [1, 2], SESSION), SESSION)
  {
    hide Acts;
    hide Project;
    FetchPlayed(AcceptedLogs);
    FetchPlayed(MoveLogs);
    FetchPlayed(WonLogs);
    FetchPlayed(DrawLogs);
    assert MoveActs(PLAYED, [1, 2]) == [OPENING_ACT, REPLY_ACT];
    AllOfGame(ACCEPT_ACT, RIVAL_ACT);
    AllOfGame(OPENING_ACT, REPLY_ACT);
    NewestOfRival();
  }

  lemma AllOfGame(a: Act, b: Act)
    requires Mine(1, 0, a.event) && Mine(1, 0, b.event)
    ensures Project([a, b], 1, 0) == [a, b]
  {
    assert [a, b][..1] == [a] && [a][..0] == [];
    assert Project([a], 1, 0) == [] + [a];
  }

  lemma NewestOfRival()
    ensures LatestOf([OPENING_ACT, REPLY_ACT], 30, RIVAL_ACT) == RIVAL_ACT
  {
    assert [OPENING_ACT, REPLY_ACT][..1] == [OPENING_ACT] && [OPENING_ACT][..0] == [];
    assert LatestOf([OPENING_ACT], 30, RIVAL_ACT) == RIVAL_ACT;
  }
}
