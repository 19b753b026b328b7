// The client's replay agrees with the protocol: for every order of the chains, the rebuilt games
// of an honest session that nobody else joined are the shared game told by the sealed logs.
module ClientReplayResults {
  import opened Wrappers
  import opened Boards
  import opened Interop
  import opened TicTacToeContract
  import opened TicTacToeWorld
  import opened TicTacToeRuns
  import opened TicTacToeSession
  import opened TicTacToeResults
  import opened ClientReplay
  import opened ClientReplayLocal
  import opened ClientReplayTapes
  import opened ClientReplayGame
  import opened ClientReplaySafety

  // The part of the tapes that lies in sealed blocks.
  function SealedTapes(w: World, s: Session): Tapes
    requires s.In(w)
  {
    TapesOf(s, Sealed(w, s.chain), Sealed(w, s.acceptChain))
  }

  lemma {:induction false} SelectSplit(a: seq<Entry>, b: seq<Entry>, q: Query)
    ensures Select(a + b, q) == Select(a, q) + Select(b, q)
  {
    if b == [] {
      assert a + b == a;
    } else {
      var n := |b| - 1;
      assert (a + b)[..|a + b| - 1] == a + b[..n];
      SelectSplit(a, b[..n], q);
    }
  }

  // At most the last entry of a tape is not sealed yet.
  lemma SealedTape(c: Chain, q: Query)
    requires c.Shaped() && Rising(Select(c.logs, q))
    ensures var (v, es) := (Select(c.logs[..c.start], q), Select(c.logs, q));
            && v <= es && |es| <= |v| + 1
            && (forall i :: 0 <= i < |v| ==> v[i].block < |c.times|)
            && (|v| < |es| ==> es[|es| - 1].block == |c.times|)
  {
    var (v, u) := (Select(c.logs[..c.start], q), Select(c.logs[c.start..], q));
    assert c.logs == c.logs[..c.start] + c.logs[c.start..];
    SelectSplit(c.logs[..c.start], c.logs[c.start..], q);
    SelectSound(c.logs[..c.start], q);
    SelectSound(c.logs[c.start..], q);
    assert forall e :: e in c.logs[c.start..] ==> e.block == |c.times|;
    assert forall e :: e in c.logs[..c.start] ==> e.block < |c.times|;
  }

  // Dropping the last move leaves good tapes.
  lemma GoodBefore(s: Session, t: Tapes)
    requires GoodTapes(s, t) && t.a != []
    ensures |t.a| == |t.p| ==> GoodTapes(s, t.(p := t.p[..|t.p| - 1]))
    ensures |t.a| == |t.p| + 1 ==> GoodTapes(s, t.(a := t.a[..|t.a| - 1]))
  {
    hide Legal;
    hide VerdictOf;
    hide History;
    hide Announced;
    hide RisingFrom;
    AnnouncedBefore(t.a, t.p);
    BeforeLast(t.a, t.p);
    if |t.a| == |t.p| {
      RisingInit(t.acc, t.p);
      assert OnBoard(t.p[..|t.p| - 1], s, s.acceptor);
    } else {
      RisingInit(t.news, t.a);
      assert OnBoard(t.a[..|t.a| - 1], s, s.creator);
    }
  }

  lemma AnnouncedBefore(a: seq<Entry>, p: seq<Entry>)
    requires Alternate(a, p) && a != [] && Announced(a, p)
    ensures if |a| == |p| then Announced(a, p[..|p| - 1]) else Announced(a[..|a| - 1], p)
  {
  }

  lemma RisingInit(first: seq<Entry>, tape: seq<Entry>)
    requires RisingFrom(first, tape) && tape != []
    ensures RisingFrom(first, tape[..|tape| - 1])
  {
  }

  lemma GoodOpening(s: Session, t: Tapes)
    requires GoodTapes(s, t) && t.a == []
    ensures GoodTapes(s, t.(acc := [])) && GoodTapes(s, t.(acc := [], news := []))
  {
  }

  // The sealed tapes are the tapes, or the tapes without their last announcement.
  lemma SealedGood(w: World, s: Session)
    requires Inv(w) && SessionOk(w, s)
    ensures s.In(w) && GoodTapes(s, SealedTapes(w, s))
    ensures var (t, v) := (TapesIn(w, s), SealedTapes(w, s));
            && InSealed(w, s.chain, v.news) && InSealed(w, s.acceptChain, v.acc)
            && InSealed(w, s.chain, v.a) && InSealed(w, s.acceptChain, v.p)
            && (InSealed(w, s.chain, t.a) ==> v.a == t.a) && (InSealed(w, s.acceptChain, t.p) ==> v.p == t.p)
            && (InSealed(w, s.acceptChain, t.acc) ==> v.acc == t.acc)
  {
    var (t, v) := (TapesIn(w, s), SealedTapes(w, s));
    TurnSealed(w, s);
    hide SessionOk;
    SealedParts(w, s, t);
    hide TapesIn;
    hide SealedTapes;
    if t.a == [] {
      GoodOpening(s, t);
    } else {
      GoodBefore(s, t);
    }
  }

  lemma SealedParts(w: World, s: Session, t: Tapes)
    requires Inv(w) && s.In(w) && t == TapesIn(w, s) && GoodTapes(s, t)
    requires ConsumedSealed(t, |w[s.chain].times|, |w[s.acceptChain].times|)
    ensures var v := SealedTapes(w, s);
            && InSealed(w, s.chain, v.news) && InSealed(w, s.acceptChain, v.acc)
            && InSealed(w, s.chain, v.a) && InSealed(w, s.acceptChain, v.p)
            && (InSealed(w, s.chain, t.a) ==> v.a == t.a) && (InSealed(w, s.acceptChain, t.p) ==> v.p == t.p)
            && (InSealed(w, s.acceptChain, t.acc) ==> v.acc == t.acc)
            && (v == t || (t.a == [] && v == t.(acc := [])) || (t.a == [] && v == t.(acc := [], news := []))
                || (t.a != [] && |t.a| == |t.p| && v == t.(p := t.p[..|t.p| - 1]))
                || (|t.a| == |t.p| + 1 && v == t.(a := t.a[..|t.a| - 1])))
  {
    hide Legal;
    hide Announced;
    hide History;
    hide OnBoard;
    hide Select;
    assert ChainOk(w, s.chain) && ChainOk(w, s.acceptChain);
    hide ChainOk;
    hide Inv;
    hide ChainState.Shaped;
    SealedTape(w[s.chain], NewGames(s.chain, s.gameId));
    SealedTape(w[s.acceptChain], Acceptances(s.chain, s.gameId, s.acceptor));
    SealedTape(w[s.chain], Moves(s.chain, s.gameId, s.creator));
    SealedTape(w[s.acceptChain], Moves(s.chain, s.gameId, s.acceptor));
  }

  // ---- One game ----

  // Only the session's two players have logged anything about the game.
  predicate Belongs(s: Session, ch: nat, event: Event) {
    match event
    case NewGame(_, _, p) => ch == s.chain
    case AcceptedGame(_, _, _, p) => ch == s.acceptChain && p == s.acceptor
    case Foreign(_) => true
    case _ => (ch == s.chain && event.player == s.creator) || (ch == s.acceptChain && event.player == s.acceptor)
  }

  ghost predicate Alone(w: World, s: Session) {
    forall ch, e :: ch in w && e in w[ch].logs && e.origin == SELF && Mine(s.chain, s.gameId, e.event) ==>
      Belongs(s, ch, e.event)
  }

  // The sealed tapes can be replayed.
  ghost predicate Fetchable(w: World, s: Session) {
    && s.In(w)
    && var t := SealedTapes(w, s);
    && GoodTapes(s, t) && InSealed(w, s.chain, t.news) && InSealed(w, s.acceptChain, t.acc)
    && InSealed(w, s.chain, t.a) && InSealed(w, s.acceptChain, t.p)
  }

  // The games the client should show for a session: both boards of the whole sealed history,
  // swapped, the statuses of the verdict and each player's latest action.
  ghost function ExpectedGames(w: World, s: Session): Games
    requires Fetchable(w, s)
  {
    var t := SealedTapes(w, s);
    if t.news == [] then map[]
    else
      var latest := ToAct(w, s.chain, if t.a == [] then t.news[0] else t.a[|t.a| - 1]);
      if t.acc == [] then
        map[s.CreatorKey() := ClientGame(None, None, EMPTY, Active, latest.id, latest.event)]
      else
        var latest' := ToAct(w, s.acceptChain, if t.p == [] then t.acc[0] else t.p[|t.p| - 1]);
        var h := History(t.a, t.p);
        map[s.CreatorKey() := ClientGame(Some(s.acceptor), Some(s.acceptChain), Play(h, 0), StatusFor(t, s.creator),
                                         latest.id, latest.event),
            s.AcceptorKey() := ClientGame(Some(s.creator), Some(s.chain), Play(h, 1), StatusFor(t, s.acceptor),
                                          latest'.id, latest'.event)]
  }

  // A query of the session has its answers on one chain.
  lemma {:induction false} Home(w: World, order: seq<nat>, s: Session, q: Query, home: nat)
    requires Alone(w, s) && QueryGame(q) == (s.chain, s.gameId)
    requires match q
             case NewGames(_, _) => home == s.chain
             case Acceptances(_, _, _) => home == s.acceptChain
             case Moves(_, _, p) => (p == s.creator && home == s.chain && s.creator != s.acceptor)
                                    || (p == s.acceptor && home == s.acceptChain && s.creator != s.acceptor)
    ensures OnlyAt(w, order, q, home)
  {
    if order != [] {
      var ch := order[|order| - 1];
      Home(w, order[..|order| - 1], s, q, home);
      if ch in w && ch != home {
        assert forall e :: e in Sealed(w, ch) ==> e in w[ch].logs;
        SelectNone(Sealed(w, ch), q);
      }
    }
  }

  lemma {:induction false} AllOfKind(es: seq<Entry>, k: Kind)
    requires forall i :: 0 <= i < |es| ==> IsKind(k, es[i].event)
    ensures OfKind(es, k) == es
  {
    if es != [] {
      AllOfKind(es[..|es| - 1], k);
    }
  }

  // Every act about the game is the session's.
  lemma ActBelongs(w: World, order: seq<nat>, s: Session, k: Kind, act: Act)
    requires Inv(w) && Complete(w, order) && Ordered(w, order) && Alone(w, s)
    requires act in Acts(w, order, k) && Mine(s.chain, s.gameId, act.event)
    ensures act.id.origin == SELF && IsKind(k, act.event) && Belongs(s, act.id.chainId, act.event)
    ensures IsMove(act.event) ==> act.event.x < 3 && act.event.y < 3
  {
    var ch, e := ActsOrigin(w, order, k, act);
    assert e in w[ch].logs;
    assert ChainOk(w, ch);
    assert EntryOk(w, ch, e);
  }

  // A pass over the logs of one kind, projected to the game, when only the answers to q can be
  // of that kind: the tape of q.
  lemma OpeningPass(w: World, order: seq<nat>, s: Session, k: Kind, q: Query, home: nat, tape: seq<Entry>)
    requires Complete(w, order) && Ordered(w, order) && home in w
    requires OnlyAt(w, order, q, home) && QueryGame(q) == (s.chain, s.gameId)
    requires tape == Select(Sealed(w, home), q) && InSealed(w, home, tape) && OfKind(tape, k) == tape
    requires forall act :: act in Acts(w, order, k) && Mine(s.chain, s.gameId, act.event) ==>
               Hits(q, Entry(0, 0, act.id.origin, act.event))
    ensures Project(Acts(w, order, k), s.chain, s.gameId) == ToActs(w, home, tape)
  {
    hide Select;
    hide SelectActs;
    hide Acts;
    hide OfKind;
    hide ToActs;
    hide Hits;
    AllChainActs(w, order, q, k, home);
    ProjectIsSelect(Acts(w, order, k), q);
  }

  // The two opening passes, projected to the game.
  lemma Openings(w: World, order: seq<nat>, s: Session)
    requires Inv(w) && SessionOk(w, s) && Complete(w, order) && Ordered(w, order) && Alone(w, s)
    requires s.In(w)
    requires var t := SealedTapes(w, s);
             GoodTapes(s, t) && InSealed(w, s.chain, t.news) && InSealed(w, s.acceptChain, t.acc)
    ensures var t := SealedTapes(w, s);
            && Project(Acts(w, order, NewGameLogs), s.chain, s.gameId) == ToActs(w, s.chain, t.news)
            && Project(Acts(w, order, AcceptedLogs), s.chain, s.gameId) == ToActs(w, s.acceptChain, t.acc)
  {
    hide SessionOk;
    hide Legal;
    hide Announced;
    hide RisingFrom;
    hide History;
    hide OnBoard;
    hide Select;
    hide SelectActs;
    hide Acts;
    hide ToActs;
    hide Inv;
    hide Alone;
    hide InSealed;
    var t := SealedTapes(w, s);
    var q, q' := NewGames(s.chain, s.gameId), Acceptances(s.chain, s.gameId, s.acceptor);
    Home(w, order, s, q, s.chain);
    Home(w, order, s, q', s.acceptChain);
    AllOfKind(t.news, NewGameLogs);
    AllOfKind(t.acc, AcceptedLogs);
    forall act | act in Acts(w, order, NewGameLogs) && Mine(s.chain, s.gameId, act.event)
      ensures Hits(q, Entry(0, 0, act.id.origin, act.event)) {
      ActBelongs(w, order, s, NewGameLogs, act);
    }
    OpeningPass(w, order, s, NewGameLogs, q, s.chain, t.news);
    forall act | act in Acts(w, order, AcceptedLogs) && Mine(s.chain, s.gameId, act.event)
      ensures Hits(q', Entry(0, 0, act.id.origin, act.event)) {
      ActBelongs(w, order, s, AcceptedLogs, act);
    }
    OpeningPass(w, order, s, AcceptedLogs, q', s.acceptChain, t.acc);
  }

  // One player's moves among the three move passes are that player's tape.
  lemma PlayerMoves(w: World, order: seq<nat>, s: Session, player: Address, home: nat, tape: seq<Entry>)
    requires Ordered(w, order) && Complete(w, order) && home in w && Settled(w[home])
    requires OnlyAt(w, order, Moves(s.chain, s.gameId, player), home)
    requires tape == Select(Sealed(w, home), Moves(s.chain, s.gameId, player)) && InSealed(w, home, tape)
    requires forall i :: 0 <= i < |tape| ==> IsMove(tape[i].event)
    requires forall i :: 0 <= i < |tape| - 1 ==> tape[i].event.MovePlayed?
    ensures SelectActs(MoveActs(w, order), Moves(s.chain, s.gameId, player)) == ToActs(w, home, tape)
  {
    hide Select;
    hide SelectActs;
    hide Acts;
    hide OfKind;
    hide ToActs;
    hide IsMove;
    var q := Moves(s.chain, s.gameId, player);
    var (m, o, d) := (Acts(w, order, MoveLogs), Acts(w, order, WonLogs), Acts(w, order, DrawLogs));
    AllChainActs(w, order, q, MoveLogs, home);
    AllChainActs(w, order, q, WonLogs, home);
    AllChainActs(w, order, q, DrawLogs, home);
    SelectActsAppend(m, o, q);
    SelectActsAppend(m + o, d, q);
    ToActsAppend(w, home, OfKind(tape, MoveLogs), OfKind(tape, WonLogs));
    ToActsAppend(w, home, OfKind(tape, MoveLogs) + OfKind(tape, WonLogs), OfKind(tape, DrawLogs));
    KindsRejoin(tape);
  }

  lemma MovesInterleave(w: World, order: seq<nat>, s: Session)
    requires Inv(w) && Complete(w, order) && Ordered(w, order) && Alone(w, s)
    requires s.In(w)
    requires var t := SealedTapes(w, s);
             && GoodTapes(s, t) && InSealed(w, s.chain, t.a) && InSealed(w, s.acceptChain, t.p)
             && AnsweredArePlain(t.a, t.p)
    ensures Interleaves(w, s, SealedTapes(w, s), Project(MoveActs(w, order), s.chain, s.gameId))
  {
    hide Legal;
    hide Announced;
    hide RisingFrom;
    hide History;
    hide Select;
    hide SelectActs;
    hide Acts;
    hide ToActs;
    var t := SealedTapes(w, s);
    var acts := Project(MoveActs(w, order), s.chain, s.gameId);
    InvSettled(w, order);
    Home(w, order, s, Moves(s.chain, s.gameId, s.creator), s.chain);
    Home(w, order, s, Moves(s.chain, s.gameId, s.acceptor), s.acceptChain);
    PlayerMoves(w, order, s, s.creator, s.chain, t.a);
    PlayerMoves(w, order, s, s.acceptor, s.acceptChain, t.p);
    SelectProjected(MoveActs(w, order), Moves(s.chain, s.gameId, s.creator));
    SelectProjected(MoveActs(w, order), Moves(s.chain, s.gameId, s.acceptor));
    ProjectedMoves(w, order, s);
  }

  lemma ProjectedMoves(w: World, order: seq<nat>, s: Session)
    requires Inv(w) && Complete(w, order) && Ordered(w, order) && Alone(w, s)
    ensures var acts := Project(MoveActs(w, order), s.chain, s.gameId);
            && MovesOfTwo(acts, s.chain, s.gameId, s.creator, s.acceptor)
            && forall i :: 0 <= i < |acts| ==> acts[i].id.origin == SELF
  {
    hide Acts;
    var acts := Project(MoveActs(w, order), s.chain, s.gameId);
    ProjectSound(MoveActs(w, order), s.chain, s.gameId);
    forall i | 0 <= i < |acts|
      ensures && IsMove(acts[i].event) && Mine(s.chain, s.gameId, acts[i].event) && acts[i].id.origin == SELF
              && (acts[i].event.player == s.creator || acts[i].event.player == s.acceptor)
              && acts[i].event.x < 3 && acts[i].event.y < 3 {
      assert acts[i] in MoveActs(w, order);
      var k := if acts[i] in Acts(w, order, MoveLogs) then MoveLogs
               else if acts[i] in Acts(w, order, WonLogs) then WonLogs else DrawLogs;
      ActBelongs(w, order, s, k, acts[i]);
    }
  }

  lemma {:induction false} ProjectSound(acts: seq<Act>, c: nat, n: nat)
    ensures forall act :: act in Project(acts, c, n) ==> act in acts && Mine(c, n, act.event)
  {
    if acts != [] {
      ProjectSound(acts[..|acts| - 1], c, n);
    }
  }

  // An opened game: what the first two passes leave for the session.
  function OpenGame(opponent: Address, opponentChain: nat, act: Act): ClientGame {
    ClientGame(Some(opponent), Some(opponentChain), EMPTY, Active, act.id, act.event)
  }

  lemma ReplayOpenings(s: Session, n0: Act, a0: Act)
    requires s.creator != s.acceptor
    requires n0.event == NewGame(s.chain, s.gameId, s.creator)
    requires a0.event == AcceptedGame(s.chain, s.gameId, s.creator, s.acceptor) && a0.id.chainId == s.acceptChain
    ensures Replay(map[], [n0]) == Some(map[s.CreatorKey() := ClientGame(None, None, EMPTY, Active, n0.id, n0.event)])
    ensures Replay(map[], [n0] + [a0])
         == Some(map[s.CreatorKey() := OpenGame(s.acceptor, s.acceptChain, n0),
                     s.AcceptorKey() := OpenGame(s.creator, s.chain, a0)])
  {
    ReplayOne(map[], [], n0);
    assert [] + [n0] == [n0];
    ReplayOne(map[], [n0], a0);
    var g := map[s.CreatorKey() := ClientGame(None, None, EMPTY, Active, n0.id, n0.event)];
    var g1 := g[s.AcceptorKey() := OpenGame(s.creator, s.chain, a0)];
    assert Record(g, a0) == Some(g1[s.CreatorKey() := OpenGame(s.acceptor, s.acceptChain, n0)]);
    assert g1[s.CreatorKey() := OpenGame(s.acceptor, s.acceptChain, n0)]
        == map[s.CreatorKey() := OpenGame(s.acceptor, s.acceptChain, n0),
               s.AcceptorKey() := OpenGame(s.creator, s.chain, a0)];
  }

  lemma ProjectAll(w: World, order: seq<nat>, s: Session)
    requires Ordered(w, order)
    ensures Project(AllActs(w, order), s.chain, s.gameId)
         == Project(Acts(w, order, NewGameLogs), s.chain, s.gameId)
            + Project(Acts(w, order, AcceptedLogs), s.chain, s.gameId)
            + Project(MoveActs(w, order), s.chain, s.gameId)
  {
    var (n, a, m) := (Acts(w, order, NewGameLogs), Acts(w, order, AcceptedLogs), MoveActs(w, order));
    assert AllActs(w, order) == n + a + m;
    ProjectAppend(n, a, s.chain, s.gameId);
    ProjectAppend(n + a, m, s.chain, s.gameId);
  }

  lemma NoMovesNoActs(w: World, s: Session, t: Tapes, acts: seq<Act>)
    requires s.In(w) && InSealed(w, s.chain, t.a) && InSealed(w, s.acceptChain, t.p)
    requires Interleaves(w, s, t, acts) && t.a == [] && t.p == []
    ensures acts == []
  {
    if acts != [] {
      ReplayedIsOnTape(w, s, t, acts, 0);
    }
  }

  lemma SingleAct(w: World, ch: nat, es: seq<Entry>)
    requires ch in w && InSealed(w, ch, es) && |es| <= 1
    ensures ToActs(w, ch, es) == if es == [] then [] else [ToAct(w, ch, es[0])]
  {
  }

  // The fetched logs of the game: its opening acts, then its moves in some order.
  lemma GameActs(w: World, order: seq<nat>, s: Session)
    requires Inv(w) && SessionOk(w, s) && Complete(w, order) && Ordered(w, order) && Alone(w, s) && Fetchable(w, s)
    ensures var t := SealedTapes(w, s);
            var acts := Project(MoveActs(w, order), s.chain, s.gameId);
            && Project(AllActs(w, order), s.chain, s.gameId)
               == (if t.news == [] then [] else [ToAct(w, s.chain, t.news[0])])
                  + (if t.acc == [] then [] else [ToAct(w, s.acceptChain, t.acc[0])]) + acts
            && AnsweredArePlain(t.a, t.p) && Interleaves(w, s, t, acts)
            && (t.a == [] && t.p == [] ==> acts == [])
  {
    var t := SealedTapes(w, s);
    var acts := Project(MoveActs(w, order), s.chain, s.gameId);
    hide SessionOk;
    hide Inv;
    hide Acts;
    hide AllActs;
    hide Alone;
    hide Complete;
    hide SealedTapes;
    hide Project;
    hide Interleaves;
    hide Play;
    hide History;
    hide Legal;
    hide Announced;
    hide RisingFrom;
    hide ToActs;
    AllButLastPlayed(t.a, t.p);
    Openings(w, order, s);
    MovesInterleave(w, order, s);
    ProjectAll(w, order, s);
    SingleAct(w, s.chain, t.news);
    SingleAct(w, s.acceptChain, t.acc);
    if t.a == [] && t.p == [] {
      NoMovesNoActs(w, s, t, acts);
    }
  }

  // The logs of one honest session alone, fetched in any chain order, rebuild its expected games.
  lemma GameReplay(w: World, order: seq<nat>, s: Session)
    requires Inv(w) && SessionOk(w, s) && Complete(w, order) && Ordered(w, order) && Alone(w, s) && Fetchable(w, s)
    ensures Replay(map[], Project(AllActs(w, order), s.chain, s.gameId)) == Some(ExpectedGames(w, s))
  {
    hide SessionOk;
    hide Inv;
    hide Acts;
    hide AllActs;
    hide Alone;
    hide Complete;
    hide SealedTapes;
    hide Project;
    hide Interleaves;
    hide Play;
    hide History;
    hide Legal;
    hide Announced;
    hide RisingFrom;
    hide Replay;
    hide AnsweredArePlain;
    var t := SealedTapes(w, s);
    var acts := Project(MoveActs(w, order), s.chain, s.gameId);
    GameActs(w, order, s);
    if t.news == [] {
      ReplayNothing();
      assert [] + [] + acts == [];
    } else {
      var n0 := ToAct(w, s.chain, t.news[0]);
      if t.acc == [] {
        assert [n0] + [] + acts == [n0];
        ReplayOpenings(s, n0, Act(Identifier(SELF, 0, 0, 0, s.acceptChain),
                                  AcceptedGame(s.chain, s.gameId, s.creator, s.acceptor)));
      } else {
        PlayedGame(w, s, t, acts);
      }
    }
  }

  lemma ReplayNothing()
    ensures Replay(map[], []) == Some(map[])
  {
  }

  lemma PlayedGame(w: World, s: Session, t: Tapes, acts: seq<Act>)
    requires s.In(w) && GoodTapes(s, t) && t.acc != [] && AnsweredArePlain(t.a, t.p)
    requires InSealed(w, s.chain, t.news) && InSealed(w, s.acceptChain, t.acc)
    requires InSealed(w, s.chain, t.a) && InSealed(w, s.acceptChain, t.p)
    requires Interleaves(w, s, t, acts)
    ensures var latest := ToAct(w, s.chain, if t.a == [] then t.news[0] else t.a[|t.a| - 1]);
            var latest' := ToAct(w, s.acceptChain, if t.p == [] then t.acc[0] else t.p[|t.p| - 1]);
            var h := History(t.a, t.p);
            Replay(map[], [ToAct(w, s.chain, t.news[0])] + [ToAct(w, s.acceptChain, t.acc[0])] + acts) ==
            Some(map[s.CreatorKey() := ClientGame(Some(s.acceptor), Some(s.acceptChain), Play(h, 0),
                                                  StatusFor(t, s.creator),
                                                  latest.id, latest.event),
                     s.AcceptorKey() := ClientGame(Some(s.creator), Some(s.chain), Play(h, 1), StatusFor(t, s.acceptor),
                                                   latest'.id, latest'.event)])
  {
    hide Legal;
    hide Announced;
    hide RisingFrom;
    hide Play;
    hide History;
    hide BoardOf;
    hide StatusOf;
    hide LatestOf;
    hide Replay;
    var (n0, a0) := (ToAct(w, s.chain, t.news[0]), ToAct(w, s.acceptChain, t.acc[0]));
    ReplayOpenings(s, n0, a0);
    ReplayAppend(map[], [n0] + [a0], acts);
    ReplayMoves(OpenGame(s.acceptor, s.acceptChain, n0), OpenGame(s.creator, s.chain, a0), acts,
                s.chain, s.gameId, s.creator, s.acceptor);
    RebuiltBoards(w, s, t, acts);
    RebuiltStatus(w, s, t, acts, s.creator);
    RebuiltStatus(w, s, t, acts, s.acceptor);
    RebuiltLatest(w, s, t, acts);
  }

  // ---- One honest session, undisturbed ----

  // The replayed map shows the expected games of a session and nothing else about its game.
  ghost predicate Shows(w: World, games: Games, s: Session) {
    Fetchable(w, s) && Restrict(games, s.chain, s.gameId) == ExpectedGames(w, s)
  }

  // For every order of the chains and whatever anybody does in other games: the replay shows,
  // for an honest session that no third player joined, exactly the expected games.
  lemma ReplayAgrees(w: World, steps: seq<Step>, order: seq<nat>, s: Session)
    requires Initial(w) && HonestRun(w, s, steps)
    requires Complete(Run(w, steps), order) && Alone(Run(w, steps), s)
    ensures Ordered(Run(w, steps), order)
    ensures var u := Run(w, steps);
            var r := Replay(map[], AllActs(u, order));
            r.Some? && Shows(u, r.value, s)
  {
    hide HonestRun;
    hide SessionOk;
    hide Inv;
    hide Replay;
    hide AllActs;
    hide ExpectedGames;
    hide Run;
    hide Fetchable;
    var u := Run(w, steps);
    RunInv(w, steps);
    ReplayNeverThrows(w, steps, order);
    HonestSession(w, s, steps);
    SessionFetchable(u, s);
    GameReplay(u, order, s);
    ReplayProject(AllActs(u, order), s.chain, s.gameId);
  }

  // The statuses that the two players are shown, by the last sealed announcement of the session.
  predicate RightStatuses(s: Session, t: Tapes, games: Games)
    requires Alternate(t.a, t.p)
  {
    && s.CreatorKey() in games && s.AcceptorKey() in games
    && var (c, p) := (games[s.CreatorKey()].status, games[s.AcceptorKey()].status);
    if t.a == [] then c == Active && p == Active
    else
      match LastOf(t.a, t.p).event
      case GameWon(_, _, winner, _, _) =>
        || (winner == s.creator && c == WonGame && p == LostGame)
        || (winner == s.acceptor && p == WonGame && c == LostGame)
      case GameDraw(_, _, _, _, _) => c == Draw && p == Draw
      case _ => c == Active && p == Active
  }

  // In the games that the replay shows of an accepted session, a win is the winner's win and the
  // other player's loss, a draw is both's, and anything else leaves both games active.
  lemma VerdictShown(w: World, steps: seq<Step>, order: seq<nat>, s: Session)
    requires Initial(w) && HonestRun(w, s, steps)
    requires Complete(Run(w, steps), order) && Alone(Run(w, steps), s)
    requires s.In(Run(w, steps)) && SealedTapes(Run(w, steps), s).acc != []
    ensures var u := Run(w, steps);
            && Ordered(u, order) && Replay(map[], AllActs(u, order)).Some?
            && Alternate(SealedTapes(u, s).a, SealedTapes(u, s).p)
            && RightStatuses(s, SealedTapes(u, s), Replay(map[], AllActs(u, order)).value)
  {
    hide HonestRun;
    hide Run;
    hide Replay;
    hide AllActs;
    hide SealedTapes;
    ReplayAgrees(w, steps, order, s);
    var u := Run(w, steps);
    ExpectedStatuses(u, Replay(map[], AllActs(u, order)).value, s);
  }

  lemma ExpectedStatuses(w: World, games: Games, s: Session)
    requires Shows(w, games, s) && SealedTapes(w, s).acc != []
    ensures RightStatuses(s, SealedTapes(w, s), games)
  {
    hide Legal;
    hide Announced;
    hide RisingFrom;
    hide Play;
    hide History;
    hide SealedTapes;
    assert s.CreatorKey() != s.AcceptorKey();
    var (t, shown) := (SealedTapes(w, s), Restrict(games, s.chain, s.gameId));
    assert s.CreatorKey() in shown && shown[s.CreatorKey()].status == StatusFor(t, s.creator);
    assert s.AcceptorKey() in shown && shown[s.AcceptorKey()].status == StatusFor(t, s.acceptor);
    if t.a != [] {
      LastMover(s, t);
    }
  }

  lemma LastMover(s: Session, t: Tapes)
    requires GoodTapes(s, t) && t.a != []
    ensures var last := LastOf(t.a, t.p).event;
            IsMove(last) && last.player == if |t.a| == |t.p| then s.acceptor else s.creator
  {
    hide Legal;
    hide Announced;
    hide RisingFrom;
    hide History;
  }

  lemma SessionFetchable(w: World, s: Session)
    requires Inv(w) && SessionOk(w, s)
    ensures Fetchable(w, s)
  {
    hide Inv;
    hide SessionOk;
    hide SealedTapes;
    SealedGood(w, s);
  }
}
