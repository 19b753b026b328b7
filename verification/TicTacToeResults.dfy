// What every honest run of one session guarantees, with any number of chains, games and callers.
module TicTacToeResults {
  import opened Boards
  import opened Interop
  import opened TicTacToeContract
  import opened TicTacToeWorld
  import opened TicTacToeRuns
  import opened TicTacToeSession

  // Every step of the run is honest for the session in the state it is taken in.
  ghost predicate HonestRun(w: World, s: Session, steps: seq<Step>) {
    && s.In(w)
    && (steps == [] ||
        (&& HonestRun(w, s, steps[..|steps| - 1])
         && var u := Run(w, steps[..|steps| - 1]);
         && s.In(u) && Honest(u, s, steps[|steps| - 1])))
  }

  lemma InitialSession(w: World, s: Session)
    requires Initial(w) && s.In(w)
    ensures SessionOk(w, s)
  {
    SelectNone(w[s.chain].logs, NewGames(s.chain, s.gameId));
    SelectNone(w[s.acceptChain].logs, Acceptances(s.chain, s.gameId, s.acceptor));
    SelectNone(w[s.chain].logs, Moves(s.chain, s.gameId, s.creator));
    SelectNone(w[s.acceptChain].logs, Moves(s.chain, s.gameId, s.acceptor));
    assert TapesIn(w, s) == Tapes([], [], [], []);
    assert History([], []) == [];
  }

  // Any chains, any games, any third parties: the session invariant holds after every honest run.
  lemma {:induction false} HonestSession(w: World, s: Session, steps: seq<Step>)
    requires Initial(w) && HonestRun(w, s, steps)
    ensures Inv(Run(w, steps)) && SessionOk(Run(w, steps), s) && s.In(Run(w, steps))
  {
    RunInv(w, steps);
    if steps == [] {
      InitialSession(w, s);
    } else {
      var n := |steps| - 1;
      HonestSession(w, s, steps[..n]);
      SessionStep(Run(w, steps[..n]), s, steps[n]);
      SessionIn(Run(w, steps), s);
    }
  }

  // The creator's and the acceptor's stored boards.
  function CreatorBoard(w: World, s: Session): Board
    requires s.In(w)
  {
    w[s.chain].storage.At(s.CreatorKey()).moves
  }

  function AcceptorBoard(w: World, s: Session): Board
    requires s.In(w)
  {
    w[s.acceptChain].storage.At(s.AcceptorKey()).moves
  }

  // The shared history without its last move: what the player who did not make it has seen.
  lemma BeforeLast(a: seq<Entry>, p: seq<Entry>)
    requires Alternate(a, p) && a != [] && Legal(History(a, p))
    ensures var a', p' := if |a| == |p| then a else a[..|a| - 1], if |a| == |p| then p[..|p| - 1] else p;
            && Alternate(a', p') && Legal(History(a', p'))
            && History(a, p) == History(a', p') + [CellOf(LastOf(a, p).event)]
            && CellOf(LastOf(a, p).event) !in History(a', p')
            && (History(a', p') != [] ==> VerdictOf(History(a', p')) == Played)
            && a[..|p|] == (if |a| == |p| then a else a') && (|a| == |p| + 1 ==> p[..|a| - 1] == p)
            && (|a| == |p| ==> p[..|a| - 1] == p')
  {
    hide VerdictOf;
    var a', p' := if |a| == |p| then a else a[..|a| - 1], if |a| == |p| then p[..|p| - 1] else p;
    var h := History(a, p);
    assert h[..|h| - 1] == History(a', p');
  }

  // The mover's board of a game is the other player's board before the move, swapped, plus the move.
  lemma BoardsOfLast(g: Game, c: nat, mover: nat)
    requires c < 9 && mover == |g| % 2 && c !in g
    ensures Play(g + [c], mover) == Swapped(Play(g, 1 - mover))[c := 1]
    ensures Play(g, 1 - mover)[c] == 0
  {
    PlaySwaps(g);
    PlayAppend(g, mover, c);
    PlayAt(g, 1 - mover, c);
  }

  predicate SwapsButLast(t: Tapes, creators: Board, acceptors: Board)
    requires Alternate(t.a, t.p)
  {
    if t.a == [] then creators == EMPTY && acceptors == EMPTY
    else
      var c := CellOf(LastOf(t.a, t.p).event);
      if |t.a| == |t.p| then acceptors == Swapped(creators)[c := 1] && creators[c] == 0
      else creators == Swapped(acceptors)[c := 1] && acceptors[c] == 0
  }

  lemma BoardsAgreeOnTapes(t: Tapes, creators: Board, acceptors: Board)
    requires Alternate(t.a, t.p) && t.a != [] && Legal(History(t.a, t.p))
    requires creators == Play(History(t.a, t.p[..|t.a| - 1]), 0)
    requires acceptors == Play(History(t.a[..|t.p|], t.p), 1)
    ensures SwapsButLast(t, creators, acceptors)
  {
    hide Legal;
    hide Play;
    hide Swapped;
    hide VerdictOf;
    BeforeLast(t.a, t.p);
    var c := CellOf(LastOf(t.a, t.p).event);
    if |t.a| == |t.p| {
      TurnOf(t.a, t.p[..|t.p| - 1]);
      BoardsOfLast(History(t.a, t.p[..|t.p| - 1]), c, 1);
    } else {
      TurnOf(t.a[..|t.a| - 1], t.p);
      BoardsOfLast(History(t.a[..|t.a| - 1], t.p), c, 0);
    }
  }

  lemma NothingPlayed()
    ensures History([], []) == [] && Play([], 0) == EMPTY && Play([], 1) == EMPTY
  {
  }

  lemma HonestViews(w: World, s: Session, steps: seq<Step>)
    requires Initial(w) && HonestRun(w, s, steps)
    ensures var u := Run(w, steps); s.In(u) && GoodTapes(s, TapesIn(u, s))
    ensures var u := Run(w, steps); Alternate(TapesIn(u, s).a, TapesIn(u, s).p)
    ensures var u := Run(w, steps);
            var t := TapesIn(u, s);
            var v := u[s.chain].storage.At(s.CreatorKey());
            var v' := u[s.acceptChain].storage.At(s.AcceptorKey());
            && (if t.a == [] then v == NO_VIEW else CreatorView(s, t, v))
            && (if t.acc == [] then v' == NO_VIEW else AcceptorView(s, t, v'))
  {
    HonestSession(w, s, steps);
  }

  // The two stored boards are 1/2-swaps of each other up to the single last move, which only its
  // mover has on the board yet.
  lemma BoardsAgree(w: World, s: Session, steps: seq<Step>)
    requires Initial(w) && HonestRun(w, s, steps)
    ensures var u := Run(w, steps); s.In(u) && Alternate(TapesIn(u, s).a, TapesIn(u, s).p)
    ensures var u := Run(w, steps); SwapsButLast(TapesIn(u, s), CreatorBoard(u, s), AcceptorBoard(u, s))
  {
    hide Legal;
    hide Play;
    HonestViews(w, s, steps);
    var u := Run(w, steps);
    var t := TapesIn(u, s);
    if t.a != [] {
      BoardsAgreeOnTapes(t, CreatorBoard(u, s), AcceptorBoard(u, s));
    } else {
      assert t.a[..|t.p|] == [] && History([], []) == [] && Play([], 1) == EMPTY by {
        NothingPlayed();
      }
    }
  }

  lemma LastVerdict(a: seq<Entry>, p: seq<Entry>)
    requires Alternate(a, p) && a != [] && Announced(a, p)
    ensures KindOf(LastOf(a, p).event) == VerdictOf(History(a, p))
    ensures |History(a, p)| == 9 ==> !LastOf(a, p).event.MovePlayed?
  {
  }

  // The game told by the tapes, and the counter of each view in terms of its own board.
  predicate LegalAndCounted(t: Tapes, v: View, v': View)
    requires Alternate(t.a, t.p)
  {
    var h := History(t.a, t.p);
    && Legal(h) && |h| <= 9 && (|h| == 9 ==> !LastOf(t.a, t.p).event.MovePlayed?)
    && (t.a != [] ==> v.movesLeft == Empties(v.moves))
    && (t.acc != [] ==> v'.movesLeft == Empties(v'.moves))
  }

  lemma CountedHistory(a: seq<Entry>, p: seq<Entry>, me: nat)
    requires Alternate(a, p) && Legal(History(a, p)) && me < 2
    ensures Empties(Play(History(a, p), me)) == 9 - (|a| + |p|) >= 0
  {
    hide Empties;
    hide Play;
    LegalDistinct(History(a, p));
    PlayEmpties(History(a, p), me);
  }

  lemma CountedOnTapes(s: Session, t: Tapes, v: View, v': View)
    requires GoodTapes(s, t)
    requires t.a != [] ==> CreatorView(s, t, v)
    requires t.acc != [] ==> AcceptorView(s, t, v')
    ensures LegalAndCounted(t, v, v')
  {
    hide OnBoard;
    hide RisingFrom;
    hide Empties;
    hide Play;
    hide VerdictOf;
    hide Legal;
    hide Announced;
    hide CreatorView;
    hide AcceptorView;
    CountedHistory(t.a, t.p, 0);
    if t.a != [] {
      LastVerdict(t.a, t.p);
      CreatorCounted(s, t, v);
    }
    if t.acc != [] {
      AcceptorCounted(s, t, v');
    }
  }

  lemma CreatorCounted(s: Session, t: Tapes, v: View)
    requires GoodTapes(s, t) && t.a != [] && CreatorView(s, t, v)
    ensures v.movesLeft == Empties(v.moves)
  {
    hide OnBoard;
    hide RisingFrom;
    hide Empties;
    hide Play;
    hide VerdictOf;
    hide Legal;
    hide Announced;
    hide History;
    BeforeLast(t.a, t.p);
    CountedHistory(t.a, t.p[..|t.a| - 1], 0);
  }

  lemma AcceptorCounted(s: Session, t: Tapes, v: View)
    requires GoodTapes(s, t) && t.acc != [] && AcceptorView(s, t, v)
    ensures v.movesLeft == Empties(v.moves)
  {
    hide OnBoard;
    hide RisingFrom;
    hide Empties;
    hide Play;
    hide VerdictOf;
    hide Legal;
    hide Announced;
    hide History;
    if t.a != [] {
      BeforeLast(t.a, t.p);
    }
    assert t.a == [] ==> t.a[..|t.p|] == t.a;
    CountedHistory(t.a[..|t.p|], t.p, 1);
  }

  // The history is one legal game: no cell twice (so no write lands on a marked cell), at most
  // nine moves, the ninth of them ending the game; and each view's counter is its empty cells.
  lemma OneLegalGame(w: World, s: Session, steps: seq<Step>)
    requires Initial(w) && HonestRun(w, s, steps)
    ensures var u := Run(w, steps); s.In(u) && Alternate(TapesIn(u, s).a, TapesIn(u, s).p)
    ensures var u := Run(w, steps);
            LegalAndCounted(TapesIn(u, s), u[s.chain].storage.At(s.CreatorKey()),
                            u[s.acceptChain].storage.At(s.AcceptorKey()))
  {
    HonestViews(w, s, steps);
    var u := Run(w, steps);
    CountedOnTapes(s, TapesIn(u, s), u[s.chain].storage.At(s.CreatorKey()),
                   u[s.acceptChain].storage.At(s.AcceptorKey()));
  }

  // Every announcement but the last is a plain move.
  predicate AnsweredArePlain(a: seq<Entry>, p: seq<Entry>) {
    && (forall i :: 0 <= i < |a| && i < |p| ==> a[i].event.MovePlayed?)
    && (forall i :: 0 <= i < |p| && i + 1 < |a| ==> p[i].event.MovePlayed?)
  }

  // The last announcement carries the right verdict and all earlier ones are plain moves.
  predicate RightVerdict(t: Tapes)
    requires Alternate(t.a, t.p)
  {
    t.a != [] ==>
      var h := History(t.a, t.p);
      var last := LastOf(t.a, t.p);
      && (last.event.GameWon? <==> HasLine(Play(h, (|h| - 1) % 2), 1))
      && (last.event.GameDraw? <==>
           Empties(Play(h, 0)) == 0 && !HasLine(Play(h, 0), 1) && !HasLine(Play(h, 0), 2))
      && AnsweredArePlain(t.a, t.p)
  }

  // Answering the last announcement, when it is a plain move, keeps all answered ones plain.
  lemma AnsweredStep(a: seq<Entry>, p: seq<Entry>)
    requires Alternate(a, p) && a != []
    requires var a', p' := if |a| == |p| then a else a[..|a| - 1], if |a| == |p| then p[..|p| - 1] else p;
             AnsweredArePlain(a', p') && (a' != [] ==> LastOf(a', p').event.MovePlayed?)
    ensures AnsweredArePlain(a, p)
  {
  }

  lemma {:induction false} AllButLastPlayed(a: seq<Entry>, p: seq<Entry>)
    requires Alternate(a, p) && Legal(History(a, p)) && Announced(a, p)
    requires forall i :: 0 <= i < |a| ==> IsMove(a[i].event)
    requires forall i :: 0 <= i < |p| ==> IsMove(p[i].event)
    ensures AnsweredArePlain(a, p)
    decreases |a| + |p|
  {
    hide Legal;
    hide VerdictOf;
    hide Play;
    if a != [] {
      BeforeLast(a, p);
      hide History;
      var a', p' := if |a| == |p| then a else a[..|a| - 1], if |a| == |p| then p[..|p| - 1] else p;
      AllButLastPlayed(a', p');
      assert a' != [] ==> KindOf(LastOf(a', p').event) == Played;
      hide AnsweredArePlain;
      AnsweredStep(a, p);
    }
  }

  // The session announces at most one win or draw, and nothing after it: a win exactly when the
  // mover owns a line on the shared board, a draw exactly when the board is full and neither
  // player owns a line.
  lemma VerdictCorrect(w: World, s: Session, steps: seq<Step>)
    requires Initial(w) && HonestRun(w, s, steps)
    ensures var u := Run(w, steps); s.In(u) && Alternate(TapesIn(u, s).a, TapesIn(u, s).p)
    ensures RightVerdict(TapesIn(Run(w, steps), s))
  {
    HonestViews(w, s, steps);
    VerdictOnTapes(s, TapesIn(Run(w, steps), s));
  }

  lemma TapesAreMoves(s: Session, t: Tapes)
    requires GoodTapes(s, t)
    ensures forall i :: 0 <= i < |t.a| ==> IsMove(t.a[i].event)
    ensures forall i :: 0 <= i < |t.p| ==> IsMove(t.p[i].event)
  {
    hide Legal;
    hide Announced;
    hide RisingFrom;
  }

  lemma VerdictOnTapes(s: Session, t: Tapes)
    requires GoodTapes(s, t)
    ensures RightVerdict(t)
  {
    hide RightVerdict;
    hide OnBoard;
    hide RisingFrom;
    hide Legal;
    hide Announced;
    hide History;
    TapesAreMoves(s, t);
    VerdictOfLast(t);
  }

  lemma VerdictOfLast(t: Tapes)
    requires Alternate(t.a, t.p) && Legal(History(t.a, t.p)) && Announced(t.a, t.p)
    requires forall i :: 0 <= i < |t.a| ==> IsMove(t.a[i].event)
    requires forall i :: 0 <= i < |t.p| ==> IsMove(t.p[i].event)
    ensures RightVerdict(t)
  {
    hide Play;
    hide HasLine;
    hide Empties;
    hide Legal;
    hide VerdictOf;
    hide Announced;
    hide History;
    hide AnsweredArePlain;
    if t.a != [] {
      LastVerdict(t.a, t.p);
      AllButLastPlayed(t.a, t.p);
      VerdictMeaning(History(t.a, t.p));
    }
  }

  // ---- Consumption: in order, each event exactly once ----

  // A successful makeMove of the creator consumes the acceptor's latest move and extends the
  // creator's tape by one; so its n-th makeMove answers the acceptor's n-th move.
  lemma CreatorConsumesLast(w: World, s: Session, steps: seq<Step>, step: Step)
    requires Initial(w) && HonestRun(w, s, steps)
    requires var u := Run(w, steps);
             s.In(u) && Honest(u, s, step) && Consumes(u, step, s.chain, s.CreatorKey()) && step.call.CallMove?
    ensures var u := Run(w, steps); s.In(u) && s.In(Apply(u, step))
    ensures var u := Run(w, steps);
            var t := TapesIn(u, s);
            && |t.a| == |t.p| > 0
            && step.call.data == t.p[|t.p| - 1].event && step.call.id.blockNumber == t.p[|t.p| - 1].block
    ensures var t, t' := TapesIn(Run(w, steps), s), TapesIn(Apply(Run(w, steps), step), s);
            |t'.a| == |t.a| + 1 && t.a <= t'.a && t'.p == t.p
  {
    hide HonestRun;
    hide Run;
    hide Inv;
    hide SessionOk;
    hide MoveCall;
    hide HasLine;
    HonestSession(w, s, steps);
    CreatorConsumesIn(Run(w, steps), s, step);
  }

  lemma CreatorConsumesIn(u: World, s: Session, step: Step)
    requires s.In(u) && Consumes(u, step, s.chain, s.CreatorKey()) && step.call.CallMove?
    requires Honest(u, s, step) && Inv(u) && SessionOk(u, s)
    ensures s.In(Apply(u, step))
    ensures var t := TapesIn(u, s);
            && |t.a| == |t.p| > 0
            && step.call.data == t.p[|t.p| - 1].event && step.call.id.blockNumber == t.p[|t.p| - 1].block
    ensures var t, t' := TapesIn(u, s), TapesIn(Apply(u, step), s);
            |t'.a| == |t.a| + 1 && t.a <= t'.a && t'.p == t.p
  {
    hide Inv;
    hide SessionOk;
    hide MoveCall;
    hide HasLine;
    hide Admitted;
    hide GoodTapes;
    hide TapesIn;
    hide Moved;
    hide Play;
    hide VerdictOf;
    hide Announce;
    hide OnBoard;
    var (id, data, x, y) := (step.call.id, step.call.data, step.call.x, step.call.y);
    var st := u[s.chain].storage;
    MoveCallMeaning(SELF, st, s.creator, Admitted(u, id, data), id, data, x, y);
    var o := MoveCall(SELF, st, s.creator, Admitted(u, id, data), id, data, x, y);
    var v' := o.storage.games[s.CreatorKey()];
    MovedKeeps(st.games[s.CreatorKey()], v', id, data, x, y);
    TurnSealed(u, s);
    var e0 := PresentedMove(u, s, id, data);
    CreatorAnswers(s, TapesIn(u, s), st.games[s.CreatorKey()], v', id, e0, x, y);
    StepEffect(u, step);
    AnnounceIsMove(s, s.creator, x, y, v'.moves, v'.movesLeft);
    TapesCreator(u, Apply(u, step), o.storage, o.event, s);
  }

  // Likewise the acceptor's makeMove consumes the creator's latest move.
  lemma AcceptorConsumesLast(w: World, s: Session, steps: seq<Step>, step: Step)
    requires Initial(w) && HonestRun(w, s, steps)
    requires var u := Run(w, steps);
             s.In(u) && Honest(u, s, step) && Consumes(u, step, s.acceptChain, s.AcceptorKey()) && step.call.CallMove?
    ensures var u := Run(w, steps); s.In(u) && s.In(Apply(u, step))
    ensures var u := Run(w, steps);
            var t := TapesIn(u, s);
            && |t.a| == |t.p| + 1
            && step.call.data == t.a[|t.a| - 1].event && step.call.id.blockNumber == t.a[|t.a| - 1].block
    ensures var t, t' := TapesIn(Run(w, steps), s), TapesIn(Apply(Run(w, steps), step), s);
            |t'.p| == |t.p| + 1 && t.p <= t'.p && t'.a == t.a
  {
    hide HonestRun;
    hide Run;
    hide Inv;
    hide SessionOk;
    hide MoveCall;
    hide HasLine;
    HonestSession(w, s, steps);
    AcceptorConsumesIn(Run(w, steps), s, step);
  }

  lemma AcceptorConsumesIn(u: World, s: Session, step: Step)
    requires s.In(u) && Consumes(u, step, s.acceptChain, s.AcceptorKey()) && step.call.CallMove?
    requires Honest(u, s, step) && Inv(u) && SessionOk(u, s)
    ensures s.In(Apply(u, step))
    ensures var t := TapesIn(u, s);
            && |t.a| == |t.p| + 1
            && step.call.data == t.a[|t.a| - 1].event && step.call.id.blockNumber == t.a[|t.a| - 1].block
    ensures var t, t' := TapesIn(u, s), TapesIn(Apply(u, step), s);
            |t'.p| == |t.p| + 1 && t.p <= t'.p && t'.a == t.a
  {
    hide Inv;
    hide SessionOk;
    hide MoveCall;
    hide HasLine;
    hide Admitted;
    hide GoodTapes;
    hide TapesIn;
    hide Moved;
    hide Play;
    hide VerdictOf;
    hide Announce;
    hide OnBoard;
    var (id, data, x, y) := (step.call.id, step.call.data, step.call.x, step.call.y);
    var st := u[s.acceptChain].storage;
    MoveCallMeaning(SELF, st, s.acceptor, Admitted(u, id, data), id, data, x, y);
    var o := MoveCall(SELF, st, s.acceptor, Admitted(u, id, data), id, data, x, y);
    var v' := o.storage.games[s.AcceptorKey()];
    MovedKeeps(st.games[s.AcceptorKey()], v', id, data, x, y);
    TurnSealed(u, s);
    var e0 := PresentedMove(u, s, id, data);
    AcceptorAnswers(s, TapesIn(u, s), st.games[s.AcceptorKey()], v', id, e0, x, y);
    StepEffect(u, step);
    AnnounceIsMove(s, s.acceptor, x, y, v'.moves, v'.movesLeft);
    TapesAcceptor(u, Apply(u, step), o.storage, o.event, s);
  }

  // ---- Nothing follows a verdict ----

  lemma {:induction false} SelectPrefix(logs: seq<Entry>, logs': seq<Entry>, q: Query)
    requires logs <= logs'
    ensures Select(logs, q) <= Select(logs', q)
  {
    if |logs| < |logs'| {
      assert logs <= logs'[..|logs'| - 1];
      SelectPrefix(logs, logs'[..|logs'| - 1], q);
    } else {
      assert logs == logs';
    }
  }

  lemma {:induction false} LogsGrow(w: World, steps: seq<Step>, i: nat, c: nat)
    requires i <= |steps| && c in Run(w, steps[..i])
    ensures c in Run(w, steps) && Run(w, steps[..i])[c].logs <= Run(w, steps)[c].logs
  {
    if i < |steps| {
      var n := |steps| - 1;
      assert steps[..n][..i] == steps[..i];
      LogsGrow(w, steps[..n], i, c);
      assert Run(w, steps[..n])[c].logs <= Run(w, steps)[c].logs;
    } else {
      assert steps[..i] == steps;
    }
  }

  // Once a player has announced a win or a draw, the session announces nothing ever again.
  lemma VerdictIsFinal(w: World, s: Session, steps: seq<Step>, i: nat)
    requires Initial(w) && HonestRun(w, s, steps) && i <= |steps|
    requires var u := Run(w, steps[..i]);
             && s.In(u) && Alternate(TapesIn(u, s).a, TapesIn(u, s).p) && TapesIn(u, s).a != []
             && !LastOf(TapesIn(u, s).a, TapesIn(u, s).p).event.MovePlayed?
    ensures s.In(Run(w, steps))
    ensures TapesIn(Run(w, steps), s).a == TapesIn(Run(w, steps[..i]), s).a
    ensures TapesIn(Run(w, steps), s).p == TapesIn(Run(w, steps[..i]), s).p
  {
    var u, u' := Run(w, steps[..i]), Run(w, steps);
    VerdictCorrect(w, s, steps);
    LogsGrow(w, steps, i, s.chain);
    LogsGrow(w, steps, i, s.acceptChain);
    SelectPrefix(u[s.chain].logs, u'[s.chain].logs, Moves(s.chain, s.gameId, s.creator));
    SelectPrefix(u[s.acceptChain].logs, u'[s.acceptChain].logs, Moves(s.chain, s.gameId, s.acceptor));
    FinalTapes(TapesIn(u, s), TapesIn(u', s));
  }

  lemma FinalTapes(t: Tapes, t': Tapes)
    requires Alternate(t.a, t.p) && t.a != [] && !LastOf(t.a, t.p).event.MovePlayed?
    requires Alternate(t'.a, t'.p) && RightVerdict(t')
    requires t.a <= t'.a && t.p <= t'.p
    ensures t'.a == t.a && t'.p == t.p
  {
    hide Play;
    hide HasLine;
    hide Empties;
    hide History;
    assert AnsweredArePlain(t'.a, t'.p);
    if |t.a| == |t.p| {
      assert t'.p[|t.p| - 1] == LastOf(t.a, t.p);
    } else {
      assert t'.a[|t.a| - 1] == LastOf(t.a, t.p);
    }
  }

  // ---- Why the acceptance and the consumed player must be honest ----

  // makeMove does not look at who played the move it consumes.
  lemma MovePlayerIgnored(st: Storage, sender: Address, admitted: bool, id: Identifier,
                          c: nat, g: nat, p: Address, q: Address, dx: nat, dy: nat, x: nat, y: nat)
    ensures MoveCall(SELF, st, sender, admitted, id, MovePlayed(c, g, p, dx, dy), x, y)
         == MoveCall(SELF, st, sender, admitted, id, MovePlayed(c, g, q, dx, dy), x, y)
  {
  }

  // Accepting again restores nine moves but keeps the marks: the counter equals the number of
  // empty cells after an acceptance exactly when the board was still empty.
  lemma AcceptAgain(st: Storage, sender: Address, id: Identifier, data: Event)
    requires AcceptCall(SELF, st, sender, true, id, data).Done?
    ensures var k := Key(data.chainId, data.gameId, sender);
            var v := AcceptCall(SELF, st, sender, true, id, data).storage.At(k);
            v.movesLeft == Empties(v.moves) <==> st.At(k).moves == EMPTY
  {
    var b := st.At(Key(data.chainId, data.gameId, sender)).moves;
    EmptiesFull(b);
    assert EMPTY == seq(9, _ => 0);
  }

  lemma {:induction false} EmptiesFull(b: seq<nat>)
    ensures Empties(b) <= |b|
    ensures Empties(b) == |b| <==> b == seq(|b|, _ => 0)
  {
    if b != [] {
      var n := |b| - 1;
      EmptiesFull(b[..n]);
      assert seq(n + 1, _ => 0)[..n] == seq(n, _ => 0);
      assert b == b[..n] + [b[n]];
      assert seq(n + 1, _ => 0) == seq(n, _ => 0) + [0];
    }
  }

  // ---- Progress ----

  // How a sealed log entry is presented to the contract.
  function PlaceOf(w: World, ch: nat, e: Entry): Identifier
    requires ch in w && e.block < |w[ch].times|
  {
    Identifier(e.origin, e.block, e.index, w[ch].times[e.block], ch)
  }

  lemma PlaceAdmitted(w: World, ch: nat, e: Entry)
    requires ch in w && e in w[ch].logs && e.block < |w[ch].times|
    ensures Admitted(w, PlaceOf(w, ch, e), e.event)
  {
    var i :| 0 <= i < |w[ch].logs| && w[ch].logs[i] == e;
    assert At(w[ch].logs[i], PlaceOf(w, ch, e), e.event);
  }

  // In every reachable state anybody but the creator can accept a sealed invitation, from any
  // chain; the acceptor's view then has nine moves left and has seen the invitation.
  lemma AnyoneCanAccept(w: World, steps: seq<Step>, c: nat, e: Entry, ch: nat, p: Address)
    requires Initial(w)
    requires var u := Run(w, steps);
             && c in u && e in u[c].logs && e.block < |u[c].times| && ch in u
             && e.origin == SELF && e.event.NewGame? && p != e.event.player
    ensures var u := Run(w, steps);
            var (id, k) := (PlaceOf(u, c, e), Key(c, e.event.gameId, p));
            var o := Execute(u, ch, p, CallAccept(id, e.event));
            && o.Done? && o.event == AcceptedGame(c, e.event.gameId, e.event.player, p)
            && (forall k' :: k' != k ==> o.storage.At(k') == u[ch].storage.At(k'))
            && var v := o.storage.At(k);
            && v.player == p && v.opponent == e.event.player && v.gameId == e.event.gameId
            && v.movesLeft == 9 && v.lastOpponentId == id && v.moves == u[ch].storage.At(k).moves
  {
    RunInv(w, steps);
    var u := Run(w, steps);
    PlaceAdmitted(u, c, e);
    hide Admitted;
    hide Run;
    assert ChainOk(u, c);
    assert EntryOk(u, c, e);
  }

  // Once the acceptance is sealed, the creator can start on any cell of the board.
  lemma CreatorCanStart(w: World, s: Session, steps: seq<Step>, x: nat, y: nat)
    requires Initial(w) && HonestRun(w, s, steps) && x < 3 && y < 3
    requires var u := Run(w, steps); s.In(u) && CreatorToStart(TapesIn(u, s), |u[s.acceptChain].times|)
    ensures var u := Run(w, steps);
            var e := TapesIn(u, s).acc[0];
            Execute(u, s.chain, s.creator, CallStart(PlaceOf(u, s.acceptChain, e), e.event, x, y)).Done?
  {
    HonestSession(w, s, steps);
    CreatorCanStartIn(Run(w, steps), s, x, y);
  }

  predicate CreatorToStart(t: Tapes, acceptHeight: nat) {
    t.a == [] && t.acc != [] && t.acc[0].block < acceptHeight
  }

  lemma CreatorCanStartIn(u: World, s: Session, x: nat, y: nat)
    requires s.In(u) && CreatorToStart(TapesIn(u, s), |u[s.acceptChain].times|) && x < 3 && y < 3
    requires SessionOk(u, s)
    ensures var e := TapesIn(u, s).acc[0];
            Execute(u, s.chain, s.creator, CallStart(PlaceOf(u, s.acceptChain, e), e.event, x, y)).Done?
  {
    hide Admitted;
    hide Legal;
    hide Announced;
    hide History;
    var e := TapesIn(u, s).acc[0];
    SelectSound(u[s.acceptChain].logs, Acceptances(s.chain, s.gameId, s.acceptor));
    PlaceAdmitted(u, s.acceptChain, e);
  }

  // In a started, unfinished session whose last announcement is sealed, the player to move can
  // play any cell that is empty on the shared board: no check of makeMove reverts.
  lemma CreatorCanMove(w: World, s: Session, steps: seq<Step>, x: nat, y: nat)
    requires Initial(w) && HonestRun(w, s, steps) && x < 3 && y < 3
    requires var u := Run(w, steps); s.In(u) && CreatorToMove(TapesIn(u, s), |u[s.acceptChain].times|, x, y)
    ensures var u := Run(w, steps);
            var e := TapesIn(u, s).p[|TapesIn(u, s).p| - 1];
            Execute(u, s.chain, s.creator, CallMove(PlaceOf(u, s.acceptChain, e), e.event, x, y)).Done?
  {
    HonestSession(w, s, steps);
    CreatorCanMoveIn(Run(w, steps), s, x, y);
  }

  predicate CreatorToMove(t: Tapes, acceptHeight: nat, x: nat, y: nat) {
    && x < 3 && y < 3 && t.p != [] && |t.a| == |t.p|
    && t.p[|t.p| - 1].event.MovePlayed? && t.p[|t.p| - 1].block < acceptHeight
    && CellIndex(x, y) !in History(t.a, t.p)
  }

  predicate AcceptorToMove(t: Tapes, height: nat, x: nat, y: nat) {
    && x < 3 && y < 3 && |t.a| == |t.p| + 1
    && t.a[|t.a| - 1].event.MovePlayed? && t.a[|t.a| - 1].block < height
    && CellIndex(x, y) !in History(t.a, t.p)
  }

  lemma CreatorCanMoveIn(u: World, s: Session, x: nat, y: nat)
    requires s.In(u) && CreatorToMove(TapesIn(u, s), |u[s.acceptChain].times|, x, y)
    requires SessionOk(u, s)
    ensures var e := TapesIn(u, s).p[|TapesIn(u, s).p| - 1];
            Execute(u, s.chain, s.creator, CallMove(PlaceOf(u, s.acceptChain, e), e.event, x, y)).Done?
  {
    hide Admitted;
    hide MoveCall;
    hide GoodTapes;
    hide CreatorView;
    hide SessionOk;
    hide Moved;
    hide History;
    var t := TapesIn(u, s);
    var e := t.p[|t.p| - 1];
    TurnSealed(u, s);
    SelectSound(u[s.acceptChain].logs, Moves(s.chain, s.gameId, s.acceptor));
    PlaceAdmitted(u, s.acceptChain, e);
    var v := u[s.chain].storage.games[s.CreatorKey()];
    var id := PlaceOf(u, s.acceptChain, e);
    var v' := CreatorMovable(s, t, v, id, x, y);
    CreatorOwns(s, t, v);
    OnTape(s, t);
    MoveCallMeaning(SELF, u[s.chain].storage, s.creator, Admitted(u, id, e.event), id, e.event, x, y);
  }

  lemma CreatorOwns(s: Session, t: Tapes, v: View)
    requires GoodTapes(s, t) && CreatorView(s, t, v)
    ensures v.player == s.creator && v.gameId == s.gameId
  {
  }

  lemma AcceptorOwns(s: Session, t: Tapes, v: View)
    requires GoodTapes(s, t) && AcceptorView(s, t, v)
    ensures v.player == s.acceptor && v.gameId == s.gameId
  {
  }

  lemma OnTape(s: Session, t: Tapes)
    requires GoodTapes(s, t)
    ensures OnBoard(t.a, s, s.creator) && OnBoard(t.p, s, s.acceptor)
  {
  }

  lemma CreatorMovable(s: Session, t: Tapes, v: View, id: Identifier, x: nat, y: nat) returns (v': View)
    requires Alternate(t.a, t.p) && x < 3 && y < 3
    requires GoodTapes(s, t) && CreatorView(s, t, v) && t.p != [] && |t.a| == |t.p|
    requires var e := t.p[|t.p| - 1];
             && e.event.MovePlayed? && id.blockNumber == e.block && id.chainId == s.acceptChain
    requires CellIndex(x, y) !in History(t.a, t.p)
    ensures Moved(v, v', id, t.p[|t.p| - 1].event, x, y)
  {
    hide VerdictOf;
    hide Play;
    hide Legal;
    var e := t.p[|t.p| - 1];
    LastVerdict(t.a, t.p);
    FreeCell(History(t.a, t.p[..|t.p| - 1]), 0, CellOf(e.event), CellIndex(x, y));
    SpaceLeft(s, t);
    var seen: Board := v.moves[CellIndex(e.event.x, e.event.y) := 2];
    v' := v.(moves := seen[CellIndex(x, y) := 1], movesLeft := v.movesLeft - 2, lastOpponentId := id);
  }

  // An empty cell of the shared board is empty on the mover's board after the opponent's mark.
  lemma FreeCell(g: Game, me: nat, d: nat, c: nat)
    requires me < 2 && d < 9 && c < 9 && c !in g + [d]
    ensures Play(g, me)[d := 2][c] == 0
  {
    PlayAt(g, me, c);
    assert c !in g && c != d;
  }

  // A game that is not over has fewer than nine moves.
  lemma SpaceLeft(s: Session, t: Tapes)
    requires GoodTapes(s, t) && t.a != [] && LastOf(t.a, t.p).event.MovePlayed?
    ensures |t.a| + |t.p| <= 8
  {
    hide Play;
    var h := History(t.a, t.p);
    LastVerdict(t.a, t.p);
    VerdictMeaning(h);
  }

  lemma AcceptorCanMove(w: World, s: Session, steps: seq<Step>, x: nat, y: nat)
    requires Initial(w) && HonestRun(w, s, steps) && x < 3 && y < 3
    requires var u := Run(w, steps); s.In(u) && AcceptorToMove(TapesIn(u, s), |u[s.chain].times|, x, y)
    ensures var u := Run(w, steps);
            var e := TapesIn(u, s).a[|TapesIn(u, s).a| - 1];
            Execute(u, s.acceptChain, s.acceptor, CallMove(PlaceOf(u, s.chain, e), e.event, x, y)).Done?
  {
    HonestSession(w, s, steps);
    AcceptorCanMoveIn(Run(w, steps), s, x, y);
  }

  lemma AcceptorCanMoveIn(u: World, s: Session, x: nat, y: nat)
    requires s.In(u) && AcceptorToMove(TapesIn(u, s), |u[s.chain].times|, x, y)
    requires SessionOk(u, s)
    ensures var e := TapesIn(u, s).a[|TapesIn(u, s).a| - 1];
            Execute(u, s.acceptChain, s.acceptor, CallMove(PlaceOf(u, s.chain, e), e.event, x, y)).Done?
  {
    hide Admitted;
    hide MoveCall;
    hide GoodTapes;
    hide AcceptorView;
    hide SessionOk;
    hide Moved;
    hide History;
    var t := TapesIn(u, s);
    var e := t.a[|t.a| - 1];
    TurnSealed(u, s);
    SelectSound(u[s.chain].logs, Moves(s.chain, s.gameId, s.creator));
    PlaceAdmitted(u, s.chain, e);
    var v := u[s.acceptChain].storage.games[s.AcceptorKey()];
    var id := PlaceOf(u, s.chain, e);
    var v' := AcceptorMovable(s, t, v, id, x, y);
    AcceptorOwns(s, t, v);
    OnTape(s, t);
    MoveCallMeaning(SELF, u[s.acceptChain].storage, s.acceptor, Admitted(u, id, e.event), id, e.event, x, y);
  }

  lemma AcceptorMovable(s: Session, t: Tapes, v: View, id: Identifier, x: nat, y: nat) returns (v': View)
    requires Alternate(t.a, t.p) && x < 3 && y < 3
    requires GoodTapes(s, t) && AcceptorView(s, t, v) && |t.a| == |t.p| + 1
    requires var e := t.a[|t.a| - 1];
             && e.event.MovePlayed? && id.blockNumber == e.block && id.chainId == s.chain
    requires CellIndex(x, y) !in History(t.a, t.p)
    ensures Moved(v, v', id, t.a[|t.a| - 1].event, x, y)
  {
    hide VerdictOf;
    hide Play;
    hide Legal;
    var e := t.a[|t.a| - 1];
    LastVerdict(t.a, t.p);
    FreeCell(History(t.a[..|t.a| - 1], t.p), 1, CellOf(e.event), CellIndex(x, y));
    SpaceLeft(s, t);
    var seen: Board := v.moves[CellIndex(e.event.x, e.event.y) := 2];
    v' := v.(moves := seen[CellIndex(x, y) := 1], movesLeft := v.movesLeft - 2, lastOpponentId := id);
  }
}
