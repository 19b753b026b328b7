// One game between a creator and one acceptor who follow the client, among arbitrary third
// parties: the two local views, updated only through the logs, describe one game of tic-tac-toe.
module TicTacToeSession {
  import opened Boards
  import opened Interop
  import opened TicTacToeContract
  import opened TicTacToeWorld

  // Game gameId of chain, created there by creator; acceptor plays from acceptChain.
  datatype Session = Session(chain: nat, gameId: nat, creator: Address, acceptChain: nat, acceptor: Address) {
    function CreatorKey(): Key { Key(chain, gameId, creator) }

    function AcceptorKey(): Key { Key(chain, gameId, acceptor) }

    predicate In(w: World) {
      chain in w && acceptChain in w && creator != acceptor && creator != ZERO && acceptor != ZERO
    }
  }

  // What the two chains' logs say about a session: its NewGame, its acceptance, and the moves
  // that the creator (a) and the acceptor (p) announced.
  datatype Tapes = Tapes(news: seq<Entry>, acc: seq<Entry>, a: seq<Entry>, p: seq<Entry>)

  function TapesOf(s: Session, logs: seq<Entry>, acceptLogs: seq<Entry>): Tapes {
    Tapes(Select(logs, NewGames(s.chain, s.gameId)),
          Select(acceptLogs, Acceptances(s.chain, s.gameId, s.acceptor)),
          Select(logs, Moves(s.chain, s.gameId, s.creator)),
          Select(acceptLogs, Moves(s.chain, s.gameId, s.acceptor)))
  }

  // ---- The shared history: the two tapes interleaved, the creator first ----

  predicate Alternate(a: seq<Entry>, p: seq<Entry>) {
    |p| <= |a| <= |p| + 1
  }

  // The entry announced last.
  function LastOf(a: seq<Entry>, p: seq<Entry>): Entry
    requires Alternate(a, p) && a != []
  {
    if |a| == |p| then p[|p| - 1] else a[|a| - 1]
  }

  function CellOf(event: Event): (c: nat)
    ensures c < 9
  {
    if IsMove(event) && event.x < 3 && event.y < 3 then CellIndex(event.x, event.y) else 0
  }

  function History(a: seq<Entry>, p: seq<Entry>): (h: Game)
    requires Alternate(a, p)
    ensures |h| == |a| + |p|
    decreases |a| + |p|
  {
    if a == [] then []
    else if |a| == |p| then History(a, p[..|p| - 1]) + [CellOf(p[|p| - 1].event)]
    else History(a[..|a| - 1], p) + [CellOf(a[|a| - 1].event)]
  }

  // Whose turn it is: 0 for the creator, 1 for the acceptor.
  lemma TurnOf(a: seq<Entry>, p: seq<Entry>)
    requires Alternate(a, p)
    ensures |History(a, p)| % 2 == if |a| == |p| then 0 else 1
  {
    var n := |p|;
    assert |a| == |p| ==> |a| + |p| == 2 * n;
    assert |a| == |p| + 1 ==> |a| + |p| == 2 * n + 1;
  }

  function KindOf(event: Event): Verdict {
    if event.GameWon? then Won else if event.GameDraw? then Drawn else Played
  }

  // Every announcement carries the verdict on the shared game so far.
  predicate Announced(a: seq<Entry>, p: seq<Entry>)
    requires Alternate(a, p)
    decreases |a| + |p|
  {
    a == [] ||
    (&& KindOf(LastOf(a, p).event) == VerdictOf(History(a, p))
     && if |a| == |p| then Announced(a, p[..|p| - 1]) else Announced(a[..|a| - 1], p))
  }

  predicate Rising(es: seq<Entry>) {
    |es| < 2 || (Rising(es[..|es| - 1]) && es[|es| - 2].block < es[|es| - 1].block)
  }

  // A player's announcements: the opening one (NewGame or acceptance), then its moves.
  predicate RisingFrom(first: seq<Entry>, tape: seq<Entry>) {
    Rising(tape) && (first != [] && tape != [] ==> first[0].block < tape[0].block)
  }

  // The block of the n-th announcement, counting the opening one as number 0.
  function BlockOf(first: seq<Entry>, tape: seq<Entry>, n: nat): nat
    requires first != [] && n <= |tape|
  {
    if n == 0 then first[0].block else tape[n - 1].block
  }

  predicate OnBoard(es: seq<Entry>, s: Session, player: Address) {
    forall i :: 0 <= i < |es| ==>
      && IsMove(es[i].event) && es[i].event.x < 3 && es[i].event.y < 3 && es[i].event.player == player
      && es[i].event.chainId == s.chain && es[i].event.gameId == s.gameId
      && es[i].origin == SELF
  }

  // The tapes tell one legal game with correct verdicts, each side in strictly later blocks.
  predicate GoodTapes(s: Session, t: Tapes) {
    && |t.news| <= 1 && |t.acc| <= 1 && |t.acc| <= |t.news|
    && (t.a != [] ==> t.acc != [])
    && (t.news != [] ==> t.news[0].origin == SELF && t.news[0].event == NewGame(s.chain, s.gameId, s.creator))
    && (t.acc != [] ==>
         t.acc[0].origin == SELF && t.acc[0].event == AcceptedGame(s.chain, s.gameId, s.creator, s.acceptor))
    && Alternate(t.a, t.p)
    && OnBoard(t.a, s, s.creator) && OnBoard(t.p, s, s.acceptor)
    && RisingFrom(t.news, t.a) && RisingFrom(t.acc, t.p)
    && Legal(History(t.a, t.p))
    && Announced(t.a, t.p)
  }

  // ---- The stored views in terms of the tapes ----

  // The creator has seen all but the acceptor's move after the creator's own last one.
  predicate CreatorView(s: Session, t: Tapes, v: View)
    requires GoodTapes(s, t)
  {
    && t.a != []
    && v.player == s.creator && v.opponent == s.acceptor && v.gameId == s.gameId
    && v.moves == Play(History(t.a, t.p[..|t.a| - 1]), 0)
    && v.movesLeft == 10 - |t.a| - |t.a|
    && v.lastOpponentId.chainId == s.acceptChain
    && v.lastOpponentId.blockNumber == BlockOf(t.acc, t.p, |t.a| - 1)
  }

  predicate AcceptorView(s: Session, t: Tapes, v: View)
    requires GoodTapes(s, t)
  {
    && t.acc != []
    && v.player == s.acceptor && v.opponent == s.creator && v.gameId == s.gameId
    && v.moves == Play(History(t.a[..|t.p|], t.p), 1)
    && v.movesLeft == 9 - |t.p| - |t.p|
    && v.lastOpponentId.chainId == s.chain
    && v.lastOpponentId.blockNumber == BlockOf(t.news, t.a, |t.p|)
  }

  // Everything that has been consumed lies in a sealed block.
  predicate ConsumedSealed(t: Tapes, height: nat, acceptHeight: nat) {
    && (t.acc != [] ==> t.news != [] && t.news[0].block < height)
    && (t.a != [] ==> t.acc != [] && t.acc[0].block < acceptHeight)
    && (forall i :: 0 <= i < |t.a| && i < |t.p| ==> t.a[i].block < height)
    && (forall i :: 0 <= i < |t.p| && i + 1 < |t.a| ==> t.p[i].block < acceptHeight)
  }

  function TapesIn(w: World, s: Session): Tapes
    requires s.In(w)
  {
    TapesOf(s, w[s.chain].logs, w[s.acceptChain].logs)
  }

  ghost predicate SessionOk(w: World, s: Session) {
    && s.In(w)
    && var t := TapesIn(w, s);
    && var games := w[s.chain].storage.games;
    && var acceptGames := w[s.acceptChain].storage.games;
    && GoodTapes(s, t)
    && ConsumedSealed(t, |w[s.chain].times|, |w[s.acceptChain].times|)
    && (s.CreatorKey() in games <==> t.a != [])
    && (s.AcceptorKey() in acceptGames <==> t.acc != [])
    && (t.a != [] ==> CreatorView(s, t, games[s.CreatorKey()]))
    && (t.acc != [] ==> AcceptorView(s, t, acceptGames[s.AcceptorKey()]))
  }

  // ---- Honesty ----

  predicate AboutGame(s: Session, data: Event) {
    !data.Foreign? && data.chainId == s.chain && data.gameId == s.gameId
  }

  // The acceptor accepts once, the creator starts on that acceptance, and each of the two
  // answers moves of the other. Nothing is asked of anybody else.
  predicate Honest(w: World, s: Session, step: Step)
    requires s.In(w)
  {
    step.Tx? ==>
      match step.call
      case CallNewGame =>
        step.chain == s.chain && w[s.chain].storage.nextGameId == s.gameId ==> step.sender == s.creator
      case CallAccept(id, data) =>
        step.chain == s.acceptChain && step.sender == s.acceptor && AboutGame(s, data) ==>
          s.AcceptorKey() !in w[s.acceptChain].storage.games
      case CallStart(id, data, x, y) =>
        step.chain == s.chain && step.sender == s.creator && data.AcceptedGame? && AboutGame(s, data) ==>
          data.player == s.acceptor && id.chainId == s.acceptChain
      case CallMove(id, data, x, y) =>
        data.MovePlayed? && AboutGame(s, data) ==>
          && (step.chain == s.chain && step.sender == s.creator ==> data.player == s.acceptor)
          && (step.chain == s.acceptChain && step.sender == s.acceptor ==> data.player == s.creator)
  }

  // ---- Extending the history ----

  lemma ExtendHistory(a: seq<Entry>, p: seq<Entry>, e: Entry)
    requires Alternate(a, p)
    ensures |a| == |p| ==> History(a + [e], p) == History(a, p) + [CellOf(e.event)]
    ensures |a| == |p| + 1 ==> History(a, p + [e]) == History(a, p) + [CellOf(e.event)]
  {
    assert (a + [e])[..|a|] == a && (p + [e])[..|p|] == p;
  }

  lemma ExtendLegal(h: Game, c: nat)
    requires Legal(h) && (h != [] ==> VerdictOf(h) == Played) && c < 9 && c !in h
    ensures Legal(h + [c])
  {
    hide VerdictOf;
    var g: Game := h + [c];
    assert g[..|h|] == h;
  }

  lemma ExtendAnnounced(a: seq<Entry>, p: seq<Entry>, e: Entry)
    requires Alternate(a, p) && Announced(a, p)
    requires var h: Game := History(a, p) + [CellOf(e.event)]; KindOf(e.event) == VerdictOf(h)
    ensures |a| == |p| ==> Announced(a + [e], p)
    ensures |a| == |p| + 1 ==> Announced(a, p + [e])
  {
    hide VerdictOf;
    ExtendHistory(a, p, e);
    assert (a + [e])[..|a|] == a && (p + [e])[..|p|] == p;
  }

  // The next announcement of the player to move, with the verdict on the extended game.
  predicate NextMove(s: Session, player: Address, h: Game, e: Entry) {
    && OnBoard([e], s, player)
    && CellOf(e.event) !in h
    && (h != [] ==> VerdictOf(h) == Played)
    && var g: Game := h + [CellOf(e.event)];
    && KindOf(e.event) == VerdictOf(g)
  }

  // e comes after everything the player announced.
  predicate Later(first: seq<Entry>, tape: seq<Entry>, e: Entry) {
    first != [] ==> BlockOf(first, tape, |tape|) < e.block
  }

  lemma RisingAppend(first: seq<Entry>, tape: seq<Entry>, e: Entry)
    requires RisingFrom(first, tape) && first != [] && Later(first, tape, e)
    ensures RisingFrom(first, tape + [e])
  {
    assert (tape + [e])[..|tape|] == tape;
  }

  lemma {:induction false} RisingOrder(es: seq<Entry>, i: nat, j: nat)
    requires Rising(es) && i <= j < |es|
    ensures es[i].block <= es[j].block
  {
    if i < j {
      if j == |es| - 1 {
        RisingOrder(es[..|es| - 1], i, j - 1);
      } else {
        RisingOrder(es[..|es| - 1], i, j);
      }
    }
  }

  lemma OnBoardAppend(es: seq<Entry>, e: Entry, s: Session, player: Address)
    requires OnBoard(es, s, player) && OnBoard([e], s, player)
    ensures OnBoard(es + [e], s, player)
  {
    assert [e][0] == e;
  }

  lemma CreatorPlays(s: Session, t: Tapes, e: Entry)
    requires GoodTapes(s, t) && |t.a| == |t.p| && t.acc != []
    requires NextMove(s, s.creator, History(t.a, t.p), e) && Later(t.news, t.a, e)
    ensures GoodTapes(s, t.(a := t.a + [e]))
    ensures History(t.a + [e], t.p) == History(t.a, t.p) + [CellOf(e.event)]
  {
    ExtendHistory(t.a, t.p, e);
    ExtendLegal(History(t.a, t.p), CellOf(e.event));
    ExtendAnnounced(t.a, t.p, e);
    RisingAppend(t.news, t.a, e);
    OnBoardAppend(t.a, e, s, s.creator);
  }

  lemma AcceptorPlays(s: Session, t: Tapes, e: Entry)
    requires GoodTapes(s, t) && |t.a| == |t.p| + 1
    requires NextMove(s, s.acceptor, History(t.a, t.p), e) && Later(t.acc, t.p, e)
    ensures GoodTapes(s, t.(p := t.p + [e]))
    ensures History(t.a, t.p + [e]) == History(t.a, t.p) + [CellOf(e.event)]
  {
    ExtendHistory(t.a, t.p, e);
    ExtendLegal(History(t.a, t.p), CellOf(e.event));
    ExtendAnnounced(t.a, t.p, e);
    RisingAppend(t.acc, t.p, e);
    OnBoardAppend(t.p, e, s, s.acceptor);
  }

  // A move of one player does not touch what the other player's view has seen.
  lemma AcceptorUnmoved(s: Session, t: Tapes, e: Entry, v: View)
    requires GoodTapes(s, t) && |t.a| == |t.p| && AcceptorView(s, t, v)
    requires GoodTapes(s, t.(a := t.a + [e]))
    ensures AcceptorView(s, t.(a := t.a + [e]), v)
  {
    hide Legal;
    hide Announced;
    hide OnBoard;
    hide Rising;
    hide Play;
    assert (t.a + [e])[..|t.p|] == t.a[..|t.p|];
  }

  lemma CreatorUnmoved(s: Session, t: Tapes, e: Entry, v: View)
    requires GoodTapes(s, t) && |t.a| == |t.p| + 1 && CreatorView(s, t, v)
    requires GoodTapes(s, t.(p := t.p + [e]))
    ensures CreatorView(s, t.(p := t.p + [e]), v)
  {
    hide Legal;
    hide Announced;
    hide OnBoard;
    hide Rising;
    hide Play;
    assert (t.p + [e])[..|t.a| - 1] == t.p[..|t.a| - 1];
  }

  // The only opposing move that lies beyond the last one consumed is the single pending one.
  lemma Pending(first: seq<Entry>, tape: seq<Entry>, seen: nat, e: Entry)
    requires RisingFrom(first, tape) && first != [] && seen <= |tape| <= seen + 1
    requires e in tape && BlockOf(first, tape, seen) < e.block
    ensures |tape| == seen + 1 && e == tape[seen]
  {
    var i :| 0 <= i < |tape| && tape[i] == e;
    if i < seen {
      RisingOrder(tape, i, seen - 1);
    }
  }

  // ---- Steps that do not concern the session ----

  // Neither the tapes nor the two views of the session change, and chains only grow.
  predicate Untouched(w: World, w': World, s: Session)
    requires s.In(w)
  {
    && s.In(w')
    && TapesIn(w', s) == TapesIn(w, s)
    && |w[s.chain].times| <= |w'[s.chain].times| && |w[s.acceptChain].times| <= |w'[s.acceptChain].times|
    && var (g, g') := (w[s.chain].storage.games, w'[s.chain].storage.games);
    && var (h, h') := (w[s.acceptChain].storage.games, w'[s.acceptChain].storage.games);
    && (s.CreatorKey() in g' <==> s.CreatorKey() in g)
    && (s.CreatorKey() in g ==> g'[s.CreatorKey()] == g[s.CreatorKey()])
    && (s.AcceptorKey() in h' <==> s.AcceptorKey() in h)
    && (s.AcceptorKey() in h ==> h'[s.AcceptorKey()] == h[s.AcceptorKey()])
  }

  lemma SessionFrame(w: World, w': World, s: Session)
    requires SessionOk(w, s) && Untouched(w, w', s)
    ensures SessionOk(w', s)
  {
  }

  lemma QuietTapes(w: World, w': World, ch: nat, s: Session)
    requires Quiet(w, w', ch) && s.In(w)
    ensures s.In(w') && TapesIn(w', s) == TapesIn(w, s)
  {
    QuietSelect(w, w', ch, s.chain, NewGames(s.chain, s.gameId));
    QuietSelect(w, w', ch, s.acceptChain, Acceptances(s.chain, s.gameId, s.acceptor));
    QuietSelect(w, w', ch, s.chain, Moves(s.chain, s.gameId, s.creator));
    QuietSelect(w, w', ch, s.acceptChain, Moves(s.chain, s.gameId, s.acceptor));
  }

  // How one logged event shows on the tapes.
  lemma LoggedTapes(w: World, w': World, ch: nat, st: Storage, event: Event, s: Session)
    requires Logged(w, w', ch, st, event) && s.In(w)
    ensures s.In(w')
    ensures var t := TapesIn(w, s);
            var e := NextEntry(w[ch], event);
            TapesIn(w', s) == Tapes(
              if ch == s.chain && Hits(NewGames(s.chain, s.gameId), e) then t.news + [e] else t.news,
              if ch == s.acceptChain && Hits(Acceptances(s.chain, s.gameId, s.acceptor), e) then t.acc + [e] else t.acc,
              if ch == s.chain && Hits(Moves(s.chain, s.gameId, s.creator), e) then t.a + [e] else t.a,
              if ch == s.acceptChain && Hits(Moves(s.chain, s.gameId, s.acceptor), e) then t.p + [e] else t.p)
  {
    LoggedSelect(w, w', ch, st, event, s.chain, NewGames(s.chain, s.gameId));
    LoggedSelect(w, w', ch, st, event, s.acceptChain, Acceptances(s.chain, s.gameId, s.acceptor));
    LoggedSelect(w, w', ch, st, event, s.chain, Moves(s.chain, s.gameId, s.creator));
    LoggedSelect(w, w', ch, st, event, s.acceptChain, Moves(s.chain, s.gameId, s.acceptor));
  }

  lemma TapesNewGame(w: World, w': World, st: Storage, event: Event, s: Session)
    requires s.In(w) && Logged(w, w', s.chain, st, event) && event.NewGame?
    requires event.chainId == s.chain && event.gameId == s.gameId
    ensures s.In(w') && var t := TapesIn(w, s);
            TapesIn(w', s) == t.(news := t.news + [NextEntry(w[s.chain], event)])
  {
    LoggedTapes(w, w', s.chain, st, event, s);
  }

  lemma TapesAccept(w: World, w': World, st: Storage, event: Event, s: Session)
    requires s.In(w) && Logged(w, w', s.acceptChain, st, event) && event.AcceptedGame?
    requires event.chainId == s.chain && event.gameId == s.gameId && event.player == s.acceptor
    ensures s.In(w') && var t := TapesIn(w, s);
            TapesIn(w', s) == t.(acc := t.acc + [NextEntry(w[s.acceptChain], event)])
  {
    LoggedTapes(w, w', s.acceptChain, st, event, s);
  }

  lemma TapesCreator(w: World, w': World, st: Storage, event: Event, s: Session)
    requires s.In(w) && Logged(w, w', s.chain, st, event) && IsMove(event)
    requires event.chainId == s.chain && event.gameId == s.gameId && event.player == s.creator
    ensures s.In(w') && var t := TapesIn(w, s);
            TapesIn(w', s) == t.(a := t.a + [NextEntry(w[s.chain], event)])
  {
    LoggedTapes(w, w', s.chain, st, event, s);
  }

  lemma TapesAcceptor(w: World, w': World, st: Storage, event: Event, s: Session)
    requires s.In(w) && Logged(w, w', s.acceptChain, st, event) && IsMove(event)
    requires event.chainId == s.chain && event.gameId == s.gameId && event.player == s.acceptor
    ensures s.In(w') && var t := TapesIn(w, s);
            TapesIn(w', s) == t.(p := t.p + [NextEntry(w[s.acceptChain], event)])
  {
    LoggedTapes(w, w', s.acceptChain, st, event, s);
  }

  // ---- The steps that do ----

  lemma FirstTape(s: Session, e: Entry)
    requires e.origin == SELF && e.event == NewGame(s.chain, s.gameId, s.creator)
    ensures GoodTapes(s, Tapes([e], [], [], []))
  {
    assert History([], []) == [];
  }

  // Before its NewGame nothing of the session exists.
  lemma NothingYet(w: World, s: Session)
    requires Inv(w) && SessionOk(w, s) && w[s.chain].storage.nextGameId <= s.gameId
    ensures TapesIn(w, s) == Tapes([], [], [], [])
    ensures s.CreatorKey() !in w[s.chain].storage.games && s.AcceptorKey() !in w[s.acceptChain].storage.games
  {
    assert ChainOk(w, s.chain);
    assert TapesIn(w, s).news == [];
  }

  lemma NewGameSession(w: World, w': World, s: Session)
    requires s.In(w) && TapesIn(w, s) == Tapes([], [], [], [])
    requires s.CreatorKey() !in w[s.chain].storage.games && s.AcceptorKey() !in w[s.acceptChain].storage.games
    requires w[s.chain].storage.nextGameId == s.gameId
    requires var st := w[s.chain].storage;
             Logged(w, w', s.chain, st.(nextGameId := st.nextGameId + 1), NewGame(s.chain, st.nextGameId, s.creator))
    ensures SessionOk(w', s)
  {
    hide GoodTapes;
    hide CreatorView;
    hide AcceptorView;
    hide TapesIn;
    var st := w[s.chain].storage;
    var event := NewGame(s.chain, st.nextGameId, s.creator);
    TapesNewGame(w, w', st.(nextGameId := st.nextGameId + 1), event, s);
    FirstTape(s, NextEntry(w[s.chain], event));
    assert TapesIn(w', s) == Tapes([NextEntry(w[s.chain], event)], [], [], []);
  }

  // Another game is created.
  lemma OtherNewGame(w: World, w': World, s: Session, ch: nat, sender: Address)
    requires s.In(w) && ch in w
    requires ch != s.chain || w[ch].storage.nextGameId != s.gameId
    requires var st := w[ch].storage;
             Logged(w, w', ch, st.(nextGameId := st.nextGameId + 1), NewGame(ch, st.nextGameId, sender))
    ensures Untouched(w, w', s)
  {
    var st := w[ch].storage;
    LoggedTapes(w, w', ch, st.(nextGameId := st.nextGameId + 1), NewGame(ch, st.nextGameId, sender), s);
  }

  // A call that writes a third party's view, or a player's view of another game.
  lemma OtherWrite(w: World, w': World, s: Session, ch: nat, k: Key, v: View, event: Event)
    requires s.In(w) && ch in w
    requires event.AcceptedGame? || IsMove(event)
    requires Key(event.chainId, event.gameId, event.player) == k
    requires ch == s.chain ==> k != s.CreatorKey()
    requires ch == s.acceptChain ==> k != s.AcceptorKey()
    requires var st := w[ch].storage; Logged(w, w', ch, st.(games := st.games[k := v]), event)
    ensures Untouched(w, w', s)
  {
    var st := w[ch].storage;
    LoggedTapes(w, w', ch, st.(games := st.games[k := v]), event, s);
  }

  // What the consumed NewGame tells the acceptor about the session.
  lemma AcceptFacts(w: World, s: Session, id: Identifier)
    requires Inv(w) && SessionOk(w, s)
    requires s.AcceptorKey() !in w[s.acceptChain].storage.games
    requires Admitted(w, id, NewGame(s.chain, s.gameId, s.creator)) && id.origin == SELF
    ensures id.chainId == s.chain && s.CreatorKey() !in w[s.chain].storage.games
    ensures var t := TapesIn(w, s);
            && |t.news| == 1 && t.news[0].block == id.blockNumber < |w[s.chain].times|
            && t.news[0].origin == SELF && t.news[0].event == NewGame(s.chain, s.gameId, s.creator)
            && t.acc == [] && t.a == [] && t.p == []
  {
    AdmittedNewGame(w, id, NewGame(s.chain, s.gameId, s.creator));
    var e0 := AdmittedEntry(w, id, NewGame(s.chain, s.gameId, s.creator));
    SelectComplete(w[s.chain].logs, NewGames(s.chain, s.gameId), e0);
    assert TapesIn(w, s).news == [e0];
  }

  lemma AcceptTapes(s: Session, e0: Entry, e: Entry, v: View)
    requires e0.origin == SELF && e0.event == NewGame(s.chain, s.gameId, s.creator)
    requires e.origin == SELF && e.event == AcceptedGame(s.chain, s.gameId, s.creator, s.acceptor)
    requires v.player == s.acceptor && v.opponent == s.creator && v.gameId == s.gameId && v.movesLeft == 9
    requires v.moves == EMPTY && v.lastOpponentId.chainId == s.chain && v.lastOpponentId.blockNumber == e0.block
    ensures GoodTapes(s, Tapes([e0], [e], [], [])) && AcceptorView(s, Tapes([e0], [e], [], []), v)
  {
    assert History([], []) == [];
  }

  lemma AcceptSession(w: World, w': World, s: Session, id: Identifier, event: Event)
    requires s.In(w) && s.CreatorKey() !in w[s.chain].storage.games
    requires id.origin == SELF && id.chainId == s.chain
    requires var t := TapesIn(w, s);
             && |t.news| == 1 && t.news[0].block == id.blockNumber < |w[s.chain].times|
             && t.news[0].origin == SELF && t.news[0].event == NewGame(s.chain, s.gameId, s.creator)
             && t.acc == [] && t.a == [] && t.p == []
    requires event == AcceptedGame(s.chain, s.gameId, s.creator, s.acceptor)
    requires var st := w[s.acceptChain].storage;
             var v := View(s.acceptor, s.creator, s.gameId, EMPTY, 9, id);
             Logged(w, w', s.acceptChain, st.(games := st.games[s.AcceptorKey() := v]), event)
    ensures SessionOk(w', s)
  {
    hide GoodTapes;
    hide CreatorView;
    hide AcceptorView;
    hide TapesIn;
    var st := w[s.acceptChain].storage;
    var v := View(s.acceptor, s.creator, s.gameId, EMPTY, 9, id);
    var t := TapesIn(w, s);
    var e := NextEntry(w[s.acceptChain], event);
    TapesAccept(w, w', st.(games := st.games[s.AcceptorKey() := v]), event, s);
    AcceptTapes(s, t.news[0], e, v);
    assert TapesIn(w', s) == Tapes([t.news[0]], [e], [], []);
  }

  lemma NoLineOfOne(c: nat)
    requires c < 9
    ensures VerdictOf([c]) == Played && Play([c], 0) == EMPTY[c := 1]
  {
    var h: Game := [c];
    assert h[..|h| - 1] == [];
    var b := EMPTY[c := 1];
    assert Play(h, 0) == b;
    assert forall i, j :: 0 <= i < j < 9 ==> b[i] == 0 || b[j] == 0;
  }

  lemma StartTapes(s: Session, t: Tapes, e: Entry, v: View)
    requires GoodTapes(s, t) && |t.acc| == 1 && t.a == []
    requires e.origin == SELF && e.event.MovePlayed? && Later(t.news, [], e) && OnBoard([e], s, s.creator)
    requires v.player == s.creator && v.opponent == s.acceptor && v.gameId == s.gameId && v.movesLeft == 8
    requires v.moves == EMPTY[CellOf(e.event) := 1]
    requires v.lastOpponentId.chainId == s.acceptChain && v.lastOpponentId.blockNumber == t.acc[0].block
    ensures var t' := t.(a := [e]); GoodTapes(s, t') && CreatorView(s, t', v)
    ensures forall v' :: AcceptorView(s, t, v') ==> AcceptorView(s, t.(a := [e]), v')
  {
    var t' := t.(a := t.a + [e]);
    var c := CellOf(e.event);
    NoLineOfOne(c);
    assert History(t.a, t.p) == [] && [] + [c] == [c];
    CreatorPlays(s, t, e);
    assert t'.p[..0] == t.p;
    assert t'.a == [e];
    forall v' | AcceptorView(s, t, v') ensures AcceptorView(s, t', v') {
      AcceptorUnmoved(s, t, e, v');
    }
  }

  // What the consumed acceptance tells the creator about the session.
  lemma StartFacts(w: World, s: Session, id: Identifier)
    requires Inv(w) && SessionOk(w, s)
    requires s.CreatorKey() !in w[s.chain].storage.games
    requires id.origin == SELF && id.chainId == s.acceptChain
    requires Admitted(w, id, AcceptedGame(s.chain, s.gameId, s.creator, s.acceptor))
    ensures var t := TapesIn(w, s);
            && |t.acc| == 1 && t.acc[0].block == id.blockNumber < |w[s.acceptChain].times|
            && t.a == [] && t.p == []
            && |t.news| == 1 && t.news[0].block < |w[s.chain].times|
  {
    var e0 := AdmittedEntry(w, id, AcceptedGame(s.chain, s.gameId, s.creator, s.acceptor));
    SelectComplete(w[s.acceptChain].logs, Acceptances(s.chain, s.gameId, s.acceptor), e0);
    assert TapesIn(w, s).acc == [e0];
  }

  // The creator's call brings the tapes to t' and its view to v.
  lemma CreatorWrote(w: World, w': World, s: Session, v: View, event: Event)
    requires SessionOk(w, s) && TapesIn(w, s).acc != [] && IsMove(event)
    requires event.chainId == s.chain && event.gameId == s.gameId && event.player == s.creator
    requires var st := w[s.chain].storage;
             Logged(w, w', s.chain, st.(games := st.games[s.CreatorKey() := v]), event)
    requires var t := TapesIn(w, s);
             var t' := t.(a := t.a + [NextEntry(w[s.chain], event)]);
             && |t.a| == |t.p| && GoodTapes(s, t') && CreatorView(s, t', v)
             && (forall i :: 0 <= i < |t.p| ==> t.p[i].block < |w[s.acceptChain].times|)
             && t.acc[0].block < |w[s.acceptChain].times|
    ensures SessionOk(w', s)
  {
    hide GoodTapes;
    hide CreatorView;
    hide AcceptorView;
    hide TapesIn;
    var st := w[s.chain].storage;
    var t := TapesIn(w, s);
    TapesCreator(w, w', st.(games := st.games[s.CreatorKey() := v]), event, s);
    AcceptorUnmoved(s, t, NextEntry(w[s.chain], event), w[s.acceptChain].storage.games[s.AcceptorKey()]);
  }

  lemma StartSession(w: World, w': World, s: Session, id: Identifier, x: nat, y: nat, event: Event)
    requires s.In(w) && x < 3 && y < 3
    requires s.CreatorKey() !in w[s.chain].storage.games
    requires id.origin == SELF && id.chainId == s.acceptChain
    requires event == MovePlayed(s.chain, s.gameId, s.creator, x, y)
    requires var st := w[s.chain].storage;
             var v := View(s.creator, s.acceptor, s.gameId, EMPTY[CellIndex(x, y) := 1], 8, id);
             Logged(w, w', s.chain, st.(games := st.games[s.CreatorKey() := v]), event)
    requires Inv(w) && SessionOk(w, s)
    requires Admitted(w, id, AcceptedGame(s.chain, s.gameId, s.creator, s.acceptor))
    ensures SessionOk(w', s)
  {
    hide Admitted;
    hide TapesIn;
    hide GoodTapes;
    hide CreatorView;
    hide AcceptorView;
    hide Logged;
    var v := View(s.creator, s.acceptor, s.gameId, EMPTY[CellIndex(x, y) := 1], 8, id);
    var t := TapesIn(w, s);
    var e := NextEntry(w[s.chain], event);
    StartFacts(w, s, id);
    StartTapes(s, t, e, v);
    assert t.(a := t.a + [e]) == t.(a := [e]);
    CreatorWrote(w, w', s, v, event);
  }

  lemma AcceptorWrote(w: World, w': World, s: Session, v: View, event: Event)
    requires SessionOk(w, s) && IsMove(event)
    requires event.chainId == s.chain && event.gameId == s.gameId && event.player == s.acceptor
    requires var st := w[s.acceptChain].storage;
             Logged(w, w', s.acceptChain, st.(games := st.games[s.AcceptorKey() := v]), event)
    requires var t := TapesIn(w, s);
             var t' := t.(p := t.p + [NextEntry(w[s.acceptChain], event)]);
             && t.acc != [] && |t.a| == |t.p| + 1 && GoodTapes(s, t') && AcceptorView(s, t', v)
             && (forall i :: 0 <= i < |t.a| ==> t.a[i].block < |w[s.chain].times|)
    ensures SessionOk(w', s)
  {
    hide GoodTapes;
    hide CreatorView;
    hide AcceptorView;
    hide TapesIn;
    var st := w[s.acceptChain].storage;
    var t := TapesIn(w, s);
    TapesAcceptor(w, w', st.(games := st.games[s.AcceptorKey() := v]), event, s);
    CreatorUnmoved(s, t, NextEntry(w[s.acceptChain], event), w[s.chain].storage.games[s.CreatorKey()]);
  }

  // The player to move marks the opponent's last move d, then takes an empty cell c.
  lemma Continue(h: Game, me: nat, before: Board, d: nat, c: nat)
    requires me < 2 && d < 9 && c < 9 && |h| % 2 != me
    requires before == Play(h, me) && before[d := 2][c] == 0
    ensures c !in h + [d]
    ensures Play(h + [d] + [c], me) == before[d := 2][c := 1]
  {
    hide Play;
    PlayAppend(h, me, d);
    var g: Game := h + [d];
    NextTurn(h, g, me);
    PlayAppend(g, me, c);
    PlayAt(g, me, c);
  }

  lemma NextTurn(h: Game, g: Game, me: nat)
    requires me < 2 && |h| % 2 != me && |g| == |h| + 1
    ensures |g| % 2 == me
  {
  }

  // The view after the player of parity me answered in the game h by taking (x, y).
  predicate AnswerPlayed(h: Game, v: View, me: nat, x: nat, y: nat)
    requires me < 2 && x < 3 && y < 3
  {
    var g: Game := h + [CellIndex(x, y)];
    && h != [] && VerdictOf(h) == Played && CellIndex(x, y) !in h
    && v.moves == Play(g, me) && v.movesLeft == 9 - |g|
  }

  lemma AnnounceIsMove(s: Session, player: Address, x: nat, y: nat, b: Board, left: nat)
    ensures var event := Announce(s.chain, s.gameId, player, x, y, b, left);
            && IsMove(event) && event.chainId == s.chain && event.gameId == s.gameId && event.player == player
            && event.x == x && event.y == y
  {
  }

  lemma AnnounceVerdict(s: Session, player: Address, g: Game, x: nat, y: nat, b: Board, left: nat)
    requires g != [] && b == Play(g, (|g| - 1) % 2) && (left == 0 <==> |g| == 9)
    ensures var event := Announce(s.chain, s.gameId, player, x, y, b, left);
            && KindOf(event) == VerdictOf(g) && IsMove(event)
            && event.chainId == s.chain && event.gameId == s.gameId && event.player == player
            && event.x == x && event.y == y
  {
  }

  // The creator's makeMove consumes the acceptor's one pending move and continues the game.
  lemma CreatorAnswers(s: Session, t: Tapes, v: View, v': View, id: Identifier, e0: Entry, x: nat, y: nat)
    requires Alternate(t.a, t.p) && x < 3 && y < 3
    requires GoodTapes(s, t) && CreatorView(s, t, v)
    requires e0 in t.p && e0.block == id.blockNumber && Moved(v, v', id, e0.event, x, y)
    ensures |t.a| == |t.p| && e0 == t.p[|t.p| - 1]
    ensures AnswerPlayed(History(t.a, t.p), v', 0, x, y)
  {
    hide HasLine;
    hide VerdictOf;
    hide Play;
    hide Legal;
    Pending(t.acc, t.p, |t.a| - 1, e0);
    TurnOf(t.a, t.p[..|t.a| - 1]);
    Continue(History(t.a, t.p[..|t.a| - 1]), 0, v.moves, CellOf(e0.event), CellIndex(x, y));
  }

  lemma AcceptorAnswers(s: Session, t: Tapes, v: View, v': View, id: Identifier, e0: Entry, x: nat, y: nat)
    requires Alternate(t.a, t.p) && x < 3 && y < 3
    requires GoodTapes(s, t) && AcceptorView(s, t, v)
    requires e0 in t.a && e0.block == id.blockNumber && Moved(v, v', id, e0.event, x, y)
    ensures |t.a| == |t.p| + 1 && e0 == t.a[|t.a| - 1]
    ensures AnswerPlayed(History(t.a, t.p), v', 1, x, y)
  {
    hide HasLine;
    hide VerdictOf;
    hide Play;
    hide Legal;
    Pending(t.news, t.a, |t.p|, e0);
    TurnOf(t.a[..|t.p|], t.p);
    Continue(History(t.a[..|t.p|], t.p), 1, v.moves, CellOf(e0.event), CellIndex(x, y));
  }

  // The announcement that the contract makes for such a move is the next one of the shared game.
  lemma AnswerAnnounced(s: Session, player: Address, h: Game, v': View, x: nat, y: nat, e: Entry)
    requires x < 3 && y < 3 && h != [] && AnswerPlayed(h, v', |h| % 2, x, y)
    requires e.origin == SELF && e.event == Announce(s.chain, s.gameId, player, x, y, v'.moves, v'.movesLeft)
    ensures NextMove(s, player, h, e) && CellOf(e.event) == CellIndex(x, y)
  {
    hide HasLine;
    hide Play;
    hide VerdictOf;
    hide Announce;
    AnnounceIsMove(s, player, x, y, v'.moves, v'.movesLeft);
    var g: Game := h + [CellIndex(x, y)];
    AnnounceVerdict(s, player, g, x, y, v'.moves, v'.movesLeft);
  }

  // What the mover's view becomes, once the tapes are known to be good.
  lemma CreatorViewAfter(s: Session, t: Tapes, v: View, v': View, e0: Entry, e: Entry)
    requires GoodTapes(s, t) && CreatorView(s, t, v) && |t.a| == |t.p| > 0 && e0 == t.p[|t.p| - 1]
    requires GoodTapes(s, t.(a := t.a + [e]))
    requires v'.player == v.player && v'.opponent == v.opponent && v'.gameId == v.gameId
    requires v'.lastOpponentId.chainId == s.acceptChain && v'.lastOpponentId.blockNumber == e0.block
    requires v'.moves == Play(History(t.a, t.p) + [CellOf(e.event)], 0) && v'.movesLeft == 8 - |t.a| - |t.p|
    ensures CreatorView(s, t.(a := t.a + [e]), v')
  {
    hide Play;
    hide Legal;
    hide Announced;
    hide OnBoard;
    hide RisingFrom;
    var t' := t.(a := t.a + [e]);
    ExtendHistory(t.a, t.p, e);
    assert t'.p[..|t'.a| - 1] == t'.p;
  }

  lemma AcceptorViewAfter(s: Session, t: Tapes, v: View, v': View, e0: Entry, e: Entry)
    requires GoodTapes(s, t) && AcceptorView(s, t, v) && |t.a| == |t.p| + 1 && e0 == t.a[|t.a| - 1]
    requires GoodTapes(s, t.(p := t.p + [e]))
    requires v'.player == v.player && v'.opponent == v.opponent && v'.gameId == v.gameId
    requires v'.lastOpponentId.chainId == s.chain && v'.lastOpponentId.blockNumber == e0.block
    requires v'.moves == Play(History(t.a, t.p) + [CellOf(e.event)], 1) && v'.movesLeft == 8 - |t.a| - |t.p|
    ensures AcceptorView(s, t.(p := t.p + [e]), v')
  {
    hide Play;
    hide Legal;
    hide Announced;
    hide OnBoard;
    hide RisingFrom;
    var t' := t.(p := t.p + [e]);
    ExtendHistory(t.a, t.p, e);
    assert t'.a[..|t'.p|] == t'.a;
  }

  lemma CreatorMoveTapes(s: Session, t: Tapes, v: View, v': View, id: Identifier, e0: Entry, x: nat, y: nat, e: Entry)
    requires Alternate(t.a, t.p) && x < 3 && y < 3
    requires GoodTapes(s, t) && CreatorView(s, t, v) && t.acc != []
    requires e0 in t.p && e0.block == id.blockNumber && Moved(v, v', id, e0.event, x, y)
    requires e.origin == SELF && e.event == Announce(s.chain, s.gameId, s.creator, x, y, v'.moves, v'.movesLeft)
    requires |t.a| == |t.p| ==> Later(t.news, t.a, e)
    requires id.chainId == s.acceptChain
    ensures |t.a| == |t.p| && e0 == t.p[|t.p| - 1]
    ensures GoodTapes(s, t.(a := t.a + [e])) && CreatorView(s, t.(a := t.a + [e]), v')
  {
    hide Moved;
    hide Play;
    hide VerdictOf;
    hide Announce;
    hide NextMove;
    hide Later;
    hide GoodTapes;
    hide CreatorView;
    CreatorAnswers(s, t, v, v', id, e0, x, y);
    MovedKeeps(v, v', id, e0.event, x, y);
    TurnOf(t.a, t.p);
    AnswerAnnounced(s, s.creator, History(t.a, t.p), v', x, y, e);
    CreatorPlays(s, t, e);
    CreatorViewAfter(s, t, v, v', e0, e);
  }

  lemma AcceptorMoveTapes(s: Session, t: Tapes, v: View, v': View, id: Identifier, e0: Entry, x: nat, y: nat, e: Entry)
    requires Alternate(t.a, t.p) && x < 3 && y < 3
    requires GoodTapes(s, t) && AcceptorView(s, t, v)
    requires e0 in t.a && e0.block == id.blockNumber && Moved(v, v', id, e0.event, x, y)
    requires e.origin == SELF && e.event == Announce(s.chain, s.gameId, s.acceptor, x, y, v'.moves, v'.movesLeft)
    requires |t.a| == |t.p| + 1 ==> Later(t.acc, t.p, e)
    requires id.chainId == s.chain
    ensures |t.a| == |t.p| + 1 && e0 == t.a[|t.a| - 1]
    ensures GoodTapes(s, t.(p := t.p + [e])) && AcceptorView(s, t.(p := t.p + [e]), v')
  {
    hide Moved;
    hide Play;
    hide VerdictOf;
    hide Announce;
    hide NextMove;
    hide Later;
    hide GoodTapes;
    hide AcceptorView;
    AcceptorAnswers(s, t, v, v', id, e0, x, y);
    MovedKeeps(v, v', id, e0.event, x, y);
    TurnOf(t.a, t.p);
    AnswerAnnounced(s, s.acceptor, History(t.a, t.p), v', x, y, e);
    AcceptorPlays(s, t, e);
    AcceptorViewAfter(s, t, v, v', e0, e);
  }

  // A sealed log of the acceptor's chain that is a move of the acceptor is on the tape p.
  lemma PresentedMove(w: World, s: Session, id: Identifier, data: Event) returns (e0: Entry)
    requires s.In(w) && Inv(w) && Admitted(w, id, data) && id.origin == SELF
    requires data.MovePlayed? && data.chainId == s.chain && data.gameId == s.gameId
    ensures e0.event == data && e0.block == id.blockNumber && id.chainId in w && e0.block < |w[id.chainId].times|
    ensures id.chainId == s.acceptChain && data.player == s.acceptor ==> e0 in TapesIn(w, s).p
    ensures id.chainId == s.chain && data.player == s.creator ==> e0 in TapesIn(w, s).a
  {
    e0 := AdmittedEntry(w, id, data);
    SelectComplete(w[id.chainId].logs, Moves(s.chain, s.gameId, data.player), e0);
  }

  // When it is a player's turn, its chain has sealed everything it announced before.
  lemma TurnSealed(w: World, s: Session)
    requires SessionOk(w, s)
    ensures var t := TapesIn(w, s);
            && GoodTapes(s, t) && Alternate(t.a, t.p)
            && (s.CreatorKey() in w[s.chain].storage.games <==> t.a != [])
            && (s.AcceptorKey() in w[s.acceptChain].storage.games <==> t.acc != [])
            && (t.a != [] ==> CreatorView(s, t, w[s.chain].storage.games[s.CreatorKey()]))
            && (t.acc != [] ==> AcceptorView(s, t, w[s.acceptChain].storage.games[s.AcceptorKey()]))
            && (t.acc != [] && |t.a| == |t.p| ==> Later(t.news, t.a, NextEntry(w[s.chain], NewGame(0, 0, 0))))
            && (|t.a| == |t.p| + 1 ==> Later(t.acc, t.p, NextEntry(w[s.acceptChain], NewGame(0, 0, 0))))
            && (t.acc != [] && |t.a| == |t.p| ==>
                 (forall i :: 0 <= i < |t.a| ==> t.a[i].block < |w[s.chain].times|))
            && (|t.a| == |t.p| + 1 ==>
                 (forall i :: 0 <= i < |t.p| ==> t.p[i].block < |w[s.acceptChain].times|))
            && (forall i :: 0 <= i < |t.p| && i + 1 < |t.a| ==> t.p[i].block < |w[s.acceptChain].times|)
            && (forall i :: 0 <= i < |t.a| && i < |t.p| ==> t.a[i].block < |w[s.chain].times|)
            && (t.a != [] ==> t.acc != [] && t.acc[0].block < |w[s.acceptChain].times|)
  {
    hide Legal;
    hide Announced;
    hide CreatorView;
    hide AcceptorView;
  }

  lemma CreatorMoveSession(w: World, w': World, s: Session, id: Identifier, data: Event, x: nat, y: nat, v': View,
                           event: Event)
    requires s.In(w) && s.CreatorKey() in w[s.chain].storage.games && x < 3 && y < 3
    requires Moved(w[s.chain].storage.games[s.CreatorKey()], v', id, data, x, y)
    requires id.origin == SELF && data.chainId == s.chain && data.gameId == s.gameId && data.player == s.acceptor
    requires event == Announce(s.chain, s.gameId, s.creator, x, y, v'.moves, v'.movesLeft)
    requires var st := w[s.chain].storage;
             Logged(w, w', s.chain, st.(games := st.games[s.CreatorKey() := v']), event)
    requires Inv(w) && SessionOk(w, s) && Admitted(w, id, data)
    ensures SessionOk(w', s)
  {
    hide Admitted;
    hide Logged;
    hide Inv;
    hide TapesIn;
    hide Announce;
    hide Moved;
    hide GoodTapes;
    hide SessionOk;
    hide OnBoard;
    hide Play;
    hide AcceptorView;
    var t := TapesIn(w, s);
    var e := NextEntry(w[s.chain], event);
    var v := w[s.chain].storage.games[s.CreatorKey()];
    MovedKeeps(v, v', id, data, x, y);
    var e0 := PresentedMove(w, s, id, data);
    TurnSealed(w, s);
    AnnounceIsMove(s, s.creator, x, y, v'.moves, v'.movesLeft);
    CreatorMoveTapes(s, t, v, v', id, e0, x, y, e);
    CreatorWrote(w, w', s, v', event);
  }

  lemma AcceptorMoveSession(w: World, w': World, s: Session, id: Identifier, data: Event, x: nat, y: nat, v': View,
                            event: Event)
    requires s.In(w) && s.AcceptorKey() in w[s.acceptChain].storage.games && x < 3 && y < 3
    requires Moved(w[s.acceptChain].storage.games[s.AcceptorKey()], v', id, data, x, y)
    requires id.origin == SELF && data.chainId == s.chain && data.gameId == s.gameId && data.player == s.creator
    requires event == Announce(s.chain, s.gameId, s.acceptor, x, y, v'.moves, v'.movesLeft)
    requires var st := w[s.acceptChain].storage;
             Logged(w, w', s.acceptChain, st.(games := st.games[s.AcceptorKey() := v']), event)
    requires Inv(w) && SessionOk(w, s) && Admitted(w, id, data)
    ensures SessionOk(w', s)
  {
    hide Admitted;
    hide Logged;
    hide Inv;
    hide TapesIn;
    hide Announce;
    hide Moved;
    hide GoodTapes;
    hide SessionOk;
    hide OnBoard;
    hide Play;
    hide CreatorView;
    var t := TapesIn(w, s);
    var e := NextEntry(w[s.acceptChain], event);
    var v := w[s.acceptChain].storage.games[s.AcceptorKey()];
    MovedKeeps(v, v', id, data, x, y);
    var e0 := PresentedMove(w, s, id, data);
    TurnSealed(w, s);
    AnnounceIsMove(s, s.acceptor, x, y, v'.moves, v'.movesLeft);
    AcceptorMoveTapes(s, t, v, v', id, e0, x, y, e);
    AcceptorWrote(w, w', s, v', event);
  }

  // ---- Every honest step keeps the session, whatever third parties do ----

  lemma CreatorIs(w: World, s: Session, p: Address)
    requires SessionOk(w, s) && Created(w, s.chain, s.gameId, p)
    ensures p == s.creator
  {
    assert TapesIn(w, s).news[0].event.player == p;
  }

  lemma AcceptStep(w: World, w': World, s: Session, ch: nat, sender: Address, id: Identifier, data: Event)
    requires Inv(w) && SessionOk(w, s) && ch in w && sender != ZERO
    requires ch == s.acceptChain && sender == s.acceptor && AboutGame(s, data) ==>
               s.AcceptorKey() !in w[s.acceptChain].storage.games
    requires var o := AcceptCall(SELF, w[ch].storage, sender, Admitted(w, id, data), id, data);
             o.Done? && Logged(w, w', ch, o.storage, o.event)
    ensures SessionOk(w', s)
  {
    hide SessionOk;
    hide Inv;
    hide Logged;
    hide TapesIn;
    var st := w[ch].storage;
    var k := Key(data.chainId, data.gameId, sender);
    var v := View(sender, data.player, data.gameId, st.At(k).moves, 9, id);
    var event := AcceptedGame(data.chainId, data.gameId, data.player, sender);
    SessionIn(w, s);
    AdmittedNewGame(w, id, data);
    if k.chainId == s.chain && k.gameId == s.gameId {
      CreatorIs(w, s, data.player);
    }
    if ch == s.acceptChain && k == s.AcceptorKey() {
      AcceptFacts(w, s, id);
      AcceptSession(w, w', s, id, event);
    } else {
      OtherWrite(w, w', s, ch, k, v, event);
      SessionFrame(w, w', s);
    }
  }

  lemma SessionIn(w: World, s: Session)
    requires SessionOk(w, s)
    ensures s.In(w)
    ensures s.CreatorKey() in w[s.chain].storage.games ==>
              w[s.chain].storage.games[s.CreatorKey()].opponent != ZERO
  {
  }

  lemma StartStep(w: World, w': World, s: Session, ch: nat, sender: Address, id: Identifier, data: Event, x: nat,
                  y: nat)
    requires Inv(w) && SessionOk(w, s) && ch in w && sender != ZERO
    requires ch == s.chain && sender == s.creator && data.AcceptedGame? && AboutGame(s, data) ==>
               data.player == s.acceptor && id.chainId == s.acceptChain
    requires var o := StartCall(SELF, ch, w[ch].storage, sender, Admitted(w, id, data), id, data, x, y);
             o.Done? && Logged(w, w', ch, o.storage, o.event)
    ensures SessionOk(w', s)
  {
    hide SessionOk;
    hide Inv;
    hide Logged;
    hide TapesIn;
    hide Created;
    var st := w[ch].storage;
    var k := Key(data.chainId, data.gameId, sender);
    var v := View(sender, data.player, data.gameId, st.At(k).moves[CellIndex(x, y) := 1], 8, id);
    var event := MovePlayed(data.chainId, data.gameId, sender, x, y);
    SessionIn(w, s);
    var e0 := AdmittedEntry(w, id, data);
    if k.chainId == s.chain && k.gameId == s.gameId {
      CreatorIs(w, s, sender);
    }
    if ch == s.chain && k == s.CreatorKey() {
      StartSession(w, w', s, id, x, y, event);
    } else {
      OtherWrite(w, w', s, ch, k, v, event);
      SessionFrame(w, w', s);
    }
  }

  lemma MoveStep(w: World, w': World, s: Session, ch: nat, sender: Address, id: Identifier, data: Event, x: nat, y: nat)
    requires Inv(w) && SessionOk(w, s) && ch in w && sender != ZERO
    requires data.MovePlayed? && AboutGame(s, data) ==>
               && (ch == s.chain && sender == s.creator ==> data.player == s.acceptor)
               && (ch == s.acceptChain && sender == s.acceptor ==> data.player == s.creator)
    requires var o := MoveCall(SELF, w[ch].storage, sender, Admitted(w, id, data), id, data, x, y);
             o.Done? && Logged(w, w', ch, o.storage, o.event)
    ensures SessionOk(w', s)
  {
    hide SessionOk;
    hide Inv;
    hide Logged;
    hide TapesIn;
    hide MoveCall;
    hide Moved;
    hide HasLine;
    hide Admitted;
    var st := w[ch].storage;
    var o := MoveCall(SELF, st, sender, Admitted(w, id, data), id, data, x, y);
    SessionIn(w, s);
    MoveCallMeaning(SELF, st, sender, Admitted(w, id, data), id, data, x, y);
    var k := Key(data.chainId, data.gameId, sender);
    var v' := o.storage.games[k];
    MovedKeeps(st.games[k], v', id, data, x, y);
    if ch == s.chain && k == s.CreatorKey() {
      CreatorMoveSession(w, w', s, id, data, x, y, v', o.event);
    } else if ch == s.acceptChain && k == s.AcceptorKey() {
      AcceptorMoveSession(w, w', s, id, data, x, y, v', o.event);
    } else {
      OtherWrite(w, w', s, ch, k, v', o.event);
      SessionFrame(w, w', s);
    }
  }

  lemma SessionStep(w: World, s: Session, step: Step)
    requires Inv(w) && SessionOk(w, s) && s.In(w) && Honest(w, s, step)
    ensures SessionOk(Apply(w, step), s)
  {
    hide SessionOk;
    hide Inv;
    hide Logged;
    hide MoveCall;
    hide AcceptCall;
    hide StartCall;
    hide Admitted;
    var w' := Apply(w, step);
    StepEffect(w, step);
    if Succeeds(w, step) {
      match step.call
      case CallNewGame =>
        if step.chain == s.chain && w[s.chain].storage.nextGameId == s.gameId {
          NothingYet(w, s);
          NewGameSession(w, w', s);
        } else {
          OtherNewGame(w, w', s, step.chain, step.sender);
          SessionFrame(w, w', s);
        }
      case CallAccept(id, data) => AcceptStep(w, w', s, step.chain, step.sender, id, data);
      case CallStart(id, data, x, y) => StartStep(w, w', s, step.chain, step.sender, id, data, x, y);
      case CallMove(id, data, x, y) => MoveStep(w, w', s, step.chain, step.sender, id, data, x, y);
    } else if w' != w {
      QuietTapes(w, w', step.chain, s);
      assert Untouched(w, w', s);
      SessionFrame(w, w', s);
    }
  }
}
