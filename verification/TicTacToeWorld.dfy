// Any number of chains that carry the contract at the same address, advanced by arbitrary
// callers. A chain is its contract storage, its append-only log and its sealed blocks.
module TicTacToeWorld {
  import opened Boards
  import opened Interop
  import opened TicTacToeContract

  // The deterministic deployment address; only its difference from other addresses matters.
  const SELF: Address := 0x14eF_E545_C60F_B3b6_5B9e_eb23_E22b_8013_908e_48Bc

  // A log together with its place: the number of its block and its index within that block.
  datatype Entry = Entry(block: nat, index: nat, origin: Address, event: Event)

  // times[n] is the timestamp of sealed block n; the block under construction is number |times|
  // and holds the logs from position start on.
  datatype ChainState = ChainState(storage: Storage, logs: seq<Entry>, times: seq<nat>, start: nat) {
    function Append(origin: Address, event: Event): ChainState
      requires start <= |logs|
    {
      this.(logs := logs + [Entry(|times|, |logs| - start, origin, event)])
    }

    function Seal(time: nat): ChainState {
      this.(times := times + [time], start := |logs|)
    }

    // Logs lie in blocks up to the one under construction, each at its own place.
    predicate Shaped() {
      && start <= |logs|
      && (forall i :: 0 <= i < start ==> logs[i].block < |times|)
      && (forall i :: start <= i < |logs| ==> logs[i].block == |times| && logs[i].index == i - start)
      && (forall i, j :: 0 <= i < j < |logs| ==>
           logs[i].block < logs[j].block || (logs[i].block == logs[j].block && logs[i].index < logs[j].index))
    }
  }

  type Chain = c: ChainState | c.start <= |c.logs| witness ChainState(Storage(0, map[]), [], [], 0)

  type World = map<nat, Chain>

  datatype Call =
    | CallNewGame
    | CallAccept(id: Identifier, data: Event)
    | CallStart(id: Identifier, data: Event, x: nat, y: nat)
    | CallMove(id: Identifier, data: Event, x: nat, y: nat)

  datatype Step =
    | Tx(chain: nat, sender: Address, call: Call)      // anyone calls the contract
    | Other(chain: nat, origin: Address, event: Event) // another contract logs anything it likes
    | Seal(chain: nat, time: nat)                      // the block under construction is sealed

  predicate At(e: Entry, id: Identifier, data: Event) {
    e.block == id.blockNumber && e.index == id.logIndex && e.origin == id.origin && e.event == data
  }

  // The identifier names a log of a sealed block, and the presented data is that log's.
  predicate Admitted(w: World, id: Identifier, data: Event) {
    && id.chainId in w
    && id.blockNumber < |w[id.chainId].times|
    && id.timestamp == w[id.chainId].times[id.blockNumber]
    && exists i :: 0 <= i < |w[id.chainId].logs| && At(w[id.chainId].logs[i], id, data)
  }

  function Execute(w: World, chain: nat, sender: Address, call: Call): Outcome
    requires chain in w
  {
    var s := w[chain].storage;
    match call
    case CallNewGame => NewGameCall(chain, s, sender)
    case CallAccept(id, data) => AcceptCall(SELF, s, sender, Admitted(w, id, data), id, data)
    case CallStart(id, data, x, y) => StartCall(SELF, chain, s, sender, Admitted(w, id, data), id, data, x, y)
    case CallMove(id, data, x, y) => MoveCall(SELF, s, sender, Admitted(w, id, data), id, data, x, y)
  }

  // A transaction is never sent from the zero address.
  predicate Succeeds(w: World, step: Step) {
    step.Tx? && step.chain in w && step.sender != ZERO && Execute(w, step.chain, step.sender, step.call).Done?
  }

  // A revert, a step on an unknown chain and an impossible sender leave the world alone.
  function Apply(w: World, step: Step): World {
    if step.chain !in w then w
    else
      var c := w[step.chain];
      match step
      case Tx(chain, sender, call) =>
        if !Succeeds(w, step) then w
        else
          var o := Execute(w, chain, sender, call);
          w[chain := c.(storage := o.storage).Append(SELF, o.event)]
      case Other(chain, origin, event) =>
        if origin == SELF then w else w[chain := c.Append(origin, event)]
      case Seal(chain, time) =>
        w[chain := c.Seal(time)]
  }

  // The contract is freshly deployed everywhere; other contracts may already have logged.
  ghost predicate Initial(w: World) {
    forall c :: c in w ==>
      && w[c].Shaped()
      && w[c].storage == Storage(0, map[])
      && forall i :: 0 <= i < |w[c].logs| ==> w[c].logs[i].origin != SELF
  }

  // ---- Reading the log ----

  datatype Query =
    | NewGames(chainId: nat, gameId: nat)
    | Acceptances(chainId: nat, gameId: nat, player: Address)
    | Moves(chainId: nat, gameId: nat, player: Address)

  predicate IsMove(event: Event) {
    event.MovePlayed? || event.GameWon? || event.GameDraw?
  }

  predicate Hits(q: Query, e: Entry) {
    && e.origin == SELF
    && match q
       case NewGames(c, g) => e.event.NewGame? && e.event.chainId == c && e.event.gameId == g
       case Acceptances(c, g, p) =>
         e.event.AcceptedGame? && e.event.chainId == c && e.event.gameId == g && e.event.player == p
       case Moves(c, g, p) =>
         IsMove(e.event) && e.event.chainId == c && e.event.gameId == g && e.event.player == p
  }

  // The entries that answer a query, in log order.
  function Select(logs: seq<Entry>, q: Query): seq<Entry> {
    if logs == [] then []
    else
      var n := |logs| - 1;
      if Hits(q, logs[n]) then Select(logs[..n], q) + [logs[n]] else Select(logs[..n], q)
  }

  lemma SelectAppend(logs: seq<Entry>, e: Entry, q: Query)
    ensures Select(logs + [e], q) == if Hits(q, e) then Select(logs, q) + [e] else Select(logs, q)
  {
    assert (logs + [e])[..|logs|] == logs;
  }

  lemma {:induction false} SelectSound(logs: seq<Entry>, q: Query)
    ensures forall i :: 0 <= i < |Select(logs, q)| ==> Hits(q, Select(logs, q)[i]) && Select(logs, q)[i] in logs
  {
    if logs != [] {
      SelectSound(logs[..|logs| - 1], q);
    }
  }

  lemma {:induction false} SelectNone(logs: seq<Entry>, q: Query)
    requires forall e :: e in logs ==> !Hits(q, e)
    ensures Select(logs, q) == []
  {
    if logs != [] {
      SelectNone(logs[..|logs| - 1], q);
    }
  }

  lemma {:induction false} SelectComplete(logs: seq<Entry>, q: Query, e: Entry)
    requires e in logs && Hits(q, e)
    ensures e in Select(logs, q)
  {
    var n := |logs| - 1;
    if e != logs[n] {
      assert e in logs[..n];
      SelectComplete(logs[..n], q, e);
    }
  }

  // ---- What holds for arbitrary callers ----

  // The creator of a game, read off the log of its chain.
  ghost predicate Created(w: World, c: nat, g: nat, creator: Address) {
    && c in w
    && var news := Select(w[c].logs, NewGames(c, g));
    && |news| == 1 && news[0].event.NewGame? && news[0].event.player == creator
  }

  ghost predicate MoveOk(w: World, ch: nat, event: Event)
    requires ch in w && IsMove(event)
  {
    event.x < 3 && event.y < 3 && Key(event.chainId, event.gameId, event.player) in w[ch].storage.games
  }

  // An entry of the contract on chain ch is backed by the log of the game's own chain.
  ghost predicate EntryOk(w: World, ch: nat, e: Entry)
    requires ch in w
  {
    e.origin == SELF ==>
      match e.event
      case NewGame(c, g, p) => c == ch && g < w[ch].storage.nextGameId && p != ZERO
      case AcceptedGame(c, g, o, p) => Created(w, c, g, o) && p != o && p != ZERO && o != ZERO
      case GameDraw(c, g, p, x, y) => MoveOk(w, ch, e.event) && c == ch && Created(w, c, g, p)
      case MovePlayed(c, g, p, x, y) => MoveOk(w, ch, e.event)
      case GameWon(c, g, p, x, y) => MoveOk(w, ch, e.event)
      case Foreign(_) => false
  }

  // A stored view belongs to the creator on the game's own chain or to someone who accepted.
  // The creator's counter says how many moves the creator has logged; parities never mix.
  ghost predicate ViewOk(w: World, ch: nat, k: Key, v: View)
    requires ch in w
  {
    && k.player != ZERO && v.player == k.player && v.gameId == k.gameId && v.opponent != ZERO
    && v.opponent != k.player
    && Marked(v.moves)
    && if k.chainId == ch && Created(w, ch, k.gameId, k.player)
       then v.movesLeft + 2 * |Select(w[ch].logs, Moves(ch, k.gameId, k.player))| == 10
       else Created(w, k.chainId, k.gameId, v.opponent) && v.lastOpponentId.chainId == k.chainId && v.movesLeft % 2 == 1
  }

  // Game numbers below the counter have exactly one NewGame, the others none.
  ghost predicate NumbersOk(c: Chain, ch: nat) {
    forall g: nat :: |Select(c.logs, NewGames(ch, g))| == if g < c.storage.nextGameId then 1 else 0
  }

  ghost predicate ChainOk(w: World, ch: nat)
    requires ch in w
  {
    && w[ch].Shaped()
    && NumbersOk(w[ch], ch)
    && (forall e :: e in w[ch].logs ==> EntryOk(w, ch, e))
    && (forall k :: k in w[ch].storage.games ==> ViewOk(w, ch, k, w[ch].storage.games[k]))
  }

  ghost predicate Inv(w: World) {
    forall ch :: ch in w ==> ChainOk(w, ch)
  }

  lemma InitialInv(w: World)
    requires Initial(w)
    ensures Inv(w)
  {
    forall ch | ch in w ensures ChainOk(w, ch) {
      forall g: nat ensures Select(w[ch].logs, NewGames(ch, g)) == [] {
        SelectNone(w[ch].logs, NewGames(ch, g));
      }
    }
  }

  // ---- The three effects a step can have ----

  // w' is w with chain ch replaced by c.
  ghost predicate Replaces(w: World, w': World, ch: nat, c: Chain) {
    ch in w && w' == w[ch := c]
  }

  // Nothing of the contract changes: a seal or a foreign log.
  ghost predicate Quiet(w: World, w': World, ch: nat) {
    && ch in w && ch in w'
    && Replaces(w, w', ch, w'[ch])
    && w'[ch].storage == w[ch].storage
    && w'[ch].Shaped()
    && w[ch].times <= w'[ch].times
    && (|| w'[ch].logs == w[ch].logs
        || exists e: Entry :: e.origin != SELF && w'[ch].logs == w[ch].logs + [e])
  }

  // A call on chain ch committed storage s and logged event.
  ghost predicate Logged(w: World, w': World, ch: nat, s: Storage, event: Event) {
    ch in w && w' == w[ch := w[ch].(storage := s).Append(SELF, event)]
  }

  function NextEntry(c: Chain, event: Event): Entry {
    Entry(|c.times|, |c.logs| - c.start, SELF, event)
  }

  lemma StepEffect(w: World, step: Step)
    requires Inv(w)
    ensures var w' := Apply(w, step);
            if Succeeds(w, step)
            then var o := Execute(w, step.chain, step.sender, step.call); Logged(w, w', step.chain, o.storage, o.event)
            else w' == w || Quiet(w, w', step.chain)
  {
    var w' := Apply(w, step);
    if step.chain in w && !step.Tx? {
      assert ChainOk(w, step.chain);
      if step.Other? && step.origin != SELF {
        var c := w[step.chain];
        assert w'[step.chain].logs == c.logs + [Entry(|c.times|, |c.logs| - c.start, step.origin, step.event)];
      }
    }
  }

  // The log of every chain only grows, and keeps its shape.
  lemma LoggedShape(w: World, w': World, ch: nat, s: Storage, event: Event)
    requires Inv(w) && Logged(w, w', ch, s, event)
    ensures w'[ch].Shaped() && w'[ch].logs == w[ch].logs + [NextEntry(w[ch], event)] && w'[ch].times == w[ch].times
  {
    assert ChainOk(w, ch);
  }

  lemma LoggedSelect(w: World, w': World, ch: nat, s: Storage, event: Event, c: nat, q: Query)
    requires Logged(w, w', ch, s, event) && c in w
    ensures c in w' && Select(w'[c].logs, q) ==
            if c == ch && Hits(q, NextEntry(w[ch], event)) then Select(w[c].logs, q) + [NextEntry(w[ch], event)]
            else Select(w[c].logs, q)
  {
    if c == ch {
      SelectAppend(w[ch].logs, NextEntry(w[ch], event), q);
    }
  }

  lemma QuietSelect(w: World, w': World, ch: nat, c: nat, q: Query)
    requires Quiet(w, w', ch) && c in w
    ensures c in w' && Select(w'[c].logs, q) == Select(w[c].logs, q)
  {
    if c == ch && w'[ch].logs != w[ch].logs {
      var e: Entry :| e.origin != SELF && w'[ch].logs == w[ch].logs + [e];
      SelectAppend(w[ch].logs, e, q);
    }
  }

  // ---- Preservation ----

  lemma QuietCreated(w: World, w': World, ch: nat)
    requires Quiet(w, w', ch)
    ensures forall c, g: nat, p :: Created(w', c, g, p) <==> Created(w, c, g, p)
  {
    forall c, g: nat, p ensures Created(w', c, g, p) <==> Created(w, c, g, p) {
      if c in w {
        QuietSelect(w, w', ch, c, NewGames(c, g));
      }
    }
  }

  lemma QuietView(w: World, w': World, ch: nat, c: nat, k: Key)
    requires Inv(w) && Quiet(w, w', ch) && c in w && k in w[c].storage.games
    ensures ViewOk(w', c, k, w[c].storage.games[k])
  {
    QuietCreated(w, w', ch);
    assert ChainOk(w, c);
    assert ViewOk(w, c, k, w[c].storage.games[k]);
    QuietSelect(w, w', ch, c, Moves(c, k.gameId, k.player));
  }

  lemma QuietChain(w: World, w': World, ch: nat, c: nat)
    requires Inv(w) && Quiet(w, w', ch) && c in w
    ensures ChainOk(w', c)
  {
    hide Select;
    hide Created;
    hide ViewOk;
    hide ChainState.Shaped;
    QuietCreated(w, w', ch);
    assert ChainOk(w, c);
    forall g: nat ensures |Select(w'[c].logs, NewGames(c, g))| == if g < w'[c].storage.nextGameId then 1 else 0 {
      QuietSelect(w, w', ch, c, NewGames(c, g));
    }
    forall e | e in w'[c].logs ensures EntryOk(w', c, e) {
      if e.origin == SELF {
        assert EntryOk(w, c, e);
      }
    }
    forall k | k in w'[c].storage.games ensures ViewOk(w', c, k, w'[c].storage.games[k]) {
      QuietView(w, w', ch, c, k);
    }
  }

  lemma QuietInv(w: World, w': World, ch: nat)
    requires Inv(w) && Quiet(w, w', ch)
    ensures Inv(w')
  {
    hide ChainOk;
    forall c | c in w' ensures ChainOk(w', c) {
      QuietChain(w, w', ch, c);
    }
  }

  lemma LoggedCreated(w: World, w': World, ch: nat, s: Storage, event: Event, c: nat, g: nat, p: Address)
    requires Inv(w) && Logged(w, w', ch, s, event)
    requires event.NewGame? ==> event.chainId == ch && event.gameId == w[ch].storage.nextGameId
    requires Created(w, c, g, p)
    ensures Created(w', c, g, p)
  {
    LoggedSelect(w, w', ch, s, event, c, NewGames(c, g));
    assert ChainOk(w, c);
  }

  // A call logs no NewGame but the next one, and nothing else changes who created what.
  lemma LoggedNumbers(w: World, w': World, ch: nat, s: Storage, event: Event, c: nat)
    requires Inv(w) && Logged(w, w', ch, s, event) && c in w
    requires s.nextGameId == w[ch].storage.nextGameId + if event.NewGame? then 1 else 0
    requires event.NewGame? ==> event.chainId == ch && event.gameId == w[ch].storage.nextGameId
    ensures NumbersOk(w'[c], c)
  {
    assert ChainOk(w, c);
    forall g: nat ensures |Select(w'[c].logs, NewGames(c, g))| == if g < w'[c].storage.nextGameId then 1 else 0 {
      LoggedSelect(w, w', ch, s, event, c, NewGames(c, g));
    }
  }

  lemma NewGameInv(w: World, w': World, ch: nat, sender: Address)
    requires Inv(w) && ch in w && sender != ZERO
    requires var s := w[ch].storage;
             Logged(w, w', ch, s.(nextGameId := s.nextGameId + 1), NewGame(ch, s.nextGameId, sender))
    ensures Inv(w')
  {
    var s := w[ch].storage;
    var event := NewGame(ch, s.nextGameId, sender);
    var s' := s.(nextGameId := s.nextGameId + 1);
    LoggedShape(w, w', ch, s', event);
    forall c | c in w' ensures ChainOk(w', c) {
      assert ChainOk(w, c);
      LoggedNumbers(w, w', ch, s', event, c);
      forall e | e in w'[c].logs ensures EntryOk(w', c, e) {
        if e in w[c].logs {
          LoggedEntry(w, w', ch, s', event, c, e);
        }
      }
      forall k | k in w'[c].storage.games ensures ViewOk(w', c, k, w'[c].storage.games[k]) {
        LoggedView(w, w', ch, s', event, c, k);
      }
    }
  }

  // An old entry stays backed.
  lemma LoggedEntry(w: World, w': World, ch: nat, s: Storage, event: Event, c: nat, e: Entry)
    requires Inv(w) && Logged(w, w', ch, s, event) && c in w && e in w[c].logs
    requires event.NewGame? ==> event.chainId == ch && event.gameId == w[ch].storage.nextGameId
    requires w[ch].storage.nextGameId <= s.nextGameId && w[ch].storage.games.Keys <= s.games.Keys
    ensures EntryOk(w', c, e)
  {
    assert ChainOk(w, c);
    assert EntryOk(w, c, e);
    if e.origin == SELF && e.event.AcceptedGame? {
      LoggedCreated(w, w', ch, s, event, e.event.chainId, e.event.gameId, e.event.opponent);
    } else if e.origin == SELF && e.event.GameDraw? {
      LoggedCreated(w, w', ch, s, event, e.event.chainId, e.event.gameId, e.event.player);
    }
  }

  // A view that is not written stays backed.
  lemma LoggedView(w: World, w': World, ch: nat, s: Storage, event: Event, c: nat, k: Key)
    requires Inv(w) && Logged(w, w', ch, s, event) && c in w && k in w[c].storage.games
    requires k in w'[c].storage.games && w'[c].storage.games[k] == w[c].storage.games[k]
    requires event.NewGame? ==> event.chainId == ch && event.gameId == w[ch].storage.nextGameId
    requires IsMove(event) ==> c != ch || Key(event.chainId, event.gameId, event.player) != k
    ensures ViewOk(w', c, k, w[c].storage.games[k])
  {
    assert ChainOk(w, c);
    var v := w[c].storage.games[k];
    assert ViewOk(w, c, k, v);
    if k.chainId == c && Created(w, c, k.gameId, k.player) {
      LoggedSelect(w, w', ch, s, event, c, Moves(c, k.gameId, k.player));
      LoggedCreated(w, w', ch, s, event, c, k.gameId, k.player);
    } else {
      LoggedCreated(w, w', ch, s, event, k.chainId, k.gameId, v.opponent);
    }
  }

  // A call that writes the single view k keeps the invariant when the new view and entry are backed.
  lemma WriteInv(w: World, w': World, ch: nat, k: Key, v: View, event: Event)
    requires Inv(w) && ch in w && !event.NewGame?
    requires var s := w[ch].storage; Logged(w, w', ch, s.(games := s.games[k := v]), event)
    requires IsMove(event) ==> Key(event.chainId, event.gameId, event.player) == k
    requires EntryOk(w', ch, NextEntry(w[ch], event)) && ViewOk(w', ch, k, v)
    ensures Inv(w')
  {
    var s := w[ch].storage;
    var s' := s.(games := s.games[k := v]);
    LoggedShape(w, w', ch, s', event);
    forall c | c in w' ensures ChainOk(w', c) {
      assert ChainOk(w, c);
      LoggedNumbers(w, w', ch, s', event, c);
      forall e | e in w'[c].logs ensures EntryOk(w', c, e) {
        if e in w[c].logs {
          LoggedEntry(w, w', ch, s', event, c, e);
        } else {
          assert c == ch && e == NextEntry(w[ch], event);
        }
      }
      forall k' | k' in w'[c].storage.games ensures ViewOk(w', c, k', w'[c].storage.games[k']) {
        if c != ch || k' != k {
          LoggedView(w, w', ch, s', event, c, k');
        }
      }
    }
  }

  // The log an admitted identifier names.
  lemma AdmittedEntry(w: World, id: Identifier, data: Event) returns (e: Entry)
    requires Inv(w) && Admitted(w, id, data)
    ensures id.chainId in w && e in w[id.chainId].logs && At(e, id, data) && EntryOk(w, id.chainId, e)
  {
    var i :| 0 <= i < |w[id.chainId].logs| && At(w[id.chainId].logs[i], id, data);
    e := w[id.chainId].logs[i];
    assert ChainOk(w, id.chainId);
  }

  lemma AdmittedNewGame(w: World, id: Identifier, data: Event)
    requires Inv(w) && Admitted(w, id, data) && id.origin == SELF && data.NewGame?
    ensures id.chainId == data.chainId && data.player != ZERO
    ensures Created(w, data.chainId, data.gameId, data.player)
  {
    var e := AdmittedEntry(w, id, data);
    var q := NewGames(data.chainId, data.gameId);
    assert ChainOk(w, id.chainId);
    SelectComplete(w[id.chainId].logs, q, e);
  }

  lemma NoMoves(w: World, ch: nat, k: Key)
    requires Inv(w) && ch in w && k !in w[ch].storage.games
    ensures Select(w[ch].logs, Moves(k.chainId, k.gameId, k.player)) == []
  {
    assert ChainOk(w, ch);
    assert forall e :: e in w[ch].logs ==> EntryOk(w, ch, e);
    SelectNone(w[ch].logs, Moves(k.chainId, k.gameId, k.player));
  }

  // What each kind of call wrote, in terms of its caller's view of the game.
  lemma AcceptInv(w: World, w': World, ch: nat, sender: Address, id: Identifier, data: Event)
    requires Inv(w) && ch in w && sender != ZERO
    requires var o := AcceptCall(SELF, w[ch].storage, sender, Admitted(w, id, data), id, data);
             o.Done? && Logged(w, w', ch, o.storage, o.event)
    ensures Inv(w')
  {
    var s := w[ch].storage;
    var k := Key(data.chainId, data.gameId, sender);
    var v := View(sender, data.player, data.gameId, s.At(k).moves, 9, id);
    var event := AcceptedGame(data.chainId, data.gameId, data.player, sender);
    hide Select;
    hide ChainState.Shaped;
    AdmittedNewGame(w, id, data);
    LoggedCreated(w, w', ch, s.(games := s.games[k := v]), event, k.chainId, k.gameId, data.player);
    assert ChainOk(w, ch);
    assert Marked(v.moves) by {
      if k in s.games {
        assert ViewOk(w, ch, k, s.games[k]);
      }
    }
    WriteInv(w, w', ch, k, v, event);
  }

  lemma StartInv(w: World, w': World, ch: nat, sender: Address, id: Identifier, data: Event, x: nat, y: nat)
    requires Inv(w) && ch in w && sender != ZERO
    requires var o := StartCall(SELF, ch, w[ch].storage, sender, Admitted(w, id, data), id, data, x, y);
             o.Done? && Logged(w, w', ch, o.storage, o.event)
    ensures Inv(w')
  {
    var s := w[ch].storage;
    var k := Key(data.chainId, data.gameId, sender);
    var v := View(sender, data.player, data.gameId, s.At(k).moves[CellIndex(x, y) := 1], 8, id);
    var event := MovePlayed(data.chainId, data.gameId, sender, x, y);
    var s' := s.(games := s.games[k := v]);
    hide Select;
    hide ChainState.Shaped;
    var e := AdmittedEntry(w, id, data);
    assert ChainOk(w, ch);
    NoMoves(w, ch, k);
    LoggedSelect(w, w', ch, s', event, ch, Moves(ch, k.gameId, sender));
    LoggedCreated(w, w', ch, s', event, ch, k.gameId, sender);
    WriteInv(w, w', ch, k, v, event);
  }

  // A view after a move, with the board b: its counter is two lower, its opponent's chain the same.
  function MovedView(v: View, b: Board, id: Identifier): View
    requires v.movesLeft >= 2
  {
    v.(moves := b, movesLeft := v.movesLeft - 2, lastOpponentId := id)
  }

  function WithView(s: Storage, k: Key, v: View): Storage {
    s.(games := s.games[k := v])
  }

  lemma MoveBacked(w: World, w': World, ch: nat, k: Key, b: Board, id: Identifier, event: Event)
    requires Inv(w) && ch in w && k in w[ch].storage.games && Marked(b) && IsMove(event)
    requires Key(event.chainId, event.gameId, event.player) == k && event.x < 3 && event.y < 3
    requires var s := w[ch].storage; var v := s.games[k];
             && 2 <= v.movesLeft && id.chainId == v.lastOpponentId.chainId
             && (event.GameDraw? ==> v.movesLeft == 2)
             && Logged(w, w', ch, WithView(s, k, MovedView(v, b, id)), event)
             && ViewOk(w, ch, k, v)
    ensures ch in w' && EntryOk(w', ch, NextEntry(w[ch], event))
    ensures ViewOk(w', ch, k, MovedView(w[ch].storage.games[k], b, id))
  {
    hide Inv;
    var s := w[ch].storage;
    var v := s.games[k];
    var s' := WithView(s, k, MovedView(v, b, id));
    if k.chainId == ch && Created(w, ch, k.gameId, k.player) {
      LoggedCreated(w, w', ch, s', event, ch, k.gameId, k.player);
      LoggedSelect(w, w', ch, s', event, ch, Moves(ch, k.gameId, k.player));
    } else {
      LoggedCreated(w, w', ch, s', event, k.chainId, k.gameId, v.opponent);
      LoggedSelect(w, w', ch, s', event, k.chainId, NewGames(k.chainId, k.gameId));
    }
  }

  lemma MoveInv(w: World, w': World, ch: nat, k: Key, b: Board, id: Identifier, event: Event)
    requires Inv(w) && ch in w && k in w[ch].storage.games && Marked(b) && IsMove(event)
    requires Key(event.chainId, event.gameId, event.player) == k && event.x < 3 && event.y < 3
    requires var s := w[ch].storage; var v := s.games[k];
             && 2 <= v.movesLeft && id.chainId == v.lastOpponentId.chainId
             && (event.GameDraw? ==> v.movesLeft == 2)
             && Logged(w, w', ch, WithView(s, k, MovedView(v, b, id)), event)
    ensures Inv(w')
  {
    hide Logged;
    hide EntryOk;
    hide ViewOk;
    hide MovedView;
    var v := w[ch].storage.games[k];
    assert ChainOk(w, ch);
    MoveBacked(w, w', ch, k, b, id, event);
    WriteInv(w, w', ch, k, MovedView(v, b, id), event);
  }

  lemma MoveCallInv(w: World, w': World, ch: nat, sender: Address, id: Identifier, data: Event, x: nat, y: nat)
    requires Inv(w) && ch in w && sender != ZERO
    requires var o := MoveCall(SELF, w[ch].storage, sender, Admitted(w, id, data), id, data, x, y);
             o.Done? && Logged(w, w', ch, o.storage, o.event)
    ensures Inv(w')
  {
    hide HasLine;
    hide MoveCall;
    hide Logged;
    var o := MoveCall(SELF, w[ch].storage, sender, Admitted(w, id, data), id, data, x, y);
    MoveCallMeaning(SELF, w[ch].storage, sender, Admitted(w, id, data), id, data, x, y);
    var k := Key(data.chainId, data.gameId, sender);
    assert ChainOk(w, ch);
    assert ViewOk(w, ch, k, w[ch].storage.games[k]);
    MoveInv(w, w', ch, k, o.storage.games[k].moves, id, o.event);
  }

  lemma InvStep(w: World, step: Step)
    requires Inv(w)
    ensures Inv(Apply(w, step))
  {
    hide Inv;
    hide Logged;
    hide Quiet;
    hide Admitted;
    hide MoveCall;
    hide Moved;
    hide HasLine;
    var w' := Apply(w, step);
    StepEffect(w, step);
    if Succeeds(w, step) {
      match step.call
      case CallNewGame => NewGameInv(w, w', step.chain, step.sender);
      case CallAccept(id, data) => AcceptInv(w, w', step.chain, step.sender, id, data);
      case CallStart(id, data, x, y) => StartInv(w, w', step.chain, step.sender, id, data, x, y);
      case CallMove(id, data, x, y) =>
        MoveCallInv(w, w', step.chain, step.sender, id, data, x, y);
    } else if w' != w {
      QuietInv(w, w', step.chain);
    }
  }
}
