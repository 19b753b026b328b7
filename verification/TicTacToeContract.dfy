// One deployment of the TicTacToe contract: its storage, its four entry points as functions on
// that storage, and the contract object whose methods write the storage in place.
module TicTacToeContract {
  import opened Boards
  import opened Interop
  import opened Wrappers

  const NO_ID := Identifier(ZERO, 0, 0, 0, 0)

  // The payload of a log. Foreign stands for every payload without one of the five selectors.
  datatype Event =
    | NewGame(chainId: nat, gameId: nat, player: Address)
    | AcceptedGame(chainId: nat, gameId: nat, opponent: Address, player: Address)
    | MovePlayed(chainId: nat, gameId: nat, player: Address, x: nat, y: nat)
    | GameWon(chainId: nat, gameId: nat, player: Address, x: nat, y: nat)
    | GameDraw(chainId: nat, gameId: nat, player: Address, x: nat, y: nat)
    | Foreign(payload: nat)

  // games[chainId][gameId][player]
  datatype Key = Key(chainId: nat, gameId: nat, player: Address)

  datatype View = View(player: Address, opponent: Address, gameId: nat,
                       moves: Board, movesLeft: nat, lastOpponentId: Identifier)

  // What an untouched storage slot reads as.
  const NO_VIEW := View(ZERO, ZERO, 0, EMPTY, 0, NO_ID)

  datatype Storage = Storage(nextGameId: nat, games: map<Key, View>) {
    function At(k: Key): View {
      if k in games then games[k] else NO_VIEW
    }

    predicate Valid() {
      forall k :: k in games ==> Marked(games[k].moves)
    }
  }

  datatype Error =
    | IdOriginNotTicTacToe | NotAdmitted | DataNotNewGame | DataNotAcceptedGame | DataNotMovePlayed
    | SenderIsOpponent | GameChainMismatch | SenderNotPlayer | GameStarted | GameNotExists
    | IdChainMismatch | MoveNotForwardProgressing | MoveInvalid | MoveTaken | Panic

  datatype Outcome = Reverted(error: Error) | Done(storage: Storage, event: Event)

  // ---- The entry points on storage values ----
  // admitted says whether the executing message the call emits is valid (see AdmissionGate).

  function NewGameCall(chain: nat, s: Storage, sender: Address): Outcome {
    if s.nextGameId == UINT256_MAX then Reverted(Panic)
    else Done(s.(nextGameId := s.nextGameId + 1), NewGame(chain, s.nextGameId, sender))
  }

  function AcceptCall(self: Address, s: Storage, sender: Address, admitted: bool, id: Identifier,
                      data: Event): Outcome {
    if id.origin != self then Reverted(IdOriginNotTicTacToe)
    else if !admitted then Reverted(NotAdmitted)
    else if !data.NewGame? then Reverted(DataNotNewGame)
    else if data.player == sender then Reverted(SenderIsOpponent)
    else
      var k := Key(data.chainId, data.gameId, sender);
      var v := View(sender, data.player, data.gameId, s.At(k).moves, 9, id);
      Done(s.(games := s.games[k := v]), AcceptedGame(data.chainId, data.gameId, data.player, sender))
  }

  function StartCall(self: Address, chain: nat, s: Storage, sender: Address, admitted: bool,
                     id: Identifier, data: Event, x: nat, y: nat): Outcome {
    if id.origin != self then Reverted(IdOriginNotTicTacToe)
    else if !admitted then Reverted(NotAdmitted)
    else if !data.AcceptedGame? then Reverted(DataNotAcceptedGame)
    else if data.chainId != chain then Reverted(GameChainMismatch)
    else if sender != data.opponent then Reverted(SenderNotPlayer)
    else
      var k := Key(data.chainId, data.gameId, sender);
      if s.At(k).opponent != ZERO then Reverted(GameStarted)
      else if x >= 3 || y >= 3 then Reverted(MoveInvalid)
      else
        var v := View(sender, data.player, data.gameId, s.At(k).moves[CellIndex(x, y) := 1], 8, id);
        Done(s.(games := s.games[k := v]), MovePlayed(data.chainId, data.gameId, sender, x, y))
  }

  // The event that announces a move on the mover's board b with left empty cells.
  function Announce(c: nat, g: nat, player: Address, x: nat, y: nat, b: Board, left: nat): Event {
    if HasLine(b, 1) then GameWon(c, g, player, x, y)
    else if left == 0 then GameDraw(c, g, player, x, y)
    else MovePlayed(c, g, player, x, y)
  }

  function MoveCall(self: Address, s: Storage, sender: Address, admitted: bool,
                    id: Identifier, data: Event, x: nat, y: nat): Outcome {
    if id.origin != self then Reverted(IdOriginNotTicTacToe)
    else if !admitted then Reverted(NotAdmitted)
    else if !data.MovePlayed? then Reverted(DataNotMovePlayed)
    else
      var k := Key(data.chainId, data.gameId, sender);
      var v := s.At(k);
      if v.player != sender || v.gameId != data.gameId then Reverted(GameNotExists)
      else if id.chainId != v.lastOpponentId.chainId then Reverted(IdChainMismatch)
      else if id.blockNumber <= v.lastOpponentId.blockNumber then Reverted(MoveNotForwardProgressing)
      else if data.x >= 3 || data.y >= 3 || v.movesLeft == 0 then Reverted(Panic)
      else if x >= 3 || y >= 3 then Reverted(MoveInvalid)
      else
        var seen: Board := v.moves[CellIndex(data.x, data.y) := 2];
        if seen[CellIndex(x, y)] != 0 then Reverted(MoveTaken)
        else if v.movesLeft == 1 then Reverted(Panic)
        else
          var b: Board := seen[CellIndex(x, y) := 1];
          var v' := v.(moves := b, movesLeft := v.movesLeft - 2, lastOpponentId := id);
          Done(s.(games := s.games[k := v']),
               Announce(data.chainId, data.gameId, sender, x, y, b, v.movesLeft - 2))
  }

  // The view v consumed the opponent's move in data at place id, then played the empty cell (x, y).
  predicate Moved(v: View, v': View, id: Identifier, data: Event, x: nat, y: nat) {
    && data.MovePlayed? && data.x < 3 && data.y < 3 && x < 3 && y < 3
    && v.gameId == data.gameId
    && id.chainId == v.lastOpponentId.chainId
    && v.lastOpponentId.blockNumber < id.blockNumber
    && 2 <= v.movesLeft
    && var seen: Board := v.moves[CellIndex(data.x, data.y) := 2];
    && seen[CellIndex(x, y)] == 0
    && v' == v.(moves := seen[CellIndex(x, y) := 1], movesLeft := v.movesLeft - 2, lastOpponentId := id)
  }

  lemma MovedKeeps(v: View, v': View, id: Identifier, data: Event, x: nat, y: nat)
    requires Moved(v, v', id, data, x, y)
    ensures v'.player == v.player && v'.opponent == v.opponent && v'.gameId == v.gameId
    ensures v'.lastOpponentId == id && id.chainId == v.lastOpponentId.chainId
    ensures x < 3 && y < 3 && data.MovePlayed? && data.gameId == v.gameId
  {
  }

  // makeMove succeeds exactly on an admitted move of a game the caller has a view of, when the
  // view can move; it then writes that view alone and announces the verdict on the new board.
  lemma MoveCallMeaning(self: Address, s: Storage, sender: Address, admitted: bool,
                        id: Identifier, data: Event, x: nat, y: nat)
    requires sender != ZERO
    ensures var o := MoveCall(self, s, sender, admitted, id, data, x, y);
            o.Done? <==>
            && id.origin == self && admitted && data.MovePlayed?
            && var k := Key(data.chainId, data.gameId, sender);
            && k in s.games && s.games[k].player == sender
            && exists v' :: Moved(s.games[k], v', id, data, x, y)
    ensures var o := MoveCall(self, s, sender, admitted, id, data, x, y);
            o.Done? ==>
              var k := Key(data.chainId, data.gameId, sender);
              && k in o.storage.games
              && o.storage == s.(games := s.games[k := o.storage.games[k]])
              && Moved(s.games[k], o.storage.games[k], id, data, x, y)
              && o.event == Announce(k.chainId, k.gameId, sender, x, y, o.storage.games[k].moves,
                                     o.storage.games[k].movesLeft)
  {
    var o := MoveCall(self, s, sender, admitted, id, data, x, y);
    if o.Done? {
      var k := Key(data.chainId, data.gameId, sender);
      assert Moved(s.games[k], o.storage.games[k], id, data, x, y);
    }
  }

  // The board b with the opponent's mark at (dx, dy) and the own one at (x, y), nothing else new.
  ghost predicate MarkedAt(b: Board, b': Board, dx: nat, dy: nat, x: nat, y: nat) {
    forall u: nat, v: nat :: u < 3 && v < 3 ==>
      CellAt(b', u, v) == if (u, v) == (x, y) then 1 else if (u, v) == (dx, dy) then 2 else CellAt(b, u, v)
  }

  // makeMove in the coordinates of the board: it takes a cell if and only if that cell is empty
  // and is not the one the opponent has just taken.
  lemma MoveInCoordinates(self: Address, s: Storage, sender: Address, admitted: bool,
                          id: Identifier, data: Event, x: nat, y: nat)
    requires data.MovePlayed?
    ensures var v := s.At(Key(data.chainId, data.gameId, sender));
            MoveCall(self, s, sender, admitted, id, data, x, y).Done? <==>
            && id.origin == self && admitted && v.player == sender && v.gameId == data.gameId
            && id.chainId == v.lastOpponentId.chainId && v.lastOpponentId.blockNumber < id.blockNumber
            && v.movesLeft >= 2 && data.x < 3 && data.y < 3 && x < 3 && y < 3
            && (x, y) != (data.x, data.y) && CellAt(v.moves, x, y) == 0
    ensures var k := Key(data.chainId, data.gameId, sender);
            var o := MoveCall(self, s, sender, admitted, id, data, x, y);
            o.Done? ==> MarkedAt(s.At(k).moves, o.storage.At(k).moves, data.x, data.y, x, y)
  {
    hide Announce;
    if data.x < 3 && data.y < 3 && x < 3 && y < 3 {
      CellsDiffer(x, y, data.x, data.y);
      forall u: nat, v: nat | u < 3 && v < 3
        ensures CellIndex(u, v) == CellIndex(x, y) <==> (u, v) == (x, y)
        ensures CellIndex(u, v) == CellIndex(data.x, data.y) <==> (u, v) == (data.x, data.y)
      {
        CellsDiffer(u, v, x, y);
        CellsDiffer(u, v, data.x, data.y);
      }
    }
  }

  // startGame marks one cell and no other.
  lemma StartInCoordinates(self: Address, chain: nat, s: Storage, sender: Address, admitted: bool,
                           id: Identifier, data: Event, x: nat, y: nat, u: nat, v: nat)
    requires data.AcceptedGame? && u < 3 && v < 3
    ensures var k := Key(data.chainId, data.gameId, sender);
            StartCall(self, chain, s, sender, admitted, id, data, x, y).Done? <==>
            && id.origin == self && admitted && data.chainId == chain && sender == data.opponent
            && s.At(k).opponent == ZERO && x < 3 && y < 3
    ensures var k := Key(data.chainId, data.gameId, sender);
            var o := StartCall(self, chain, s, sender, admitted, id, data, x, y);
            o.Done? ==>
              && CellAt(o.storage.At(k).moves, u, v) == (if (u, v) == (x, y) then 1 else CellAt(s.At(k).moves, u, v))
              && o.event == MovePlayed(data.chainId, data.gameId, sender, x, y)
  {
    if x < 3 && y < 3 {
      CellsDiffer(u, v, x, y);
    }
  }

  // ---- With which error a call reverts ----

  lemma AcceptReverts(self: Address, s: Storage, sender: Address, admitted: bool, id: Identifier, data: Event)
    ensures var o := AcceptCall(self, s, sender, admitted, id, data);
            && (o == Reverted(IdOriginNotTicTacToe) <==> id.origin != self)
            && (o == Reverted(NotAdmitted) <==> id.origin == self && !admitted)
            && (o == Reverted(DataNotNewGame) <==> id.origin == self && admitted && !data.NewGame?)
            && (o == Reverted(SenderIsOpponent) <==>
                 id.origin == self && admitted && data.NewGame? && sender == data.player)
            && (o.Done? <==> id.origin == self && admitted && data.NewGame? && sender != data.player)
  {
  }

  lemma StartReverts(self: Address, chain: nat, s: Storage, sender: Address, admitted: bool,
                     id: Identifier, data: Event, x: nat, y: nat)
    ensures var o := StartCall(self, chain, s, sender, admitted, id, data, x, y);
            && (o == Reverted(IdOriginNotTicTacToe) <==> id.origin != self)
            && (o == Reverted(NotAdmitted) <==> id.origin == self && !admitted)
            && (o == Reverted(DataNotAcceptedGame) <==> id.origin == self && admitted && !data.AcceptedGame?)
            && (id.origin == self && admitted && data.AcceptedGame? ==>
                 var started := s.At(Key(data.chainId, data.gameId, sender)).opponent != ZERO;
                 && (o == Reverted(GameChainMismatch) <==> data.chainId != chain)
                 && (o == Reverted(SenderNotPlayer) <==> data.chainId == chain && sender != data.opponent)
                 && (data.chainId == chain && sender == data.opponent ==>
                      && (o == Reverted(GameStarted) <==> started)
                      && (o == Reverted(MoveInvalid) <==> !started && !(x < 3 && y < 3))))
  {
  }

  lemma MoveReverts(self: Address, s: Storage, sender: Address, admitted: bool,
                    id: Identifier, data: Event, x: nat, y: nat)
    ensures var o := MoveCall(self, s, sender, admitted, id, data, x, y);
            && (o == Reverted(IdOriginNotTicTacToe) <==> id.origin != self)
            && (o == Reverted(NotAdmitted) <==> id.origin == self && !admitted)
            && (o == Reverted(DataNotMovePlayed) <==> id.origin == self && admitted && !data.MovePlayed?)
            && (id.origin == self && admitted && data.MovePlayed? ==>
                 var v := s.At(Key(data.chainId, data.gameId, sender));
                 var (mine, last) := (v.player == sender && v.gameId == data.gameId, v.lastOpponentId);
                 && (o == Reverted(GameNotExists) <==> !mine)
                 && (o == Reverted(IdChainMismatch) <==> mine && id.chainId != last.chainId)
                 && (o == Reverted(MoveNotForwardProgressing) <==>
                      mine && id.chainId == last.chainId && id.blockNumber <= last.blockNumber)
                 && (mine && id.chainId == last.chainId && last.blockNumber < id.blockNumber ==>
                      CellReverts(v, data, x, y, o)))
  {
    hide Announce;
    if data.MovePlayed? && data.x < 3 && data.y < 3 && x < 3 && y < 3 {
      CellsDiffer(x, y, data.x, data.y);
    }
  }

  // What the coordinates and the counter decide once the consumed move is in order.
  predicate CellReverts(v: View, data: Event, x: nat, y: nat, o: Outcome)
    requires data.MovePlayed?
  {
    if data.x >= 3 || data.y >= 3 || v.movesLeft == 0 then o == Reverted(Panic)
    else if x >= 3 || y >= 3 then o == Reverted(MoveInvalid)
    else if (x, y) == (data.x, data.y) || CellAt(v.moves, x, y) != 0 then o == Reverted(MoveTaken)
    else if v.movesLeft == 1 then o == Reverted(Panic)
    else o.Done?
  }

  // A move writes marks only.
  lemma MoveCallMarks(self: Address, s: Storage, sender: Address, admitted: bool,
                      id: Identifier, data: Event, x: nat, y: nat)
    requires s.Valid() && MoveCall(self, s, sender, admitted, id, data, x, y).Done?
    ensures var o := MoveCall(self, s, sender, admitted, id, data, x, y);
            var k := Key(data.chainId, data.gameId, sender);
            o.storage.Valid() && k in o.storage.games && Marked(o.storage.games[k].moves)
  {
    hide Announce;
  }

  // ---- The contract object ----

  class TicTacToe {
    const self: Address
    const chain: nat
    var nextGameId: nat
    var games: map<Key, View>
    var logs: seq<Event>

    ghost predicate Valid()
      reads this
    {
      State().Valid()
    }

    function State(): Storage
      reads this
    {
      Storage(nextGameId, games)
    }

    // The call had exactly the given outcome: a revert leaves every field alone.
    twostate predicate Had(o: Outcome, new error: Option<Error>)
      reads this
    {
      match o
      case Reverted(e) => error == Some(e) && State() == old(State()) && logs == old(logs)
      case Done(s, ev) => error == None && State() == s && logs == old(logs) + [ev]
    }

    constructor (self: Address, chain: nat)
      ensures this.self == self && this.chain == chain
      ensures Valid() && State() == Storage(0, map[]) && logs == []
    {
      this.self, this.chain := self, chain;
      nextGameId, games, logs := 0, map[], [];
    }

    method NewGame(sender: Address) returns (error: Option<Error>)
      requires Valid()
      modifies this
      ensures Valid() && Had(NewGameCall(chain, old(State()), sender), error)
    {
      if nextGameId == UINT256_MAX {
        return Some(Panic);
      }
      logs := logs + [Event.NewGame(chain, nextGameId, sender)];
      nextGameId := nextGameId + 1;
      return None;
    }

    method AcceptGame(sender: Address, admitted: bool, id: Identifier, data: Event) returns (error: Option<Error>)
      requires Valid()
      modifies this
      ensures Valid() && Had(AcceptCall(self, old(State()), sender, admitted, id, data), error)
    {
      if id.origin != self { return Some(IdOriginNotTicTacToe); }
      if !admitted { return Some(NotAdmitted); }
      if !data.NewGame? { return Some(DataNotNewGame); }
      if data.player == sender { return Some(SenderIsOpponent); }
      var k := Key(data.chainId, data.gameId, sender);
      var game := State().At(k);
      game := game.(player := sender);
      game := game.(opponent := data.player);
      game := game.(gameId := data.gameId);
      game := game.(lastOpponentId := id);
      game := game.(movesLeft := 9);
      games := games[k := game];
      logs := logs + [AcceptedGame(data.chainId, data.gameId, game.opponent, game.player)];
      return None;
    }

    method StartGame(sender: Address, admitted: bool, id: Identifier, data: Event, x: nat, y: nat)
      returns (error: Option<Error>)
      requires Valid()
      modifies this
      ensures Valid() && Had(StartCall(self, chain, old(State()), sender, admitted, id, data, x, y), error)
    {
      if id.origin != self { return Some(IdOriginNotTicTacToe); }
      if !admitted { return Some(NotAdmitted); }
      if !data.AcceptedGame? { return Some(DataNotAcceptedGame); }
      if data.chainId != chain { return Some(GameChainMismatch); }
      if sender != data.opponent { return Some(SenderNotPlayer); }
      var k := Key(data.chainId, data.gameId, sender);
      var game := State().At(k);
      if game.opponent != ZERO { return Some(GameStarted); }
      var before := games;
      game := View(sender, data.player, data.gameId, game.moves, 9, id);
      games := games[k := game];
      if x >= 3 || y >= 3 {
        games := before;
        return Some(MoveInvalid);
      }
      game := game.(moves := game.moves[CellIndex(x, y) := 1]);
      game := game.(movesLeft := game.movesLeft - 1);
      games := games[k := game];
      logs := logs + [MovePlayed(data.chainId, data.gameId, game.player, x, y)];
      return None;
    }

    // The end of a move: work out the verdict and announce it.
    method Conclude(k: Key, game: View, x: nat, y: nat)
      requires Marked(game.moves)
      modifies this`logs
      ensures logs == old(logs) + [Announce(k.chainId, k.gameId, game.player, x, y, game.moves, game.movesLeft)]
    {
      var won := IsGameWon(game.moves);
      if won {
        logs := logs + [GameWon(k.chainId, k.gameId, game.player, x, y)];
      } else if game.movesLeft == 0 {
        logs := logs + [GameDraw(k.chainId, k.gameId, game.player, x, y)];
      } else {
        logs := logs + [MovePlayed(k.chainId, k.gameId, game.player, x, y)];
      }
    }

    method MakeMove(sender: Address, admitted: bool, id: Identifier, data: Event, x: nat, y: nat)
      returns (error: Option<Error>)
      requires Valid()
      modifies this
      ensures Valid() && Had(MoveCall(self, old(State()), sender, admitted, id, data, x, y), error)
    {
      hide HasLine;
      hide Announce;
      hide Storage.Valid;
      hide Marked;
      if id.origin != self { return Some(IdOriginNotTicTacToe); }
      if !admitted { return Some(NotAdmitted); }
      if !data.MovePlayed? { return Some(DataNotMovePlayed); }
      var k := Key(data.chainId, data.gameId, sender);
      var game := State().At(k);
      if game.player != sender { return Some(GameNotExists); }
      if game.gameId != data.gameId { return Some(GameNotExists); }
      if id.chainId != game.lastOpponentId.chainId { return Some(IdChainMismatch); }
      if id.blockNumber <= game.lastOpponentId.blockNumber { return Some(MoveNotForwardProgressing); }
      var before := games;
      game := game.(lastOpponentId := id);
      games := games[k := game];
      if data.x >= 3 || data.y >= 3 {
        games := before;
        return Some(Panic);
      }
      game := game.(moves := game.moves[CellIndex(data.x, data.y) := 2]);
      games := games[k := game];
      if game.movesLeft == 0 {
        games := before;
        return Some(Panic);
      }
      game := game.(movesLeft := game.movesLeft - 1);
      games := games[k := game];
      if x >= 3 || y >= 3 {
        games := before;
        return Some(MoveInvalid);
      }
      if game.moves[CellIndex(x, y)] != 0 {
        games := before;
        return Some(MoveTaken);
      }
      game := game.(moves := game.moves[CellIndex(x, y) := 1]);
      games := games[k := game];
      if game.movesLeft == 0 {
        games := before;
        return Some(Panic);
      }
      game := game.(movesLeft := game.movesLeft - 1);
      games := games[k := game];
      assert games == before[k := game];
      MoveCallMarks(self, old(State()), sender, admitted, id, data, x, y);
      Conclude(k, game, x, y);
      return None;
    }
  }
}
