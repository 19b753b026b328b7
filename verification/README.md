# supersim: verified models

Supersim runs several local L2 chains side by side and enforces the OP Stack interop rules
between them. This project models its protocols and its bookkeeping in Dafny and proves what
they promise, for every input, every run and any number of chains and callers.

| files | what they model |
|---|---|
| `Boards`, `TicTacToeContract`, `TicTacToeWorld`, `TicTacToeRuns`, `TicTacToeSession`, `TicTacToeResults`, `TicTacToeExamples` | the cross-chain TicTacToe contract, its storage on every chain, the chains' logs, arbitrary callers, the game of two honest players among them, and concrete runs |
| `ClientReplay`, `ClientReplayLocal`, `ClientReplayTapes`, `ClientReplayGame`, `ClientReplaySafety`, `ClientReplayFetch`, `ClientReplayResults`, `ClientReplayRivals`, `ClientMove`, `ClientClick`, `ClientReplayExamples` | the web client that rebuilds all boards from the logs and picks the next contract call |
| `CallTree`, `AdmissionGate`, `AdmissionLink`, `RpcHandler` | collecting the logs of a simulated transaction, the interop invariants, and the JSON-RPC proxy that applies them to every raw transaction of a batch |
| `Messenger`, `PingPong`, `Voting`, `VotingRuns` | the two contracts that talk through the cross-domain messenger |
| `MessageLifecycle`, `MessageStore` | the message store and the indexer that feeds it |
| `ForkHeight` | the height at which each L2 is forked |
| `Interop`, `Wrappers` | identifiers, integer widths, `Option` and `Result` |

## How to read it

Contracts, the client's fetch, the store, the indexer and the handler are classes and methods that
write their fields step by step. Each method is tied by its `ensures` to a function of the old
state (`NewGameCall`, `MoveCall`, `Record`, `VoteCall`, `Verdict`, `Apply`, ...), and the theorems
are about those functions over whole runs. A revert is an outcome that leaves the state alone.

**TicTacToe.** A world is a map of chains; a chain has contract storage, an append-only log and
sealed blocks. A step is a contract call by anybody, a log of another contract, or the sealing of
a block. An identifier is admitted only if it names a log of a sealed block with the right
timestamp and payload; `AdmissionLink.GateIsAdmission` proves that this is what the gate enforces.
Results about parity and counting hold for arbitrary callers. Results about a *session* (a
creator, a game, an acceptor on some chain) assume only that these two play as the client does:
one acceptance, the start consumes it, and each later move consumes a move of the other player.
Everybody else stays arbitrary. The *tapes* of a session are what the logs say about it, and its
*history* is the interleaving of the two move tapes.

**Client.** The replay sees sealed logs only. It handles all NewGame logs chain by chain, then all
acceptances, moves, wins and draws. It never throws on one snapshot of a reachable state, whoever
called the contract; when the chains move on between its queries, `ClientReplayFetch.FetchThrowsIff`
says exactly when it does. For a session whose game nobody else joined, its result does not depend
on the order of the chains. Anyone may accept an invitation, though, and with rivals in the
session's own game the order does matter: `ClientReplayRivals.ReplayShowsIff` gives the exact
condition on the fetched logs under which both players are shown their own game, and
`ClientReplayExamples.OrderDecides` a run in which two orders show two different opponents.
The move button asks for less, and `ClientClick.ClickIff` says exactly for what: on the acceptor's
turn its click always makes the call that the session needs; on the creator's turn it does so if
and only if the newest fetched action of whoever is fetched last as the acceptor is the session's.
That call passes every check if and only if the cell is free in the shared history of an
unfinished session. `ClientReplayExamples.ButtonFails` is a run in which the click reverts.

**Gate.** Keccak, the event selector and the ABI decoding of non-empty data are parameters.
`AdmissionGate.Rule` states the interop specification's messaging invariants (without message
expiry) apart from the code, for the logs of the inbox predeploy and the time of the executing
block. `AdmissionGate.AdmissionExact` is the exact difference: the code checks look-alike logs of
any contract too, its chain ids and due times wrap at 64 bits, and without a delay it never compares
the two blocks' times.

**Messenger contracts.** The messenger is abstract: a message is relayed at most once, on its
destination, with its true sender and source. Foreign messages and direct calls are steps too.

**Store.** Entries are objects handed out by reference. Methods may write only the store, so an
entry once handed out never changes. The store is proved equal to a fold of the event history,
hash by hash.

## Where the code differs from its comments and documents

- `makeMove` decodes the event's `player` and drops it (contracts/src/tictactoe/TicTacToe.sol:165):
  `TicTacToeResults.MovePlayerIgnored`. This is why the session results speak of honest players.
- `acceptGame` may be called again by the same sender. It restores nine moves and keeps the board
  (contracts/src/tictactoe/TicTacToe.sol:107-113); `TicTacToeResults.AcceptAgain` says exactly when
  counter and board still agree.
- The guide's diagram shows the first ball with rally count 1
  (docs/src/guides/interop/cross-chain-contract-calls-pingpong.md:38). The code serves a ball that
  already counts 1, so the first ball sent counts 2: `PingPong.RallyCounts`.
- In every reachable state, a vote on a proposal that is not created yet is accepted at block time
  zero, because start and end are then both zero: `VotingRuns.UncreatedVotableIff`. Block times
  increase strictly, so on a real chain only the genesis block can have time zero, and that block
  carries no transactions. With a clock that starts above zero only created proposals hold votes:
  `VotingRuns.OnlyCreatedHaveVotes`.
- The fork height is computed for blocks two seconds apart and is right for a chain exactly when
  its blocks are: `ForkHeight.RightIffTwoSeconds`.
- Sends and relays of one message reach the store through different goroutines, and relays that
  overtake their send are lost: `MessageLifecycle.RaceIff`. Of the interleavings of the same
  streams exactly those that handle every send before its relays on another chain give the store
  of a causal one, whatever messages stay on their own chain: `MessageLifecycle.CausalStoreIff`.
- A JSON null in a batch is decoded to a nil message, on which the handler panics. A log of any
  contract with the executing message's selector, one more topic and no data has the same effect:
  go-ethereum's `UnpackLog` skips empty data, so the parsed identifier's numbers
  (bindings/crossl2inbox.go:33-39) are nil, and reading its chain id
  (opsimulator/opsimulator.go:428) is a nil dereference. In both cases what precedes has been
  forwarded, what follows is not, and no response is written: `RpcHandler.Handler`,
  `RpcHandler.EndCutsBatch`, `RpcHandler.CrashesIff`, `RpcHandler.BlankLogCutsBatch`.
- The client fetches while the chains move on. An invitation that is sealed after the NewGame query
  and accepted before the acceptance query makes the whole fetch throw: the run
  `ClientReplayExamples.LateInvitation`, and exactly when in `ClientReplayFetch.FetchThrowsIff`.
- The move button presents the last action of whoever the fetch shows as the opponent, which need
  not be the session's: `ClientReplayExamples.ButtonFails`, and exactly when in
  `ClientClick.ClickIff`.

## Model

| member | source | states |
|---|---|---|
| `Boards.MagicSumIsThreeOnes` | contracts/src/tictactoe/TicTacToe.sol:205-231 | the weighted sum of a line over cells 0, 1, 2 is fifteen exactly when the three cells are all the player's own marks |
| `Boards.IsGameWon` | contracts/src/tictactoe/TicTacToe.sol:205-231 | the loop over rows, columns and diagonals returns true exactly when the local player owns one of the eight lines |
| `Boards.CellsDiffer` | contracts/src/tictactoe/TicTacToe.sol:181-188 | two pairs of coordinates name the same cell exactly when they are equal |
| `Boards.HasLineIff` | contracts/src/tictactoe/TicTacToe.sol:205-231 | a line is one mark at all of (x, 0), (x, 1), (x, 2), or of (0, y), (1, y), (2, y), or of one of the two diagonals, and nothing else is |
| `Boards.PlaySwaps` | contracts/src/tictactoe/TicTacToe.sol:181-189 | the boards that the two players keep of one game are 1/2-swaps of each other |
| `Boards.PlayEmpties` | contracts/src/tictactoe/TicTacToe.sol:181-189 | a game without repeated cells leaves nine minus its moves cells empty, on either board |
| `Boards.NoLineBefore` | contracts/src/tictactoe/TicTacToe.sol:191-197 | in a legal game nobody owned a line before the last move, so only the mover can own one |
| `Boards.VerdictMeaning` | contracts/src/tictactoe/TicTacToe.sol:191-197 | the verdict on a legal game is a win exactly when the mover owns a line and a draw exactly when the board is full and nobody does |
| `TicTacToeContract.MoveCallMeaning` | contracts/src/tictactoe/TicTacToe.sol:156-198 | makeMove succeeds exactly when there is a view of this game, a later block of the opponent's chain, coordinates on the board, a free cell and two moves left; then only that view changes and the right event is logged |
| `TicTacToeContract.MoveInCoordinates` | contracts/src/tictactoe/TicTacToe.sol:156-188 | in coordinates: a move succeeds exactly when, besides the checks on game, chain, block and counter, its cell is empty and is not the one the opponent has just taken; the new board has a 2 there, a 1 at the move's own cell and is the old one elsewhere |
| `TicTacToeContract.StartInCoordinates` | contracts/src/tictactoe/TicTacToe.sol:119-153 | a start succeeds exactly on a sealed acceptance of the creator's own game that is not started, on a cell of the board, and marks that cell alone |
| `TicTacToeContract.AcceptReverts` | contracts/test/tictactoe/TicTacToe.t.sol:81-98 | each error of acceptGame comes exactly when the checks before it hold and its own does not |
| `TicTacToeContract.StartReverts` | contracts/test/tictactoe/TicTacToe.t.sol:160-244 | the same for startGame |
| `TicTacToeContract.MoveReverts` | contracts/test/tictactoe/TicTacToe.t.sol:305-364 | the same for makeMove, with the coordinates and the counter deciding last |
| `TicTacToeContract.TicTacToe.constructor` | contracts/src/tictactoe/TicTacToe.sol:69-71 | a fresh deployment has no games and no logs |
| `TicTacToeContract.TicTacToe.NewGame` | contracts/src/tictactoe/TicTacToe.sol:89-92 | announces the next game number and advances the counter, or panics at its end |
| `TicTacToeContract.TicTacToe.AcceptGame` | contracts/src/tictactoe/TicTacToe.sol:95-116 | every check in order, and the whole new storage; a revert leaves storage and logs alone |
| `TicTacToeContract.TicTacToe.StartGame` | contracts/src/tictactoe/TicTacToe.sol:119-153 | every check in order, the first mark and the counter; a revert after the writes rolls them back |
| `TicTacToeContract.TicTacToe.Conclude` | contracts/src/tictactoe/TicTacToe.sol:191-197 | announces a win, else a draw when no move is left, else a plain move |
| `TicTacToeContract.TicTacToe.MakeMove` | contracts/src/tictactoe/TicTacToe.sol:156-198 | equals the specification of the move, including the rollback of the writes made before the last checks |
| `TicTacToeWorld.AdmittedNewGame` | contracts/src/tictactoe/TicTacToe.sol:97-105 | an admitted NewGame of the contract names the chain and the creator of a game that exists |
| `TicTacToeWorld.InvStep` | contracts/src/tictactoe/TicTacToe.sol:89-198 | every step of anybody keeps the invariant of all chains: entries backed by the game's own chain, one creator per game, counters and parities of all views |
| `TicTacToeRuns.RunInv` | contracts/src/tictactoe/TicTacToe.sol:89-198 | the invariant holds in every reachable state |
| `TicTacToeRuns.CreatorForward` | contracts/src/tictactoe/TicTacToe.sol:174-176 | whatever anybody does, the creator's last seen place stays on one chain and only moves to later blocks |
| `TicTacToeRuns.CreatorConsumesForward` | contracts/src/tictactoe/TicTacToe.sol:133-176 | for arbitrary callers: a game is started at most once, and the events its creator consumes lie on one chain in strictly later blocks, so none is consumed twice |
| `TicTacToeRuns.CreatorCounts` | contracts/src/tictactoe/TicTacToe.sol:133-189 | for arbitrary callers: one creator per game, whose counter is 8 - 2n after n further moves, so n is at most 4 |
| `TicTacToeRuns.Parity` | contracts/src/tictactoe/TicTacToe.sol:113-189 | for arbitrary callers: a view's counter is even exactly for the creator on the game's chain, odd for anybody who accepted, however often |
| `TicTacToeRuns.LoggedMoves` | contracts/src/tictactoe/TicTacToe.sol:182-197 | for arbitrary callers: every logged coordinate is on the board, and only a game's creator ever announces a draw |
| `TicTacToeRuns.NothingBeforeStart` | contracts/src/tictactoe/TicTacToe.sol:119-197 | for arbitrary callers: no move of a game is logged on any chain before its creator has moved on the game's own chain |
| `TicTacToeRuns.NumbersFit` | contracts/src/tictactoe/TicTacToe.sol:89-92 | for arbitrary callers: a chain's game counter is the number of newGame calls made on it, up to the top of 256 bits |
| `TicTacToeSession.SessionStep` | contracts/src/tictactoe/TicTacToe.sol:95-198 | every step that is honest for a session keeps it: one legal game on the tapes, and both stored views determined by it |
| `TicTacToeResults.HonestSession` | contracts/src/tictactoe/TicTacToe.sol:95-198 | the session invariant holds after every honest run, whatever third parties do |
| `TicTacToeResults.BoardsAgree` | contracts/src/tictactoe/TicTacToe.sol:95-198 | the two stored boards are 1/2-swaps of each other up to the single last move, which the other side has not consumed |
| `TicTacToeResults.OneLegalGame` | contracts/src/tictactoe/TicTacToe.sol:137-189 | moves alternate, no cell is played twice, at most nine moves of which the ninth ends the game, and each view's counter is the number of its empty cells |
| `TicTacToeResults.VerdictCorrect` | contracts/src/tictactoe/TicTacToe.sol:191-231 | at most one win or draw and nothing after it; a win exactly when the mover owns a line of the shared board, a draw exactly when it is full with no line for either |
| `TicTacToeResults.VerdictIsFinal` | contracts/src/tictactoe/TicTacToe.sol:178-197 | once a win or draw is announced, the session announces nothing ever again |
| `TicTacToeResults.CreatorConsumesLast` | contracts/src/tictactoe/TicTacToe.sol:174-189 | a successful makeMove of the creator consumes the acceptor's latest move and adds exactly one move, so each event is consumed once and in order |
| `TicTacToeResults.AcceptorConsumesLast` | contracts/src/tictactoe/TicTacToe.sol:174-189 | the same for the acceptor |
| `TicTacToeResults.AnyoneCanAccept` | contracts/src/tictactoe/TicTacToe.sol:95-116 | in every reachable state anybody but the creator can accept a sealed invitation from any chain; only that view changes, to nine moves, the creator as opponent and the invitation as last seen |
| `TicTacToeResults.CreatorCanStart` | contracts/src/tictactoe/TicTacToe.sol:119-153 | once the acceptance is sealed the creator can start on any cell |
| `TicTacToeResults.CreatorCanMove` | contracts/src/tictactoe/TicTacToe.sol:156-198 | in an unfinished session whose last move is sealed, the creator to move can play any free cell: no check reverts |
| `TicTacToeResults.AcceptorCanMove` | contracts/src/tictactoe/TicTacToe.sol:156-198 | the same for the acceptor |
| `TicTacToeResults.MovePlayerIgnored` | contracts/src/tictactoe/TicTacToe.sol:165-166 | the player named in a consumed move has no influence |
| `TicTacToeResults.AcceptAgain` | contracts/src/tictactoe/TicTacToe.sol:107-113 | after an acceptance the counter equals the empty cells exactly when the board was still empty |
| `TicTacToeExamples.AcceptsOnMarkedBoard` | contracts/src/tictactoe/TicTacToe.sol:107-113 | a reachable run in which a second acceptance leaves nine moves on a board with seven free cells |
| `TicTacToeExamples.AnswersStranger` | contracts/src/tictactoe/TicTacToe.sol:165-176 | a reachable run in which a creator consumes a stranger's move: two moves in a row, and boards that tell no common game |
| `ClientReplay.Fetcher.AddGame` | examples/tictactoe/src/hooks/useGames.ts:89-98 | an entry is reset to an empty active board with the given fields; earlier opponent fields survive |
| `ClientReplay.Fetcher.OnNewGame` | examples/tictactoe/src/hooks/useGames.ts:101-114 | the map after one NewGame log |
| `ClientReplay.Fetcher.OnAcceptedGame` | examples/tictactoe/src/hooks/useGames.ts:117-139 | the map after one acceptance: both players' entries, or the TypeError on a missing one |
| `ClientReplay.Fetcher.OnMove` | examples/tictactoe/src/hooks/useGames.ts:142-248 | the map after one move, win or draw: both boards, both statuses, the mover's latest action, or the TypeError |
| `ClientReplay.RecordMoveMeaning` | examples/tictactoe/src/hooks/useGames.ts:142-248 | a move marks its coordinates 1 on the mover's and 2 on the opponent's board; a win makes the mover's game won and the opponent's lost, a draw both drawn, a plain move neither; the mover's last action follows if its block is later, and no other entry changes |
| `ClientReplay.RecordNewGameMeaning` | examples/tictactoe/src/hooks/useGames.ts:101-114 | a NewGame leaves an empty active game with this action; an opponent known before stays |
| `ClientReplay.RecordAcceptanceMeaning` | examples/tictactoe/src/hooks/useGames.ts:117-139 | an acceptance leaves an empty active game against the creator, writes opponent and chain of the creator's game, and throws exactly when that is missing |
| `ClientReplay.Fetcher.PassChain` | examples/tictactoe/src/hooks/useGames.ts:101-114 | one chain's logs of one kind replay its acts in order, or stop at the first that throws |
| `ClientReplay.Fetcher.FetchPastEvents` | examples/tictactoe/src/hooks/useGames.ts:87-253 | the five passes compute the replay of what each query finds on its chain at its own time, kind by kind and chain by chain |
| `ClientReplay.StillAllFetched` | examples/tictactoe/src/hooks/useGames.ts:87-253 | when no sealed log is added meanwhile, that is the replay of one snapshot of all chains |
| `ClientReplayLocal.ReplayProject` | examples/tictactoe/src/hooks/useGames.ts:142-248 | the entries of one game after the replay depend only on the logs of that game |
| `ClientReplayLocal.ReplaySucceeds` | examples/tictactoe/src/hooks/useGames.ts:142-248 | the replay throws nowhere when it throws for no single game |
| `ClientReplaySafety.ReplaysIff` | examples/tictactoe/src/hooks/useGames.ts:133-160 | a fetch throws exactly when an acceptance comes without the creator's game before it, or a move off the board or without an acceptance that involves its player before it |
| `ClientReplaySafety.RunBacked` | contracts/src/tictactoe/TicTacToe.sol:95-198 | for arbitrary callers: every logged acceptance has its NewGame in a sealed block, every logged move an earlier acceptance on its own chain or a sealed one |
| `ClientReplaySafety.ReplayNeverThrows` | examples/tictactoe/src/hooks/useGames.ts:87-253 | in every reachable state, with no assumption on anybody, and for every order of the chains, the replay of the sealed logs does not throw |
| `ClientReplayFetch.FetchThrowsIff` | examples/tictactoe/src/hooks/useGames.ts:87-253 | for every run and whatever time each query is made at: the fetch throws exactly when some fetched acceptance's invitation was not sealed at its own query, or some fetched move comes without an acceptance that involves its player |
| `ClientReplayFetch.ThrowsOnlyIfMissed` | examples/tictactoe/src/hooks/useGames.ts:101-135 | a fetch that throws has missed an invitation or an acceptance that was not sealed at its own query and was at another query of the fetch |
| `ClientReplayExamples.LateInvitation` | examples/tictactoe/src/hooks/useGames.ts:101-135 | one run with an invitation sealed after the NewGame queries and accepted before the acceptance queries: the fetch throws, while one of the final state does not |
| `ClientReplayLocal.ReplayMoves` | examples/tictactoe/src/hooks/useGames.ts:145-174 | replaying any interleaving of two players' moves marks each move 1 on the mover's and 2 on the opponent's board |
| `ClientReplayTapes.AllChainActs` | examples/tictactoe/src/hooks/useGames.ts:142-145 | in whatever order the chains are listed, the fetched logs that answer a query are those of its home chain, in log order |
| `ClientReplayGame.RebuiltBoards` | examples/tictactoe/src/hooks/useGames.ts:152-160 | the two rebuilt boards of a session are the shared history as each player sees it |
| `ClientReplayGame.RebuiltStatus` | examples/tictactoe/src/hooks/useGames.ts:189-235 | the statuses folded from the replayed moves are those of the emitted verdict: won for its player, lost for the other, drawn for both, else active |
| `ClientReplayGame.RebuiltLatest` | examples/tictactoe/src/hooks/useGames.ts:163-166 | each player's last action is that player's latest logged event |
| `ClientReplayResults.SealedGood` | examples/tictactoe/src/hooks/useGames.ts:101-145 | what of a session lies in sealed blocks is again one legal game with correct verdicts |
| `ClientReplayResults.GameReplay` | examples/tictactoe/src/hooks/useGames.ts:87-253 | the logs of one session replay to exactly its expected two games |
| `ClientReplayResults.ReplayAgrees` | examples/tictactoe/src/hooks/useGames.ts:87-253 | for every order of the chains and whatever anybody does in other games: an honest session whose game nobody else joined is shown with both swapped boards of its full history, the verdict's statuses and the latest actions, and nothing else |
| `ClientReplayResults.VerdictShown` | examples/tictactoe/src/hooks/useGames.ts:176-248 | in the games shown of such a session: after an announced win the winner's game is won and the other's lost, after a draw both are drawn, otherwise both are active |
| `ClientReplayRivals.OpenedAfter` | examples/tictactoe/src/hooks/useGames.ts:101-139 | after contested openings the creator faces whoever is fetched last, everybody else the creator |
| `ClientReplayRivals.RivalReplay` | examples/tictactoe/src/hooks/useGames.ts:142-248 | replaying any moves of a contested game gives the creator the game against everybody and the acceptor the game between the two addresses |
| `ClientReplayRivals.GamesIff` | examples/tictactoe/src/hooks/useGames.ts:145-248 | the two players' games after all fetched moves are those after the session's own moves exactly when, on every cell, for the verdict and for the acceptor's newest action, what counts last is the session's or agrees with it |
| `ClientReplayRivals.ReplayShowsIff` | examples/tictactoe/src/hooks/useGames.ts:87-253 | for every honest run with arbitrary rivals in the same game and every order of the chains: both players are shown their expected games exactly when the session's acceptance is fetched last and its moves, verdict and newest action prevail |
| `ClientReplayRivals.RivalsWithoutMoves` | examples/tictactoe/src/hooks/useGames.ts:117-139 | if no rival has moved, only the acceptance fetched last decides |
| `ClientMove.MakeMove` | examples/tictactoe/src/hooks/useMakeMove.ts:14-30 | the counting loops choose startGame exactly when the opponent's board has no mark, with the opponent's last action as argument |
| `ClientMove.ClientMoveSucceeds` | examples/tictactoe/src/hooks/useMakeMove.ts:14-30 | on the shown games of an honest session, an active game and a free cell of the mover's own board suffice for the call of the click to pass every check |
| `ClientClick.SessionCallIff` | contracts/src/tictactoe/TicTacToe.sol:119-198 | in a sealed session the call that presents the other player's latest action passes every check exactly on a free cell of the shared history of an unfinished session |
| `ClientClick.ShownTo` | examples/tictactoe/src/hooks/useGames.ts:117-248 | with arbitrary rivals: the creator is shown the game against everybody and faces whoever is fetched last, that opponent is shown the game between the two addresses, and the session's acceptor always faces the creator |
| `ClientClick.ClickIff` | examples/tictactoe/src/components/Board.tsx:59-97 | after any honest run, with arbitrary rivals and every order of the chains: the click presents the other player's latest action exactly if it is the acceptor's turn or the newest fetched action of the creator's shown opponent is the session's; and that call passes every check exactly on a free cell of the shared history of an unfinished session |
| `ClientClick.RightActionIff` | examples/tictactoe/src/hooks/useGames.ts:117-166 | when the acceptor's address accepted nowhere else, that condition is: the session's acceptance is fetched last and the newest fetched action of the acceptor's address is the session's |
| `ClientClick.ClientComposition` | examples/tictactoe/src/components/Board.tsx:59-97 | after any honest run, with arbitrary rivals and every order of the chains: if the acceptance fetched last is by the acceptor's address and, on the creator's turn, the newest action fetched of it is the session's, every cell that the player to move can click on gives a call that the contract accepts |
| `ClientClick.PrevailingAnswers` | examples/tictactoe/src/hooks/useGames.ts:117-166 | whenever the session's logs prevail in the fetch, the click meets that condition |
| `ClientMove.AlonePrevails` | examples/tictactoe/src/hooks/useGames.ts:87-253 | the session's logs prevail whenever nobody else has logged anything about its game |
| `ClientReplayExamples.OrderDecides` | examples/tictactoe/src/hooks/useGames.ts:117-139 | an honest run with a rival acceptance on another chain: one order of the chains shows the creator the rival, the other the session's acceptor |
| `ClientReplayExamples.ButtonFails` | examples/tictactoe/src/components/Board.tsx:59-97 | an honest run, all sealed, the creator to move on a free cell of an active game, but a rival's acceptance fetched last: the button answers it with makeMove, which reverts |
| `CallTree.LevelOrderPermutes` | anvil/anvil.go:330-341 | the level order of a call tree's logs is a permutation of its pre-order |
| `CallTree.LevelOrderByDepth` | anvil/anvil.go:330-341 | the logs come depth by depth, within a depth from left to right |
| `CallTree.SimulatedLogs` | anvil/anvil.go:330-341 | the queue loop ends on every finite tree and returns the level order, losing and duplicating nothing |
| `AdmissionGate.ExecutingMessagePayloadBytes` | interop/derive.go:8-14 | byte by byte: topic k at 32k to 32k + 32, first to last, then the data, and nothing more |
| `AdmissionGate.PayloadLayout` | interop/derive.go:8-14 | the specified payload of every log is laid out so |
| `AdmissionGate.LayoutDetermines` | interop/derive.go:8-14 | no other bytes are |
| `AdmissionGate.PayloadDetermines` | interop/derive.go:8-14 | equal payloads mean equal topics and data exactly when the number of topics is equal |
| `AdmissionGate.PayloadForgetsTopicCount` | interop/derive.go:8-14 | a topic and 32 bytes of data give the same payload |
| `AdmissionGate.CheckMessage` | opsimulator/opsimulator.go:427-481 | the first reason for which one executing message is refused, in the order of the checks |
| `AdmissionGate.FaultlessIffHolds` | opsimulator/opsimulator.go:427-481 | no check fails exactly when peer, block, timestamp, the one log at the place, its payload hash and the delay are all right |
| `AdmissionGate.FaultIff` | opsimulator/opsimulator.go:427-481 | each fault is found exactly when all checks before it hold and its own does not: chain, block, timestamp, filter, no log at the place, two logs there, one with another payload, no header, too early |
| `AdmissionGate.CheckInteropInvariants` | opsimulator/opsimulator.go:411-486 | passes exactly when every executing message log parses to a message that holds; panics exactly when all parse and a blank identifier is the first that does not hold; otherwise the first fault, parsing before all others |
| `AdmissionGate.PanicsIff` | opsimulator/opsimulator.go:411-428 | the check panics exactly when every executing message log parses and some log with the selector, one more topic and no data follows only logs that pass |
| `AdmissionGate.RefusedIff` | opsimulator/opsimulator.go:411-486 | a transaction is refused as undecodable exactly when some executing message log does not parse, and otherwise with a fault exactly when it is that of the first message that does not hold |
| `AdmissionGate.SelectorDecides` | interop/derive.go:16-18 | passing means that every log whose first topic is the selector is allowed, and no other log counts |
| `AdmissionGate.NothingToCheck` | interop/derive.go:16-18 | a transaction without a log that starts with the selector passes |
| `AdmissionGate.HoldsIffRule` | opsimulator/opsimulator.go:428-480 | a message meets the interop rule in a block of a given time, is due and its peer answers, exactly when the code lets it pass, its chain id and due time stay within 64 bits and that block is not the earlier one |
| `AdmissionGate.DueIsOrdered` | opsimulator/opsimulator.go:471-480 | a configured delay also orders the two blocks |
| `AdmissionGate.ExecutedBeforeInitiated` | opsimulator/opsimulator.go:439-480 | without a delay a message that meets the rule in its own block's time passes at any time, and meets the rule exactly from that time on |
| `AdmissionGate.DelayExactIff` | opsimulator/opsimulator.go:471-480 | the delay check is right for every header time exactly when block time plus delay does not wrap |
| `AdmissionGate.TruncatedChainId` | opsimulator/opsimulator.go:428 | a concrete message outside the range: 901 + 2^64 is taken for chain 901 |
| `AdmissionGate.PassesAnyOrder` | opsimulator/opsimulator.go:411-486 | passing depends only on the multiset of logs |
| `AdmissionGate.TreePasses` | anvil/anvil.go:330-341 | a transaction passes exactly when every executing message anywhere in its call tree is allowed |
| `AdmissionGate.AdmissionExact` | opsimulator/opsimulator.go:411-486 | every message of the inbox in the call tree meets the interop rule and every look-alike passes, exactly when the gate passes the transaction and all messages of the inbox stay within 64 bits and in order |
| `AdmissionGate.LookAlikeStops` | bindings/crossl2inbox.go:608-615 | a look-alike log of another contract, without any message of the inbox, stops a transaction if it does not parse and makes the check panic if it parses to a blank identifier |
| `AdmissionLink.InitiatedIff` | opsimulator/opsimulator.go:434-469 | on one chain the gate finds the initiating message exactly when a log of a sealed block carries the presented data at that place |
| `AdmissionLink.GateIsAdmission` | opsimulator/opsimulator.go:411-486 | with the running chains as peers and no delay, the gate admits an executing message with a chain id below 2^64 exactly when the protocol model does, and the interop rule holds exactly when moreover the executing block is not the earlier one |
| `RpcHandler.ForwardRPCRequest` | opsimulator/opsimulator.go:396-409 | params that are no list are refused without a call; otherwise exactly one request, with the message's method and exactly the elements of its params, is sent and its answer returned |
| `RpcHandler.Screen` | opsimulator/opsimulator.go:314-356 | the error of the first check that a raw transaction fails, or the panic of the interop check, none for other methods |
| `RpcHandler.Handler` | opsimulator/opsimulator.go:299-371 | a reply is produced exactly when no entry is null and no screening panics; then every slot is filled and response i has the ID of message i; the requests sent are those of the passing messages before the first such entry, in order |
| `RpcHandler.EndCutsBatch` | opsimulator/json.go:48-50 | the first entry that is null or whose screening panics cuts a batch of any length: exactly the messages before it are handled |
| `RpcHandler.CrashesIff` | opsimulator/opsimulator.go:314-356 | the screening panics exactly for a raw transaction that decodes and simulates, all of whose executing messages parse, with a blank one behind only allowed ones in level order |
| `RpcHandler.BlankLogCutsBatch` | opsimulator/opsimulator.go:418-428 | one transaction whose only log has the selector, one more topic and no data cuts any batch without a null |
| `RpcHandler.OneThenNull` | opsimulator/opsimulator.go:313-316 | one message whose screening does not panic, and a null: the message is sent if it passes, and there is no reply |
| `RpcHandler.SendsIff` | opsimulator/opsimulator.go:313-365 | a message reaches the chain exactly when its params are a list and, for a raw transaction, it decodes, is no deposit, simulates, and all executing messages of its call tree are allowed |
| `RpcHandler.SentIsSubsequence` | opsimulator/opsimulator.go:313-365 | what is sent is the in-order subsequence of the passing messages, each once |
| `RpcHandler.SentCarries` | opsimulator/opsimulator.go:396-409 | the k-th request sent has the method and exactly the params of the k-th passing message |
| `RpcHandler.StoppedIff` | opsimulator/opsimulator.go:314-356 | the error of a stopped message, check by check: the decoder's own, a wrong number of params, a deposit, a failed simulation, or the gate's fault |
| `RpcHandler.UnsentFails` | opsimulator/opsimulator.go:313-365 | a message screened without a panic that is not sent is answered with an error, one that is sent with the node's answer to its own method and params |
| `RpcHandler.StoppedLeaveNoTrace` | opsimulator/opsimulator.go:313-365 | stopped messages do not affect the rest: without them the same requests are sent |
| `PingPong.CrossChainPingPong.constructor` | contracts/src/pingpong/CrossChainPingPong.sol:63-67 | only the server chain starts with a ball, of rally count 1 |
| `PingPong.CrossChainPingPong.HitBallTo` | contracts/src/pingpong/CrossChainPingPong.sol:73-87 | a hit empties the slot and sends one ball with one more hit, or reverts without effect |
| `PingPong.CrossChainPingPong.ReceiveBall` | contracts/src/pingpong/CrossChainPingPong.sol:94-99 | only a message of the same contract through the messenger stores a ball |
| `PingPong.InvStep` | contracts/src/pingpong/CrossChainPingPong.sol:63-99 | every step, foreign messages and direct calls included, keeps the one ball where the last event left it |
| `PingPong.SingleBall` | contracts/src/pingpong/CrossChainPingPong.sol:63-99 | in every run: no ball before the server deployment, exactly one over all chains and messages ever after, with rally count 1 plus the number of sends, which fits 256 bits |
| `PingPong.FirstBall` | contracts/src/pingpong/CrossChainPingPong.sol:63-67 | whoever deploys on the server chain serves a ball with one hit, by that chain and that address, and it stays so until it is hit first, whatever else happens |
| `PingPong.HitReverts` | contracts/test/pingpong/CrossChainPingPong.t.sol:93-136 | each error of a hit comes exactly when the checks before it hold and its own does not; otherwise the sent ball has one hit more, this chain and this player |
| `PingPong.EventsAreARally` | contracts/src/pingpong/CrossChainPingPong.sol:84-98 | sends and receptions of all chains take turns, each reception of what was just sent, each send from where the ball landed |
| `PingPong.RallyCounts` | contracts/src/pingpong/CrossChainPingPong.sol:65-78 | the k-th ball sent, counting from 0, has rally count k + 2 |
| `PingPong.ReceiveNeverOverwrites` | contracts/src/pingpong/CrossChainPingPong.sol:94-96 | whatever game message is relayed, the destination holds no ball before |
| `PingPong.BallCanMove` | contracts/src/pingpong/CrossChainPingPong.sol:73-99 | anyone on the ball's chain can hit it to another deployment, where it can be received |
| `Voting.CrossChainVoting.CreateProposal` | contracts/src/voting/CrossChainVoting.sol:117-135 | the new storage and event, or a revert without effect, the arithmetic panics included |
| `Voting.CrossChainVoting.CountVote` | contracts/src/voting/CrossChainVoting.sol:171-197 | equals the specification of counting a vote; reverts roll back |
| `Voting.CrossChainVoting.CastVote` | contracts/src/voting/CrossChainVoting.sol:145-157 | elsewhere the vote is only sent to the governance chain, there it is counted at once |
| `Voting.CrossChainVoting.ReceiveVote` | contracts/src/voting/CrossChainVoting.sol:164-169 | counted only on the governance chain and only from the same contract through the messenger, for the reported source chain |
| `Voting.VoteCallIff` | contracts/src/voting/CrossChainVoting.sol:177-196 | a vote counts exactly inside the window, for a voter not counted yet; then one total and one chain tally grow by one, nothing else, and the same vote is then refused |
| `Voting.CreateConserves` | contracts/src/voting/CrossChainVoting.sol:117-135 | creating keeps the balance of all proposals |
| `Voting.VoteConserves` | contracts/src/voting/CrossChainVoting.sol:171-197 | counting keeps totals equal to the sums of the chain tallies and together equal to the number of voters |
| `Voting.CreatedWindow` | contracts/src/voting/CrossChainVoting.sol:118-134 | a creation succeeds exactly on the governance chain while number and end fit 256 bits; the proposal has the next number and its description, and votes on it are out of time exactly outside creation time to creation time plus period |
| `VotingRuns.InvStep` | contracts/src/voting/CrossChainVoting.sol:117-197 | every step of anybody keeps storage and ledger in agreement |
| `VotingRuns.VotesConserved` | contracts/src/voting/CrossChainVoting.sol:186-194 | in every run and for every proposal, totals are the sums of the chain tallies and together the number of addresses that voted |
| `VotingRuns.VoteProvenance` | contracts/src/voting/CrossChainVoting.sol:145-197 | in every run each counted vote was cast by its voter on the chain credited, once per proposal; tallies count exactly these; other deployments stay empty |
| `VotingRuns.NoStuffing` | contracts/src/voting/CrossChainVoting.sol:145-197 | a chain is credited with at most as many votes for a side as distinct voters cast that vote on that chain |
| `VotingRuns.OneVotePerVoter` | contracts/src/voting/CrossChainVoting.sol:182-186 | two counted votes on one proposal have different voters |
| `VotingRuns.ClosedForGood` | contracts/src/voting/CrossChainVoting.sol:180-181 | once time passes the end of a created proposal, nothing of it ever changes |
| `VotingRuns.OnlyCreatedHaveVotes` | contracts/src/voting/CrossChainVoting.sol:177-181 | when the clock starts above zero, only created proposals ever hold anything |
| `VotingRuns.VotableUntilEnd` | contracts/src/voting/CrossChainVoting.sol:118-181 | whatever happens after its creation, a proposal refuses votes as out of time exactly once more than its period has passed |
| `VotingRuns.EverythingFits` | contracts/src/voting/CrossChainVoting.sol:118-197 | in every run proposal numbers, windows, totals and tallies fit 256 bits |
| `VotingRuns.UncreatedVotableIff` | contracts/src/voting/CrossChainVoting.sol:177-183 | in every reachable state a vote on a proposal not created yet is counted exactly at time zero, for a voter not counted on it |
| `VotingRuns.RelayCountsIff` | contracts/src/voting/CrossChainVoting.sol:164-196 | a vote in transit is counted on arrival exactly when its window is open and its voter not counted; otherwise nothing changes and it may be retried |
| `MessageLifecycle.FoldByHash` | interop/store.go:112-134 | what the store holds under a hash is the fold of the events with that hash |
| `MessageLifecycle.EqualPerHash` | interop/store.go:91-134 | histories with equal order per hash give equal stores |
| `MessageLifecycle.InterleavingIrrelevant` | interop/indexer.go:47-72 | if each hash's events come from one chain, every interleaving of the goroutines gives the same store |
| `MessageLifecycle.CausalInterleavings` | interop/indexer.go:47-72 | likewise for mixed histories: messages of one chain in any order, messages relayed on another chain when no relay is handled before its send |
| `MessageLifecycle.RecordMeaning` | interop/store.go:112-215 | after its last send a message keeps its content; failed hashes are listed in order up to the first relay, which stays; identifier and log last exactly until the first update |
| `MessageLifecycle.SummaryStep` | interop/store.go:26-40 | one event more is one lifecycle update: the first relay stays, failures before it are appended in order |
| `MessageLifecycle.NothingBeforeSend` | interop/store.go:116-119 | without a send nothing is stored, relays are refused |
| `MessageLifecycle.RelayedIsAbsorbing` | interop/store.go:183-205 | a relayed message stays as it is until it is sent again |
| `MessageLifecycle.RaceIff` | interop/indexer.go:120-152 | for histories of any length: a message is recorded as relayed exactly when a relay of it is handled after its last send |
| `MessageLifecycle.RelayedIff` | interop/store.go:179-194 | whatever precedes the last send, the status is relayed exactly when a relay with a transaction hash follows it |
| `MessageLifecycle.CausalRecordIff` | interop/indexer.go:47-72 | a message relayed on its own chain is stored in the order of its events; one sent once and relayed on another chain by different transactions is stored as if its send came first exactly when it did |
| `MessageLifecycle.CausalStoreIff` | interop/indexer.go:47-72 | for mixed histories of such messages an interleaving gives the store of an ordered one exactly when it handles every send before its relays on another chain |
| `MessageStore.L2ToL2MessageStore.Set` | interop/store.go:91-97 | only the entry under this hash changes |
| `MessageStore.L2ToL2MessageStore.Get` | interop/store.go:99-108 | the stored entry itself, or none |
| `MessageStore.L2ToL2MessageStore.UpdateLifecycle` | interop/store.go:112-134 | a fresh entry with the same message, the new lifecycle and neither identifier nor log replaces the old one, which is not written; a refused update changes nothing |
| `MessageStore.L2ToL2MessageIndexer.HandleSentEvent` | interop/store.go:150-177 | the store after a send, or an error without effect |
| `MessageStore.L2ToL2MessageIndexer.HandleRelayedEvent` | interop/store.go:179-194 | the store after a relay, refused when unknown or already relayed |
| `MessageStore.L2ToL2MessageIndexer.HandleFailedRelayedEvent` | interop/store.go:196-215 | the store after a failed relay, refused when unknown or already relayed |
| `MessageStore.L2ToL2MessageIndexer.ProcessEventLog` | interop/indexer.go:115-156 | dispatch by selector, with store, publications and error as told by `LoggedByKind`; every failure leaves store and publications alone |
| `MessageStore.LoggedByKind` | interop/store.go:150-215 | selector by selector: a send stores message, place and log as sent and both chains hear of it; a relay of a stored unrelayed message records its transaction, keeps the failed ones and is published as relayed; a failed one appends its transaction, leaves the message unrelayed and is published as failed; anything else changes nothing |
| `MessageStore.L2ToL2MessageIndexer.ConsumeLogs` | interop/indexer.go:59-68 | after any interleaved history of logs the store is the fold of its usable events |
| `ForkHeight.LatestL2HeightFromL1Header` | orchestrator/fork.go:129-151 | an error exactly before genesis or without a header, else the computed height |
| `ForkHeight.HeightIsForkBlock` | orchestrator/fork.go:139-150 | with two-second blocks the subtraction never wraps and the height is the latest existing block, from genesis on, no later than the L1 header |
| `ForkHeight.RightIffTwoSeconds` | orchestrator/fork.go:18-150 | the computation is right for all heads and L1 times exactly when the chain's blocks are two seconds apart |
| `ForkHeight.Monotone` | orchestrator/fork.go:139-150 | a later L1 header never forks at an earlier block |
| `ForkHeight.SettledOncePassed` | orchestrator/fork.go:139-150 | once a chain's head has passed the L1 time, later heads give the same height |
| `ForkHeight.ForksAligned` | orchestrator/fork.go:91-103 | chains whose heads have passed the L1 time fork within less than one block time of it and of each other |
| `ForkHeight.DependencySet` | orchestrator/fork.go:111-118 | the ids of the other forked chains, in order |
| `ForkHeight.OthersMeaning` | orchestrator/fork.go:111-118 | every other forked chain is in the set and the chain itself never is |
| `ForkHeight.OthersInOrder` | orchestrator/fork.go:111-118 | for a chain listed once the set is exactly the ids listed before it and after it, in order and with multiplicity |
| `ForkHeight.ForkChains` | orchestrator/fork.go:65-126 | one configuration per chain in order with the right height, exactly when every chain can be forked; otherwise the first chain's failure |

## Left out

- ClientReplayRivals.ReplayShowsIff: the `turn` flag and its timestamp comparison are not modelled, because two chains' block times can tie.
- ClientReplayRivals.ReplayShowsIff: like ClientClick.ClickIff it speaks of one snapshot of all chains; the methods themselves and ClientReplayFetch.FetchThrowsIff take one per query. The live watch (examples/tictactoe/src/hooks/useGames.ts:258-430) is not modelled.
- ClientReplay.Fetcher.OnMove: a column outside the board is treated like the row outside it, as a TypeError, although JavaScript would add a property; the contract never logs either.
- ClientReplay.Fetcher.AddGame: a null cell is 0 and the 3-by-3 array is one sequence of nine cells.
- AdmissionGate.CheckInteropInvariants: each node answers from one snapshot per transaction; a node that fails to answer is covered only as a missing header or a failing log filter.
- AdmissionGate.PanicsIff: the behaviour of go-ethereum's `UnpackLog` and `ParseTopics` on empty data and on the number of topics is taken from that library, which is not part of this model.
- AdmissionGate.CheckMessage: log indexes below 2^63, so their conversion to a signed number is exact.
- AdmissionLink.GateIsAdmission: needs that the presented payload's hash collides with that of no other logged event; injectivity of Keccak is not assumed in general.
- RpcHandler.Handler: an empty batch and notifications (sections 6 and 4.1 of JSON-RPC 2.0) get no special treatment in the code and none here; the HTTP layer and the JSON parser are not modelled, a body that does not parse never reaches this method.
- PingPong.SingleBall: a message to a chain without the contract is never relayed; what the messenger would do there is not part of the repository.
- PingPong.BallCanMove: below the top of the 256-bit counter only.
- VotingRuns.VoteProvenance: the clock is that of the governance chain and never runs backwards.
- MessageStore.L2ToL2MessageIndexer.ConsumeLogs: each log is processed as one step, as under the store's lock; the order in which two goroutines publish after releasing it is not modelled.
- MessageStore.L2ToL2MessageIndexer.ProcessEventLog: logs have the four topics of the messenger's events; chain ids, block times and log indexes are below 2^63. FailedRelayedMessage is an abstract third selector.
- ForkHeight.ForkChains: names are already resolved to registry entries, as the command line check does beforehand; environment overrides and dialling are left out.
- Message expiry is not implemented by the gate and not part of the stated rule.
- Keccak, ABI and RLP coding, signatures and selectors are parameters or abstract values.
- The bodies of L2ToL2CrossDomainMessenger and CrossL2Inbox are not part of this model; at-most-once relay, the destination match and the authentic sender and source are assumed.
- The sender of a transaction is never the zero address, and a transaction makes one call of the contract.
- Gas, reentrancy and contract creation beyond one deployment per chain and address.
- Anvil process management, the admin server, the command line, world generation, relayer sends, the event bus library, orchestrator start and stop: input and output only.
- React components, proposal recounting in the client, `endingMoves` and L2NativeSuperchainERC20: easy members or dependent on library code outside the repository.
