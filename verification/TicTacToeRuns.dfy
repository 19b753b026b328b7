// What every run guarantees when nobody is assumed honest.
module TicTacToeRuns {
  import opened Boards
  import opened Interop
  import opened TicTacToeContract
  import opened TicTacToeWorld

  function Run(w: World, steps: seq<Step>): World {
    if steps == [] then w else Apply(Run(w, steps[..|steps| - 1]), steps[|steps| - 1])
  }

  lemma {:induction false} RunInv(w: World, steps: seq<Step>)
    requires Initial(w)
    ensures Inv(Run(w, steps))
  {
    if steps == [] {
      InitialInv(w);
    } else {
      RunInv(w, steps[..|steps| - 1]);
      InvStep(Run(w, steps[..|steps| - 1]), steps[|steps| - 1]);
    }
  }

  // The only NewGame a call logs is that of the next game.
  lemma LogsNextGame(w: World, step: Step)
    requires Succeeds(w, step)
    ensures var event := Execute(w, step.chain, step.sender, step.call).event;
            event.NewGame? ==> event.chainId == step.chain && event.gameId == w[step.chain].storage.nextGameId
  {
    hide HasLine;
    hide Admitted;
  }

  lemma CreatedStep(w: World, step: Step, c: nat, g: nat, p: Address)
    requires Inv(w) && Created(w, c, g, p)
    ensures Created(Apply(w, step), c, g, p)
  {
    hide Apply;
    hide Inv;
    hide Logged;
    hide Quiet;
    hide Created;
    hide Execute;
    var w' := Apply(w, step);
    StepEffect(w, step);
    if Succeeds(w, step) {
      LogsNextGame(w, step);
      var o := Execute(w, step.chain, step.sender, step.call);
      LoggedCreated(w, w', step.chain, o.storage, o.event, c, g, p);
    } else if w' != w {
      QuietCreated(w, w', step.chain);
    }
  }

  // The caller successfully consumes the event at step.call.id for its view k on chain ch.
  predicate Consumes(w: World, step: Step, ch: nat, k: Key) {
    && Succeeds(w, step) && step.chain == ch && step.sender == k.player
    && (step.call.CallStart? || step.call.CallMove?)
    && (step.call.data.AcceptedGame? || step.call.data.MovePlayed?)
    && step.call.data.chainId == k.chainId && step.call.data.gameId == k.gameId
  }

  // The creator's view, once stored, only moves forward along one chain.
  lemma CreatorForward(w: World, step: Step, k: Key)
    requires Inv(w) && Created(w, k.chainId, k.gameId, k.player) && k in w[k.chainId].storage.games
    ensures var w' := Apply(w, step);
            && k.chainId in w' && k in w'[k.chainId].storage.games
            && var last := w[k.chainId].storage.games[k].lastOpponentId;
            && var last' := w'[k.chainId].storage.games[k].lastOpponentId;
            && last'.chainId == last.chainId
            && last.blockNumber <= last'.blockNumber
            && (Consumes(w, step, k.chainId, k) ==>
                 step.call.CallMove? && last' == step.call.id && last.blockNumber < last'.blockNumber)
  {
    hide MoveCall;
    hide HasLine;
    hide Admitted;
    var w' := Apply(w, step);
    StepEffect(w, step);
    var s := w[k.chainId].storage;
    assert ChainOk(w, k.chainId);
    assert ViewOk(w, k.chainId, k, s.games[k]);
    if Succeeds(w, step) && step.chain == k.chainId {
      match step.call
      case CallNewGame =>
      case CallAccept(id, data) => AdmittedNewGame(w, id, data);
      case CallStart(id, data, x, y) =>
      case CallMove(id, data, x, y) => MoveCallMeaning(SELF, s, step.sender, Admitted(w, id, data), id, data, x, y);
    }
  }

  // A first consumption by the creator stores the consumed place as the last one seen.
  lemma ConsumeStores(w: World, step: Step, k: Key)
    requires Inv(w) && Consumes(w, step, k.chainId, k)
    ensures var w' := Apply(w, step);
            && k in w'[k.chainId].storage.games
            && w'[k.chainId].storage.games[k].lastOpponentId == step.call.id
  {
    StepEffect(w, step);
    match step.call
    case CallStart(id, data, x, y) =>
    case CallMove(id, data, x, y) =>
      MoveCallMeaning(SELF, w[k.chainId].storage, step.sender, Admitted(w, id, data), id, data, x, y);
  }

  // From the moment the creator saw block b of chain c, it stays on c at block b or later.
  lemma {:induction false} CreatorStays(w: World, steps: seq<Step>, k: Key, i: nat, c: nat, b: nat)
    requires Initial(w) && i <= |steps|
    requires var u := Run(w, steps[..i]);
             && Created(u, k.chainId, k.gameId, k.player) && k in u[k.chainId].storage.games
             && u[k.chainId].storage.games[k].lastOpponentId.chainId == c
             && b <= u[k.chainId].storage.games[k].lastOpponentId.blockNumber
    ensures var u := Run(w, steps);
            && Created(u, k.chainId, k.gameId, k.player) && k in u[k.chainId].storage.games
            && u[k.chainId].storage.games[k].lastOpponentId.chainId == c
            && b <= u[k.chainId].storage.games[k].lastOpponentId.blockNumber
  {
    hide Apply;
    hide Created;
    hide Inv;
    hide Initial;
    hide Consumes;
    if i == |steps| {
      assert steps[..i] == steps;
    } else {
      var n := |steps| - 1;
      assert steps[..n][..i] == steps[..i];
      CreatorStays(w, steps[..n], k, i, c, b);
      RunInv(w, steps[..n]);
      CreatorForward(Run(w, steps[..n]), steps[n], k);
      CreatedStep(Run(w, steps[..n]), steps[n], k.chainId, k.gameId, k.player);
    }
  }

  // In any run, with arbitrary callers, a game's creator starts it at most once and never
  // consumes an event twice: all its consumptions lie on one chain in strictly later blocks.
  lemma CreatorConsumesForward(w: World, steps: seq<Step>, k: Key, i: nat, j: nat)
    requires Initial(w) && i < j < |steps|
    requires Created(Run(w, steps[..i]), k.chainId, k.gameId, k.player)
    requires Consumes(Run(w, steps[..i]), steps[i], k.chainId, k)
    requires Consumes(Run(w, steps[..j]), steps[j], k.chainId, k)
    ensures steps[j].call.CallMove?
    ensures steps[i].call.id.chainId == steps[j].call.id.chainId
    ensures steps[i].call.id.blockNumber < steps[j].call.id.blockNumber
  {
    var u := Run(w, steps[..i]);
    RunInv(w, steps[..i]);
    ConsumeStores(u, steps[i], k);
    CreatedStep(u, steps[i], k.chainId, k.gameId, k.player);
    assert steps[..i + 1][..i] == steps[..i];
    assert steps[..j][..i + 1] == steps[..i + 1];
    assert Run(w, steps[..i + 1]) == Apply(u, steps[i]);
    CreatorStays(w, steps[..j], k, i + 1, steps[i].call.id.chainId, steps[i].call.id.blockNumber);
    RunInv(w, steps[..j]);
    CreatorForward(Run(w, steps[..j]), steps[j], k);
  }

  // In every reachable state a game has one creator, whose counter is 8 - 2n after n moves
  // beyond the starting one, so n is at most 4; and the creator logs nothing before starting.
  lemma CreatorCounts(w: World, steps: seq<Step>, c: nat, g: nat, p: Address)
    requires Initial(w) && Created(Run(w, steps), c, g, p)
    ensures var u := Run(w, steps);
            var moves := Select(u[c].logs, Moves(c, g, p));
            && (forall q :: Created(u, c, g, q) ==> q == p)
            && if Key(c, g, p) in u[c].storage.games
               then 1 <= |moves| <= 5 && u[c].storage.games[Key(c, g, p)].movesLeft == 8 - 2 * (|moves| - 1)
               else moves == []
  {
    var u := Run(w, steps);
    RunInv(w, steps);
    assert ChainOk(u, c);
    var k := Key(c, g, p);
    if k in u[c].storage.games {
      assert ViewOk(u, c, k, u[c].storage.games[k]);
      CreatorStarted(w, steps, k);
    } else {
      NoMoves(u, c, k);
    }
  }

  // A stored view of the creator comes with at least one logged move.
  lemma {:induction false} CreatorStarted(w: World, steps: seq<Step>, k: Key)
    requires Initial(w) && Created(Run(w, steps), k.chainId, k.gameId, k.player)
    requires k in Run(w, steps)[k.chainId].storage.games
    ensures Run(w, steps)[k.chainId].storage.games[k].movesLeft <= 8
  {
    if steps != [] {
      var n := |steps| - 1;
      var v := Run(w, steps[..n]);
      var u := Run(w, steps);
      RunInv(w, steps[..n]);
      RunInv(w, steps);
      StepEffect(v, steps[n]);
      assert k.chainId in v;
      assert ChainOk(v, k.chainId);
      if k in v[k.chainId].storage.games {
        assert ViewOk(v, k.chainId, k, v[k.chainId].storage.games[k]);
        if Created(v, k.chainId, k.gameId, k.player) {
          CreatorStarted(w, steps[..n], k);
        } else {
          CreatedStep(v, steps[n], k.chainId, k.gameId, v[k.chainId].storage.games[k].opponent);
        }
      }
      StartedStep(v, steps[n], k);
    }
  }

  lemma CreatedOnce(w: World, c: nat, g: nat, p: Address, q: Address)
    requires Created(w, c, g, p)
    ensures Created(w, c, g, q) ==> p == q
  {
  }

  lemma StartedStep(w: World, step: Step, k: Key)
    requires Inv(w) && k.chainId in w && k in Apply(w, step)[k.chainId].storage.games
    requires Created(Apply(w, step), k.chainId, k.gameId, k.player)
    requires k in w[k.chainId].storage.games ==> w[k.chainId].storage.games[k].movesLeft <= 8
    ensures Apply(w, step)[k.chainId].storage.games[k].movesLeft <= 8
  {
    hide MoveCall;
    hide HasLine;
    hide Admitted;
    hide Inv;
    hide Created;
    StepEffect(w, step);
    if Succeeds(w, step) && step.chain == k.chainId {
      var s := w[k.chainId].storage;
      match step.call
      case CallNewGame =>
      case CallAccept(id, data) =>
        AdmittedNewGame(w, id, data);
        CreatedStep(w, step, data.chainId, data.gameId, data.player);
        CreatedOnce(Apply(w, step), k.chainId, k.gameId, k.player, data.player);
      case CallStart(id, data, x, y) =>
      case CallMove(id, data, x, y) => MoveCallMeaning(SELF, s, step.sender, Admitted(w, id, data), id, data, x, y);
    }
  }

  lemma ViewParity(w: World, ch: nat, k: Key, v: View)
    requires ch in w && ViewOk(w, ch, k, v)
    ensures v.movesLeft % 2 == 0 <==> k.chainId == ch && Created(w, ch, k.gameId, k.player)
  {
    if k.chainId == ch && Created(w, ch, k.gameId, k.player) {
      var n := |Select(w[ch].logs, Moves(ch, k.gameId, k.player))|;
      assert v.movesLeft == 2 * (5 - n);
    }
  }

  // In every reachable state a view's counter is even for the creator on the game's own chain and
  // odd for anybody who accepted, however often.
  lemma Parity(w: World, steps: seq<Step>, ch: nat, k: Key)
    requires Initial(w) && ch in Run(w, steps) && k in Run(w, steps)[ch].storage.games
    ensures var u := Run(w, steps);
            && Marked(u[ch].storage.games[k].moves)
            && (u[ch].storage.games[k].movesLeft % 2 == 0 <==> k.chainId == ch && Created(u, ch, k.gameId, k.player))
  {
    RunInv(w, steps);
    var u := Run(w, steps);
    assert ChainOk(u, ch);
    ViewParity(u, ch, k, u[ch].storage.games[k]);
  }

  // So only the creator ever announces a draw; and every logged coordinate is on the board, so a
  // consumed move never indexes outside it.
  lemma LoggedMoves(w: World, steps: seq<Step>, ch: nat, e: Entry)
    requires Initial(w) && ch in Run(w, steps) && e in Run(w, steps)[ch].logs && e.origin == SELF && IsMove(e.event)
    ensures e.event.x < 3 && e.event.y < 3
    ensures e.event.GameDraw? ==> e.event.chainId == ch && Created(Run(w, steps), ch, e.event.gameId, e.event.player)
  {
    RunInv(w, steps);
    var u := Run(w, steps);
    assert ChainOk(u, ch);
    assert EntryOk(u, ch, e);
  }

  // ---- Nothing before the start ----

  // The creator of the game has moved on the game's own chain.
  ghost predicate Started(w: World, c: nat, g: nat) {
    c in w && exists p :: Created(w, c, g, p) && Select(w[c].logs, Moves(c, g, p)) != []
  }

  ghost predicate EntryStarted(w: World, e: Entry) {
    e.origin == SELF && IsMove(e.event) ==> Started(w, e.event.chainId, e.event.gameId)
  }

  ghost predicate AllStarted(w: World) {
    forall ch, e :: ch in w && e in w[ch].logs ==> EntryStarted(w, e)
  }

  lemma StartedGrows(w: World, step: Step, c: nat, g: nat)
    requires Inv(w) && Started(w, c, g)
    ensures Started(Apply(w, step), c, g)
  {
    hide Inv;
    hide Created;
    hide Apply;
    hide Logged;
    hide Quiet;
    var w' := Apply(w, step);
    var p :| Created(w, c, g, p) && Select(w[c].logs, Moves(c, g, p)) != [];
    CreatedStep(w, step, c, g, p);
    StepEffect(w, step);
    if Succeeds(w, step) {
      var o := Execute(w, step.chain, step.sender, step.call);
      LoggedSelect(w, w', step.chain, o.storage, o.event, c, Moves(c, g, p));
    } else if w' != w {
      QuietSelect(w, w', step.chain, c, Moves(c, g, p));
    }
  }

  // A call that logs a move of a game starts it, or consumes another move of it.
  lemma MoveOfStarted(w: World, step: Step)
    requires Inv(w) && AllStarted(w) && Succeeds(w, step)
    ensures var event := Execute(w, step.chain, step.sender, step.call).event;
            IsMove(event) ==> Started(Apply(w, step), event.chainId, event.gameId)
  {
    hide Inv;
    hide MoveCall;
    hide HasLine;
    hide Created;
    var event := Execute(w, step.chain, step.sender, step.call).event;
    match step.call
    case CallNewGame =>
    case CallAccept(id, data) =>
    case CallStart(id, data, x, y) =>
      var e := AdmittedEntry(w, id, data);
      hide Admitted;
      CreatedStep(w, step, event.chainId, event.gameId, event.player);
      StepEffect(w, step);
      hide Execute;
      hide Apply;
      var o := Execute(w, step.chain, step.sender, step.call);
      LoggedSelect(w, Apply(w, step), step.chain, o.storage, event, step.chain,
                   Moves(event.chainId, event.gameId, event.player));
    case CallMove(id, data, x, y) =>
      MoveCallMeaning(SELF, w[step.chain].storage, step.sender, Admitted(w, id, data), id, data, x, y);
      var e := AdmittedEntry(w, id, data);
      assert EntryStarted(w, e);
      StartedGrows(w, step, data.chainId, data.gameId);
  }

  lemma StartedKept(w: World, step: Step)
    requires Inv(w) && AllStarted(w)
    ensures AllStarted(Apply(w, step))
  {
    hide Inv;
    hide Started;
    hide Execute;
    hide Succeeds;
    var w' := Apply(w, step);
    StepEffect(w, step);
    if Succeeds(w, step) {
      MoveOfStarted(w, step);
    }
    forall ch, e | ch in w' && e in w'[ch].logs ensures EntryStarted(w', e) {
      if ch in w && e in w[ch].logs {
        assert EntryStarted(w, e);
        if e.origin == SELF && IsMove(e.event) {
          StartedGrows(w, step, e.event.chainId, e.event.gameId);
        }
      }
    }
  }

  // In every reachable state, with arbitrary callers: if any move of a game is logged, on
  // whatever chain and by whomever, the game's creator has moved on the game's own chain.
  lemma {:induction false} NothingBeforeStart(w: World, steps: seq<Step>)
    requires Initial(w)
    ensures AllStarted(Run(w, steps))
  {
    hide Inv;
    hide Apply;
    hide Started;
    if steps != [] {
      var n := |steps| - 1;
      NothingBeforeStart(w, steps[..n]);
      RunInv(w, steps[..n]);
      StartedKept(Run(w, steps[..n]), steps[n]);
    }
  }

  // ---- The game counter ----

  lemma NumberStep(w: World, step: Step, ch: nat)
    requires ch in w && w[ch].storage.nextGameId <= UINT256_MAX
    ensures ch in Apply(w, step)
    ensures var (n, n') := (w[ch].storage.nextGameId, Apply(w, step)[ch].storage.nextGameId);
            && n' <= UINT256_MAX
            && (n' != n ==> n' == n + 1)
            && (n' == n + 1 <==>
                 step.Tx? && step.chain == ch && step.call.CallNewGame? && step.sender != ZERO && n < UINT256_MAX)
  {
    hide MoveCall;
    hide Admitted;
    hide HasLine;
    if Succeeds(w, step) {
      match step.call
      case CallMove(id, data, x, y) =>
        MoveCallMeaning(SELF, w[step.chain].storage, step.sender, Admitted(w, id, data), id, data, x, y);
      case _ =>
    }
  }

  // In every run the game counter of a chain fits 256 bits and advances by one with every newGame
  // on that chain until it is full, and with nothing else.
  lemma {:induction false} NumbersFit(w: World, steps: seq<Step>, ch: nat)
    requires Initial(w) && ch in w
    ensures var u := Run(w, steps);
            var n := NewGamesOn(steps, ch);
            ch in u && u[ch].storage.nextGameId == if n < UINT256_MAX then n else UINT256_MAX
  {
    hide Apply;
    if steps != [] {
      var n := |steps| - 1;
      NumbersFit(w, steps[..n], ch);
      NumberStep(Run(w, steps[..n]), steps[n], ch);
    }
  }

  // How often newGame was called on the chain.
  function NewGamesOn(steps: seq<Step>, ch: nat): nat {
    if steps == [] then 0
    else
      var last := steps[|steps| - 1];
      NewGamesOn(steps[..|steps| - 1], ch)
      + if last.Tx? && last.chain == ch && last.call.CallNewGame? && last.sender != ZERO then 1 else 0
  }
}
