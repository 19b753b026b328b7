// The replay never throws: in every reachable state, whoever called the contract, the sealed
// logs contain what a fetched acceptance or move refers to.
module ClientReplaySafety {
  import opened Wrappers
  import opened Boards
  import opened Interop
  import opened TicTacToeContract
  import opened TicTacToeWorld
  import opened TicTacToeRuns
  import opened ClientReplay
  import opened ClientReplayTapes

  // ---- What the logs refer to ----

  // Log i of chain ch is the contract's and lies in a sealed block.
  predicate SealedAt(w: World, ch: nat, i: nat) {
    ch in w && i < w[ch].start && w[ch].logs[i].origin == SELF
  }

  // The NewGame of a game is sealed on the game's own chain.
  ghost predicate NewGameSealed(w: World, c: nat, g: nat, p: Address) {
    exists i: nat :: SealedAt(w, c, i) && w[c].logs[i].event == NewGame(c, g, p)
  }

  predicate IsAcceptance(event: Event, c: nat, g: nat) {
    event.AcceptedGame? && event.chainId == c && event.gameId == g
  }

  // Somebody's acceptance of creator p's game is sealed somewhere.
  ghost predicate AcceptanceSealed(w: World, c: nat, g: nat, p: Address) {
    exists d: nat, i: nat :: SealedAt(w, d, i) && IsAcceptance(w[d].logs[i].event, c, g)
      && w[d].logs[i].event.opponent == p
  }

  // Player p accepted the game among the first n logs of chain ch.
  ghost predicate AcceptedBefore(w: World, ch: nat, n: nat, c: nat, g: nat, p: Address) {
    ch in w && n <= |w[ch].logs| &&
    exists i: nat :: i < n && w[ch].logs[i].origin == SELF && IsAcceptance(w[ch].logs[i].event, c, g)
      && w[ch].logs[i].event.player == p
  }

  // Among the first n logs of chain ch or anywhere sealed, p takes part in the game.
  ghost predicate Joined(w: World, ch: nat, n: nat, c: nat, g: nat, p: Address) {
    AcceptedBefore(w, ch, n, c, g, p) || AcceptanceSealed(w, c, g, p)
  }

  ghost predicate EntryBacked(w: World, ch: nat, i: nat)
    requires ch in w && i < |w[ch].logs|
  {
    var e := w[ch].logs[i];
    e.origin == SELF ==>
      && (e.event.AcceptedGame? ==> NewGameSealed(w, e.event.chainId, e.event.gameId, e.event.opponent))
      && (IsMove(e.event) ==> Joined(w, ch, i, e.event.chainId, e.event.gameId, e.event.player))
  }

  ghost predicate ChainBacked(w: World, ch: nat)
    requires ch in w
  {
    && (forall i :: 0 <= i < |w[ch].logs| ==> EntryBacked(w, ch, i))
    && (forall k :: k in w[ch].storage.games ==> Joined(w, ch, |w[ch].logs|, k.chainId, k.gameId, k.player))
  }

  ghost predicate Backed(w: World) {
    forall ch :: ch in w ==> ChainBacked(w, ch)
  }

  // ---- It stays so ----

  // Logs and seals only grow.
  ghost predicate Grows(w: World, w': World) {
    forall ch :: ch in w ==> ch in w' && w[ch].logs <= w'[ch].logs && w[ch].start <= w'[ch].start
  }

  lemma StepGrows(w: World, step: Step)
    ensures Grows(w, Apply(w, step))
  {
    hide Execute;
    hide Admitted;
  }

  lemma JoinedGrows(w: World, w': World, ch: nat, n: nat, m: nat, c: nat, g: nat, p: Address)
    requires Grows(w, w') && Joined(w, ch, n, c, g, p) && ch in w && n <= m <= |w'[ch].logs|
    ensures Joined(w', ch, m, c, g, p)
  {
    if AcceptedBefore(w, ch, n, c, g, p) {
      var i: nat :| i < n && w[ch].logs[i].origin == SELF && IsAcceptance(w[ch].logs[i].event, c, g)
        && w[ch].logs[i].event.player == p;
      assert w'[ch].logs[i] == w[ch].logs[i];
    } else {
      var d: nat, i: nat :| SealedAt(w, d, i) && IsAcceptance(w[d].logs[i].event, c, g)
        && w[d].logs[i].event.opponent == p;
      assert SealedAt(w', d, i) && w'[d].logs[i] == w[d].logs[i];
    }
  }

  lemma NewGameGrows(w: World, w': World, c: nat, g: nat, p: Address)
    requires Grows(w, w') && NewGameSealed(w, c, g, p)
    ensures NewGameSealed(w', c, g, p)
  {
    var i: nat :| SealedAt(w, c, i) && w[c].logs[i].event == NewGame(c, g, p);
    assert SealedAt(w', c, i) && w'[c].logs[i] == w[c].logs[i];
  }

  // An old entry stays backed.
  lemma EntryGrows(w: World, w': World, ch: nat, i: nat)
    requires Grows(w, w') && ch in w && i < |w[ch].logs| && EntryBacked(w, ch, i)
    ensures EntryBacked(w', ch, i)
  {
    hide Joined;
    hide NewGameSealed;
    var e := w[ch].logs[i];
    assert w'[ch].logs[i] == e;
    if e.origin == SELF && e.event.AcceptedGame? {
      NewGameGrows(w, w', e.event.chainId, e.event.gameId, e.event.opponent);
    }
    if e.origin == SELF && IsMove(e.event) {
      JoinedGrows(w, w', ch, i, i, e.event.chainId, e.event.gameId, e.event.player);
    }
  }

  // An admitted log of the contract is sealed.
  lemma AdmittedSealed(w: World, id: Identifier, data: Event) returns (i: nat)
    requires Inv(w) && Admitted(w, id, data) && id.origin == SELF
    ensures SealedAt(w, id.chainId, i) && w[id.chainId].logs[i].event == data
    ensures EntryOk(w, id.chainId, w[id.chainId].logs[i])
  {
    assert ChainOk(w, id.chainId);
    i :| 0 <= i < |w[id.chainId].logs| && At(w[id.chainId].logs[i], id, data);
  }

  // What a successful call logs is backed by the sealed logs and the views before it; and so is
  // the one view it writes.
  lemma CallBacked(w: World, step: Step)
    requires Inv(w) && Backed(w) && Succeeds(w, step)
    ensures var event := Execute(w, step.chain, step.sender, step.call).event;
            && (event.AcceptedGame? ==> NewGameSealed(w, event.chainId, event.gameId, event.opponent))
            && (IsMove(event) ==> Joined(w, step.chain, |w[step.chain].logs|, event.chainId, event.gameId,
                                         event.player))
    ensures var o := Execute(w, step.chain, step.sender, step.call);
            forall k :: k in o.storage.games ==>
              || k in w[step.chain].storage.games
              || (o.event.AcceptedGame? && k == Key(o.event.chainId, o.event.gameId, o.event.player))
              || Joined(w, step.chain, |w[step.chain].logs|, k.chainId, k.gameId, k.player)
  {
    hide HasLine;
    var s := w[step.chain].storage;
    match step.call
    case CallNewGame =>
    case CallAccept(id, data) =>
      var i := AdmittedSealed(w, id, data);
      assert NewGameSealed(w, data.chainId, data.gameId, data.player);
    case CallStart(id, data, x, y) =>
      var i := AdmittedSealed(w, id, data);
      assert AcceptanceSealed(w, data.chainId, data.gameId, data.opponent);
    case CallMove(id, data, x, y) =>
      hide MoveCall;
      MoveCallMeaning(SELF, s, step.sender, Admitted(w, id, data), id, data, x, y);
      var k := Key(data.chainId, data.gameId, step.sender);
      assert ChainBacked(w, step.chain);
      assert Joined(w, step.chain, |w[step.chain].logs|, k.chainId, k.gameId, k.player);
  }

  lemma CallKeepsBacked(w: World, step: Step)
    requires Inv(w) && Backed(w) && Succeeds(w, step)
    ensures Backed(Apply(w, step))
  {
    var w' := Apply(w, step);
    StepGrows(w, step);
    CallBacked(w, step);
    hide Execute;
    hide Joined;
    hide NewGameSealed;
    hide Inv;
    hide Admitted;
    var o := Execute(w, step.chain, step.sender, step.call);
    var n := |w[step.chain].logs|;
    forall ch | ch in w' ensures ChainBacked(w', ch) {
      assert ChainBacked(w, ch);
      forall i | 0 <= i < |w'[ch].logs| ensures EntryBacked(w', ch, i) {
        if i < |w[ch].logs| {
          EntryGrows(w, w', ch, i);
        } else {
          NewEntryBacked(w, w', ch, o.event, i);
        }
      }
      forall k | k in w'[ch].storage.games ensures Joined(w', ch, |w'[ch].logs|, k.chainId, k.gameId, k.player) {
        if ch != step.chain || k in w[ch].storage.games || Joined(w, ch, n, k.chainId, k.gameId, k.player) {
          JoinedGrows(w, w', ch, |w[ch].logs|, |w'[ch].logs|, k.chainId, k.gameId, k.player);
        } else {
          JustAccepted(w', ch, o.event);
        }
      }
    }
  }

  lemma NewEntryBacked(w: World, w': World, ch: nat, event: Event, i: nat)
    requires Grows(w, w') && ch in w && i == |w[ch].logs| < |w'[ch].logs| && w'[ch].logs[i].event == event
    requires event.AcceptedGame? ==> NewGameSealed(w, event.chainId, event.gameId, event.opponent)
    requires IsMove(event) ==> Joined(w, ch, i, event.chainId, event.gameId, event.player)
    ensures EntryBacked(w', ch, i)
  {
    hide Joined;
    hide NewGameSealed;
    if event.AcceptedGame? {
      NewGameGrows(w, w', event.chainId, event.gameId, event.opponent);
    }
    if IsMove(event) {
      JoinedGrows(w, w', ch, i, i, event.chainId, event.gameId, event.player);
    }
  }

  lemma JustAccepted(w: World, ch: nat, event: Event)
    requires ch in w && w[ch].logs != [] && event.AcceptedGame?
    requires w[ch].logs[|w[ch].logs| - 1].origin == SELF && w[ch].logs[|w[ch].logs| - 1].event == event
    ensures Joined(w, ch, |w[ch].logs|, event.chainId, event.gameId, event.player)
  {
    var n := |w[ch].logs| - 1;
    assert IsAcceptance(w[ch].logs[n].event, event.chainId, event.gameId);
  }

  lemma BackedStep(w: World, step: Step)
    requires Inv(w) && Backed(w)
    ensures Backed(Apply(w, step))
  {
    hide Joined;
    hide NewGameSealed;
    hide Inv;
    var w' := Apply(w, step);
    if Succeeds(w, step) {
      CallKeepsBacked(w, step);
    } else if w' != w {
      hide Succeeds;
      StepGrows(w, step);
      forall ch | ch in w' ensures ChainBacked(w', ch) {
        assert ChainBacked(w, ch);
        forall i | 0 <= i < |w'[ch].logs| ensures EntryBacked(w', ch, i) {
          if i < |w[ch].logs| {
            EntryGrows(w, w', ch, i);
          }
        }
        forall k | k in w'[ch].storage.games ensures Joined(w', ch, |w'[ch].logs|, k.chainId, k.gameId, k.player) {
          JoinedGrows(w, w', ch, |w[ch].logs|, |w'[ch].logs|, k.chainId, k.gameId, k.player);
        }
      }
    }
  }

  lemma {:induction false} RunBacked(w: World, steps: seq<Step>)
    requires Initial(w)
    ensures Backed(Run(w, steps))
  {
    if steps != [] {
      var n := |steps| - 1;
      RunBacked(w, steps[..n]);
      RunInv(w, steps[..n]);
      BackedStep(Run(w, steps[..n]), steps[n]);
    }
  }

  // ---- What the replay needs of each log ----

  predicate Creates(act: Act, c: nat, g: nat, p: Address) {
    act.event == NewGame(c, g, p)
  }

  // The act is an acceptance of the game, by p or of p's game.
  predicate Involves(act: Act, c: nat, g: nat, p: Address) {
    IsAcceptance(act.event, c, g) && (act.event.player == p || act.event.opponent == p)
  }

  // The acts have brought p's game into the map; and an opponent for it.
  ghost predicate Known(acts: seq<Act>, c: nat, g: nat, p: Address) {
    exists b :: b in acts && (Creates(b, c, g, p) || Involves(b, c, g, p))
  }

  ghost predicate Taken(acts: seq<Act>, c: nat, g: nat, p: Address) {
    exists b :: b in acts && Involves(b, c, g, p)
  }

  // The acts before contain what the act refers to.
  ghost predicate Enabled(before: seq<Act>, act: Act) {
    match act.event
    case NewGame(_, _, _) => true
    case Foreign(_) => true
    case AcceptedGame(c, g, o, p) => o == p || Known(before, c, g, o)
    case _ =>
      act.event.x < 3 && act.event.y < 3 && Taken(before, act.event.chainId, act.event.gameId, act.event.player)
  }

  ghost predicate Sound(acts: seq<Act>) {
    acts == [] || (Sound(acts[..|acts| - 1]) && Enabled(acts[..|acts| - 1], acts[|acts| - 1]))
  }

  lemma EnabledMore(a: seq<Act>, b: seq<Act>, act: Act)
    requires Enabled(a, act)
    ensures Enabled(a + b, act)
  {
    assert forall x :: x in a ==> x in a + b;
  }

  lemma {:induction false} SoundAppend(a: seq<Act>, b: seq<Act>)
    requires Sound(a) && forall act :: act in b ==> Enabled(a, act)
    ensures Sound(a + b)
  {
    hide Enabled;
    if b == [] {
      assert a + b == a;
    } else {
      var n := |b| - 1;
      assert (a + b)[..|a + b| - 1] == a + b[..n];
      SoundAppend(a, b[..n]);
      assert b[n] in b;
      EnabledMore(a, b[..n], b[n]);
    }
  }

  // Whoever has an opponent finds the opponent's game in the map, and every acceptance left
  // both players with one.
  predicate Paired(g: Games) {
    forall k :: k in g && g[k].opponent.Some? ==> Key(k.chainId, k.gameId, g[k].opponent.value) in g
  }

  predicate Opposed(g: Games, k: Key) {
    k in g && g[k].opponent.Some?
  }

  // The map after a list of acts: the games they made known, with an opponent where one was taken.
  ghost predicate Leaves(g: Games, acts: seq<Act>) {
    && Paired(g)
    && (forall k :: k in g <==> Known(acts, k.chainId, k.gameId, k.player))
    && (forall k :: Opposed(g, k) <==> Taken(acts, k.chainId, k.gameId, k.player))
  }

  lemma KnownMore(acts: seq<Act>, act: Act, c: nat, g: nat, p: Address)
    ensures Known(acts + [act], c, g, p) <==> Known(acts, c, g, p) || Creates(act, c, g, p) || Involves(act, c, g, p)
    ensures Taken(acts + [act], c, g, p) <==> Taken(acts, c, g, p) || Involves(act, c, g, p)
  {
    var all := acts + [act];
    assert forall b :: b in all <==> b in acts || b == act;
    assert act in all;
  }

  // How one act changes who has a game and who has an opponent.
  lemma RecordKeeps(g: Games, act: Act)
    requires Paired(g) && Record(g, act).Some?
    ensures var g' := Record(g, act).value;
            && Paired(g')
            && (forall k :: k in g' <==>
                 k in g || Creates(act, k.chainId, k.gameId, k.player) || Involves(act, k.chainId, k.gameId, k.player))
            && (forall k :: Opposed(g', k) <==> Opposed(g, k) || Involves(act, k.chainId, k.gameId, k.player))
  {
    if IsMove(act.event) {
      MoveKeeps(g, act);
    }
  }

  lemma MoveKeeps(g: Games, act: Act)
    requires Paired(g) && IsMove(act.event) && RecordMove(g, act).Some?
    ensures var g' := RecordMove(g, act).value;
            Paired(g') && (forall k :: k in g' <==> k in g) && forall k :: Opposed(g', k) <==> Opposed(g, k)
  {
    var g' := RecordMove(g, act).value;
    assert forall k :: k in g ==> g'[k].opponent == g[k].opponent;
  }

  lemma LeavesStep(g: Games, before: seq<Act>, act: Act)
    requires Leaves(g, before) && Record(g, act).Some?
    ensures Leaves(Record(g, act).value, before + [act])
  {
    hide Record;
    hide Known;
    hide Taken;
    RecordKeeps(g, act);
    forall c, n, p ensures
      && (Known(before + [act], c, n, p) <==> Known(before, c, n, p) || Creates(act, c, n, p) || Involves(act, c, n, p))
      && (Taken(before + [act], c, n, p) <==> Taken(before, c, n, p) || Involves(act, c, n, p)) {
      KnownMore(before, act, c, n, p);
    }
  }

  // Recording an act throws exactly when what it refers to is missing.
  lemma RecordsIff(g: Games, before: seq<Act>, act: Act)
    requires Leaves(g, before)
    ensures Record(g, act).Some? <==> Enabled(before, act)
  {
    hide Known;
    hide Taken;
    match act.event
    case AcceptedGame(c, n, o, p) =>
      assert Key(c, n, o) in g <==> Known(before, c, n, o);
    case NewGame(_, _, _) =>
    case Foreign(_) =>
    case _ =>
      var e := act.event;
      var k := Key(e.chainId, e.gameId, e.player);
      assert Opposed(g, k) <==> Taken(before, e.chainId, e.gameId, e.player);
  }

  // The replay of any list of logs throws exactly when some log comes before what it refers to.
  lemma {:induction false} ReplaysIff(acts: seq<Act>)
    ensures Replay(map[], acts).Some? <==> Sound(acts)
    ensures Replay(map[], acts).Some? ==> Leaves(Replay(map[], acts).value, acts)
  {
    if acts != [] {
      hide Record;
      hide Enabled;
      hide Leaves;
      var n := |acts| - 1;
      ReplaysIff(acts[..n]);
      if Replay(map[], acts[..n]).Some? {
        var g := Replay(map[], acts[..n]).value;
        RecordsIff(g, acts[..n], acts[n]);
        if Record(g, acts[n]).Some? {
          LeavesStep(g, acts[..n], acts[n]);
          assert acts == acts[..n] + [acts[n]];
        }
      }
    }
  }

  // ---- The fetched logs are sound ----

  // config.chains lists every chain once.
  ghost predicate Complete(w: World, order: seq<nat>) {
    NoDuplicates(order) && forall ch :: ch in w <==> ch in order
  }

  lemma InvSettled(w: World, order: seq<nat>)
    requires Inv(w) && Complete(w, order)
    ensures Ordered(w, order) && forall ch :: ch in w ==> Settled(w[ch])
  {
    assert forall ch :: ch in w ==> ChainOk(w, ch);
  }

  // The three passes over moves.
  ghost function MoveActs(w: World, order: seq<nat>): seq<Act>
    requires Ordered(w, order)
  {
    Acts(w, order, MoveLogs) + Acts(w, order, WonLogs) + Acts(w, order, DrawLogs)
  }

  lemma {:induction false} ActPresent(w: World, ch: nat, k: Kind, n: nat, i: nat)
    requires ch in w && Settled(w[ch]) && i < n <= w[ch].start
    requires w[ch].logs[i].origin == SELF && IsKind(k, w[ch].logs[i].event)
    ensures ToAct(w, ch, w[ch].logs[i]) in ActsOf(w, ch, k, n)
  {
    if i < n - 1 {
      ActPresent(w, ch, k, n - 1, i);
    }
  }

  // A sealed log of the contract is fetched.
  lemma {:induction false} ActFetched(w: World, order: seq<nat>, ch: nat, k: Kind, i: nat)
    requires Ordered(w, order) && ch in order && SealedAt(w, ch, i) && Settled(w[ch]) && IsKind(k, w[ch].logs[i].event)
    ensures ToAct(w, ch, w[ch].logs[i]) in Acts(w, order, k)
  {
    var n := |order| - 1;
    if order[n] == ch {
      ActPresent(w, ch, k, w[ch].start, i);
    } else {
      ActFetched(w, order[..n], ch, k, i);
    }
  }

  // A fetched act is a sealed log.
  lemma FetchedAt(w: World, order: seq<nat>, k: Kind, act: Act) returns (ch: nat, i: nat)
    requires Ordered(w, order) && act in Acts(w, order, k)
    ensures SealedAt(w, ch, i) && Settled(w[ch]) && ch in order
    ensures IsKind(k, w[ch].logs[i].event) && act == ToAct(w, ch, w[ch].logs[i])
  {
    var e;
    ch, e := ActsOrigin(w, order, k, act);
    i :| 0 <= i < |Sealed(w, ch)| && Sealed(w, ch)[i] == e;
  }

  lemma AcceptanceEnabled(w: World, order: seq<nat>, act: Act)
    requires Backed(w) && Complete(w, order) && Ordered(w, order) && act in Acts(w, order, AcceptedLogs)
    requires act.event.AcceptedGame?
    ensures Enabled(Acts(w, order, NewGameLogs), act)
    ensures Known(Acts(w, order, NewGameLogs), act.event.chainId, act.event.gameId, act.event.opponent)
  {
    hide Acts;
    var ch, i := FetchedAt(w, order, AcceptedLogs, act);
    var e := w[ch].logs[i].event;
    assert EntryBacked(w, ch, i);
    var j: nat :| SealedAt(w, e.chainId, j) && w[e.chainId].logs[j].event == NewGame(e.chainId, e.gameId, e.opponent);
    ActFetched(w, order, e.chainId, NewGameLogs, j);
    assert Creates(ToAct(w, e.chainId, w[e.chainId].logs[j]), e.chainId, e.gameId, e.opponent);
  }

  // Whoever takes part has an acceptance among the fetched ones.
  lemma JoinedFetched(w: World, order: seq<nat>, ch: nat, i: nat, c: nat, g: nat, p: Address)
    requires Complete(w, order) && Ordered(w, order) && SealedAt(w, ch, i) && Joined(w, ch, i, c, g, p)
    ensures Taken(Acts(w, order, AcceptedLogs), c, g, p)
  {
    hide Acts;
    if AcceptedBefore(w, ch, i, c, g, p) {
      var j: nat :| j < i && w[ch].logs[j].origin == SELF && IsAcceptance(w[ch].logs[j].event, c, g)
        && w[ch].logs[j].event.player == p;
      OrderSettled(w, order, ch);
      ActFetched(w, order, ch, AcceptedLogs, j);
      assert Involves(ToAct(w, ch, w[ch].logs[j]), c, g, p);
    } else {
      var d: nat, j: nat :| SealedAt(w, d, j) && IsAcceptance(w[d].logs[j].event, c, g)
        && w[d].logs[j].event.opponent == p;
      OrderSettled(w, order, d);
      ActFetched(w, order, d, AcceptedLogs, j);
      assert Involves(ToAct(w, d, w[d].logs[j]), c, g, p);
    }
  }

  lemma OrderSettled(w: World, order: seq<nat>, ch: nat)
    requires Complete(w, order) && Ordered(w, order) && ch in w
    ensures ch in order && Settled(w[ch])
  {
    var i :| 0 <= i < |order| && order[i] == ch;
  }

  lemma MoveOnBoard(w: World, ch: nat, i: nat)
    requires Inv(w) && Backed(w) && SealedAt(w, ch, i) && IsMove(w[ch].logs[i].event)
    ensures var e := w[ch].logs[i].event;
            e.x < 3 && e.y < 3 && Joined(w, ch, i, e.chainId, e.gameId, e.player)
  {
    hide Joined;
    assert ChainOk(w, ch);
    assert EntryOk(w, ch, w[ch].logs[i]);
    assert EntryBacked(w, ch, i);
  }

  lemma MoveEnabled(w: World, order: seq<nat>, k: Kind, act: Act)
    requires Inv(w) && Backed(w) && Complete(w, order) && Ordered(w, order)
    requires k in {MoveLogs, WonLogs, DrawLogs} && act in Acts(w, order, k)
    ensures Enabled(Acts(w, order, AcceptedLogs), act)
  {
    hide Acts;
    hide Joined;
    hide Taken;
    hide Inv;
    hide Backed;
    hide Complete;
    hide Ordered;
    var ch, i := FetchedAt(w, order, k, act);
    var e := w[ch].logs[i].event;
    MoveOnBoard(w, ch, i);
    JoinedFetched(w, order, ch, i, e.chainId, e.gameId, e.player);
  }

  lemma {:induction false} NewGamesSound(acts: seq<Act>)
    requires forall act :: act in acts ==> act.event.NewGame?
    ensures Sound(acts)
  {
    if acts != [] {
      NewGamesSound(acts[..|acts| - 1]);
      assert acts[|acts| - 1] in acts;
    }
  }

  lemma AllActsSound(w: World, order: seq<nat>)
    requires Inv(w) && Backed(w) && Complete(w, order) && Ordered(w, order)
    ensures Sound(AllActs(w, order))
  {
    hide Acts;
    hide Enabled;
    hide Sound;
    hide Inv;
    hide Backed;
    hide Complete;
    hide Ordered;
    var (ns, accs, ms) := (Acts(w, order, NewGameLogs), Acts(w, order, AcceptedLogs), MoveActs(w, order));
    forall act | act in ns ensures act.event.NewGame? {
      var ch, i := FetchedAt(w, order, NewGameLogs, act);
    }
    NewGamesSound(ns);
    forall act | act in accs ensures Enabled(ns, act) {
      var ch, i := FetchedAt(w, order, AcceptedLogs, act);
      AcceptanceEnabled(w, order, act);
    }
    SoundAppend(ns, accs);
    forall act | act in ms ensures Enabled(ns + accs, act) {
      var k := if act in Acts(w, order, MoveLogs) then MoveLogs
               else if act in Acts(w, order, WonLogs) then WonLogs else DrawLogs;
      MoveEnabled(w, order, k, act);
      EnabledAfter(ns, accs, act);
    }
    SoundAppend(ns + accs, ms);
    assert AllActs(w, order) == ns + accs + ms;
  }

  lemma EnabledAfter(a: seq<Act>, b: seq<Act>, act: Act)
    requires Enabled(b, act)
    ensures Enabled(a + b, act)
  {
    assert forall x :: x in b ==> x in a + b;
  }

  // In every reachable state, with no assumption on anybody, and for every order of the chains:
  // the replay of the sealed logs does not throw.
  lemma ReplayNeverThrows(w: World, steps: seq<Step>, order: seq<nat>)
    requires Initial(w) && Complete(Run(w, steps), order)
    ensures Ordered(Run(w, steps), order)
    ensures Replay(map[], AllActs(Run(w, steps), order)).Some?
  {
    hide Replay;
    hide AllActs;
    RunInv(w, steps);
    RunBacked(w, steps);
    InvSettled(Run(w, steps), order);
    AllActsSound(Run(w, steps), order);
    ReplaysIff(AllActs(Run(w, steps), order));
  }
}
