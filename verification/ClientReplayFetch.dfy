// A fetch while the chains move on: each query finds the state that the run has reached by then.
module ClientReplayFetch {
  import opened Interop
  import opened TicTacToeContract
  import opened TicTacToeWorld
  import opened TicTacToeRuns
  import opened ClientReplay
  import opened ClientReplayTapes
  import opened ClientReplaySafety

  // The query for logs of kind k on the i-th chain is made after at(k, i) steps of the run. The
  // client makes them one after the other, kind by kind; what follows holds for any times.
  ghost predicate Along(v: Snapshots, w: World, steps: seq<Step>, at: (Kind, nat) -> nat) {
    forall k: Kind, i: nat :: at(k, i) <= |steps| && v(k, i) == Run(w, steps[..at(k, i)])
  }

  lemma GrowsTrans(a: World, b: World, c: World)
    requires Grows(a, b) && Grows(b, c)
    ensures Grows(a, c)
  {
  }

  lemma {:induction false} RunGrows(w: World, steps: seq<Step>, n: nat)
    requires n <= |steps|
    ensures Grows(Run(w, steps[..n]), Run(w, steps))
    ensures Run(w, steps[..n]).Keys == Run(w, steps).Keys
  {
    hide Apply;
    if n == |steps| {
      assert steps[..n] == steps;
    } else {
      var m := |steps| - 1;
      assert steps[..m][..n] == steps[..n];
      RunGrows(w, steps[..m], n);
      StepGrows(Run(w, steps[..m]), steps[m]);
      StepKeys(Run(w, steps[..m]), steps[m]);
      GrowsTrans(Run(w, steps[..n]), Run(w, steps[..m]), Run(w, steps));
    }
  }

  lemma StepKeys(w: World, step: Step)
    ensures Apply(w, step).Keys == w.Keys
  {
    hide Execute;
    hide Succeeds;
  }

  // What one query finds is a reachable state, and is still there at the end of the run.
  lemma QueryState(v: Snapshots, w: World, steps: seq<Step>, at: (Kind, nat) -> nat, k: Kind, i: nat)
    requires Initial(w) && Along(v, w, steps, at)
    ensures Inv(v(k, i)) && Backed(v(k, i)) && Grows(v(k, i), Run(w, steps)) && v(k, i).Keys == w.Keys
  {
    hide Inv;
    hide Backed;
    hide Grows;
    hide Initial;
    var n := at(k, i);
    assert v(k, i) == Run(w, steps[..n]);
    RunInv(w, steps[..n]);
    RunBacked(w, steps[..n]);
    RunGrows(w, steps, n);
    RunGrows(w, steps[..n], 0);
    assert steps[..n][..0] == [];
  }

  lemma AlongAnswering(v: Snapshots, w: World, steps: seq<Step>, at: (Kind, nat) -> nat, order: seq<nat>)
    requires Initial(w) && Along(v, w, steps, at) && forall ch :: ch in order ==> ch in w
    ensures Answering(v, order)
  {
    hide Initial;
    hide Along;
    hide Backed;
    hide Grows;
    forall k: Kind, i: nat | i < |order| ensures order[i] in v(k, i) && Settled(v(k, i)[order[i]]) {
      QueryState(v, w, steps, at, k, i);
      assert order[i] in w;
      assert ChainOk(v(k, i), order[i]);
    }
  }

  // ---- What the queries return ----

  lemma {:induction false} ActAt(w: World, ch: nat, k: Kind, n: nat, act: Act) returns (i: nat)
    requires ch in w && Settled(w[ch]) && n <= w[ch].start && act in ActsOf(w, ch, k, n)
    ensures SealedAt(w, ch, i) && IsKind(k, w[ch].logs[i].event) && act == ToAct(w, ch, w[ch].logs[i])
  {
    if act in ActsOf(w, ch, k, n - 1) {
      i := ActAt(w, ch, k, n - 1, act);
    } else {
      i := n - 1;
    }
  }

  // A fetched act is a log that its query found sealed.
  lemma {:induction false} QueryOf(v: Snapshots, order: seq<nat>, k: Kind, act: Act) returns (i: nat, n: nat)
    requires Answering(v, order) && act in Fetched(v, order, k)
    ensures i < |order| && SealedAt(v(k, i), order[i], n)
    ensures IsKind(k, v(k, i)[order[i]].logs[n].event) && act == ToAct(v(k, i), order[i], v(k, i)[order[i]].logs[n])
  {
    var m := |order| - 1;
    if act in Fetched(v, order[..m], k) {
      i, n := QueryOf(v, order[..m], k, act);
    } else {
      i := m;
      n := ActAt(v(k, m), order[m], k, v(k, m)[order[m]].start, act);
    }
  }

  // A log that its query finds sealed is fetched.
  lemma {:induction false} QueryReturns(v: Snapshots, order: seq<nat>, k: Kind, i: nat, n: nat)
    requires Answering(v, order) && i < |order| && SealedAt(v(k, i), order[i], n)
    requires IsKind(k, v(k, i)[order[i]].logs[n].event)
    ensures ToAct(v(k, i), order[i], v(k, i)[order[i]].logs[n]) in Fetched(v, order, k)
  {
    var m := |order| - 1;
    if i < m {
      QueryReturns(v, order[..m], k, i, n);
    } else {
      ActPresent(v(k, m), order[m], k, v(k, m)[order[m]].start, n);
    }
  }

  // What the logs of the contract say of the games is true at the end of the run.
  lemma StillThere(v: Snapshots, w: World, steps: seq<Step>, at: (Kind, nat) -> nat, order: seq<nat>, k: Kind, act: Act)
    returns (ch: nat, n: nat)
    requires Initial(w) && Along(v, w, steps, at) && Answering(v, order) && act in Fetched(v, order, k)
    ensures IsKind(k, act.event) && SealedAt(Run(w, steps), ch, n)
    ensures Run(w, steps)[ch].logs[n].event == act.event && EntryOk(Run(w, steps), ch, Run(w, steps)[ch].logs[n])
  {
    hide Run;
    hide Initial;
    hide Along;
    hide Backed;
    hide EntryOk;
    var i;
    i, n := QueryOf(v, order, k, act);
    ch := order[i];
    QueryState(v, w, steps, at, k, i);
    RunInv(w, steps);
    var u := Run(w, steps);
    assert u[ch].logs[n] == v(k, i)[ch].logs[n];
    assert ChainOk(u, ch);
    assert u[ch].logs[n] in u[ch].logs;
  }

  // ---- When the fetch throws ----

  // The query for NewGame logs on the game's own chain finds the invitation sealed.
  ghost predicate InvitationFound(v: Snapshots, order: seq<nat>, c: nat, g: nat, p: Address) {
    exists i: nat :: i < |order| && order[i] == c && NewGameSealed(v(NewGameLogs, i), c, g, p)
  }

  // An acceptance was fetched, but not the invitation that it accepts.
  ghost predicate LateAcceptance(v: Snapshots, order: seq<nat>, act: Act)
    requires Answering(v, order)
  {
    && act in Fetched(v, order, AcceptedLogs) && act.event.AcceptedGame?
    && !InvitationFound(v, order, act.event.chainId, act.event.gameId, act.event.opponent)
  }

  // A move was fetched, but no acceptance by its player or of its player's game.
  ghost predicate LateMove(v: Snapshots, order: seq<nat>, act: Act)
    requires Answering(v, order)
  {
    && act in MovesFetched(v, order) && IsMove(act.event)
    && !Taken(Fetched(v, order, AcceptedLogs), act.event.chainId, act.event.gameId, act.event.player)
  }

  ghost function MovesFetched(v: Snapshots, order: seq<nat>): seq<Act>
    requires Answering(v, order)
  {
    Fetched(v, order, MoveLogs) + Fetched(v, order, WonLogs) + Fetched(v, order, DrawLogs)
  }

  // Fetched openings and moves as the contract logs them: moves on the board, one creator per
  // game, who never accepts it.
  predicate WellFormed(news: seq<Act>, accs: seq<Act>, moves: seq<Act>) {
    && (forall a :: a in news ==> a.event.NewGame?)
    && (forall a :: a in accs ==> a.event.AcceptedGame?)
    && (forall a :: a in moves ==> IsMove(a.event) && a.event.x < 3 && a.event.y < 3)
    && (forall a, b :: a in accs && b in accs ==> Agree(a.event, b.event))
  }

  predicate Agree(e: Event, f: Event) {
    e.AcceptedGame? && f.AcceptedGame? && e.chainId == f.chainId && e.gameId == f.gameId ==>
      e.opponent == f.opponent && e.player != f.opponent
  }

  lemma FetchedWellFormed(v: Snapshots, w: World, steps: seq<Step>, at: (Kind, nat) -> nat, order: seq<nat>)
    requires Initial(w) && Along(v, w, steps, at) && Answering(v, order)
    ensures WellFormed(Fetched(v, order, NewGameLogs), Fetched(v, order, AcceptedLogs), MovesFetched(v, order))
  {
    hide Run;
    hide Initial;
    hide Along;
    hide Answering;
    hide Fetched;
    hide Created;
    var news, accs := Fetched(v, order, NewGameLogs), Fetched(v, order, AcceptedLogs);
    forall a | a in news ensures a.event.NewGame? {
      var ch, n := StillThere(v, w, steps, at, order, NewGameLogs, a);
    }
    forall a | a in accs ensures a.event.AcceptedGame? {
      var ch, n := StillThere(v, w, steps, at, order, AcceptedLogs, a);
    }
    forall a | a in MovesFetched(v, order) ensures IsMove(a.event) && a.event.x < 3 && a.event.y < 3 {
      var k := if a in Fetched(v, order, MoveLogs) then MoveLogs
               else if a in Fetched(v, order, WonLogs) then WonLogs else DrawLogs;
      var ch, n := StillThere(v, w, steps, at, order, k, a);
    }
    forall a, b | a in accs && b in accs ensures Agree(a.event, b.event) {
      var ch, n := StillThere(v, w, steps, at, order, AcceptedLogs, a);
      var ch', n' := StillThere(v, w, steps, at, order, AcceptedLogs, b);
      OneCreator(Run(w, steps), a.event, b.event);
    }
  }

  lemma OneCreator(u: World, e: Event, f: Event)
    requires e.AcceptedGame? && f.AcceptedGame?
    requires Created(u, e.chainId, e.gameId, e.opponent) && e.player != e.opponent
    requires Created(u, f.chainId, f.gameId, f.opponent)
    ensures Agree(e, f)
  {
  }

  lemma SoundAt(acts: seq<Act>, k: nat)
    requires Sound(acts) && k < |acts|
    ensures Enabled(acts[..k], acts[k])
    decreases |acts|
  {
    hide Enabled;
    var n := |acts| - 1;
    if k < n {
      assert acts[..n][..k] == acts[..k];
      SoundAt(acts[..n], k);
    }
  }

  // In a sound fetch every acceptance has its invitation among the NewGame logs: the first
  // acceptance of a game can refer to nothing else.
  lemma {:induction false} InvitationAmong(news: seq<Act>, accs: seq<Act>, moves: seq<Act>, m: nat)
    requires WellFormed(news, accs, moves) && Sound(news + accs + moves) && m < |accs|
    ensures var e := accs[m].event;
            e.AcceptedGame? && exists b :: b in news && Creates(b, e.chainId, e.gameId, e.opponent)
    decreases m
  {
    hide Sound;
    var all := news + accs + moves;
    var e := accs[m].event;
    assert all[|news| + m] == accs[m] && accs[m] in accs;
    SoundAt(all, |news| + m);
    var before := all[..|news| + m];
    assert before == news + accs[..m];
    assert Agree(e, e);
    assert Known(before, e.chainId, e.gameId, e.opponent);
    var b :| b in before && (Creates(b, e.chainId, e.gameId, e.opponent)
                             || Involves(b, e.chainId, e.gameId, e.opponent));
    if b !in news {
      var j :| 0 <= j < m && accs[j] == b;
      assert b in accs;
      assert Agree(b.event, e);
      InvitationAmong(news, accs, moves, j);
    }
  }

  // In a sound fetch every move has an acceptance of its player among the acceptances.
  lemma AcceptanceAmong(news: seq<Act>, accs: seq<Act>, moves: seq<Act>, act: Act)
    requires WellFormed(news, accs, moves) && Sound(news + accs + moves) && act in moves
    ensures Taken(accs, act.event.chainId, act.event.gameId, act.event.player)
  {
    hide Sound;
    var e := act.event;
    var all := news + accs + moves;
    var m :| 0 <= m < |moves| && moves[m] == act;
    var n := |news| + |accs| + m;
    assert all[n] == act;
    SoundAt(all, n);
    var before := all[..n];
    assert before == news + accs + moves[..m];
    assert Taken(before, e.chainId, e.gameId, e.player);
    var b :| b in before && Involves(b, e.chainId, e.gameId, e.player);
    assert b in news || b in accs || b in moves;
  }

  lemma SoundIf(news: seq<Act>, accs: seq<Act>, moves: seq<Act>)
    requires WellFormed(news, accs, moves)
    requires forall a :: a in accs ==>
      a.event.AcceptedGame? && Known(news, a.event.chainId, a.event.gameId, a.event.opponent)
    requires forall a :: a in moves ==>
      IsMove(a.event) && Taken(accs, a.event.chainId, a.event.gameId, a.event.player)
    ensures Sound(news + accs + moves)
  {
    hide Sound;
    hide Known;
    hide Taken;
    NewGamesSound(news);
    forall a | a in accs ensures Enabled(news, a) {
    }
    SoundAppend(news, accs);
    forall a | a in moves ensures Enabled(news + accs, a) {
      assert Enabled(accs, a);
      EnabledAfter(news, accs, a);
    }
    SoundAppend(news + accs, moves);
  }

  // The invitation is among the fetched NewGame logs exactly when its query finds it.
  lemma FoundIff(v: Snapshots, w: World, steps: seq<Step>, at: (Kind, nat) -> nat, order: seq<nat>,
                 c: nat, g: nat, p: Address)
    requires Initial(w) && Along(v, w, steps, at) && Answering(v, order)
    ensures InvitationFound(v, order, c, g, p) <==>
            exists b :: b in Fetched(v, order, NewGameLogs) && Creates(b, c, g, p)
  {
    hide Run;
    hide Initial;
    hide Along;
    hide Fetched;
    hide Backed;
    if InvitationFound(v, order, c, g, p) {
      var i: nat :| i < |order| && order[i] == c && NewGameSealed(v(NewGameLogs, i), c, g, p);
      var u := v(NewGameLogs, i);
      var n: nat :| SealedAt(u, c, n) && u[c].logs[n].event == NewGame(c, g, p);
      QueryReturns(v, order, NewGameLogs, i, n);
      assert Creates(ToAct(u, c, u[c].logs[n]), c, g, p);
    }
    if b :| b in Fetched(v, order, NewGameLogs) && Creates(b, c, g, p) {
      var i, n := QueryOf(v, order, NewGameLogs, b);
      var u := v(NewGameLogs, i);
      QueryState(v, w, steps, at, NewGameLogs, i);
      assert ChainOk(u, order[i]);
      assert EntryOk(u, order[i], u[order[i]].logs[n]);
      assert NewGameSealed(u, c, g, p);
    }
  }

  // Whatever anybody does during the fetch, and whenever each query is made: the fetch throws
  // exactly when some fetched acceptance's invitation was not sealed at its query, or some
  // fetched move comes without an acceptance that involves its player.
  lemma FetchThrowsIff(v: Snapshots, w: World, steps: seq<Step>, at: (Kind, nat) -> nat, order: seq<nat>)
    requires Initial(w) && Along(v, w, steps, at) && Complete(w, order)
    ensures Answering(v, order)
    ensures Replay(map[], AllFetched(v, order)).None? <==>
            (exists act :: LateAcceptance(v, order, act)) || (exists act :: LateMove(v, order, act))
  {
    hide Initial;
    hide Along;
    hide Run;
    hide Replay;
    hide Fetched;
    hide Sound;
    hide Known;
    hide Taken;
    hide WellFormed;
    hide InvitationFound;
    AlongAnswering(v, w, steps, at, order);
    FetchedWellFormed(v, w, steps, at, order);
    var (news, accs, moves) :=
      (Fetched(v, order, NewGameLogs), Fetched(v, order, AcceptedLogs), MovesFetched(v, order));
    assert AllFetched(v, order) == news + accs + moves;
    ReplaysIff(news + accs + moves);
    forall c, g, p ensures
      InvitationFound(v, order, c, g, p) <==> exists b :: b in news && Creates(b, c, g, p) {
      FoundIff(v, w, steps, at, order, c, g, p);
    }
    if Sound(news + accs + moves) {
      forall act ensures !LateAcceptance(v, order, act) && !LateMove(v, order, act) {
        if LateAcceptance(v, order, act) {
          var m :| 0 <= m < |accs| && accs[m] == act;
          InvitationAmong(news, accs, moves, m);
        }
        if LateMove(v, order, act) {
          AcceptanceAmong(news, accs, moves, act);
        }
      }
    } else if (forall act :: !LateAcceptance(v, order, act)) && (forall act :: !LateMove(v, order, act)) {
      InTimeSound(v, order, news, accs, moves);
    }
  }

  lemma InTimeSound(v: Snapshots, order: seq<nat>, news: seq<Act>, accs: seq<Act>, moves: seq<Act>)
    requires Answering(v, order)
    requires news == Fetched(v, order, NewGameLogs) && accs == Fetched(v, order, AcceptedLogs)
    requires moves == MovesFetched(v, order) && WellFormed(news, accs, moves)
    requires forall c, g, p :: InvitationFound(v, order, c, g, p) ==> exists b :: b in news && Creates(b, c, g, p)
    requires forall act :: !LateAcceptance(v, order, act)
    requires forall act :: !LateMove(v, order, act)
    ensures Sound(news + accs + moves)
  {
    hide Fetched;
    hide MovesFetched;
    hide Taken;
    hide InvitationFound;
    forall a | a in accs
      ensures a.event.AcceptedGame? && Known(news, a.event.chainId, a.event.gameId, a.event.opponent) {
      assert !LateAcceptance(v, order, a);
    }
    forall a | a in moves
      ensures IsMove(a.event) && Taken(accs, a.event.chainId, a.event.gameId, a.event.player) {
      assert !LateMove(v, order, a);
    }
    SoundIf(news, accs, moves);
  }

  // ---- Only what is sealed during the fetch makes it throw ----

  // Log m of the i-th chain, an invitation or an acceptance, is sealed when a query for logs of
  // kind k is made, but was not when the query for its own kind was.
  ghost predicate Missed(v: Snapshots, order: seq<nat>, i: nat, own: Kind, k: Kind, j: nat, m: nat) {
    && i < |order| && j < |order|
    && own in {NewGameLogs, AcceptedLogs}
    && SealedAt(v(k, j), order[i], m)
    && IsKind(own, v(k, j)[order[i]].logs[m].event)
    && !SealedAt(v(own, i), order[i], m)
  }

  lemma SameLog(a: World, b: World, u: World, ch: nat, m: nat)
    requires Grows(a, u) && Grows(b, u) && SealedAt(a, ch, m) && SealedAt(b, ch, m)
    ensures a[ch].logs[m] == b[ch].logs[m]
  {
    assert a[ch].logs[m] == u[ch].logs[m] == b[ch].logs[m];
  }

  lemma LateAcceptanceMissed(v: Snapshots, w: World, steps: seq<Step>, at: (Kind, nat) -> nat, order: seq<nat>,
                             act: Act) returns (i: nat, j: nat, m: nat)
    requires Initial(w) && Along(v, w, steps, at) && Complete(w, order) && Answering(v, order)
    requires LateAcceptance(v, order, act)
    ensures Missed(v, order, i, NewGameLogs, AcceptedLogs, j, m)
  {
    hide Initial;
    hide Along;
    hide Run;
    hide Inv;
    hide Fetched;
    hide Answering;
    var n;
    j, n := QueryOf(v, order, AcceptedLogs, act);
    var u := v(AcceptedLogs, j);
    QueryState(v, w, steps, at, AcceptedLogs, j);
    var e := act.event;
    assert EntryBacked(u, order[j], n);
    m :| SealedAt(u, e.chainId, m) && u[e.chainId].logs[m].event == NewGame(e.chainId, e.gameId, e.opponent);
    i :| i < |order| && order[i] == e.chainId;
    QueryState(v, w, steps, at, NewGameLogs, i);
    if SealedAt(v(NewGameLogs, i), e.chainId, m) {
      SameLog(v(NewGameLogs, i), u, Run(w, steps), e.chainId, m);
    }
  }

  // Where the acceptance of a player who takes part lies, for a sealed log.
  lemma JoinedAt(u: World, ch: nat, n: nat, c: nat, g: nat, p: Address) returns (d: nat, m: nat)
    requires SealedAt(u, ch, n) && Joined(u, ch, n, c, g, p)
    ensures SealedAt(u, d, m) && IsAcceptance(u[d].logs[m].event, c, g)
    ensures u[d].logs[m].event.player == p || u[d].logs[m].event.opponent == p
  {
    if AcceptedBefore(u, ch, n, c, g, p) {
      d := ch;
      m :| m < n && u[ch].logs[m].origin == SELF && IsAcceptance(u[ch].logs[m].event, c, g)
        && u[ch].logs[m].event.player == p;
    } else {
      d, m :| SealedAt(u, d, m) && IsAcceptance(u[d].logs[m].event, c, g) && u[d].logs[m].event.opponent == p;
    }
  }

  lemma LateMoveMissed(v: Snapshots, w: World, steps: seq<Step>, at: (Kind, nat) -> nat, order: seq<nat>, act: Act)
    returns (i: nat, k: Kind, j: nat, m: nat)
    requires Initial(w) && Along(v, w, steps, at) && Complete(w, order) && Answering(v, order)
    requires LateMove(v, order, act)
    ensures Missed(v, order, i, AcceptedLogs, k, j, m)
  {
    hide Initial;
    hide Along;
    hide Run;
    hide Inv;
    hide Backed;
    hide Joined;
    hide Fetched;
    hide Answering;
    k := if act in Fetched(v, order, MoveLogs) then MoveLogs
         else if act in Fetched(v, order, WonLogs) then WonLogs else DrawLogs;
    var n;
    j, n := QueryOf(v, order, k, act);
    var u := v(k, j);
    QueryState(v, w, steps, at, k, j);
    var e := act.event;
    MoveOnBoard(u, order[j], n);
    var d;
    d, m := JoinedAt(u, order[j], n, e.chainId, e.gameId, e.player);
    assert d in w;
    i :| i < |order| && order[i] == d;
    QueryState(v, w, steps, at, AcceptedLogs, i);
    var u' := v(AcceptedLogs, i);
    if SealedAt(u', d, m) {
      SameLog(u', u, Run(w, steps), d, m);
      QueryReturns(v, order, AcceptedLogs, i, m);
    }
  }

  // A fetch that throws has missed an invitation or an acceptance that was sealed while it ran.
  lemma ThrowsOnlyIfMissed(v: Snapshots, w: World, steps: seq<Step>, at: (Kind, nat) -> nat, order: seq<nat>)
    requires Initial(w) && Along(v, w, steps, at) && Complete(w, order) && Answering(v, order)
    requires Replay(map[], AllFetched(v, order)).None?
    ensures exists i, own, k, j, m :: Missed(v, order, i, own, k, j, m)
  {
    FetchThrowsIff(v, w, steps, at, order);
    hide *;
    if act :| LateAcceptance(v, order, act) {
      var i, j, m := LateAcceptanceMissed(v, w, steps, at, order, act);
    } else {
      var act :| LateMove(v, order, act);
      var i, k, j, m := LateMoveMissed(v, w, steps, at, order, act);
    }
  }
}
