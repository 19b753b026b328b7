// What the replayed moves of one session amount to, whatever the order they were replayed in.
module ClientReplayGame {
  import opened Boards
  import opened Interop
  import opened TicTacToeContract
  import opened TicTacToeWorld
  import opened TicTacToeSession
  import opened TicTacToeResults
  import opened ClientReplay
  import opened ClientReplayLocal
  import opened ClientReplayTapes

  // ---- Boards ----

  predicate Takes(es: seq<Entry>, c: nat) {
    es != [] && (CellOf(es[|es| - 1].event) == c || Takes(es[..|es| - 1], c))
  }

  predicate ActsTake(acts: seq<Act>, c: nat) {
    acts != [] && (CellOf(acts[|acts| - 1].event) == c || ActsTake(acts[..|acts| - 1], c))
  }

  lemma {:induction false} ToActsTake(w: World, ch: nat, es: seq<Entry>, c: nat)
    requires ch in w && InSealed(w, ch, es)
    ensures ActsTake(ToActs(w, ch, es), c) <==> Takes(es, c)
  {
    if es != [] {
      var n := |es| - 1;
      ToActsTake(w, ch, es[..n], c);
      assert (ToActs(w, ch, es[..n]) + [ToAct(w, ch, es[n])])[..n] == ToActs(w, ch, es[..n]);
    }
  }

  // A cell of the shared board shows who took it on the tapes.
  lemma {:induction false} PlayTakes(a: seq<Entry>, p: seq<Entry>, c: nat)
    requires Alternate(a, p) && Legal(History(a, p)) && c < 9
    ensures !(Takes(a, c) && Takes(p, c))
    ensures Play(History(a, p), 0)[c] == if Takes(a, c) then 1 else if Takes(p, c) then 2 else 0
    decreases |a| + |p|
  {
    if a != [] {
      hide Play;
      hide Legal;
      hide History;
      hide VerdictOf;
      hide CellOf;
      BeforeLast(a, p);
      if |a| == |p| {
        PlayTakes(a, p[..|p| - 1], c);
        PlayNext(a, p[..|p| - 1], CellOf(p[|p| - 1].event), c);
      } else {
        PlayTakes(a[..|a| - 1], p, c);
        PlayNext(a[..|a| - 1], p, CellOf(a[|a| - 1].event), c);
      }
    }
  }

  // One more move d changes cell c of the creator's board only if c is d, which was free.
  lemma PlayNext(a: seq<Entry>, p: seq<Entry>, d: nat, c: nat)
    requires Alternate(a, p) && c < 9 && d < 9 && d !in History(a, p)
    ensures Play(History(a, p) + [d], 0)[c] ==
            if c == d then (if |a| == |p| then 1 else 2) else Play(History(a, p), 0)[c]
    ensures c == d ==> Play(History(a, p), 0)[c] == 0
  {
    hide Play;
    hide History;
    TurnOf(a, p);
    PlayAppend(History(a, p), 0, d);
    PlayAt(History(a, p), 0, c);
  }

  // A cell of the rebuilt board shows who took it among the replayed moves.
  lemma {:induction false} BoardTakes(acts: seq<Act>, g: nat, n: nat, a: Address, p: Address, c: nat)
    requires a != p && MovesOfTwo(acts, g, n, a, p) && c < 9
    requires !(ActsTake(SelectActs(acts, Moves(g, n, a)), c) && ActsTake(SelectActs(acts, Moves(g, n, p)), c))
    requires forall i :: 0 <= i < |acts| ==> acts[i].id.origin == SELF
    ensures BoardOf(acts, a)[c] == if ActsTake(SelectActs(acts, Moves(g, n, a)), c) then 1
                                   else if ActsTake(SelectActs(acts, Moves(g, n, p)), c) then 2 else 0
    ensures BoardOf(acts, p)[c] == if ActsTake(SelectActs(acts, Moves(g, n, p)), c) then 1
                                   else if ActsTake(SelectActs(acts, Moves(g, n, a)), c) then 2 else 0
  {
    if acts != [] {
      var l := |acts| - 1;
      var (sa, sp) := (SelectActs(acts[..l], Moves(g, n, a)), SelectActs(acts[..l], Moves(g, n, p)));
      assert (sa + [acts[l]])[..|sa|] == sa && (sp + [acts[l]])[..|sp|] == sp;
      BoardTakes(acts[..l], g, n, a, p, c);
    }
  }

  // ---- Latest actions ----

  lemma {:induction false} LatestSelected(acts: seq<Act>, g: nat, n: nat, a: Address, p: Address, me: Address,
                                          first: Act)
    requires MovesOfTwo(acts, g, n, a, p)
    requires forall i :: 0 <= i < |acts| ==> acts[i].id.origin == SELF
    ensures LatestOf(acts, me, first) == LatestOf(SelectActs(acts, Moves(g, n, me)), me, first)
  {
    if acts != [] {
      var l := |acts| - 1;
      LatestSelected(acts[..l], g, n, a, p, me, first);
      var sel := SelectActs(acts[..l], Moves(g, n, me));
      assert (sel + [acts[l]])[..|sel|] == sel;
    }
  }

  // Replaying a rising tape leaves its last entry as the latest action.
  lemma {:induction false} LatestOnTape(w: World, ch: nat, first: seq<Entry>, tape: seq<Entry>, me: Address)
    requires ch in w && InSealed(w, ch, first) && InSealed(w, ch, tape)
    requires first != [] && RisingFrom(first, tape)
    requires forall i :: 0 <= i < |tape| ==> IsMove(tape[i].event) && tape[i].event.player == me
    ensures LatestOf(ToActs(w, ch, tape), me, ToAct(w, ch, first[0]))
         == if tape == [] then ToAct(w, ch, first[0]) else ToAct(w, ch, tape[|tape| - 1])
  {
    if tape != [] {
      var n := |tape| - 1;
      var acts := ToActs(w, ch, tape[..n]);
      assert (acts + [ToAct(w, ch, tape[n])])[..n] == acts;
      LatestOnTape(w, ch, first, tape[..n], me);
    }
  }

  // ---- Statuses ----

  // What a verdict means for a player: the winner has won, the other has lost, a draw is both's.
  function Verdicts(event: Event, me: Address): Status
    requires IsMove(event)
  {
    match event
    case GameWon(_, _, winner, _, _) => if winner == me then WonGame else LostGame
    case GameDraw(_, _, _, _, _) => Draw
    case _ => Active
  }

  // Plain moves leave the game active.
  lemma {:induction false} StatusPlain(acts: seq<Act>, me: Address)
    requires forall i :: 0 <= i < |acts| ==> acts[i].event.MovePlayed?
    ensures StatusOf(acts, me) == Active
  {
    if acts != [] {
      StatusPlain(acts[..|acts| - 1], me);
    }
  }

  // When every replayed verdict is the event v, and v is replayed, the status is v's.
  lemma {:induction false} StatusVerdict(acts: seq<Act>, me: Address, v: Event)
    requires IsMove(v) && !v.MovePlayed?
    requires forall i :: 0 <= i < |acts| ==> acts[i].event.MovePlayed? || acts[i].event == v
    ensures StatusOf(acts, me) ==
            if exists i :: 0 <= i < |acts| && acts[i].event == v then Verdicts(v, me) else Active
  {
    if acts != [] {
      var l := |acts| - 1;
      StatusVerdict(acts[..l], me, v);
      if acts[l].event != v && exists i :: 0 <= i < |acts| && acts[i].event == v {
        var i :| 0 <= i < |acts| && acts[i].event == v;
        assert acts[..l][i].event == v;
      }
    }
  }

  // ---- All together ----

  lemma {:induction false} SelectedIn(acts: seq<Act>, q: Query)
    ensures forall act :: act in SelectActs(acts, q) ==> act in acts
  {
    if acts != [] {
      SelectedIn(acts[..|acts| - 1], q);
    }
  }

  lemma {:induction false} SelectedAll(acts: seq<Act>, q: Query, act: Act)
    requires act in acts && Hits(q, Entry(0, 0, act.id.origin, act.event))
    ensures act in SelectActs(acts, q)
  {
    var l := |acts| - 1;
    if act != acts[l] {
      SelectedAll(acts[..l], q, act);
    }
  }

  // acts replay exactly the two tapes of the session, interleaved in any way.
  predicate Interleaves(w: World, s: Session, t: Tapes, acts: seq<Act>)
    requires s.In(w) && InSealed(w, s.chain, t.a) && InSealed(w, s.acceptChain, t.p)
  {
    && MovesOfTwo(acts, s.chain, s.gameId, s.creator, s.acceptor)
    && (forall i :: 0 <= i < |acts| ==> acts[i].id.origin == SELF)
    && SelectActs(acts, Moves(s.chain, s.gameId, s.creator)) == ToActs(w, s.chain, t.a)
    && SelectActs(acts, Moves(s.chain, s.gameId, s.acceptor)) == ToActs(w, s.acceptChain, t.p)
  }

  lemma RebuiltBoards(w: World, s: Session, t: Tapes, acts: seq<Act>)
    requires s.In(w) && InSealed(w, s.chain, t.a) && InSealed(w, s.acceptChain, t.p)
    requires Alternate(t.a, t.p) && Legal(History(t.a, t.p)) && Interleaves(w, s, t, acts)
    ensures BoardOf(acts, s.creator) == Play(History(t.a, t.p), 0)
    ensures BoardOf(acts, s.acceptor) == Play(History(t.a, t.p), 1)
  {
    hide Legal;
    hide Play;
    hide History;
    hide BoardOf;
    var h := History(t.a, t.p);
    PlaySwaps(h);
    forall c: nat | c < 9
      ensures BoardOf(acts, s.creator)[c] == Play(h, 0)[c] && BoardOf(acts, s.acceptor)[c] == Swapped(Play(h, 0))[c] {
      ToActsTake(w, s.chain, t.a, c);
      ToActsTake(w, s.acceptChain, t.p, c);
      PlayTakes(t.a, t.p, c);
      BoardTakes(acts, s.chain, s.gameId, s.creator, s.acceptor, c);
    }
  }

  // The status both games show: that of the session's verdict, if there is one.
  function StatusFor(t: Tapes, me: Address): Status
    requires Alternate(t.a, t.p)
  {
    if t.a == [] || !IsMove(LastOf(t.a, t.p).event) then Active else Verdicts(LastOf(t.a, t.p).event, me)
  }

  // Every replayed move is on one of the tapes.
  lemma ReplayedIsOnTape(w: World, s: Session, t: Tapes, acts: seq<Act>, i: nat)
    requires s.In(w) && InSealed(w, s.chain, t.a) && InSealed(w, s.acceptChain, t.p)
    requires Interleaves(w, s, t, acts) && i < |acts|
    ensures (exists j :: 0 <= j < |t.a| && t.a[j].event == acts[i].event)
         || (exists j :: 0 <= j < |t.p| && t.p[j].event == acts[i].event)
  {
    if acts[i].event.player == s.creator {
      SelectedAll(acts, Moves(s.chain, s.gameId, s.creator), acts[i]);
      var j :| 0 <= j < |t.a| && ToActs(w, s.chain, t.a)[j] == acts[i];
      assert t.a[j].event == acts[i].event;
    } else {
      SelectedAll(acts, Moves(s.chain, s.gameId, s.acceptor), acts[i]);
      var j :| 0 <= j < |t.p| && ToActs(w, s.acceptChain, t.p)[j] == acts[i];
      assert t.p[j].event == acts[i].event;
    }
  }

  lemma TapeIsReplayed(w: World, s: Session, t: Tapes, acts: seq<Act>)
    requires s.In(w) && InSealed(w, s.chain, t.a) && InSealed(w, s.acceptChain, t.p)
    requires Interleaves(w, s, t, acts) && Alternate(t.a, t.p) && t.a != []
    ensures exists i :: 0 <= i < |acts| && acts[i].event == LastOf(t.a, t.p).event
  {
    SelectedIn(acts, Moves(s.chain, s.gameId, s.creator));
    SelectedIn(acts, Moves(s.chain, s.gameId, s.acceptor));
    var act := if |t.a| == |t.p| then ToActs(w, s.acceptChain, t.p)[|t.p| - 1] else ToActs(w, s.chain, t.a)[|t.a| - 1];
    assert act in acts;
  }

  lemma RebuiltStatus(w: World, s: Session, t: Tapes, acts: seq<Act>, me: Address)
    requires s.In(w) && InSealed(w, s.chain, t.a) && InSealed(w, s.acceptChain, t.p)
    requires Alternate(t.a, t.p) && Interleaves(w, s, t, acts) && AnsweredArePlain(t.a, t.p)
    requires t.a != [] ==> IsMove(LastOf(t.a, t.p).event)
    ensures StatusOf(acts, me) == StatusFor(t, me)
  {
    forall i | 0 <= i < |acts|
      ensures acts[i].event.MovePlayed? || (t.a != [] && acts[i].event == LastOf(t.a, t.p).event) {
      ReplayedIsOnTape(w, s, t, acts, i);
    }
    if t.a == [] || LastOf(t.a, t.p).event.MovePlayed? {
      StatusPlain(acts, me);
    } else {
      TapeIsReplayed(w, s, t, acts);
      StatusVerdict(acts, me, LastOf(t.a, t.p).event);
    }
  }

  lemma RebuiltLatest(w: World, s: Session, t: Tapes, acts: seq<Act>)
    requires s.In(w) && GoodTapes(s, t) && t.acc != []
    requires InSealed(w, s.chain, t.a) && InSealed(w, s.acceptChain, t.p)
    requires InSealed(w, s.chain, t.news) && InSealed(w, s.acceptChain, t.acc)
    requires Interleaves(w, s, t, acts)
    ensures LatestOf(acts, s.creator, ToAct(w, s.chain, t.news[0]))
         == ToAct(w, s.chain, if t.a == [] then t.news[0] else t.a[|t.a| - 1])
    ensures LatestOf(acts, s.acceptor, ToAct(w, s.acceptChain, t.acc[0]))
         == ToAct(w, s.acceptChain, if t.p == [] then t.acc[0] else t.p[|t.p| - 1])
  {
    hide Legal;
    hide Announced;
    hide History;
    hide LatestOf;
    hide RisingFrom;
    LatestSelected(acts, s.chain, s.gameId, s.creator, s.acceptor, s.creator, ToAct(w, s.chain, t.news[0]));
    LatestSelected(acts, s.chain, s.gameId, s.creator, s.acceptor, s.acceptor, ToAct(w, s.acceptChain, t.acc[0]));
    LatestOnTape(w, s.chain, t.news, t.a, s.creator);
    LatestOnTape(w, s.acceptChain, t.acc, t.p, s.acceptor);
  }
}
