// The logs the client fetches for one game, in terms of the session's tapes.
module ClientReplayTapes {
  import opened Interop
  import opened TicTacToeContract
  import opened TicTacToeWorld
  import opened ClientReplay
  import opened ClientReplayLocal

  // The sealed logs of a chain: what getLogs up to the latest block returns.
  function Sealed(w: World, ch: nat): seq<Entry>
    requires ch in w
  {
    w[ch].logs[..w[ch].start]
  }

  function ToAct(w: World, ch: nat, e: Entry): Act
    requires ch in w && e.block < |w[ch].times|
  {
    Act(Identifier(e.origin, e.block, e.index, w[ch].times[e.block], ch), e.event)
  }

  predicate InSealed(w: World, ch: nat, es: seq<Entry>)
    requires ch in w
  {
    forall i :: 0 <= i < |es| ==> es[i].block < |w[ch].times|
  }

  function ToActs(w: World, ch: nat, es: seq<Entry>): (acts: seq<Act>)
    requires ch in w && InSealed(w, ch, es)
    ensures |acts| == |es| && forall i :: 0 <= i < |es| ==> acts[i] == ToAct(w, ch, es[i])
  {
    if es == [] then [] else ToActs(w, ch, es[..|es| - 1]) + [ToAct(w, ch, es[|es| - 1])]
  }

  function OfKind(es: seq<Entry>, k: Kind): seq<Entry> {
    if es == [] then []
    else
      var n := |es| - 1;
      if IsKind(k, es[n].event) then OfKind(es[..n], k) + [es[n]] else OfKind(es[..n], k)
  }

  // The acts that answer a query, in replay order.
  function SelectActs(acts: seq<Act>, q: Query): seq<Act> {
    if acts == [] then []
    else
      var n := |acts| - 1;
      if Hits(q, Entry(0, 0, acts[n].id.origin, acts[n].event)) then SelectActs(acts[..n], q) + [acts[n]]
      else SelectActs(acts[..n], q)
  }

  lemma SelectActsOne(acts: seq<Act>, act: Act, q: Query)
    ensures SelectActs(acts + [act], q) ==
            if Hits(q, Entry(0, 0, act.id.origin, act.event)) then SelectActs(acts, q) + [act] else SelectActs(acts, q)
  {
    assert (acts + [act])[..|acts|] == acts;
  }

  lemma {:induction false} SelectActsAppend(a: seq<Act>, b: seq<Act>, q: Query)
    ensures SelectActs(a + b, q) == SelectActs(a, q) + SelectActs(b, q)
  {
    if b == [] {
      assert a + b == a;
    } else {
      var n := |b| - 1;
      assert (a + b)[..|a + b| - 1] == a + b[..n];
      SelectActsAppend(a, b[..n], q);
    }
  }

  lemma OfKindOne(es: seq<Entry>, e: Entry, k: Kind)
    ensures OfKind(es + [e], k) == if IsKind(k, e.event) then OfKind(es, k) + [e] else OfKind(es, k)
  {
    assert (es + [e])[..|es|] == es;
  }

  lemma ToActsOne(w: World, ch: nat, es: seq<Entry>, e: Entry)
    requires ch in w && InSealed(w, ch, es) && e.block < |w[ch].times|
    ensures InSealed(w, ch, es + [e]) && ToActs(w, ch, es + [e]) == ToActs(w, ch, es) + [ToAct(w, ch, e)]
  {
    assert (es + [e])[..|es|] == es;
  }

  // The n-th sealed log of a chain and its effect on what the client fetches and selects.
  lemma NextLog(w: World, ch: nat, n: nat, q: Query, k: Kind)
    requires ch in w && Settled(w[ch]) && 0 < n <= w[ch].start
    ensures var e := w[ch].logs[n - 1];
            && e.block < |w[ch].times|
            && Select(w[ch].logs[..n], q) ==
               (if Hits(q, e) then Select(w[ch].logs[..n - 1], q) + [e] else Select(w[ch].logs[..n - 1], q))
            && SelectActs(ActsOf(w, ch, k, n), q) ==
               SelectActs(ActsOf(w, ch, k, n - 1), q)
               + if IsKind(k, e.event) && Hits(q, e) then [ToAct(w, ch, e)] else []
  {
    hide Select;
    hide SelectActs;
    hide IsKind;
    var e := w[ch].logs[n - 1];
    assert w[ch].logs[..n] == w[ch].logs[..n - 1] + [e];
    SelectAppend(w[ch].logs[..n - 1], e, q);
    if e.origin == SELF && IsKind(k, e.event) {
      SelectActsOne(ActsOf(w, ch, k, n - 1), ToAct(w, ch, e), q);
    } else {
      assert ActsOf(w, ch, k, n) == ActsOf(w, ch, k, n - 1);
    }
  }

  lemma NoActs(w: World, ch: nat, q: Query, k: Kind)
    requires ch in w && Settled(w[ch])
    ensures Select(w[ch].logs[..0], q) == [] && OfKind([], k) == [] && InSealed(w, ch, [])
    ensures ToActs(w, ch, []) == [] && ActsOf(w, ch, k, 0) == [] && SelectActs([], q) == []
  {
  }

  // On one chain the acts of a kind that answer q are the answers to q of that kind.
  lemma {:induction false} ChainActs(w: World, ch: nat, n: nat, q: Query, k: Kind)
    requires ch in w && Settled(w[ch]) && n <= w[ch].start
    ensures InSealed(w, ch, OfKind(Select(w[ch].logs[..n], q), k))
    ensures SelectActs(ActsOf(w, ch, k, n), q) == ToActs(w, ch, OfKind(Select(w[ch].logs[..n], q), k))
  {
    hide Select;
    hide SelectActs;
    hide ActsOf;
    hide OfKind;
    hide ToActs;
    hide Hits;
    hide InSealed;
    hide IsKind;
    hide Settled;
    if n == 0 {
      NoActs(w, ch, q, k);
    } else {
      ChainActs(w, ch, n - 1, q, k);
      var e := w[ch].logs[n - 1];
      var es := Select(w[ch].logs[..n - 1], q);
      NextLog(w, ch, n, q, k);
      OfKindOne(es, e, k);
      ToActsOne(w, ch, OfKind(es, k), e);
    }
  }

  // The query is answered on its home chain only.
  predicate OnlyAt(w: World, order: seq<nat>, q: Query, home: nat) {
    order == [] ||
    (var ch := order[|order| - 1];
     OnlyAt(w, order[..|order| - 1], q, home) && (ch in w && ch != home ==> Select(Sealed(w, ch), q) == []))
  }

  predicate NoDuplicates(order: seq<nat>) {
    order == [] || (NoDuplicates(order[..|order| - 1]) && order[|order| - 1] !in order[..|order| - 1])
  }

  lemma ActsOfAll(w: World, order: seq<nat>, q: Query, k: Kind)
    requires Ordered(w, order) && order != []
    ensures var n := |order| - 1;
            && Ordered(w, order[..n])
            && SelectActs(Acts(w, order, k), q)
            == SelectActs(Acts(w, order[..n], k), q) + SelectActs(ActsOf(w, order[n], k, w[order[n]].start), q)
  {
    var n := |order| - 1;
    SelectActsAppend(Acts(w, order[..n], k), ActsOf(w, order[n], k, w[order[n]].start), q);
  }

  ghost function HomeActs(w: World, order: seq<nat>, q: Query, k: Kind, home: nat): seq<Act>
    requires home in w && InSealed(w, home, OfKind(Select(Sealed(w, home), q), k))
  {
    if home in order then ToActs(w, home, OfKind(Select(Sealed(w, home), q), k)) else []
  }

  lemma LastChainActs(w: World, order: seq<nat>, q: Query, k: Kind, home: nat)
    requires Ordered(w, order) && order != [] && home in w && Settled(w[home])
    requires order[|order| - 1] != home ==> Select(Sealed(w, order[|order| - 1]), q) == []
    ensures InSealed(w, home, OfKind(Select(Sealed(w, home), q), k))
    ensures var ch := order[|order| - 1];
            SelectActs(ActsOf(w, ch, k, w[ch].start), q) == HomeActs(w, [ch], q, k, home)
  {
    var ch := order[|order| - 1];
    ChainActs(w, home, w[home].start, q, k);
    ChainActs(w, ch, w[ch].start, q, k);
  }

  // Over all chains, in whatever order, the answers come from the home chain, in its order.
  lemma {:induction false} AllChainActs(w: World, order: seq<nat>, q: Query, k: Kind, home: nat)
    requires Ordered(w, order) && NoDuplicates(order) && OnlyAt(w, order, q, home) && home in w && Settled(w[home])
    ensures InSealed(w, home, OfKind(Select(Sealed(w, home), q), k))
    ensures SelectActs(Acts(w, order, k), q) == HomeActs(w, order, q, k, home)
  {
    hide ActsOf;
    hide Select;
    hide ToActs;
    hide Settled;
    if order == [] {
      ChainActs(w, home, w[home].start, q, k);
    } else {
      var n := |order| - 1;
      AllChainActs(w, order[..n], q, k, home);
      hide SelectActs;
      hide Acts;
      ActsOfAll(w, order, q, k);
      LastChainActs(w, order, q, k, home);
      assert order == order[..n] + [order[n]];
    }
  }

  // A tape of moves whose answered entries are plain is the concatenation of its kinds.
  lemma {:induction false} KindsRejoin(es: seq<Entry>)
    requires forall i :: 0 <= i < |es| ==> IsMove(es[i].event)
    requires forall i :: 0 <= i < |es| - 1 ==> es[i].event.MovePlayed?
    ensures OfKind(es, MoveLogs) + OfKind(es, WonLogs) + OfKind(es, DrawLogs) == es
  {
    if es != [] {
      var n := |es| - 1;
      AllPlain(es[..n]);
    }
  }

  lemma {:induction false} AllPlain(es: seq<Entry>)
    requires forall i :: 0 <= i < |es| ==> es[i].event.MovePlayed?
    ensures OfKind(es, MoveLogs) == es && OfKind(es, WonLogs) == [] && OfKind(es, DrawLogs) == []
  {
    if es != [] {
      AllPlain(es[..|es| - 1]);
    }
  }

  lemma {:induction false} ToActsAppend(w: World, ch: nat, a: seq<Entry>, b: seq<Entry>)
    requires ch in w && InSealed(w, ch, a) && InSealed(w, ch, b)
    ensures InSealed(w, ch, a + b) && ToActs(w, ch, a + b) == ToActs(w, ch, a) + ToActs(w, ch, b)
  {
  }

  // ---- From all acts to those of one game ----

  function QueryGame(q: Query): (nat, nat) {
    match q
    case NewGames(c, g) => (c, g)
    case Acceptances(c, g, _) => (c, g)
    case Moves(c, g, _) => (c, g)
  }

  lemma {:induction false} SelectProjected(acts: seq<Act>, q: Query)
    ensures SelectActs(Project(acts, QueryGame(q).0, QueryGame(q).1), q) == SelectActs(acts, q)
  {
    if acts != [] {
      var n := |acts| - 1;
      SelectProjected(acts[..n], q);
      SelectActsOne(Project(acts[..n], QueryGame(q).0, QueryGame(q).1), acts[n], q);
    }
  }

  // When every act of the game answers q, projecting to the game is answering q.
  lemma {:induction false} ProjectIsSelect(acts: seq<Act>, q: Query)
    requires forall act :: act in acts && Mine(QueryGame(q).0, QueryGame(q).1, act.event) ==>
               Hits(q, Entry(0, 0, act.id.origin, act.event))
    ensures Project(acts, QueryGame(q).0, QueryGame(q).1) == SelectActs(acts, q)
  {
    if acts != [] {
      var n := |acts| - 1;
      assert acts[n] in acts;
      ProjectIsSelect(acts[..n], q);
    }
  }

  // Where an act comes from.
  lemma {:induction false} ActOrigin(w: World, ch: nat, k: Kind, n: nat, act: Act) returns (e: Entry)
    requires ch in w && Settled(w[ch]) && n <= w[ch].start && act in ActsOf(w, ch, k, n)
    ensures e in Sealed(w, ch) && e.origin == SELF && IsKind(k, e.event) && act == ToAct(w, ch, e)
  {
    e := w[ch].logs[n - 1];
    assert e == Sealed(w, ch)[n - 1];
    if act in ActsOf(w, ch, k, n - 1) {
      e := ActOrigin(w, ch, k, n - 1, act);
    }
  }

  lemma {:induction false} ActsOrigin(w: World, order: seq<nat>, k: Kind, act: Act) returns (ch: nat, e: Entry)
    requires Ordered(w, order) && act in Acts(w, order, k)
    ensures ch in w && Settled(w[ch]) && ch in order && e in Sealed(w, ch)
    ensures e.origin == SELF && IsKind(k, e.event) && act == ToAct(w, ch, e)
  {
    var n := |order| - 1;
    if act in Acts(w, order[..n], k) {
      ch, e := ActsOrigin(w, order[..n], k, act);
    } else {
      ch := order[n];
      e := ActOrigin(w, ch, k, w[ch].start, act);
    }
  }

  // ---- The answers of one chain among those of all ----

  // The acts of chain home that answer a query.
  function SelectHome(acts: seq<Act>, q: Query, home: nat): seq<Act> {
    if acts == [] then []
    else
      var n := |acts| - 1;
      if acts[n].id.chainId == home && Hits(q, Entry(0, 0, acts[n].id.origin, acts[n].event))
      then SelectHome(acts[..n], q, home) + [acts[n]]
      else SelectHome(acts[..n], q, home)
  }

  lemma {:induction false} SelectHomeAppend(a: seq<Act>, b: seq<Act>, q: Query, home: nat)
    ensures SelectHome(a + b, q, home) == SelectHome(a, q, home) + SelectHome(b, q, home)
  {
    if b == [] {
      assert a + b == a;
    } else {
      var n := |b| - 1;
      assert (a + b)[..|a + b| - 1] == a + b[..n];
      SelectHomeAppend(a, b[..n], q, home);
    }
  }

  lemma {:induction false} SelectHomeOf(acts: seq<Act>, q: Query, home: nat, ch: nat)
    requires forall act :: act in acts ==> act.id.chainId == ch
    ensures SelectHome(acts, q, home) == if ch == home then SelectActs(acts, q) else []
  {
    if acts != [] {
      assert acts[|acts| - 1] in acts;
      SelectHomeOf(acts[..|acts| - 1], q, home, ch);
    }
  }

  // Over all chains, in whatever order and whatever the other chains answer, the answers of the
  // home chain come in its order.
  lemma {:induction false} AllHomeActs(w: World, order: seq<nat>, q: Query, k: Kind, home: nat)
    requires Ordered(w, order) && NoDuplicates(order) && home in w && Settled(w[home])
    ensures InSealed(w, home, OfKind(Select(Sealed(w, home), q), k))
    ensures SelectHome(Acts(w, order, k), q, home) == HomeActs(w, order, q, k, home)
  {
    hide ActsOf;
    hide Select;
    hide SelectActs;
    hide ToActs;
    hide OfKind;
    hide Settled;
    hide InSealed;
    hide Hits;
    hide SelectHome;
    hide Acts;
    ChainActs(w, home, w[home].start, q, k);
    if order == [] {
      NoneFetched(w, q, k, home);
    } else {
      var n := |order| - 1;
      LastFetched(w, order, k);
      LastOfOrder(order, home);
      assert order[n] in w && Settled(w[order[n]]);
      hide Ordered;
      hide NoDuplicates;
      AllHomeActs(w, order[..n], q, k, home);
      OneHome(w, order[n], q, k, home);
      SelectHomeAppend(Acts(w, order[..n], k), ActsOf(w, order[n], k, w[order[n]].start), q, home);
    }
  }

  // A chain is either the last in the order or listed before.
  lemma LastOfOrder(order: seq<nat>, ch: nat)
    requires order != [] && NoDuplicates(order)
    ensures var n := |order| - 1;
            NoDuplicates(order[..n]) && (ch in order <==> ch in order[..n] || ch == order[n])
            && !(ch in order[..n] && ch == order[n])
  {
    assert order == order[..|order| - 1] + [order[|order| - 1]];
  }

  lemma NoneFetched(w: World, q: Query, k: Kind, home: nat)
    ensures Ordered(w, []) && SelectHome(Acts(w, [], k), q, home) == []
  {
  }

  lemma LastFetched(w: World, order: seq<nat>, k: Kind)
    requires Ordered(w, order) && order != []
    ensures var n := |order| - 1;
            && Ordered(w, order[..n])
            && Acts(w, order, k) == Acts(w, order[..n], k) + ActsOf(w, order[n], k, w[order[n]].start)
  {
  }

  lemma OneHome(w: World, ch: nat, q: Query, k: Kind, home: nat)
    requires ch in w && Settled(w[ch])
    ensures var acts := ActsOf(w, ch, k, w[ch].start);
            SelectHome(acts, q, home) == if ch == home then SelectActs(acts, q) else []
  {
    hide ActsOf;
    hide SelectActs;
    hide SelectHome;
    var acts := ActsOf(w, ch, k, w[ch].start);
    forall act | act in acts ensures act.id.chainId == ch {
      var e := ActOrigin(w, ch, k, w[ch].start, act);
    }
    SelectHomeOf(acts, q, home, ch);
  }
}
