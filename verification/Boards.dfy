// The 3x3 board of one local view, in row-major order: cell (x, y) is element 3 * x + y.
// A mark is 0 (empty), 1 (the view's own player) or 2 (the opponent).
module Boards {

  type Board = b: seq<nat> | |b| == 9 witness [0, 0, 0, 0, 0, 0, 0, 0, 0]

  const EMPTY: Board := [0, 0, 0, 0, 0, 0, 0, 0, 0]

  // The magic square of the contract, row-major.
  const MAGIC_SQUARE: Board := [8, 3, 4, 1, 5, 9, 6, 7, 2]
  const MAGIC_SUM := 15

  // The position 3 * x + y, as a sum.
  function CellIndex(x: nat, y: nat): (c: nat)
    requires x < 3 && y < 3
    ensures c < 9
  {
    x + x + x + y
  }

  predicate Marked(b: Board) {
    forall i :: 0 <= i < 9 ==> b[i] <= 2
  }

  predicate Line(b: Board, m: nat, i: nat, j: nat, k: nat)
    requires i < 9 && j < 9 && k < 9
  {
    b[i] == m && b[j] == m && b[k] == m
  }

  // Some row, column or diagonal carries the mark m three times.
  predicate HasLine(b: Board, m: nat) {
    || Line(b, m, 0, 1, 2) || Line(b, m, 3, 4, 5) || Line(b, m, 6, 7, 8)
    || Line(b, m, 0, 3, 6) || Line(b, m, 1, 4, 7) || Line(b, m, 2, 5, 8)
    || Line(b, m, 0, 4, 8) || Line(b, m, 2, 4, 6)
  }

  // ---- The same in coordinates ----

  function CellAt(b: Board, x: nat, y: nat): nat
    requires x < 3 && y < 3
  {
    b[CellIndex(x, y)]
  }

  // Every pair of coordinates has a cell of its own.
  lemma CellsDiffer(x: nat, y: nat, x': nat, y': nat)
    requires x < 3 && y < 3 && x' < 3 && y' < 3
    ensures CellIndex(x, y) == CellIndex(x', y') <==> x == x' && y == y'
  {
  }

  // There are no others.
  lemma EveryCell(c: nat) returns (x: nat, y: nat)
    requires c < 9
    ensures x < 3 && y < 3 && CellIndex(x, y) == c
  {
    x := if c < 3 then 0 else if c < 6 then 1 else 2;
    y := c - (x + x + x);
  }

  // A line is three equal marks in a row, in a column or on a diagonal of the board.
  lemma HasLineIff(b: Board, m: nat)
    ensures HasLine(b, m) <==>
            || (exists x: nat :: x < 3 && CellAt(b, x, 0) == CellAt(b, x, 1) == CellAt(b, x, 2) == m)
            || (exists y: nat :: y < 3 && CellAt(b, 0, y) == CellAt(b, 1, y) == CellAt(b, 2, y) == m)
            || CellAt(b, 0, 0) == CellAt(b, 1, 1) == CellAt(b, 2, 2) == m
            || CellAt(b, 0, 2) == CellAt(b, 1, 1) == CellAt(b, 2, 0) == m
  {
    assert Line(b, m, 0, 1, 2) <==> CellAt(b, 0, 0) == CellAt(b, 0, 1) == CellAt(b, 0, 2) == m;
    assert Line(b, m, 3, 4, 5) <==> CellAt(b, 1, 0) == CellAt(b, 1, 1) == CellAt(b, 1, 2) == m;
    assert Line(b, m, 6, 7, 8) <==> CellAt(b, 2, 0) == CellAt(b, 2, 1) == CellAt(b, 2, 2) == m;
    assert Line(b, m, 0, 3, 6) <==> CellAt(b, 0, 0) == CellAt(b, 1, 0) == CellAt(b, 2, 0) == m;
    assert Line(b, m, 1, 4, 7) <==> CellAt(b, 0, 1) == CellAt(b, 1, 1) == CellAt(b, 2, 1) == m;
    assert Line(b, m, 2, 5, 8) <==> CellAt(b, 0, 2) == CellAt(b, 1, 2) == CellAt(b, 2, 2) == m;
  }

  function Weight(b: Board, i: nat, j: nat, k: nat): nat
    requires i < 9 && j < 9 && k < 9
  {
    b[i] * MAGIC_SQUARE[i] + b[j] * MAGIC_SQUARE[j] + b[k] * MAGIC_SQUARE[k]
  }

  // On each of the eight lines the weighted sum is 15 exactly when the line is three 1s,
  // although cells may also hold 2; and it always fits a uint8.
  lemma MagicSumIsThreeOnes(b: Board, i: nat, j: nat, k: nat)
    requires Marked(b)
    requires (i, j, k) in {(0, 1, 2), (3, 4, 5), (6, 7, 8), (0, 3, 6), (1, 4, 7), (2, 5, 8), (0, 4, 8), (2, 4, 6)}
    ensures Weight(b, i, j, k) == MAGIC_SUM <==> Line(b, 1, i, j, k)
    ensures Weight(b, i, j, k) < 256
  {
    assert b[i] <= 2 && b[j] <= 2 && b[k] <= 2;
  }

  // The win check of the contract: a loop over row i and column i, then the two diagonals.
  method IsGameWon(b: Board) returns (won: bool)
    requires Marked(b)
    ensures won <==> HasLine(b, 1)
  {
    for i := 0 to 3
      invariant forall n :: 0 <= n < i ==> !Line(b, 1, 3 * n, 3 * n + 1, 3 * n + 2) && !Line(b, 1, n, n + 3, n + 6)
    {
      MagicSumIsThreeOnes(b, 3 * i, 3 * i + 1, 3 * i + 2);
      var rowSum := Weight(b, 3 * i, 3 * i + 1, 3 * i + 2);
      if rowSum == MAGIC_SUM {
        return true;
      }
      MagicSumIsThreeOnes(b, i, i + 3, i + 6);
      var colSum := Weight(b, i, i + 3, i + 6);
      if colSum == MAGIC_SUM {
        return true;
      }
    }
    assert !Line(b, 1, 3 * 0, 3 * 0 + 1, 3 * 0 + 2) && !Line(b, 1, 3 * 1, 3 * 1 + 1, 3 * 1 + 2);
    assert !Line(b, 1, 3 * 2, 3 * 2 + 1, 3 * 2 + 2);
    assert !Line(b, 1, 0, 0 + 3, 0 + 6) && !Line(b, 1, 1, 1 + 3, 1 + 6) && !Line(b, 1, 2, 2 + 3, 2 + 6);
    MagicSumIsThreeOnes(b, 0, 4, 8);
    var leftToRight := Weight(b, 0, 4, 8);
    if leftToRight == MAGIC_SUM {
      return true;
    }
    MagicSumIsThreeOnes(b, 2, 4, 6);
    var rightToLeft := Weight(b, 2, 4, 6);
    return rightToLeft == MAGIC_SUM;
  }

  // ---- One shared game: the cells played so far, the creator moving first ----

  type Game = h: seq<nat> | forall k :: 0 <= k < |h| ==> h[k] < 9 witness []

  predicate Distinct(h: seq<nat>) {
    h == [] || (Distinct(h[..|h| - 1]) && h[|h| - 1] !in h[..|h| - 1])
  }

  // The board after the moves of h as seen by the player of parity me
  // (0 plays the even moves and is the creator, 1 plays the odd ones).
  function Play(h: Game, me: nat): (b: Board)
    requires me < 2
  {
    if h == [] then EMPTY
    else Play(h[..|h| - 1], me)[h[|h| - 1] := if (|h| - 1) % 2 == me then 1 else 2]
  }

  lemma PlayAppend(h: Game, me: nat, c: nat)
    requires me < 2 && c < 9
    ensures Play(h + [c], me) == Play(h, me)[c := if |h| % 2 == me then 1 else 2]
  {
    var g: Game := h + [c];
    assert g[..|g| - 1] == h;
  }

  function Swapped(b: Board): (r: Board) {
    seq(9, i requires 0 <= i < 9 => if b[i] == 1 then 2 else if b[i] == 2 then 1 else b[i])
  }

  function Empties(b: seq<nat>): nat {
    if b == [] then 0 else (if b[|b| - 1] == 0 then 1 else 0) + Empties(b[..|b| - 1])
  }

  lemma {:induction false} EmptiesUpdate(b: seq<nat>, i: nat, m: nat)
    requires i < |b| && b[i] == 0 && m != 0
    ensures Empties(b[i := m]) == Empties(b) - 1
  {
    var n := |b| - 1;
    if i < n {
      EmptiesUpdate(b[..n], i, m);
      assert b[i := m][..n] == b[..n][i := m];
    } else {
      assert b[i := m][..n] == b[..n];
    }
  }

  lemma {:induction false} EmptiesOfZeros(n: nat)
    ensures Empties(seq(n, _ => 0)) == n
  {
    if n > 0 {
      EmptiesOfZeros(n - 1);
      assert seq(n, _ => 0)[..n - 1] == seq(n - 1, _ => 0);
    }
  }

  // What a cell shows: the mover of the move that took it, or nothing.
  lemma {:induction false} PlayAt(h: Game, me: nat, c: nat)
    requires me < 2 && c < 9
    ensures Play(h, me)[c] <= 2
    ensures Play(h, me)[c] == 0 <==> c !in h
  {
    if h != [] {
      var n := |h| - 1;
      var g: Game := h[..n];
      PlayAt(g, me, c);
      assert h == g + [h[n]];
    }
  }

  // The two players' boards of the same game are exact 1/2-swaps of each other.
  lemma {:induction false} PlaySwaps(h: Game)
    ensures Play(h, 1) == Swapped(Play(h, 0))
    ensures Play(h, 0) == Swapped(Play(h, 1))
  {
    if h != [] {
      PlaySwaps(h[..|h| - 1]);
    }
  }

  lemma {:induction false} PlayEmpties(h: Game, me: nat)
    requires me < 2 && Distinct(h)
    ensures Empties(Play(h, me)) == 9 - |h|
  {
    if h != [] {
      var n := |h| - 1;
      var g: Game := h[..n];
      PlayEmpties(g, me);
      PlayAt(g, me, h[n]);
      EmptiesUpdate(Play(g, me), h[n], if n % 2 == me then 1 else 2);
    } else {
      EmptiesOfZeros(9);
      assert EMPTY == seq(9, _ => 0);
    }
  }

  // ---- Verdicts ----

  datatype Verdict = Played | Won | Drawn

  // The verdict on the last move of h, from the mover's own board.
  function VerdictOf(h: Game): Verdict
    requires h != []
  {
    if HasLine(Play(h, (|h| - 1) % 2), 1) then Won else if |h| == 9 then Drawn else Played
  }

  // A legal game: no cell is taken twice and nothing follows a win or a draw.
  predicate Legal(h: Game) {
    h == [] ||
    (var g: Game := h[..|h| - 1];
     Legal(g) && h[|h| - 1] !in g && (g != [] ==> VerdictOf(g) == Played))
  }

  lemma {:induction false} LegalDistinct(h: Game)
    requires Legal(h)
    ensures Distinct(h)
  {
    if h != [] {
      LegalDistinct(h[..|h| - 1]);
    }
  }

  // Before the last move of a legal game neither player owns a line.
  lemma {:induction false} NoLineBefore(h: Game, me: nat)
    requires Legal(h) && me < 2 && (h != [] ==> VerdictOf(h) != Won)
    ensures !HasLine(Play(h, me), 1)
  {
    if h != [] {
      var n := |h| - 1;
      var g: Game := h[..n];
      NoLineBefore(g, me);
      if n % 2 != me {
        PlayAt(g, me, h[n]);
        assert h[n] !in g;
      }
    }
  }

  lemma SwappedLine(b: Board, m: nat)
    requires m == 1 || m == 2
    ensures HasLine(Swapped(b), m) <==> HasLine(b, 3 - m)
  {
    var s := Swapped(b);
    assert forall i :: 0 <= i < 9 ==> (s[i] == m <==> b[i] == 3 - m);
  }

  // A win is a line of the mover on the shared board; a draw is a full board without a line
  // of either player; and no legal game is longer than nine moves.
  lemma VerdictMeaning(h: Game)
    requires Legal(h) && h != []
    ensures |h| <= 9
    ensures VerdictOf(h) == Won <==> HasLine(Play(h, (|h| - 1) % 2), 1)
    ensures VerdictOf(h) == Drawn <==>
            Empties(Play(h, 0)) == 0 && !HasLine(Play(h, 0), 1) && !HasLine(Play(h, 0), 2)
  {
    LegalDistinct(h);
    PlayEmpties(h, 0);
    PlaySwaps(h);
    SwappedLine(Play(h, 0), 1);
    SwappedLine(Play(h, 0), 2);
    if VerdictOf(h) != Won {
      NoLineBefore(h, 0);
      NoLineBefore(h, 1);
    }
  }
}
