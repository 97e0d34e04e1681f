/**
 * Win detection. From the cell just played, the board is scanned outward
 * in four directions in a fixed order (horizontal, vertical, main diagonal,
 * anti-diagonal); along each, the run of equal symbols behind the cell
 * (reversed), the cell itself and the run ahead of it form the full line
 * through the cell. The first line at least `k` long is the winning line.
 */
module WinDetector {
  import opened Wrappers
  import opened Board

  /** A step `(dr, dc)` between neighbouring cells. */
  datatype Dir = Dir(dr: int, dc: int)

  predicate IsDir(d: Dir) {
    -1 <= d.dr <= 1 && -1 <= d.dc <= 1 && (d.dr != 0 || d.dc != 0)
  }

  /** A step to one of the eight neighbours. */
  type Direction = d: Dir | IsDir(d) witness Dir(0, 1)

  function Step(p: Pos, d: Direction): Pos {
    Pos(p.row + d.dr, p.col + d.dc)
  }

  function Neg(d: Direction): Direction {
    Dir(-d.dr, -d.dc)
  }

  /** Horizontal, vertical, main diagonal, anti-diagonal: the order in which lines are tried. */
  const DIRECTIONS: seq<Direction> := [Dir(0, 1), Dir(1, 0), Dir(1, 1), Dir(1, -1)]

  /** How many steps along `d` stay on the board from `p` (an upper bound); it shrinks by one per step. */
  function Budget(n: int, p: Pos, d: Direction): int {
    if d.dr > 0 then n - p.row
    else if d.dr < 0 then p.row + 1
    else if d.dc > 0 then n - p.col
    else p.col + 1
  }

  /** Position `p` is on the board and holds `sym`: the condition under which a scan goes on. */
  predicate Holds(cells: seq<Cell>, n: int, p: Pos, sym: char) {
    InBounds(n, p) && 0 <= Index(n, p) < |cells| && cells[Index(n, p)] == Some(sym)
  }

  /** The last position of `run`, or `p` when it is empty. */
  function LastOr(p: Pos, run: seq<Pos>): Pos {
    if run == [] then p else run[|run| - 1]
  }

  /**
   * The positions after `p` along `d` that hold `sym`, up to the first one
   * that is off the board or holds something else. It is shorter than
   * `Budget`, an upper bound on the steps from `p` that stay on the board.
   */
  function Run(cells: seq<Cell>, n: int, p: Pos, d: Direction, sym: char): (run: seq<Pos>)
    ensures run == [] || |run| < Budget(n, p, d)
    decreases Budget(n, p, d)
  {
    var q := Step(p, d);
    if Holds(cells, n, q, sym) then [q] + Run(cells, n, q, d, sym) else []
  }

  /**
   * A scan yields positions on the board that hold `sym`, the first one step
   * from `p` and each one step from the one before, and it stops where the
   * next position is off the board or holds something else.
   */
  lemma {:induction false} RunShape(cells: seq<Cell>, n: int, p: Pos, d: Direction, sym: char)
    ensures var run := Run(cells, n, p, d, sym);
            && (forall i :: 0 <= i < |run| ==> Holds(cells, n, run[i], sym))
            && (|run| > 0 ==> run[0] == Step(p, d))
            && (forall i :: 0 <= i < |run| - 1 ==> run[i + 1] == Step(run[i], d))
            && !Holds(cells, n, Step(LastOr(p, run), d), sym)
    decreases Budget(n, p, d)
  {
    var q := Step(p, d);
    if Holds(cells, n, q, sym) {
      RunShape(cells, n, q, d, sym);
      var rest := Run(cells, n, q, d, sym);
      assert Run(cells, n, p, d, sym) == [q] + rest;
      assert LastOr(p, [q] + rest) == LastOr(q, rest);
    }
  }

  function Reverse<T>(s: seq<T>): (r: seq<T>)
    ensures |r| == |s|
  {
    if s == [] then [] else Reverse(s[1..]) + [s[0]]
  }

  /** Element `i` of the reversal is element `|s| - 1 - i` of the original. */
  lemma {:induction false} ReverseIndex<T>(s: seq<T>)
    ensures forall i :: 0 <= i < |s| ==> Reverse(s)[i] == s[|s| - 1 - i]
  {
    if s != [] {
      ReverseIndex(s[1..]);
    }
  }

  /** The full line through `p` along `d`: the backward run reversed, `p`, then the forward run. */
  function FullRun(cells: seq<Cell>, n: int, p: Pos, d: Direction, sym: char): (line: seq<Pos>)
    ensures |line| == |Run(cells, n, p, Neg(d), sym)| + 1 + |Run(cells, n, p, d, sym)|
    ensures line[|Run(cells, n, p, Neg(d), sym)|] == p
  {
    Reverse(Run(cells, n, p, Neg(d), sym)) + [p] + Run(cells, n, p, d, sym)
  }

  /** Positions translated to cell indices, in the same order. */
  function Indices(n: int, ps: seq<Pos>): (r: seq<int>)
    ensures |r| == |ps| && forall i :: 0 <= i < |ps| ==> r[i] == Index(n, ps[i])
  {
    seq(|ps|, i requires 0 <= i < |ps| => Index(n, ps[i]))
  }

  /** The full lines through `p` along the four directions, in the order they are tried. */
  function LinesThrough(cells: seq<Cell>, n: int, p: Pos, sym: char): (lines: seq<seq<Pos>>)
    ensures |lines| == |DIRECTIONS|
  {
    seq(|DIRECTIONS|, u requires 0 <= u < |DIRECTIONS| => FullRun(cells, n, p, DIRECTIONS[u], sym))
  }

  /** The indices of the first of `lines[t..]` that is at least `k` long. */
  function FirstLong(lines: seq<seq<Pos>>, n: int, k: int, t: nat): (r: Option<seq<int>>)
    requires t <= |lines|
    ensures r.Some? ==> k <= |r.value|
    decreases |lines| - t
  {
    if t == |lines| then None
    else if |lines[t]| >= k then Some(Indices(n, lines[t]))
    else FirstLong(lines, n, k, t + 1)
  }

  /** The winning line through cell `index` for `sym`, or `None` when no direction yields one. */
  function WinningLine(cells: seq<Cell>, n: int, k: int, index: int, sym: char): (r: Option<seq<int>>)
    requires n > 0
    ensures r.Some? ==> k <= |r.value|
  {
    FirstLong(LinesThrough(cells, n, CellPos(n, index), sym), n, k, 0)
  }

  /** `ps` are positions on the board holding `sym`, each one step along `d` from the one before. */
  ghost predicate IsStraightRun(cells: seq<Cell>, n: int, ps: seq<Pos>, d: Direction, sym: char)
  {
    && (forall i :: 0 <= i < |ps| ==> Holds(cells, n, ps[i], sym))
    && (forall i :: 0 <= i < |ps| - 1 ==> ps[i + 1] == Step(ps[i], d))
  }

  /** Consecutive positions of the full line through `p` are one step along `d` apart. */
  lemma FullRunSteps(cells: seq<Cell>, n: int, p: Pos, d: Direction, sym: char)
    ensures var line := FullRun(cells, n, p, d, sym);
            forall i :: 0 <= i < |line| - 1 ==> line[i + 1] == Step(line[i], d)
  {
    var back := Run(cells, n, p, Neg(d), sym);
    var fwd := Run(cells, n, p, d, sym);
    RunShape(cells, n, p, Neg(d), sym);
    RunShape(cells, n, p, d, sym);
    ReverseIndex(back);
    var line := Reverse(back) + [p] + fwd;
    var b := |back|;
    forall i | 0 <= i < |line| - 1
      ensures line[i + 1] == Step(line[i], d)
    {
      if i < b - 1 {
        assert back[b - 1 - i] == Step(back[b - 2 - i], Neg(d));
      } else if i == b - 1 {
        assert line[i] == back[0];
      } else {
        assert line[i + 1] == fwd[i - b];
      }
    }
  }

  /** Every position of the full line through `p` other than `p` itself holds `sym`. */
  lemma FullRunHolds(cells: seq<Cell>, n: int, p: Pos, d: Direction, sym: char)
    ensures var line := FullRun(cells, n, p, d, sym);
            var b := |Run(cells, n, p, Neg(d), sym)|;
            forall i :: 0 <= i < |line| && i != b ==> Holds(cells, n, line[i], sym)
  {
    var back := Run(cells, n, p, Neg(d), sym);
    var fwd := Run(cells, n, p, d, sym);
    RunShape(cells, n, p, Neg(d), sym);
    RunShape(cells, n, p, d, sym);
    ReverseIndex(back);
    var line := Reverse(back) + [p] + fwd;
    var b := |back|;
    forall i | 0 <= i < |line| && i != b
      ensures Holds(cells, n, line[i], sym)
    {
      if i < b {
        assert line[i] == back[b - 1 - i];
      } else {
        assert line[i] == fwd[i - b - 1];
      }
    }
  }

  /** A full line contains `p`, steps along `d`, holds `sym` everywhere else, and cannot be extended at either end. */
  lemma FullRunShape(cells: seq<Cell>, n: int, p: Pos, d: Direction, sym: char)
    ensures var line := FullRun(cells, n, p, d, sym);
            var b := |Run(cells, n, p, Neg(d), sym)|;
            && 0 <= b < |line| && line[b] == p
            && (forall i :: 0 <= i < |line| && i != b ==> Holds(cells, n, line[i], sym))
            && (forall i :: 0 <= i < |line| - 1 ==> line[i + 1] == Step(line[i], d))
            && !Holds(cells, n, Step(line[0], Neg(d)), sym)
            && !Holds(cells, n, Step(line[|line| - 1], d), sym)
  {
    var back := Run(cells, n, p, Neg(d), sym);
    var fwd := Run(cells, n, p, d, sym);
    FullRunSteps(cells, n, p, d, sym);
    FullRunHolds(cells, n, p, d, sym);
    RunShape(cells, n, p, Neg(d), sym);
    RunShape(cells, n, p, d, sym);
    var line := Reverse(back) + [p] + fwd;
    assert line == FullRun(cells, n, p, d, sym);
    assert line[0] == LastOr(p, back) by {
      if back != [] {
        ReverseIndex(back);
      }
    }
    assert line[|line| - 1] == LastOr(p, fwd);
  }

  /** A straight run from the position after `p` is no longer than the scan from `p`. */
  lemma {:induction false} RunCovers(cells: seq<Cell>, n: int, p: Pos, d: Direction, sym: char, qs: seq<Pos>)
    requires IsStraightRun(cells, n, qs, d, sym)
    requires |qs| > 0 ==> qs[0] == Step(p, d)
    ensures |qs| <= |Run(cells, n, p, d, sym)|
    decreases |qs|
  {
    if |qs| > 0 {
      assert Holds(cells, n, qs[0], sym);
      assert IsStraightRun(cells, n, qs[1..], d, sym) by {
        forall i | 0 <= i < |qs| - 2
          ensures qs[1..][i + 1] == Step(qs[1..][i], d)
        {
          assert qs[i + 2] == Step(qs[i + 1], d);
        }
      }
      assert |qs| > 1 ==> qs[1..][0] == Step(qs[0], d) by {
        if |qs| > 1 { assert qs[1] == Step(qs[0], d); }
      }
      RunCovers(cells, n, qs[0], d, sym, qs[1..]);
    }
  }

  /** Every straight run along `d` through `p` fits inside the full line through `p`. */
  lemma FullRunMaximal(cells: seq<Cell>, n: int, p: Pos, d: Direction, sym: char, ps: seq<Pos>, j: int)
    requires IsStraightRun(cells, n, ps, d, sym)
    requires 0 <= j < |ps| && ps[j] == p
    ensures |ps| <= |FullRun(cells, n, p, d, sym)|
  {
    var fwd := ps[j + 1..];
    assert IsStraightRun(cells, n, fwd, d, sym) by {
      forall i | 0 <= i < |fwd| - 1
        ensures fwd[i + 1] == Step(fwd[i], d)
      {
        assert ps[j + 1 + i + 1] == Step(ps[j + 1 + i], d);
      }
    }
    if |fwd| > 0 {
      assert ps[j + 1] == Step(ps[j], d);
    }
    RunCovers(cells, n, p, d, sym, fwd);
    var bwd := Reverse(ps[..j]);
    ReverseIndex(ps[..j]);
    assert IsStraightRun(cells, n, bwd, Neg(d), sym) by {
      forall i | 0 <= i < |bwd| - 1
        ensures bwd[i + 1] == Step(bwd[i], Neg(d))
      {
        assert ps[j - 1 - i] == Step(ps[j - 2 - i], d);
      }
    }
    if |bwd| > 0 {
      assert ps[j] == Step(ps[j - 1], d);
    }
    RunCovers(cells, n, p, Neg(d), sym, bwd);
  }

  /** One step along `d` moves the cell index by `dr * n + dc`. */
  lemma IndexStep(n: int, q: Pos, d: Direction)
    ensures Index(n, Step(q, d)) == Index(n, q) + d.dr * n + d.dc
  {
    assert (q.row + d.dr) * n == q.row * n + d.dr * n;
  }

  /** `FirstLong` from `t` finds nothing exactly when every line from `t` on is shorter than `k`. */
  lemma {:induction false} FirstLongNone(lines: seq<seq<Pos>>, n: int, k: int, t: nat)
    requires t <= |lines|
    ensures FirstLong(lines, n, k, t).None? <==> forall u :: t <= u < |lines| ==> |lines[u]| < k
    decreases |lines| - t
  {
    if t < |lines| {
      FirstLongNone(lines, n, k, t + 1);
    }
  }

  /** `FirstLong` from `t` finds the first line from `t` on that reaches `k`. */
  lemma {:induction false} FirstLongFirst(lines: seq<seq<Pos>>, n: int, k: int, t: nat, u: int)
    requires t <= u < |lines| && k <= |lines[u]|
    requires forall v :: t <= v < u ==> |lines[v]| < k
    ensures FirstLong(lines, n, k, t) == Some(Indices(n, lines[u]))
    decreases u - t
  {
    if t < u {
      FirstLongFirst(lines, n, k, t + 1, u);
    }
  }

  /** The line `FirstLong` reports is the first from `t` on that reaches `k`. */
  lemma {:induction false} FirstLongWitness(lines: seq<seq<Pos>>, n: int, k: int, t: nat) returns (u: int)
    requires t <= |lines| && FirstLong(lines, n, k, t).Some?
    ensures t <= u < |lines| && k <= |lines[u]|
    ensures forall v :: t <= v < u ==> |lines[v]| < k
    ensures FirstLong(lines, n, k, t) == Some(Indices(n, lines[u]))
    decreases |lines| - t
  {
    if k <= |lines[t]| {
      u := t;
    } else {
      u := FirstLongWitness(lines, n, k, t + 1);
    }
  }

  /**
   * The tie-break order: no line is reported exactly when no direction's
   * full line reaches `k`, and otherwise the line of the first direction,
   * in the order horizontal, vertical, diagonal, anti-diagonal, that does.
   */
  lemma WinningLineFirstQualifying(cells: seq<Cell>, n: int, k: int, index: int, sym: char)
    requires n > 0
    ensures var p := CellPos(n, index);
            (WinningLine(cells, n, k, index, sym).None?
             <==> forall u :: 0 <= u < |DIRECTIONS| ==> |LinesThrough(cells, n, p, sym)[u]| < k)
    ensures var p := CellPos(n, index);
            forall u :: (&& 0 <= u < |DIRECTIONS|
                         && k <= |LinesThrough(cells, n, p, sym)[u]|
                         && (forall v :: 0 <= v < u ==> |LinesThrough(cells, n, p, sym)[v]| < k))
                        ==> WinningLine(cells, n, k, index, sym) == Some(Indices(n, LinesThrough(cells, n, p, sym)[u]))
  {
    var p := CellPos(n, index);
    FirstLongNone(LinesThrough(cells, n, p, sym), n, k, 0);
    forall u | && 0 <= u < |DIRECTIONS|
               && k <= |LinesThrough(cells, n, p, sym)[u]|
               && (forall v :: 0 <= v < u ==> |LinesThrough(cells, n, p, sym)[v]| < k)
      ensures WinningLine(cells, n, k, index, sym) == Some(Indices(n, LinesThrough(cells, n, p, sym)[u]))
    {
      FirstLongFirst(LinesThrough(cells, n, p, sym), n, k, 0, u);
    }
  }

  /**
   * A reported line, when the cell just played holds `sym`: it is at least
   * `k` long, passes through `index`, every one of its cells holds `sym`,
   * and it is the full straight line along one of the four directions, so
   * consecutive indices differ by that direction's `dr * n + dc`.
   */
  lemma WinningLineSound(cells: seq<Cell>, n: int, k: int, index: int, sym: char, line: seq<int>)
    requires n > 0 && |cells| == n * n && 0 <= index < |cells| && cells[index] == Some(sym)
    requires WinningLine(cells, n, k, index, sym) == Some(line)
    ensures k <= |line|
    ensures index in line
    ensures forall j :: 0 <= j < |line| ==> 0 <= line[j] < |cells| && cells[line[j]] == Some(sym)
    ensures exists u :: && 0 <= u < |DIRECTIONS|
                        && IsStraightRun(cells, n, LinesThrough(cells, n, CellPos(n, index), sym)[u], DIRECTIONS[u], sym)
                        && line == Indices(n, LinesThrough(cells, n, CellPos(n, index), sym)[u])
                        && forall j :: 0 <= j < |line| - 1 ==> line[j + 1] == line[j] + DIRECTIONS[u].dr * n + DIRECTIONS[u].dc
  {
    var p := CellPos(n, index);
    var u := FirstLongWitness(LinesThrough(cells, n, p, sym), n, k, 0);
    var d := DIRECTIONS[u];
    var ps := FullRun(cells, n, p, d, sym);
    assert ps == LinesThrough(cells, n, p, sym)[u];
    FullRunShape(cells, n, p, d, sym);
    var b := |Run(cells, n, p, Neg(d), sym)|;
    assert ps[b] == p;
    assert Holds(cells, n, ps[b], sym);
    assert IsStraightRun(cells, n, ps, d, sym);
    assert line[b] == index;
    forall j | 0 <= j < |line|
      ensures 0 <= line[j] < |cells| && cells[line[j]] == Some(sym)
    {
      assert Holds(cells, n, ps[j], sym);
    }
    forall j | 0 <= j < |line| - 1
      ensures line[j + 1] == line[j] + d.dr * n + d.dc
    {
      IndexStep(n, ps[j], d);
    }
  }

  /**
   * When no line is reported, no straight run through the cell just played,
   * along any of the four directions, is `k` long.
   */
  lemma WinningLineComplete(cells: seq<Cell>, n: int, k: int, index: int, sym: char, ps: seq<Pos>, u: int, j: int)
    requires n > 0
    requires 0 <= u < |DIRECTIONS| && IsStraightRun(cells, n, ps, DIRECTIONS[u], sym)
    requires 0 <= j < |ps| && ps[j] == CellPos(n, index)
    requires WinningLine(cells, n, k, index, sym).None?
    ensures |ps| < k
  {
    var p := CellPos(n, index);
    var lines := LinesThrough(cells, n, p, sym);
    FirstLongNone(lines, n, k, 0);
    assert |lines[u]| < k;
    FullRunMaximal(cells, n, p, DIRECTIONS[u], sym, ps, j);
  }
}
