/** The dynamic program of stitch.py that finds a seam of least cost through a matrix, over exact arithmetic. */
module Seam {

  /** A number, or `np.inf`. */
  datatype Num = Finite(value: real) | Inf

  predicate Less(a: Num, b: Num) { a.Finite? && (b.Inf? || a.value < b.value) }

  function Min(a: Num, b: Num): Num { if Less(b, a) then b else a }

  /** `np.argmin`: the first index of a least element. */
  method ArgMin(s: seq<Num>) returns (k: nat)
    requires |s| > 0
    ensures k < |s| && forall t :: 0 <= t < |s| ==> !Less(s[t], s[k])
    ensures forall t :: 0 <= t < k ==> Less(s[k], s[t])
  {
    k := 0;
    var t := 1;
    while t < |s|
      invariant k < t <= |s| && forall u :: 0 <= u < t ==> !Less(s[u], s[k])
      invariant forall u :: 0 <= u < k ==> Less(s[k], s[u])
    {
      if Less(s[t], s[k]) {
        k := t;
      }
      t := t + 1;
    }
  }

  // ---------------------------------------------------------------------------------------------
  // Seams
  // ---------------------------------------------------------------------------------------------

  /** The first `n` cells of a path that goes down one row a step, to one of the at most three cells below. */
  ghost predicate IsPath(cost: array2<real>, path: seq<(int, int)>) {
    && |path| <= cost.Length0
    && (forall i :: 0 <= i < |path| ==> path[i].0 == i && 0 <= path[i].1 < cost.Length1)
    && (forall i :: 0 <= i < |path| - 1 ==> path[i].1 - 1 <= path[i + 1].1 <= path[i].1 + 1)
  }

  /** A connected path from the top row to the bottom row. */
  ghost predicate IsSeam(cost: array2<real>, path: seq<(int, int)>) {
    IsPath(cost, path) && |path| == cost.Length0
  }

  ghost predicate InBounds(cost: array2<real>, path: seq<(int, int)>) {
    forall t :: 0 <= t < |path| ==> 0 <= path[t].0 < cost.Length0 && 0 <= path[t].1 < cost.Length1
  }

  ghost function Total(cost: array2<real>, path: seq<(int, int)>): real
    requires InBounds(cost, path)
    reads cost
  {
    if |path| == 0 then 0.0 else cost[path[0].0, path[0].1] + Total(cost, path[1..])
  }

  lemma {:induction false} TotalOfLonger(cost: array2<real>, path: seq<(int, int)>, c: (int, int))
    requires InBounds(cost, path) && 0 <= c.0 < cost.Length0 && 0 <= c.1 < cost.Length1
    ensures Total(cost, path + [c]) == Total(cost, path) + cost[c.0, c.1]
  {
    if |path| == 0 {
      assert path + [c] == [c] && [c][1..] == [];
    } else {
      assert (path + [c])[1..] == path[1..] + [c];
      TotalOfLonger(cost, path[1..], c);
    }
  }

  /** The least cost of a path from the top row to the cell (i, j). */
  ghost function Least(cost: array2<real>, i: nat, j: nat): real
    requires i < cost.Length0 && j < cost.Length1
    reads cost
    decreases i, 1
  {
    if i == 0 then cost[0, j] else cost[i, j] + LeastAbove(cost, i, j)
  }

  ghost function LeastAbove(cost: array2<real>, i: nat, j: nat): real
    requires 0 < i < cost.Length0 && j < cost.Length1
    reads cost
    decreases i, 0
  {
    Min(Min(if j > 0 then Finite(Least(cost, i - 1, j - 1)) else Inf,
            Finite(Least(cost, i - 1, j))),
        if j < cost.Length1 - 1 then Finite(Least(cost, i - 1, j + 1)) else Inf).value
  }

  /** No path to a cell costs less. */
  lemma {:induction false} LeastIsLowerBound(cost: array2<real>, path: seq<(int, int)>)
    requires IsPath(cost, path) && |path| > 0
    ensures Least(cost, |path| - 1, path[|path| - 1].1) <= Total(cost, path)
    decreases |path|
  {
    var front, last := path[..|path| - 1], path[|path| - 1];
    assert path == front + [last];
    TotalOfLonger(cost, front, last);
    if |path| > 1 {
      LeastIsLowerBound(cost, front);
      assert front[|front| - 1] == path[|path| - 2];
    }
  }

  /** The step that the second loop takes: among the cells above (i, j), one from which (i, j) is reached at the
      least cost. */
  lemma StepUp(cost: array2<real>, i: nat, j: nat, k: nat)
    requires 0 < i < cost.Length0 && j < cost.Length1 && k < 3
    requires forall t :: 0 <= t < 3 ==> !Less(Above(cost, i, j)[t], Above(cost, i, j)[k])
    ensures 0 <= j + k - 1 < cost.Length1
    ensures Least(cost, i, j) == cost[i, j] + Least(cost, i - 1, j + k - 1)
  {
    var a := Above(cost, i, j);
    assert !Less(a[0], a[k]) && !Less(a[1], a[k]) && !Less(a[2], a[k]);
  }

  ghost function Above(cost: array2<real>, i: nat, j: nat): (a: seq<Num>)
    requires 0 < i < cost.Length0 && j < cost.Length1
    reads cost
    ensures |a| == 3
  {
    [if j > 0 then Finite(Least(cost, i - 1, j - 1)) else Inf,
     Finite(Least(cost, i - 1, j)),
     if j < cost.Length1 - 1 then Finite(Least(cost, i - 1, j + 1)) else Inf]
  }

  // ---------------------------------------------------------------------------------------------
  // The two loops
  // ---------------------------------------------------------------------------------------------

  /** The first loop fills `dp` with the least costs. */
  method Fill(cost: array2<real>, dp: array2<real>)
    requires cost.Length0 > 0 && cost.Length1 > 0 && dp != cost
    requires dp.Length0 == cost.Length0 && dp.Length1 == cost.Length1
    modifies dp
    ensures forall i, j :: 0 <= i < cost.Length0 && 0 <= j < cost.Length1 ==> dp[i, j] == Least(cost, i, j)
  {
    var c := 0;
    while c < cost.Length1
      invariant 0 <= c <= cost.Length1 && forall j :: 0 <= j < c ==> dp[0, j] == Least(cost, 0, j)
    {
      dp[0, c] := cost[0, c];
      c := c + 1;
    }
    var i := 1;
    while i < cost.Length0
      invariant 1 <= i <= cost.Length0
      invariant forall r, j :: 0 <= r < i && 0 <= j < cost.Length1 ==> dp[r, j] == Least(cost, r, j)
    {
      var j := 0;
      while j < cost.Length1
        invariant 0 <= j <= cost.Length1
        invariant forall r, q :: 0 <= r < i && 0 <= q < cost.Length1 ==> dp[r, q] == Least(cost, r, q)
        invariant forall q :: 0 <= q < j ==> dp[i, q] == Least(cost, i, q)
      {
        dp[i, j] := cost[i, j] + Min(Min(if j > 0 then Finite(dp[i - 1, j - 1]) else Inf, Finite(dp[i - 1, j])),
                                     if j < cost.Length1 - 1 then Finite(dp[i - 1, j + 1]) else Inf).value;
        j := j + 1;
      }
      i := i + 1;
    }
  }

  function Reversed(s: seq<(int, int)>): (r: seq<(int, int)>)
    ensures |r| == |s| && forall i :: 0 <= i < |s| ==> r[i] == s[|s| - 1 - i]
  {
    if |s| == 0 then [] else Reversed(s[1..]) + [s[0]]
  }

  /** `find_optimal_seam`: a connected path from the top row to the bottom row, of least cost among all of these. */
  method FindOptimalSeam(cost: array2<real>) returns (seam: seq<(int, int)>)
    requires cost.Length0 > 0 && cost.Length1 > 0
    ensures IsSeam(cost, seam)
    ensures forall path :: IsSeam(cost, path) ==> Total(cost, seam) <= Total(cost, path)
  {
    var rows, cols := cost.Length0, cost.Length1;
    var dp := new real[rows, cols];
    Fill(cost, dp);
    var last := seq(cols, t requires 0 <= t < cols reads dp => Finite(dp[rows - 1, t]));
    var j := ArgMin(last);
    ghost var least := Least(cost, rows - 1, j);
    seam := WalkUp(cost, dp, j);
    forall path: seq<(int, int)> | IsSeam(cost, path) ensures least <= Total(cost, path) {
      LeastIsLowerBound(cost, path);
      var t := path[rows - 1].1;
      assert !Less(last[t], last[j]) && last[t] == Finite(Least(cost, rows - 1, t));
    }
  }

  /** The body of the second loop: the column above (i + 1, prevJ) with the least cost. */
  method OneUp(cost: array2<real>, dp: array2<real>, i: nat, prevJ: nat) returns (j: int)
    requires i + 1 < cost.Length0 && prevJ < cost.Length1
    requires dp.Length0 == cost.Length0 && dp.Length1 == cost.Length1
    requires forall q :: 0 <= q < cost.Length1 ==> dp[i, q] == Least(cost, i, q)
    ensures 0 <= j < cost.Length1 && prevJ - 1 <= j <= prevJ + 1
    ensures Least(cost, i + 1, prevJ) == cost[i + 1, prevJ] + Least(cost, i, j)
  {
    hide Least;
    var above := [if prevJ > 0 then Finite(dp[i, prevJ - 1]) else Inf,
                  Finite(dp[i, prevJ]),
                  if prevJ < cost.Length1 - 1 then Finite(dp[i, prevJ + 1]) else Inf];
    var k := ArgMin(above);
    assert above == Above(cost, i + 1, prevJ);
    StepUp(cost, i + 1, prevJ, k);
    j := prevJ + k - 1;
  }

  /** A connected path from row `i` to the bottom row that continues a least-cost path to its first cell at the
      cost `total`. */
  ghost predicate Continues(cost: array2<real>, path: seq<(int, int)>, i: nat, total: real)
    reads cost
  {
    && i < cost.Length0 && |path| == cost.Length0 - i
    && (forall t :: 0 <= t < |path| ==> path[t].0 == i + t && 0 <= path[t].1 < cost.Length1)
    && (forall t :: 0 <= t < |path| - 1 ==> path[t].1 - 1 <= path[t + 1].1 <= path[t].1 + 1)
    && Least(cost, i, path[0].1) + Total(cost, path[1..]) == total
  }

  lemma Bottom(cost: array2<real>, start: nat)
    requires cost.Length0 > 0 && start < cost.Length1
    ensures Continues(cost, [(cost.Length0 - 1, start)], cost.Length0 - 1, Least(cost, cost.Length0 - 1, start))
    ensures Reversed([(cost.Length0 - 1, start)]) == [(cost.Length0 - 1, start)]
  {
    hide Least, Reversed, Above, LeastAbove;
    assert [(cost.Length0 - 1, start)][1..] == [];
  }

  lemma ContinuesUp(cost: array2<real>, path: seq<(int, int)>, i: nat, j: nat, total: real)
    requires Continues(cost, path, i + 1, total) && j < cost.Length1 && path[0].1 - 1 <= j <= path[0].1 + 1
    requires Least(cost, i + 1, path[0].1) == cost[i + 1, path[0].1] + Least(cost, i, j)
    ensures Continues(cost, [(i, j)] + path, i, total)
  {
    hide Least;
    assert ([(i, j)] + path)[1..] == path;
  }

  lemma ContinuesFromTop(cost: array2<real>, path: seq<(int, int)>, total: real)
    requires Continues(cost, path, 0, total)
    ensures IsSeam(cost, path) && Total(cost, path) == total
  {
  }

  lemma ReversedMore(s: seq<(int, int)>, x: (int, int))
    ensures Reversed(s + [x]) == [x] + Reversed(s)
  {
  }

  /** The loop continues from the cell that it has appended last. */
  lemma LastCell(cost: array2<real>, seam: seq<(int, int)>, i: nat, total: real)
    requires Continues(cost, Reversed(seam), i, total)
    ensures i < cost.Length0 && |Reversed(seam)| == |seam| == cost.Length0 - i
    ensures var cell := seam[|seam| - 1]; Reversed(seam)[0] == cell && cell.0 == i && 0 <= cell.1 < cost.Length1
  {
    hide Total, Least;
  }

  /** The second loop follows the least costs upwards from the cell `start` of the bottom row. */
  method WalkUp(cost: array2<real>, dp: array2<real>, start: nat) returns (seam: seq<(int, int)>)
    requires cost.Length0 > 0 && start < cost.Length1
    requires dp.Length0 == cost.Length0 && dp.Length1 == cost.Length1
    requires forall i, j :: 0 <= i < cost.Length0 && 0 <= j < cost.Length1 ==> dp[i, j] == Least(cost, i, j)
    ensures IsSeam(cost, seam) && Total(cost, seam) == Least(cost, cost.Length0 - 1, start)
  {
    hide Least, LeastAbove, IsSeam, Total, Continues, Reversed;
    var rows := cost.Length0;
    seam := [(rows - 1, start)];
    ghost var least := Least(cost, rows - 1, start);
    assert Continues(cost, Reversed(seam), rows - 1, least) by { Bottom(cost, start); }
    var i := rows - 2;
    while i >= 0
      invariant -1 <= i <= rows - 2 && |seam| == rows - 1 - i > 0
      invariant Continues(cost, Reversed(seam), i + 1, least)
    {
      var prevJ := seam[|seam| - 1].1;
      LastCell(cost, seam, i + 1, least);
      var j := OneUp(cost, dp, i, prevJ);
      ContinuesUp(cost, Reversed(seam), i, j, least);
      ReversedMore(seam, (i, j));
      seam := seam + [(i, j)];
      i := i - 1;
    }
    seam := Reversed(seam);
    ContinuesFromTop(cost, seam, least);
  }
}
