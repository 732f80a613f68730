/** Sums of square matrices of reals: what antisymmetry does to rows and to groups of rows. */
module Sums {
  import opened EloMath

  lemma Distribute(c: real, x: real, y: real)
    ensures c * (x + y) == c * x + c * y
  {
  }

  lemma Scaled(c: real, x: real, y: real)
    requires c >= 0.0 && x <= y
    ensures c * x <= c * y
  {
    assert c * (y - x) >= 0.0;
  }

  /** Where both row and column are on the given sides. */
  ghost function Block(s: Matrix, won: seq<bool>, a: bool, b: bool): Matrix {
    (i: nat, j: nat) => if i < |won| && j < |won| && won[i] == a && won[j] == b then s(i, j) else 0.0
  }

  ghost predicate Antisymmetric(s: Matrix, n: nat) {
    forall i: nat, j: nat :: i < n && j < n ==> s(i, j) == -s(j, i)
  }

  /** Row i's terms in columns 0..n-1 against one side only, unweighted. */
  ghost function RowSum(s: Matrix, i: nat, n: nat): real {
    if n == 0 then 0.0 else RowSum(s, i, n - 1) + s(i, n - 1)
  }

  ghost function ColSum(s: Matrix, j: nat, m: nat): real {
    if m == 0 then 0.0 else ColSum(s, j, m - 1) + s(m - 1, j)
  }

  /** All terms in rows 0..m-1 and columns 0..n-1. */
  ghost function BlockSum(s: Matrix, m: nat, n: nat): real {
    if m == 0 then 0.0 else BlockSum(s, m - 1, n) + RowSum(s, m - 1, n)
  }

  lemma {:induction false} LastColumn(s: Matrix, m: nat, n: nat)
    ensures BlockSum(s, m, n + 1) == BlockSum(s, m, n) + ColSum(s, n, m)
  {
    if m > 0 { LastColumn(s, m - 1, n); }
  }

  lemma {:induction false} RowMirrorsColumn(s: Matrix, m: nat, n: nat)
    requires n <= m && Antisymmetric(s, m + 1)
    ensures RowSum(s, m, n) == -ColSum(s, m, n)
  {
    if n > 0 { RowMirrorsColumn(s, m, n - 1); }
  }

  /** All terms of an antisymmetric matrix cancel. */
  lemma {:induction false} AntisymmetricCancels(s: Matrix, n: nat)
    requires Antisymmetric(s, n)
    ensures BlockSum(s, n, n) == 0.0
  {
    if n > 0 {
      var m := n - 1;
      AntisymmetricCancels(s, m);
      LastColumn(s, m, m);
      RowMirrorsColumn(s, m, m);
      assert s(m, m) == -s(m, m);
    }
  }

  lemma {:induction false} RowSumNonNegative(s: Matrix, i: nat, n: nat)
    requires forall j: nat :: j < n ==> s(i, j) >= 0.0
    ensures RowSum(s, i, n) >= 0.0
  {
    if n > 0 { RowSumNonNegative(s, i, n - 1); }
  }

  lemma {:induction false} BlockSumNonNegative(s: Matrix, m: nat, n: nat)
    requires forall i: nat, j: nat :: i < m && j < n ==> s(i, j) >= 0.0
    ensures BlockSum(s, m, n) >= 0.0
  {
    if m > 0 {
      BlockSumNonNegative(s, m - 1, n);
      RowSumNonNegative(s, m - 1, n);
    }
  }

  /** A weighted row that skips its diagonal, when the diagonal is zero anyway. */
  lemma {:induction false} RowToIsRowSum(c: real, s: Matrix, i: nat, n: nat)
    requires s(i, i) == 0.0
    ensures RowTo(c, s, i, n) == c * RowSum(s, i, n)
  {
    if n > 0 {
      RowToIsRowSum(c, s, i, n - 1);
      Distribute(c, RowSum(s, i, n - 1), s(i, n - 1));
    }
  }

  // ---- totals of weighted rows -----------------------------------------------------

  /** The weighted rows 0..m-1, n columns each. */
  ghost function RowsTotal(c: real, s: Matrix, m: nat, n: nat): real {
    if m == 0 then 0.0 else RowsTotal(c, s, m - 1, n) + RowTo(c, s, m - 1, n)
  }

  /** The weighted rows of one side only. */
  ghost function SideTotal(c: real, s: Matrix, won: seq<bool>, side: bool, m: nat): real
    requires m <= |won|
  {
    if m == 0 then 0.0
    else SideTotal(c, s, won, side, m - 1) + if won[m - 1] == side then RowTo(c, s, m - 1, |won|) else 0.0
  }

  lemma {:induction false} SidesMakeTotal(c: real, s: Matrix, won: seq<bool>, m: nat)
    requires m <= |won|
    ensures SideTotal(c, s, won, true, m) + SideTotal(c, s, won, false, m) == RowsTotal(c, s, m, |won|)
  {
    if m > 0 { SidesMakeTotal(c, s, won, m - 1); }
  }

  lemma {:induction false} RowsTotalIsBlockSum(c: real, s: Matrix, m: nat, n: nat)
    requires forall i: nat :: i < m ==> s(i, i) == 0.0
    ensures RowsTotal(c, s, m, n) == c * BlockSum(s, m, n)
  {
    if m > 0 {
      RowsTotalIsBlockSum(c, s, m - 1, n);
      RowToIsRowSum(c, s, m - 1, n);
      Distribute(c, BlockSum(s, m - 1, n), RowSum(s, m - 1, n));
    }
  }

  lemma AntisymmetricRowsCancel(c: real, s: Matrix, n: nat)
    requires Antisymmetric(s, n)
    ensures RowsTotal(c, s, n, n) == 0.0
  {
    forall i: nat | i < n ensures s(i, i) == 0.0 {
      assert s(i, i) == -s(i, i);
    }
    RowsTotalIsBlockSum(c, s, n, n);
    AntisymmetricCancels(s, n);
  }

  /** A row of the first side splits into its terms against either side. */
  lemma {:induction false} RowSplits(s: Matrix, won: seq<bool>, i: nat, n: nat)
    requires n <= |won| && i < |won|
    ensures RowSum(Block(s, won, true, true), i, n) + RowSum(Block(s, won, true, false), i, n)
         == if won[i] then RowSum(s, i, n) else 0.0
  {
    if n > 0 { RowSplits(s, won, i, n - 1); }
  }

  lemma {:induction false} SideSplits(c: real, s: Matrix, won: seq<bool>, m: nat)
    requires m <= |won| && forall i: nat :: i < m ==> s(i, i) == 0.0
    ensures SideTotal(c, s, won, true, m)
         == c * (BlockSum(Block(s, won, true, true), m, |won|) + BlockSum(Block(s, won, true, false), m, |won|))
  {
    if m > 0 {
      var i, tt, tf := m - 1, Block(s, won, true, true), Block(s, won, true, false);
      SideSplits(c, s, won, i);
      var row := if won[i] then RowSum(s, i, |won|) else 0.0;
      RowSplits(s, won, i, |won|);
      RowToIsRowSum(c, s, i, |won|);
      Distribute(c, BlockSum(tt, i, |won|) + BlockSum(tf, i, |won|), row);
      assert SideTotal(c, s, won, true, m) == SideTotal(c, s, won, true, i) + c * row;
    }
  }

  /** Within one side everything cancels: the side's weighted rows come to the weight times
      its terms against the other side, and the other side's to the opposite. */
  lemma SidesExchange(c: real, s: Matrix, won: seq<bool>)
    requires Antisymmetric(s, |won|)
    ensures SideTotal(c, s, won, true, |won|) == c * BlockSum(Block(s, won, true, false), |won|, |won|)
    ensures SideTotal(c, s, won, false, |won|) == -SideTotal(c, s, won, true, |won|)
  {
    var n := |won|;
    forall i: nat | i < n ensures s(i, i) == 0.0 {
      assert s(i, i) == -s(i, i);
    }
    SideSplits(c, s, won, n);
    AntisymmetricCancels(Block(s, won, true, true), n);
    SidesMakeTotal(c, s, won, n);
    AntisymmetricRowsCancel(c, s, n);
  }

  // ---- comparing rows ----------------------------------------------------------------

  /** Row i dominates row k column by column, apart from where they meet. */
  ghost predicate Dominates(s: Matrix, i: nat, k: nat, n: nat) {
    && (forall j: nat :: j < n && j != i && j != k ==> s(k, j) <= s(i, j))
    && s(k, i) <= 0.0 <= s(i, k)
  }

  /** The row with column n-1 split off; x is that column's weighted term. */
  lemma RowStep(c: real, s: Matrix, i: nat, n: nat) returns (x: real)
    requires n > 0
    ensures n - 1 == i ==> x == 0.0
    ensures n - 1 != i ==> x == c * s(i, n - 1)
    ensures RowTo(c, s, i, n) == RowTo(c, s, i, n - 1) + x
  {
    x := if n - 1 == i then 0.0 else c * s(i, n - 1);
  }

  lemma {:induction false} DominantRow(c: real, s: Matrix, i: nat, k: nat, n: nat)
    requires c >= 0.0 && i != k && Dominates(s, i, k, n)
    ensures RowTo(c, s, k, n) <= RowTo(c, s, i, n)
  {
    if n > 0 {
      DominantRow(c, s, i, k, n - 1);
      var x := RowStep(c, s, k, n);
      var y := RowStep(c, s, i, n);
      assert x <= y by { DominantTerm(c, s, i, k, n - 1); }
    }
  }

  lemma DominantTerm(c: real, s: Matrix, i: nat, k: nat, j: nat)
    requires c >= 0.0 && i != k && Dominates(s, i, k, j + 1)
    ensures (if j == k then 0.0 else c * s(k, j)) <= (if j == i then 0.0 else c * s(i, j))
  {
    if j == i {
      Scaled(c, s(k, i), 0.0);
    } else if j == k {
      Scaled(c, 0.0, s(i, k));
    } else {
      Scaled(c, s(k, j), s(i, j));
    }
  }

  /** The number of columns among 0..n-1 other than i. */
  function Others(i: nat, n: nat): nat {
    if i < n then n - 1 else n
  }

  /** m times c. */
  function Repeat(c: real, m: nat): real {
    if m == 0 then 0.0 else Repeat(c, m - 1) + c
  }

  lemma {:induction false} RepeatIsProduct(c: real, m: nat)
    ensures Repeat(c, m) == c * m as real
  {
    if m > 0 {
      RepeatIsProduct(c, m - 1);
      Distribute(c, (m - 1) as real, 1.0);
    }
  }

  /** Terms below 1 in size, at weight c, stay below c per other column. */
  lemma {:induction false} RowBound(c: real, s: Matrix, i: nat, n: nat)
    requires c > 0.0 && forall j: nat :: j < n ==> -1.0 < s(i, j) < 1.0
    ensures -Repeat(c, Others(i, n)) <= RowTo(c, s, i, n) <= Repeat(c, Others(i, n))
    ensures Others(i, n) > 0 ==> -Repeat(c, Others(i, n)) < RowTo(c, s, i, n) < Repeat(c, Others(i, n))
  {
    if n > 0 {
      RowBound(c, s, i, n - 1);
      if n - 1 != i {
        var x := RowStep(c, s, i, n);
        assert -c < x < c by { StrictlyScaled(c, s(i, n - 1)); }
      }
    }
  }

  lemma StrictlyScaled(c: real, x: real)
    requires c > 0.0 && -1.0 < x < 1.0
    ensures -c < c * x < c
  {
    assert c * (1.0 - x) > 0.0 && c * (1.0 + x) > 0.0;
  }
}
