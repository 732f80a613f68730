/** What one Elo update does to the players of a match, taken together and compared. */
module EloTheorems {
  import opened EloMath
  import opened Sums

  lemma SurplusesAntisymmetric(t: Table)
    requires t.Valid()
    ensures Antisymmetric(t.Surpluses(), t.N())
  {
    forall i: nat, j: nat | i < t.N() && j < t.N() ensures t.Surpluses()(i, j) == -t.Surpluses()(j, i) {
      ExpectedComplement(t.b, t.ratings[i], t.ratings[j]);
    }
  }

  lemma KEffSign(t: Table)
    requires t.Valid()
    ensures t.k >= 0 ==> t.KEff() >= 0.0
    ensures t.k > 0 ==> t.KEff() > 0.0
  {
  }

  /** The sum of all the deltas before rounding. */
  ghost function Total(t: Table): real
    requires t.Valid()
  {
    RowsTotal(t.KEff(), t.Surpluses(), t.N(), t.N())
  }

  lemma {:induction false} TotalAddsDeltas(t: Table, m: nat)
    requires t.Valid() && m < t.N()
    ensures RowsTotal(t.KEff(), t.Surpluses(), m + 1, t.N())
         == RowsTotal(t.KEff(), t.Surpluses(), m, t.N()) + t.Delta(m)
  {
  }

  /** Rating points are neither created nor destroyed before rounding, whatever K, the
      number of players and the winners. */
  lemma DeltasSumToZero(t: Table)
    requires t.Valid()
    ensures Total(t) == 0.0
  {
    SurplusesAntisymmetric(t);
    AntisymmetricRowsCancel(t.KEff(), t.Surpluses(), t.N());
  }

  /** The sum of (1 - E) over all pairs of a winner and a loser. */
  ghost function UpsetMargin(t: Table): real
    requires t.Valid()
  {
    BlockSum(UpsetTerms(t), t.N(), t.N())
  }

  ghost function UpsetTerms(t: Table): Matrix
    requires t.Valid()
  {
    (i: nat, j: nat) => if i < t.N() && j < t.N() && t.won[i] && !t.won[j]
                        then 1.0 - Expected(t.b, t.ratings[i], t.ratings[j]) else 0.0
  }

  lemma {:induction false} EqualRows(s: Matrix, t: Matrix, i: nat, n: nat)
    requires forall j: nat :: j < n ==> s(i, j) == t(i, j)
    ensures RowSum(s, i, n) == RowSum(t, i, n)
  {
    if n > 0 { EqualRows(s, t, i, n - 1); }
  }

  lemma {:induction false} EqualBlocks(s: Matrix, t: Matrix, m: nat, n: nat)
    requires forall i: nat, j: nat :: i < m && j < n ==> s(i, j) == t(i, j)
    ensures BlockSum(s, m, n) == BlockSum(t, m, n)
  {
    if m > 0 {
      EqualBlocks(s, t, m - 1, n);
      EqualRows(s, t, m - 1, n);
    }
  }

  /** The deltas of the winners, or of the losers, added up. */
  ghost function GroupTotal(t: Table, side: bool): real
    requires t.Valid()
  {
    SideTotal(t.KEff(), t.Surpluses(), t.won, side, t.N())
  }

  /** The winners as a group gain K_eff times the sum of (1 - E) over winner-loser pairs,
      the losers lose exactly that, and with K >= 0 the winners never lose points: every
      term between two winners or two losers cancels. */
  lemma WinnersGainWhatLosersLose(t: Table)
    requires t.Valid()
    ensures GroupTotal(t, true) == t.KEff() * UpsetMargin(t)
    ensures GroupTotal(t, false) == -(t.KEff() * UpsetMargin(t))
    ensures UpsetMargin(t) >= 0.0
    ensures t.k >= 0 ==> GroupTotal(t, true) >= 0.0
  {
    SurplusesAntisymmetric(t);
    SidesExchange(t.KEff(), t.Surpluses(), t.won);
    EqualBlocks(Block(t.Surpluses(), t.won, true, false), UpsetTerms(t), t.N(), t.N());
    BlockSumNonNegative(UpsetTerms(t), t.N(), t.N());
    if t.k >= 0 {
      KEffSign(t);
      Scaled(t.KEff(), 0.0, UpsetMargin(t));
    }
  }

  // ---- rounding --------------------------------------------------------------------

  /** The sum of the rounded deltas of the first n players. */
  ghost function RoundedTotal(t: Table, n: nat): int
    requires t.Valid() && n <= t.N()
  {
    if n == 0 then 0 else RoundedTotal(t, n - 1) + Round(t.Delta(n - 1))
  }

  lemma {:induction false} RoundingDrift(t: Table, n: nat)
    requires t.Valid() && n <= t.N()
    ensures var drift := RoundedTotal(t, n) as real - RowsTotal(t.KEff(), t.Surpluses(), n, t.N());
            -(n as real) <= 2.0 * drift <= n as real
  {
    if n > 0 {
      RoundingDrift(t, n - 1);
      RoundError(t.Delta(n - 1));
    }
  }

  /** The ratings of a match move in total by at most half a point per player, and with two
      players not at all: one gains exactly what the other loses. */
  lemma RoundedDeltasNearlyConserve(t: Table)
    requires t.Valid()
    ensures 0 - t.N() <= 2 * RoundedTotal(t, t.N()) <= t.N()
    ensures t.N() == 2 ==> Round(t.Delta(0)) == -Round(t.Delta(1)) && RoundedTotal(t, 2) == 0
  {
    RoundingDrift(t, t.N());
    DeltasSumToZero(t);
    if t.N() == 2 {
      TotalAddsDeltas(t, 0);
      TotalAddsDeltas(t, 1);
      RoundIsOdd(t.Delta(1));
      assert RoundedTotal(t, 2) == RoundedTotal(t, 1) + Round(t.Delta(1));
      assert RoundedTotal(t, 1) == RoundedTotal(t, 0) + Round(t.Delta(0));
    }
  }

  // ---- order and size ----------------------------------------------------------------

  /** An outcome no worse from a rating no higher is a surplus no smaller against anyone. */
  lemma UnderdogDominates(t: Table, i: nat, k: nat)
    requires t.Valid() && i < t.N() && k < t.N() && i != k
    requires (t.won[k] ==> t.won[i]) && t.ratings[i] <= t.ratings[k]
    ensures Dominates(t.Surpluses(), i, k, t.N())
  {
    var s := t.Surpluses();
    forall j: nat | j < t.N() && j != i && j != k ensures s(k, j) <= s(i, j) {
      ExpectedMonotone(t.b, t.ratings[i], t.ratings[j], t.ratings[k], t.ratings[j]);
    }
    ExpectedMonotone(t.b, t.ratings[i], t.ratings[k], t.ratings[k], t.ratings[i]);
    ExpectedComplement(t.b, t.ratings[i], t.ratings[k]);
  }

  /** With K >= 0: an outcome no worse than k's from a rating no higher than k's never earns
      fewer points. */
  lemma UnderdogEarnsNoLess(t: Table, i: nat, k: nat)
    requires t.Valid() && i < t.N() && k < t.N() && t.k >= 0
    requires (t.won[k] ==> t.won[i]) && t.ratings[i] <= t.ratings[k]
    ensures Round(t.Delta(i)) >= Round(t.Delta(k))
  {
    if i != k {
      KEffSign(t);
      UnderdogDominates(t, i, k);
      DominantRow(t.KEff(), t.Surpluses(), i, k, t.N());
      RoundMonotone(t.Delta(k), t.Delta(i));
    }
  }

  lemma SurplusesSmall(t: Table, i: nat)
    requires t.Valid() && i < t.N()
    ensures forall j: nat :: j < t.N() ==> -1.0 < t.Surpluses()(i, j) < 1.0
  {
  }

  /** With K > 0 no player moves by 2K(N-1)/N points or more before rounding. */
  lemma DeltaBounded(t: Table, i: nat)
    requires t.Valid() && i < t.N() && t.k > 0
    ensures var bound := 2.0 * t.k as real * (t.N() - 1) as real / t.N() as real;
            -bound < t.Delta(i) < bound
  {
    KEffSign(t);
    SurplusesSmall(t, i);
    RowBound(t.KEff(), t.Surpluses(), i, t.N());
    RepeatIsProduct(t.KEff(), t.N() - 1);
    BoundForms(t.k as real, t.N() as real, (t.N() - 1) as real);
  }

  lemma BoundForms(k: real, n: real, m: real)
    requires n > 0.0
    ensures k * 2.0 / n * m == 2.0 * k * m / n
  {
    var q := 1.0 / n;
    assert k * 2.0 / n == k * 2.0 * q;
    assert 2.0 * k * m / n == 2.0 * k * m * q;
  }
}
