/** What the expected score is, and what it makes of a match: the odds of two players are the
    base to the power of their difference, a lower rating strictly earns more from the same
    result, and the update of two players is K times scored minus expected. */
module EloOdds {
  import opened Ids
  import opened EloMath
  import opened Sums
  import opened EloTheorems
  import opened EloApply

  // ---- powers -----------------------------------------------------------------------

  /** If y is b times x, its inverse is the b-th part of x's. */
  lemma InverseScales(b: real, x: real, y: real, p: real, q: real)
    requires b > 0.0 && x > 0.0 && y > 0.0 && y == b * x && p * x == 1.0 && q * y == 1.0
    ensures p == b * q
  {
    assert (b * q) * x == q * y;
    assert (p - b * q) * x == 0.0;
  }

  lemma PowNatNext(b: real, n: nat)
    requires b > 1.0
    ensures PowNat(b, n + 1) == b * PowNat(b, n)
  {
  }

  lemma PowLawAbove(b: real, n: int)
    requires b > 1.0 && n >= 0
    ensures Pow(b, n + 1) == b * Pow(b, n)
  {
    PowNatNext(b, n);
  }

  lemma PowBelow(b: real, n: int)
    requires b > 1.0 && n <= 0
    ensures Pow(b, n) * PowNat(b, 0 - n) == 1.0
  {
    var p := PowNat(b, 0 - n);
    assert PowNat(b, 0) == 1.0;
    assert p * (1.0 / p) == 1.0;
  }

  lemma InversePow(b: real, n: int) returns (p: real, x: real)
    requires b > 1.0 && n <= 0
    ensures p == Pow(b, n) && x == PowNat(b, 0 - n) && x > 0.0 && p * x == 1.0
  {
    p, x := Pow(b, n), PowNat(b, 0 - n);
    PowBelow(b, n);
  }

  lemma PowNatStep(b: real, n: int) returns (x: real, y: real)
    requires b > 1.0 && n < 0
    ensures x == PowNat(b, 0 - n - 1) && y == PowNat(b, 0 - n) && y == b * x && x > 0.0 && y > 0.0
  {
    x, y := PowNat(b, 0 - n - 1), PowNat(b, 0 - n);
    PowNatNext(b, 0 - n - 1);
  }

  lemma PowsBelow(b: real, n: int) returns (p: real, q: real)
    requires b > 1.0 && n < 0
    ensures p == Pow(b, n + 1) && q == Pow(b, n) && p == b * q
  {
    var x, y := PowNatStep(b, n);
    var y', x': real;
    q, y' := InversePow(b, n);
    p, x' := InversePow(b, n + 1);
    InverseScales(b, x, y, p, q);
  }

  lemma PowLawBelow(b: real, n: int)
    requires b > 1.0 && n < 0
    ensures Pow(b, n + 1) == b * Pow(b, n)
  {
    var p, q := PowsBelow(b, n);
  }

  /** b to the power of n, for every integer n. */
  lemma PowLaw(b: real, n: int)
    requires b > 1.0
    ensures Pow(b, 0) == 1.0 && Pow(b, n + 1) == b * Pow(b, n)
  {
    if n >= 0 { PowLawAbove(b, n); } else { PowLawBelow(b, n); }
  }

  lemma PowStep(b: real, n: int) returns (p: real, q: real)
    requires b > 1.0
    ensures p == Pow(b, n) && q == Pow(b, n + 1) && p > 0.0 && q == b * p
  {
    p, q := Pow(b, n), Pow(b, n + 1);
    PowLaw(b, n);
  }

  lemma MultipleIsMore(b: real, p: real, q: real)
    requires b > 1.0 && p > 0.0 && q == b * p
    ensures p < q
  {
    assert (b - 1.0) * p > 0.0;
  }

  lemma PowStrict(b: real, m: int, n: int)
    requires b > 1.0 && m < n
    ensures Pow(b, m) < Pow(b, n)
  {
    PowMonotone(b, m, n - 1);
    var p, q := PowStep(b, n - 1);
    MultipleIsMore(b, p, q);
  }

  lemma PowInverse(b: real, n: int)
    requires b > 1.0
    ensures Pow(b, n) * Pow(b, 0 - n) == 1.0
  {
    if n <= 0 { PowBelow(b, n); } else { PowBelow(b, 0 - n); }
  }

  // ---- the expected score -------------------------------------------------------------

  lemma OddsForm(x: real, y: real, p: real, q: real)
    requires x > 0.0 && y > 0.0 && x * y == 1.0 && p * (1.0 + x) == 1.0 && q * (1.0 + y) == 1.0
    ensures p == y * q
  {
    assert (y * q) * (1.0 + x) == q * (y + x * y);
    assert (p - y * q) * (1.0 + x) == 0.0;
  }

  lemma InversePair(b: real, ri: int, rj: int) returns (x: real, y: real)
    requires b > 1.0
    ensures x == Pow(b, rj - ri) && y == Pow(b, ri - rj) && x > 0.0 && y > 0.0 && x * y == 1.0
  {
    x, y := Pow(b, rj - ri), Pow(b, ri - rj);
    PowInverse(b, rj - ri);
    assert 0 - (rj - ri) == ri - rj;
  }

  lemma ExpectedTimes(b: real, ri: int, rj: int, x: real) returns (p: real)
    requires b > 1.0 && x == Pow(b, rj - ri)
    ensures p == Expected(b, ri, rj) && p * (1.0 + x) == 1.0
  {
    p := Expected(b, ri, rj);
  }

  lemma OddsOf(b: real, ri: int, rj: int) returns (p: real, q: real, y: real)
    requires b > 1.0
    ensures p == Expected(b, ri, rj) && q == Expected(b, rj, ri) && y == Pow(b, ri - rj) && p == y * q
  {
    var x: real;
    x, y := InversePair(b, ri, rj);
    p := ExpectedTimes(b, ri, rj, x);
    q := ExpectedTimes(b, rj, ri, y);
    OddsForm(x, y, p, q);
  }

  /** The odds law. Together with `ExpectedComplement` it determines the expectation. */
  lemma ExpectedOdds(b: real, ri: int, rj: int)
    requires b > 1.0
    ensures Expected(b, ri, rj) == Pow(b, ri - rj) * Expected(b, rj, ri)
  {
    var p, q, y := OddsOf(b, ri, rj);
  }

  lemma InverseStrict(x: real, y: real)
    requires 0.0 < x < y
    ensures 1.0 / y < 1.0 / x
  {
    var p, q := 1.0 / x, 1.0 / y;
    assert p * x == 1.0 && q * y == 1.0;
    assert q > 0.0 && q * (y - x) > 0.0;
    assert (p - q) * x == q * (y - x);
  }

  /** The better one's own rating, or the lower the opponent's, the strictly more is expected. */
  lemma ExpectedStrict(b: real, ri: int, rj: int, ri': int, rj': int)
    requires b > 1.0 && ri - rj < ri' - rj'
    ensures Expected(b, ri, rj) < Expected(b, ri', rj')
  {
    PowStrict(b, rj' - ri', rj - ri);
    InverseStrict(1.0 + Pow(b, rj' - ri'), 1.0 + Pow(b, rj - ri));
  }

  lemma EvenMatch(b: real, r: int)
    requires b > 1.0
    ensures Expected(b, r, r) == 0.5
  {
    ExpectedComplement(b, r, r);
  }

  // ---- what a match moves ---------------------------------------------------------------

  /** Every player's change before rounding is 2K/N times the sum, over the others, of scored
      minus expected. */
  lemma DeltaIsShare(t: Table, i: nat)
    requires t.Valid() && i < t.N()
    ensures t.N() as real * t.Delta(i) == 2.0 * t.k as real * RowSum(t.Surpluses(), i, t.N())
  {
    EvenMatch(t.b, t.ratings[i]);
    RowToIsRowSum(t.KEff(), t.Surpluses(), i, t.N());
    ShareForm(t.k as real, t.N() as real, RowSum(t.Surpluses(), i, t.N()));
  }

  lemma ShareForm(k: real, n: real, x: real)
    requires n > 0.0
    ensures n * (k * 2.0 / n * x) == 2.0 * k * x
  {
    var q := k * 2.0 / n;
    assert q * n == k * 2.0;
    assert n * (q * x) == (q * n) * x;
  }

  lemma PairRow(c: real, s: Matrix)
    ensures RowTo(c, s, 0, 2) == c * s(0, 1) && RowTo(c, s, 1, 2) == c * s(1, 0)
  {
    assert RowTo(c, s, 0, 1) == RowTo(c, s, 0, 0);
    assert RowTo(c, s, 1, 1) == RowTo(c, s, 1, 0) + c * s(1, 0);
  }

  /** K times scored minus expected. */
  function PairChange(b: real, k: int, own: int, other: int, won: bool, lost: bool): real
    requires b > 1.0
  {
    k as real * (Score(won, lost) - Expected(b, own, other))
  }

  /** Between two players a match moves each by that much. */
  lemma PairDelta(t: Table, i: nat, j: nat)
    requires t.Valid() && t.N() == 2 && i < 2 && j < 2 && i != j
    ensures t.Delta(i) == PairChange(t.b, t.k, t.ratings[i], t.ratings[j], t.won[i], t.won[j])
  {
    PairRow(t.KEff(), t.Surpluses());
    assert t.KEff() == t.k as real;
  }

  lemma LowerChangesMore(b: real, k: int, own: int, own': int, other: int, won: bool, lost: bool)
    requires b > 1.0 && k > 0 && own < own'
    ensures PairChange(b, k, own, other, won, lost) > PairChange(b, k, own', other, won, lost)
  {
    var s, e, e' := Score(won, lost), Expected(b, own, other), Expected(b, own', other);
    ExpectedStrict(b, own, other, own', other);
    StrictlyMore(k as real, s - e', s - e);
  }

  /** With K > 0: the same result against the same opponent strictly earns more points from a
      lower rating. */
  lemma LowerEarnsMore(t: Table, t': Table)
    requires t.Valid() && t'.Valid() && t.N() == t'.N() == 2 && t.k > 0
    requires t'.b == t.b && t'.k == t.k && t'.won == t.won
    requires t'.ratings[1] == t.ratings[1] && t.ratings[0] < t'.ratings[0]
    ensures t.Delta(0) > t'.Delta(0)
  {
    PairDelta(t, 0, 1);
    PairDelta(t', 0, 1);
    LowerChangesMore(t.b, t.k, t.ratings[0], t'.ratings[0], t.ratings[1], t.won[0], t.won[1]);
  }

  lemma StrictlyMore(c: real, x: real, y: real)
    requires c > 0.0 && x < y
    ensures c * x < c * y
  {
    assert c * (y - x) > 0.0;
  }

  lemma {:induction false} StrictRow(c: real, s: Matrix, i: nat, k: nat, n: nat)
    requires c > 0.0 && i != k && Dominates(s, i, k, n) && s(k, i) < 0.0 < s(i, k)
    ensures RowTo(c, s, k, n) <= RowTo(c, s, i, n)
    ensures i < n || k < n ==> RowTo(c, s, k, n) < RowTo(c, s, i, n)
  {
    if n > 0 {
      StrictRow(c, s, i, k, n - 1);
      var x := RowStep(c, s, k, n);
      var y := RowStep(c, s, i, n);
      assert x <= y by { DominantTerm(c, s, i, k, n - 1); }
      assert n - 1 == i || n - 1 == k ==> x < y by {
        StrictlyMore(c, s(k, i), 0.0);
        StrictlyMore(c, 0.0, s(i, k));
      }
    }
  }

  /** With K > 0, in a match of any size: an outcome no worse than k's from a strictly lower
      rating earns strictly more points before rounding. */
  lemma UnderdogEarnsMore(t: Table, i: nat, k: nat)
    requires t.Valid() && i < t.N() && k < t.N() && t.k > 0
    requires (t.won[k] ==> t.won[i]) && t.ratings[i] < t.ratings[k]
    ensures t.Delta(i) > t.Delta(k)
  {
    KEffSign(t);
    UnderdogDominates(t, i, k);
    EvenMatch(t.b, t.ratings[k]);
    ExpectedStrict(t.b, t.ratings[i], t.ratings[k], t.ratings[k], t.ratings[k]);
    ExpectedComplement(t.b, t.ratings[i], t.ratings[k]);
    StrictRow(t.KEff(), t.Surpluses(), i, k, t.N());
  }

  // ---- rounding ---------------------------------------------------------------------------

  /** The nearest integer, with halves away from zero. */
  lemma RoundMeaning(x: real, n: int)
    ensures Round(x) == n <==> if x >= 0.0 then n as real - 0.5 <= x < n as real + 0.5 else n as real - 0.5 < x <= n as real + 0.5
  {
  }

  // ---- the update of two players ------------------------------------------------------------

  /** The rating of a player, or the default for a newcomer. */
  function Stands(rows: Rows, q: Queue, p: Id): int { if p in rows then rows[p] else q.defaultRating }

  lemma TwoSorted(p: Id, o: Id)
    requires p != o && !IsGuest(p) && !IsGuest(o)
    ensures var ids := Sort(NonGuests([p, o]));
            |ids| == |NonGuests([p, o])| == 2 && ((ids[0] == p && ids[1] == o) || (ids[0] == o && ids[1] == p))
  {
    SortedNonGuests([p, o]);
    var two := [p, o];
    assert two[..1] == [p] && two[..1][..0] == [];
    assert NonGuests(two[..1]) == NonGuests(two[..1][..0]) + [p];
    assert NonGuests(two) == NonGuests(two[..1]) + [o];
    var ids := Sort(NonGuests(two));
    assert |multiset(ids)| == |multiset(NonGuests(two))|;
    assert p in ids && o in ids;
  }

  /** Two registered players: each ends at its old rating plus K times scored minus expected,
      rounded. */
  lemma TwoPlayerUpdate(b: real, q: Queue, rows: Rows, p: Id, o: Id, winners: seq<Id>)
    requires b > 1.0 && p != o && !IsGuest(p) && !IsGuest(o)
    ensures var r, own := EloUpdate(b, q, rows, [p, o], winners), Stands(rows, q, p);
            p in r && r[p] == own + Round(PairChange(b, q.kFactor, own, Stands(rows, q, o), p in winners, o in winners))
  {
    TwoSorted(p, o);
    UpdateByPlayer(b, q, rows, [p, o], winners);
    RowOfTwo(b, q, rows, Sort(NonGuests([p, o])), winners, p, o, EloUpdate(b, q, rows, [p, o], winners));
  }

  lemma RowOfTwo(b: real, q: Queue, rows: Rows, ids: seq<Id>, winners: seq<Id>, p: Id, o: Id, r: Rows)
    requires b > 1.0 && |ids| == 2 && ((ids[0] == p && ids[1] == o) || (ids[0] == o && ids[1] == p))
    requires Rerated(MatchTable(b, q, rows, ids, winners), rows, ids, r)
    ensures var own := Stands(rows, q, p);
            p in r && r[p] == own + Round(PairChange(b, q.kFactor, own, Stands(rows, q, o), p in winners, o in winners))
  {
    var t := MatchTable(b, q, rows, ids, winners);
    if ids[0] == p { RowOf(t, rows, ids, r, 0, 1); } else { RowOf(t, rows, ids, r, 1, 0); }
  }

  lemma RowOf(t: Table, rows: Rows, ids: seq<Id>, r: Rows, i: nat, j: nat)
    requires t.Valid() && t.N() == |ids| == 2 && i < 2 && j < 2 && i != j && Rerated(t, rows, ids, r)
    ensures ids[i] in r
    ensures r[ids[i]] == t.ratings[i] + Round(PairChange(t.b, t.k, t.ratings[i], t.ratings[j], t.won[i], t.won[j]))
  {
    assert t.Delta(i) == PairChange(t.b, t.k, t.ratings[i], t.ratings[j], t.won[i], t.won[j]) by { PairDelta(t, i, j); }
    assert r[ids[i]] == t.ratings[i] + Round(t.Delta(i));
  }

  /** With odds of ten to one per 400 points and K = 32: a player at 1200 who beats one at
      1600 was expected to score 1/11 and gains 29 points, which the other loses. */
  lemma UpsetMovesTwentyNine(b: real, q: Queue, rows: Rows, p: Id, o: Id)
    requires b > 1.0 && Pow(b, 400) == 10.0 && q.kFactor == 32
    requires p != o && !IsGuest(p) && !IsGuest(o) && p in rows && o in rows && rows[p] == 1200 && rows[o] == 1600
    ensures Expected(b, 1200, 1600) == 1.0 / 11.0
    ensures var r := EloUpdate(b, q, rows, [p, o], [p]); p in r && r[p] == 1229
    ensures var r := EloUpdate(b, q, rows, [o, p], [p]); o in r && r[o] == 1571
  {
    assert Expected(b, 1200, 1600) == 1.0 / 11.0;
    ExpectedComplement(b, 1200, 1600);
    TwoPlayerUpdate(b, q, rows, p, o, [p]);
    TwoPlayerUpdate(b, q, rows, o, p, [p]);
    RoundMeaning(32.0 * (1.0 - 1.0 / 11.0), 29);
    RoundMeaning(32.0 * (0.0 - 10.0 / 11.0), -29);
  }
}
