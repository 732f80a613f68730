/** The arithmetic of the pairwise Elo update over the reals. Ratings are integers; the
    expected score of i against j is 1 / (1 + b^(r_j - r_i)) for a base b > 1, of which the
    service's 10^(1/400) is one. */
module EloMath {

  // ---- powers and expected score ---------------------------------------------------

  function PowNat(b: real, n: nat): (p: real)
    requires b > 1.0
    ensures p >= 1.0
  {
    if n == 0 then 1.0 else AtLeastOne(b, PowNat(b, n - 1))
  }

  function AtLeastOne(x: real, y: real): (r: real)
    requires x > 1.0 && y >= 1.0
    ensures r > y && r == x * y
  {
    assert (x - 1.0) * y > 0.0;
    x * y
  }

  /** b^n for any integer n. */
  function Pow(b: real, n: int): (p: real)
    requires b > 1.0
    ensures p > 0.0
  {
    if n >= 0 then PowNat(b, n) else 1.0 / PowNat(b, -n)
  }

  lemma {:induction false} PowNatMonotone(b: real, m: nat, n: nat)
    requires b > 1.0 && m <= n
    ensures PowNat(b, m) <= PowNat(b, n)
  {
    if m < n { PowNatMonotone(b, m, n - 1); }
  }

  lemma PowMonotone(b: real, m: int, n: int)
    requires b > 1.0 && m <= n
    ensures Pow(b, m) <= Pow(b, n)
  {
    if m >= 0 {
      PowNatMonotone(b, m, n);
    } else if n < 0 {
      PowNatMonotone(b, -n, -m);
      InverseAntitone(PowNat(b, -n), PowNat(b, -m));
    } else {
      InverseAntitone(1.0, PowNat(b, -m));
    }
  }

  lemma InverseAntitone(x: real, y: real)
    requires 0.0 < x <= y
    ensures 0.0 < 1.0 / y <= 1.0 / x
  {
    var p, q := 1.0 / x, 1.0 / y;
    assert p * x == 1.0 && q * y == 1.0;
    assert (p - q) * x == 1.0 - q * x;
    assert q * (y - x) >= 0.0;
  }

  function Expected(b: real, ri: int, rj: int): (e: real)
    requires b > 1.0
    ensures 0.0 < e < 1.0
  {
    InverseOfMoreThanOne(1.0 + Pow(b, rj - ri));
    1.0 / (1.0 + Pow(b, rj - ri))
  }

  lemma InverseOfMoreThanOne(x: real)
    requires x > 1.0
    ensures 0.0 < 1.0 / x < 1.0
  {
  }

  /** What one side is expected to score the other is expected to miss. */
  lemma ExpectedComplement(b: real, ri: int, rj: int)
    requires b > 1.0
    ensures Expected(b, ri, rj) + Expected(b, rj, ri) == 1.0
  {
    if rj >= ri {
      Complement(PowNat(b, rj - ri));
    } else {
      Complement(PowNat(b, ri - rj));
    }
    assert Pow(b, 0) == 1.0;
  }

  lemma Complement(x: real)
    requires x > 0.0
    ensures 1.0 / (1.0 + x) + 1.0 / (1.0 + 1.0 / x) == 1.0
  {
    var y := 1.0 / x;
    var p, q := 1.0 / (1.0 + x), 1.0 / (1.0 + y);
    assert x * y == 1.0;
    assert p * (1.0 + x) == 1.0 && q * (1.0 + y) == 1.0;
    assert x * (q * (1.0 + y)) == q * (x + x * y);
    assert q * (1.0 + x) == x;
    assert (p + q - 1.0) * (1.0 + x) == 0.0;
  }

  /** The lower one's own rating and the higher the opponent's, the less is expected. */
  lemma ExpectedMonotone(b: real, ri: int, rj: int, ri': int, rj': int)
    requires b > 1.0 && ri <= ri' && rj' <= rj
    ensures Expected(b, ri, rj) <= Expected(b, ri', rj')
  {
    PowMonotone(b, rj' - ri', rj - ri);
    InverseAntitone(1.0 + Pow(b, rj' - ri'), 1.0 + Pow(b, rj - ri));
  }

  // ---- rounding --------------------------------------------------------------------

  /** Nearest integer, halves away from zero. */
  function Round(x: real): int {
    if x >= 0.0 then (x + 0.5).Floor else -((0.5 - x).Floor)
  }

  lemma RoundIsOdd(x: real)
    ensures Round(-x) == -Round(x)
  {
  }

  lemma RoundError(x: real)
    ensures -0.5 <= Round(x) as real - x <= 0.5
  {
  }

  lemma RoundMonotone(x: real, y: real)
    requires x <= y
    ensures Round(x) <= Round(y)
  {
  }

  // ---- the update of one match -------------------------------------------------------

  /** The score of a player against another: who won outright, else half each. */
  function Score(iWon: bool, jWon: bool): real {
    if iWon && !jWon then 1.0 else if !iWon && jWon then 0.0 else 0.5
  }

  type Matrix = (nat, nat) -> real

  /** The sum of row i's terms in columns 0..n-1, the diagonal skipped, each at weight c. */
  function RowTo(c: real, s: Matrix, i: nat, n: nat): real {
    if n == 0 then 0.0
    else if n - 1 == i then RowTo(c, s, i, n - 1)
    else RowTo(c, s, i, n - 1) + c * s(i, n - 1)
  }

  /** One match: per non-guest player in sorted order, the rating and whether they won. */
  datatype Table = Table(b: real, k: int, ratings: seq<int>, won: seq<bool>)
  {
    ghost predicate Valid() { b > 1.0 && |won| == |ratings| && |ratings| >= 2 }

    function N(): nat { |ratings| }

    function KEff(): real
      requires |ratings| >= 2
    {
      k as real * 2.0 / N() as real
    }

    /** Scored minus expected, i against j. */
    function Surplus(i: nat, j: nat): real
      requires Valid() && i < N() && j < N()
    {
      Score(won[i], won[j]) - Expected(b, ratings[i], ratings[j])
    }

    /** The surpluses as a matrix, zero outside the table. */
    function Surpluses(): Matrix
      requires Valid()
    {
      (i: nat, j: nat) => if i < N() && j < N() then Surplus(i, j) else 0.0
    }

    /** A player's change before rounding: K_eff times the surplus against each other player. */
    function Delta(i: nat): real
      requires Valid() && i < N()
    {
      RowTo(KEff(), Surpluses(), i, N())
    }
  }
}
