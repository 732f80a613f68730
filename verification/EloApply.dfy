/** ApplyClassicElo on the rating rows of one queue: the loops of the transaction, the
    function they compute, and what that function does to the rows. */
module EloApply {
  import opened Common
  import opened Ids
  import opened EloMath
  import opened EloTheorems

  /** Rating rows of one queue, by player. */
  type Rows = map<Id, int>

  datatype Queue = Queue(defaultRating: int, kFactor: int)

  // ---- specification ---------------------------------------------------------------

  /** Insert-or-skip for each player in turn. */
  function Created(rows: Rows, ids: seq<Id>, default: int): (r: Rows)
    ensures r.Keys == rows.Keys + (set p | p in ids)
    ensures forall p :: p in r ==> r[p] == if p in rows then rows[p] else default
  {
    if ids == [] then rows
    else
      var r := Created(rows, ids[..|ids| - 1], default);
      var p := ids[|ids| - 1];
      assert ids == ids[..|ids| - 1] + [p];
      if p in r then r else r[p := default]
  }

  function RatingsOf(rows: Rows, ids: seq<Id>): (r: seq<int>)
    requires forall p :: p in ids ==> p in rows
    ensures |r| == |ids|
  {
    seq(|ids|, i requires 0 <= i < |ids| => rows[ids[i]])
  }

  function WonFlags(winners: seq<Id>, ids: seq<Id>): (r: seq<bool>)
    ensures |r| == |ids|
  {
    seq(|ids|, i requires 0 <= i < |ids| => ids[i] in winners)
  }

  /** The ratings after the match, in table order. */
  function NewRatings(t: Table): (r: seq<int>)
    requires t.Valid()
    ensures |r| == t.N()
  {
    seq(t.N(), i requires 0 <= i < t.N() => t.ratings[i] + Round(t.Delta(i)))
  }

  /** The first n players' rows overwritten. */
  function Saved(rows: Rows, ids: seq<Id>, ratings: seq<int>, n: nat): (r: Rows)
    requires |ratings| == |ids| && n <= |ids|
  {
    if n == 0 then rows else Saved(rows, ids, ratings, n - 1)[ids[n - 1] := ratings[n - 1]]
  }

  /** The rows after a match between the given players, who are in sorted order. */
  function UpdateSorted(b: real, q: Queue, rows: Rows, ids: seq<Id>, won: seq<bool>): Rows
    requires b > 1.0 && |ids| == |won| >= 2
  {
    var created := Created(rows, ids, q.defaultRating);
    Saved(created, ids, NewRatings(Table(b, q.kFactor, RatingsOf(created, ids), won)), |ids|)
  }

  /** The rows after a finished match: fewer than two registered players change nothing. */
  function EloUpdate(b: real, q: Queue, rows: Rows, players: seq<Id>, winners: seq<Id>): Rows
    requires b > 1.0
  {
    var ids := Sort(NonGuests(players));
    if |ids| < 2 then rows else UpdateSorted(b, q, rows, ids, WonFlags(winners, ids))
  }

  // ---- the transaction's loops -----------------------------------------------------

  class RatingTable {
    var rows: Rows

    constructor (rows: Rows)
      ensures this.rows == rows
    {
      this.rows := rows;
    }
  }

  /** None of these players' statements is rejected. */
  ghost predicate Spared(rejected: Id -> bool, ids: seq<Id>) { forall p :: p in ids ==> !rejected(p) }

  lemma SparedNext(rejected: Id -> bool, ids: seq<Id>, i: nat)
    requires i < |ids|
    ensures Spared(rejected, ids[..i + 1]) <==> Spared(rejected, ids[..i]) && !rejected(ids[i])
    ensures rejected(ids[i]) ==> !Spared(rejected, ids)
  {
    assert ids[..i + 1] == ids[..i] + [ids[i]];
  }

  /** Which statements the database rejects, by player. */
  datatype DbFaults = DbFaults(create: Id -> bool, lock: Id -> bool, save: Id -> bool)
  {
    /** None of the statements for these players is rejected. */
    ghost predicate Spare(ids: seq<Id>) { Spared(create, ids) && Spared(lock, ids) && Spared(save, ids) }
  }

  method FilterGuests(players: seq<Id>) returns (ids: seq<Id>)
    ensures ids == NonGuests(players)
  {
    ids := [];
    for i := 0 to |players|
      invariant ids == NonGuests(players[..i])
    {
      assert players[..i + 1][..i] == players[..i];
      if !IsGuest(players[i]) { ids := ids + [players[i]]; }
    }
    assert players[..|players|] == players;
  }

  method SurplusOf(t: Table, i: nat, j: nat, s: real, e: real) returns (d: real)
    requires t.Valid() && i < t.N() && j < t.N()
    requires s == Score(t.won[i], t.won[j]) && e == Expected(t.b, t.ratings[i], t.ratings[j])
    ensures d == t.Surpluses()(i, j)
  {
    d := s - e;
  }

  method Weighted(c: real, ghost m: Matrix, i: nat, j: nat, d: real) returns (term: real)
    requires i != j && d == m(i, j)
    ensures RowTo(c, m, i, j + 1) == RowTo(c, m, i, j) + term
  {
    term := c * d;
  }

  /** One pair's contribution to player i: what column j adds to the row. */
  method PairTerm(t: Table, kEff: real, i: nat, j: nat) returns (term: real)
    requires t.Valid() && i < t.N() && j < t.N() && i != j
    ensures RowTo(kEff, t.Surpluses(), i, j + 1) == RowTo(kEff, t.Surpluses(), i, j) + term
  {
    var s: real;
    if t.won[i] && !t.won[j] {
      s := 1.0;
    } else if !t.won[i] && t.won[j] {
      s := 0.0;
    } else {
      s := 0.5;
    }
    var e := Expected(t.b, t.ratings[i], t.ratings[j]);
    var surplus := SurplusOf(t, i, j, s, e);
    term := Weighted(kEff, t.Surpluses(), i, j, surplus);
  }

  /** The inner loop: player i against everyone else, term by term. */
  method AccumulateRow(t: Table, kEff: real, deltas: array<real>, i: nat)
    requires t.Valid() && deltas.Length == t.N() && i < t.N() && deltas[i] == 0.0
    modifies deltas
    ensures deltas[i] == RowTo(kEff, t.Surpluses(), i, t.N())
    ensures forall k :: 0 <= k < t.N() && k != i ==> deltas[k] == old(deltas[k])
  {
    ghost var s: Matrix := t.Surpluses();
    for j := 0 to t.N()
      invariant forall k :: 0 <= k < t.N() && k != i ==> deltas[k] == old(deltas[k])
      invariant deltas[i] == RowTo(kEff, s, i, j)
    {
      if i != j {
        var term := PairTerm(t, kEff, i, j);
        deltas[i] := deltas[i] + term;
      }
    }
  }

  /** The outer loop over the players. */
  method AccumulateDeltas(t: Table, kEff: real) returns (deltas: array<real>)
    requires t.Valid()
    ensures deltas.Length == t.N() && fresh(deltas)
    ensures forall i: nat :: i < t.N() ==> deltas[i] == RowTo(kEff, t.Surpluses(), i, t.N())
  {
    var n := t.N();
    deltas := new real[n](_ => 0.0);
    for i := 0 to n
      invariant forall k: nat :: k < i ==> deltas[k] == RowTo(kEff, t.Surpluses(), k, n)
      invariant forall k: nat :: i <= k < n ==> deltas[k] == 0.0
    {
      AccumulateRow(t, kEff, deltas, i);
    }
  }

  lemma CreatedNext(rows: Rows, ids: seq<Id>, default: int, i: nat)
    requires i < |ids|
    ensures var r := Created(rows, ids[..i], default);
            Created(rows, ids[..i + 1], default) == if ids[i] in r then r else r[ids[i] := default]
  {
    assert ids[..i + 1][..i] == ids[..i];
  }

  /** First pass over the sorted players: insert a default row or skip. */
  method CreateRows(table: RatingTable, ids: seq<Id>, default: int, rejected: Id -> bool) returns (ok: bool)
    modifies table
    ensures ok ==> table.rows == Created(old(table.rows), ids, default)
    ensures ok <==> Spared(rejected, ids)
  {
    for i := 0 to |ids|
      invariant table.rows == Created(old(table.rows), ids[..i], default)
      invariant Spared(rejected, ids[..i])
    {
      SparedNext(rejected, ids, i);
      if rejected(ids[i]) { return false; }
      CreatedNext(old(table.rows), ids, default, i);
      if ids[i] !in table.rows {
        table.rows := table.rows[ids[i] := default];
      }
    }
    assert ids[..|ids|] == ids;
    ok := true;
  }

  /** Second pass: lock and read each row. */
  method LockRows(table: RatingTable, ids: seq<Id>, rejected: Id -> bool) returns (ok: bool, ratings: seq<int>)
    requires forall p :: p in ids ==> p in table.rows
    ensures ok ==> ratings == RatingsOf(table.rows, ids)
    ensures ok <==> Spared(rejected, ids)
  {
    ratings := [];
    for i := 0 to |ids|
      invariant Spared(rejected, ids[..i])
      invariant |ratings| == i && forall k :: 0 <= k < i ==> ratings[k] == table.rows[ids[k]]
    {
      SparedNext(rejected, ids, i);
      if rejected(ids[i]) { return false, ratings; }
      ratings := ratings + [table.rows[ids[i]]];
    }
    assert ids[..|ids|] == ids;
    ok := true;
  }

  /** The last loop: old rating plus rounded delta, row by row. */
  method SaveRows(table: RatingTable, ids: seq<Id>, ratings: seq<int>, deltas: seq<real>, rejected: Id -> bool,
                  ghost news: seq<int>)
    returns (ok: bool)
    requires |ids| == |ratings| == |news| == |deltas|
    requires forall i :: 0 <= i < |ids| ==> news[i] == ratings[i] + Round(deltas[i])
    modifies table
    ensures ok ==> table.rows == Saved(old(table.rows), ids, news, |ids|)
    ensures ok <==> Spared(rejected, ids)
  {
    for i := 0 to |ids|
      invariant Spared(rejected, ids[..i])
      invariant table.rows == Saved(old(table.rows), ids, news, i)
    {
      SparedNext(rejected, ids, i);
      if rejected(ids[i]) { return false; }
      table.rows := table.rows[ids[i] := ratings[i] + Round(deltas[i])];
    }
    assert ids[..|ids|] == ids;
    ok := true;
  }

  lemma SameMembers(a: seq<Id>, b: seq<Id>)
    requires multiset(a) == multiset(b)
    ensures forall p :: p in a <==> p in b
  {
    forall p ensures p in a <==> p in b {
      assert p in multiset(a) <==> p in a;
      assert p in multiset(b) <==> p in b;
    }
  }

  /** The whole update, run on the transaction's view of the rows; on false the caller
      rolls the transaction back. */
  method ApplyClassicElo(table: RatingTable, b: real, q: Queue, players: seq<Id>, winners: seq<Id>, faults: DbFaults)
    returns (ok: bool)
    requires b > 1.0
    modifies table
    ensures ok ==> table.rows == EloUpdate(b, q, old(table.rows), players, winners)
    ensures ok <==> |NonGuests(players)| < 2 || faults.Spare(NonGuests(players))
  {
    var nonGuests := FilterGuests(players);
    if |nonGuests| < 2 { return true; }
    var ids := Sort(nonGuests);
    SameMembers(ids, nonGuests);
    var won := WonFlags(winners, ids);

    ok := CreateRows(table, ids, q.defaultRating, faults.create);
    if !ok { return; }
    var ratings: seq<int>;
    ok, ratings := LockRows(table, ids, faults.lock);
    if !ok { return; }

    var t := Table(b, q.kFactor, ratings, won);
    var deltas := AccumulateDeltas(t, t.KEff());
    ok := SaveRows(table, ids, ratings, deltas[..], faults.save, NewRatings(t));
  }

  // ---- what the function does to the rows -------------------------------------------

  lemma SameSortedPlayers(players: seq<Id>, players': seq<Id>)
    requires multiset(players) == multiset(players')
    ensures Sort(NonGuests(players)) == Sort(NonGuests(players'))
  {
    forall p ensures multiset(NonGuests(players))[p] == multiset(NonGuests(players'))[p] {
      NonGuestsCount(players, p);
      NonGuestsCount(players', p);
    }
    SortedUnique(Sort(NonGuests(players)), Sort(NonGuests(players')));
  }

  lemma SameFlags(winners: seq<Id>, winners': seq<Id>, ids: seq<Id>)
    requires forall p :: p in winners <==> p in winners'
    ensures WonFlags(winners, ids) == WonFlags(winners', ids)
  {
  }

  /** The update does not depend on the order in which the players are listed, nor on how
      the winners are. */
  lemma UpdateIgnoresOrder(b: real, q: Queue, rows: Rows, players: seq<Id>, players': seq<Id>,
                           winners: seq<Id>, winners': seq<Id>)
    requires b > 1.0 && multiset(players) == multiset(players')
    requires forall p :: p in winners <==> p in winners'
    ensures EloUpdate(b, q, rows, players, winners) == EloUpdate(b, q, rows, players', winners')
  {
    SameSortedPlayers(players, players');
    SameFlags(winners, winners', Sort(NonGuests(players)));
  }

  /** Distinct players, as a match has. */
  lemma SortedNonGuests(players: seq<Id>)
    requires NoDup(players)
    ensures var ids := Sort(NonGuests(players));
            NoDup(ids) && forall p :: p in ids <==> p in players && !IsGuest(p)
  {
    var ids := Sort(NonGuests(players));
    forall p ensures multiset(ids)[p] == if IsGuest(p) then 0 else multiset(players)[p] {
      NonGuestsCount(players, p);
    }
    NoDupCounts(players);
    CountsNoDup(ids);
    forall p ensures p in ids <==> p in players && !IsGuest(p) {
      assert p in ids <==> multiset(ids)[p] > 0;
      assert p in players <==> multiset(players)[p] > 0;
    }
  }

  lemma {:induction false} NoDupCounts(s: seq<Id>)
    requires NoDup(s)
    ensures forall p :: multiset(s)[p] <= 1
  {
    if s != [] {
      var init := s[..|s| - 1];
      NoDupCounts(init);
      assert s == init + [s[|s| - 1]];
      assert s[|s| - 1] !in init;
    }
  }

  lemma CountsNoDup(s: seq<Id>)
    requires forall p :: multiset(s)[p] <= 1
    ensures NoDup(s)
  {
    forall i, j | 0 <= i < j < |s| ensures s[i] != s[j] {
      if s[i] == s[j] { TwiceCounts(s, i, j); }
    }
  }

  /** The table of a match: the registered players in sorted order, with the ratings they
      bring (the default for a newcomer). */
  ghost function MatchTable(b: real, q: Queue, rows: Rows, ids: seq<Id>, winners: seq<Id>): (t: Table)
    requires b > 1.0 && |ids| >= 2
    ensures t.Valid() && t.N() == |ids| && t.b == b && t.k == q.kFactor
    ensures forall i :: 0 <= i < |ids| ==> t.won[i] == (ids[i] in winners)
    ensures forall i :: 0 <= i < |ids| ==> t.ratings[i] == if ids[i] in rows then rows[ids[i]] else q.defaultRating
  {
    var created := Created(rows, ids, q.defaultRating);
    Table(b, q.kFactor, RatingsOf(created, ids), WonFlags(winners, ids))
  }

  /** Each listed player at old rating plus rounded delta, everyone else as before. */
  ghost predicate Rerated(t: Table, rows: Rows, ids: seq<Id>, r: Rows)
    requires t.Valid() && t.N() == |ids|
  {
    && r.Keys == rows.Keys + (set p | p in ids)
    && (forall i :: 0 <= i < |ids| ==> ids[i] in r && r[ids[i]] == t.ratings[i] + Round(t.Delta(i)))
    && (forall p :: p in rows && p !in ids ==> p in r && r[p] == rows[p])
  }

  lemma SortedUpdateByPlayer(b: real, q: Queue, rows: Rows, ids: seq<Id>, winners: seq<Id>)
    requires b > 1.0 && |ids| >= 2 && NoDup(ids)
    ensures Rerated(MatchTable(b, q, rows, ids, winners), rows, ids, UpdateSorted(b, q, rows, ids, WonFlags(winners, ids)))
  {
    var news := NewRatings(MatchTable(b, q, rows, ids, winners));
    var created := Created(rows, ids, q.defaultRating);
    SavedByPlayer(created, ids, news, |ids|);
    forall i | 0 <= i < |ids| ensures ids[i] in created {}
    assert ids[..|ids|] == ids;
  }

  /** Every registered player of the match ends at old rating (or the default) plus the
      rounded delta of its place in the table; everyone else's row is untouched, and guests
      get no row. */
  lemma UpdateByPlayer(b: real, q: Queue, rows: Rows, players: seq<Id>, winners: seq<Id>)
    requires b > 1.0 && NoDup(players) && |NonGuests(players)| >= 2
    ensures var ids := Sort(NonGuests(players));
            && (forall p :: p in ids <==> p in players && !IsGuest(p))
            && Rerated(MatchTable(b, q, rows, ids, winners), rows, ids, EloUpdate(b, q, rows, players, winners))
  {
    SortedNonGuests(players);
    SortedUpdateByPlayer(b, q, rows, Sort(NonGuests(players)), winners);
  }

  lemma {:induction false} SavedByPlayer(rows: Rows, ids: seq<Id>, ratings: seq<int>, n: nat)
    requires |ratings| == |ids| && n <= |ids| && NoDup(ids) && forall p :: p in ids ==> p in rows
    ensures var r := Saved(rows, ids, ratings, n);
            && r.Keys == rows.Keys
            && (forall i :: 0 <= i < n ==> r[ids[i]] == ratings[i])
            && (forall p :: p in rows && p !in ids[..n] ==> r[p] == rows[p])
  {
    if n > 0 { SavedByPlayer(rows, ids, ratings, n - 1); }
  }

  // ---- points in circulation ---------------------------------------------------------

  /** Points above the default rating held by the players of roll; without a row: none. */
  ghost function Excess(rows: Rows, roll: seq<Id>, default: int): int {
    if roll == [] then 0
    else Excess(rows, roll[..|roll| - 1], default)
         + if roll[|roll| - 1] in rows then rows[roll[|roll| - 1]] - default else 0
  }

  lemma {:induction false} ExcessCongruent(rows: Rows, rows': Rows, roll: seq<Id>, default: int)
    requires forall p :: p in roll ==> (if p in rows then rows[p] else default) == (if p in rows' then rows'[p] else default)
    ensures Excess(rows, roll, default) == Excess(rows', roll, default)
  {
    if roll != [] {
      ExcessCongruent(rows, rows', roll[..|roll| - 1], default);
      assert roll[|roll| - 1] in roll;
    }
  }

  /** Rewriting one row moves the total by that row's change. */
  lemma {:induction false} ExcessOfOneRow(rows: Rows, roll: seq<Id>, default: int, p: Id, v: int)
    requires NoDup(roll) && p in roll && p in rows
    ensures Excess(rows[p := v], roll, default) == Excess(rows, roll, default) + v - rows[p]
  {
    var init, last := roll[..|roll| - 1], roll[|roll| - 1];
    if last == p {
      forall x | x in init ensures x != p {}
      ExcessCongruent(rows, rows[p := v], init, default);
    } else {
      ExcessOfOneRow(rows, init, default, p, v);
    }
  }

  /** The differences of two lists of ratings, added up. */
  ghost function Difference(news: seq<int>, olds: seq<int>, n: nat): int
    requires n <= |news| && n <= |olds|
  {
    if n == 0 then 0 else Difference(news, olds, n - 1) + news[n - 1] - olds[n - 1]
  }

  lemma {:induction false} SavingMovesExcess(rows: Rows, ids: seq<Id>, news: seq<int>, n: nat, roll: seq<Id>, default: int)
    requires |news| == |ids| && n <= |ids| && NoDup(ids) && NoDup(roll)
    requires forall p :: p in ids ==> p in rows && p in roll
    ensures Excess(Saved(rows, ids, news, n), roll, default)
         == Excess(rows, roll, default) + Difference(news, RatingsOf(rows, ids), n)
  {
    if n > 0 {
      SavingMovesExcess(rows, ids, news, n - 1, roll, default);
      SavedByPlayer(rows, ids, news, n - 1);
      assert ids[n - 1] !in ids[..n - 1];
      ExcessOfOneRow(Saved(rows, ids, news, n - 1), roll, default, ids[n - 1], news[n - 1]);
    }
  }

  lemma {:induction false} DifferenceIsRoundedTotal(t: Table, n: nat)
    requires t.Valid() && n <= t.N()
    ensures Difference(NewRatings(t), t.ratings, n) == RoundedTotal(t, n)
  {
    if n > 0 { DifferenceIsRoundedTotal(t, n - 1); }
  }

  /** One match moves the points in circulation by at most half a point per registered
      player, and a match between two registered players not at all. */
  lemma UpdateNearlyConserves(b: real, q: Queue, rows: Rows, players: seq<Id>, winners: seq<Id>, roll: seq<Id>)
    requires b > 1.0 && NoDup(players) && NoDup(roll) && forall p :: p in players && !IsGuest(p) ==> p in roll
    ensures var change := Excess(EloUpdate(b, q, rows, players, winners), roll, q.defaultRating)
                          - Excess(rows, roll, q.defaultRating);
            var n := |NonGuests(players)|;
            && 0 - n <= 2 * change <= n
            && (n <= 2 ==> change == 0)
  {
    var ids := Sort(NonGuests(players));
    SortedNonGuests(players);
    if |ids| >= 2 {
      var created := Created(rows, ids, q.defaultRating);
      var t := MatchTable(b, q, rows, ids, winners);
      ExcessCongruent(rows, created, roll, q.defaultRating);
      SavingMovesExcess(created, ids, NewRatings(t), |ids|, roll, q.defaultRating);
      DifferenceIsRoundedTotal(t, |ids|);
      RoundedDeltasNearlyConserve(t);
    }
  }
}
