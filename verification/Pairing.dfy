/** Forming groups: first come first served, or by rating inside a window that widens with
    the wait. Starting a match either works, is refused with an error notice, or finds every
    host full, in which case the players are pushed back to the end of the queue. */
module Pairing {
  import opened Ids

  // ---- the rating window ---------------------------------------------------------------------

  const RATING_WINDOW_TIGHT: int := 100
  const RATING_WINDOW_LOOSE: int := 300
  const RATING_TIER_TIGHT: int := 30
  const RATING_TIER_LOOSE: int := 60

  /** The spread a player accepts after waiting that many seconds. */
  function RatingWindow(waited: int): int {
    if waited < RATING_TIER_TIGHT then RATING_WINDOW_TIGHT
    else if waited < RATING_TIER_LOOSE then RATING_WINDOW_LOOSE
    else 0x10_0000
  }

  // ---- candidates and groups -------------------------------------------------------------------

  datatype Cand = Cand(id: Id, rating: int, waited: int)

  function Dist(seed: Cand, c: Cand): nat {
    if c.rating < seed.rating then seed.rating - c.rating else c.rating - seed.rating
  }

  /** A queued player with no rating has the default one, and one with no recorded join time
      counts as having waited for the loosest tier. */
  function CandOf(p: Id, joined: map<Id, int>, ratings: map<Id, int>, default: int, now: int): Cand {
    Cand(p, if p in ratings then ratings[p] else default, if p in joined then now - joined[p] else RATING_TIER_LOOSE)
  }

  function MaxRating(g: seq<Cand>): int
    requires g != []
  {
    if |g| == 1 then g[0].rating
    else var m := MaxRating(g[..|g| - 1]); if g[|g| - 1].rating > m then g[|g| - 1].rating else m
  }

  function MinRating(g: seq<Cand>): int
    requires g != []
  {
    if |g| == 1 then g[0].rating
    else var m := MinRating(g[..|g| - 1]); if g[|g| - 1].rating < m then g[|g| - 1].rating else m
  }

  function Spread(g: seq<Cand>): int
    requires g != []
  {
    MaxRating(g) - MinRating(g)
  }

  lemma {:induction false} RatingsBetween(g: seq<Cand>)
    requires g != []
    ensures forall c :: c in g ==> MinRating(g) <= c.rating <= MaxRating(g)
    ensures exists c :: c in g && c.rating == MaxRating(g)
    ensures exists c :: c in g && c.rating == MinRating(g)
  {
    var init, last := g[..|g| - 1], g[|g| - 1];
    assert g == init + [last] && last in g;
    if |g| > 1 {
      RatingsBetween(init);
      var hi :| hi in init && hi.rating == MaxRating(init);
      var lo :| lo in init && lo.rating == MinRating(init);
      assert hi in g && lo in g;
    }
  }

  /** A group of the longest-waiting candidate and the others nearest to it in rating: nobody
      left out is nearer than somebody taken. */
  ghost predicate Picked(cands: seq<Cand>, size: nat, group: seq<Cand>) {
    && |group| == size > 0
    && multiset(group) <= multiset(cands)
    && (forall c :: c in cands ==> c.waited <= group[0].waited)
    && (forall x, c :: x in group[1..] && c in multiset(cands) - multiset(group) ==> Dist(group[0], x) <= Dist(group[0], c))
  }

  /** A group of the same size that contains the seed. */
  ghost predicate Alternative(cands: seq<Cand>, size: nat, seed: Cand, g: seq<Cand>) {
    |g| == size && multiset(g) <= multiset(cands) && seed in g
  }

  // ---- quality of the group ----------------------------------------------------------------------

  lemma SeedAndRest(group: seq<Cand>)
    requires group != []
    ensures multiset(group) == multiset{group[0]} + multiset(group[1..])
  {
    assert group == [group[0]] + group[1..];
  }

  lemma SmallerBag(a: multiset<Cand>, b: multiset<Cand>)
    requires b <= a
    ensures |b| <= |a| && (|a| == |b| ==> a == b)
  {
    assert a == b + (a - b);
  }

  /** Of two bags of one size, if one has more of something, the other has more of something
      else. */
  lemma SomethingElse(a: multiset<Cand>, b: multiset<Cand>, x: Cand) returns (y: Cand)
    requires |a| == |b| && b[x] < a[x]
    ensures a[y] < b[y]
  {
    if b <= a { SmallerBag(a, b); }
    y :| a[y] < b[y];
  }

  /** Any other group with the same seed has a member at least as far from the seed as any
      member of the picked one. */
  lemma FarMember(cands: seq<Cand>, size: nat, group: seq<Cand>, g: seq<Cand>, x: Cand) returns (y: Cand)
    requires Picked(cands, size, group) && Alternative(cands, size, group[0], g) && x in group[1..]
    ensures y in g && Dist(group[0], y) >= Dist(group[0], x)
  {
    SeedAndRest(group);
    var taken := multiset(group[1..]);
    var others := multiset(g) - multiset{group[0]};
    if others[x] >= taken[x] {
      assert x in others;
      y := x;
    } else {
      y := SomethingElse(taken, others, x);
      assert y in others;
      assert (multiset(cands) - multiset(group))[y] > 0;
    }
  }

  lemma WithinDistance(g: seq<Cand>, seed: Cand, d: nat)
    requires g != [] && forall c :: c in g ==> Dist(seed, c) <= d
    ensures Spread(g) <= 2 * d
  {
    RatingsBetween(g);
  }

  lemma SpreadCoversDistance(g: seq<Cand>, seed: Cand, y: Cand)
    requires seed in g && y in g
    ensures Dist(seed, y) <= Spread(g)
  {
    RatingsBetween(g);
  }

  /** The member farthest from the first. */
  lemma {:induction false} Farthest(group: seq<Cand>, n: nat) returns (k: nat)
    requires 0 < n <= |group|
    ensures k < n && forall j :: 0 <= j < n ==> Dist(group[0], group[j]) <= Dist(group[0], group[k])
  {
    if n == 1 { return 0; }
    k := Farthest(group, n - 1);
    if Dist(group[0], group[n - 1]) > Dist(group[0], group[k]) { k := n - 1; }
  }

  /** The picked group's spread is at most twice that of any group around the same seed, and
      in pairs it is the smallest there is. */
  lemma GroupQuality(cands: seq<Cand>, size: nat, group: seq<Cand>, g: seq<Cand>)
    requires Picked(cands, size, group) && Alternative(cands, size, group[0], g)
    ensures Spread(group) <= 2 * Spread(g)
    ensures size <= 2 ==> Spread(group) <= Spread(g)
  {
    var k := Farthest(group, size);
    var x := group[k];
    assert forall c :: c in group ==> Dist(group[0], c) <= Dist(group[0], x);
    WithinDistance(group, group[0], Dist(group[0], x));
    RatingsBetween(g);
    if k > 0 {
      assert x == group[1..][k - 1];
      var y := FarMember(cands, size, group, g, x);
      SpreadCoversDistance(g, group[0], y);
      if size == 2 { PairSpread(group); }
    }
    assert g[0] in g;
  }

  lemma PairSpread(group: seq<Cand>)
    requires |group| == 2
    ensures Spread(group) == Dist(group[0], group[1])
  {
    var one := group[..1];
    assert MaxRating(one) == group[0].rating && MinRating(one) == group[0].rating;
  }

  /** A candidate other than the seed. */
  ghost predicate Opponent(cands: seq<Cand>, seed: Cand, c: Cand) { c in multiset(cands) - multiset{seed} }

  lemma NearestOpponent(cands: seq<Cand>, group: seq<Cand>, c: Cand)
    requires Picked(cands, 2, group) && Opponent(cands, group[0], c)
    ensures Opponent(cands, group[0], group[1]) && Dist(group[0], group[1]) <= Dist(group[0], c)
  {
    SeedAndRest(group);
    assert group[1..] == [group[1]];
    if c != group[1] { assert c in multiset(cands) - multiset(group); }
  }

  /** No opponent is within the window. */
  ghost predicate NobodyNear(cands: seq<Cand>, seed: Cand, window: int) {
    forall c :: Opponent(cands, seed, c) ==> Dist(seed, c) > window
  }

  /** In pairs, the seed is deferred exactly if no opponent lies within its window. */
  lemma PairDeferredIff(cands: seq<Cand>, group: seq<Cand>)
    requires Picked(cands, 2, group)
    ensures Spread(group) > RatingWindow(group[0].waited) <==> NobodyNear(cands, group[0], RatingWindow(group[0].waited))
  {
    PairSpread(group);
    SeedAndRest(group);
    assert group[1..] == [group[1]];
    var window := RatingWindow(group[0].waited);
    assert Opponent(cands, group[0], group[1]);
    forall c | Opponent(cands, group[0], c) && Dist(group[0], group[1]) > window ensures Dist(group[0], c) > window {
      NearestOpponent(cands, group, c);
    }
  }

  /** Whoever is farther than somebody left out is left out. */
  lemma FarIsLeftOut(cands: seq<Cand>, size: nat, group: seq<Cand>, near: Cand, far: Cand)
    requires Picked(cands, size, group) && near in cands && near !in group
    requires far != group[0] && Dist(group[0], near) < Dist(group[0], far)
    ensures far !in group
  {
    SeedAndRest(group);
    assert near in multiset(cands) - multiset(group);
  }
}
