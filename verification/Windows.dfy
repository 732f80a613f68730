/** When a group that fits the window exists at all, and so when a deferral is right. */
module Windows {
  import opened Ids
  import opened Pairing

  // ---- the candidates of an interval -------------------------------------------------------------

  /** The candidates rated from lo to hi, in order. */
  function Within(cands: seq<Cand>, lo: int, hi: int): seq<Cand> {
    if cands == [] then []
    else
      Within(cands[..|cands| - 1], lo, hi)
      + if lo <= cands[|cands| - 1].rating <= hi then [cands[|cands| - 1]] else []
  }

  lemma {:induction false} WithinMeaning(cands: seq<Cand>, lo: int, hi: int)
    ensures forall c :: multiset(Within(cands, lo, hi))[c] == if lo <= c.rating <= hi then multiset(cands)[c] else 0
  {
    if cands != [] {
      var init, last := cands[..|cands| - 1], cands[|cands| - 1];
      WithinMeaning(init, lo, hi);
      assert cands == init + [last];
    }
  }

  /** A group drawn from the candidates and rated within the interval is no larger than it. */
  lemma GroupWithin(cands: seq<Cand>, lo: int, hi: int, g: seq<Cand>)
    requires multiset(g) <= multiset(cands) && forall c :: c in g ==> lo <= c.rating <= hi
    ensures |g| <= |Within(cands, lo, hi)|
  {
    WithinMeaning(cands, lo, hi);
    forall c ensures multiset(g)[c] <= multiset(Within(cands, lo, hi))[c] {
      if multiset(g)[c] > 0 { assert c in g; }
    }
    SmallerBag(multiset(Within(cands, lo, hi)), multiset(g));
  }

  // ---- groups from an interval ---------------------------------------------------------------------

  /** Bring one element of a list to its front. */
  function ToFront(s: seq<Cand>, k: nat): seq<Cand>
    requires k < |s|
  {
    [s[k]] + s[..k] + s[k + 1..]
  }

  lemma SameBagToFront(s: seq<Cand>, k: nat)
    requires k < |s|
    ensures multiset(ToFront(s, k)) == multiset(s) && |ToFront(s, k)| == |s| && ToFront(s, k)[0] == s[k]
  {
    assert s == s[..k] + [s[k]] + s[k + 1..];
  }

  lemma PrefixOfBag(s: seq<Cand>, n: nat)
    requires n <= |s|
    ensures multiset(s[..n]) <= multiset(s)
  {
    assert s == s[..n] + s[n..];
  }

  lemma DrawWithSeed(inside: seq<Cand>, size: nat, seed: Cand) returns (g: seq<Cand>)
    requires 0 < size <= |inside| && seed in inside
    ensures |g| == size && seed in g && multiset(g) <= multiset(inside)
  {
    var k :| 0 <= k < |inside| && inside[k] == seed;
    SameBagToFront(inside, k);
    g := ToFront(inside, k)[..size];
    PrefixOfBag(ToFront(inside, k), size);
    assert g[0] == seed;
  }

  lemma SpreadWithin(g: seq<Cand>, lo: int, hi: int)
    requires g != [] && forall c :: c in g ==> lo <= c.rating <= hi
    ensures Spread(g) <= hi - lo
  {
    RatingsBetween(g);
  }

  /** A group of the given size around the seed that fits the window. */
  ghost predicate Fitting(cands: seq<Cand>, size: nat, seed: Cand, window: int, g: seq<Cand>) {
    size > 0 && Alternative(cands, size, seed, g) && Spread(g) <= window
  }

  /** The interval of the window's width from lo on holds the seed's rating and enough
      candidates. */
  predicate Crowded(cands: seq<Cand>, size: nat, seed: Cand, window: int, lo: int) {
    lo <= seed.rating <= lo + window && |Within(cands, lo, lo + window)| >= size
  }

  lemma CrowdedFits(cands: seq<Cand>, size: nat, seed: Cand, window: int, lo: int) returns (g: seq<Cand>)
    requires size > 0 && seed in cands && Crowded(cands, size, seed, window, lo)
    ensures Fitting(cands, size, seed, window, g)
  {
    var inside := Within(cands, lo, lo + window);
    WithinMeaning(cands, lo, lo + window);
    assert seed in multiset(cands) && seed in multiset(inside);
    g := DrawWithSeed(inside, size, seed);
    forall c | c in g ensures lo <= c.rating <= lo + window {
      assert multiset(g)[c] > 0;
    }
    SpreadWithin(g, lo, lo + window);
    assert forall c :: multiset(g)[c] <= multiset(inside)[c] <= multiset(cands)[c];
  }

  lemma FittingIsCrowded(cands: seq<Cand>, size: nat, seed: Cand, window: int, g: seq<Cand>)
    requires Fitting(cands, size, seed, window, g)
    ensures Crowded(cands, size, seed, window, MinRating(g))
  {
    RatingsBetween(g);
    GroupWithin(cands, MinRating(g), MinRating(g) + window, g);
  }

  /** Around the seed there is a group of the given size and at most the given spread exactly
      if some interval of that width holds the seed's rating and enough candidates. */
  lemma FittingGroupIff(cands: seq<Cand>, size: nat, seed: Cand, window: int)
    requires size > 0 && seed in cands
    ensures (exists g :: Fitting(cands, size, seed, window, g)) <==> exists lo :: Crowded(cands, size, seed, window, lo)
  {
    if g :| Fitting(cands, size, seed, window, g) { FittingIsCrowded(cands, size, seed, window, g); }
    if lo :| Crowded(cands, size, seed, window, lo) { var g := CrowdedFits(cands, size, seed, window, lo); }
  }

  /** The loop defers this group's seed. */
  ghost predicate DefersGroup(cands: seq<Cand>, size: nat, group: seq<Cand>) {
    Picked(cands, size, group) && Spread(group) > RatingWindow(group[0].waited)
  }

  /** A deferral is right, no other group around the seed would have fitted either, exactly
      if no interval as wide as the window holds the seed's rating and enough candidates. */
  lemma DeferralIsRightIff(cands: seq<Cand>, size: nat, group: seq<Cand>)
    requires DefersGroup(cands, size, group)
    ensures var seed, window := group[0], RatingWindow(group[0].waited);
            (forall g :: !Fitting(cands, size, seed, window, g)) <==> forall lo :: !Crowded(cands, size, seed, window, lo)
  {
    assert group[0] in multiset(group) && group[0] in multiset(cands);
    FittingGroupIff(cands, size, group[0], RatingWindow(group[0].waited));
  }

  // ---- deferrals that are wrong ----------------------------------------------------------------------

  /** A seed that has waited longest, one candidate 60 below it, size - 2 that are 60 above,
      and one 61 above. */
  function Lopsided(ids: seq<Id>, size: nat): seq<Cand>
    requires |ids| == size + 1
  {
    seq(size + 1, k requires 0 <= k < size + 1 =>
      if k == 0 then Cand(ids[0], 0, 20) else Cand(ids[k], if k == 1 then -60 else if k < size then 60 else 61, 10))
  }

  /** Nobody nearer than the last candidate is left out. */
  lemma NearIsTaken(ids: seq<Id>, size: nat, group: seq<Cand>, n: nat)
    requires |ids| == size + 1 && 0 < n < size && Picked(Lopsided(ids, size), size, group)
    ensures group[0] == Lopsided(ids, size)[0] && Lopsided(ids, size)[n] in group
  {
    var cands := Lopsided(ids, size);
    assert group[0] in multiset(group) && group[0] in multiset(cands) && cands[0] in cands;
    var near, far, rest := cands[n], cands[size], cands[..n] + cands[n + 1..size];
    assert cands == cands[..n] + [near] + cands[n + 1..size] + [far];
    assert multiset(cands) == multiset(rest) + multiset{near} + multiset{far};
    if near !in group {
      FarIsLeftOut(cands, size, group, near, far);
      LeavesOutTwo(group, multiset(rest), near, far);
    }
  }

  lemma LeavesOutTwo(group: seq<Cand>, rest: multiset<Cand>, near: Cand, far: Cand)
    requires multiset(group) <= rest + multiset{near} + multiset{far} && near !in group && far !in group
    ensures |group| <= |rest|
  {
    forall c ensures multiset(group)[c] <= rest[c] {
      if c == near || c == far { assert multiset(group)[c] == 0; }
    }
    SmallerBag(rest, multiset(group));
  }

  lemma FarGroupFits(ids: seq<Id>, size: nat)
    requires |ids| == size + 1 && size >= 3
    ensures Fitting(Lopsided(ids, size), size, Lopsided(ids, size)[0], 100, [Lopsided(ids, size)[0]] + Lopsided(ids, size)[2..])
  {
    var cands := Lopsided(ids, size);
    var g := [cands[0]] + cands[2..];
    assert cands == [cands[0], cands[1]] + cands[2..];
    assert multiset(cands) == multiset{cands[1]} + multiset(g);
    assert g[0] == cands[0];
    forall c | c in g ensures 0 <= c.rating <= 61 {
      var k :| 0 <= k < |g| && g[k] == c;
      assert k > 0 ==> g[k] == cands[k + 1];
    }
    SpreadWithin(g, 0, 61);
  }

  /** For every size from three on, taking the nearest is not always best: this seed is
      deferred whatever the sorts do with ties, although another group around it fits its
      window. */
  lemma NearestIsNotBest(ids: seq<Id>, size: nat, group: seq<Cand>)
    requires |ids| == size + 1 && size >= 3 && Picked(Lopsided(ids, size), size, group)
    ensures DefersGroup(Lopsided(ids, size), size, group)
    ensures exists g :: Fitting(Lopsided(ids, size), size, group[0], RatingWindow(group[0].waited), g)
  {
    NearIsTaken(ids, size, group, 1);
    NearIsTaken(ids, size, group, 2);
    RatingsBetween(group);
    var low, high := Lopsided(ids, size)[1], Lopsided(ids, size)[2];
    assert low in group && high in group && low.rating == -60 && high.rating == 60;
    FarGroupFits(ids, size);
    assert Fitting(Lopsided(ids, size), size, group[0], RatingWindow(group[0].waited),
                   [Lopsided(ids, size)[0]] + Lopsided(ids, size)[2..]);
  }
}
