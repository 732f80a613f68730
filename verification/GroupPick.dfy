/** Choosing a group by rating: the candidates of a queue, the two sorts and the window. */
module GroupPick {
  import opened Common
  import opened Ids
  import opened PlayerQueues
  import opened Pairing

  // ---- candidates ------------------------------------------------------------------------------

  /** The candidates of a queue at one instant. */
  function CandsOf(q: Queue, ratings: map<Id, int>, default: int, now: int): (cands: seq<Cand>)
    ensures |cands| == |q.list| && forall k :: 0 <= k < |q.list| ==> cands[k] == CandOf(q.list[k], q.joined, ratings, default, now)
  {
    seq(|q.list|, k requires 0 <= k < |q.list| => CandOf(q.list[k], q.joined, ratings, default, now))
  }

  method Candidates(q: PlayerQueue, ratings: map<Id, int>, default: int, now: int) returns (cands: seq<Cand>)
    ensures cands == CandsOf(q.View(), ratings, default, now)
  {
    cands := [];
    for k := 0 to |q.list|
      invariant cands == CandsOf(q.View(), ratings, default, now)[..k]
    {
      var p := q.list[k];
      var rating := if p in ratings then ratings[p] else default;
      var waited := if p in q.joined then now - q.joined[p] else RATING_TIER_LOOSE;
      cands := cands + [Cand(p, rating, waited)];
    }
  }

  function IdsOf(group: seq<Cand>): (ids: seq<Id>)
    ensures |ids| == |group| && forall k :: 0 <= k < |group| ==> ids[k] == group[k].id
  {
    seq(|group|, k requires 0 <= k < |group| => group[k].id)
  }

  // ---- sorting -----------------------------------------------------------------------------------

  ghost predicate Sorted(s: seq<Cand>, key: Cand -> int) {
    forall i, j :: 0 <= i < j < |s| ==> key(s[i]) <= key(s[j])
  }

  function Insert(x: Cand, s: seq<Cand>, key: Cand -> int): seq<Cand> {
    if s == [] || key(x) <= key(s[0]) then [x] + s else [s[0]] + Insert(x, s[1..], key)
  }

  lemma {:induction false} InsertAdds(x: Cand, s: seq<Cand>, key: Cand -> int)
    ensures multiset(Insert(x, s, key)) == multiset(s) + multiset{x}
  {
    if s != [] {
      InsertAdds(x, s[1..], key);
      assert s == [s[0]] + s[1..];
    }
  }

  lemma {:induction false} InsertSorts(x: Cand, s: seq<Cand>, key: Cand -> int)
    requires Sorted(s, key)
    ensures Sorted(Insert(x, s, key), key)
  {
    if s != [] && key(x) > key(s[0]) {
      var rest := Insert(x, s[1..], key);
      InsertSorts(x, s[1..], key);
      InsertAdds(x, s[1..], key);
      forall k | 0 <= k < |rest| ensures key(s[0]) <= key(rest[k]) {
        assert rest[k] in multiset(rest);
        assert rest[k] == x || rest[k] in s[1..];
      }
    }
  }

  function SortedBy(c: seq<Cand>, key: Cand -> int): seq<Cand> {
    if c == [] then [] else Insert(c[|c| - 1], SortedBy(c[..|c| - 1], key), key)
  }

  lemma {:induction false} SortedByMeaning(c: seq<Cand>, key: Cand -> int)
    ensures Sorted(SortedBy(c, key), key) && multiset(SortedBy(c, key)) == multiset(c)
    ensures |SortedBy(c, key)| == |c|
  {
    if c != [] {
      var init, last := c[..|c| - 1], c[|c| - 1];
      SortedByMeaning(init, key);
      InsertSorts(last, SortedBy(init, key), key);
      InsertAdds(last, SortedBy(init, key), key);
      assert c == init + [last];
      assert |multiset(SortedBy(c, key))| == |multiset(c)|;
    }
  }

  /** Stands for the library sort. */
  method SortBy(c: seq<Cand>, key: Cand -> int) returns (s: seq<Cand>)
    ensures s == SortedBy(c, key)
  {
    s := [];
    for i := 0 to |c|
      invariant s == SortedBy(c[..i], key)
    {
      assert c[..i + 1][..i] == c[..i];
      s := Insert(c[i], s, key);
    }
    assert c[..|c|] == c;
  }

  // ---- the group ---------------------------------------------------------------------------------

  /** The loop over the group that finds its lowest and highest rating. */
  method Extremes(group: seq<Cand>) returns (lo: int, hi: int)
    requires group != []
    ensures lo == MinRating(group) && hi == MaxRating(group)
  {
    lo, hi := group[0].rating, group[0].rating;
    for i := 1 to |group|
      invariant lo == MinRating(group[..i]) && hi == MaxRating(group[..i])
    {
      assert group[..i + 1][..i] == group[..i];
      if group[i].rating < lo { lo := group[i].rating; }
      if group[i].rating > hi { hi := group[i].rating; }
    }
    assert group[..|group|] == group;
  }

  /** Sorted by distance from seed. */
  ghost predicate Outwards(others: seq<Cand>, seed: Cand) {
    forall i, j :: 0 <= i < j < |others| ==> Dist(seed, others[i]) <= Dist(seed, others[j])
  }

  ghost predicate AllNearer(seed: Cand, near: seq<Cand>, far: seq<Cand>) {
    forall x, c :: x in near && c in far ==> Dist(seed, x) <= Dist(seed, c)
  }

  lemma CutByDistance(others: seq<Cand>, seed: Cand, n: nat)
    requires Outwards(others, seed) && n <= |others|
    ensures AllNearer(seed, others[..n], others[n..])
  {
    forall x, c | x in others[..n] && c in others[n..] ensures Dist(seed, x) <= Dist(seed, c) {
      var i :| 0 <= i < n && others[..n][i] == x;
      var j :| 0 <= j < |others| - n && others[n..][j] == c;
      assert others[i] == x && others[n + j] == c;
    }
  }

  lemma NearestPicked(cands: seq<Cand>, seed: Cand, near: seq<Cand>, far: seq<Cand>)
    requires multiset(cands) == multiset{seed} + multiset(near) + multiset(far)
    requires (forall c :: c in cands ==> c.waited <= seed.waited) && AllNearer(seed, near, far)
    ensures Picked(cands, |near| + 1, [seed] + near)
  {
    var group := [seed] + near;
    assert multiset(group) == multiset{seed} + multiset(near);
    assert group[1..] == near;
    forall c | c in multiset(cands) - multiset(group) ensures c in far {
      assert c in multiset(far);
    }
  }

  /** Taking the first ones of the others, sorted by distance, picks a group. */
  lemma SortedPicks(cands: seq<Cand>, seed: Cand, others: seq<Cand>, size: nat)
    requires 0 < size && size - 1 <= |others| && multiset(cands) == multiset{seed} + multiset(others)
    requires (forall c :: c in cands ==> c.waited <= seed.waited) && Outwards(others, seed)
    ensures Picked(cands, size, [seed] + others[..size - 1])
  {
    var near, far := others[..size - 1], others[size - 1..];
    CutByDistance(others, seed, size - 1);
    assert multiset(others) == multiset(near) + multiset(far) by { assert others == near + far; }
    NearestPicked(cands, seed, near, far);
  }

  function Patience(c: Cand): int { 0 - c.waited }

  function DistFrom(seed: Cand): Cand -> int { (c: Cand) => Dist(seed, c) }

  /** The longest-waiting candidate and the size - 1 others nearest to it, with ties as one
      particular sort leaves them. */
  function Nearest(cands: seq<Cand>, size: nat): (group: seq<Cand>)
    ensures 0 < size <= |cands| ==> Picked(cands, size, group)
  {
    var byWait := SortedBy(cands, Patience);
    if !(0 < size <= |byWait|) then SortedByMeaning(cands, Patience); []
    else
      var others := SortedBy(byWait[1..], DistFrom(byWait[0]));
      NearestIsPicked(cands, size);
      [byWait[0]] + if size - 1 <= |others| then others[..size - 1] else []
  }

  lemma NearestIsPicked(cands: seq<Cand>, size: nat)
    requires 0 < size <= |SortedBy(cands, Patience)|
    ensures var byWait := SortedBy(cands, Patience);
            var others := SortedBy(byWait[1..], DistFrom(byWait[0]));
            size - 1 <= |others| && Picked(cands, size, [byWait[0]] + others[..size - 1])
  {
    var byWait := SortedBy(cands, Patience);
    SortedByMeaning(cands, Patience);
    var seed := byWait[0];
    forall c | c in cands ensures c.waited <= seed.waited {
      assert c in multiset(byWait);
      var k :| 0 <= k < |byWait| && byWait[k] == c;
      assert Patience(byWait[0]) <= Patience(byWait[k]);
    }
    var others := SortedBy(byWait[1..], DistFrom(seed));
    SortedByMeaning(byWait[1..], DistFrom(seed));
    SeedAndRest(byWait);
    forall i, j | 0 <= i < j < |others| ensures Dist(seed, others[i]) <= Dist(seed, others[j]) {
      assert DistFrom(seed)(others[i]) <= DistFrom(seed)(others[j]);
    }
    SortedPicks(cands, seed, others, size);
  }

  ghost predicate Chooses(pick: (seq<Cand>, nat) -> seq<Cand>) {
    forall cands, size :: 0 < size <= |cands| ==> Picked(cands, size, pick(cands, size))
  }

  /** Any way of resolving the sorts' ties. */
  type Chooser = pick: (seq<Cand>, nat) -> seq<Cand> | Chooses(pick) ghost witness Nearest

  /** The seed, its nearest others, and whether they fit the seed's window. */
  method PickGroup(cands: seq<Cand>, size: nat) returns (group: seq<Cand>, fits: bool)
    requires 0 < size <= |cands|
    ensures group == Nearest(cands, size) && Picked(cands, size, group)
    ensures fits <==> Spread(group) <= RatingWindow(group[0].waited)
  {
    SortedByMeaning(cands, Patience);
    NearestIsPicked(cands, size);
    var byWait := SortBy(cands, Patience);
    var seed := byWait[0];
    var others := SortBy(byWait[1..], DistFrom(seed));
    group := [seed] + others[..size - 1];
    var lo, hi := Extremes(group);
    fits := hi - lo <= RatingWindow(seed.waited);
  }

  // ---- the players of a group ----------------------------------------------------------------------

  /** A value that occurs once in a list does not occur twice in a list drawn from it. */
  lemma DrawnNoDup(cands: seq<Cand>, group: seq<Cand>)
    requires multiset(group) <= multiset(cands) && NoDup(IdsOf(cands))
    ensures NoDup(IdsOf(group)) && forall k :: 0 <= k < |group| ==> group[k] in cands
  {
    forall k | 0 <= k < |group| ensures group[k] in cands {
      assert group[k] in multiset(cands);
    }
    forall i, j | 0 <= i < j < |group| ensures group[i].id != group[j].id {
      AtMostOnce(cands, group[i]);
      if group[i] == group[j] {
        TwiceCounts(group, i, j);
      } else {
        var a :| 0 <= a < |cands| && cands[a] == group[i];
        var b :| 0 <= b < |cands| && cands[b] == group[j];
        assert IdsOf(cands)[a] != IdsOf(cands)[b];
      }
    }
  }

  lemma {:induction false} AtMostOnce(s: seq<Cand>, c: Cand)
    requires NoDup(IdsOf(s))
    ensures multiset(s)[c] <= 1
  {
    if s != [] {
      var init, last := s[..|s| - 1], s[|s| - 1];
      assert s == init + [last];
      forall i, j | 0 <= i < j < |init| ensures IdsOf(init)[i] != IdsOf(init)[j] {
        assert IdsOf(s)[i] != IdsOf(s)[j];
      }
      AtMostOnce(init, c);
      forall k | 0 <= k < |init| ensures init[k] != last {
        assert IdsOf(s)[k] != IdsOf(s)[|s| - 1];
      }
    }
  }

  /** Removing distinct queued players takes exactly them out of the list. */
  lemma {:induction false} OthersBag(list: seq<Id>, players: seq<Id>)
    requires NoDup(list) && NoDup(players) && forall p :: p in players ==> p in list
    ensures multiset(Others(list, players)) + multiset(players) == multiset(list)
  {
    OthersMeaning(list, players);
    OthersNoDup(list, players);
    forall p ensures (multiset(Others(list, players)) + multiset(players))[p] == multiset(list)[p] {
      Occurs(list, p);
      Occurs(players, p);
      Occurs(Others(list, players), p);
    }
  }

  lemma {:induction false} Occurs(s: seq<Id>, p: Id)
    requires NoDup(s)
    ensures multiset(s)[p] == if p in s then 1 else 0
  {
    if s != [] {
      Tail(s);
      Occurs(s[1..], p);
    }
  }

  /** The group that is picked from a queue consists of distinct queued players. */
  lemma PickedIds(q: Queue, ratings: map<Id, int>, default: int, now: int, size: nat, group: seq<Cand>)
    requires Agrees(q) && Picked(CandsOf(q, ratings, default, now), size, group)
    ensures NoDup(IdsOf(group)) && |IdsOf(group)| == size && forall p :: p in IdsOf(group) ==> p in q.list
  {
    var cands := CandsOf(q, ratings, default, now);
    assert IdsOf(cands) == q.list;
    DrawnNoDup(cands, group);
    forall p | p in IdsOf(group) ensures p in q.list {
      var k :| 0 <= k < |group| && IdsOf(group)[k] == p;
      var n :| 0 <= n < |cands| && cands[n] == group[k];
      assert IdsOf(cands)[n] == p;
    }
  }
}
