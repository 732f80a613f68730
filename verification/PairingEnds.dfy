/** When the rating loop ends: in general, for players of nearly the same rating, and for a
    single group while every host is full. */
module PairingEnds {
  import opened Common
  import opened Ids
  import opened PlayerQueues
  import opened Pairing
  import opened GroupPick
  import opened PairingLoops

  // ---- in general ----------------------------------------------------------------------------------

  /** This pass stops a loop that has a group waiting. */
  predicate Halts(pick: (seq<Cand>, nat) -> seq<Cand>, s: Rate, size: nat, default: int, r: Round) {
    |s.q.list| >= size && (!r.reached || !FitsWindow(Choice(pick, s.q, size, default, r)) || !r.taken)
  }

  /** Round k stops the loop. */
  predicate HaltsAt(pick: (seq<Cand>, nat) -> seq<Cand>, q: Queue, size: nat, default: int, rounds: seq<Round>, k: nat)
    requires k < |rounds|
  {
    Halts(pick, RateRun(pick, q, size, default, rounds[..k]), size, default, rounds[k])
  }

  lemma HaltEnds(pick: (seq<Cand>, nat) -> seq<Cand>, q: Queue, size: nat, default: int, rounds: seq<Round>, k: nat)
    requires k < |rounds| && HaltsAt(pick, q, size, default, rounds, k)
    ensures RateEnded(RateRun(pick, q, size, default, rounds), size)
  {
    assert rounds[..k + 1][..k] == rounds[..k];
    RateStays(pick, q, size, default, rounds, k + 1);
  }

  lemma {:induction false} StopHasCause(pick: (seq<Cand>, nat) -> seq<Cand>, q: Queue, size: nat, default: int, rounds: seq<Round>)
    returns (k: nat)
    requires !RateRun(pick, q, size, default, rounds).stop.Going?
    ensures k < |rounds| && HaltsAt(pick, q, size, default, rounds, k)
  {
    var n := |rounds| - 1;
    var init := rounds[..n];
    if RateRun(pick, q, size, default, init).stop.Going? {
      k := n;
    } else {
      k := StopHasCause(pick, q, size, default, init);
      assert init[..k] == rounds[..k];
    }
  }

  /** The rating loop has ended exactly when too few players are left, or in some round the
      queue could not be read, the group could not be taken, or the longest-waiting player's
      nearest group did not fit its window. */
  lemma RateEndsIff(pick: (seq<Cand>, nat) -> seq<Cand>, q: Queue, size: nat, default: int, rounds: seq<Round>)
    ensures RateEnded(RateRun(pick, q, size, default, rounds), size) <==>
              || |RateRun(pick, q, size, default, rounds).q.list| < size
              || exists k :: 0 <= k < |rounds| && HaltsAt(pick, q, size, default, rounds, k)
  {
    if !RateRun(pick, q, size, default, rounds).stop.Going? {
      var k := StopHasCause(pick, q, size, default, rounds);
    }
    if k :| 0 <= k < |rounds| && HaltsAt(pick, q, size, default, rounds, k) {
      HaltEnds(pick, q, size, default, rounds, k);
    }
  }

  // ---- one group, every host full -----------------------------------------------------------------------------

  /** Everybody in the queue joined at t. */
  ghost predicate AllSince(q: Queue, t: int) { forall p :: p in q.list ==> p in q.joined && q.joined[p] == t }

  /** How far apart these players' ratings are. */
  function SpreadOf(list: seq<Id>, ratings: map<Id, int>, default: int): int
    requires list != []
  {
    Spread(CandsOf(Queue(list, map[]), ratings, default, 0))
  }

  ghost predicate HasRating(g: seq<Cand>, r: int) { exists c :: c in g && c.rating == r }

  /** Every rating of g occurs in g'. */
  ghost predicate RatingsWithin(g: seq<Cand>, g': seq<Cand>) { forall c :: c in g ==> HasRating(g', c.rating) }

  lemma WithinBounds(g: seq<Cand>, g': seq<Cand>)
    requires g != [] && g' != [] && RatingsWithin(g, g')
    ensures MinRating(g') <= MinRating(g) && MaxRating(g) <= MaxRating(g')
  {
    RatingsBetween(g);
    RatingsBetween(g');
    var hi :| hi in g && hi.rating == MaxRating(g);
    var lo :| lo in g && lo.rating == MinRating(g);
    assert HasRating(g', hi.rating) && HasRating(g', lo.rating);
  }

  lemma SameSpread(g: seq<Cand>, g': seq<Cand>)
    requires g != [] && g' != [] && RatingsWithin(g, g') && RatingsWithin(g', g)
    ensures Spread(g) == Spread(g')
  {
    WithinBounds(g, g');
    WithinBounds(g', g);
  }

  lemma PlayersWithin(q: Queue, q': Queue, ratings: map<Id, int>, default: int, now: int, now': int)
    requires forall p :: p in q.list ==> p in q'.list
    ensures RatingsWithin(CandsOf(q, ratings, default, now), CandsOf(q', ratings, default, now'))
  {
    var g, g' := CandsOf(q, ratings, default, now), CandsOf(q', ratings, default, now');
    forall c | c in g ensures HasRating(g', c.rating) {
      var k :| 0 <= k < |g| && g[k] == c;
      assert q.list[k] in q'.list;
      var j :| 0 <= j < |q'.list| && q'.list[j] == q.list[k];
      assert g'[j] in g' && g'[j].rating == c.rating;
    }
  }

  /** The spread of a queue's candidates depends on the players alone. */
  lemma SpreadOfPlayers(q: Queue, list: seq<Id>, ratings: map<Id, int>, default: int, now: int)
    requires list != [] && multiset(q.list) == multiset(list)
    ensures q.list != [] && Spread(CandsOf(q, ratings, default, now)) == SpreadOf(list, ratings, default)
  {
    assert list[0] in multiset(q.list);
    forall p ensures p in q.list <==> p in list { assert p in multiset(q.list) <==> p in multiset(list); }
    PlayersWithin(q, Queue(list, map[]), ratings, default, now, 0);
    PlayersWithin(Queue(list, map[]), q, ratings, default, 0, now);
    SameSpread(CandsOf(q, ratings, default, now), CandsOf(Queue(list, map[]), ratings, default, 0));
  }

  lemma SameBagSpread(g: seq<Cand>, g': seq<Cand>)
    requires g != [] && g' != [] && multiset(g) == multiset(g')
    ensures Spread(g) == Spread(g')
  {
    forall c ensures c in g <==> c in g' { assert c in multiset(g) <==> c in multiset(g'); }
    SameSpread(g, g');
  }

  /** With exactly one group in the queue there is nothing to choose. */
  lemma OneGroupFitsIff(pick: Chooser, q: Queue, list: seq<Id>, default: int, r: Round, t: int)
    requires list != [] && multiset(q.list) == multiset(list) && |q.list| == |list| && AllSince(q, t)
    ensures FitsWindow(Choice(pick, q, |list|, default, r)) <==> SpreadOf(list, r.ratings, default) <= RatingWindow(r.now - t)
  {
    var cands := CandsOf(q, r.ratings, default, r.now);
    var group := Choice(pick, q, |list|, default, r);
    assert Picked(cands, |list|, group);
    SmallerBag(multiset(cands), multiset(group));
    SameBagSpread(group, cands);
    SpreadOfPlayers(q, list, r.ratings, default, r.now);
    SeedSince(q, r.ratings, default, r.now, t, group[0]);
  }

  lemma SeedSince(q: Queue, ratings: map<Id, int>, default: int, now: int, t: int, c: Cand)
    requires AllSince(q, t) && c in multiset(CandsOf(q, ratings, default, now))
    ensures c.waited == now - t
  {
    var cands := CandsOf(q, ratings, default, now);
    var k :| 0 <= k < |cands| && cands[k] == c;
    assert q.list[k] in q.list;
  }

  /** Since when everybody has waited before round k, if every round so far was a push-back. */
  function Since(t: int, rounds: seq<Round>, k: nat): int
    requires k <= |rounds|
  {
    if k == 0 then t else rounds[k - 1].now
  }

  /** In round k the one group fits the window of players who have waited since the last
      push-back. */
  predicate StillFits(list: seq<Id>, default: int, rounds: seq<Round>, t: int, k: nat)
    requires list != [] && k < |rounds|
  {
    SpreadOf(list, rounds[k].ratings, default) <= RatingWindow(rounds[k].now - Since(t, rounds, k))
  }

  /** The one group is still queued, and everybody has waited since the last round. */
  ghost predicate PushedBack(s: Rate, q: Queue, t: int) {
    s.stop.Going? && Agrees(s.q) && multiset(s.q.list) == multiset(q.list) && |s.q.list| == |q.list| && AllSince(s.q, t)
  }

  lemma PushBackStep(pick: Chooser, s: Rate, q: Queue, default: int, r: Round, t: int)
    requires q.list != [] && PushedBack(s, q, t) && r.Ok() && r.outcome.Full?
    ensures SpreadOf(q.list, r.ratings, default) <= RatingWindow(r.now - t) ==>
              PushedBack(RateStep(pick, s, |q.list|, default, r), q, r.now)
    ensures SpreadOf(q.list, r.ratings, default) > RatingWindow(r.now - t) ==>
              RateStep(pick, s, |q.list|, default, r).stop.Deferred?
  {
    OneGroupFitsIff(pick, s.q, q.list, default, r, t);
    var group := Choice(pick, s.q, |q.list|, default, r);
    assert Picked(CandsOf(s.q, r.ratings, default, r.now), |q.list|, group);
    PickedIds(s.q, r.ratings, default, r.now, |q.list|, group);
    TurnKeepsQueue(s.q, IdsOf(group), r);
    WholeGroup(s.q.list, IdsOf(group));
    SameSize(AfterTurn(s.q, IdsOf(group), r).list, s.q.list);
  }

  lemma SameSize(a: seq<Id>, b: seq<Id>)
    requires multiset(a) == multiset(b)
    ensures |a| == |b|
  {
    assert |multiset(a)| == |multiset(b)|;
  }

  lemma WholeGroup(list: seq<Id>, ids: seq<Id>)
    requires NoDup(list) && NoDup(ids) && |ids| == |list| && forall p :: p in ids ==> p in list
    ensures Others(list, ids) == [] && forall p :: p in list ==> p in ids
  {
    OthersBag(list, ids);
    assert |multiset(Others(list, ids)) + multiset(ids)| == |multiset(list)|;
    OthersMeaning(list, ids);
  }

  ghost predicate AllFit(list: seq<Id>, default: int, rounds: seq<Round>, t: int)
    requires list != []
  {
    forall k :: 0 <= k < |rounds| ==> StillFits(list, default, rounds, t, k)
  }

  lemma AllFitSnoc(list: seq<Id>, default: int, rounds: seq<Round>, t: int)
    requires list != [] && rounds != []
    ensures AllFit(list, default, rounds, t) <==>
              AllFit(list, default, rounds[..|rounds| - 1], t) && StillFits(list, default, rounds, t, |rounds| - 1)
    ensures Since(t, rounds, |rounds| - 1) == Since(t, rounds[..|rounds| - 1], |rounds| - 1)
  {
    var n := |rounds| - 1;
    forall k | 0 <= k < n ensures StillFits(list, default, rounds[..n], t, k) == StillFits(list, default, rounds, t, k) {}
  }

  lemma {:induction false} OneGroupRuns(pick: Chooser, q: Queue, default: int, rounds: seq<Round>, t: int)
    requires q.list != [] && Agrees(q) && AllSince(q, t)
    requires forall k :: 0 <= k < |rounds| ==> rounds[k].Ok() && rounds[k].outcome.Full?
    ensures AllFit(q.list, default, rounds, t) ==>
              PushedBack(RateRun(pick, q, |q.list|, default, rounds), q, Since(t, rounds, |rounds|))
    ensures !AllFit(q.list, default, rounds, t) ==> RateRun(pick, q, |q.list|, default, rounds).stop.Deferred?
  {
    if rounds != [] {
      var n := |rounds| - 1;
      OneGroupRuns(pick, q, default, rounds[..n], t);
      AllFitSnoc(q.list, default, rounds, t);
      if AllFit(q.list, default, rounds[..n], t) {
        PushBackStep(pick, RateRun(pick, q, |q.list|, default, rounds[..n]), q, default, rounds[n], Since(t, rounds, n));
      }
    }
  }

  /** When exactly one group queues, all from one time, and every attempt is turned away: the
      loop has ended exactly if in some round the group's spread was outside the window for
      the time since the last push-back. */
  lemma OneGroupEndsIff(pick: Chooser, q: Queue, default: int, rounds: seq<Round>, t: int)
    requires q.list != [] && Agrees(q) && AllSince(q, t)
    requires forall k :: 0 <= k < |rounds| ==> rounds[k].Ok() && rounds[k].outcome.Full?
    ensures RateEnded(RateRun(pick, q, |q.list|, default, rounds), |q.list|) <==>
              exists k :: 0 <= k < |rounds| && !StillFits(q.list, default, rounds, t, k)
  {
    OneGroupRuns(pick, q, default, rounds, t);
    assert AllFit(q.list, default, rounds, t) <==> forall k :: 0 <= k < |rounds| ==> StillFits(q.list, default, rounds, t, k);
  }

  // ---- two players ------------------------------------------------------------------------------------

  lemma TwoSpread(a: Id, b: Id, ratings: map<Id, int>, default: int)
    requires a in ratings && b in ratings && ratings[a] <= ratings[b]
    ensures SpreadOf([a, b], ratings, default) == ratings[b] - ratings[a]
  {
    var g := CandsOf(Queue([a, b], map[]), ratings, default, 0);
    PairSpread(g);
  }

  /** Two players who queue together. */
  function TwoQueued(a: Id, b: Id, t: int): Queue { Queue([a, b], map[a := t, b := t]) }

  function TurnedAway(now: int, ratings: map<Id, int>): Round { Round(true, [], true, Full, now, ratings) }

  /** Two players 200 points apart who have waited 40 seconds fit the loose window. Turned
      away and looked at again a second later they do not fit the tight one: the loop ends
      although every host stayed full, which first come, first served would not. */
  lemma PushBackEndsRating(pick: Chooser, a: Id, b: Id, default: int)
    requires a != b
    ensures var q := TwoQueued(a, b, 0);
            var rounds := [TurnedAway(40, map[a := 0, b := 200]), TurnedAway(41, map[a := 0, b := 200])];
            && !RateEnded(RateRun(pick, q, 2, default, rounds[..1]), 2)
            && RateEnded(RateRun(pick, q, 2, default, rounds), 2)
            && !FifoEnded(FifoRun(q, 2, rounds), 2)
  {
    var q := TwoQueued(a, b, 0);
    var ratings := map[a := 0, b := 200];
    var rounds := [TurnedAway(40, ratings), TurnedAway(41, ratings)];
    TwoSpread(a, b, ratings, default);
    OneGroupEndsIff(pick, q, default, rounds, 0);
    OneGroupEndsIff(pick, q, default, rounds[..1], 0);
    assert !StillFits(q.list, default, rounds, 0, 1);
    FifoEndsIff(q, 2, rounds);
    NobodyLeaves(q, 2, rounds);
    NoneServed(rounds);
  }

  lemma {:induction false} NoneServed(rounds: seq<Round>)
    requires forall k :: 0 <= k < |rounds| ==> rounds[k].outcome.Full?
    ensures Served(rounds) == 0
  {
    if rounds != [] { NoneServed(rounds[..|rounds| - 1]); }
  }

  /** Two players of the same rating are paired and turned away for as long as every host
      stays full, however long that is. */
  lemma EqualPlayersNeverEnd(pick: Chooser, a: Id, b: Id, default: int, rounds: seq<Round>)
    requires a != b
    requires forall k :: 0 <= k < |rounds| ==>
               rounds[k].Ok() && rounds[k].outcome.Full? && a in rounds[k].ratings && b in rounds[k].ratings
               && rounds[k].ratings[a] == rounds[k].ratings[b]
    ensures !RateEnded(RateRun(pick, TwoQueued(a, b, 0), 2, default, rounds), 2)
  {
    var q := TwoQueued(a, b, 0);
    OneGroupEndsIff(pick, q, default, rounds, 0);
    forall k | 0 <= k < |rounds| ensures StillFits(q.list, default, rounds, 0, k) {
      TwoSpread(a, b, rounds[k].ratings, default);
    }
  }

  // ---- players of nearly the same rating ------------------------------------------------------------------

  function RatingIn(p: Id, r: Round, default: int): int { if p in r.ratings then r.ratings[p] else default }

  /** In every round all players' ratings are within the tightest window of each other. */
  ghost predicate NearlyEqual(list: seq<Id>, rounds: seq<Round>, default: int) {
    forall k, a, b :: 0 <= k < |rounds| && a in list && b in list ==>
      RatingIn(a, rounds[k], default) - RatingIn(b, rounds[k], default) <= RATING_WINDOW_TIGHT
  }

  /** No two of the listed players are rated more than width apart. */
  ghost predicate RatedWithin(list: seq<Id>, r: Round, default: int, width: int) {
    forall a, b :: a in list && b in list ==> RatingIn(a, r, default) - RatingIn(b, r, default) <= width
  }

  lemma ChoiceWithin(pick: Chooser, q: Queue, first: seq<Id>, size: nat, default: int, r: Round, width: int)
    requires 0 < size <= |q.list| && forall p :: p in q.list ==> p in first
    requires RatedWithin(first, r, default, width)
    ensures Choice(pick, q, size, default, r) != [] && Spread(Choice(pick, q, size, default, r)) <= width
  {
    var cands, group := CandsOf(q, r.ratings, default, r.now), Choice(pick, q, size, default, r);
    assert Picked(cands, size, group);
    RatingsBetween(group);
    var hi :| hi in group && hi.rating == MaxRating(group);
    var lo :| lo in group && lo.rating == MinRating(group);
    assert hi in multiset(cands) && lo in multiset(cands);
    var i :| 0 <= i < |cands| && cands[i] == hi;
    var j :| 0 <= j < |cands| && cands[j] == lo;
    assert q.list[i] in first && q.list[j] in first;
    assert RatingIn(q.list[i], r, default) == hi.rating && RatingIn(q.list[j], r, default) == lo.rating;
  }

  lemma TightGroupFits(pick: Chooser, q: Queue, first: seq<Id>, size: nat, default: int, r: Round)
    requires 0 < size <= |q.list| && forall p :: p in q.list ==> p in first
    requires RatedWithin(first, r, default, RATING_WINDOW_TIGHT)
    ensures FitsWindow(Choice(pick, q, size, default, r))
  {
    ChoiceWithin(pick, q, first, size, default, r, RATING_WINDOW_TIGHT);
  }

  lemma StillQueuedFirst(s: Rate, first: Queue, p: Id)
    requires Accounted(s.q.list, s.turns, first.list) && p in s.q.list
    ensures p in first.list
  {
    assert p in multiset(s.q.list);
    assert p in multiset(first.list);
  }

  lemma {:induction false} TightCounts(pick: Chooser, q: Queue, size: nat, default: int, rounds: seq<Round>)
    requires size > 0 && Agrees(q) && NearlyEqual(q.list, rounds, default) && forall k :: 0 <= k < |rounds| ==> rounds[k].Ok()
    ensures var s := RateRun(pick, q, size, default, rounds);
            s.stop.Going? && Counted(|s.q.list|, s.turns, |q.list|, size, Served(rounds))
  {
    if rounds != [] {
      var init, last := rounds[..|rounds| - 1], rounds[|rounds| - 1];
      var s := RateRun(pick, q, size, default, init);
      TightCounts(pick, q, size, default, init);
      RateRunGood(pick, q, size, default, init);
      if |s.q.list| >= size {
        forall p | p in s.q.list ensures p in q.list { StillQueuedFirst(s, q, p); }
        TightGroupFits(pick, s.q, q.list, size, default, last);
        TightStep(pick, s, q, size, default, last, |q.list|, Served(init));
      }
    }
  }

  lemma TightStep(pick: Chooser, s: Rate, q: Queue, size: nat, default: int, r: Round, n: nat, served: nat)
    requires 0 < size <= |s.q.list| && s.stop.Going? && GoodRate(s, q, size, default) && r.Ok()
    requires FitsWindow(Choice(pick, s.q, size, default, r)) && Counted(|s.q.list|, s.turns, n, size, served)
    ensures var s' := RateStep(pick, s, size, default, r);
            s'.stop.Going? && Counted(|s'.q.list|, s'.turns, n, size, served + if r.outcome.Full? then 0 else 1)
  {
    var group := Choice(pick, s.q, size, default, r);
    assert Picked(CandsOf(s.q, r.ratings, default, r.now), size, group);
    PickedIds(s.q, r.ratings, default, r.now, size, group);
    TurnKeepsQueue(s.q, IdsOf(group), r);
    var left := AfterTurn(s.q, IdsOf(group), r).list;
    BagSize(left, if r.outcome.Full? then [] else IdsOf(group), s.q.list);
    CountedSnoc(|s.q.list|, |left|, s.turns, Turn(s.q, r, IdsOf(group)), n, size, served);
  }

  /** For players of nearly the same rating the rating loop ends exactly when first come,
      first served does while nobody leaves; in particular never while every host is full. */
  lemma NearlyEqualEndsIff(pick: Chooser, q: Queue, size: nat, default: int, rounds: seq<Round>)
    requires size > 0 && Agrees(q) && NearlyEqual(q.list, rounds, default)
    ensures RateEnded(RateRun(pick, q, size, default, rounds), size) <==>
              (exists k :: 0 <= k < |rounds| && !rounds[k].Ok()) || Served(rounds) >= |q.list| / size
  {
    if k :| 0 <= k < |rounds| && !rounds[k].Ok() {
      assert rounds[..k + 1][..k] == rounds[..k];
      RateStays(pick, q, size, default, rounds, k + 1);
    } else {
      var s := RateRun(pick, q, size, default, rounds);
      TightCounts(pick, q, size, default, rounds);
      TooFewIff(|q.list|, |s.q.list|, size, Departures(s.turns));
    }
  }
}
