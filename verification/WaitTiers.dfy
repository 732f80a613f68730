/** What waiting buys in rating pairing, in seconds and points: 100 points at first, 300 from
    30 seconds on, and 2^20 from 60 seconds on, so that nobody starves. */
module WaitTiers {
  import opened Ids
  import opened PlayerQueues
  import opened Pairing
  import opened GroupPick
  import opened PairingLoops
  import opened PairingEnds

  /** How long a queued player has waited; one without a recorded time counts as a minute. */
  function WaitOf(q: Queue, p: Id, now: int): int { if p in q.joined then now - q.joined[p] else 60 }

  /** Somebody in the queue has waited w seconds, and nobody longer. */
  ghost predicate LongestWait(q: Queue, now: int, w: int) {
    (forall p :: p in q.list ==> WaitOf(q, p, now) <= w) && exists p :: p in q.list && WaitOf(q, p, now) == w
  }

  lemma SeedWaitedLongest(pick: Chooser, q: Queue, size: nat, default: int, r: Round, w: int)
    requires 0 < size <= |q.list| && LongestWait(q, r.now, w)
    ensures var group := Choice(pick, q, size, default, r);
            Picked(CandsOf(q, r.ratings, default, r.now), size, group) && group[0].waited == w
  {
    var cands, group := CandsOf(q, r.ratings, default, r.now), Choice(pick, q, size, default, r);
    assert Picked(cands, size, group);
    assert group[0] in multiset(group) && group[0] in multiset(cands);
    var k :| 0 <= k < |cands| && cands[k] == group[0];
    assert WaitOf(q, q.list[k], r.now) <= w;
    var p :| p in q.list && WaitOf(q, p, r.now) == w;
    var j :| 0 <= j < |q.list| && q.list[j] == p;
    assert cands[j] in cands;
  }

  /** A pass with enough players defers the picked group exactly if its spread exceeds 100
      points while the longest wait is below 30 seconds, 300 points from 30 seconds on, and
      2^20 points from 60 seconds on. */
  lemma DeferredIff(pick: Chooser, s: Rate, size: nat, default: int, r: Round, w: int)
    requires 0 < size <= |s.q.list| && s.stop.Going? && r.reached && LongestWait(s.q, r.now, w)
    ensures var group := Choice(pick, s.q, size, default, r);
            && Picked(CandsOf(s.q, r.ratings, default, r.now), size, group)
            && (RateStep(pick, s, size, default, r).stop.Deferred? <==>
                  Spread(group) > if w < 30 then 100 else if w < 60 then 300 else 0x10_0000)
  {
    SeedWaitedLongest(pick, s.q, size, default, r, w);
  }

  lemma LongestExists(q: Queue, now: int, n: nat) returns (k: nat)
    requires 0 < n <= |q.list|
    ensures k < n && forall j :: 0 <= j < n ==> WaitOf(q, q.list[j], now) <= WaitOf(q, q.list[k], now)
  {
    if n == 1 { return 0; }
    k := LongestExists(q, now, n - 1);
    if WaitOf(q, q.list[n - 1], now) > WaitOf(q, q.list[k], now) { k := n - 1; }
  }

  /** Somebody in the queue has waited for a minute. */
  ghost predicate SomebodyPatient(q: Queue, now: int) { exists p :: p in q.list && WaitOf(q, p, now) >= 60 }

  /** A pass with enough players, one of whom has waited for a minute, takes a group unless
      ratings are more than 2^20 apart or the removal fails. */
  lemma PatientAreTaken(pick: Chooser, s: Rate, size: nat, default: int, r: Round)
    requires 0 < size <= |s.q.list| && s.stop.Going? && r.reached
    requires SomebodyPatient(s.q, r.now) && RatedWithin(s.q.list, r, default, 0x10_0000)
    ensures var s' := RateStep(pick, s, size, default, r);
            && !s'.stop.Deferred?
            && (r.taken ==> s'.stop.Going? && |s'.turns| == |s.turns| + 1 && |s'.turns[|s.turns|].players| == size)
  {
    var k := LongestExists(s.q, r.now, |s.q.list|);
    var p :| p in s.q.list && WaitOf(s.q, p, r.now) >= 60;
    var j :| 0 <= j < |s.q.list| && s.q.list[j] == p;
    assert WaitOf(s.q, s.q.list[j], r.now) <= WaitOf(s.q, s.q.list[k], r.now);
    var w := WaitOf(s.q, s.q.list[k], r.now);
    assert LongestWait(s.q, r.now, w);
    DeferredIff(pick, s, size, default, r, w);
    ChoiceWithin(pick, s.q, s.q.list, size, default, r, 0x10_0000);
  }

  /** So a run that ends in a deferral ends with nobody patient, or with ratings that far
      apart. */
  lemma {:induction false} DeferralMeansYoung(pick: Chooser, q: Queue, size: nat, default: int, rounds: seq<Round>)
    requires size > 0
    ensures var s := RateRun(pick, q, size, default, rounds);
            s.stop.Deferred? ==>
              !SomebodyPatient(s.q, s.stop.round.now) || !RatedWithin(s.q.list, s.stop.round, default, 0x10_0000)
  {
    if rounds != [] {
      var s, r := RateRun(pick, q, size, default, rounds[..|rounds| - 1]), rounds[|rounds| - 1];
      DeferralMeansYoung(pick, q, size, default, rounds[..|rounds| - 1]);
      if !RateEnded(s, size) && r.reached && SomebodyPatient(s.q, r.now) && RatedWithin(s.q.list, r, default, 0x10_0000) {
        PatientAreTaken(pick, s, size, default, r);
      }
    }
  }
}
