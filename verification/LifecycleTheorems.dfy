/** The main results about a match's life: statements about every state that any run
    reaches from the empty database, and about any two such states, one after the other. */
module LifecycleTheorems {
  import opened Common
  import opened Ids
  import opened EloApply
  import opened MatchDb
  import opened LifecycleModel
  import opened LifecycleRows
  import opened LifecycleClaims
  import opened LifecyclePorts
  import opened LifecycleRatings
  import opened LifecycleSafety

  // ---- ports -------------------------------------------------------------------------------

  /** On every host that is not deleted, whose VM is alive and where no owner was robbed,
      the starts in flight and the instances not yet released own disjoint sets of ports,
      all of them allocated there; and no host's list holds a duplicate or a port outside
      the range. */
  lemma PortOwnership(cfg: Config, s: State)
    requires cfg.Valid() && Reachable(cfg, s)
    ensures forall h :: h in s.db.hosts ==> NoDup(s.db.hosts[h].ports) && InRange(cfg, s.db.hosts[h].ports)
    ensures forall o, p :: Held(s, o).Some? && Good(s, Held(s, o).value.host) && p in Held(s, o).value.ports ==>
              p in s.db.hosts[Held(s, o).value.host].ports && cfg.portLo <= p <= cfg.portHi
    ensures forall o, o' :: o != o' && Held(s, o).Some? && Held(s, o').Some?
                            && Held(s, o).value.host == Held(s, o').value.host && Good(s, Held(s, o).value.host) ==>
              forall p :: p in Held(s, o).value.ports ==> p !in Held(s, o').value.ports
  {
    ReachableIsSafe(cfg, s);
  }

  /** Reconciliation frees the ports of a live host only if the provider listed its VMs
      before that host's VM was created; every other host it judges is dead, for good. */
  lemma StaleHostsAreDead(cfg: Config, s: State, w: nat)
    requires cfg.Valid() && Reachable(cfg, s) && w in s.work && s.work[w].Stale?
    ensures s.work[w].host in s.work[w].knew ==> s.work[w].host !in s.vms
  {
    ReachableIsSafe(cfg, s);
    StaleKnows(cfg, s, w);
  }

  // ---- results -------------------------------------------------------------------------------

  /** Every match has at most one result, which holds the committed verdict, and the ratings
      are exactly the committed results replayed in order: a result's rating update is in
      the database if and only if the result is. */
  lemma ExactlyOneResult(cfg: Config, s: State)
    requires cfg.Valid() && Reachable(cfg, s)
    ensures forall j, k :: 0 <= j < k < |s.commits| ==> s.commits[j].m != s.commits[k].m
    ensures forall m :: m in s.db.results <==> Recorded(s.commits, m)
    ensures forall k :: 0 <= k < |s.commits| ==> Stands(s.db, s.commits[k])
    ensures KnownMatches(s.made, s.commits) && s.db.ratings == Replay(cfg, s.made, s.commits)
  {
    ReachableIsSafe(cfg, s);
  }

  /** Whatever happens after, a result keeps its winners, its reason and its time, and the
      history of commits only grows. */
  lemma ResultsAreFinal(cfg: Config, s: State, s': State, m: nat)
    requires cfg.Valid() && Reachable(cfg, s) && Leads(cfg, s, s') && m in s.db.results
    ensures m in s'.db.results && SameVerdict(s.db.results[m], s'.db.results[m])
    ensures IsPrefix(s.commits, s'.commits)
  {
    ReachableIsSafe(cfg, s);
    LeadsEvolves(cfg, s, s');
  }

  /** The points in circulation in a queue never drift from the default by more than half a
      point per seat in matches of three or more registered players; two-player queues
      conserve exactly. */
  lemma RatingsDriftBounded(cfg: Config, s: State, q: nat, roll: seq<Id>)
    requires cfg.Valid() && Reachable(cfg, s) && q in cfg.rulesOf && cfg.rulesOf[q].Classic? && Enrolled(s.made, roll)
    ensures var total := Excess(QueueRows(s.db.ratings, q), roll, cfg.rulesOf[q].queue.defaultRating);
            0 - Seats(s.made, s.commits, q) <= 2 * total <= Seats(s.made, s.commits, q)
  {
    ReachableIsSafe(cfg, s);
    ReplayNearlyConserves(cfg, s.made, s.commits, q, roll);
  }

  // ---- lifecycle -----------------------------------------------------------------------------

  /** An instance that is cooling or being torn down serves exactly one match, whose result
      exists; so does the result of a match in cooldown and of a match whose row is gone; and
      a match is in cooldown as long as it has both a row and a result. */
  lemma LifecycleInvariant(cfg: Config, s: State)
    requires cfg.Valid() && Reachable(cfg, s)
    ensures forall i :: i in s.db.instances && !Untouched(s.db, i) ==> exists m :: Serves(s, i, m) && m in s.db.results
    ensures forall i, m, m' :: Serves(s, i, m) && Serves(s, i, m') ==> m == m'
    ensures forall m :: m in s.db.matches ==> (s.db.matches[m].status == InCooldown <==> m in s.db.results)
    ensures forall m :: m in s.made && m !in s.db.matches ==> m in s.db.results
  {
    ReachableIsSafe(cfg, s);
    TouchedHasResult(s);
  }

  /** Matches only move forward: cooldown never turns back, a deleted row never returns,
      and neither its instance nor its players ever change. */
  lemma MatchesMoveForward(cfg: Config, s: State, s': State, m: nat)
    requires cfg.Valid() && Reachable(cfg, s) && Leads(cfg, s, s') && m in s.made
    ensures m !in s.db.matches ==> m !in s'.db.matches
    ensures m in s.db.matches && m in s'.db.matches ==>
              && (s.db.matches[m].status == InCooldown ==> s'.db.matches[m].status == InCooldown)
              && SameMatch(s.db.matches[m], s'.db.matches[m])
  {
    ReachableIsSafe(cfg, s);
    LeadsEvolves(cfg, s, s');
    if m in s.db.matches { SameRow(s, s', m); }
  }

  /** An instance that is removed after its match's result exists stays removed. */
  lemma RemovedIsFinal(cfg: Config, s: State, s': State, i: nat, m: nat)
    requires cfg.Valid() && Reachable(cfg, s) && Leads(cfg, s, s')
    requires Serves(s, i, m) && m in s.db.results && i in s.db.instances && s.db.instances[i].status == Removed
    ensures i in s'.db.instances && s'.db.instances[i].status == Removed
  {
    ReachableIsSafe(cfg, s);
    var acts :| s' == Exec(cfg, s, acts);
    ExecRemovedStays(cfg, s, acts, m);
  }

  // ---- claims --------------------------------------------------------------------------------

  /** At most one worker is between winning a claim and its revert or finish; what it holds
      is never cooling, so nobody can claim it; and no instance's ports are released twice. */
  lemma ClaimsAreExclusive(cfg: Config, s: State)
    requires cfg.Valid() && Reachable(cfg, s)
    ensures forall w, w' :: w in s.work && w' in s.work && w != w' && Holder(s.work[w]).Some? ==>
              Holder(s.work[w]) != Holder(s.work[w'])
    ensures forall w :: w in s.work && Holder(s.work[w]).Some? ==> !ClaimTx(s.db, Holder(s.work[w]).value).1
    ensures NoDup(s.releases) && forall w :: w in s.work && Early(s.work[w]) ==> s.work[w].i !in s.releases
  {
    ReachableIsSafe(cfg, s);
  }

  /** A claim whose holder crashed before it was done is never taken up again: the instance
      never cools again, no sweep can claim it, and the match row, unless the holder had
      already deleted it, stays for good. */
  lemma CrashStrandsTheClaim(cfg: Config, s: State, w: nat, s': State)
    requires cfg.Valid() && Reachable(cfg, s) && w in s.work && Holder(s.work[w]).Some?
    requires Leads(cfg, Step(cfg, s, World(Crash(w))), s')
    ensures Stranded(s', Holder(s.work[w]).value, s.work[w].m) && !ClaimTx(s'.db, Holder(s.work[w]).value).1
    ensures s.work[w].m in s.db.matches ==> s.work[w].m in s'.db.matches
  {
    ReachableIsSafe(cfg, s);
    CrashStrands(cfg, s, w);
    StepKeepsSafe(cfg, s, World(Crash(w)));
    LeadsKeepsStranded(cfg, Step(cfg, s, World(Crash(w))), s', Holder(s.work[w]).value, s.work[w].m);
  }

  // ---- time ----------------------------------------------------------------------------------

  /** For the whole cooldown after its result, a match with an instance keeps its row, and
      with it the code that its game server authenticates with. */
  lemma RowOutlivesCooldown(cfg: Config, s: State, m: nat)
    requires cfg.Valid() && Reachable(cfg, s) && m in s.made && s.made[m].instance.Some?
    requires m in s.db.results ==> s.now < s.db.results[m].endedAt + cfg.cooldown
    ensures m in s.db.matches
  {
    ReachableIsSafe(cfg, s);
  }
}
