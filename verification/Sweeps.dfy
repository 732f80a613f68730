/** The periodic sweeps, run by one worker with nobody interfering: what one pass over the
    rows achieves. */
module Sweeps {
  import opened Common
  import opened Ports
  import opened MatchDb
  import opened Teardown

  /** The rows of a query, in some order. */
  method Enumerate(rows: set<nat>) returns (listed: seq<nat>)
    ensures NoDup(listed) && forall x :: x in listed <==> x in rows
  {
    listed := [];
    var rest := rows;
    while rest != {}
      invariant NoDup(listed) && rest <= rows && forall x :: x in listed <==> x in rows && x !in rest
      decreases rest
    {
      var x :| x in rest;
      listed, rest := listed + [x], rest - {x};
    }
  }

  // ---- SweepCooledMatches ------------------------------------------------------------------

  /** Matches in the sweep's join: their instance is cooling, and their result is at least
      a cooldown old. */
  function ReadyMatches(cfg: Config, db: Db, now: int): set<nat> {
    set m | m in db.matches && db.matches[m].instance.Some? && db.matches[m].instance.value in db.instances
            && db.instances[db.matches[m].instance.value].status == Cooling
            && m in db.results && db.results[m].endedAt <= now - cfg.cooldown
  }

  /** Instance i cools for match m, and the cooldown is over since m's result. */
  ghost predicate CooldownOver(cfg: Config, db: Db, m: nat, i: nat, now: int) {
    && m in db.matches && db.matches[m].instance == Some(i) && i in db.instances && db.instances[i].status == Cooling
    && m in db.results && now - db.results[m].endedAt >= cfg.cooldown
  }

  lemma ReadyMeaning(cfg: Config, db: Db, now: int)
    ensures forall m :: m in ReadyMatches(cfg, db, now) <==> exists i :: CooldownOver(cfg, db, m, i, now)
  {
    forall m | m in ReadyMatches(cfg, db, now) ensures exists i :: CooldownOver(cfg, db, m, i, now) {
      assert CooldownOver(cfg, db, m, db.matches[m].instance.value, now);
    }
  }

  datatype SweepLuck = SweepLuck(fetched: nat -> bool, claimed: nat -> bool, tear: nat -> TearLuck)

  /** No two match rows share an instance. */
  ghost predicate OneMatchEach(db: Db) {
    forall m, m' :: m in db.matches && m' in db.matches && m != m' && db.matches[m].instance.Some? ==>
      db.matches[m].instance != db.matches[m'].instance
  }

  /** Match m after the sweep has claimed its instance: torn down, as far as the transactions
      went through, if its container stopped or the force deadline has passed since its
      result; and else as if it had not been touched, unless the claim could not be undone. */
  ghost predicate SweptRight(cfg: Config, before: Db, after: Db, m: nat, now: int, luck: TearLuck)
    requires m in before.matches && m in before.results && before.matches[m].instance.Some?
  {
    var i := before.matches[m].instance.value;
    && i in before.instances && i in after.instances && m in after.results
    && after.results[m].winners == before.results[m].winners && after.results[m].reason == before.results[m].reason
    && after.results[m].endedAt == before.results[m].endedAt
    && if luck.stopped || now - before.results[m].endedAt >= cfg.forceDeadline
       then (m in after.matches <==> !luck.finalized)
            && (m in after.matches ==> after.matches[m] == before.matches[m])
            && after.instances[i] == before.instances[i].(status := if luck.marked then Removed else TearingDown)
       else m in after.matches && after.matches[m] == before.matches[m]
            && after.instances[i] == before.instances[i].(status := if luck.reverted then Cooling else TearingDown)
  }

  /** Match m, its instance and its result are as they were. */
  ghost predicate SameRows(before: Db, after: Db, m: nat)
    requires m in before.matches && before.matches[m].instance.Some?
  {
    && m in after.matches && after.matches[m] == before.matches[m]
    && (m in before.results ==> m in after.results && after.results[m] == before.results[m])
    && (before.matches[m].instance.value in before.instances ==>
          && before.matches[m].instance.value in after.instances
          && after.instances[before.matches[m].instance.value] == before.instances[before.matches[m].instance.value])
  }

  /** Only instance i, match m and its result may have changed. */
  ghost predicate OthersKept(before: Db, after: Db, i: nat, m: nat) {
    && (forall k :: k in before.instances && k != i ==> k in after.instances && after.instances[k] == before.instances[k])
    && (forall k :: k in before.matches && k != m ==> k in after.matches && after.matches[k] == before.matches[k])
    && (forall k :: k in before.results && k != m ==> k in after.results && after.results[k] == before.results[k])
    && after.instances.Keys == before.instances.Keys && after.matches.Keys <= before.matches.Keys
    && after.ratings == before.ratings
  }

  lemma StatusKeepsOthers(before: Db, db: Db, i: nat, m: nat, status: InstanceStatus)
    requires OthersKept(before, db, i, m)
    ensures OthersKept(before, SetInstanceStatusTx(db, i, status), i, m)
  {
  }

  lemma FinalizeKeepsOthers(before: Db, db: Db, i: nat, m: nat, logsKey: string, artifacts: Option<seq<string>>)
    requires OthersKept(before, db, i, m)
    ensures OthersKept(before, FinalizeTx(db, m, logsKey, artifacts), i, m)
  {
  }

  /** A teardown touches no other instance, match or result, however it turns out. */
  lemma TeardownKeepsOthers(before: Db, db: Db, i: nat, m: nat, force: bool, luck: TearLuck)
    requires OthersKept(before, db, i, m) && i in db.instances
    ensures OthersKept(before, TornDown(db, i, m, force, luck), i, m)
  {
    if !luck.stopped && !force {
      StatusKeepsOthers(before, db, i, m, Cooling);
    } else {
      var freed := if luck.freed then FreeTx(db, db.instances[i].host, db.instances[i].ports) else db;
      assert OthersKept(before, freed, i, m);
      var marked := if luck.marked then SetInstanceStatusTx(freed, i, Removed) else freed;
      StatusKeepsOthers(before, freed, i, m, Removed);
      FinalizeKeepsOthers(before, marked, i, m, luck.logsKey, luck.artifacts);
    }
  }

  /** One entry of the sweep: claim, decide, tear down. */
  function SweptOne(cfg: Config, db: Db, m: nat, now: int, luck: SweepLuck): Db
    requires m in ReadyMatches(cfg, db, now)
  {
    var i := db.matches[m].instance.value;
    if !luck.fetched(m) || !luck.claimed(m) then db
    else TornDown(ClaimTx(db, i).0, i, m, now - db.results[m].endedAt >= cfg.forceDeadline, luck.tear(m))
  }

  method SweepOne(db: Database, cfg: Config, m: nat, now: int, luck: SweepLuck)
    requires m in ReadyMatches(cfg, db.View(), now)
    modifies db
    ensures db.View() == SweptOne(cfg, old(db.View()), m, now, luck)
  {
    if !luck.fetched(m) { return; }
    var i := db.matches[m].instance.value;
    var endedAt := db.results[m].endedAt;
    var claimed := db.ClaimCooldownInstance(i, luck.claimed(m));
    if !claimed { return; }
    var force := now - endedAt >= cfg.forceDeadline;
    TeardownCooledMatch(db, i, m, force, luck.tear(m));
  }

  /** The entry of match m is read and its claim is not rejected. */
  predicate Reached(luck: SweepLuck, m: nat) { luck.fetched(m) && luck.claimed(m) }

  lemma SweptOneIsRight(cfg: Config, db: Db, m: nat, now: int, luck: SweepLuck)
    requires m in ReadyMatches(cfg, db, now)
    ensures Reached(luck, m) ==> SweptRight(cfg, db, SweptOne(cfg, db, m, now, luck), m, now, luck.tear(m))
    ensures !Reached(luck, m) ==> SweptOne(cfg, db, m, now, luck) == db
  {
  }

  lemma SweptOneKeepsOthers(cfg: Config, db: Db, m: nat, now: int, luck: SweepLuck)
    requires m in ReadyMatches(cfg, db, now)
    ensures OthersKept(db, SweptOne(cfg, db, m, now, luck), db.matches[m].instance.value, m)
  {
    var i := db.matches[m].instance.value;
    StatusKeepsOthers(db, db, i, m, TearingDown);
    TeardownKeepsOthers(db, ClaimTx(db, i).0, i, m, now - db.results[m].endedAt >= cfg.forceDeadline, luck.tear(m));
  }

  /** Where the pass stands when the matches in done have been dealt with. */
  ghost predicate SweptSoFar(cfg: Config, before: Db, after: Db, done: set<nat>, now: int, luck: SweepLuck)
    requires done <= ReadyMatches(cfg, before, now)
  {
    && (forall m :: m in done && Reached(luck, m) ==> SweptRight(cfg, before, after, m, now, luck.tear(m)))
    && (forall m :: m in before.matches && !(m in done && Reached(luck, m)) && before.matches[m].instance.Some? ==>
          SameRows(before, after, m))
  }

  lemma SweepAdvances(cfg: Config, before: Db, mid: Db, after: Db, done: set<nat>, m: nat, now: int, luck: SweepLuck)
    requires OneMatchEach(before) && done <= ReadyMatches(cfg, before, now) && m in ReadyMatches(cfg, before, now) && m !in done
    requires SweptSoFar(cfg, before, mid, done, now, luck) && OthersKept(mid, after, before.matches[m].instance.value, m)
    requires if Reached(luck, m) then SweptRight(cfg, mid, after, m, now, luck.tear(m)) else after == mid
    ensures SweptSoFar(cfg, before, after, done + {m}, now, luck)
  {
    assert SameRows(before, mid, m);
  }

  /** One pass: every match whose cooldown was over when the pass began, and whose entry could
      be read and claimed, is torn down unless its container refuses to stop before the force
      deadline; every other match is untouched. */
  method SweepCooledMatches(db: Database, cfg: Config, now: int, luck: SweepLuck)
    requires OneMatchEach(db.View())
    modifies db
    ensures forall m, i :: CooldownOver(cfg, old(db.View()), m, i, now) && luck.fetched(m) && luck.claimed(m) ==>
              SweptRight(cfg, old(db.View()), db.View(), m, now, luck.tear(m))
    ensures forall m :: m in old(db.matches) && old(db.matches)[m].instance.Some?
                        && !(CooldownOver(cfg, old(db.View()), m, old(db.matches)[m].instance.value, now)
                             && luck.fetched(m) && luck.claimed(m)) ==>
              SameRows(old(db.View()), db.View(), m)
  {
    ghost var was := db.View();
    var entries := Enumerate(ReadyMatches(cfg, Db(db.hosts, db.instances, db.matches, db.results, db.ratings), now));
    ghost var done: set<nat> := {};
    for k := 0 to |entries|
      invariant forall j :: 0 <= j < |entries| ==> entries[j] in ReadyMatches(cfg, was, now)
      invariant done <= ReadyMatches(cfg, was, now) && (forall m :: m in done <==> m in entries[..k])
      invariant SweptSoFar(cfg, was, db.View(), done, now, luck)
    {
      ghost var mid := db.View();
      assert SameRows(was, mid, entries[k]);
      SweptOneKeepsOthers(cfg, mid, entries[k], now, luck);
      SweptOneIsRight(cfg, mid, entries[k], now, luck);
      SweepOne(db, cfg, entries[k], now, luck);
      SweepAdvances(cfg, was, mid, db.View(), done, entries[k], now, luck);
      done := done + {entries[k]};
    }
    assert done == ReadyMatches(cfg, was, now);
    ReadyMeaning(cfg, was, now);
  }

  // ---- ReconcileLiveHosts and ReconcileOrphanedInstances ----------------------------------------

  function ReadyHosts(hosts: map<nat, Host>): set<nat> { set h | h in hosts && hosts[h].status == Ready }

  /** Which transactions go through, by host or by instance; a failure is logged and passed
      over. read: the provider's list, or the query, could be had at all. */
  datatype FixLuck = FixLuck(read: bool, freed: nat -> bool, marked: nat -> bool)

  function FixedHost(host: Host, h: nat, luck: FixLuck): Host {
    Host(if luck.marked(h) then Gone else host.status, if luck.freed(h) then [] else host.ports, host.maxSlots)
  }

  /** Every ready host that the provider did not list loses its ports and is marked deleted,
      as far as the two transactions go through; nothing else is touched. */
  method ReconcileLiveHosts(db: Database, live: set<nat>, luck: FixLuck) returns (ok: bool)
    modifies db
    ensures ok == luck.read
    ensures db.hosts.Keys == old(db.hosts).Keys
    ensures forall h :: h in old(db.hosts) ==>
              db.hosts[h] == if ok && old(db.hosts)[h].status == Ready && h !in live
                             then Host(if luck.marked(h) then Gone else Ready, if luck.freed(h) then [] else old(db.hosts)[h].ports,
                                       old(db.hosts)[h].maxSlots)
                             else old(db.hosts)[h]
    ensures db.instances == old(db.instances) && db.matches == old(db.matches)
    ensures db.results == old(db.results) && db.ratings == old(db.ratings)
  {
    if !luck.read { return false; }
    ghost var was := db.hosts;
    var listed := Enumerate(ReadyHosts(db.hosts));
    for k := 0 to |listed|
      invariant db.hosts.Keys == was.Keys
      invariant forall h :: h in was ==>
                  db.hosts[h] == if h in listed[..k] && h !in live then FixedHost(was[h], h, luck) else was[h]
      invariant db.instances == old(db.instances) && db.matches == old(db.matches)
      invariant db.results == old(db.results) && db.ratings == old(db.ratings)
    {
      var h := listed[k];
      assert h in listed;
      if h in live { continue; }
      WithoutAll(was[h].ports, was[h].ports);
      var _ := db.FreePorts(h, db.hosts[h].ports, luck.freed(h));
      db.SetHostStatus(h, Gone, luck.marked(h));
    }
    assert listed[..|listed|] == listed;
    ok := true;
  }

  /** The instance's host is marked deleted. */
  ghost predicate OffDuty(db: Db, inst: Instance) { inst.host in db.hosts && db.hosts[inst.host].status == Gone }

  function Orphans(db: Db): set<nat> {
    set i | i in db.instances && db.instances[i].status != Removed
            && db.instances[i].host in db.hosts && db.hosts[db.instances[i].host].status == Gone
  }

  /** The database after the orphaned instance i is dealt with. */
  function FixedOrphan(db: Db, i: nat, luck: FixLuck): Db
    requires i in db.instances
  {
    var freed := if luck.freed(i) then FreeTx(db, db.instances[i].host, db.instances[i].ports) else db;
    if luck.marked(i) then SetInstanceStatusTx(freed, i, Removed) else freed
  }

  ghost predicate InstancesFixed(before: map<nat, Instance>, after: map<nat, Instance>, done: set<nat>, luck: FixLuck) {
    && after.Keys == before.Keys
    && forall i :: i in before ==> after[i] == if i in done && luck.marked(i) then before[i].(status := Removed) else before[i]
  }

  ghost predicate HostsFixed(before: Db, after: map<nat, Host>, done: set<nat>, luck: FixLuck)
    requires done <= Orphans(before)
  {
    && after.Keys == before.hosts.Keys
    && (forall h :: h in before.hosts ==>
          && after[h].status == before.hosts[h].status
          && (forall p :: p in after[h].ports ==> p in before.hosts[h].ports)
          && (before.hosts[h].status != Gone ==> after[h] == before.hosts[h]))
    && (forall i, p :: i in done && luck.freed(i) && p in before.instances[i].ports ==> p !in after[before.instances[i].host].ports)
  }

  /** The instances in done are removed and their ports freed, as far as that went through;
      everything off deleted hosts is as it was. */
  ghost predicate OrphansFixed(before: Db, after: Db, done: set<nat>, luck: FixLuck)
    requires done <= Orphans(before)
  {
    && InstancesFixed(before.instances, after.instances, done, luck) && HostsFixed(before, after.hosts, done, luck)
    && after.matches == before.matches && after.results == before.results && after.ratings == before.ratings
  }

  lemma FreeFixesHosts(before: Db, after: Db, done: set<nat>, i: nat, luck: FixLuck)
    requires done <= Orphans(before) && HostsFixed(before, after.hosts, done, luck) && i in Orphans(before)
    ensures var host, ports := before.instances[i].host, before.instances[i].ports;
            HostsFixed(before, if luck.freed(i) then FreeTx(after, host, ports).hosts else after.hosts, done + {i}, luck)
  {
    var host := before.instances[i].host;
    WithoutMeaning(after.hosts[host].ports, before.instances[i].ports);
  }

  lemma MarkFixesInstances(before: map<nat, Instance>, after: map<nat, Instance>, done: set<nat>, i: nat, luck: FixLuck)
    requires InstancesFixed(before, after, done, luck) && i in before && i in after
    ensures InstancesFixed(before, if luck.marked(i) then after[i := after[i].(status := Removed)] else after, done + {i}, luck)
  {
  }

  lemma FixedOrphanRows(db: Db, i: nat, luck: FixLuck)
    requires i in db.instances
    ensures var db', inst := FixedOrphan(db, i, luck), db.instances[i];
            && db'.hosts == (if luck.freed(i) then FreeTx(db, inst.host, inst.ports).hosts else db.hosts)
            && db'.instances == (if luck.marked(i) then db.instances[i := inst.(status := Removed)] else db.instances)
            && db'.matches == db.matches && db'.results == db.results && db'.ratings == db.ratings
  {
  }

  lemma FixOne(before: Db, after: Db, done: set<nat>, i: nat, luck: FixLuck)
    requires done <= Orphans(before) && i in Orphans(before) && i in after.instances && OrphansFixed(before, after, done, luck)
    ensures OrphansFixed(before, FixedOrphan(after, i, luck), done + {i}, luck)
  {
    FixedOrphanRows(after, i, luck);
    SameHostAndPorts(before.instances, after.instances, done, i, luck);
    FreeFixesHosts(before, after, done, i, luck);
    MarkFixesInstances(before.instances, after.instances, done, i, luck);
  }

  lemma SameHostAndPorts(before: map<nat, Instance>, after: map<nat, Instance>, done: set<nat>, i: nat, luck: FixLuck)
    requires InstancesFixed(before, after, done, luck) && i in before && i in after
    ensures after[i].host == before[i].host && after[i].ports == before[i].ports
  {
  }

  /** Every instance on a deleted host is removed and its ports are freed there, as far as
      the transactions go through; no other instance, and no host that is not deleted, is
      touched. */
  method ReconcileOrphanedInstances(db: Database, luck: FixLuck) returns (ok: bool)
    modifies db
    ensures ok == luck.read
    ensures ok ==> OrphansFixed(old(db.View()), db.View(), Orphans(old(db.View())), luck)
    ensures ok ==> forall i :: i in old(db.instances) ==>
              && i in db.instances
              && db.instances[i] == if OffDuty(old(db.View()), old(db.instances)[i]) && luck.marked(i)
                                    then old(db.instances)[i].(status := Removed) else old(db.instances)[i]
    ensures !ok ==> db.View() == old(db.View())
  {
    if !luck.read { return false; }
    ghost var was := db.View();
    var listed := Enumerate(Orphans(Db(db.hosts, db.instances, db.matches, db.results, db.ratings)));
    ghost var done: set<nat> := {};
    for k := 0 to |listed|
      invariant forall j :: 0 <= j < |listed| ==> listed[j] in Orphans(was)
      invariant done <= Orphans(was) && (forall i :: i in done <==> i in listed[..k])
      invariant OrphansFixed(was, db.View(), done, luck)
    {
      var i := listed[k];
      FixOne(was, db.View(), done, i, luck);
      done := done + {i};
      FixInstance(db, i, luck);
    }
    assert done == Orphans(was);
    ok := true;
  }

  method FixInstance(db: Database, i: nat, luck: FixLuck)
    requires i in db.instances
    modifies db
    ensures db.View() == FixedOrphan(old(db.View()), i, luck)
  {
    var inst := db.instances[i];
    var _ := db.FreePorts(inst.host, inst.ports, luck.freed(i));
    db.SetInstanceStatus(i, Removed, luck.marked(i));
  }

  /** One tick of the worker does both, in this order, and thereby clears both halves: no
      ready host is missing at the provider, and nothing is left on a deleted host, save
      where a transaction failed. */
  method ReconcileTick(db: Database, live: set<nat>, hosts: FixLuck, instances: FixLuck)
    modifies db
    ensures hosts.read ==> forall h :: h in db.hosts && db.hosts[h].status == Ready && h !in live ==> !hosts.marked(h)
    ensures instances.read ==>
              forall i :: i in db.instances && OffDuty(db.View(), db.instances[i]) && instances.marked(i) ==> db.instances[i].status == Removed
    ensures hosts.read && instances.read ==>
              forall i :: i in old(db.instances) && instances.marked(i) && old(db.instances)[i].host in old(db.hosts)
                          && old(db.hosts)[old(db.instances)[i].host].status == Ready && old(db.instances)[i].host !in live
                          && hosts.marked(old(db.instances)[i].host) ==>
                i in db.instances && db.instances[i].status == Removed
    ensures db.matches == old(db.matches) && db.results == old(db.results) && db.ratings == old(db.ratings)
  {
    var _ := ReconcileLiveHosts(db, live, hosts);
    var _ := ReconcileOrphanedInstances(db, instances);
  }
}
