/** Keeping enough container slots warm: the slot count, the deletion of idle hosts and the
    provisioning loop, each run with nobody interfering. */
module WarmPool {
  import opened Common
  import opened MatchDb
  import opened MatchFlow

  // ---- counting slots ----------------------------------------------------------------------------

  /** The container slots left on a host. */
  function FreeSlots(db: Db, h: nat): nat
    requires h in db.hosts
  {
    var left := db.hosts[h].maxSlots - |ActiveOn(db, h)|;
    if left > 0 then left else 0
  }

  function Slots(db: Db, listed: seq<nat>): nat
    requires forall h :: h in listed ==> h in db.hosts
  {
    if listed == [] then 0 else Slots(db, listed[..|listed| - 1]) + FreeSlots(db, listed[|listed| - 1])
  }

  method CountAvailableSlots(db: Database, listed: seq<nat>, counted: nat -> bool) returns (total: Option<int>)
    requires ListsReady(db.View(), listed)
    ensures total.Some? <==> forall h :: h in listed ==> counted(h)
    ensures total.Some? ==> total.value == Slots(db.View(), listed)
  {
    var sum := 0;
    for k := 0 to |listed|
      invariant sum == Slots(db.View(), listed[..k])
      invariant forall j :: 0 <= j < k ==> counted(listed[j])
    {
      assert listed[..k + 1][..k] == listed[..k];
      var h := listed[k];
      assert h in listed;
      if !counted(h) { return None; }
      var active := ActiveOn(Db(db.hosts, db.instances, db.matches, db.results, db.ratings), h);
      var left := db.hosts[h].maxSlots - |active|;
      if left > 0 { sum := sum + left; }
    }
    assert listed[..|listed|] == listed;
    total := Some(sum);
  }

  // ---- the count does not depend on the order of the rows ------------------------------------------

  function Drop(listed: seq<nat>, k: nat): seq<nat>
    requires k < |listed|
  {
    listed[..k] + listed[k + 1..]
  }

  lemma {:induction false} SlotsConcat(db: Db, a: seq<nat>, b: seq<nat>)
    requires forall h :: h in a || h in b ==> h in db.hosts
    ensures Slots(db, a + b) == Slots(db, a) + Slots(db, b)
    decreases |b|
  {
    if b == [] {
      assert a + b == a;
    } else {
      SlotsConcat(db, a, b[..|b| - 1]);
      assert (a + b)[..|a + b| - 1] == a + b[..|b| - 1];
    }
  }

  lemma DropMeaning(listed: seq<nat>, k: nat)
    requires k < |listed| && NoDup(listed)
    ensures NoDup(Drop(listed, k))
    ensures forall h :: h in Drop(listed, k) <==> h in listed && h != listed[k]
  {
    assert listed == listed[..k] + [listed[k]] + listed[k + 1..];
    forall j | 0 <= j < |Drop(listed, k)| ensures Drop(listed, k)[j] == listed[if j < k then j else j + 1] {}
  }

  lemma SlotsDrop(db: Db, listed: seq<nat>, k: nat)
    requires k < |listed| && forall h :: h in listed ==> h in db.hosts
    ensures forall h :: h in Drop(listed, k) ==> h in db.hosts
    ensures Slots(db, listed) == Slots(db, Drop(listed, k)) + FreeSlots(db, listed[k])
  {
    var front, back := listed[..k], listed[k + 1..];
    assert listed == front + [listed[k]] + back;
    SlotsConcat(db, front + [listed[k]], back);
    SlotsConcat(db, front, [listed[k]]);
    SlotsConcat(db, front, back);
    var one := [listed[k]];
    assert one[..0] == [];
    assert Slots(db, one) == FreeSlots(db, listed[k]);
  }

  lemma {:induction false} SlotsIgnoresOrder(db: Db, a: seq<nat>, b: seq<nat>)
    requires NoDup(a) && NoDup(b) && (forall h :: h in a <==> h in b) && forall h :: h in a ==> h in db.hosts
    ensures Slots(db, a) == Slots(db, b)
    decreases |a|
  {
    assert b != [] ==> b[0] in b;
    if a != [] {
      var last := a[|a| - 1];
      assert last in a;
      var k :| 0 <= k < |b| && b[k] == last;
      DropMeaning(a, |a| - 1);
      DropMeaning(b, k);
      SlotsDrop(db, a, |a| - 1);
      SlotsDrop(db, b, k);
      SlotsIgnoresOrder(db, Drop(a, |a| - 1), Drop(b, k));
    }
  }

  lemma {:induction false} SlotsFrame(db: Db, db': Db, listed: seq<nat>)
    requires forall h :: h in listed ==> h in db.hosts && h in db'.hosts && db.hosts[h].maxSlots == db'.hosts[h].maxSlots
    requires db.instances == db'.instances
    ensures Slots(db, listed) == Slots(db', listed)
  {
    if listed != [] {
      SlotsFrame(db, db', listed[..|listed| - 1]);
      var h := listed[|listed| - 1];
      assert h in listed && ActiveOn(db, h) == ActiveOn(db', h);
    }
  }

  /** A start takes one slot of its host, if it had one, and none of any other. */
  lemma StartTakesOneSlot(cfg: Config, before: Db, after: Db, i: nat, m: nat, job: Job, newHost: nat, row: Host, now: int, h: nat)
    requires AddsOneMatch(cfg, before, after, i, m, job, newHost, row, now) && h in before.hosts
    ensures h in after.hosts && after.hosts[h].maxSlots == before.hosts[h].maxSlots
    ensures FreeSlots(after, h) == FreeSlots(before, h) - if after.instances[i].host == h && FreeSlots(before, h) > 0 then 1 else 0
  {
    OneMoreActive(before, after, i, h);
  }

  // ---- tryDeleteIdleHost --------------------------------------------------------------------------

  datatype ReapLuck = ReapLuck(counted: bool, slotsCounted: nat -> bool, marked: bool)

  /** A deleted host was idle; and if a warm pool is kept, the slots that remain are enough,
      or are as many as before. */
  method TryDeleteIdleHost(db: Database, listed: seq<nat>, h: nat, warmSlots: int, luck: ReapLuck) returns (deleted: bool)
    requires ListsReady(db.View(), listed) && h in db.hosts
    modifies db
    ensures !deleted ==> db.View() == old(db.View())
    ensures deleted ==> ActiveOn(old(db.View()), h) == {} && db.View() == SetHostStatusTx(old(db.View()), h, Gone)
    ensures deleted && warmSlots > 0 ==>
              forall after :: ListsReady(db.View(), after) ==>
                Slots(db.View(), after) >= warmSlots || Slots(db.View(), after) == Slots(old(db.View()), listed)
    ensures luck.counted && (forall k :: luck.slotsCounted(k)) && luck.marked && !deleted ==>
              ActiveOn(db.View(), h) != {} || Slots(db.View(), listed) - db.hosts[h].maxSlots < warmSlots
  {
    if !luck.counted { return false; }
    var active := ActiveOn(Db(db.hosts, db.instances, db.matches, db.results, db.ratings), h);
    if |active| > 0 { return false; }
    if warmSlots > 0 {
      var available := CountAvailableSlots(db, listed, luck.slotsCounted);
      if available.None? { return false; }
      if available.value - db.hosts[h].maxSlots < warmSlots { return false; }
    }
    if !luck.marked { return false; }
    ghost var was := db.View();
    db.SetHostStatus(h, Gone, true);
    forall after | ListsReady(db.View(), after) && warmSlots > 0
      ensures Slots(db.View(), after) >= warmSlots || Slots(db.View(), after) == Slots(was, listed)
    {
      SlotsAfterDeletion(was, h, listed, after);
    }
    deleted := true;
  }

  /** Deleting an idle host takes its own slots out of the count and no others. */
  lemma SlotsAfterDeletion(db: Db, h: nat, listed: seq<nat>, after: seq<nat>)
    requires h in db.hosts && ListsReady(db, listed) && ActiveOn(db, h) == {}
    requires ListsReady(SetHostStatusTx(db, h, Gone), after)
    ensures Slots(SetHostStatusTx(db, h, Gone), after)
         == Slots(db, listed) - if db.hosts[h].status == Ready && db.hosts[h].maxSlots > 0 then db.hosts[h].maxSlots else 0
  {
    var db' := SetHostStatusTx(db, h, Gone);
    SlotsFrame(db, db', after);
    if h in listed {
      var k :| 0 <= k < |listed| && listed[k] == h;
      DropMeaning(listed, k);
      SlotsDrop(db, listed, k);
      SlotsIgnoresOrder(db, Drop(listed, k), after);
    } else {
      SlotsIgnoresOrder(db, listed, after);
    }
  }

  // ---- MaintainWarmPool ------------------------------------------------------------------------------

  datatype PoolLuck = PoolLuck(counted: nat -> bool, hostsCounted: bool, provisioned: nat -> bool, readied: nat -> bool)

  /** Instance rows refer to host rows. */
  ghost predicate HostsExist(db: Db) { forall i :: i in db.instances ==> db.instances[i].host in db.hosts }

  /** The fresh identifiers the database will generate. */
  ghost predicate FreshIds(db: Db, newHost: nat -> nat) {
    && (forall k :: newHost(k) !in db.hosts)
    && forall j, k :: 0 <= j < k ==> newHost(j) != newHost(k)
  }

  function WithReadyHost(db: Db, h: nat, maxSlots: int): Db { db.(hosts := db.hosts[h := Host(Ready, [], maxSlots)]) }

  lemma ReadyHostListed(db: Db, h: nat, maxSlots: int, listed: seq<nat>)
    requires HostsExist(db) && h !in db.hosts && ListsReady(db, listed)
    ensures ListsReady(WithReadyHost(db, h, maxSlots), listed + [h]) && HostsExist(WithReadyHost(db, h, maxSlots))
  {
  }

  lemma ReadyHostCounts(db: Db, h: nat, maxSlots: int)
    requires h !in db.hosts
    ensures |LiveHosts(WithReadyHost(db, h, maxSlots))| == |LiveHosts(db)| + 1
  {
    assert LiveHosts(WithReadyHost(db, h, maxSlots)) == LiveHosts(db) + {h};
  }

  lemma NewHostIsEmpty(db: Db, h: nat, maxSlots: int)
    requires HostsExist(db) && h !in db.hosts
    ensures FreeSlots(WithReadyHost(db, h, maxSlots), h) == if maxSlots > 0 then maxSlots else 0
  {
    assert ActiveOn(WithReadyHost(db, h, maxSlots), h) == {};
  }

  lemma ReadyHostAdds(db: Db, h: nat, maxSlots: int, listed: seq<nat>)
    requires HostsExist(db) && h !in db.hosts && forall x :: x in listed ==> x in db.hosts
    ensures Slots(WithReadyHost(db, h, maxSlots), listed + [h]) == Slots(db, listed) + (if maxSlots > 0 then maxSlots else 0)
  {
    var db', both := WithReadyHost(db, h, maxSlots), listed + [h];
    SlotsFrame(db, db', listed);
    NewHostIsEmpty(db, h, maxSlots);
    assert both[..|both| - 1] == listed && both[|both| - 1] == h;
  }

  /** Only fresh hosts were added, with the fleet's slots and no ports. */
  ghost predicate Grown(before: Db, after: Db, newHost: nat -> nat, k: nat, maxSlots: int) {
    && (forall h :: h in before.hosts ==> h in after.hosts && after.hosts[h] == before.hosts[h])
    && (forall h :: h in after.hosts && h !in before.hosts ==>
          && after.hosts[h].ports == [] && after.hosts[h].maxSlots == maxSlots
          && exists j :: 0 <= j < k && newHost(j) == h)
    && after.instances == before.instances && after.matches == before.matches
    && after.results == before.results && after.ratings == before.ratings
  }

  /** Creates the row and marks it ready; the second step can fail. */
  method ProvisionPoolHost(db: Database, h: nat, maxSlots: int, readied: bool)
    requires h !in db.hosts
    modifies db
    ensures db.View() == old(db.View()).(hosts := old(db.hosts)[h := Host(if readied then Ready else Provisioning, [], maxSlots)])
  {
    db.hosts := db.hosts[h := Host(Provisioning, [], maxSlots)];
    db.SetHostStatus(h, Ready, readied);
  }

  lemma GrownMore(before: Db, mid: Db, newHost: nat -> nat, k: nat, maxSlots: int, status: HostStatus)
    requires Grown(before, mid, newHost, k, maxSlots) && FreshIds(before, newHost)
    ensures newHost(k) !in mid.hosts
    ensures Grown(before, mid.(hosts := mid.hosts[newHost(k) := Host(status, [], maxSlots)]), newHost, k + 1, maxSlots)
  {
    var h := newHost(k);
    assert h !in mid.hosts;
    var after := mid.(hosts := mid.hosts[h := Host(status, [], maxSlots)]);
    forall x | x in after.hosts && x !in before.hosts ensures exists j :: 0 <= j < k + 1 && newHost(j) == x {
      if x != h {
        var j :| 0 <= j < k && newHost(j) == x;
      }
    }
  }

  /** Provisions hosts until the target is met or the cap is reached. The loop ends by itself:
      every round adds a host that counts against the cap. */
  method MaintainWarmPool(db: Database, fleet: Fleet, warmSlots: int, listed: seq<nat>, newHost: nat -> nat, luck: PoolLuck)
    returns (ok: bool, ghost now: seq<nat>, ghost rounds: nat)
    requires ListsReady(db.View(), listed) && HostsExist(db.View()) && FreshIds(db.View(), newHost)
    modifies db
    ensures warmSlots <= 0 ==> ok && db.View() == old(db.View())
    ensures ok && warmSlots > 0 ==>
              ListsReady(db.View(), now)
              && (Slots(db.View(), now) >= warmSlots || |LiveHosts(db.View())| >= fleet.maxHosts)
    ensures Grown(old(db.View()), db.View(), newHost, rounds, fleet.maxSlots)
    // no host is added that is not needed, and only a failing call keeps the target from being met
    ensures ok && warmSlots > 0 && rounds > 0 && fleet.maxSlots >= 0 ==> Slots(db.View(), now) - fleet.maxSlots < warmSlots
    ensures luck.hostsCounted && (forall k :: luck.counted(k) && luck.provisioned(k) && luck.readied(k)) ==> ok
  {
    now, rounds := listed, 0;
    if warmSlots <= 0 { return true, now, rounds; }
    var counted := CountAvailableSlots(db, listed, luck.counted);
    if counted.None? { return false, now, rounds; }
    var available := counted.value;
    var k := 0;
    while available < warmSlots
      invariant rounds == k && Grown(old(db.View()), db.View(), newHost, k, fleet.maxSlots)
      invariant ListsReady(db.View(), now) && HostsExist(db.View())
      invariant available <= Slots(db.View(), now)
      invariant fleet.maxSlots >= 0 ==> available == Slots(db.View(), now)
      invariant k > 0 ==> available - fleet.maxSlots < warmSlots
      decreases fleet.maxHosts - |LiveHosts(db.View())|
    {
      if !luck.hostsCounted { return false, now, rounds; }
      var live := LiveHosts(Db(db.hosts, db.instances, db.matches, db.results, db.ratings));
      if |live| >= fleet.maxHosts { break; }
      if !luck.provisioned(k) { return false, now, rounds; }
      ghost var was := db.View();
      GrownMore(old(db.View()), was, newHost, k, fleet.maxSlots, if luck.readied(k) then Ready else Provisioning);
      ReadyHostListed(was, newHost(k), fleet.maxSlots, now);
      ReadyHostCounts(was, newHost(k), fleet.maxSlots);
      ReadyHostAdds(was, newHost(k), fleet.maxSlots, now);
      ProvisionPoolHost(db, newHost(k), fleet.maxSlots, luck.readied(k));
      rounds := k + 1;
      if !luck.readied(k) { return false, now, rounds; }
      now := now + [newHost(k)];
      available := available + fleet.maxSlots;
      k := k + 1;
    }
    ok := true;
  }
}
