/** What the lifecycle does not promise: concrete runs. */
module LifecycleRuns {
  import opened Common
  import opened Ids
  import opened MatchDb
  import opened Ports
  import opened LifecycleModel
  import opened LifecycleRows
  import opened LifecycleSteps
  import opened LifecycleSafety
  import opened LifecycleFlow
  import opened LifecycleReturns

  lemma Begin(cfg: Config)
    requires cfg.Valid()
    ensures Reachable(cfg, Init())
  {
    LeadsNowhere(cfg, Init());
  }

  lemma Continue(cfg: Config, s: State, a: Action) returns (s': State)
    requires cfg.Valid() && Reachable(cfg, s)
    ensures s' == Step(cfg, s, a) && Reachable(cfg, s')
  {
    s' := Step(cfg, s, a);
    LeadsOn(cfg, Init(), s, a);
  }

  /** One port of the range, for one player. */
  function OnePort(p: Id): Spec { Spec(1, 0, [p]) }

  lemma OnePortFree(cfg: Config, db: Db, h: nat)
    requires h in db.hosts && db.hosts[h].ports == [] && cfg.portLo <= cfg.portHi
    ensures AllocateTx(cfg, db, h, 1) == (db.(hosts := db.hosts[h := db.hosts[h].(ports := [cfg.portLo])]), Some([cfg.portLo]))
  {
    assert FreePorts([], cfg.portLo, cfg.portHi)[..1] == [cfg.portLo];
    assert [] + [cfg.portLo] == [cfg.portLo];
  }

  /** A host is provisioned and a start on it holds its first port. The VM list that worker
      0 holds may be older than the VM. */
  lemma StartOnNewHost(cfg: Config, p: Id) returns (s: State)
    requires cfg.Valid() && cfg.portLo <= cfg.portHi
    ensures Reachable(cfg, s)
    ensures s.work == map[0 := Surveyed({}, {}), 1 := PortsHeld(7, [cfg.portLo], OnePort(p))]
    ensures s.vms == {7} && s.born == {7} && s.made == map[] && s.releases == []
    ensures s.db == Db(map[7 := Host(Ready, [cfg.portLo], 8)], map[], map[], map[], map[])
  {
    Begin(cfg);
    var s1 := Continue(cfg, Init(), Tends(0, ListVms));
    var s2 := Continue(cfg, s1, Starts(1, CreateVm(7, ForMatch(OnePort(p)))));
    assert s2.work == map[0 := Surveyed({}, {}), 1 := VmCreated(7, ForMatch(OnePort(p)))];
    var s3 := Continue(cfg, s2, Starts(1, InsertHost(8, true)));
    var s4 := Continue(cfg, s3, Starts(1, SetReady(true)));
    assert s4.db.hosts == map[7 := Host(Ready, [], 8)];
    OnePortFree(cfg, s4.db, 7);
    s := Continue(cfg, s4, Starts(1, AllocatePorts(Acked)));
  }

  /** Another start on the same host, after its list was emptied, gets the first port too. */
  lemma StartAgain(cfg: Config, s: State, p: Id, db: Db) returns (s': State)
    requires cfg.Valid() && cfg.portLo <= cfg.portHi && Reachable(cfg, s)
    requires s.db == db && 3 !in s.work && 7 in db.hosts && db.hosts[7].status == Ready && db.hosts[7].ports == []
    ensures Reachable(cfg, s')
    ensures s' == s.(work := s.work[3 := PortsHeld(7, [cfg.portLo], OnePort(p))],
                     db := db.(hosts := db.hosts[7 := db.hosts[7].(ports := [cfg.portLo])]))
  {
    var s1 := Continue(cfg, s, Starts(3, PickHost(7, OnePort(p))));
    OnePortFree(cfg, s1.db, 7);
    s' := Continue(cfg, s1, Starts(3, AllocatePorts(Acked)));
    assert s1.work[3 := PortsHeld(7, [cfg.portLo], OnePort(p))] == s.work[3 := PortsHeld(7, [cfg.portLo], OnePort(p))];
  }

  /** Two owners hold the same port of a host that is ready and alive. */
  ghost predicate SharedPort(s: State, o: Owner, o': Owner, p: int) {
    && o != o' && Held(s, o).Some? && Held(s, o').Some?
    && Held(s, o).value.host == Held(s, o').value.host
    && Held(s, o).value.host in s.db.hosts && s.db.hosts[Held(s, o).value.host].status == Ready
    && Held(s, o).value.host in s.vms
    && p in Held(s, o).value.ports && p in Held(s, o').value.ports
  }

  /** ReconcileLiveHosts lists the VMs before it reads the hosts. A host created in between
      is ready and missing from the list: its ports are freed while a start holds them, and
      the next start is given the same ones. */
  lemma YoungHostTakenForDead(cfg: Config, p: Id) returns (s: State)
    requires cfg.Valid() && cfg.portLo <= cfg.portHi
    ensures Reachable(cfg, s) && SharedPort(s, ByWorker(1), ByWorker(3), cfg.portLo)
  {
    var s0 := StartOnNewHost(cfg, p);
    var s1 := Continue(cfg, s0, Tends(2, FindStale(0, 7)));
    var s2 := Continue(cfg, s1, Tends(2, FreeStale(true)));
    assert Without([cfg.portLo], [cfg.portLo]) == [];
    s := StartAgain(cfg, s2, p, s2.db);
  }

  /** StartMatch frees the ports of a start whose commit is reported as failed. If the
      commit did take effect, the instance runs on ports that the next start is given. */
  lemma LostCommitSharesPort(cfg: Config, p: Id) returns (s: State)
    requires cfg.Valid() && cfg.portLo <= cfg.portHi
    ensures Reachable(cfg, s) && SharedPort(s, ByInstance(10), ByWorker(3), cfg.portLo)
  {
    var s0 := StartOnNewHost(cfg, p);
    var s1 := Continue(cfg, s0, Starts(1, Persist(10, 20, LostReply)));
    assert s1.work[1] == Abandoned(7, [cfg.portLo], true);
    var s2 := Continue(cfg, s1, Starts(1, FreeAbandoned(true)));
    assert Without([cfg.portLo], [cfg.portLo]) == [];
    s := StartAgain(cfg, s2, p, s2.db);
  }

  /** A host dies under a running match, and its instance is removed as an orphan. */
  lemma OrphanedMatch(cfg: Config, p: Id) returns (s: State)
    requires cfg.Valid() && cfg.portLo <= cfg.portHi
    ensures Reachable(cfg, s) && 5 !in s.work && s.db.results == map[]
    ensures 20 in s.db.matches && s.db.matches[20] == Match(Some(10), 0, [p], Started, s.db.matches[20].createdAt)
    ensures 10 in s.db.instances && s.db.instances[10].status == Removed
  {
    var s0 := StartOnNewHost(cfg, p);
    var s1 := Continue(cfg, s0, Starts(1, Persist(10, 20, Acked)));
    assert s1.work == map[0 := Surveyed({}, {})];
    var s2 := MarkDead(cfg, s1);
    s := RemoveOrphan(cfg, s2);
  }

  lemma MarkDead(cfg: Config, s: State) returns (s': State)
    requires cfg.Valid() && Reachable(cfg, s) && s.work == map[0 := Surveyed({}, {})]
    requires 7 in s.db.hosts && s.db.hosts[7].status == Ready
    ensures Reachable(cfg, s') && s'.work == s.work
    ensures s'.db.results == s.db.results && s'.db.matches == s.db.matches && s'.db.instances == s.db.instances
    ensures 7 in s'.db.hosts && s'.db.hosts[7].status == Gone
  {
    var s1 := Continue(cfg, s, Tends(3, FindStale(0, 7)));
    var s2 := Continue(cfg, s1, Tends(3, FreeStale(true)));
    s' := Continue(cfg, s2, Tends(3, MarkStale(true)));
  }

  lemma RemoveOrphan(cfg: Config, s: State) returns (s': State)
    requires cfg.Valid() && Reachable(cfg, s) && 4 !in s.work
    requires 10 in s.db.instances && s.db.instances[10].status == Starting
    requires s.db.instances[10].host in s.db.hosts && s.db.hosts[s.db.instances[10].host].status == Gone
    ensures Reachable(cfg, s') && s'.db.results == s.db.results && s'.db.matches == s.db.matches
    ensures s'.work.Keys == s.work.Keys
    ensures 10 in s'.db.instances && s'.db.instances[10].status == Removed
  {
    var s1 := Continue(cfg, s, Tends(4, FindOrphan(10)));
    var s2 := Continue(cfg, s1, Tends(4, FreeOrphan(true)));
    s' := Continue(cfg, s2, Tends(4, MarkOrphan(true)));
  }

  /** Removal is not final while the match is still underway: its result puts the instance
      back into cooldown. */
  lemma RemovedInstanceComesBack(cfg: Config, p: Id, v: Verdict) returns (s: State)
    requires cfg.Valid() && cfg.portLo <= cfg.portHi
    ensures Reachable(cfg, s)
    ensures 10 in s.db.instances && s.db.instances[10].status == Removed
    ensures var s' := ReportAlone(cfg, s, 5, 20, v); 10 in s'.db.instances && s'.db.instances[10].status == Cooling
  {
    s := OrphanedMatch(cfg, p);
    ReadingLoads(cfg, s, 5, 20, v);
    CommitCools(cfg, Reading(cfg, s, 5, 20, v), 5, 10);
  }

  /** A started match whose host is gone. */
  lemma GoneUnderMatch(cfg: Config, p: Id) returns (s: State)
    requires cfg.Valid() && cfg.portLo <= cfg.portHi
    ensures Reachable(cfg, s) && s.work == map[0 := Surveyed({}, {})] && s.db.results == map[]
    ensures 20 in s.db.matches && s.db.matches[20].instance == Some(10) && s.db.matches[20].status == Started
    ensures OnGoneHost(s, 10)
  {
    var s0 := StartOnNewHost(cfg, p);
    var s1 := Continue(cfg, s0, Starts(1, Persist(10, 20, Acked)));
    assert s1.work == map[0 := Surveyed({}, {})];
    s := MarkDead(cfg, s1);
  }

  lemma CommitKeepsHosts(cfg: Config, s: State, w: nat)
    requires cfg.Valid() && w in s.work && s.work[w].Loaded? && s.work[w].m !in s.db.results
    ensures var s' := DoCommitResult(cfg, s, w, true);
            && s'.db.hosts == s.db.hosts && s'.work.Keys <= s.work.Keys && s.work[w].m in s'.db.results
            && forall i :: i in s.db.instances ==> i in s'.db.instances && s'.db.instances[i].host == s.db.instances[i].host
  {
    var pc, s' := s.work[w], DoCommitResult(cfg, s, w, true);
    CommitIsTx(cfg, s, w, true);
    TxWrites(cfg, s.db, s'.db, pc.m, pc.row, pc.v, s.now);
  }

  lemma ReadingKeepsOthers(cfg: Config, s: State, w: nat, m: nat, v: Verdict)
    requires cfg.Valid()
    ensures Reading(cfg, s, w, m, v).work.Keys <= s.work.Keys + {w}
  {
  }

  /** The match of a deleted host ends, and its instance cools, until the orphan pass removes
      it: no sweep lists it again, and its match row is never deleted. */
  lemma RowIsStranded(cfg: Config, p: Id, v: Verdict) returns (s: State)
    requires cfg.Valid() && cfg.portLo <= cfg.portHi
    ensures Reachable(cfg, s) && Cools(s, 10) && 20 in s.db.matches
    ensures forall s' :: Leads(cfg, OrphanAlone(cfg, s, 4, 10, true), s') ==> 20 in s'.db.matches
  {
    var s0 := GoneUnderMatch(cfg, p);
    s := ReportAlone(cfg, s0, 5, 20, v);
    ReportLeads(cfg, s0, 5, 20, v);
    LeadsTransitive(cfg, Init(), s0, s);
    EndedOnGoneHost(cfg, s0, s, v);
    ReachedLinks(cfg, s);
    OrphanPassStrandsRow(cfg, s, 4, 10, 20, true);
  }

  lemma EndedOnGoneHost(cfg: Config, s0: State, s: State, v: Verdict)
    requires cfg.Valid() && s == ReportAlone(cfg, s0, 5, 20, v)
    requires s0.work == map[0 := Surveyed({}, {})] && s0.db.results == map[] && OnGoneHost(s0, 10)
    requires 20 in s0.db.matches && s0.db.matches[20].instance == Some(10) && s0.db.matches[20].status == Started
    ensures Cools(s, 10) && OnGoneHost(s, 10) && 4 !in s.work
    ensures 20 in s.db.results && 20 in s.db.matches && s.db.matches[20].instance == Some(10)
  {
    var s1 := Reading(cfg, s0, 5, 20, v);
    ReadingLoads(cfg, s0, 5, 20, v);
    ReadingKeepsOthers(cfg, s0, 5, 20, v);
    CommitCools(cfg, s1, 5, 10);
    CommitLeavesRow(cfg, s1, 5);
    CommitKeepsHosts(cfg, s1, 5);
  }

  lemma ReachedLinks(cfg: Config, s: State)
    requires cfg.Valid() && Reachable(cfg, s)
    ensures forall m :: m in s.db.matches ==> m in s.made && s.made[m].instance == s.db.matches[m].instance
  {
    ReachableIsSafe(cfg, s);
  }
}
