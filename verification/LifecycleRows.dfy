/** What every run keeps about hosts, instances, matches and results, and how one state may
    evolve into another. */
module LifecycleRows {
  import opened Common
  import opened MatchDb
  import opened LifecycleModel

  // ---- the rows --------------------------------------------------------------------

  /** The parts of a match row that never change. */
  ghost predicate SameMatch(row: Match, row': Match) {
    row.instance == row'.instance && row.queue == row'.queue && row.players == row'.players && row.createdAt == row'.createdAt
  }

  /** The instance of a match exists and serves that match alone. */
  ghost predicate Linked(s: State) {
    && (forall m :: m in s.made && s.made[m].instance.Some? ==> s.made[m].instance.value in s.db.instances)
    && (forall m, m' :: m in s.made && m' in s.made && m != m' && s.made[m].instance.Some? ==>
          s.made[m].instance != s.made[m'].instance)
    && (forall m :: m in s.db.matches ==> m in s.made && SameMatch(s.db.matches[m], s.made[m]))
  }

  /** A match is in cooldown exactly when its result exists; its row disappears, and its
      instance cools or is torn down, only after that. */
  ghost predicate Lifecycle(s: State) {
    && (forall m :: m in s.db.matches ==> (s.db.matches[m].status == InCooldown <==> m in s.db.results))
    && (forall m :: m in s.made && m !in s.db.matches ==> m in s.db.results)
    && (forall m :: m in s.db.results ==> m in s.made && s.db.results[m].endedAt <= s.now)
    && (forall m :: m in s.made && s.made[m].instance.Some? && m !in s.db.results ==> Untouched(s.db, s.made[m].instance.value))
  }

  /** Neither cooling nor being torn down. */
  ghost predicate Untouched(db: Db, i: nat) {
    i in db.instances ==> db.instances[i].status == Starting || db.instances[i].status == Removed
  }

  ghost predicate HostsOk(s: State) {
    && s.vms <= s.born && s.settled <= s.db.hosts.Keys && s.db.hosts.Keys <= s.born
    && (forall h :: h in s.db.hosts && h !in s.settled ==> s.db.hosts[h].status == Provisioning)
    && (forall i :: i in s.db.instances ==> s.db.instances[i].host in s.settled)
  }

  ghost predicate RowsOk(s: State) { Linked(s) && Lifecycle(s) && HostsOk(s) }

  // ---- what a worker may rely on -----------------------------------------------------

  /** Instance i served match m, whose result is old enough for the cooldown to be over. */
  ghost predicate Cooled(cfg: Config, s: State, i: nat, m: nat) {
    && m in s.made && s.made[m].instance == Some(i) && i in s.db.instances
    && m in s.db.results && s.db.results[m].endedAt + cfg.cooldown <= s.now
  }

  ghost predicate OnGoneHost(s: State, i: nat) {
    i in s.db.instances && s.db.instances[i].host in s.db.hosts && s.db.hosts[s.db.instances[i].host].status == Gone
  }

  /** The facts behind a program counter that no other worker can take away. */
  ghost predicate Knows(cfg: Config, s: State, pc: Pc) {
    match pc
    case VmCreated(h, _) => h in s.born
    case HostCreated(h, _) => h in s.db.hosts
    case HostPicked(h, _) => h in s.settled
    case PortsHeld(h, _, _) => h in s.settled
    case Abandoned(h, _, _) => h in s.settled
    case Ending(m, _) => m in s.made
    case Underway(m, _) => m in s.made
    case Loaded(m, row, _) => m in s.made && SameMatch(row, s.made[m])
    case BareEnded(m) => m in s.made && s.made[m].instance.None? && m in s.db.results
    case InlineClaim(i, m) => Cooled(cfg, s, i, m)
    case Listed(i, m, e) => Cooled(cfg, s, i, m) && s.db.results[m].endedAt == e
    case Claimed(i, m, e) => Cooled(cfg, s, i, m) && s.db.results[m].endedAt == e
    case Tearing(i, m, _) => Cooled(cfg, s, i, m)
    case Reverting(i, m) => Cooled(cfg, s, i, m)
    case Releasing(i, m) => Cooled(cfg, s, i, m)
    case Marking(i, m) => Cooled(cfg, s, i, m)
    case Finalizing(i, m) => Cooled(cfg, s, i, m)
    case IdleCheck(h) => h in s.settled
    case Reaping(h) => h in s.settled
    case ReapingVm(h) => h in s.settled
    case Surveyed(live, knew) => knew <= s.born && forall h :: h in knew && h in s.vms ==> h in live
    case Stale(h, _, knew) => h in s.settled && knew <= s.born && (h in knew ==> h !in s.vms)
    case StaleFreed(h) => h in s.settled
    case Orphan(i) => OnGoneHost(s, i)
    case OrphanFreed(i) => OnGoneHost(s, i)
  }

  ghost predicate AllKnow(cfg: Config, s: State) {
    forall w :: w in s.work ==> Knows(cfg, s, s.work[w])
  }

  /** A host whose provisioning is not over is in the hands of one worker. */
  ghost predicate Provisioners(s: State) {
    && (forall w :: w in s.work && s.work[w].HostCreated? ==> s.work[w].host !in s.settled)
    && (forall w, w' :: w in s.work && w' in s.work && w != w' && s.work[w].HostCreated? && s.work[w'].HostCreated? ==>
          s.work[w].host != s.work[w'].host)
  }

  /** The invariant of the rows. */
  ghost predicate Steady(cfg: Config, s: State) {
    RowsOk(s) && AllKnow(cfg, s) && Provisioners(s)
  }

  // ---- how a state evolves -----------------------------------------------------------

  ghost predicate SameVerdict(r: Result, r': Result) {
    r.winners == r'.winners && r.reason == r'.reason && r.endedAt == r'.endedAt
  }

  /** Results keep their verdict, instances their host and ports, and a host that is gone
      stays gone. */
  ghost predicate RowsEvolve(db: Db, db': Db) {
    && (forall m :: m in db.results ==> m in db'.results && SameVerdict(db.results[m], db'.results[m]))
    && (forall i :: i in db.instances ==>
          && i in db'.instances
          && db.instances[i].host == db'.instances[i].host && db.instances[i].ports == db'.instances[i].ports)
    && (forall h :: h in db.hosts ==> h in db'.hosts && (db.hosts[h].status == Gone ==> db'.hosts[h].status == Gone))
  }

  /** A match row that is gone stays gone, and a match in cooldown never restarts. */
  ghost predicate MatchesEvolve(s: State, s': State) {
    forall m :: m in s.made && m in s'.db.matches ==>
      m in s.db.matches && (s.db.matches[m].status == InCooldown ==> s'.db.matches[m].status == InCooldown)
  }

  ghost predicate IsPrefix<T>(a: seq<T>, b: seq<T>) { |a| <= |b| && b[..|a|] == a }

  /** Time moves on, a VM that has died does not come back, and history only grows. */
  ghost predicate HistoryEvolves(s: State, s': State) {
    && s.now <= s'.now
    && s.born <= s'.born && (forall h :: h in s'.vms && h in s.born ==> h in s.vms)
    && s.settled <= s'.settled && s.compromised <= s'.compromised
    && (forall m :: m in s.made ==> m in s'.made && s.made[m] == s'.made[m])
    && IsPrefix(s.releases, s'.releases) && IsPrefix(s.commits, s'.commits)
  }

  ghost predicate Evolves(s: State, s': State) {
    RowsEvolve(s.db, s'.db) && MatchesEvolve(s, s') && HistoryEvolves(s, s')
  }

  lemma EvolvesTransitively(s: State, s': State, s'': State)
    requires Evolves(s, s') && Evolves(s', s'')
    ensures Evolves(s, s'')
  {
    assert s''.releases[..|s.releases|] == s'.releases[..|s.releases|];
    assert s''.commits[..|s.commits|] == s'.commits[..|s.commits|];
  }

  /** What a worker knows survives the steps of the others. */
  lemma KnowsCarries(cfg: Config, s: State, s': State, pc: Pc)
    requires Evolves(s, s') && Knows(cfg, s, pc)
    ensures Knows(cfg, s', pc)
  {
  }

  /** Only worker w moved. */
  ghost predicate OnlyWorker(s: State, s': State, w: nat) {
    forall k :: k in s'.work && k != w ==> k in s.work && s'.work[k] == s.work[k]
  }

  /** Only worker w moved, if any, and it knows what its new place needs. */
  ghost predicate Moves(cfg: Config, s: State, s': State, w: nat) {
    OnlyWorker(s, s', w) && (w in s'.work ==> (w in s.work && s'.work[w] == s.work[w]) || Knows(cfg, s', s'.work[w]))
  }

  lemma MovesKeepsAllKnow(cfg: Config, s: State, s': State, w: nat)
    requires AllKnow(cfg, s) && Evolves(s, s') && Moves(cfg, s, s', w)
    ensures AllKnow(cfg, s')
  {
    forall k | k in s'.work ensures Knows(cfg, s', s'.work[k]) {
      if k in s.work { KnowsCarries(cfg, s, s', s.work[k]); }
    }
  }

  // ---- the kinds of change a step can make ---------------------------------------------

  /** No row changes; time may pass, and VMs may be born or die. */
  ghost predicate Quiet(s: State, s': State) {
    && s'.db == s.db && s'.made == s.made && s'.settled == s.settled && s'.releases == s.releases
    && s'.compromised == s.compromised && s'.commits == s.commits
    && s.now <= s'.now
    && s.born <= s'.born && (s.vms <= s.born ==> s'.vms <= s'.born) && (forall h :: h in s'.vms && h in s.born ==> h in s.vms)
  }

  ghost predicate SameWorld(s: State, s': State) {
    s'.now == s.now && s'.vms == s.vms && s'.born == s.born
  }

  /** One host row changes, or is added. */
  ghost predicate HostChange(s: State, s': State, h: nat) {
    && SameWorld(s, s') && s'.made == s.made && s'.commits == s.commits
    && s'.db.instances == s.db.instances && s'.db.matches == s.db.matches && s'.db.results == s.db.results
    && s'.db.ratings == s.db.ratings
    && h in s'.db.hosts && s'.db.hosts.Keys == s.db.hosts.Keys + {h}
    && (forall k :: k in s.db.hosts && k != h ==> s'.db.hosts[k] == s.db.hosts[k])
    && h in s.born && s'.settled <= s.settled + {h} && s.settled <= s'.settled
    && (h in s.db.hosts && s.db.hosts[h].status == Gone ==> s'.db.hosts[h].status == Gone)
    && (h !in s'.settled ==> s'.db.hosts[h].status == Provisioning)
    && s.compromised <= s'.compromised && IsPrefix(s.releases, s'.releases)
  }

  /** One instance changes its status, and does not enter the end of its life by that. */
  ghost predicate StatusChange(s: State, s': State, i: nat) {
    && SameWorld(s, s') && s'.made == s.made && s'.commits == s.commits && s'.settled == s.settled
    && s'.releases == s.releases && s'.compromised == s.compromised
    && s'.db.hosts == s.db.hosts && s'.db.matches == s.db.matches && s'.db.results == s.db.results
    && s'.db.ratings == s.db.ratings
    && i in s.db.instances && s'.db.instances.Keys == s.db.instances.Keys
    && s'.db.instances[i].host == s.db.instances[i].host && s'.db.instances[i].ports == s.db.instances[i].ports
    && (forall k :: k in s.db.instances && k != i ==> s'.db.instances[k] == s.db.instances[k])
    && (Untouched(s.db, i) ==> Untouched(s'.db, i))
    && (s'.db.instances[i].status == Starting ==> s.db.instances[i].status == Starting)
  }

  /** A match appears, alone or with its instance. */
  ghost predicate Birth(s: State, s': State, m: nat, row: Match) {
    && SameWorld(s, s') && s'.settled == s.settled && s'.releases == s.releases && s'.commits == s.commits
    && s.compromised <= s'.compromised
    && s'.db.hosts == s.db.hosts && s'.db.results == s.db.results && s'.db.ratings == s.db.ratings
    && m !in s.made && s'.made == s.made[m := row] && s'.db.matches == s.db.matches[m := row] && row.status == Started
    && (row.instance.None? ==> s'.db.instances == s.db.instances)
    && (row.instance.Some? ==>
          && row.instance.value !in s.db.instances
          && s'.db.instances.Keys == s.db.instances.Keys + {row.instance.value}
          && (forall k :: k in s.db.instances ==> s'.db.instances[k] == s.db.instances[k])
          && s'.db.instances[row.instance.value].status == Starting
          && s'.db.instances[row.instance.value].host in s.settled)
  }

  /** A result is committed: match and instance go into cooldown with it. */
  ghost predicate Committed(s: State, s': State, m: nat, v: Verdict) {
    && SameWorld(s, s') && s'.made == s.made && s'.settled == s.settled
    && s'.releases == s.releases && s'.compromised == s.compromised && s'.commits == s.commits + [Ended(m, v)]
    && s'.db.hosts == s.db.hosts
    && m in s.made && m !in s.db.results
    && s'.db.results == s.db.results[m := Result(v.winners, v.reason, s.now, "", [])]
    && m in s.db.matches && s'.db.matches == s.db.matches[m := s.db.matches[m].(status := InCooldown)]
    && (s.made[m].instance.None? ==> s'.db.instances == s.db.instances)
    && (s.made[m].instance.Some? ==>
          var i := s.made[m].instance.value;
          i in s.db.instances && s'.db.instances == s.db.instances[i := s.db.instances[i].(status := Cooling)])
  }

  /** The match row goes; its result stays, with its verdict. */
  ghost predicate Closed(s: State, s': State, m: nat) {
    && SameWorld(s, s') && s'.made == s.made && s'.settled == s.settled && s'.releases == s.releases
    && s'.compromised == s.compromised && s'.commits == s.commits
    && s'.db.hosts == s.db.hosts && s'.db.instances == s.db.instances && s'.db.ratings == s.db.ratings
    && m in s.db.results && s'.db.results.Keys == s.db.results.Keys
    && (forall k :: k in s.db.results ==> SameVerdict(s.db.results[k], s'.db.results[k]))
    && s'.db.matches.Keys == s.db.matches.Keys - {m}
    && (forall k :: k in s'.db.matches ==> s'.db.matches[k] == s.db.matches[k])
  }

  // ---- each kind of change keeps the rows in order --------------------------------------

  lemma QuietIsFine(s: State, s': State)
    requires RowsOk(s) && Quiet(s, s')
    ensures RowsOk(s') && Evolves(s, s')
  {
  }

  lemma HostChangeEvolves(s: State, s': State, h: nat)
    requires HostChange(s, s', h)
    ensures Evolves(s, s')
  {
  }

  lemma HostChangeKeepsLinks(s: State, s': State, h: nat)
    requires Linked(s) && HostsOk(s) && HostChange(s, s', h)
    ensures Linked(s') && HostsOk(s')
  {
  }

  lemma HostChangeKeepsLifecycle(s: State, s': State, h: nat)
    requires Linked(s) && Lifecycle(s) && HostChange(s, s', h)
    ensures Lifecycle(s')
  {
  }

  lemma StatusChangeEvolves(s: State, s': State, i: nat)
    requires StatusChange(s, s', i)
    ensures Evolves(s, s')
  {
  }

  lemma StatusChangeKeepsLinks(s: State, s': State, i: nat)
    requires Linked(s) && HostsOk(s) && StatusChange(s, s', i)
    ensures Linked(s') && HostsOk(s')
  {
  }

  lemma StatusChangeKeepsLifecycle(s: State, s': State, i: nat)
    requires Linked(s) && Lifecycle(s) && StatusChange(s, s', i)
    ensures Lifecycle(s')
  {
  }

  lemma BirthEvolves(s: State, s': State, m: nat, row: Match)
    requires Lifecycle(s) && Linked(s) && Birth(s, s', m, row)
    ensures Evolves(s, s')
  {
  }

  lemma BirthKeepsLinks(s: State, s': State, m: nat, row: Match)
    requires Linked(s) && HostsOk(s) && Birth(s, s', m, row)
    ensures Linked(s') && HostsOk(s')
  {
  }

  lemma BirthKeepsLifecycle(s: State, s': State, m: nat, row: Match)
    requires Linked(s) && Lifecycle(s) && Birth(s, s', m, row)
    ensures Lifecycle(s')
  {
  }

  lemma CommittedEvolves(s: State, s': State, m: nat, v: Verdict)
    requires Lifecycle(s) && Linked(s) && Committed(s, s', m, v)
    ensures Evolves(s, s')
  {
  }

  lemma CommittedKeepsLinks(s: State, s': State, m: nat, v: Verdict)
    requires Linked(s) && HostsOk(s) && Committed(s, s', m, v)
    ensures Linked(s') && HostsOk(s')
  {
  }

  lemma CommittedKeepsLifecycle(s: State, s': State, m: nat, v: Verdict)
    requires Linked(s) && Lifecycle(s) && Committed(s, s', m, v)
    ensures Lifecycle(s')
  {
  }

  lemma ClosedEvolves(s: State, s': State, m: nat)
    requires Closed(s, s', m)
    ensures Evolves(s, s')
  {
  }

  lemma ClosedKeepsLinks(s: State, s': State, m: nat)
    requires Linked(s) && HostsOk(s) && Closed(s, s', m)
    ensures Linked(s') && HostsOk(s')
  {
  }

  lemma ClosedKeepsLifecycle(s: State, s': State, m: nat)
    requires Linked(s) && Lifecycle(s) && Closed(s, s', m)
    ensures Lifecycle(s')
  {
  }

  ghost predicate Change(s: State, s': State) {
    || Quiet(s, s')
    || (exists h :: HostChange(s, s', h))
    || (exists i :: StatusChange(s, s', i))
    || (exists m, row :: Birth(s, s', m, row))
    || (exists m, v :: Committed(s, s', m, v))
    || (exists m :: Closed(s, s', m))
  }

  lemma ChangeIsFine(s: State, s': State)
    requires RowsOk(s) && Change(s, s')
    ensures RowsOk(s') && Evolves(s, s')
  {
    if Quiet(s, s') {
      QuietIsFine(s, s');
    } else if h :| HostChange(s, s', h) {
      HostChangeEvolves(s, s', h);
      HostChangeKeepsLinks(s, s', h);
      HostChangeKeepsLifecycle(s, s', h);
    } else if i :| StatusChange(s, s', i) {
      StatusChangeEvolves(s, s', i);
      StatusChangeKeepsLinks(s, s', i);
      StatusChangeKeepsLifecycle(s, s', i);
    } else if m, row :| Birth(s, s', m, row) {
      BirthEvolves(s, s', m, row);
      BirthKeepsLinks(s, s', m, row);
      BirthKeepsLifecycle(s, s', m, row);
    } else if m, v :| Committed(s, s', m, v) {
      CommittedEvolves(s, s', m, v);
      CommittedKeepsLinks(s, s', m, v);
      CommittedKeepsLifecycle(s, s', m, v);
    } else {
      var m :| Closed(s, s', m);
      ClosedEvolves(s, s', m);
      ClosedKeepsLinks(s, s', m);
      ClosedKeepsLifecycle(s, s', m);
    }
  }
}
