/** The remaining workers of the transition system, run alone: provisioning, the timeout, the
    two reconciliations and the deletion of idle hosts. */
module LifecycleTies {
  import opened Common
  import opened MatchDb
  import opened Ports
  import opened Sweeps
  import opened LifecycleModel
  import opened LifecycleFlow

  // ---- provisioning ---------------------------------------------------------------------------

  /** A new host is registered with its slots and no ports, and is ready if that was saved. */
  lemma ProvisioningIsItsSteps(cfg: Config, s: State, w: nat, h: nat, maxSlots: int, readied: bool)
    requires cfg.Valid() && w !in s.work && h !in s.born && h !in s.db.hosts
    ensures Exec(cfg, s, [Starts(w, CreateVm(h, ForPool)), Starts(w, InsertHost(maxSlots, true)), Starts(w, SetReady(readied))]).db
         == s.db.(hosts := s.db.hosts[h := Host(if readied then Ready else Provisioning, [], maxSlots)])
  {
    ThreeSteps(cfg, s, Starts(w, CreateVm(h, ForPool)), Starts(w, InsertHost(maxSlots, true)), Starts(w, SetReady(readied)));
    var row := Host(Provisioning, [], maxSlots);
    assert s.db.hosts[h := row][h := row.(status := Ready)] == s.db.hosts[h := row.(status := Ready)];
  }

  /** Only a ready host is picked for a start. */
  lemma PicksReady(s: State, w: nat, h: nat, spec: Spec)
    ensures DoPickHost(s, w, h, spec) != s ==> h in s.db.hosts && s.db.hosts[h].status == Ready
  {
  }

  /** An allocation that is reported as failed but took effect ends the start, and its ports
      stay allocated without an owner. */
  lemma LostAllocationLeaks(cfg: Config, s: State, w: nat, ports: seq<int>)
    requires w in s.work && s.work[w].HostPicked? && AllocateTx(cfg, s.db, s.work[w].host, s.work[w].spec.count).1 == Some(ports)
    ensures var s', h := DoAllocatePorts(cfg, s, w, LostReply), s.work[w].host;
            && w !in s'.work && h in s.db.hosts && h in s'.db.hosts && s'.db.hosts[h].ports == s.db.hosts[h].ports + ports
            && forall o :: Held(s', o).Some? ==> Held(s', o) == Held(s, o)
  {
  }

  // ---- the timeout -----------------------------------------------------------------------------

  /** A report is taken up exactly for a match that is underway. */
  lemma TakesUpIff(s: State, w: nat, m: nat, v: Verdict)
    requires w !in s.work
    ensures w in DoReport(s, w, m, v).work <==> m in s.db.matches && s.db.matches[m].status == Started
  {
  }

  /** A free worker ends a match by timeout exactly if it has been underway for more than six
      hours; it names no winner and moves no rating. */
  lemma TimesOutIff(s: State, w: nat, m: nat)
    requires w !in s.work
    ensures DoTimeOut(s, w, m) == (if m in s.db.matches && s.db.matches[m].status == Started && s.now > s.db.matches[m].createdAt + 21600
                                   then Go(s, w, Ending(m, Verdict([], "timeout", false))) else s)
    ensures w in DoTimeOut(s, w, m).work <==>
              m in s.db.matches && s.db.matches[m].status == Started && s.now - s.db.matches[m].createdAt > 6 * 60 * 60
  {
  }

  /** A result that exists already, or whose transaction is rejected, ends the worker with
      nothing changed. */
  lemma RefusedEnds(cfg: Config, s: State, w: nat, ok: bool)
    requires cfg.Valid() && w in s.work && s.work[w].Loaded? && (!ok || s.work[w].m in s.db.results)
    ensures DoCommitResult(cfg, s, w, ok) == End(s, w)
  {
  }

  // ---- the reconciliations -----------------------------------------------------------------------

  /** A worker that finds host h missing in the survey of another. */
  function StaleSteps(w: nat, surveyor: nat, h: nat, freed: bool, marked: bool): seq<Action> {
    [Tends(w, FindStale(surveyor, h)), Tends(w, FreeStale(freed)), Tends(w, MarkStale(marked))]
  }

  lemma FreeAndMark(s: State, w: nat, freed: bool, marked: bool)
    requires w in s.work && s.work[w].Stale? && s.work[w].host in s.db.hosts && s.work[w].ports == s.db.hosts[s.work[w].host].ports
    ensures var h, row := s.work[w].host, s.db.hosts[s.work[w].host];
            DoMarkStale(DoFreeStale(s, w, freed), w, marked).db
            == s.db.(hosts := s.db.hosts[h := Host(if marked then Gone else row.status, if freed then [] else row.ports, row.maxSlots)])
  {
    var h := s.work[w].host;
    WithoutAll(s.db.hosts[h].ports, s.db.hosts[h].ports);
    assert s.db.hosts[h := s.db.hosts[h]] == s.db.hosts;
  }

  /** Left alone it frees the ports of a ready host that is not in the list and marks it
      deleted, and spares every other host. */
  lemma StaleIsItsSteps(cfg: Config, s: State, w: nat, surveyor: nat, h: nat, freed: bool, marked: bool)
    requires cfg.Valid() && surveyor in s.work && s.work[surveyor].Surveyed? && w !in s.work && h in s.db.hosts
    ensures Exec(cfg, s, StaleSteps(w, surveyor, h, freed, marked)).db
         == if s.db.hosts[h].status == Ready && h !in s.work[surveyor].live
            then s.db.(hosts := s.db.hosts[h := Host(if marked then Gone else Ready, if freed then [] else s.db.hosts[h].ports,
                                                     s.db.hosts[h].maxSlots)])
            else s.db
  {
    var acts := StaleSteps(w, surveyor, h, freed, marked);
    ThreeSteps(cfg, s, acts[0], acts[1], acts[2]);
    if s.db.hosts[h].status == Ready && h !in s.work[surveyor].live {
      var s1 := DoFindStale(s, w, surveyor, h);
      FreeAndMark(s1, w, freed, marked);
    }
  }

  /** The VM of a ready host dies, and the next survey finds it out. */
  lemma DeadHostIsMarked(cfg: Config, s: State, h: nat, surveyor: nat, w: nat, freed: bool)
    requires cfg.Valid() && surveyor != w && surveyor !in s.work && w !in s.work
    requires h in s.db.hosts && s.db.hosts[h].status == Ready
    ensures var s' := Exec(cfg, s, [World(VmDies(h)), Tends(surveyor, ListVms)] + StaleSteps(w, surveyor, h, freed, true));
            h !in s'.vms && h in s'.db.hosts && s'.db.hosts[h].status == Gone
  {
    var acts: seq<Action> := [World(VmDies(h)), Tends(surveyor, ListVms)];
    assert acts[..1][..0] == [];
    assert Exec(cfg, s, acts[..1]) == Step(cfg, s, World(VmDies(h)));
    var s2 := Exec(cfg, s, acts);
    assert s2 == Step(cfg, Step(cfg, s, World(VmDies(h))), Tends(surveyor, ListVms));
    ExecConcat(cfg, s, acts, StaleSteps(w, surveyor, h, freed, true));
    StaleIsItsSteps(cfg, s2, w, surveyor, h, freed, true);
    StaleKeepsVms(cfg, s2, w, surveyor, h, freed);
  }

  lemma StaleKeepsVms(cfg: Config, s: State, w: nat, surveyor: nat, h: nat, freed: bool)
    requires cfg.Valid()
    ensures Exec(cfg, s, StaleSteps(w, surveyor, h, freed, true)).vms == s.vms
  {
    var acts := StaleSteps(w, surveyor, h, freed, true);
    ThreeSteps(cfg, s, acts[0], acts[1], acts[2]);
  }

  function OrphanSteps(w: nat, i: nat, freed: bool, marked: bool): seq<Action> {
    [Tends(w, FindOrphan(i)), Tends(w, FreeOrphan(freed)), Tends(w, MarkOrphan(marked))]
  }

  /** Left alone, an orphan pass deals with an instance on a deleted host, and with no other. */
  lemma OrphanIsItsSteps(cfg: Config, s: State, w: nat, i: nat, luck: FixLuck)
    requires cfg.Valid() && w !in s.work && i in s.db.instances
    ensures Exec(cfg, s, OrphanSteps(w, i, luck.freed(i), luck.marked(i))).db
         == if i in Orphans(s.db) then FixedOrphan(s.db, i, luck) else s.db
  {
    var acts := OrphanSteps(w, i, luck.freed(i), luck.marked(i));
    ThreeSteps(cfg, s, acts[0], acts[1], acts[2]);
    if i in Orphans(s.db) { FreeAndRemove(DoFindOrphan(s, w, i), w, luck); }
  }

  lemma FreeAndRemove(s: State, w: nat, luck: FixLuck)
    requires w in s.work && s.work[w].Orphan? && s.work[w].i in s.db.instances
    ensures var i := s.work[w].i;
            DoMarkOrphan(DoFreeOrphan(s, w, luck.freed(i)), w, luck.marked(i)).db == FixedOrphan(s.db, i, luck)
  {
  }

  // ---- idle hosts -----------------------------------------------------------------------------------

  /** A host is marked deleted, and its VM goes, only if none of its instances takes a slot and
      the warm pool can spare it. */
  lemma ReapIsItsSteps(cfg: Config, s: State, w: nat, keep: bool, marked: bool, deleted: bool)
    requires cfg.Valid() && w in s.work && s.work[w].IdleCheck?
    ensures var s', h := Exec(cfg, s, [Tends(w, CheckIdle(keep)), Tends(w, ReapMark(marked)), Tends(w, ReapVm(deleted))]), s.work[w].host;
            var idle := forall i :: i in s.db.instances && s.db.instances[i].host == h ==> s.db.instances[i].status == Removed;
            && s'.db == (if idle && !keep && marked then SetHostStatusTx(s.db, h, Gone) else s.db)
            && s'.vms == (if idle && !keep && marked && deleted then s.vms - {h} else s.vms)
  {
    ThreeSteps(cfg, s, Tends(w, CheckIdle(keep)), Tends(w, ReapMark(marked)), Tends(w, ReapVm(deleted)));
    var h := s.work[w].host;
    assert ActiveOn(s.db, h) == {} <==>
           forall i :: i in s.db.instances && s.db.instances[i].host == h ==> s.db.instances[i].status == Removed by {
      forall i | i in s.db.instances && s.db.instances[i].host == h && s.db.instances[i].status != Removed
        ensures i in ActiveOn(s.db, h)
      {
      }
    }
  }
}
