/** Where a promise of the lifecycle fails, the exact condition under which it holds. */
module LifecycleLimits {
  import opened Common
  import opened MatchDb
  import opened Ports
  import opened LifecycleModel
  import opened LifecyclePorts
  import opened LifecycleSafety

  // ---- a start that is reported as failed ------------------------------------------------------

  /** Every owner on host h has its ports allocated there. */
  ghost predicate OwnersServed(s: State, h: nat) {
    h in s.db.hosts && forall o, p :: HoldsPort(s, o, h, p) ==> p in s.db.hosts[h].ports
  }

  /** Worker w's start is reported as failed, and its ports are freed. */
  ghost function FailedStart(cfg: Config, s: State, w: nat, i: nat, m: nat, io: Io): State
    requires cfg.Valid()
  {
    Step(cfg, Step(cfg, s, Starts(w, Persist(i, m, io))), Starts(w, FreeAbandoned(true)))
  }

  lemma LateReportOwners(s: State, w: nat, i: nat, m: nat, io: Io)
    requires w in s.work && s.work[w].PortsHeld? && !io.Acked?
    requires i !in s.db.instances && i !in s.releases && m !in s.made && m !in s.db.matches
    ensures var s' := DoPersist(s, w, i, m, io);
            && s'.db.hosts == s.db.hosts
            && w in s'.work && s'.work[w] == Abandoned(s.work[w].host, s.work[w].ports, io.LostReply?)
            && Held(s', ByInstance(i)) == (if io.LostReply? then Held(s, ByWorker(w)) else None)
            && forall o :: o != ByWorker(w) && o != ByInstance(i) ==> Held(s', o) == Held(s, o)
  {
  }

  lemma FreeAbandonedOwners(s: State, w: nat)
    requires w in s.work && s.work[w].Abandoned?
    ensures var s' := DoFreeAbandoned(s, w, true);
            && s'.db.hosts == FreeTx(s.db, s.work[w].host, s.work[w].ports).hosts
            && Held(s', ByWorker(w)).None?
            && forall o :: o != ByWorker(w) ==> Held(s', o) == Held(s, o)
  {
  }

  lemma FailedStartOwners(cfg: Config, s: State, w: nat, i: nat, m: nat, io: Io)
    requires cfg.Valid() && w in s.work && s.work[w].PortsHeld? && !io.Acked?
    requires i !in s.db.instances && i !in s.releases && m !in s.made && m !in s.db.matches
    ensures var s' := FailedStart(cfg, s, w, i, m, io);
            var pc := s.work[w];
            && s'.db.hosts == FreeTx(s.db, pc.host, pc.ports).hosts
            && Held(s', ByWorker(w)).None?
            && Held(s', ByInstance(i)) == (if io.LostReply? then Held(s, ByWorker(w)) else None)
            && forall o :: o != ByWorker(w) && o != ByInstance(i) ==> Held(s', o) == Held(s, o)
  {
    LateReportOwners(s, w, i, m, io);
    FreeAbandonedOwners(DoPersist(s, w, i, m, io), w);
  }

  lemma FailedStartServes(s: State, s': State, h: nat, w: nat, i: nat, ports: seq<int>, lost: bool)
    requires Contained(s) && Disjoint(s) && Good(s, h) && Held(s, ByWorker(w)) == Some(Holding(h, ports))
    requires h in s'.db.hosts && s'.db.hosts[h].ports == Without(s.db.hosts[h].ports, ports)
    requires Held(s', ByWorker(w)).None? && Held(s', ByInstance(i)) == (if lost then Held(s, ByWorker(w)) else None)
    requires forall o :: o != ByWorker(w) && o != ByInstance(i) ==> Held(s', o) == Held(s, o)
    ensures OwnersServed(s', h) <==> !lost || ports == []
  {
    WithoutMeaning(s.db.hosts[h].ports, ports);
    if lost && ports != [] {
      assert HoldsPort(s', ByInstance(i), h, ports[0]) && ports[0] in ports;
    } else {
      forall o, p | HoldsPort(s', o, h, p) ensures p in s'.db.hosts[h].ports {
        assert o != ByWorker(w);
      }
    }
  }

  /** After a start that is reported as failed has freed its ports, every owner still has its
      own exactly if the commit did not take effect, or there was nothing to free. */
  lemma FailedStartHarmlessIff(cfg: Config, s: State, w: nat, i: nat, m: nat, io: Io)
    requires cfg.Valid() && Reachable(cfg, s) && w in s.work && s.work[w].PortsHeld? && Good(s, s.work[w].host)
    requires i !in s.db.instances && m !in s.made && !io.Acked?
    ensures OwnersServed(FailedStart(cfg, s, w, i, m, io), s.work[w].host) <==> io.Dropped? || s.work[w].ports == []
  {
    ReachableIsSafe(cfg, s);
    var s', pc := FailedStart(cfg, s, w, i, m, io), s.work[w];
    FailedStartOwners(cfg, s, w, i, m, io);
    FailedStartServes(s, s', pc.host, w, i, pc.ports, io.LostReply?);
  }

  // ---- a host that is taken for dead -------------------------------------------------------------

  /** Freeing the ports that were read for a host taken for dead robs nobody on a live host
      if the host's VM had been created when the provider listed the live ones. In general
      it robs somebody exactly if an owner holds one of the ports that were read. */
  lemma StaleFreeRobsIff(cfg: Config, s: State, w: nat)
    requires cfg.Valid() && Reachable(cfg, s) && w in s.work && s.work[w].Stale? && Good(s, s.work[w].host)
    ensures s.work[w].host !in s.work[w].knew
    ensures var s' := Step(cfg, s, Tends(w, FreeStale(true)));
            && (OwnersServed(s', s.work[w].host) <==> !Robs(s, s.work[w].host, s.work[w].ports))
            && (Good(s', s.work[w].host) <==> !Robs(s, s.work[w].host, s.work[w].ports))
  {
    ReachableIsSafe(cfg, s);
    StaleKnows(cfg, s, w);
    var s', h, ports := Step(cfg, s, Tends(w, FreeStale(true))), s.work[w].host, s.work[w].ports;
    assert h in s.db.hosts;
    WithoutMeaning(s.db.hosts[h].ports, ports);
    FreeStaleOwners(cfg, s, w);
    if Robs(s, h, ports) {
      var o, p :| HoldsPort(s, o, h, p) && p in ports;
      assert HoldsPort(s', o, h, p);
    } else {
      forall o, p | HoldsPort(s', o, h, p) ensures p in s'.db.hosts[h].ports {
        assert HoldsPort(s, o, h, p);
      }
    }
  }

  lemma FreeStaleOwners(cfg: Config, s: State, w: nat)
    requires cfg.Valid() && w in s.work && s.work[w].Stale? && s.work[w].host in s.db.hosts
    ensures var s', h := Step(cfg, s, Tends(w, FreeStale(true))), s.work[w].host;
            && (forall o :: Held(s', o) == Held(s, o))
            && h in s'.db.hosts && s'.db.hosts[h].status == s.db.hosts[h].status && s'.vms == s.vms
            && s'.db.hosts[h].ports == Without(s.db.hosts[h].ports, s.work[w].ports)
            && s'.compromised == s.compromised + (if Robs(s, h, s.work[w].ports) then {h} else {})
  {
  }
}
