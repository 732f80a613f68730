/** Who owns which host ports, in every run. */
module LifecyclePorts {
  import opened Common
  import opened MatchDb
  import opened Ports
  import opened LifecycleModel
  import opened LifecycleRows
  import opened LifecycleSteps
  import opened LifecycleClaims

  /** A host that is not deleted, whose VM is alive, and on which no owner was robbed. */
  predicate Good(s: State, h: nat) {
    h in s.db.hosts && s.db.hosts[h].status != Gone && h in s.vms && h !in s.compromised
  }

  ghost predicate InRange(cfg: Config, ports: seq<int>) { forall p :: p in ports ==> cfg.portLo <= p <= cfg.portHi }

  /** Every host's list is free of duplicates and within the range. */
  ghost predicate Lists(cfg: Config, db: Db) {
    forall h :: h in db.hosts ==> NoDup(db.hosts[h].ports) && InRange(cfg, db.hosts[h].ports)
  }

  /** What an owner on a good host holds is allocated there. */
  ghost predicate Contained(s: State) {
    forall o :: Held(s, o).Some? && Good(s, Held(s, o).value.host) ==>
      forall p :: p in Held(s, o).value.ports ==> p in s.db.hosts[Held(s, o).value.host].ports
  }

  /** Two owners on the same good host share no port. */
  ghost predicate Disjoint(s: State) {
    forall o, o' :: o != o' && Held(s, o).Some? && Held(s, o').Some?
                    && Held(s, o).value.host == Held(s, o').value.host && Good(s, Held(s, o).value.host) ==>
      forall p :: p in Held(s, o).value.ports ==> p !in Held(s, o').value.ports
  }

  ghost predicate Ownership(cfg: Config, s: State) { Lists(cfg, s.db) && Contained(s) && Disjoint(s) }

  // ---- the kinds of step ----------------------------------------------------------------

  /** No owner but x is new or holds anything else than before. */
  ghost predicate OwnersShrink(s: State, s': State, x: Option<Owner>) {
    forall o :: Held(s', o).Some? && Some(o) != x ==> Held(s, o) == Held(s', o)
  }

  /** Every list but that of h is as before, or new and empty. */
  ghost predicate ListsKept(s: State, s': State, h: Option<nat>) {
    forall k :: k in s'.db.hosts && !(h.Some? && h.value == k) ==>
      if k in s.db.hosts then s'.db.hosts[k].ports == s.db.hosts[k].ports else s'.db.hosts[k].ports == []
  }

  /** A host that is good now was good before, unless it is new. */
  ghost predicate GoodBefore(s: State, s': State) {
    forall h :: Good(s', h) && h in s.settled ==> Good(s, h)
  }

  /** Every owner's host exists. */
  ghost predicate OwnersSettled(s: State) {
    forall o :: Held(s, o).Some? ==> Held(s, o).value.host in s.settled
  }

  lemma SteadyOwners(cfg: Config, s: State)
    requires Steady(cfg, s)
    ensures OwnersSettled(s)
  {
    forall o | Held(s, o).Some? ensures Held(s, o).value.host in s.settled {
      if o.ByWorker? { assert Knows(cfg, s, s.work[o.w]); }
    }
  }

  lemma EvolvesGood(s: State, s': State)
    requires HostsOk(s) && Evolves(s, s')
    ensures GoodBefore(s, s')
  {
  }

  /** Nothing is handed out or freed. */
  lemma StillOwned(cfg: Config, s: State, s': State)
    requires Ownership(cfg, s) && OwnersSettled(s) && s.settled <= s.db.hosts.Keys && GoodBefore(s, s')
    requires OwnersShrink(s, s', None) && ListsKept(s, s', None)
    ensures Ownership(cfg, s')
  {
  }

  /** Host h hands out r to x or to nobody. */
  ghost predicate HandsOut(s: State, s': State, h: nat, r: seq<int>, x: Option<Owner>) {
    && OwnersShrink(s, s', x) && ListsKept(s, s', Some(h))
    && h in s.settled && h in s.db.hosts && h in s'.db.hosts
    && s'.db.hosts[h].ports == s.db.hosts[h].ports + r
    && (x.Some? ==> Held(s', x.value) == Some(Holding(h, r)))
  }

  /** r can be handed out. */
  ghost predicate Available(cfg: Config, ports: seq<int>, r: seq<int>) {
    NoDup(ports + r) && (forall p :: p in r ==> p !in ports) && InRange(cfg, r)
  }

  lemma HandsOutKeeps(cfg: Config, s: State, s': State, h: nat, r: seq<int>, x: Option<Owner>)
    requires Ownership(cfg, s) && OwnersSettled(s) && s.settled <= s.db.hosts.Keys && GoodBefore(s, s')
    requires HandsOut(s, s', h, r, x) && Available(cfg, s.db.hosts[h].ports, r)
    ensures Ownership(cfg, s')
  {
  }

  /** Owner x gives up what it holds on host h, by value. */
  ghost predicate GivesBack(s: State, s': State, h: nat, x: Owner) {
    && OwnersShrink(s, s', None) && Held(s', x).None? && ListsKept(s, s', Some(h))
    && Held(s, x).Some? && Held(s, x).value.host == h && h in s.db.hosts && h in s'.db.hosts
    && s'.db.hosts[h].ports == Without(s.db.hosts[h].ports, Held(s, x).value.ports)
  }

  lemma GivesBackKeeps(cfg: Config, s: State, s': State, h: nat, x: Owner)
    requires Ownership(cfg, s) && OwnersSettled(s) && s.settled <= s.db.hosts.Keys && GoodBefore(s, s')
    requires GivesBack(s, s', h, x)
    ensures Ownership(cfg, s')
  {
    WithoutMeaning(s.db.hosts[h].ports, Held(s, x).value.ports);
  }

  /** Some ports of h are freed by somebody who does not own them; if h is still a good
      host, no owner held any of them. */
  ghost predicate Spoils(s: State, s': State, h: nat, ports: seq<int>) {
    && OwnersShrink(s, s', None) && ListsKept(s, s', Some(h))
    && h in s.db.hosts && h in s'.db.hosts && s'.db.hosts[h].ports == Without(s.db.hosts[h].ports, ports)
    && (Good(s', h) ==> !Robs(s, h, ports))
  }

  lemma SpoilsKeeps(cfg: Config, s: State, s': State, h: nat, ports: seq<int>)
    requires Ownership(cfg, s) && OwnersSettled(s) && s.settled <= s.db.hosts.Keys && GoodBefore(s, s')
    requires Spoils(s, s', h, ports)
    ensures Ownership(cfg, s')
  {
    WithoutMeaning(s.db.hosts[h].ports, ports);
    forall o, p | Good(s', h) && Held(s', o).Some? && Held(s', o).value.host == h && p in Held(s', o).value.ports
      ensures p !in ports
    {
      assert HoldsPort(s, o, h, p);
    }
  }

  /** What worker w held passes to instance i. */
  ghost predicate PassesOn(s: State, s': State, w: nat, i: nat) {
    && OwnersShrink(s, s', Some(ByInstance(i))) && ListsKept(s, s', None)
    && Held(s, ByWorker(w)).Some? && Held(s', ByInstance(i)) == Held(s, ByWorker(w)) && Held(s', ByWorker(w)).None?
  }

  lemma PassesOnKeeps(cfg: Config, s: State, s': State, w: nat, i: nat)
    requires Ownership(cfg, s) && OwnersSettled(s) && s.settled <= s.db.hosts.Keys && GoodBefore(s, s')
    requires PassesOn(s, s', w, i)
    ensures Ownership(cfg, s')
  {
  }

  // ---- which step is which ----------------------------------------------------------------

  ghost predicate HandsOff(s: State, s': State) { OwnersShrink(s, s', None) && ListsKept(s, s', None) }

  lemma WorldHandsOff(s: State, a: WorldStep)
    ensures HandsOff(s, StepWorld(s, a))
  {
  }

  lemma WritesHandsOff(cfg: Config, s: State, s': State, w: nat, m: nat, row: Match, v: Verdict)
    requires Writes(s, s', m, row, v) && OnlyWorker(s, s', w) && Follows(cfg, s', w, m, row)
    ensures HandsOff(s, s')
  {
  }

  lemma QuietHandsOff(s: State, s': State, w: nat)
    requires Quiet(s, s') && OnlyWorker(s, s', w) && (w in s'.work ==> s' == s)
    ensures HandsOff(s, s')
  {
  }

  lemma CommitHandsOff(cfg: Config, s: State, w: nat, ok: bool)
    requires cfg.Valid()
    ensures HandsOff(s, DoCommitResult(cfg, s, w, ok))
  {
    var s' := DoCommitResult(cfg, s, w, ok);
    CommitResultWrites(cfg, s, w, ok);
    if Quiet(s, s') { QuietHandsOff(s, s', w); } else { WritesHandsOff(cfg, s, s', w, s.work[w].m, s.work[w].row, s.work[w].v); }
  }

  lemma EndHandsOff(cfg: Config, s: State, w: nat, a: EndStep)
    requires cfg.Valid()
    ensures HandsOff(s, StepEnd(cfg, s, w, a))
  {
    if a.CommitResult? { CommitHandsOff(cfg, s, w, a.ok); } else { OtherEndsHandOff(cfg, s, w, a); }
  }

  lemma OtherEndsHandOff(cfg: Config, s: State, w: nat, a: EndStep)
    requires cfg.Valid() && !a.CommitResult?
    ensures HandsOff(s, StepEnd(cfg, s, w, a))
  {
  }

  lemma ProvisionHandsOff(cfg: Config, s: State, w: nat, a: StartStep)
    requires a.CreateVm? || a.InsertHost? || a.SetReady?
    ensures HandsOff(s, StepStart(cfg, s, w, a))
  {
  }

  lemma PickHandsOff(cfg: Config, s: State, w: nat, a: StartStep)
    requires a.PickHost? || a.StartFails?
    ensures HandsOff(s, StepStart(cfg, s, w, a))
  {
  }

  lemma DownHandsOff(cfg: Config, s: State, w: nat, a: DownStep)
    requires !a.Release?
    ensures HandsOff(s, StepDown(cfg, s, w, a))
  {
  }

  lemma HostHandsOff(s: State, w: nat, a: HostStep)
    requires !a.FreeStale? && !a.FreeOrphan?
    ensures HandsOff(s, StepHost(s, w, a))
  {
  }

  /** The ports an allocation step hands out. */
  ghost function Handed(cfg: Config, s: State, w: nat): seq<int> {
    if w in s.work && s.work[w].HostPicked? && s.work[w].host in s.db.hosts
    then var r := Allocate(s.db.hosts[s.work[w].host].ports, s.work[w].spec.count, cfg.portLo, cfg.portHi);
         if r.Some? then r.value else []
    else []
  }

  lemma AllocateHandsOut(cfg: Config, s: State, w: nat, io: Io)
    requires w in s.work ==> Knows(cfg, s, s.work[w])
    ensures var s' := DoAllocatePorts(cfg, s, w, io);
            || HandsOff(s, s')
            || (w in s.work && s.work[w].HostPicked?
                && HandsOut(s, s', s.work[w].host, Handed(cfg, s, w), if io.Acked? then Some(ByWorker(w)) else None))
  {
  }

  lemma HandedIsAvailable(cfg: Config, s: State, w: nat)
    requires Lists(cfg, s.db) && w in s.work && s.work[w].HostPicked? && s.work[w].host in s.db.hosts
    ensures Available(cfg, s.db.hosts[s.work[w].host].ports, Handed(cfg, s, w))
  {
    var taken, count := s.db.hosts[s.work[w].host].ports, s.work[w].spec.count;
    AllocatesSmallestFree(taken, count, cfg.portLo, cfg.portHi);
    if Allocate(taken, count, cfg.portLo, cfg.portHi).Some? { AllocateKeepsNoDup(taken, count, cfg.portLo, cfg.portHi); }
  }

  lemma FreeAbandonedGivesBack(s: State, w: nat, ok: bool)
    ensures var s' := DoFreeAbandoned(s, w, ok);
            || HandsOff(s, s')
            || (w in s.work && s.work[w].Abandoned?
                && if s.work[w].saved then Spoils(s, s', s.work[w].host, s.work[w].ports)
                   else GivesBack(s, s', s.work[w].host, ByWorker(w)))
  {
  }

  lemma PersistPassesOn(s: State, w: nat, i: nat, m: nat, io: Io)
    requires forall k :: k in s.releases ==> k in s.db.instances
    ensures var s' := DoPersist(s, w, i, m, io); HandsOff(s, s') || PassesOn(s, s', w, i)
  {
  }

  lemma ReleaseGivesBack(s: State, w: nat, ok: bool)
    requires Holders(s)
    ensures var s' := DoRelease(s, w, ok);
            || HandsOff(s, s')
            || (w in s.work && s.work[w].Releasing? && s.work[w].i in s.db.instances
                && GivesBack(s, s', s.db.instances[s.work[w].i].host, ByInstance(s.work[w].i)))
  {
  }

  /** Freeing a host that is taken for dead: if an owner is robbed, the host is marked. */
  lemma FreeStaleSpoils(s: State, w: nat, ok: bool)
    ensures var s' := DoFreeStale(s, w, ok);
            HandsOff(s, s') || (w in s.work && s.work[w].Stale? && Spoils(s, s', s.work[w].host, s.work[w].ports))
  {
  }

  lemma FreeOrphanSpoils(cfg: Config, s: State, w: nat, ok: bool)
    requires w in s.work ==> Knows(cfg, s, s.work[w])
    ensures var s' := DoFreeOrphan(s, w, ok);
            || HandsOff(s, s')
            || (w in s.work && s.work[w].Orphan? && s.work[w].i in s.db.instances
                && Spoils(s, s', s.db.instances[s.work[w].i].host, s.db.instances[s.work[w].i].ports))
  {
  }

  // ---- together ---------------------------------------------------------------------------

  /** The hypotheses of the preservation lemmas. */
  ghost predicate Before(cfg: Config, s: State, s': State) {
    && Ownership(cfg, s) && OwnersSettled(s) && s.settled <= s.db.hosts.Keys && GoodBefore(s, s')
  }

  lemma StartOwnership(cfg: Config, s: State, w: nat, a: StartStep)
    requires Steady(cfg, s) && Claims(s) && Before(cfg, s, StepStart(cfg, s, w, a))
    ensures Ownership(cfg, StepStart(cfg, s, w, a))
  {
    var s' := StepStart(cfg, s, w, a);
    match a {
      case AllocatePorts(io) => AllocateHandsOut(cfg, s, w, io);
      case Persist(i, m, io) => PersistPassesOn(s, w, i, m, io);
      case FreeAbandoned(ok) => FreeAbandonedGivesBack(s, w, ok);
      case PickHost(_, _) => PickHandsOff(cfg, s, w, a);
      case StartFails => PickHandsOff(cfg, s, w, a);
      case _ => ProvisionHandsOff(cfg, s, w, a);
    }
    if HandsOff(s, s') {
      StillOwned(cfg, s, s');
    } else if a.AllocatePorts? {
      HandedIsAvailable(cfg, s, w);
      HandsOutKeeps(cfg, s, s', s.work[w].host, Handed(cfg, s, w), if a.io.Acked? then Some(ByWorker(w)) else None);
    } else if a.Persist? {
      PassesOnKeeps(cfg, s, s', w, a.i);
    } else if s.work[w].saved {
      SpoilsKeeps(cfg, s, s', s.work[w].host, s.work[w].ports);
    } else {
      GivesBackKeeps(cfg, s, s', s.work[w].host, ByWorker(w));
    }
  }

  lemma DownOwnership(cfg: Config, s: State, w: nat, a: DownStep)
    requires Steady(cfg, s) && Claims(s) && Before(cfg, s, StepDown(cfg, s, w, a))
    ensures Ownership(cfg, StepDown(cfg, s, w, a))
  {
    var s' := StepDown(cfg, s, w, a);
    if a.Release? { ReleaseGivesBack(s, w, a.ok); } else { DownHandsOff(cfg, s, w, a); }
    if HandsOff(s, s') {
      StillOwned(cfg, s, s');
    } else {
      GivesBackKeeps(cfg, s, s', s.db.instances[s.work[w].i].host, ByInstance(s.work[w].i));
    }
  }

  lemma HostOwnership(cfg: Config, s: State, w: nat, a: HostStep)
    requires Steady(cfg, s) && Before(cfg, s, StepHost(s, w, a))
    ensures Ownership(cfg, StepHost(s, w, a))
  {
    var s' := StepHost(s, w, a);
    match a {
      case FreeStale(ok) => FreeStaleSpoils(s, w, ok);
      case FreeOrphan(ok) => FreeOrphanSpoils(cfg, s, w, ok);
      case _ => HostHandsOff(s, w, a);
    }
    if HandsOff(s, s') {
      StillOwned(cfg, s, s');
    } else if a.FreeStale? {
      SpoilsKeeps(cfg, s, s', s.work[w].host, s.work[w].ports);
    } else {
      SpoilsKeeps(cfg, s, s', s.db.instances[s.work[w].i].host, s.db.instances[s.work[w].i].ports);
    }
  }

  lemma StepKeepsOwnership(cfg: Config, s: State, a: Action)
    requires cfg.Valid() && Steady(cfg, s) && Claims(s) && Ownership(cfg, s)
    ensures Ownership(cfg, Step(cfg, s, a))
  {
    var s' := Step(cfg, s, a);
    StepKeepsSteady(cfg, s, a);
    SteadyOwners(cfg, s);
    EvolvesGood(s, s');
    match a
    case World(e) => WorldHandsOff(s, e); StillOwned(cfg, s, s');
    case Starts(w, e) => StartOwnership(cfg, s, w, e);
    case Ends(w, e) => EndHandsOff(cfg, s, w, e); StillOwned(cfg, s, s');
    case TearsDown(w, e) => DownOwnership(cfg, s, w, e);
    case Tends(w, e) => HostOwnership(cfg, s, w, e);
  }

  lemma {:induction false} ExecKeepsOwnership(cfg: Config, s: State, acts: seq<Action>)
    requires cfg.Valid() && Steady(cfg, s) && Claims(s) && Ownership(cfg, s)
    ensures Ownership(cfg, Exec(cfg, s, acts))
  {
    if acts != [] {
      var init, last := acts[..|acts| - 1], acts[|acts| - 1];
      ExecKeepsOwnership(cfg, s, init);
      ExecKeepsSteady(cfg, s, init);
      ExecKeepsClaims(cfg, s, init);
      StepKeepsOwnership(cfg, Exec(cfg, s, init), last);
    }
  }
}
