/** A match's life across all workers as a transition system. Each step is one database
    transaction, or the outcome of one call to a host agent or to the VM provider, and each
    worker is a program counter with the values it has read so far. Every entry of a sweep
    is a worker of its own, so entries may also interleave with each other. A run is any
    list of actions; an action that is not enabled changes nothing, so a statement about
    every list is a statement about every interleaving, with every failure and crash. */
module LifecycleModel {
  import opened Common
  import opened Ids
  import opened MatchDb

  /** Seconds: six hours. */
  const MATCH_MAX_DURATION: int := 6 * 3600

  /** What StartMatch is asked for: how many ports, which queue, who plays. */
  datatype Spec = Spec(count: nat, queue: nat, players: seq<Id>)

  /** Why a host is being provisioned: for a match that waits for it, or for the pool. */
  datatype Goal = ForMatch(spec: Spec) | ForPool

  /** saved: the start was reported as failed, but its instance is in the database. */
  datatype Pc =
    // StartMatch and MaintainWarmPool
    | VmCreated(host: nat, goal: Goal)
    | HostCreated(host: nat, goal: Goal)
    | HostPicked(host: nat, spec: Spec)
    | PortsHeld(host: nat, ports: seq<int>, spec: Spec)
    | Abandoned(host: nat, ports: seq<int>, saved: bool)
    // ReportResults and GarbageCollectMatches, both through EndMatch
    | Ending(m: nat, v: Verdict)
    | Underway(m: nat, v: Verdict)
    | Loaded(m: nat, row: Match, v: Verdict)
    | BareEnded(m: nat)
    | InlineClaim(i: nat, m: nat)
    // SweepCooledMatches, TeardownCooledMatch and tryDeleteIdleHost
    | Listed(i: nat, m: nat, endedAt: int)
    | Claimed(i: nat, m: nat, endedAt: int)
    | Tearing(i: nat, m: nat, force: bool)
    | Reverting(i: nat, m: nat)
    | Releasing(i: nat, m: nat)
    | Marking(i: nat, m: nat)
    | Finalizing(i: nat, m: nat)
    | IdleCheck(host: nat)
    | Reaping(host: nat)
    | ReapingVm(host: nat)
    // ReconcileLiveHosts and ReconcileOrphanedInstances; knew: the VMs that had been
    // created when the provider listed the live ones
    | Surveyed(live: set<nat>, knew: set<nat>)
    | Stale(host: nat, ports: seq<int>, knew: set<nat>)
    | StaleFreed(host: nat)
    | Orphan(i: nat)
    | OrphanFreed(i: nat)

  /** One committed result. */
  datatype Ended = Ended(m: nat, v: Verdict)

  /** A VM has the number of its host row. vms: alive; born: ever created. The rest is
      history. settled: hosts whose provisioning is over. made: every match ever created, as
      created. releases: instances whose ports a teardown has released, in order.
      compromised: hosts on which somebody freed ports that were not its own and that an
      owner held. commits: the committed results, in order. */
  datatype State = State(
    db: Db,
    now: int,
    work: map<nat, Pc>,
    vms: set<nat>,
    born: set<nat>,
    settled: set<nat>,
    made: map<nat, Match>,
    releases: seq<nat>,
    compromised: set<nat>,
    commits: seq<Ended>)

  datatype WorldStep =
    | Tick(d: nat)
    | VmDies(h: nat)
    | Crash(w: nat)
    | AddBareMatch(m: nat, queue: nat, players: seq<Id>)

  /** StartMatch; provisioning is shared with MaintainWarmPool. */
  datatype StartStep =
    | PickHost(h: nat, spec: Spec)
    | CreateVm(h: nat, goal: Goal)
    | InsertHost(maxSlots: int, ok: bool)
    | SetReady(ok: bool)
    | AllocatePorts(io: Io)
    | StartFails
    | Persist(i: nat, m: nat, io: Io)
    | FreeAbandoned(ok: bool)

  /** ReportResults, GarbageCollectMatches, EndMatch. */
  datatype EndStep =
    | Report(m: nat, v: Verdict)
    | TimeOut(m: nat)
    | CheckUnderway
    | LoadMatch
    | CommitResult(ok: bool)
    | FinalizeBare(ok: bool)
    | ClaimInline(ok: bool)

  /** SweepCooledMatches, TeardownCooledMatch. */
  datatype DownStep =
    | ListReady(i: nat, m: nat)
    | Claim(ok: bool)
    | Decide
    | StopDone(stopped: bool)
    | Revert(ok: bool)
    | Release(ok: bool)
    | Mark(ok: bool)
    | Finalize(logsKey: string, artifacts: Option<seq<string>>, ok: bool)

  /** tryDeleteIdleHost, ReconcileLiveHosts, ReconcileOrphanedInstances. */
  datatype HostStep =
    | CheckIdle(keep: bool)
    | ReapMark(ok: bool)
    | ReapVm(ok: bool)
    | ListVms
    | FindStale(surveyor: nat, h: nat)
    | FreeStale(ok: bool)
    | MarkStale(ok: bool)
    | FindOrphan(i: nat)
    | FreeOrphan(ok: bool)
    | MarkOrphan(ok: bool)

  /** w: the worker that moves. */
  datatype Action =
    | World(world: WorldStep)
    | Starts(w: nat, start: StartStep)
    | Ends(w: nat, end: EndStep)
    | TearsDown(w: nat, down: DownStep)
    | Tends(w: nat, tend: HostStep)

  // ---- who owns ports ----------------------------------------------------------------

  /** A start in flight, or an instance whose ports no teardown has released. */
  datatype Owner = ByWorker(w: nat) | ByInstance(i: nat)

  datatype Holding = Holding(host: nat, ports: seq<int>)

  function Held(s: State, o: Owner): Option<Holding> {
    match o
    case ByWorker(w) =>
      if w in s.work && (s.work[w].PortsHeld? || (s.work[w].Abandoned? && !s.work[w].saved))
      then Some(Holding(s.work[w].host, s.work[w].ports)) else None
    case ByInstance(i) =>
      if i in s.db.instances && i !in s.releases
      then Some(Holding(s.db.instances[i].host, s.db.instances[i].ports)) else None
  }

  ghost predicate HoldsPort(s: State, o: Owner, h: nat, p: int) {
    Held(s, o).Some? && Held(s, o).value.host == h && p in Held(s, o).value.ports
  }

  /** Freeing these ports of host h takes some owner's port away. */
  ghost predicate Robs(s: State, h: nat, ports: seq<int>) {
    exists o, p :: HoldsPort(s, o, h, p) && p in ports
  }

  // ---- steps -------------------------------------------------------------------------

  function Init(): State {
    State(Db(map[], map[], map[], map[], map[]), 0, map[], {}, {}, {}, map[], [], {}, [])
  }

  function Go(s: State, w: nat, pc: Pc): State { s.(work := s.work[w := pc]) }

  function End(s: State, w: nat): State { s.(work := map k | k in s.work && k != w :: s.work[k]) }

  /** Any ready host; which of them the search prefers does not matter here. */
  function DoPickHost(s: State, w: nat, h: nat, spec: Spec): State {
    if w in s.work || h !in s.db.hosts || s.db.hosts[h].status != Ready then s
    else Go(s, w, HostPicked(h, spec))
  }

  function DoCreateVm(s: State, w: nat, h: nat, goal: Goal): State {
    if w in s.work || h in s.born then s
    else Go(s.(vms := s.vms + {h}, born := s.born + {h}), w, VmCreated(h, goal))
  }

  function DoInsertHost(s: State, w: nat, maxSlots: int, ok: bool): State {
    if !(w in s.work && s.work[w].VmCreated?) then s
    else
      var pc := s.work[w];
      if !ok || pc.host in s.db.hosts then End(s, w)
      else Go(s.(db := s.db.(hosts := s.db.hosts[pc.host := Host(Provisioning, [], maxSlots)])), w,
              HostCreated(pc.host, pc.goal))
  }

  /** StartMatch only logs a failure here and goes on with the host as it is. */
  function DoSetReady(s: State, w: nat, ok: bool): State {
    if !(w in s.work && s.work[w].HostCreated?) then s
    else
      var pc := s.work[w];
      var s1 := s.(db := if ok then SetHostStatusTx(s.db, pc.host, Ready) else s.db, settled := s.settled + {pc.host});
      if pc.goal.ForMatch? then Go(s1, w, HostPicked(pc.host, pc.goal.spec)) else End(s1, w)
  }

  /** The allocation does not look at the host's status. */
  function DoAllocatePorts(cfg: Config, s: State, w: nat, io: Io): State {
    if !(w in s.work && s.work[w].HostPicked?) then s
    else
      var pc := s.work[w];
      var (db, ports) := AllocateTx(cfg, s.db, pc.host, pc.spec.count);
      if !io.Landed() || ports.None? then End(s, w)
      else if !io.Acked? then End(s.(db := db), w)
      else Go(s.(db := db), w, PortsHeld(pc.host, ports.value, pc.spec))
  }

  function DoStartFails(s: State, w: nat): State {
    if !(w in s.work && s.work[w].PortsHeld?) then s
    else Go(s, w, Abandoned(s.work[w].host, s.work[w].ports, false))
  }

  function NewInstance(pc: Pc): Instance
    requires pc.PortsHeld?
  {
    Instance(pc.host, pc.ports, Starting)
  }

  /** Identifiers are generated afresh. A commit that is reported as failed makes the
      caller free the ports the new instance owns. */
  function DoPersist(s: State, w: nat, i: nat, m: nat, io: Io): State {
    if !(w in s.work && s.work[w].PortsHeld?) || i in s.db.instances || m in s.made then s
    else
      var pc := s.work[w];
      var row := Match(Some(i), pc.spec.queue, pc.spec.players, Started, s.now);
      var tx := PersistTx(s.db, i, NewInstance(pc), m, row);
      if !io.Landed() || tx.None? then Go(s, w, Abandoned(pc.host, pc.ports, false))
      else
        var s1 := s.(db := tx.value, made := s.made[m := row]);
        if io.Acked? then End(s1, w) else Go(s1, w, Abandoned(pc.host, pc.ports, true))
  }

  ghost function DoFreeAbandoned(s: State, w: nat, ok: bool): State {
    if !(w in s.work && s.work[w].Abandoned?) then s
    else
      var pc := s.work[w];
      End(s.(db := if ok then FreeTx(s.db, pc.host, pc.ports) else s.db,
             compromised := if ok && pc.saved && Robs(s, pc.host, pc.ports) then s.compromised + {pc.host} else s.compromised),
          w)
  }

  /** A match without a container, as test setups create them. */
  function DoAddBareMatch(s: State, m: nat, queue: nat, players: seq<Id>): State {
    if m in s.made || m in s.db.matches then s
    else
      var row := Match(None, queue, players, Started, s.now);
      s.(db := s.db.(matches := s.db.matches[m := row]), made := s.made[m := row])
  }

  /** The status check happens on a row read outside any transaction. */
  function DoReport(s: State, w: nat, m: nat, v: Verdict): State {
    if w in s.work || m !in s.db.matches || s.db.matches[m].status != Started then s
    else Go(s, w, Ending(m, v))
  }

  function DoTimeOut(s: State, w: nat, m: nat): State {
    if w in s.work || m !in s.db.matches || s.db.matches[m].status != Started
       || s.now - s.db.matches[m].createdAt <= MATCH_MAX_DURATION then s
    else Go(s, w, Ending(m, Verdict([], "timeout", false)))
  }

  function DoCheckUnderway(s: State, w: nat): State {
    if !(w in s.work && s.work[w].Ending?) then s
    else
      var pc := s.work[w];
      if pc.m in s.db.matches && s.db.matches[pc.m].status == Started then Go(s, w, Underway(pc.m, pc.v))
      else End(s, w)
  }

  function DoLoadMatch(s: State, w: nat): State {
    if !(w in s.work && s.work[w].Underway?) then s
    else
      var pc := s.work[w];
      if pc.m in s.db.matches then Go(s, w, Loaded(pc.m, s.db.matches[pc.m], pc.v)) else End(s, w)
  }

  /** The committing transaction has left the database as db. */
  function AfterCommit(cfg: Config, s: State, w: nat, db: Db): State
    requires w in s.work && s.work[w].Loaded?
  {
    var pc := s.work[w];
    var s1 := s.(db := db, commits := s.commits + [Ended(pc.m, pc.v)]);
    if pc.row.instance.None? then Go(s1, w, BareEnded(pc.m))
    else if cfg.cooldown == 0 then Go(s1, w, InlineClaim(pc.row.instance.value, pc.m))
    else End(s1, w)
  }

  function DoCommitResult(cfg: Config, s: State, w: nat, ok: bool): State
    requires cfg.Valid()
  {
    if !(w in s.work && s.work[w].Loaded?) then s
    else
      var pc := s.work[w];
      var tx := EndTx(cfg, s.db, pc.m, pc.row, pc.v, s.now);
      if !ok || tx.None? then End(s, w) else AfterCommit(cfg, s, w, tx.value)
  }

  function DoFinalizeBare(s: State, w: nat, ok: bool): State {
    if !(w in s.work && s.work[w].BareEnded?) then s
    else End(s.(db := if ok then FinalizeTx(s.db, s.work[w].m, "", None) else s.db), w)
  }

  function DoClaimInline(s: State, w: nat, ok: bool): State {
    if !(w in s.work && s.work[w].InlineClaim?) then s
    else
      var pc := s.work[w];
      var (db, won) := ClaimTx(s.db, pc.i);
      if !ok || !won then End(s, w) else Go(s.(db := db), w, Tearing(pc.i, pc.m, false))
  }

  /** One row of ListCooldownInstancesReady. */
  function DoListReady(cfg: Config, s: State, w: nat, i: nat, m: nat): State {
    if w in s.work || i !in s.db.instances || s.db.instances[i].status != Cooling
       || m !in s.db.matches || s.db.matches[m].instance != Some(i)
       || m !in s.db.results || s.db.results[m].endedAt > s.now - cfg.cooldown then s
    else Go(s, w, Listed(i, m, s.db.results[m].endedAt))
  }

  function DoClaim(s: State, w: nat, ok: bool): State {
    if !(w in s.work && s.work[w].Listed?) then s
    else
      var pc := s.work[w];
      var (db, won) := ClaimTx(s.db, pc.i);
      if !ok || !won then End(s, w) else Go(s.(db := db), w, Claimed(pc.i, pc.m, pc.endedAt))
  }

  function DoDecide(cfg: Config, s: State, w: nat): State {
    if !(w in s.work && s.work[w].Claimed?) then s
    else
      var pc := s.work[w];
      Go(s, w, Tearing(pc.i, pc.m, s.now - pc.endedAt >= cfg.forceDeadline))
  }

  function DoStopDone(s: State, w: nat, stopped: bool): State {
    if !(w in s.work && s.work[w].Tearing?) then s
    else
      var pc := s.work[w];
      Go(s, w, if stopped || pc.force then Releasing(pc.i, pc.m) else Reverting(pc.i, pc.m))
  }

  function DoRevert(s: State, w: nat, ok: bool): State {
    if !(w in s.work && s.work[w].Reverting?) then s
    else End(s.(db := if ok then RevertTx(s.db, s.work[w].i) else s.db), w)
  }

  /** A failure to free is logged; the teardown goes on. */
  function DoRelease(s: State, w: nat, ok: bool): State {
    if !(w in s.work && s.work[w].Releasing?) || s.work[w].i !in s.db.instances then s
    else
      var pc := s.work[w];
      var inst := s.db.instances[pc.i];
      Go(if ok then s.(db := FreeTx(s.db, inst.host, inst.ports), releases := s.releases + [pc.i]) else s,
         w, Marking(pc.i, pc.m))
  }

  function DoMark(s: State, w: nat, ok: bool): State {
    if !(w in s.work && s.work[w].Marking?) then s
    else
      var pc := s.work[w];
      Go(s.(db := if ok then SetInstanceStatusTx(s.db, pc.i, Removed) else s.db), w, Finalizing(pc.i, pc.m))
  }

  function DoFinalize(s: State, w: nat, logsKey: string, artifacts: Option<seq<string>>, ok: bool): State {
    if !(w in s.work && s.work[w].Finalizing?) || s.work[w].i !in s.db.instances then s
    else
      var pc := s.work[w];
      Go(s.(db := if ok then FinalizeTx(s.db, pc.m, logsKey, artifacts) else s.db), w,
         IdleCheck(s.db.instances[pc.i].host))
  }

  /** keep: the warm pool still needs the host. */
  function DoCheckIdle(s: State, w: nat, keep: bool): State {
    if !(w in s.work && s.work[w].IdleCheck?) then s
    else if keep || ActiveOn(s.db, s.work[w].host) != {} then End(s, w)
    else Go(s, w, Reaping(s.work[w].host))
  }

  function DoReapMark(s: State, w: nat, ok: bool): State {
    if !(w in s.work && s.work[w].Reaping?) then s
    else if !ok then End(s, w)
    else Go(s.(db := SetHostStatusTx(s.db, s.work[w].host, Gone)), w, ReapingVm(s.work[w].host))
  }

  function DoReapVm(s: State, w: nat, ok: bool): State {
    if !(w in s.work && s.work[w].ReapingVm?) then s
    else End(if ok then s.(vms := s.vms - {s.work[w].host}) else s, w)
  }

  function DoListVms(s: State, w: nat): State {
    if w in s.work then s else Go(s, w, Surveyed(s.vms, s.born))
  }

  /** A ready host that the provider did not list, with the ports it had when read. */
  function DoFindStale(s: State, w: nat, surveyor: nat, h: nat): State {
    if !(surveyor in s.work && s.work[surveyor].Surveyed?) || w in s.work
       || h !in s.db.hosts || s.db.hosts[h].status != Ready || h in s.work[surveyor].live then s
    else Go(s, w, Stale(h, s.db.hosts[h].ports, s.work[surveyor].knew))
  }

  ghost function DoFreeStale(s: State, w: nat, ok: bool): State {
    if !(w in s.work && s.work[w].Stale?) then s
    else
      var pc := s.work[w];
      Go(s.(db := if ok then FreeTx(s.db, pc.host, pc.ports) else s.db,
            compromised := if ok && Robs(s, pc.host, pc.ports) then s.compromised + {pc.host} else s.compromised),
         w, StaleFreed(pc.host))
  }

  function DoMarkStale(s: State, w: nat, ok: bool): State {
    if !(w in s.work && s.work[w].StaleFreed?) then s
    else End(s.(db := if ok then SetHostStatusTx(s.db, s.work[w].host, Gone) else s.db), w)
  }

  function DoFindOrphan(s: State, w: nat, i: nat): State {
    if w in s.work || i !in s.db.instances || s.db.instances[i].status == Removed
       || s.db.instances[i].host !in s.db.hosts || s.db.hosts[s.db.instances[i].host].status != Gone then s
    else Go(s, w, Orphan(i))
  }

  function DoFreeOrphan(s: State, w: nat, ok: bool): State {
    if !(w in s.work && s.work[w].Orphan?) || s.work[w].i !in s.db.instances then s
    else
      var inst := s.db.instances[s.work[w].i];
      Go(s.(db := if ok then FreeTx(s.db, inst.host, inst.ports) else s.db), w, OrphanFreed(s.work[w].i))
  }

  function DoMarkOrphan(s: State, w: nat, ok: bool): State {
    if !(w in s.work && s.work[w].OrphanFreed?) then s
    else End(s.(db := if ok then SetInstanceStatusTx(s.db, s.work[w].i, Removed) else s.db), w)
  }

  function StepWorld(s: State, a: WorldStep): State {
    match a
    case Tick(d) => s.(now := s.now + d)
    case VmDies(h) => s.(vms := s.vms - {h})
    case Crash(w) => End(s, w)
    case AddBareMatch(m, queue, players) => DoAddBareMatch(s, m, queue, players)
  }

  ghost function StepStart(cfg: Config, s: State, w: nat, a: StartStep): State {
    match a
    case PickHost(h, spec) => DoPickHost(s, w, h, spec)
    case CreateVm(h, goal) => DoCreateVm(s, w, h, goal)
    case InsertHost(maxSlots, ok) => DoInsertHost(s, w, maxSlots, ok)
    case SetReady(ok) => DoSetReady(s, w, ok)
    case AllocatePorts(io) => DoAllocatePorts(cfg, s, w, io)
    case StartFails => DoStartFails(s, w)
    case Persist(i, m, io) => DoPersist(s, w, i, m, io)
    case FreeAbandoned(ok) => DoFreeAbandoned(s, w, ok)
  }

  function StepEnd(cfg: Config, s: State, w: nat, a: EndStep): State
    requires cfg.Valid()
  {
    match a
    case Report(m, v) => DoReport(s, w, m, v)
    case TimeOut(m) => DoTimeOut(s, w, m)
    case CheckUnderway => DoCheckUnderway(s, w)
    case LoadMatch => DoLoadMatch(s, w)
    case CommitResult(ok) => DoCommitResult(cfg, s, w, ok)
    case FinalizeBare(ok) => DoFinalizeBare(s, w, ok)
    case ClaimInline(ok) => DoClaimInline(s, w, ok)
  }

  function StepDown(cfg: Config, s: State, w: nat, a: DownStep): State {
    match a
    case ListReady(i, m) => DoListReady(cfg, s, w, i, m)
    case Claim(ok) => DoClaim(s, w, ok)
    case Decide => DoDecide(cfg, s, w)
    case StopDone(stopped) => DoStopDone(s, w, stopped)
    case Revert(ok) => DoRevert(s, w, ok)
    case Release(ok) => DoRelease(s, w, ok)
    case Mark(ok) => DoMark(s, w, ok)
    case Finalize(logsKey, artifacts, ok) => DoFinalize(s, w, logsKey, artifacts, ok)
  }

  ghost function StepHost(s: State, w: nat, a: HostStep): State {
    match a
    case CheckIdle(keep) => DoCheckIdle(s, w, keep)
    case ReapMark(ok) => DoReapMark(s, w, ok)
    case ReapVm(ok) => DoReapVm(s, w, ok)
    case ListVms => DoListVms(s, w)
    case FindStale(surveyor, h) => DoFindStale(s, w, surveyor, h)
    case FreeStale(ok) => DoFreeStale(s, w, ok)
    case MarkStale(ok) => DoMarkStale(s, w, ok)
    case FindOrphan(i) => DoFindOrphan(s, w, i)
    case FreeOrphan(ok) => DoFreeOrphan(s, w, ok)
    case MarkOrphan(ok) => DoMarkOrphan(s, w, ok)
  }

  ghost function Step(cfg: Config, s: State, a: Action): State
    requires cfg.Valid()
  {
    match a
    case World(e) => StepWorld(s, e)
    case Starts(w, e) => StepStart(cfg, s, w, e)
    case Ends(w, e) => StepEnd(cfg, s, w, e)
    case TearsDown(w, e) => StepDown(cfg, s, w, e)
    case Tends(w, e) => StepHost(s, w, e)
  }

  /** The state after a list of actions. */
  ghost function Exec(cfg: Config, s: State, acts: seq<Action>): State
    requires cfg.Valid()
  {
    if acts == [] then s else Step(cfg, Exec(cfg, s, acts[..|acts| - 1]), acts[|acts| - 1])
  }

  /** Some run leads from s to s'. */
  ghost predicate Leads(cfg: Config, s: State, s': State)
    requires cfg.Valid()
  {
    exists acts :: s' == Exec(cfg, s, acts)
  }

  /** Some run leads from the empty database to s. */
  ghost predicate Reachable(cfg: Config, s: State)
    requires cfg.Valid()
  {
    Leads(cfg, Init(), s)
  }
}
