/** Starting, ending and tearing down one match, step by step on the database, with every
    outside call and every transaction allowed to fail. */
module MatchFlow {
  import opened Common
  import opened Ids
  import opened Ports
  import opened MatchDb
  import Registry = UploaderRegistry

  // ---- finding a host --------------------------------------------------------------------

  /** A host with a slot left and, by subtraction, enough ports. */
  predicate Fits(cfg: Config, db: Db, h: nat, needed: nat) {
    && h in db.hosts && |ActiveOn(db, h)| < db.hosts[h].maxSlots
    && cfg.portHi - cfg.portLo + 1 - |db.hosts[h].ports| >= needed
  }

  /** The rows a query for ready hosts returns, in whatever order. */
  ghost predicate ListsReady(db: Db, listed: seq<nat>) {
    NoDup(listed) && forall h :: h in listed <==> h in db.hosts && db.hosts[h].status == Ready
  }

  /** The first listed host that fits. A host whose instances cannot be counted is skipped. */
  method FindAvailableHost(db: Database, cfg: Config, listed: seq<nat>, needed: nat, counted: nat -> bool)
    returns (found: Option<nat>)
    requires ListsReady(db.View(), listed)
    ensures found.None? ==> forall h :: h in listed && counted(h) ==> !Fits(cfg, db.View(), h, needed)
    ensures found.Some? ==>
              exists k :: 0 <= k < |listed| && listed[k] == found.value && counted(listed[k]) && Fits(cfg, db.View(), found.value, needed)
                && forall j :: 0 <= j < k && counted(listed[j]) ==> !Fits(cfg, db.View(), listed[j], needed)
    // what fits has a slot, and the ports can be handed out
    ensures found.Some? ==>
              && db.hosts[found.value].status == Ready && |ActiveOn(db.View(), found.value)| < db.hosts[found.value].maxSlots
              && AllocateTx(cfg, db.View(), found.value, needed).1.Some?
  {
    for k := 0 to |listed|
      invariant forall j :: 0 <= j < k && counted(listed[j]) ==> !Fits(cfg, db.View(), listed[j], needed)
    {
      var h := listed[k];
      if !counted(h) { continue; }
      var host := db.hosts[h];
      var active := ActiveOn(Db(db.hosts, db.instances, db.matches, db.results, db.ratings), h);
      if |active| >= host.maxSlots { continue; }
      if cfg.portHi - cfg.portLo + 1 - |host.ports| >= needed {
        SubtractionTestSuffices(host.ports, needed, cfg.portLo, cfg.portHi);
        return Some(h);
      }
    }
    found := None;
  }

  // ---- telling the players -----------------------------------------------------------------

  datatype Notice = MatchReady(m: nat) | StartError

  /** What has been published to the players of one queue, and who was put back into it. */
  class Mail {
    var sent: seq<(Id, Notice)>
    var requeued: seq<Id>

    constructor ()
      ensures sent == [] && requeued == []
    {
      sent, requeued := [], [];
    }

    method Publish(players: seq<Id>, n: Notice)
      modifies this
      ensures sent == old(sent) + ToAll(players, n) && requeued == old(requeued)
    {
      for k := 0 to |players|
        invariant sent == old(sent) + ToAll(players[..k], n) && requeued == old(requeued)
      {
        assert players[..k + 1][..k] == players[..k];
        sent := sent + [(players[k], n)];
      }
      assert players[..|players|] == players;
    }

    method PutBack(players: seq<Id>, accepted: bool)
      modifies this
      ensures sent == old(sent) && requeued == old(requeued) + if accepted then players else []
    {
      if accepted { requeued := requeued + players; }
    }
  }

  function ToAll(players: seq<Id>, n: Notice): seq<(Id, Notice)> {
    if players == [] then [] else ToAll(players[..|players| - 1], n) + [(players[|players| - 1], n)]
  }

  lemma {:induction false} ToAllOnce(players: seq<Id>, n: Notice)
    ensures |ToAll(players, n)| == |players|
    ensures forall k :: 0 <= k < |players| ==> ToAll(players, n)[k] == (players[k], n)
  {
    if players != [] { ToAllOnce(players[..|players| - 1], n); }
  }

  // ---- StartMatch ----------------------------------------------------------------------------

  datatype StartError =
    | NoPortsConfigured | SearchFailed | CountFailed | AtCapacity | NoCertificate | NoVm | HostNotSaved
    | NoPortsLeft | NoToken | ContainerFailed | NotSaved

  /** Which outside calls and transactions succeed during one start. */
  datatype StartLuck = StartLuck(
    search: bool, counted: nat -> bool, hostCount: bool, certificate: bool, vm: bool, hostSaved: bool, readySaved: bool,
    allocation: bool, token: bool, container: bool, saved: Io, freed: bool, pushed: bool)
  {
    ghost predicate Perfect() {
      && search && (forall h :: counted(h)) && hostCount && certificate && vm && hostSaved && readySaved
      && allocation && token && container && saved.Acked? && freed && pushed
    }
  }

  /** streams: the game allows spectators and the lobby does not forbid them. */
  datatype Job = Job(ports: nat, queue: nat, players: seq<Id>, streams: bool)

  datatype Fleet = Fleet(maxHosts: int, maxSlots: int)

  /** The hosts that count against the cap. */
  function LiveHosts(db: Db): set<nat> { set h | h in db.hosts && db.hosts[h].status != Gone }

  /** What a new host is registered as: ready if that was saved, with the fleet's slots and no
      port handed out. */
  function NewHost(fleet: Fleet, luck: StartLuck): Host {
    Host(if luck.readySaved then Ready else Provisioning, [], fleet.maxSlots)
  }

  /** No host row has changed, and at most the given one is new. */
  ghost predicate HostsUntouched(before: map<nat, Host>, after: map<nat, Host>, newHost: nat, row: Host) {
    && (forall h :: h in before ==> h in after && after[h] == before[h])
    && (forall h :: h in after && h !in before ==> h == newHost && after[h] == row)
  }

  /** Exactly one instance and one match appear, linked, and the instance owns exactly the
      ports that its host newly handed out. */
  ghost predicate AddsOneMatch(cfg: Config, before: Db, after: Db, i: nat, m: nat, job: Job, newHost: nat, row: Host, now: int) {
    && i !in before.instances && m !in before.matches
    && i in after.instances && after.instances == before.instances[i := after.instances[i]]
    && after.instances[i].status == Starting
    && after.matches == before.matches[m := Match(Some(i), job.queue, job.players, Started, now)]
    && after.results == before.results && after.ratings == before.ratings
    && var h, ports := after.instances[i].host, after.instances[i].ports;
       && h in after.hosts
       && var held := if h in before.hosts then before.hosts[h].ports else [];
          && Allocate(held, job.ports, cfg.portLo, cfg.portHi) == Some(ports)
          && after.hosts[h].ports == held + ports
          && HostsUntouched(before.hosts, after.hosts[h := after.hosts[h].(ports := held)], newHost, row)
  }

  /** The search found nothing among the hosts whose instances could be counted. */
  ghost predicate NoneFits(cfg: Config, db: Db, listed: seq<nat>, counted: nat -> bool, needed: nat) {
    forall h :: h in listed && counted(h) ==> !Fits(cfg, db, h, needed)
  }

  /** A new host is called for and allowed. */
  ghost predicate MayGrow(cfg: Config, db: Db, fleet: Fleet, listed: seq<nat>, needed: nat, luck: StartLuck) {
    luck.search && NoneFits(cfg, db, listed, luck.counted, needed) && luck.hostCount && |LiveHosts(db)| < fleet.maxHosts
  }

  /** Finds or provisions a host; on failure the players have been told or put back. */
  method ProvideHost(db: Database, mail: Mail, cfg: Config, fleet: Fleet, job: Job, listed: seq<nat>, newHost: nat, luck: StartLuck)
    returns (host: nat, err: Option<StartError>)
    requires ListsReady(db.View(), listed) && newHost !in db.hosts
    modifies db, mail
    ensures db.instances == old(db.instances) && db.matches == old(db.matches)
    ensures db.results == old(db.results) && db.ratings == old(db.ratings)
    // a listed host that fits, or else a new one as long as the cap allows it
    ensures err.None? && host in old(db.hosts) ==>
              db.hosts == old(db.hosts) && host in listed && luck.counted(host) && Fits(cfg, db.View(), host, job.ports)
    ensures err.None? && host !in old(db.hosts) ==>
              && host == newHost && MayGrow(cfg, old(db.View()), fleet, listed, job.ports, luck)
              && db.hosts == old(db.hosts)[newHost := Host(if luck.readySaved then Ready else Provisioning, [], fleet.maxSlots)]
    ensures err.None? ==> host in db.hosts && mail.sent == old(mail.sent) && mail.requeued == old(mail.requeued)
    ensures err.Some? ==> Told(old(mail.sent), old(mail.requeued), mail.sent, mail.requeued, job.players, err.value == AtCapacity, luck.pushed)
    // which failure is reported when
    ensures err.Some? ==> db.View() == old(db.View())
    ensures err == Some(SearchFailed) <==> !luck.search
    ensures err == Some(CountFailed) <==> luck.search && NoneFits(cfg, old(db.View()), listed, luck.counted, job.ports) && !luck.hostCount
    ensures err == Some(AtCapacity) <==>
              && luck.search && NoneFits(cfg, old(db.View()), listed, luck.counted, job.ports)
              && luck.hostCount && |LiveHosts(old(db.View()))| >= fleet.maxHosts
    ensures err == Some(NoCertificate) <==> MayGrow(cfg, old(db.View()), fleet, listed, job.ports, luck) && !luck.certificate
    ensures err == Some(NoVm) <==> MayGrow(cfg, old(db.View()), fleet, listed, job.ports, luck) && luck.certificate && !luck.vm
    ensures err == Some(HostNotSaved) <==>
              MayGrow(cfg, old(db.View()), fleet, listed, job.ports, luck) && luck.certificate && luck.vm && !luck.hostSaved
    ensures luck.Perfect() && err.Some? ==> err.value == AtCapacity
    ensures err.Some? ==> err.value in {SearchFailed, CountFailed, AtCapacity, NoCertificate, NoVm, HostNotSaved}
  {
    host := newHost;
    if !luck.search {
      mail.Publish(job.players, StartError);
      return host, Some(SearchFailed);
    }
    var found := FindAvailableHost(db, cfg, listed, job.ports, luck.counted);
    if found.Some? { return found.value, None; }

    if !luck.hostCount {
      mail.Publish(job.players, StartError);
      return host, Some(CountFailed);
    }
    var live := LiveHosts(Db(db.hosts, db.instances, db.matches, db.results, db.ratings));
    if |live| >= fleet.maxHosts {
      mail.PutBack(job.players, luck.pushed);
      return host, Some(AtCapacity);
    }
    if !luck.certificate || !luck.vm || !luck.hostSaved {
      mail.Publish(job.players, StartError);
      return host, Some(if !luck.certificate then NoCertificate else if !luck.vm then NoVm else HostNotSaved);
    }
    db.hosts := db.hosts[newHost := Host(Provisioning, [], fleet.maxSlots)];
    db.SetHostStatus(newHost, Ready, luck.readySaved);
    err := None;
  }

  /** Everybody got the same single answer: an error notice, or a place back in the queue. */
  ghost predicate Told(sent: seq<(Id, Notice)>, requeued: seq<Id>, sent': seq<(Id, Notice)>, requeued': seq<Id>,
                       players: seq<Id>, full: bool, pushed: bool) {
    if full then sent' == sent && requeued' == requeued + if pushed then players else []
    else sent' == sent + ToAll(players, StartError) && requeued' == requeued
  }

  /** What every failure after the allocation does: release by value, tell the players. */
  method GiveUp(db: Database, mail: Mail, h: nat, ports: seq<int>, players: seq<Id>, freed: bool)
    modifies db, mail
    ensures db.View() == if freed then FreeTx(old(db.View()), h, ports) else old(db.View())
    ensures mail.sent == old(mail.sent) + ToAll(players, StartError) && mail.requeued == old(mail.requeued)
  {
    var _ := db.FreePorts(h, ports, freed);
    mail.Publish(players, StartError);
  }

  /** The rows of a start whose commit was reported as failed are there, and, if the release
      went through, their ports are not allocated. */
  ghost predicate SavedUnserved(before: Db, after: Db, i: nat, m: nat, job: Job, now: int, freed: bool) {
    && i in after.instances && after.instances == before.instances[i := after.instances[i]]
    && after.matches == before.matches[m := Match(Some(i), job.queue, job.players, Started, now)]
    && (freed && after.instances[i].host in after.hosts ==>
          forall p :: p in after.instances[i].ports ==> p !in after.hosts[after.instances[i].host].ports)
  }

  /** The allocation goes through. */
  predicate Given(cfg: Config, db: Db, host: nat, job: Job, luck: StartLuck) {
    luck.allocation && AllocateTx(cfg, db, host, job.ports).1.Some?
  }

  /** From the allocation on. u: the goroutine that would stream the match. */
  method StartOnHost(db: Database, mail: Mail, uploaders: Registry.Uploaders, cfg: Config, job: Job, host: nat,
                     i: nat, m: nat, u: nat, now: int, luck: StartLuck)
    returns (err: Option<StartError>)
    requires host in db.hosts && i !in db.instances && m !in db.matches && u !in uploaders.running
    modifies db, mail, uploaders
    ensures uploaders.View() == if err.None? then Registry.Start(old(uploaders.View()), m, u, job.streams) else old(uploaders.View())
    ensures err.None? ==> (AllocateTx(cfg, old(db.View()), host, job.ports).1.Some?
              && var (given, ports) := AllocateTx(cfg, old(db.View()), host, job.ports);
                 PersistTx(given, i, Instance(host, ports.value, Starting), m, Match(Some(i), job.queue, job.players, Started, now))
                   == Some(db.View()))
    ensures err.None? ==> mail.sent == old(mail.sent) + ToAll(job.players, MatchReady(m)) && mail.requeued == old(mail.requeued)
    ensures err.Some? ==> mail.sent == old(mail.sent) + ToAll(job.players, StartError) && mail.requeued == old(mail.requeued)
    ensures err.Some? && err != Some(NotSaved) && luck.freed ==> db.View() == old(db.View())
    ensures err == Some(NotSaved) && !luck.saved.LostReply? && luck.freed ==> db.View() == old(db.View())
    ensures err.Some? && luck.freed ==> db.hosts == old(db.hosts)
    ensures err.Some? ==> db.results == old(db.results) && db.ratings == old(db.ratings)
    ensures err.Some? && !(err == Some(NotSaved) && luck.saved.LostReply?) ==>
              db.instances == old(db.instances) && db.matches == old(db.matches)
    ensures err == Some(NotSaved) && luck.saved.LostReply? ==> SavedUnserved(old(db.View()), db.View(), i, m, job, now, luck.freed)
    // which failure is reported when
    ensures err == Some(NoPortsLeft) <==> !Given(cfg, old(db.View()), host, job, luck)
    ensures err == Some(NoToken) <==> Given(cfg, old(db.View()), host, job, luck) && !luck.token
    ensures err == Some(ContainerFailed) <==> Given(cfg, old(db.View()), host, job, luck) && luck.token && !luck.container
    ensures err == Some(NotSaved) <==>
              Given(cfg, old(db.View()), host, job, luck) && luck.token && luck.container && !luck.saved.Acked?
    ensures err.Some? ==> err.value in {NoPortsLeft, NoToken, ContainerFailed, NotSaved}
    ensures err.None? <==> Given(cfg, old(db.View()), host, job, luck) && luck.token && luck.container && luck.saved.Acked?
  {
    ghost var ready := db.View();
    var ports := db.AllocatePorts(cfg, host, job.ports, luck.allocation);
    if ports.None? {
      mail.Publish(job.players, StartError);
      return Some(NoPortsLeft);
    }
    FreeUndoesAllocate(cfg, ready, host, job.ports);
    if !luck.token || !luck.container {
      GiveUp(db, mail, host, ports.value, job.players, luck.freed);
      return Some(if !luck.token then NoToken else ContainerFailed);
    }
    var inst, row := Instance(host, ports.value, Starting), Match(Some(i), job.queue, job.players, Started, now);
    var saved := db.Persist(i, inst, m, row, luck.saved.Landed());
    if !saved || !luck.saved.Acked? {
      GiveUp(db, mail, host, ports.value, job.players, luck.freed);
      AllocatesSmallestFree(ready.hosts[host].ports, job.ports, cfg.portLo, cfg.portHi);
      return Some(NotSaved);
    }
    uploaders.StartUploader(m, u, job.streams);
    mail.Publish(job.players, MatchReady(m));
    err := None;
  }

  method StartMatch(db: Database, mail: Mail, uploaders: Registry.Uploaders, cfg: Config, fleet: Fleet, job: Job,
                    listed: seq<nat>, newHost: nat, i: nat, m: nat, u: nat, now: int, luck: StartLuck)
    returns (err: Option<StartError>)
    requires ListsReady(db.View(), listed) && newHost !in db.hosts && i !in db.instances && m !in db.matches
    requires u !in uploaders.running
    modifies db, mail, uploaders
    // the match is streamed once it is saved, and only then
    ensures uploaders.View() == if err.None? then Registry.Start(old(uploaders.View()), m, u, job.streams) else old(uploaders.View())
    // all
    ensures err.None? ==> AddsOneMatch(cfg, old(db.View()), db.View(), i, m, job, newHost, NewHost(fleet, luck), now)
    ensures err.None? ==> mail.sent == old(mail.sent) + ToAll(job.players, MatchReady(m)) && mail.requeued == old(mail.requeued)
    // or nothing
    ensures err.Some? ==> db.results == old(db.results) && db.ratings == old(db.ratings)
    ensures err.Some? && !(err == Some(NotSaved) && luck.saved.LostReply?) ==>
              db.instances == old(db.instances) && db.matches == old(db.matches)
    ensures err.Some? && luck.freed ==> HostsUntouched(old(db.hosts), db.hosts, newHost, NewHost(fleet, luck))
    ensures err.Some? ==> Told(old(mail.sent), old(mail.requeued), mail.sent, mail.requeued, job.players, err.value == AtCapacity, luck.pushed)
    // but for a commit that is reported as failed
    ensures err == Some(NotSaved) && luck.saved.LostReply? ==> SavedUnserved(old(db.View()), db.View(), i, m, job, now, luck.freed)
    // and when
    ensures err.None? ==> db.instances[i].host in old(db.hosts) ==>
              |ActiveOn(old(db.View()), db.instances[i].host)| < old(db.hosts)[db.instances[i].host].maxSlots
    ensures err == Some(NoPortsConfigured) <==> job.ports == 0
    ensures err == Some(AtCapacity) <==>
              && job.ports > 0 && luck.search && NoneFits(cfg, old(db.View()), listed, luck.counted, job.ports)
              && luck.hostCount && |LiveHosts(old(db.View()))| >= fleet.maxHosts
    ensures err == Some(AtCapacity) ==> db.View() == old(db.View())
    ensures err.None? && db.instances[i].host !in old(db.hosts) ==> MayGrow(cfg, old(db.View()), fleet, listed, job.ports, luck)
    ensures luck.Perfect() && err.Some? ==>
              err.value == AtCapacity || job.ports == 0 || job.ports > cfg.portHi - cfg.portLo + 1
  {
    if job.ports == 0 {
      mail.Publish(job.players, StartError);
      return Some(NoPortsConfigured);
    }
    var host: nat;
    host, err := ProvideHost(db, mail, cfg, fleet, job, listed, newHost, luck);
    if err.Some? { return; }
    err := StartProvided(db, mail, uploaders, cfg, job, host, i, m, u, now, luck, old(db.View()), newHost, NewHost(fleet, luck));
  }

  /** On the host that was found or provisioned; before: the database at the beginning. */
  method StartProvided(db: Database, mail: Mail, uploaders: Registry.Uploaders, cfg: Config, job: Job, host: nat,
                       i: nat, m: nat, u: nat, now: int, luck: StartLuck, ghost before: Db, ghost newHost: nat, ghost row: Host)
    returns (err: Option<StartError>)
    requires Provided(before, db.View(), host, newHost, row) && i !in before.instances && m !in before.matches
    requires Fits(cfg, db.View(), host, job.ports) || db.hosts[host].ports == []
    requires u !in uploaders.running
    modifies db, mail, uploaders
    ensures uploaders.View() == if err.None? then Registry.Start(old(uploaders.View()), m, u, job.streams) else old(uploaders.View())
    ensures err.None? ==> AddsOneMatch(cfg, before, db.View(), i, m, job, newHost, row, now) && db.instances[i].host == host
    ensures err.None? ==> mail.sent == old(mail.sent) + ToAll(job.players, MatchReady(m)) && mail.requeued == old(mail.requeued)
    ensures err.Some? ==> db.results == before.results && db.ratings == before.ratings
    ensures err.Some? && !(err == Some(NotSaved) && luck.saved.LostReply?) ==>
              db.instances == before.instances && db.matches == before.matches
    ensures err.Some? && luck.freed ==> HostsUntouched(before.hosts, db.hosts, newHost, row)
    ensures err.Some? ==> err.value in {NoPortsLeft, NoToken, ContainerFailed, NotSaved}
    ensures err.Some? ==> mail.sent == old(mail.sent) + ToAll(job.players, StartError) && mail.requeued == old(mail.requeued)
    ensures err == Some(NotSaved) && luck.saved.LostReply? ==> SavedUnserved(before, db.View(), i, m, job, now, luck.freed)
    ensures luck.Perfect() && err.Some? ==> job.ports > cfg.portHi - cfg.portLo + 1
  {
    ghost var mid := db.View();
    ProvidedHostHasPorts(cfg, mid, host, job.ports);
    err := StartOnHost(db, mail, uploaders, cfg, job, host, i, m, u, now, luck);
    if err.None? { StartedAdds(cfg, before, mid, db.View(), host, i, m, job, newHost, row, now); }
  }

  /** mid is before, with the new host if that is the one. */
  ghost predicate Provided(before: Db, mid: Db, host: nat, newHost: nat, row: Host) {
    && newHost !in before.hosts && host in mid.hosts && row.ports == []
    && (mid == before || (host == newHost && mid == before.(hosts := before.hosts[newHost := row])))
  }

  lemma StartedAdds(cfg: Config, before: Db, mid: Db, after: Db, host: nat, i: nat, m: nat, job: Job, newHost: nat, row: Host, now: int)
    requires Provided(before, mid, host, newHost, row) && i !in before.instances && m !in before.matches
    requires AllocateTx(cfg, mid, host, job.ports).1.Some?
    requires var (given, ports) := AllocateTx(cfg, mid, host, job.ports);
             PersistTx(given, i, Instance(host, ports.value, Starting), m, Match(Some(i), job.queue, job.players, Started, now)) == Some(after)
    ensures AddsOneMatch(cfg, before, after, i, m, job, newHost, row, now) && after.instances[i].host == host
  {
    var h, ports := after.instances[i].host, after.instances[i].ports;
    var held := if h in before.hosts then before.hosts[h].ports else [];
    assert after.hosts[h := after.hosts[h].(ports := held)] == mid.hosts;
  }

  /** A host that fits, or a new one, has the ports unless the whole range is too small. */
  lemma ProvidedHostHasPorts(cfg: Config, db: Db, h: nat, needed: nat)
    requires h in db.hosts && (Fits(cfg, db, h, needed) || db.hosts[h].ports == [])
    ensures needed <= cfg.portHi - cfg.portLo + 1 ==> AllocateTx(cfg, db, h, needed).1.Some?
  {
    if needed <= cfg.portHi - cfg.portLo + 1 {
      SubtractionTestSuffices(db.hosts[h].ports, needed, cfg.portLo, cfg.portHi);
    }
  }

  /** Freeing what was just allocated gives back the database of before. */
  lemma FreeUndoesAllocate(cfg: Config, db: Db, h: nat, count: nat)
    requires AllocateTx(cfg, db, h, count).1.Some?
    ensures var (db', ports) := AllocateTx(cfg, db, h, count); FreeTx(db', h, ports.value) == db
  {
    ReleaseUndoesAllocate(db.hosts[h].ports, count, cfg.portLo, cfg.portHi);
    assert db.hosts[h := db.hosts[h]] == db.hosts;
  }

  // ---- what a start leaves for the next ------------------------------------------------------------

  lemma OneMoreActive(before: Db, after: Db, i: nat, h: nat)
    requires i !in before.instances && i in after.instances && after.instances == before.instances[i := after.instances[i]]
    requires after.instances[i].status == Starting
    ensures ActiveOn(after, h) == ActiveOn(before, h) + if after.instances[i].host == h then {i} else {}
    ensures |ActiveOn(after, h)| == |ActiveOn(before, h)| + if after.instances[i].host == h then 1 else 0
  {
    assert i !in ActiveOn(before, h);
    assert ActiveOn(after, h) == ActiveOn(before, h) + if after.instances[i].host == h then {i} else {};
  }

  /** No host runs more instances than it has slots. */
  ghost predicate NoneOverfull(db: Db) {
    forall h :: h in db.hosts && db.hosts[h].maxSlots > 0 ==> |ActiveOn(db, h)| <= db.hosts[h].maxSlots
  }

  /** A start fills no host beyond its slots. */
  lemma StartFillsNoHost(cfg: Config, before: Db, after: Db, i: nat, m: nat, job: Job, newHost: nat, row: Host, now: int)
    requires AddsOneMatch(cfg, before, after, i, m, job, newHost, row, now) && NoneOverfull(before) && newHost !in before.hosts
    requires forall k :: k in before.instances ==> before.instances[k].host in before.hosts
    requires after.instances[i].host in before.hosts ==>
               |ActiveOn(before, after.instances[i].host)| < before.hosts[after.instances[i].host].maxSlots
    ensures NoneOverfull(after)
  {
    forall h | h in after.hosts && after.hosts[h].maxSlots > 0 ensures |ActiveOn(after, h)| <= after.hosts[h].maxSlots {
      OneMoreActive(before, after, i, h);
      if h !in before.hosts { assert ActiveOn(before, h) == {}; }
    }
  }

  /** A host that a start has provisioned and marked ready serves the next start: as long as
      it has a slot and enough ports left, a search that can count its instances finds a host. */
  lemma NextSearchFits(cfg: Config, before: Db, after: Db, i: nat, m: nat, job: Job, newHost: nat, row: Host, now: int,
                       listed: seq<nat>, needed: nat)
    requires AddsOneMatch(cfg, before, after, i, m, job, newHost, row, now)
    requires newHost !in before.hosts && after.instances[i].host == newHost
    requires forall k :: k in before.instances ==> before.instances[k].host in before.hosts
    requires row.status == Ready && row.ports == [] && row.maxSlots > 1 && ListsReady(after, listed)
    requires cfg.portHi - cfg.portLo + 1 - job.ports >= needed
    ensures newHost in listed && Fits(cfg, after, newHost, needed)
  {
    OneMoreActive(before, after, i, newHost);
    assert ActiveOn(before, newHost) == {};
    AllocatesSmallestFree([], job.ports, cfg.portLo, cfg.portHi);
  }

  // ---- what counts against the caps -----------------------------------------------------------------

  /** A host counts against the cap from its registration on, ready or not. */
  lemma NewHostCounts(db: Db, h: nat, row: Host)
    requires h !in db.hosts && row.status != Gone
    ensures LiveHosts(db.(hosts := db.hosts[h := row])) == LiveHosts(db) + {h} && h !in LiveHosts(db)
  {
  }

  /** And until it is marked deleted. */
  lemma DeletedHostCountsNot(db: Db, h: nat)
    ensures LiveHosts(SetHostStatusTx(db, h, Gone)) == LiveHosts(db) - {h}
  {
  }
}
