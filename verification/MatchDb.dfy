/** The database side of a match's life: hosts, server instances, matches, results and
    ratings, and the transactions that change them. Each transaction is given as a function
    on the rows and as a method that performs it. A rejected transaction changes nothing. */
module MatchDb {
  import opened Common
  import opened Ids
  import opened EloApply
  import opened Ports

  // ---- rows ------------------------------------------------------------------------

  datatype HostStatus = Provisioning | Ready | Gone

  /** ports: the host ports currently handed out. */
  datatype Host = Host(status: HostStatus, ports: seq<int>, maxSlots: int)

  datatype InstanceStatus = Starting | Cooling | TearingDown | Removed

  datatype Instance = Instance(host: nat, ports: seq<int>, status: InstanceStatus)

  datatype MatchStatus = Started | InCooldown

  /** instance is empty for a match that never had a container. */
  datatype Match = Match(instance: Option<nat>, queue: nat, players: seq<Id>, status: MatchStatus, createdAt: int)

  datatype Result = Result(winners: seq<Id>, reason: string, endedAt: int, logsKey: string, artifacts: seq<string>)

  datatype Db = Db(
    hosts: map<nat, Host>,
    instances: map<nat, Instance>,
    matches: map<nat, Match>,
    results: map<nat, Result>,
    ratings: map<nat, Rows>)

  datatype Rules = Unranked | Classic(queue: Queue)

  /** Deployment settings. rulesOf: how each queue rates its matches. */
  datatype Config = Config(
    portLo: int, portHi: int,
    cooldown: nat, forceDeadline: nat,
    base: real, rulesOf: map<nat, Rules>)
  {
    ghost predicate Valid() { base > 1.0 && cooldown <= forceDeadline }
  }

  /** What a report, or the timeout, says about how a match ended. */
  datatype Verdict = Verdict(winners: seq<Id>, reason: string, adjustRatings: bool)

  // ---- transactions as functions -----------------------------------------------------

  function AllocateTx(cfg: Config, db: Db, h: nat, count: nat): (r: (Db, Option<seq<int>>)) {
    if h !in db.hosts then (db, None)
    else
      var host := db.hosts[h];
      var found := Allocate(host.ports, count, cfg.portLo, cfg.portHi);
      if found.None? then (db, None)
      else (db.(hosts := db.hosts[h := host.(ports := host.ports + found.value)]), found)
  }

  /** By value: every listed port leaves the host's list, whoever it was handed to. */
  function FreeTx(db: Db, h: nat, ports: seq<int>): Db {
    if h !in db.hosts then db
    else db.(hosts := db.hosts[h := db.hosts[h].(ports := Without(db.hosts[h].ports, ports))])
  }

  function SetHostStatusTx(db: Db, h: nat, status: HostStatus): Db {
    if h !in db.hosts then db
    else db.(hosts := db.hosts[h := db.hosts[h].(status := status)])
  }

  function SetInstanceStatusTx(db: Db, i: nat, status: InstanceStatus): Db {
    if i !in db.instances then db
    else db.(instances := db.instances[i := db.instances[i].(status := status)])
  }

  /** Instance and match appear together or not at all. */
  function PersistTx(db: Db, i: nat, inst: Instance, m: nat, row: Match): Option<Db> {
    if i in db.instances || m in db.matches then None
    else Some(db.(instances := db.instances[i := inst], matches := db.matches[m := row]))
  }

  /** Compare-and-set: cooldown to tearing down, for one caller only. */
  function ClaimTx(db: Db, i: nat): (r: (Db, bool)) {
    if i in db.instances && db.instances[i].status == Cooling
    then (SetInstanceStatusTx(db, i, TearingDown), true)
    else (db, false)
  }

  function RevertTx(db: Db, i: nat): Db {
    if i in db.instances && db.instances[i].status == TearingDown
    then SetInstanceStatusTx(db, i, Cooling)
    else db
  }

  function QueueRows(ratings: map<nat, Rows>, q: nat): Rows {
    if q in ratings then ratings[q] else map[]
  }

  /** The ratings after one result: untouched unless the caller asked and the queue rates. */
  function Rated(cfg: Config, ratings: map<nat, Rows>, row: Match, v: Verdict): map<nat, Rows>
    requires cfg.Valid()
  {
    if v.adjustRatings && row.queue in cfg.rulesOf && cfg.rulesOf[row.queue].Classic?
    then ratings[row.queue := EloUpdate(cfg.base, cfg.rulesOf[row.queue].queue, QueueRows(ratings, row.queue),
                                        row.players, v.winners)]
    else ratings
  }

  /** Whom a result rates, and how: nobody unless the caller asked and the queue rates; the
      match's queue by its own rules, and no other queue. */
  lemma RatedMeaning(cfg: Config, ratings: map<nat, Rows>, row: Match, v: Verdict)
    requires cfg.Valid()
    ensures !v.adjustRatings || row.queue !in cfg.rulesOf || cfg.rulesOf[row.queue].Unranked? ==> Rated(cfg, ratings, row, v) == ratings
    ensures forall q :: q != row.queue ==> QueueRows(Rated(cfg, ratings, row, v), q) == QueueRows(ratings, q)
    ensures v.adjustRatings && row.queue in cfg.rulesOf && cfg.rulesOf[row.queue].Classic? ==>
              QueueRows(Rated(cfg, ratings, row, v), row.queue)
              == EloUpdate(cfg.base, cfg.rulesOf[row.queue].queue, QueueRows(ratings, row.queue), row.players, v.winners)
  {
  }

  /** Rating this result, if it is rated at all, meets no rejected statement. */
  ghost predicate RatesSmoothly(cfg: Config, row: Match, v: Verdict, faults: DbFaults) {
    v.adjustRatings && row.queue in cfg.rulesOf && cfg.rulesOf[row.queue].Classic? ==>
      |NonGuests(row.players)| < 2 || faults.Spare(NonGuests(row.players))
  }

  /** Phase A without the ratings: the result appears, match and instance go into cooldown. */
  function EndRows(db: Db, m: nat, row: Match, v: Verdict, now: int): Db {
    db.(results := db.results[m := Result(v.winners, v.reason, now, "", [])],
        matches := if m in db.matches then db.matches[m := db.matches[m].(status := InCooldown)] else db.matches,
        instances := if row.instance.Some? && row.instance.value in db.instances
                     then db.instances[row.instance.value := db.instances[row.instance.value].(status := Cooling)]
                     else db.instances)
  }

  /** Phase A: result, statuses and ratings in one transaction; a second result for the
      same match violates the primary key. row is the match as read before. */
  function EndTx(cfg: Config, db: Db, m: nat, row: Match, v: Verdict, now: int): Option<Db>
    requires cfg.Valid()
  {
    if m in db.results then None
    else Some(EndRows(db, m, row, v, now).(ratings := Rated(cfg, db.ratings, row, v)))
  }

  /** Phase B: patch logs and artifacts into the result, delete the match row. */
  function FinalizeTx(db: Db, m: nat, logsKey: string, artifacts: Option<seq<string>>): Db {
    var results :=
      if m !in db.results then db.results
      else
        var r := db.results[m];
        db.results[m := r.(logsKey := if logsKey != "" then logsKey else r.logsKey,
                           artifacts := if artifacts.Some? then artifacts.value else r.artifacts)];
    db.(results := results, matches := map k | k in db.matches && k != m :: db.matches[k])
  }

  /** Instances of a host that still take a slot. */
  function ActiveOn(db: Db, h: nat): set<nat> {
    set i | i in db.instances && db.instances[i].host == h && db.instances[i].status != Removed
  }

  // ---- transactions as methods -------------------------------------------------------

  class Database {
    var hosts: map<nat, Host>
    var instances: map<nat, Instance>
    var matches: map<nat, Match>
    var results: map<nat, Result>
    var ratings: map<nat, Rows>

    constructor ()
      ensures View() == Db(map[], map[], map[], map[], map[])
    {
      hosts, instances, matches, results, ratings := map[], map[], map[], map[], map[];
    }

    ghost function View(): Db
      reads this
    {
      Db(hosts, instances, matches, results, ratings)
    }

    method AllocatePorts(cfg: Config, h: nat, count: nat, accepted: bool) returns (ports: Option<seq<int>>)
      modifies this
      ensures accepted ==> (View(), ports) == AllocateTx(cfg, old(View()), h, count)
      ensures !accepted ==> View() == old(View()) && ports.None?
    {
      if !accepted || h !in hosts { return None; }
      ports := ScanPorts(hosts[h].ports, count, cfg.portLo, cfg.portHi);
      if ports.Some? {
        hosts := hosts[h := hosts[h].(ports := hosts[h].ports + ports.value)];
      }
    }

    method FreePorts(h: nat, ports: seq<int>, accepted: bool) returns (ok: bool)
      modifies this
      ensures ok == (accepted && h in old(hosts))
      ensures View() == if accepted then FreeTx(old(View()), h, ports) else old(View())
    {
      if !accepted || h !in hosts { return false; }
      var remaining := KeepOthers(hosts[h].ports, ports);
      hosts := hosts[h := hosts[h].(ports := remaining)];
      ok := true;
    }

    method SetHostStatus(h: nat, status: HostStatus, accepted: bool)
      modifies this
      ensures View() == if accepted then SetHostStatusTx(old(View()), h, status) else old(View())
    {
      if accepted && h in hosts { hosts := hosts[h := hosts[h].(status := status)]; }
    }

    method SetInstanceStatus(i: nat, status: InstanceStatus, accepted: bool)
      modifies this
      ensures View() == if accepted then SetInstanceStatusTx(old(View()), i, status) else old(View())
    {
      if accepted && i in instances { instances := instances[i := instances[i].(status := status)]; }
    }

    /** The persisting transaction of StartMatch: both rows, or neither. */
    method Persist(i: nat, inst: Instance, m: nat, row: Match, accepted: bool) returns (ok: bool)
      modifies this
      ensures ok == (accepted && PersistTx(old(View()), i, inst, m, row).Some?)
      ensures View() == if ok then PersistTx(old(View()), i, inst, m, row).value else old(View())
    {
      if !accepted || i in instances || m in matches { return false; }
      instances := instances[i := inst];
      matches := matches[m := row];
      ok := true;
    }

    method ClaimCooldownInstance(i: nat, accepted: bool) returns (won: bool)
      modifies this
      ensures accepted ==> (View(), won) == ClaimTx(old(View()), i)
      ensures !accepted ==> View() == old(View()) && !won
    {
      won := accepted && i in instances && instances[i].status == Cooling;
      if won { instances := instances[i := instances[i].(status := TearingDown)]; }
    }

    method RevertTearingDownToCooldown(i: nat, accepted: bool)
      modifies this
      ensures View() == if accepted then RevertTx(old(View()), i) else old(View())
    {
      if accepted && i in instances && instances[i].status == TearingDown {
        instances := instances[i := instances[i].(status := Cooling)];
      }
    }

    /** Phase A. The match is read first, outside the transaction; the ratings are updated
        inside it, so a failure there takes the result with it. */
    method MatchEnded(cfg: Config, m: nat, v: Verdict, now: int, readOk: bool, faults: DbFaults, commitOk: bool)
      returns (ok: bool)
      requires cfg.Valid()
      modifies this
      ensures ok ==> m in old(matches) && EndTx(cfg, old(View()), m, old(matches)[m], v, now) == Some(View())
      ensures !ok ==> View() == old(View())
      ensures ok <==> readOk && m in old(matches) && m !in old(results) && commitOk && RatesSmoothly(cfg, old(matches)[m], v, faults)
    {
      if !readOk || m !in matches { return false; }
      var row := matches[m];
      if m in results || !commitOk { return false; }

      var rated := ratings;
      if v.adjustRatings && row.queue in cfg.rulesOf && cfg.rulesOf[row.queue].Classic? {
        var table := new RatingTable(if row.queue in ratings then ratings[row.queue] else map[]);
        var done := ApplyClassicElo(table, cfg.base, cfg.rulesOf[row.queue].queue, row.players, v.winners, faults);
        if !done { return false; }
        rated := ratings[row.queue := table.rows];
      }
      results := results[m := Result(v.winners, v.reason, now, "", [])];
      matches := matches[m := row.(status := InCooldown)];
      if row.instance.Some? && row.instance.value in instances {
        instances := instances[row.instance.value := instances[row.instance.value].(status := Cooling)];
      }
      ratings := rated;
      ok := true;
    }

    method FinalizeMatchTeardown(m: nat, logsKey: string, artifacts: Option<seq<string>>, accepted: bool)
      modifies this
      ensures View() == if accepted then FinalizeTx(old(View()), m, logsKey, artifacts) else old(View())
    {
      if !accepted { return; }
      if m in results {
        var r := results[m];
        if logsKey != "" { r := r.(logsKey := logsKey); }
        if artifacts.Some? { r := r.(artifacts := artifacts.value); }
        results := results[m := r];
      }
      matches := map k | k in matches && k != m :: matches[k];
    }
  }
}
