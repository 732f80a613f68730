/** Ending a match and tearing its instance down, and the sweeps that do so for many. */
module Teardown {
  import opened Common
  import opened EloApply
  import opened Ports
  import opened MatchDb
  import Registry = UploaderRegistry
  import Stream = SpectatorModel
  import Code = SpectatorCode

  // ---- TeardownCooledMatch -------------------------------------------------------------------

  /** How the outside calls and transactions of one teardown turn out; logsKey is empty when
      the logs could not be saved, artifacts is missing when the index could not be read. */
  datatype TearLuck = TearLuck(
    stopped: bool, reverted: bool, freed: bool, marked: bool, finalized: bool,
    logsKey: string, artifacts: Option<seq<string>>)

  /** The database after one teardown of instance i of match m. */
  function TornDown(db: Db, i: nat, m: nat, force: bool, luck: TearLuck): Db {
    if i !in db.instances then db
    else if !luck.stopped && !force then (if luck.reverted then RevertTx(db, i) else db)
    else
      var freed := if luck.freed then FreeTx(db, db.instances[i].host, db.instances[i].ports) else db;
      var marked := if luck.marked then SetInstanceStatusTx(freed, i, Removed) else freed;
      if luck.finalized then FinalizeTx(marked, m, luck.logsKey, luck.artifacts) else marked
  }

  method TeardownCooledMatch(db: Database, i: nat, m: nat, force: bool, luck: TearLuck)
    requires i in db.instances
    modifies db
    ensures db.View() == TornDown(old(db.View()), i, m, force, luck)
  {
    var inst := db.instances[i];
    if !luck.stopped {
      if !force {
        db.RevertTearingDownToCooldown(i, luck.reverted);
        return;
      }
    }
    var _ := db.FreePorts(inst.host, inst.ports, luck.freed);
    db.SetInstanceStatus(i, Removed, luck.marked);
    db.FinalizeMatchTeardown(m, luck.logsKey, luck.artifacts, luck.finalized);
  }

  /** A stop that fails before the deadline undoes the claim: the database is as before, so
      the next sweep can try again. */
  lemma FailedStopUndoesClaim(db: Db, i: nat, m: nat, luck: TearLuck)
    requires ClaimTx(db, i).1 && !luck.stopped && luck.reverted
    ensures TornDown(ClaimTx(db, i).0, i, m, false, luck) == db
  {
    var claimed := ClaimTx(db, i).0;
    assert claimed.instances[i := db.instances[i]] == db.instances;
  }

  /** Instance and match are gone, the result has its logs, and no other row has changed. */
  ghost predicate RowsClosed(db: Db, db': Db, i: nat, m: nat, luck: TearLuck)
    requires i in db.instances
  {
    && db'.instances == db.instances[i := db.instances[i].(status := Removed)]
    && m !in db'.matches && (forall k :: k in db.matches && k != m ==> k in db'.matches && db'.matches[k] == db.matches[k])
    && db'.matches.Keys <= db.matches.Keys
    && db'.ratings == db.ratings && db'.results.Keys == db.results.Keys
    && (forall k :: k in db.results && k != m ==> db'.results[k] == db.results[k])
    && (m in db.results ==>
          && db'.results[m].winners == db.results[m].winners && db'.results[m].reason == db.results[m].reason
          && db'.results[m].endedAt == db.results[m].endedAt
          && (luck.logsKey != "" ==> db'.results[m].logsKey == luck.logsKey)
          && (luck.logsKey == "" ==> db'.results[m].logsKey == db.results[m].logsKey)
          && (luck.artifacts.Some? ==> db'.results[m].artifacts == luck.artifacts.value)
          && (luck.artifacts.None? ==> db'.results[m].artifacts == db.results[m].artifacts))
  }

  /** The given ports have left the list of host h, and no other host has changed. */
  ghost predicate PortsFreed(before: map<nat, Host>, after: map<nat, Host>, h: nat, ports: seq<int>) {
    && after.Keys == before.Keys
    && forall k :: k in before ==>
         && after[k].status == before[k].status
         && (k != h ==> after[k] == before[k])
         && (k == h ==> forall p :: p in after[k].ports <==> p in before[k].ports && p !in ports)
  }

  /** Everything a teardown is for, and nothing else. */
  ghost predicate Finished(db: Db, db': Db, i: nat, m: nat, luck: TearLuck)
    requires i in db.instances
  {
    RowsClosed(db, db', i, m, luck) && PortsFreed(db.hosts, db'.hosts, db.instances[i].host, db.instances[i].ports)
  }

  lemma FreeFrees(db: Db, h: nat, ports: seq<int>)
    ensures PortsFreed(db.hosts, FreeTx(db, h, ports).hosts, h, ports)
  {
    if h in db.hosts { WithoutMeaning(db.hosts[h].ports, ports); }
  }

  lemma ClosesRows(db: Db, i: nat, m: nat, force: bool, luck: TearLuck)
    requires i in db.instances && luck.freed && luck.marked && luck.finalized && (luck.stopped || force)
    ensures RowsClosed(db, TornDown(db, i, m, force, luck), i, m, luck)
  {
  }

  /** Unless a transaction fails, a teardown of a claimed instance finishes exactly if the
      container stopped or the deadline has passed; otherwise only the claim is undone. */
  lemma TeardownFinishesIff(db: Db, i: nat, m: nat, force: bool, luck: TearLuck)
    requires i in db.instances && db.instances[i].status == TearingDown
    requires luck.reverted && luck.freed && luck.marked && luck.finalized
    ensures Finished(db, TornDown(db, i, m, force, luck), i, m, luck) <==> luck.stopped || force
    ensures !(luck.stopped || force) ==> TornDown(db, i, m, force, luck) == RevertTx(db, i)
  {
    if luck.stopped || force {
      ClosesRows(db, i, m, force, luck);
      FreeFrees(db, db.instances[i].host, db.instances[i].ports);
    } else {
      assert TornDown(db, i, m, force, luck).instances[i].status == Cooling;
    }
  }

  // ---- EndMatch --------------------------------------------------------------------------------

  datatype EndLuck = EndLuck(
    checked: bool, loaded: bool, elo: DbFaults, committed: bool, finalized: bool, instanceRead: bool, claimed: bool)
  {
    /** Phase A goes through for this match. */
    ghost predicate Records(cfg: Config, db: Db, m: nat, v: Verdict) {
      loaded && m in db.matches && m !in db.results && committed && RatesSmoothly(cfg, db.matches[m], v, elo)
    }
  }

  /** Stops the uploader, moves the stream to its replay place, and records the end. A move
      that fails is only logged. s0 and id: the stream's store as the transition system sees
      it, and the number of this move there. */
  method EndMatch(db: Database, uploaders: Registry.Uploaders, store: Code.ObjectStore, cfg: Config, m: nat, spectated: bool,
                  v: Verdict, now: int, luck: EndLuck, move: Code.MoveIo, tear: TearLuck, ghost s0: Stream.State, ghost id: nat)
    returns (ok: bool)
    requires cfg.Valid() && s0.store == store.View() && id !in s0.moves && !s0.reader.pc.AwaitingLive?
    modifies db, uploaders, store
    // stream and uploader are dealt with exactly if the match is still underway
    ensures luck.checked && Underway(old(db.View()), m) ==> uploaders.View() == Registry.Stop(old(uploaders.View()), m)
    ensures !(luck.checked && Underway(old(db.View()), m)) ==> uploaders.View() == old(uploaders.View())
    ensures !(luck.checked && Underway(old(db.View()), m) && spectated) ==> store.View() == old(store.View())
    ensures luck.checked && Underway(old(db.View()), m) && spectated ==> Code.MoveLeaves(old(store.View()), store.View(), move)
    ensures Code.MoveLeads(s0, s0.(store := store.View()), id)
    // nothing is recorded, or phase A and what belongs to it
    ensures if luck.checked && Underway(old(db.View()), m) && luck.Records(cfg, old(db.View()), m, v)
            then db.View() == EndedAs(cfg, old(db.View()), m, v, now, luck, tear) && m in db.results
            else db.View() == old(db.View())
    ensures ok <==> luck.checked && Underway(old(db.View()), m) && luck.Records(cfg, old(db.View()), m, v)
                    && (old(db.matches)[m].instance.None? ==> luck.finalized)
  {
    Code.MoveLeadsStart(s0, id);
    if !luck.checked || m !in db.matches || db.matches[m].status != Started { return false; }
    uploaders.StopUploader(m);
    if spectated { var _ := Code.MoveSpectateLiveToReplay(store, move, s0, id); }
    ok := RecordEnd(db, cfg, m, v, now, luck, tear);
  }

  /** Phase A, then at once phase B where there is nothing to wait for. */
  method RecordEnd(db: Database, cfg: Config, m: nat, v: Verdict, now: int, luck: EndLuck, tear: TearLuck) returns (ok: bool)
    requires cfg.Valid() && Underway(db.View(), m)
    modifies db
    ensures if luck.Records(cfg, old(db.View()), m, v)
            then db.View() == EndedAs(cfg, old(db.View()), m, v, now, luck, tear) && m in db.results
            else db.View() == old(db.View())
    ensures ok <==> luck.Records(cfg, old(db.View()), m, v) && (old(db.matches)[m].instance.None? ==> luck.finalized)
  {
    var row := db.matches[m];
    if row.instance.None? {
      ok := db.MatchEnded(cfg, m, v, now, luck.loaded, luck.elo, luck.committed);
      if !ok { return; }
      db.FinalizeMatchTeardown(m, "", None, luck.finalized);
      return luck.finalized;
    }
    ok := db.MatchEnded(cfg, m, v, now, luck.loaded, luck.elo, luck.committed);
    if !ok { return; }
    if cfg.cooldown == 0 { TeardownInline(db, row.instance.value, m, luck, tear); }
  }

  /** Phase B in the same call: if the claim is lost, its winner does the work. */
  method TeardownInline(db: Database, i: nat, m: nat, luck: EndLuck, tear: TearLuck)
    modifies db
    ensures db.View() == if luck.instanceRead && luck.claimed && ClaimTx(old(db.View()), i).1
                         then TornDown(ClaimTx(old(db.View()), i).0, i, m, false, tear) else old(db.View())
    ensures m in old(db.results) ==> m in db.results
  {
    if !luck.instanceRead || i !in db.instances { return; }
    var claimed := db.ClaimCooldownInstance(i, luck.claimed);
    if claimed { TeardownCooledMatch(db, i, m, false, tear); }
  }

  predicate Underway(db: Db, m: nat) { m in db.matches && db.matches[m].status == Started }

  /** The result of phase A on a match underway. */
  function PhaseA(cfg: Config, db: Db, m: nat, v: Verdict, now: int): Db
    requires cfg.Valid() && m in db.matches && m !in db.results
  {
    EndTx(cfg, db, m, db.matches[m], v, now).value
  }

  /** The database after a recorded end: phase A alone while the instance cools; without an
      instance the row is deleted if that goes through; without a cooldown the instance is torn
      down if it could be read and claimed. */
  function EndedAs(cfg: Config, db: Db, m: nat, v: Verdict, now: int, luck: EndLuck, tear: TearLuck): Db
    requires cfg.Valid() && m in db.matches && m !in db.results
  {
    var ended := PhaseA(cfg, db, m, v, now);
    match db.matches[m].instance
    case None => if luck.finalized then FinalizeTx(ended, m, "", None) else ended
    case Some(i) =>
      if cfg.cooldown == 0 && luck.instanceRead && luck.claimed && ClaimTx(ended, i).1
      then TornDown(ClaimTx(ended, i).0, i, m, false, tear) else ended
  }

  /** The verdict is recorded, with its time. */
  predicate Recorded(db: Db, m: nat, v: Verdict, now: int) {
    m in db.results && db.results[m].winners == v.winners && db.results[m].reason == v.reason && db.results[m].endedAt == now
  }

  /** The rows after phase A. */
  lemma PhaseAMeans(cfg: Config, db: Db, m: nat, v: Verdict, now: int)
    requires cfg.Valid() && Underway(db, m) && m !in db.results
    ensures var db', inst := PhaseA(cfg, db, m, v, now), db.matches[m].instance;
            && db'.hosts == db.hosts && db'.ratings == Rated(cfg, db.ratings, db.matches[m], v)
            && db'.results == db.results[m := Result(v.winners, v.reason, now, "", [])]
            && db'.matches == db.matches[m := db.matches[m].(status := InCooldown)]
            && db'.instances == if inst.Some? && inst.value in db.instances
                                then db.instances[inst.value := db.instances[inst.value].(status := Cooling)] else db.instances
  {
  }

  /** The verdict stands, nobody else's rows have changed, and the ratings are the given ones. */
  ghost predicate Settled(db: Db, db': Db, m: nat, v: Verdict, now: int, ratings: map<nat, Rows>) {
    && Recorded(db', m, v, now) && db'.ratings == ratings
    && (forall k :: k in db.results && k != m ==> k in db'.results && db'.results[k] == db.results[k])
    && (forall k :: k in db.matches && k != m ==> k in db'.matches && db'.matches[k] == db.matches[k])
  }

  lemma TornDownSettled(cfg: Config, db: Db, m: nat, v: Verdict, now: int, i: nat, tear: TearLuck)
    requires cfg.Valid() && Underway(db, m) && m !in db.results && db.matches[m].instance == Some(i) && i in db.instances
    requires tear.stopped && tear.freed && tear.marked && tear.finalized
    ensures var db' := TornDown(ClaimTx(PhaseA(cfg, db, m, v, now), i).0, i, m, false, tear);
            && Settled(db, db', m, v, now, Rated(cfg, db.ratings, db.matches[m], v)) && m !in db'.matches
            && db'.instances == db.instances[i := db.instances[i].(status := Removed)]
  {
    var ended := PhaseA(cfg, db, m, v, now);
    PhaseAMeans(cfg, db, m, v, now);
    ClosesRows(ClaimTx(ended, i).0, i, m, false, tear);
  }

  /** What ending a match leaves behind. The verdict is recorded, with the ratings it implies.
      Without an instance, or without cooldown, the match row is gone and the result alone
      remains; with a cooldown the match and its instance cool, and the row, with its
      authentication code, is still there. A stop that fails without cooldown, or a claim that
      is not made, leaves exactly the state a cooldown would have left. */
  lemma EndedMeans(cfg: Config, db: Db, m: nat, v: Verdict, now: int, luck: EndLuck, tear: TearLuck)
    requires cfg.Valid() && Underway(db, m) && m !in db.results
    requires tear.reverted && tear.freed && tear.marked && tear.finalized
    ensures var db' := EndedAs(cfg, db, m, v, now, luck, tear);
            var inst := db.matches[m].instance;
            && Settled(db, db', m, v, now, Rated(cfg, db.ratings, db.matches[m], v))
            && (inst.None? ==> (m in db'.matches <==> !luck.finalized) && db'.instances == db.instances)
            && (inst.Some? && inst.value in db.instances ==>
                  if cfg.cooldown == 0 && luck.instanceRead && luck.claimed && tear.stopped
                  then m !in db'.matches && db'.instances == db.instances[inst.value := db.instances[inst.value].(status := Removed)]
                  else db'.matches == db.matches[m := db.matches[m].(status := InCooldown)]
                       && db'.instances == db.instances[inst.value := db.instances[inst.value].(status := Cooling)]
                       && db'.hosts == db.hosts)
  {
    var inst := db.matches[m].instance;
    PhaseAMeans(cfg, db, m, v, now);
    if inst.Some? && inst.value in db.instances && cfg.cooldown == 0 && luck.instanceRead && luck.claimed {
      if tear.stopped {
        TornDownSettled(cfg, db, m, v, now, inst.value, tear);
      } else {
        FailedStopUndoesClaim(PhaseA(cfg, db, m, v, now), inst.value, m, tear);
      }
    }
  }
}
