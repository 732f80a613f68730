/** Every step is one of the kinds of change, so every run keeps the rows in order. */
module LifecycleSteps {
  import opened Common
  import opened MatchDb
  import opened LifecycleModel
  import opened LifecycleRows

  ghost predicate Fine(cfg: Config, s: State, s': State, w: nat) {
    Change(s, s') && Moves(cfg, s, s', w)
  }

  /** Releasing ports is a change of one host row. */
  lemma FreeingChanges(s: State, s': State, h: nat, ports: seq<int>)
    requires HostsOk(s) && h in s.settled
    requires SameWorld(s, s') && s'.made == s.made && s'.commits == s.commits && s'.settled == s.settled
    requires s.compromised <= s'.compromised && IsPrefix(s.releases, s'.releases)
    requires s'.db == FreeTx(s.db, h, ports)
    ensures HostChange(s, s', h)
  {
  }

  lemma PickHostFine(cfg: Config, s: State, w: nat, h: nat, spec: Spec)
    requires cfg.Valid() && HostsOk(s) && (w in s.work ==> Knows(cfg, s, s.work[w]))
    ensures Fine(cfg, s, DoPickHost(s, w, h, spec), w)
  {
  }

  lemma CreateVmFine(cfg: Config, s: State, w: nat, h: nat, goal: Goal)
    requires cfg.Valid() && (w in s.work ==> Knows(cfg, s, s.work[w]))
    ensures Fine(cfg, s, DoCreateVm(s, w, h, goal), w)
  {
  }

  lemma InsertHostFine(cfg: Config, s: State, w: nat, maxSlots: int, ok: bool)
    requires cfg.Valid() && HostsOk(s) && (w in s.work ==> Knows(cfg, s, s.work[w]))
    ensures Fine(cfg, s, DoInsertHost(s, w, maxSlots, ok), w)
  {
    var s' := DoInsertHost(s, w, maxSlots, ok);
    if s' != s && !Quiet(s, s') { assert HostChange(s, s', s.work[w].host); }
  }

  lemma SetReadyChanges(cfg: Config, s: State, w: nat, ok: bool)
    requires cfg.Valid() && HostsOk(s) && (w in s.work ==> Knows(cfg, s, s.work[w]))
    requires w in s.work && s.work[w].HostCreated? ==> s.work[w].host !in s.settled
    ensures Change(s, DoSetReady(s, w, ok))
  {
    var s' := DoSetReady(s, w, ok);
    if s' != s && !Quiet(s, s') { assert HostChange(s, s', s.work[w].host); }
  }

  lemma SetReadyMoves(cfg: Config, s: State, w: nat, ok: bool)
    requires cfg.Valid() && HostsOk(s) && (w in s.work ==> Knows(cfg, s, s.work[w]))
    requires w in s.work && s.work[w].HostCreated? ==> s.work[w].host !in s.settled
    ensures Moves(cfg, s, DoSetReady(s, w, ok), w)
  {
  }

  lemma SetReadyFine(cfg: Config, s: State, w: nat, ok: bool)
    requires cfg.Valid() && HostsOk(s) && (w in s.work ==> Knows(cfg, s, s.work[w]))
    requires w in s.work && s.work[w].HostCreated? ==> s.work[w].host !in s.settled
    ensures Fine(cfg, s, DoSetReady(s, w, ok), w)
  {
    SetReadyChanges(cfg, s, w, ok);
    SetReadyMoves(cfg, s, w, ok);
  }

  lemma AllocatePortsFine(cfg: Config, s: State, w: nat, io: Io)
    requires cfg.Valid() && HostsOk(s) && (w in s.work ==> Knows(cfg, s, s.work[w]))
    ensures Fine(cfg, s, DoAllocatePorts(cfg, s, w, io), w)
  {
    var s' := DoAllocatePorts(cfg, s, w, io);
    if s' != s && !Quiet(s, s') { assert HostChange(s, s', s.work[w].host); }
  }

  lemma StartFailsFine(cfg: Config, s: State, w: nat)
    requires cfg.Valid() && (w in s.work ==> Knows(cfg, s, s.work[w]))
    ensures Fine(cfg, s, DoStartFails(s, w), w)
  {
  }

  lemma PersistFine(cfg: Config, s: State, w: nat, i: nat, m: nat, io: Io)
    requires cfg.Valid() && (w in s.work ==> Knows(cfg, s, s.work[w]))
    ensures Fine(cfg, s, DoPersist(s, w, i, m, io), w)
  {
    var s' := DoPersist(s, w, i, m, io);
    if s' != s && !Quiet(s, s') { assert Birth(s, s', m, s'.made[m]); }
  }

  lemma FreeAbandonedFine(cfg: Config, s: State, w: nat, ok: bool)
    requires cfg.Valid() && HostsOk(s) && (w in s.work ==> Knows(cfg, s, s.work[w]))
    ensures Fine(cfg, s, DoFreeAbandoned(s, w, ok), w)
  {
    var s' := DoFreeAbandoned(s, w, ok);
    if s' != s && !Quiet(s, s') { FreeingChanges(s, s', s.work[w].host, s.work[w].ports); }
  }

  lemma ReportFine(cfg: Config, s: State, w: nat, m: nat, v: Verdict)
    requires cfg.Valid() && (w in s.work ==> Knows(cfg, s, s.work[w]))
    requires Linked(s)
    ensures Fine(cfg, s, DoReport(s, w, m, v), w)
  {
  }

  lemma TimeOutFine(cfg: Config, s: State, w: nat, m: nat)
    requires cfg.Valid() && (w in s.work ==> Knows(cfg, s, s.work[w]))
    requires Linked(s)
    ensures Fine(cfg, s, DoTimeOut(s, w, m), w)
  {
  }

  lemma CheckUnderwayFine(cfg: Config, s: State, w: nat)
    requires cfg.Valid() && (w in s.work ==> Knows(cfg, s, s.work[w]))
    ensures Fine(cfg, s, DoCheckUnderway(s, w), w)
  {
  }

  lemma LoadMatchFine(cfg: Config, s: State, w: nat)
    requires cfg.Valid() && (w in s.work ==> Knows(cfg, s, s.work[w]))
    requires Linked(s)
    ensures Fine(cfg, s, DoLoadMatch(s, w), w)
  {
  }

  ghost predicate Writes(s: State, s': State, m: nat, row: Match, v: Verdict) {
    && m !in s.db.results && SameWorld(s, s') && s'.made == s.made && s'.settled == s.settled
    && s'.releases == s.releases && s'.compromised == s.compromised && s'.commits == s.commits + [Ended(m, v)]
    && s'.db == EndRows(s.db, m, row, v, s.now).(ratings := s'.db.ratings)
  }

  /** Where a worker goes after committing a result. */
  ghost predicate Follows(cfg: Config, s': State, w: nat, m: nat, row: Match) {
    w in s'.work ==>
      || (row.instance.None? && s'.work[w] == BareEnded(m))
      || (row.instance.Some? && s'.work[w] == InlineClaim(row.instance.value, m) && cfg.cooldown == 0)
  }

  /** Worker w's commit goes through. */
  predicate Commits(s: State, w: nat, ok: bool) { ok && w in s.work && s.work[w].Loaded? && s.work[w].m !in s.db.results }

  lemma CommitIsTx(cfg: Config, s: State, w: nat, ok: bool)
    requires cfg.Valid() && Commits(s, w, ok)
    ensures var s', pc := DoCommitResult(cfg, s, w, ok), s.work[w];
            EndTx(cfg, s.db, pc.m, pc.row, pc.v, s.now) == Some(s'.db) && s' == AfterCommit(cfg, s, w, s'.db)
  {
  }

  lemma RefusedIsQuiet(cfg: Config, s: State, w: nat, ok: bool)
    requires cfg.Valid() && !Commits(s, w, ok)
    ensures var s' := DoCommitResult(cfg, s, w, ok);
            Quiet(s, s') && OnlyWorker(s, s', w) && (w in s'.work ==> s' == s)
  {
  }

  lemma TxWrites(cfg: Config, db: Db, db': Db, m: nat, row: Match, v: Verdict, now: int)
    requires cfg.Valid() && EndTx(cfg, db, m, row, v, now) == Some(db')
    ensures m !in db.results && db' == EndRows(db, m, row, v, now).(ratings := db'.ratings)
  {
  }

  lemma CommitKeepsWorld(cfg: Config, s: State, w: nat, db: Db)
    requires w in s.work && s.work[w].Loaded?
    ensures var s', pc := AfterCommit(cfg, s, w, db), s.work[w];
            && SameWorld(s, s') && s'.made == s.made && s'.settled == s.settled
            && s'.releases == s.releases && s'.compromised == s.compromised && s'.commits == s.commits + [Ended(pc.m, pc.v)]
    ensures OnlyWorker(s, AfterCommit(cfg, s, w, db), w)
    ensures Follows(cfg, AfterCommit(cfg, s, w, db), w, s.work[w].m, s.work[w].row)
  {
  }

  lemma CommitResultWrites(cfg: Config, s: State, w: nat, ok: bool)
    requires cfg.Valid()
    ensures var s' := DoCommitResult(cfg, s, w, ok);
            || Quiet(s, s')
            || (w in s.work && s.work[w].Loaded? && Writes(s, s', s.work[w].m, s.work[w].row, s.work[w].v))
    ensures var s' := DoCommitResult(cfg, s, w, ok);
            && OnlyWorker(s, s', w)
            && (w in s'.work ==> s' == s || (w in s.work && s.work[w].Loaded? && Follows(cfg, s', w, s.work[w].m, s.work[w].row)))
  {
    if Commits(s, w, ok) {
      var pc, db' := s.work[w], DoCommitResult(cfg, s, w, ok).db;
      CommitIsTx(cfg, s, w, ok);
      TxWrites(cfg, s.db, db', pc.m, pc.row, pc.v, s.now);
      CommitKeepsWorld(cfg, s, w, db');
    } else {
      RefusedIsQuiet(cfg, s, w, ok);
    }
  }

  lemma WritesCommit(s: State, s': State, m: nat, row: Match, v: Verdict)
    requires HostsOk(s) && Linked(s) && Lifecycle(s)
    requires m in s.made && SameMatch(row, s.made[m]) && Writes(s, s', m, row, v)
    ensures Committed(s, s', m, v) && Change(s, s')
  {
    assert Committed(s, s', m, v);
  }

  lemma WriterKnows(cfg: Config, s: State, s': State, w: nat, m: nat, row: Match, v: Verdict)
    requires Linked(s) && m in s.made && SameMatch(row, s.made[m])
    requires Writes(s, s', m, row, v) && Follows(cfg, s', w, m, row)
    ensures w in s'.work ==> Knows(cfg, s', s'.work[w])
  {
  }

  lemma CommitResultFine(cfg: Config, s: State, w: nat, ok: bool)
    requires cfg.Valid() && HostsOk(s) && (w in s.work ==> Knows(cfg, s, s.work[w]))
    requires Linked(s) && Lifecycle(s)
    ensures Fine(cfg, s, DoCommitResult(cfg, s, w, ok), w)
  {
    var s' := DoCommitResult(cfg, s, w, ok);
    CommitResultWrites(cfg, s, w, ok);
    if !Quiet(s, s') {
      var pc := s.work[w];
      WritesCommit(s, s', pc.m, pc.row, pc.v);
      WriterKnows(cfg, s, s', w, pc.m, pc.row, pc.v);
    }
  }

  lemma FinalizeBareFine(cfg: Config, s: State, w: nat, ok: bool)
    requires cfg.Valid() && (w in s.work ==> Knows(cfg, s, s.work[w]))
    ensures Fine(cfg, s, DoFinalizeBare(s, w, ok), w)
  {
    var s' := DoFinalizeBare(s, w, ok);
    if s' != s && !Quiet(s, s') { assert Closed(s, s', s.work[w].m); }
  }

  lemma ClaimInlineChanges(cfg: Config, s: State, w: nat, ok: bool)
    requires cfg.Valid() && (w in s.work ==> Knows(cfg, s, s.work[w]))
    ensures Change(s, DoClaimInline(s, w, ok))
  {
    var s' := DoClaimInline(s, w, ok);
    if s' != s && !Quiet(s, s') { assert StatusChange(s, s', s.work[w].i); }
  }

  lemma ClaimInlineMoves(cfg: Config, s: State, w: nat, ok: bool)
    requires cfg.Valid() && (w in s.work ==> Knows(cfg, s, s.work[w]))
    ensures Moves(cfg, s, DoClaimInline(s, w, ok), w)
  {
  }

  lemma ClaimInlineFine(cfg: Config, s: State, w: nat, ok: bool)
    requires cfg.Valid() && (w in s.work ==> Knows(cfg, s, s.work[w]))
    ensures Fine(cfg, s, DoClaimInline(s, w, ok), w)
  {
    ClaimInlineChanges(cfg, s, w, ok);
    ClaimInlineMoves(cfg, s, w, ok);
  }

  lemma ListReadyFine(cfg: Config, s: State, w: nat, i: nat, m: nat)
    requires cfg.Valid() && (w in s.work ==> Knows(cfg, s, s.work[w]))
    requires Linked(s)
    ensures Fine(cfg, s, DoListReady(cfg, s, w, i, m), w)
  {
  }

  lemma ClaimChanges(cfg: Config, s: State, w: nat, ok: bool)
    requires cfg.Valid() && (w in s.work ==> Knows(cfg, s, s.work[w]))
    ensures Change(s, DoClaim(s, w, ok))
  {
    var s' := DoClaim(s, w, ok);
    if s' != s && !Quiet(s, s') { assert StatusChange(s, s', s.work[w].i); }
  }

  lemma ClaimMoves(cfg: Config, s: State, w: nat, ok: bool)
    requires cfg.Valid() && (w in s.work ==> Knows(cfg, s, s.work[w]))
    ensures Moves(cfg, s, DoClaim(s, w, ok), w)
  {
  }

  lemma ClaimFine(cfg: Config, s: State, w: nat, ok: bool)
    requires cfg.Valid() && (w in s.work ==> Knows(cfg, s, s.work[w]))
    ensures Fine(cfg, s, DoClaim(s, w, ok), w)
  {
    ClaimChanges(cfg, s, w, ok);
    ClaimMoves(cfg, s, w, ok);
  }

  lemma DecideFine(cfg: Config, s: State, w: nat)
    requires cfg.Valid() && (w in s.work ==> Knows(cfg, s, s.work[w]))
    ensures Fine(cfg, s, DoDecide(cfg, s, w), w)
  {
  }

  lemma StopDoneFine(cfg: Config, s: State, w: nat, stopped: bool)
    requires cfg.Valid() && (w in s.work ==> Knows(cfg, s, s.work[w]))
    ensures Fine(cfg, s, DoStopDone(s, w, stopped), w)
  {
  }

  lemma RevertFine(cfg: Config, s: State, w: nat, ok: bool)
    requires cfg.Valid() && (w in s.work ==> Knows(cfg, s, s.work[w]))
    ensures Fine(cfg, s, DoRevert(s, w, ok), w)
  {
    var s' := DoRevert(s, w, ok);
    if s' != s && !Quiet(s, s') { assert StatusChange(s, s', s.work[w].i); }
  }

  lemma ReleaseChanges(cfg: Config, s: State, w: nat, ok: bool)
    requires cfg.Valid() && HostsOk(s) && (w in s.work ==> Knows(cfg, s, s.work[w]))
    ensures Change(s, DoRelease(s, w, ok))
  {
    var s' := DoRelease(s, w, ok);
    if s' != s && !Quiet(s, s') { FreeingChanges(s, s', s.db.instances[s.work[w].i].host, s.db.instances[s.work[w].i].ports); }
  }

  lemma ReleaseMoves(cfg: Config, s: State, w: nat, ok: bool)
    requires cfg.Valid() && (w in s.work ==> Knows(cfg, s, s.work[w]))
    ensures Moves(cfg, s, DoRelease(s, w, ok), w)
  {
  }

  lemma ReleaseFine(cfg: Config, s: State, w: nat, ok: bool)
    requires cfg.Valid() && HostsOk(s) && (w in s.work ==> Knows(cfg, s, s.work[w]))
    ensures Fine(cfg, s, DoRelease(s, w, ok), w)
  {
    ReleaseChanges(cfg, s, w, ok);
    ReleaseMoves(cfg, s, w, ok);
  }

  lemma MarkFine(cfg: Config, s: State, w: nat, ok: bool)
    requires cfg.Valid() && (w in s.work ==> Knows(cfg, s, s.work[w]))
    ensures Fine(cfg, s, DoMark(s, w, ok), w)
  {
    var s' := DoMark(s, w, ok);
    if s' != s && !Quiet(s, s') { assert StatusChange(s, s', s.work[w].i); }
  }

  lemma FinalizeChanges(cfg: Config, s: State, w: nat, logsKey: string, artifacts: Option<seq<string>>, ok: bool)
    requires cfg.Valid() && HostsOk(s) && (w in s.work ==> Knows(cfg, s, s.work[w]))
    ensures Change(s, DoFinalize(s, w, logsKey, artifacts, ok))
  {
    var s' := DoFinalize(s, w, logsKey, artifacts, ok);
    if s' != s && !Quiet(s, s') { assert Closed(s, s', s.work[w].m); }
  }

  lemma FinalizeMoves(cfg: Config, s: State, w: nat, logsKey: string, artifacts: Option<seq<string>>, ok: bool)
    requires cfg.Valid() && HostsOk(s) && (w in s.work ==> Knows(cfg, s, s.work[w]))
    ensures Moves(cfg, s, DoFinalize(s, w, logsKey, artifacts, ok), w)
  {
  }

  lemma FinalizeFine(cfg: Config, s: State, w: nat, logsKey: string, artifacts: Option<seq<string>>, ok: bool)
    requires cfg.Valid() && HostsOk(s) && (w in s.work ==> Knows(cfg, s, s.work[w]))
    ensures Fine(cfg, s, DoFinalize(s, w, logsKey, artifacts, ok), w)
  {
    FinalizeChanges(cfg, s, w, logsKey, artifacts, ok);
    FinalizeMoves(cfg, s, w, logsKey, artifacts, ok);
  }

  lemma CheckIdleFine(cfg: Config, s: State, w: nat, keep: bool)
    requires cfg.Valid() && (w in s.work ==> Knows(cfg, s, s.work[w]))
    ensures Fine(cfg, s, DoCheckIdle(s, w, keep), w)
  {
  }

  lemma ReapMarkFine(cfg: Config, s: State, w: nat, ok: bool)
    requires cfg.Valid() && HostsOk(s) && (w in s.work ==> Knows(cfg, s, s.work[w]))
    ensures Fine(cfg, s, DoReapMark(s, w, ok), w)
  {
    var s' := DoReapMark(s, w, ok);
    if s' != s && !Quiet(s, s') { assert HostChange(s, s', s.work[w].host); }
  }

  lemma ReapVmFine(cfg: Config, s: State, w: nat, ok: bool)
    requires cfg.Valid() && (w in s.work ==> Knows(cfg, s, s.work[w]))
    ensures Fine(cfg, s, DoReapVm(s, w, ok), w)
  {
  }

  lemma ListVmsFine(cfg: Config, s: State, w: nat)
    requires cfg.Valid() && (w in s.work ==> Knows(cfg, s, s.work[w]))
    ensures Fine(cfg, s, DoListVms(s, w), w)
  {
  }

  lemma FindStaleFine(cfg: Config, s: State, w: nat, surveyor: nat, h: nat)
    requires cfg.Valid() && HostsOk(s) && (w in s.work ==> Knows(cfg, s, s.work[w]))
    requires surveyor in s.work ==> Knows(cfg, s, s.work[surveyor])
    ensures Fine(cfg, s, DoFindStale(s, w, surveyor, h), w)
  {
  }

  lemma FreeStaleChanges(cfg: Config, s: State, w: nat, ok: bool)
    requires cfg.Valid() && HostsOk(s) && (w in s.work ==> Knows(cfg, s, s.work[w]))
    ensures Change(s, DoFreeStale(s, w, ok))
  {
    var s' := DoFreeStale(s, w, ok);
    if s' != s && !Quiet(s, s') { FreeingChanges(s, s', s.work[w].host, s.work[w].ports); }
  }

  lemma FreeStaleMoves(cfg: Config, s: State, w: nat, ok: bool)
    requires cfg.Valid() && (w in s.work ==> Knows(cfg, s, s.work[w]))
    ensures Moves(cfg, s, DoFreeStale(s, w, ok), w)
  {
  }

  lemma FreeStaleFine(cfg: Config, s: State, w: nat, ok: bool)
    requires cfg.Valid() && HostsOk(s) && (w in s.work ==> Knows(cfg, s, s.work[w]))
    ensures Fine(cfg, s, DoFreeStale(s, w, ok), w)
  {
    FreeStaleChanges(cfg, s, w, ok);
    FreeStaleMoves(cfg, s, w, ok);
  }

  lemma MarkStaleFine(cfg: Config, s: State, w: nat, ok: bool)
    requires cfg.Valid() && HostsOk(s) && (w in s.work ==> Knows(cfg, s, s.work[w]))
    ensures Fine(cfg, s, DoMarkStale(s, w, ok), w)
  {
    var s' := DoMarkStale(s, w, ok);
    if s' != s && !Quiet(s, s') { assert HostChange(s, s', s.work[w].host); }
  }

  lemma FindOrphanFine(cfg: Config, s: State, w: nat, i: nat)
    requires cfg.Valid() && (w in s.work ==> Knows(cfg, s, s.work[w]))
    ensures Fine(cfg, s, DoFindOrphan(s, w, i), w)
  {
  }

  lemma FreeOrphanChanges(cfg: Config, s: State, w: nat, ok: bool)
    requires cfg.Valid() && HostsOk(s) && (w in s.work ==> Knows(cfg, s, s.work[w]))
    ensures Change(s, DoFreeOrphan(s, w, ok))
  {
    var s' := DoFreeOrphan(s, w, ok);
    if s' != s && !Quiet(s, s') { FreeingChanges(s, s', s.db.instances[s.work[w].i].host, s.db.instances[s.work[w].i].ports); }
  }

  lemma FreeOrphanMoves(cfg: Config, s: State, w: nat, ok: bool)
    requires cfg.Valid() && (w in s.work ==> Knows(cfg, s, s.work[w]))
    ensures Moves(cfg, s, DoFreeOrphan(s, w, ok), w)
  {
  }

  lemma FreeOrphanFine(cfg: Config, s: State, w: nat, ok: bool)
    requires cfg.Valid() && HostsOk(s) && (w in s.work ==> Knows(cfg, s, s.work[w]))
    ensures Fine(cfg, s, DoFreeOrphan(s, w, ok), w)
  {
    FreeOrphanChanges(cfg, s, w, ok);
    FreeOrphanMoves(cfg, s, w, ok);
  }

  lemma MarkOrphanFine(cfg: Config, s: State, w: nat, ok: bool)
    requires cfg.Valid() && (w in s.work ==> Knows(cfg, s, s.work[w]))
    ensures Fine(cfg, s, DoMarkOrphan(s, w, ok), w)
  {
    var s' := DoMarkOrphan(s, w, ok);
    if s' != s && !Quiet(s, s') { assert StatusChange(s, s', s.work[w].i); }
  }

  // ---- together -----------------------------------------------------------------------

  lemma WorldFine(cfg: Config, s: State, w: nat, a: WorldStep)
    requires HostsOk(s) && (a.Crash? ==> a.w == w)
    ensures Fine(cfg, s, StepWorld(s, a), w)
  {
    var s' := StepWorld(s, a);
    if !Quiet(s, s') { assert Birth(s, s', a.m, s'.made[a.m]); }
  }

  lemma StartFine(cfg: Config, s: State, w: nat, a: StartStep)
    requires cfg.Valid() && Steady(cfg, s)
    ensures Fine(cfg, s, StepStart(cfg, s, w, a), w)
  {
    match a
    case PickHost(h, spec) => PickHostFine(cfg, s, w, h, spec);
    case CreateVm(h, goal) => CreateVmFine(cfg, s, w, h, goal);
    case InsertHost(maxSlots, ok) => InsertHostFine(cfg, s, w, maxSlots, ok);
    case SetReady(ok) => SetReadyFine(cfg, s, w, ok);
    case AllocatePorts(io) => AllocatePortsFine(cfg, s, w, io);
    case StartFails => StartFailsFine(cfg, s, w);
    case Persist(i, m, io) => PersistFine(cfg, s, w, i, m, io);
    case FreeAbandoned(ok) => FreeAbandonedFine(cfg, s, w, ok);
  }

  lemma EndFine(cfg: Config, s: State, w: nat, a: EndStep)
    requires cfg.Valid() && Steady(cfg, s)
    ensures Fine(cfg, s, StepEnd(cfg, s, w, a), w)
  {
    match a
    case Report(m, v) => ReportFine(cfg, s, w, m, v);
    case TimeOut(m) => TimeOutFine(cfg, s, w, m);
    case CheckUnderway => CheckUnderwayFine(cfg, s, w);
    case LoadMatch => LoadMatchFine(cfg, s, w);
    case CommitResult(ok) => CommitResultFine(cfg, s, w, ok);
    case FinalizeBare(ok) => FinalizeBareFine(cfg, s, w, ok);
    case ClaimInline(ok) => ClaimInlineFine(cfg, s, w, ok);
  }

  lemma DownFine(cfg: Config, s: State, w: nat, a: DownStep)
    requires cfg.Valid() && Steady(cfg, s)
    ensures Fine(cfg, s, StepDown(cfg, s, w, a), w)
  {
    match a
    case ListReady(i, m) => ListReadyFine(cfg, s, w, i, m);
    case Claim(ok) => ClaimFine(cfg, s, w, ok);
    case Decide => DecideFine(cfg, s, w);
    case StopDone(stopped) => StopDoneFine(cfg, s, w, stopped);
    case Revert(ok) => RevertFine(cfg, s, w, ok);
    case Release(ok) => ReleaseFine(cfg, s, w, ok);
    case Mark(ok) => MarkFine(cfg, s, w, ok);
    case Finalize(logsKey, artifacts, ok) => FinalizeFine(cfg, s, w, logsKey, artifacts, ok);
  }

  lemma HostFine(cfg: Config, s: State, w: nat, a: HostStep)
    requires cfg.Valid() && Steady(cfg, s)
    ensures Fine(cfg, s, StepHost(s, w, a), w)
  {
    match a
    case CheckIdle(keep) => CheckIdleFine(cfg, s, w, keep);
    case ReapMark(ok) => ReapMarkFine(cfg, s, w, ok);
    case ReapVm(ok) => ReapVmFine(cfg, s, w, ok);
    case ListVms => ListVmsFine(cfg, s, w);
    case FindStale(surveyor, h) => FindStaleFine(cfg, s, w, surveyor, h);
    case FreeStale(ok) => FreeStaleFine(cfg, s, w, ok);
    case MarkStale(ok) => MarkStaleFine(cfg, s, w, ok);
    case FindOrphan(i) => FindOrphanFine(cfg, s, w, i);
    case FreeOrphan(ok) => FreeOrphanFine(cfg, s, w, ok);
    case MarkOrphan(ok) => MarkOrphanFine(cfg, s, w, ok);
  }

  // ---- provisioning --------------------------------------------------------------------

  /** Worker w does not take on a host that is being provisioned. */
  ghost predicate TakesNoHost(s: State, s': State, w: nat) {
    && OnlyWorker(s, s', w) && s'.settled == s.settled
    && (w in s'.work && s'.work[w].HostCreated? ==> w in s.work && s'.work[w] == s.work[w])
  }

  lemma TakesNoHostKeeps(s: State, s': State, w: nat)
    requires Provisioners(s) && TakesNoHost(s, s', w)
    ensures Provisioners(s')
  {
  }

  lemma InsertHostProvisioners(cfg: Config, s: State, w: nat, maxSlots: int, ok: bool)
    requires HostsOk(s) && Provisioners(s) && AllKnow(cfg, s)
    ensures Provisioners(DoInsertHost(s, w, maxSlots, ok))
  {
  }

  lemma SetReadyProvisioners(s: State, w: nat, ok: bool)
    requires Provisioners(s)
    ensures Provisioners(DoSetReady(s, w, ok))
  {
  }

  lemma StartProvisioners(cfg: Config, s: State, w: nat, a: StartStep)
    requires HostsOk(s) && Provisioners(s) && AllKnow(cfg, s)
    ensures Provisioners(StepStart(cfg, s, w, a))
  {
    match a
    case InsertHost(maxSlots, ok) => InsertHostProvisioners(cfg, s, w, maxSlots, ok);
    case SetReady(ok) => SetReadyProvisioners(s, w, ok);
    case _ => OtherStartsTakeNoHost(cfg, s, w, a); TakesNoHostKeeps(s, StepStart(cfg, s, w, a), w);
  }

  lemma OtherStartsTakeNoHost(cfg: Config, s: State, w: nat, a: StartStep)
    requires !a.InsertHost? && !a.SetReady?
    ensures TakesNoHost(s, StepStart(cfg, s, w, a), w)
  {
  }

  lemma WorldProvisioners(s: State, w: nat, a: WorldStep)
    requires a.Crash? ==> a.w == w
    ensures TakesNoHost(s, StepWorld(s, a), w)
  {
  }

  lemma EndProvisioners(cfg: Config, s: State, w: nat, a: EndStep)
    requires cfg.Valid()
    ensures TakesNoHost(s, StepEnd(cfg, s, w, a), w)
  {
  }

  lemma DownProvisioners(cfg: Config, s: State, w: nat, a: DownStep)
    ensures TakesNoHost(s, StepDown(cfg, s, w, a), w)
  {
  }

  lemma HostProvisioners(s: State, w: nat, a: HostStep)
    ensures TakesNoHost(s, StepHost(s, w, a), w)
  {
  }

  function WorkerOf(a: Action): nat {
    if a.World? then (if a.world.Crash? then a.world.w else 0) else a.w
  }

  lemma StepFine(cfg: Config, s: State, a: Action)
    requires cfg.Valid() && Steady(cfg, s)
    ensures Fine(cfg, s, Step(cfg, s, a), WorkerOf(a))
  {
    match a
    case World(e) => WorldFine(cfg, s, WorkerOf(a), e);
    case Starts(w, e) => StartFine(cfg, s, w, e);
    case Ends(w, e) => EndFine(cfg, s, w, e);
    case TearsDown(w, e) => DownFine(cfg, s, w, e);
    case Tends(w, e) => HostFine(cfg, s, w, e);
  }

  lemma StepProvisioners(cfg: Config, s: State, a: Action)
    requires cfg.Valid() && HostsOk(s) && Provisioners(s) && AllKnow(cfg, s)
    ensures Provisioners(Step(cfg, s, a))
  {
    if a.Starts? {
      StartProvisioners(cfg, s, a.w, a.start);
    } else {
      match a {
        case World(e) => WorldProvisioners(s, WorkerOf(a), e);
        case Ends(w, e) => EndProvisioners(cfg, s, w, e);
        case TearsDown(w, e) => DownProvisioners(cfg, s, w, e);
        case Tends(w, e) => HostProvisioners(s, w, e);
      }
      TakesNoHostKeeps(s, Step(cfg, s, a), WorkerOf(a));
    }
  }

  lemma FineKeepsSteady(cfg: Config, s: State, s': State, w: nat)
    requires Steady(cfg, s) && Fine(cfg, s, s', w) && Provisioners(s')
    ensures Steady(cfg, s') && Evolves(s, s')
  {
    ChangeIsFine(s, s');
    MovesKeepsAllKnow(cfg, s, s', w);
  }

  /** One step. */
  lemma StepKeepsSteady(cfg: Config, s: State, a: Action)
    requires cfg.Valid() && Steady(cfg, s)
    ensures Steady(cfg, Step(cfg, s, a)) && Evolves(s, Step(cfg, s, a))
  {
    StepFine(cfg, s, a);
    StepProvisioners(cfg, s, a);
    FineKeepsSteady(cfg, s, Step(cfg, s, a), WorkerOf(a));
  }

  /** Every run. */
  lemma {:induction false} ExecKeepsSteady(cfg: Config, s: State, acts: seq<Action>)
    requires cfg.Valid() && Steady(cfg, s)
    ensures Steady(cfg, Exec(cfg, s, acts)) && Evolves(s, Exec(cfg, s, acts))
  {
    if acts != [] {
      var init, last := acts[..|acts| - 1], acts[|acts| - 1];
      ExecKeepsSteady(cfg, s, init);
      StepKeepsSteady(cfg, Exec(cfg, s, init), last);
      EvolvesTransitively(s, Exec(cfg, s, init), Exec(cfg, s, acts));
    }
  }
}
