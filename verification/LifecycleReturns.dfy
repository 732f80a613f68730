/** What can still be taken back, and what cannot: when a removed instance comes back, when a
    claimed one cools again, and when a match row can still be deleted. */
module LifecycleReturns {
  import opened Common
  import opened MatchDb
  import opened LifecycleModel
  import opened LifecycleRows
  import opened LifecycleSteps
  import opened LifecycleClaims
  import opened LifecycleSafety
  import opened LifecycleTheorems
  import opened LifecycleFlow

  // ---- a removed instance ----------------------------------------------------------------------

  /** One worker reports a result and nobody interferes. */
  ghost function ReportAlone(cfg: Config, s: State, w: nat, m: nat, v: Verdict): State
    requires cfg.Valid()
  {
    Step(cfg, Reading(cfg, s, w, m, v), Ends(w, CommitResult(true)))
  }

  ghost function Reading(cfg: Config, s: State, w: nat, m: nat, v: Verdict): State
    requires cfg.Valid()
  {
    Step(cfg, Step(cfg, Step(cfg, s, Ends(w, Report(m, v))), Ends(w, CheckUnderway)), Ends(w, LoadMatch))
  }

  lemma ReadingLoads(cfg: Config, s: State, w: nat, m: nat, v: Verdict)
    requires cfg.Valid() && w !in s.work && m in s.db.matches && s.db.matches[m].status == Started
    ensures var s' := Reading(cfg, s, w, m, v);
            s'.db == s.db && w in s'.work && s'.work[w] == Loaded(m, s.db.matches[m], v)
  {
  }

  lemma CommitCools(cfg: Config, s: State, w: nat, i: nat)
    requires cfg.Valid() && w in s.work && s.work[w].Loaded? && s.work[w].m !in s.db.results
    requires s.work[w].row.instance == Some(i) && i in s.db.instances
    ensures var s' := DoCommitResult(cfg, s, w, true); i in s'.db.instances && s'.db.instances[i].status == Cooling
  {
  }

  lemma ReportLeads(cfg: Config, s: State, w: nat, m: nat, v: Verdict)
    requires cfg.Valid()
    ensures Leads(cfg, s, ReportAlone(cfg, s, w, m, v))
  {
    var s1 := Step(cfg, s, Ends(w, Report(m, v)));
    var s2 := Step(cfg, s1, Ends(w, CheckUnderway));
    LeadsOneStep(cfg, s, Ends(w, Report(m, v)));
    LeadsOn(cfg, s, s1, Ends(w, CheckUnderway));
    LeadsOn(cfg, s, s2, Ends(w, LoadMatch));
    LeadsOn(cfg, s, Reading(cfg, s, w, m, v), Ends(w, CommitResult(true)));
  }

  ghost predicate IsRemoved(s: State, i: nat) { i in s.db.instances && s.db.instances[i].status == Removed }

  lemma ReportCools(cfg: Config, s: State, w: nat, i: nat, m: nat, v: Verdict)
    requires cfg.Valid() && w !in s.work && m in s.db.matches && s.db.matches[m].status == Started
    requires s.db.matches[m].instance == Some(i) && i in s.db.instances && m !in s.db.results
    ensures !IsRemoved(ReportAlone(cfg, s, w, m, v), i)
  {
    ReadingLoads(cfg, s, w, m, v);
    CommitCools(cfg, Reading(cfg, s, w, m, v), w, i);
  }

  /** A reported result revives the instance of a match that had none. */
  lemma ReportRevives(cfg: Config, s: State, i: nat, m: nat) returns (s': State)
    requires cfg.Valid() && RowsOk(s) && Serves(s, i, m) && IsRemoved(s, i) && m !in s.db.results
    ensures Leads(cfg, s, s') && !IsRemoved(s', i)
  {
    var w := FreshWorker(s);
    var v := Verdict([], "", false);
    s' := ReportAlone(cfg, s, w, m, v);
    ReportCools(cfg, s, w, i, m, v);
    ReportLeads(cfg, s, w, m, v);
  }

  /** The removal of an instance is final exactly if its match has its result. */
  lemma RemovalIsFinalIff(cfg: Config, s: State, i: nat, m: nat)
    requires cfg.Valid() && Reachable(cfg, s) && Serves(s, i, m) && IsRemoved(s, i)
    ensures (forall s' :: Leads(cfg, s, s') ==> IsRemoved(s', i)) <==> m in s.db.results
  {
    ReachableIsSafe(cfg, s);
    if m in s.db.results {
      forall s' | Leads(cfg, s, s') ensures IsRemoved(s', i) {
        RemovedIsFinal(cfg, s, s', i, m);
      }
    } else {
      var s' := ReportRevives(cfg, s, i, m);
    }
  }

  // ---- a claimed instance ------------------------------------------------------------------------

  /** Worker w holds the claim on instance i and, if the stop fails, will revert it: it is
      about to, it has decided not to force, or it has yet to decide before the deadline. */
  predicate MayRevert(cfg: Config, s: State, w: nat, i: nat) {
    && w in s.work
    && match s.work[w]
       case Reverting(j, _) => j == i
       case Tearing(j, _, force) => j == i && !force
       case Claimed(j, _, endedAt) => j == i && s.now - endedAt < cfg.forceDeadline
       case _ => false
  }

  /** Instance i of match m is claimed or removed, and nobody may revert that. */
  ghost predicate Settled(cfg: Config, s: State, i: nat, m: nat) {
    Serves(s, i, m) && m in s.db.results && Taken(s.db, i) && forall w :: !MayRevert(cfg, s, w, i)
  }

  /** A step after which some worker may revert i follows on one before which it already
      might, or on one that won the claim. */
  ghost predicate NoNewRevert(cfg: Config, s: State, s': State, w: nat) {
    forall k, i :: MayRevert(cfg, s', k, i) ==> MayRevert(cfg, s, k, i) || (k == w && Wins(s, s', w))
  }

  lemma WorldNoNewRevert(cfg: Config, s: State, w: nat, a: WorldStep)
    ensures NoNewRevert(cfg, s, StepWorld(s, a), w)
  {
  }

  lemma StartNoNewRevert(cfg: Config, s: State, w: nat, a: StartStep)
    ensures NoNewRevert(cfg, s, StepStart(cfg, s, w, a), w)
  {
  }

  lemma EndNoNewRevert(cfg: Config, s: State, w: nat, a: EndStep)
    requires cfg.Valid()
    ensures NoNewRevert(cfg, s, StepEnd(cfg, s, w, a), w)
  {
  }

  lemma DownNoNewRevert(cfg: Config, s: State, w: nat, a: DownStep)
    ensures NoNewRevert(cfg, s, StepDown(cfg, s, w, a), w)
  {
  }

  lemma HostNoNewRevert(cfg: Config, s: State, w: nat, a: HostStep)
    ensures NoNewRevert(cfg, s, StepHost(s, w, a), w)
  {
  }

  lemma StepNoNewRevert(cfg: Config, s: State, a: Action)
    requires cfg.Valid()
    ensures NoNewRevert(cfg, s, Step(cfg, s, a), WorkerOf(a))
  {
    match a
    case World(e) => WorldNoNewRevert(cfg, s, WorkerOf(a), e);
    case Starts(w, e) => StartNoNewRevert(cfg, s, w, e);
    case Ends(w, e) => EndNoNewRevert(cfg, s, w, e);
    case TearsDown(w, e) => DownNoNewRevert(cfg, s, w, e);
    case Tends(w, e) => HostNoNewRevert(cfg, s, w, e);
  }

  lemma KindKeepsSettled(cfg: Config, s: State, s': State, w: nat, i: nat, m: nat)
    requires Linked(s) && Settled(cfg, s, i, m) && Evolves(s, s') && ClaimKind(s, s', w) && NoNewRevert(cfg, s, s', w)
    ensures Settled(cfg, s', i, m)
  {
    if exists m', v :: Committed(s, s', m', v) {
      var m', v :| Committed(s, s', m', v);
      CommitKeepsTaken(s, s', i, m, m', v);
    } else if Reverts(s, s', w) {
      assert !MayRevert(cfg, s, w, i);
    }
    forall k ensures !MayRevert(cfg, s', k, i) {
      assert !MayRevert(cfg, s, k, i);
    }
  }

  lemma {:induction false} ExecKeepsSettled(cfg: Config, s: State, acts: seq<Action>, i: nat, m: nat)
    requires cfg.Valid() && Steady(cfg, s) && Settled(cfg, s, i, m)
    ensures Settled(cfg, Exec(cfg, s, acts), i, m)
  {
    if acts != [] {
      var init, last := acts[..|acts| - 1], acts[|acts| - 1];
      ExecKeepsSettled(cfg, s, init, i, m);
      ExecKeepsSteady(cfg, s, init);
      SettledStep(cfg, Exec(cfg, s, init), last, i, m);
    }
  }

  lemma SettledStep(cfg: Config, s: State, a: Action, i: nat, m: nat)
    requires cfg.Valid() && Steady(cfg, s) && Settled(cfg, s, i, m)
    ensures Settled(cfg, Step(cfg, s, a), i, m)
  {
    StepKeepsSteady(cfg, s, a);
    StepClaimKind(cfg, s, a);
    StepNoNewRevert(cfg, s, a);
    KindKeepsSettled(cfg, s, Step(cfg, s, a), WorkerOf(a), i, m);
  }

  // ---- and the way back ----------------------------------------------------------------------------

  ghost predicate Cools(s: State, i: nat) { i in s.db.instances && s.db.instances[i].status == Cooling }

  ghost predicate BeingTornDown(s: State, i: nat) { i in s.db.instances && s.db.instances[i].status == TearingDown }

  lemma RevertLeads(cfg: Config, s: State, w: nat, i: nat) returns (s': State)
    requires cfg.Valid() && w in s.work && s.work[w].Reverting? && s.work[w].i == i && BeingTornDown(s, i)
    ensures Leads(cfg, s, s') && Cools(s', i)
    ensures w !in s'.work && s' == End(s.(db := RevertTx(s.db, i)), w)
  {
    s' := Step(cfg, s, TearsDown(w, Revert(true)));
    LeadsOneStep(cfg, s, TearsDown(w, Revert(true)));
  }

  lemma FailedStopLeads(cfg: Config, s: State, w: nat, i: nat) returns (s': State)
    requires cfg.Valid() && w in s.work && s.work[w].Tearing? && s.work[w].i == i && !s.work[w].force && BeingTornDown(s, i)
    ensures Leads(cfg, s, s') && Cools(s', i)
  {
    var s1 := Step(cfg, s, TearsDown(w, StopDone(false)));
    LeadsOneStep(cfg, s, TearsDown(w, StopDone(false)));
    s' := RevertLeads(cfg, s1, w, i);
    LeadsTransitive(cfg, s, s1, s');
  }

  lemma MayRevertLeads(cfg: Config, s: State, w: nat, i: nat) returns (s': State)
    requires cfg.Valid() && MayRevert(cfg, s, w, i) && BeingTornDown(s, i)
    ensures Leads(cfg, s, s') && Cools(s', i)
  {
    if s.work[w].Reverting? {
      s' := RevertLeads(cfg, s, w, i);
    } else if s.work[w].Tearing? {
      s' := FailedStopLeads(cfg, s, w, i);
    } else {
      var s1 := Step(cfg, s, TearsDown(w, Decide));
      LeadsOneStep(cfg, s, TearsDown(w, Decide));
      s' := FailedStopLeads(cfg, s1, w, i);
      LeadsTransitive(cfg, s, s1, s');
    }
  }

  lemma TornDownHasResult(s: State, i: nat) returns (m: nat)
    requires RowsOk(s) && Served(s) && BeingTornDown(s, i)
    ensures Serves(s, i, m) && m in s.db.results
  {
    TouchedHasResult(s);
    m :| Serves(s, i, m) && m in s.db.results;
  }

  /** An instance that is being torn down can cool again, for a later sweep to try once more,
      exactly if some worker holds it that is about to revert it, has decided not to force,
      or has yet to decide before the deadline. A crash of that worker, or a revert that
      fails, therefore leaves it claimed for good. */
  lemma ClaimReturnsIff(cfg: Config, s: State, i: nat)
    requires cfg.Valid() && Reachable(cfg, s) && BeingTornDown(s, i)
    ensures (exists s' :: Leads(cfg, s, s') && Cools(s', i)) <==> exists w :: MayRevert(cfg, s, w, i)
  {
    ReachableIsSafe(cfg, s);
    if exists w :: MayRevert(cfg, s, w, i) {
      var w :| MayRevert(cfg, s, w, i);
      var s' := MayRevertLeads(cfg, s, w, i);
    } else {
      var m := TornDownHasResult(s, i);
      forall s' | Leads(cfg, s, s') ensures !Cools(s', i) {
        SettledNeverCools(cfg, s, s', i, m);
      }
    }
  }

  lemma SettledNeverCools(cfg: Config, s: State, s': State, i: nat, m: nat)
    requires cfg.Valid() && Steady(cfg, s) && Settled(cfg, s, i, m) && Leads(cfg, s, s')
    ensures !Cools(s', i)
  {
    var acts :| s' == Exec(cfg, s, acts);
    ExecKeepsSettled(cfg, s, acts, i, m);
  }

  /** A revert that fails has the same effect as a crash before it. */
  lemma FailedRevertIsCrash(cfg: Config, s: State, w: nat)
    requires cfg.Valid() && w in s.work && s.work[w].Reverting?
    ensures Step(cfg, s, TearsDown(w, Revert(false))) == Step(cfg, s, World(Crash(w)))
  {
  }

  // ---- a match row ----------------------------------------------------------------------------------

  /** Worker w holds the claim on instance i of match m. */
  predicate Holds(s: State, w: nat, i: nat, m: nat) {
    w in s.work && Holder(s.work[w]) == Some(i) && s.work[w].m == m
  }

  /** From releasing on, three successful steps delete the row. */
  lemma ReleasingDeletes(cfg: Config, s: State, w: nat, i: nat, m: nat) returns (s': State)
    requires cfg.Valid() && Holds(s, w, i, m) && i in s.db.instances
    requires s.work[w].Releasing? || s.work[w].Marking? || s.work[w].Finalizing?
    ensures Leads(cfg, s, s') && m !in s'.db.matches
    decreases if s.work[w].Releasing? then 2 else if s.work[w].Marking? then 1 else 0
  {
    var a := if s.work[w].Releasing? then Release(true) else if s.work[w].Marking? then Mark(true) else Finalize("", None, true);
    var s1 := Step(cfg, s, TearsDown(w, a));
    LeadsOneStep(cfg, s, TearsDown(w, a));
    if s.work[w].Finalizing? { return s1; }
    s' := ReleasingDeletes(cfg, s1, w, i, m);
    LeadsTransitive(cfg, s, s1, s');
  }

  lemma TearingDeletes(cfg: Config, s: State, w: nat, i: nat, m: nat) returns (s': State)
    requires cfg.Valid() && Holds(s, w, i, m) && i in s.db.instances && (s.work[w].Tearing? || s.work[w].Claimed?)
    ensures Leads(cfg, s, s') && m !in s'.db.matches
    decreases if s.work[w].Claimed? then 1 else 0
  {
    var a := if s.work[w].Claimed? then Decide else StopDone(true);
    var s1 := Step(cfg, s, TearsDown(w, a));
    LeadsOneStep(cfg, s, TearsDown(w, a));
    if s.work[w].Claimed? {
      s' := TearingDeletes(cfg, s1, w, i, m);
    } else {
      s' := ReleasingDeletes(cfg, s1, w, i, m);
    }
    LeadsTransitive(cfg, s, s1, s');
  }

  /** A revert returns the instance to the sweep, which lists and claims it again. */
  lemma RevertingDeletes(cfg: Config, s: State, w: nat, i: nat, m: nat) returns (s': State)
    requires cfg.Valid() && Holds(s, w, i, m) && s.work[w].Reverting? && BeingTornDown(s, i)
    requires Cooled(cfg, s, i, m) && m in s.db.matches && s.db.matches[m].instance == Some(i)
    ensures Leads(cfg, s, s') && m !in s'.db.matches
  {
    var s1 := RevertLeads(cfg, s, w, i);
    var s2 := Step(cfg, s1, TearsDown(w, ListReady(i, m)));
    var s3 := Step(cfg, s2, TearsDown(w, Claim(true)));
    LeadsOn(cfg, s, s1, TearsDown(w, ListReady(i, m)));
    LeadsOn(cfg, s, s2, TearsDown(w, Claim(true)));
    s' := TearingDeletes(cfg, s3, w, i, m);
    LeadsTransitive(cfg, s, s3, s');
  }

  // ---- who can still delete it ----------------------------------------------------------------------

  /** Worker w holds the claim on instance i and can get to the end: from anywhere but a
      revert, which returns the instance to the sweep only while it is being torn down. */
  ghost predicate MayFinish(s: State, w: nat, i: nat) {
    w in s.work && Holder(s.work[w]) == Some(i) && (s.work[w].Reverting? ==> BeingTornDown(s, i))
  }

  /** A match without an instance is closed by the worker that ended it, any other one by
      whoever holds its claim or can still win it. */
  ghost predicate Deletable(s: State, m: nat)
    requires m in s.made
  {
    m in s.db.results ==>
      match s.made[m].instance
      case None => exists w :: w in s.work && s.work[w] == BareEnded(m)
      case Some(i) => Cools(s, i) || exists w :: MayFinish(s, w, i)
  }

  lemma HolderDeletes(cfg: Config, s: State, w: nat, i: nat, m: nat) returns (s': State)
    requires cfg.Valid() && Linked(s) && MayFinish(s, w, i) && Knows(cfg, s, s.work[w]) && Serves(s, i, m) && m in s.db.matches
    ensures Leads(cfg, s, s') && m !in s'.db.matches
  {
    assert Holds(s, w, i, m);
    if s.work[w].Reverting? {
      s' := RevertingDeletes(cfg, s, w, i, m);
    } else if s.work[w].Claimed? || s.work[w].Tearing? {
      s' := TearingDeletes(cfg, s, w, i, m);
    } else {
      s' := ReleasingDeletes(cfg, s, w, i, m);
    }
  }

  /** After the cooldown the sweep finds a cooling instance. */
  lemma SweepDeletes(cfg: Config, s: State, i: nat, m: nat) returns (s': State)
    requires cfg.Valid() && Cools(s, i) && m in s.db.matches && s.db.matches[m].instance == Some(i)
    requires m in s.db.results && s.db.results[m].endedAt <= s.now
    ensures Leads(cfg, s, s') && m !in s'.db.matches
  {
    var w := FreshWorker(s);
    var s1 := Step(cfg, s, World(Tick(cfg.cooldown)));
    var s2 := Step(cfg, s1, TearsDown(w, ListReady(i, m)));
    var s3 := Step(cfg, s2, TearsDown(w, Claim(true)));
    LeadsOneStep(cfg, s, World(Tick(cfg.cooldown)));
    LeadsOn(cfg, s, s1, TearsDown(w, ListReady(i, m)));
    LeadsOn(cfg, s, s2, TearsDown(w, Claim(true)));
    s' := TearingDeletes(cfg, s3, w, i, m);
    LeadsTransitive(cfg, s, s3, s');
  }

  lemma BareDeletes(cfg: Config, s: State, w: nat, m: nat) returns (s': State)
    requires cfg.Valid() && w in s.work && s.work[w] == BareEnded(m)
    ensures Leads(cfg, s, s') && m !in s'.db.matches
  {
    s' := Step(cfg, s, Ends(w, FinalizeBare(true)));
    LeadsOneStep(cfg, s, Ends(w, FinalizeBare(true)));
  }

  lemma CommitLeavesRow(cfg: Config, s: State, w: nat)
    requires cfg.Valid() && w in s.work && s.work[w].Loaded? && s.work[w].m !in s.db.results && s.work[w].m in s.db.matches
    ensures var s', pc := DoCommitResult(cfg, s, w, true), s.work[w];
            && pc.m in s'.db.results && s'.db.results[pc.m].endedAt == s.now && s'.now == s.now
            && pc.m in s'.db.matches && s'.db.matches[pc.m].instance == s.db.matches[pc.m].instance
            && (pc.row.instance.None? ==> w in s'.work && s'.work[w] == BareEnded(pc.m))
  {
    var pc := s.work[w];
    CommitIsTx(cfg, s, w, true);
    TxWrites(cfg, s.db, DoCommitResult(cfg, s, w, true).db, pc.m, pc.row, pc.v, s.now);
  }

  lemma CommitDeletes(cfg: Config, s: State, w: nat, m: nat) returns (s': State)
    requires cfg.Valid() && w in s.work && s.work[w].Loaded? && s.work[w].m == m && m in s.db.matches && m !in s.db.results
    requires s.work[w].row == s.db.matches[m] && (s.work[w].row.instance.Some? ==> s.work[w].row.instance.value in s.db.instances)
    ensures Leads(cfg, DoCommitResult(cfg, s, w, true), s') && m !in s'.db.matches
  {
    var s2 := DoCommitResult(cfg, s, w, true);
    CommitLeavesRow(cfg, s, w);
    if s.db.matches[m].instance.None? {
      s' := BareDeletes(cfg, s2, w, m);
    } else {
      CommitCools(cfg, s, w, s.db.matches[m].instance.value);
      s' := SweepDeletes(cfg, s2, s.db.matches[m].instance.value, m);
    }
  }

  /** A match underway can be ended by a report. */
  lemma ReportDeletes(cfg: Config, s: State, m: nat) returns (s': State)
    requires cfg.Valid() && RowsOk(s) && m in s.db.matches && m !in s.db.results
    ensures Leads(cfg, s, s') && m !in s'.db.matches
  {
    var w := FreshWorker(s);
    var v := Verdict([], "", false);
    var s1, s2 := Reading(cfg, s, w, m, v), ReportAlone(cfg, s, w, m, v);
    ReportLeads(cfg, s, w, m, v);
    ReadingLoads(cfg, s, w, m, v);
    s' := CommitDeletes(cfg, s1, w, m);
    LeadsTransitive(cfg, s, s2, s');
  }

  lemma DeletableIsDeleted(cfg: Config, s: State, m: nat) returns (s': State)
    requires cfg.Valid() && Steady(cfg, s) && m in s.db.matches && Deletable(s, m)
    ensures Leads(cfg, s, s') && m !in s'.db.matches
  {
    if m !in s.db.results {
      s' := ReportDeletes(cfg, s, m);
    } else if s.made[m].instance.None? {
      var w :| w in s.work && s.work[w] == BareEnded(m);
      s' := BareDeletes(cfg, s, w, m);
    } else if Cools(s, s.made[m].instance.value) {
      s' := SweepDeletes(cfg, s, s.made[m].instance.value, m);
    } else {
      var w :| MayFinish(s, w, s.made[m].instance.value);
      s' := HolderDeletes(cfg, s, w, s.made[m].instance.value, m);
    }
  }

  // ---- and who cannot ----------------------------------------------------------------------------------

  /** A worker that holds a claim held it before, and not at a revert unless it still is at
      one, or has just won it; and a bare match is ended only by committing its result. */
  ghost predicate NoNewFinisher(s: State, s': State, w: nat) {
    && (forall k, i :: k in s'.work && Holder(s'.work[k]) == Some(i) ==>
          || (k in s.work && Holder(s.work[k]) == Some(i) && (s.work[k].Reverting? ==> s'.work[k].Reverting?))
          || (k == w && Wins(s, s', w)))
    && (forall k, m :: k in s'.work && s'.work[k] == BareEnded(m) ==>
          (k in s.work && s.work[k] == BareEnded(m)) || m !in s.db.results)
  }

  lemma WorldNoNewFinisher(s: State, w: nat, a: WorldStep)
    ensures NoNewFinisher(s, StepWorld(s, a), w)
  {
  }

  lemma StartNoNewFinisher(cfg: Config, s: State, w: nat, a: StartStep)
    ensures NoNewFinisher(s, StepStart(cfg, s, w, a), w)
  {
    if a.Persist? { PersistNoNewFinisher(s, w, a.i, a.m, a.io); } else { OtherStartsNoNewFinisher(cfg, s, w, a); }
  }

  lemma PersistNoNewFinisher(s: State, w: nat, i: nat, m: nat, io: Io)
    ensures NoNewFinisher(s, DoPersist(s, w, i, m, io), w)
  {
  }

  lemma OtherStartsNoNewFinisher(cfg: Config, s: State, w: nat, a: StartStep)
    requires !a.Persist?
    ensures NoNewFinisher(s, StepStart(cfg, s, w, a), w)
  {
    OtherStartsBegin(cfg, s, w, a);
  }

  /** Only worker w moves, and not to a place from which a row is deleted. */
  ghost predicate Begins(s: State, s': State, w: nat) {
    && OnlyWorker(s, s', w)
    && (w in s'.work ==> (w in s.work && s'.work[w] == s.work[w]) || (Holder(s'.work[w]).None? && !s'.work[w].BareEnded?))
  }

  lemma OtherStartsBegin(cfg: Config, s: State, w: nat, a: StartStep)
    requires !a.Persist?
    ensures Begins(s, StepStart(cfg, s, w, a), w)
  {
  }

  lemma EndNoNewFinisher(cfg: Config, s: State, w: nat, a: EndStep)
    requires cfg.Valid()
    ensures NoNewFinisher(s, StepEnd(cfg, s, w, a), w)
  {
    if a.CommitResult? { CommitNoNewFinisher(cfg, s, w, a.ok); } else { OtherEndsNoNewFinisher(cfg, s, w, a); }
  }

  lemma CommitNoNewFinisher(cfg: Config, s: State, w: nat, ok: bool)
    requires cfg.Valid()
    ensures NoNewFinisher(s, DoCommitResult(cfg, s, w, ok), w)
  {
    if Commits(s, w, ok) {
      CommitIsTx(cfg, s, w, ok);
      CommitKeepsWorld(cfg, s, w, DoCommitResult(cfg, s, w, ok).db);
    } else {
      RefusedIsQuiet(cfg, s, w, ok);
    }
  }

  lemma OtherEndsNoNewFinisher(cfg: Config, s: State, w: nat, a: EndStep)
    requires cfg.Valid() && !a.CommitResult?
    ensures NoNewFinisher(s, StepEnd(cfg, s, w, a), w)
  {
  }

  lemma DownNoNewFinisher(cfg: Config, s: State, w: nat, a: DownStep)
    ensures NoNewFinisher(s, StepDown(cfg, s, w, a), w)
  {
  }

  lemma HostNoNewFinisher(s: State, w: nat, a: HostStep)
    ensures NoNewFinisher(s, StepHost(s, w, a), w)
  {
  }

  lemma StepNoNewFinisher(cfg: Config, s: State, a: Action)
    requires cfg.Valid()
    ensures NoNewFinisher(s, Step(cfg, s, a), WorkerOf(a))
  {
    match a
    case World(e) => WorldNoNewFinisher(s, WorkerOf(a), e);
    case Starts(w, e) => StartNoNewFinisher(cfg, s, w, e);
    case Ends(w, e) => EndNoNewFinisher(cfg, s, w, e);
    case TearsDown(w, e) => DownNoNewFinisher(cfg, s, w, e);
    case Tends(w, e) => HostNoNewFinisher(s, w, e);
  }

  /** Nobody can delete m's row any more. */
  ghost predicate Kept(s: State, m: nat) { m in s.db.matches && m in s.made && !Deletable(s, m) }

  /** The instance of a kept match is claimed for good or removed. */
  lemma KeptIsTaken(s: State, i: nat, m: nat)
    requires Linked(s) && PastStarting(s) && Kept(s, m) && s.made[m].instance == Some(i)
    ensures Taken(s.db, i)
  {
    assert i in s.db.instances && s.db.instances[i].status != Starting;
  }

  lemma KeptInstanceStays(cfg: Config, s: State, s': State, w: nat, i: nat, m: nat)
    requires Linked(s) && PastStarting(s) && Kept(s, m) && s.made[m].instance == Some(i)
    requires Evolves(s, s') && ClaimKind(s, s', w) && KeepsRemovedOf(s, s', i)
    ensures Taken(s'.db, i) && (BeingTornDown(s', i) ==> BeingTornDown(s, i))
  {
    KeptIsTaken(s, i, m);
    if exists m', v :: Committed(s, s', m', v) {
      var m', v :| Committed(s, s', m', v);
      CommitKeepsTaken(s, s', i, m, m', v);
    } else if Reverts(s, s', w) {
      assert !MayFinish(s, w, i);
    }
  }

  ghost predicate KeepsRemovedOf(s: State, s': State, i: nat) { IsRemoved(s, i) ==> IsRemoved(s', i) }

  lemma NoFinisherAppears(cfg: Config, s: State, s': State, w: nat, i: nat, m: nat)
    requires Linked(s) && PastStarting(s) && Kept(s, m) && s.made[m].instance == Some(i)
    requires Evolves(s, s') && ClaimKind(s, s', w) && KeepsRemovedOf(s, s', i) && NoNewFinisher(s, s', w)
    ensures !Cools(s', i) && forall k :: !MayFinish(s', k, i)
  {
    KeptIsTaken(s, i, m);
    KeptInstanceStays(cfg, s, s', w, i, m);
    forall k ensures !MayFinish(s', k, i) {
      assert !MayFinish(s, k, i);
    }
  }

  lemma KindKeepsUndeletable(cfg: Config, s: State, s': State, w: nat, m: nat)
    requires Linked(s) && PastStarting(s) && Kept(s, m)
    requires Evolves(s, s') && ClaimKind(s, s', w) && NoNewFinisher(s, s', w)
    requires s.made[m].instance.Some? ==> KeepsRemovedOf(s, s', s.made[m].instance.value)
    ensures !Deletable(s', m)
  {
    if s.made[m].instance.Some? {
      NoFinisherAppears(cfg, s, s', w, s.made[m].instance.value, m);
    }
  }

  lemma KeptRowStays(cfg: Config, s: State, s': State, w: nat, m: nat)
    requires AllKnow(cfg, s) && Kept(s, m) && DeletesOnlyItsOwn(s, s', w)
    ensures m in s'.db.matches
  {
    if m !in s'.db.matches {
      assert Knows(cfg, s, s.work[w]);
      assert s.work[w].Finalizing? ==> MayFinish(s, w, s.work[w].i);
    }
  }

  lemma KeptStep(cfg: Config, s: State, a: Action, m: nat)
    requires cfg.Valid() && Safe(cfg, s) && Kept(s, m)
    ensures Kept(Step(cfg, s, a), m)
  {
    var s', w := Step(cfg, s, a), WorkerOf(a);
    StepKeepsSteady(cfg, s, a);
    StepClaimKind(cfg, s, a);
    StepNoNewFinisher(cfg, s, a);
    StepDeletes(cfg, s, a);
    KeptRowStays(cfg, s, s', w, m);
    if s.made[m].instance.Some? && IsRemoved(s, s.made[m].instance.value) {
      RemovedStays(cfg, s, a, m);
    }
    KindKeepsUndeletable(cfg, s, s', w, m);
  }

  lemma {:induction false} ExecKeepsKept(cfg: Config, s: State, acts: seq<Action>, m: nat)
    requires cfg.Valid() && Safe(cfg, s) && Kept(s, m)
    ensures Kept(Exec(cfg, s, acts), m)
  {
    if acts != [] {
      var init, last := acts[..|acts| - 1], acts[|acts| - 1];
      ExecKeepsKept(cfg, s, init, m);
      ExecKeepsSafe(cfg, s, init);
      KeptStep(cfg, Exec(cfg, s, init), last, m);
    }
  }

  lemma LeadsKeepsKept(cfg: Config, s: State, s': State, m: nat)
    requires cfg.Valid() && Safe(cfg, s) && Kept(s, m) && Leads(cfg, s, s')
    ensures m in s'.db.matches
  {
    var acts :| s' == Exec(cfg, s, acts);
    ExecKeepsKept(cfg, s, acts, m);
  }

  /** A match row can still be deleted exactly in these cases: its match has no result yet;
      its instance is cooling; some worker holds the claim on its instance, which counts for
      a worker at its revert only while the instance is being torn down; or it has no
      instance and the worker that ended it has not got to the deletion. A crash of that
      worker, a deletion that fails, or an orphan pass that removes a cooling instance
      therefore leaves the row for good. */
  lemma RowIsDeletedIff(cfg: Config, s: State, m: nat)
    requires cfg.Valid() && Reachable(cfg, s) && m in s.db.matches
    ensures m in s.made
    ensures (exists s' :: Leads(cfg, s, s') && m !in s'.db.matches) <==> Deletable(s, m)
  {
    ReachableIsSafe(cfg, s);
    if Deletable(s, m) {
      var s' := DeletableIsDeleted(cfg, s, m);
    } else {
      forall s' | Leads(cfg, s, s') ensures m in s'.db.matches {
        LeadsKeepsKept(cfg, s, s', m);
      }
    }
  }

  // ---- an orphan pass during the cooldown ---------------------------------------------------------

  /** One entry of the orphan pass. */
  ghost function OrphanAlone(cfg: Config, s: State, w: nat, i: nat, freed: bool): State
    requires cfg.Valid()
  {
    Step(cfg, Step(cfg, Step(cfg, s, Tends(w, FindOrphan(i))), Tends(w, FreeOrphan(freed))), Tends(w, MarkOrphan(true)))
  }

  /** Removing a cooling instance of a deleted host keeps its match row for good. */
  lemma OrphanPassStrandsRow(cfg: Config, s: State, w: nat, i: nat, m: nat, freed: bool)
    requires cfg.Valid() && Reachable(cfg, s) && w !in s.work && Cools(s, i) && OnGoneHost(s, i)
    requires Serves(s, i, m) && m in s.db.results && m in s.db.matches
    ensures forall s' :: Leads(cfg, OrphanAlone(cfg, s, w, i, freed), s') ==> m in s'.db.matches
  {
    var s' := OrphanAlone(cfg, s, w, i, freed);
    ReachableIsSafe(cfg, s);
    OrphanRemoves(cfg, s, w, i, freed);
    NobodyHoldsCooling(s, i);
    OrphanLeads(cfg, s, w, i, freed);
    LeadsEvolves(cfg, s, s');
    RemovedUnheldIsKept(s', i, m);
    forall s'' | Leads(cfg, s', s'') ensures m in s''.db.matches {
      LeadsKeepsKept(cfg, s', s'', m);
    }
  }

  lemma OrphanLeads(cfg: Config, s: State, w: nat, i: nat, freed: bool)
    requires cfg.Valid()
    ensures Leads(cfg, s, OrphanAlone(cfg, s, w, i, freed))
  {
    var s1 := Step(cfg, s, Tends(w, FindOrphan(i)));
    LeadsOneStep(cfg, s, Tends(w, FindOrphan(i)));
    LeadsOn(cfg, s, s1, Tends(w, FreeOrphan(freed)));
    LeadsOn(cfg, s, Step(cfg, s1, Tends(w, FreeOrphan(freed))), Tends(w, MarkOrphan(true)));
  }

  lemma RemovedUnheldIsKept(s: State, i: nat, m: nat)
    requires IsRemoved(s, i) && Serves(s, i, m) && m in s.db.results && m in s.db.matches
    requires forall w :: w in s.work ==> Holder(s.work[w]) != Some(i)
    ensures Kept(s, m)
  {
  }

  lemma OrphanRemoves(cfg: Config, s: State, w: nat, i: nat, freed: bool)
    requires cfg.Valid() && w !in s.work && Cools(s, i) && OnGoneHost(s, i)
    ensures var s' := OrphanAlone(cfg, s, w, i, freed);
            && IsRemoved(s', i) && s'.db.matches == s.db.matches && s'.made == s.made && s'.work == s.work
            && s'.db.results == s.db.results
  {
  }

  lemma NobodyHoldsCooling(s: State, i: nat)
    requires Claims(s) && Cools(s, i)
    ensures forall w :: w in s.work ==> Holder(s.work[w]) != Some(i)
  {
  }
}
