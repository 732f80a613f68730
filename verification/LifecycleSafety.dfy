/** The whole invariant of the lifecycle, kept by every step, and what no step takes back. */
module LifecycleSafety {
  import opened Common
  import opened MatchDb
  import opened LifecycleModel
  import opened LifecycleRows
  import opened LifecycleSteps
  import opened LifecycleClaims
  import opened LifecyclePorts
  import opened LifecycleRatings

  /** The whole invariant. */
  ghost predicate Safe(cfg: Config, s: State)
    requires cfg.Valid()
  {
    Steady(cfg, s) && Claims(s) && Ownership(cfg, s) && Books(cfg, s) && Patient(cfg, s) && Served(s) && PastStarting(s)
  }

  // ---- who deletes a match row ------------------------------------------------------------

  /** The row of a match that had an instance is not deleted before its cooldown is over. */
  ghost predicate Patient(cfg: Config, s: State) {
    forall m :: m in s.db.results && m in s.made && m !in s.db.matches && s.made[m].instance.Some? ==>
      s.db.results[m].endedAt + cfg.cooldown <= s.now
  }

  /** No match row goes, except perhaps the one whose worker w is at its last step. */
  ghost predicate DeletesOnlyItsOwn(s: State, s': State, w: nat) {
    forall m :: m in s.db.matches && m !in s'.db.matches ==>
      w in s.work && (s.work[w].Finalizing? || s.work[w].BareEnded?) && s.work[w].m == m
  }

  lemma WorldDeletes(s: State, w: nat, a: WorldStep)
    ensures DeletesOnlyItsOwn(s, StepWorld(s, a), w)
  {
  }

  lemma StartDeletes(cfg: Config, s: State, w: nat, a: StartStep)
    ensures DeletesOnlyItsOwn(s, StepStart(cfg, s, w, a), w)
  {
  }

  lemma EndDeletes(cfg: Config, s: State, w: nat, a: EndStep)
    requires cfg.Valid()
    ensures DeletesOnlyItsOwn(s, StepEnd(cfg, s, w, a), w)
  {
  }

  lemma DownDeletes(cfg: Config, s: State, w: nat, a: DownStep)
    ensures DeletesOnlyItsOwn(s, StepDown(cfg, s, w, a), w)
  {
  }

  lemma HostDeletes(s: State, w: nat, a: HostStep)
    ensures DeletesOnlyItsOwn(s, StepHost(s, w, a), w)
  {
  }

  lemma StepDeletes(cfg: Config, s: State, a: Action)
    requires cfg.Valid()
    ensures DeletesOnlyItsOwn(s, Step(cfg, s, a), WorkerOf(a))
  {
    match a
    case World(e) => WorldDeletes(s, WorkerOf(a), e);
    case Starts(w, e) => StartDeletes(cfg, s, w, e);
    case Ends(w, e) => EndDeletes(cfg, s, w, e);
    case TearsDown(w, e) => DownDeletes(cfg, s, w, e);
    case Tends(w, e) => HostDeletes(s, w, e);
  }

  lemma PatientCarries(cfg: Config, s: State, s': State, w: nat)
    requires Patient(cfg, s) && Evolves(s, s') && DeletesOnlyItsOwn(s, s', w)
    requires w in s.work ==> Knows(cfg, s, s.work[w])
    requires forall m :: m in s'.db.results && m !in s.db.results && m in s.made ==> m in s'.db.matches
    requires forall m :: m in s'.made && m !in s.made ==> m in s'.db.matches
    ensures Patient(cfg, s')
  {
  }

  lemma NewRowsStay(s: State, s': State)
    requires RowsOk(s) && Change(s, s')
    ensures forall m :: m in s'.db.results && m !in s.db.results && m in s.made ==> m in s'.db.matches
    ensures forall m :: m in s'.made && m !in s.made ==> m in s'.db.matches
  {
  }

  lemma StepKeepsPatient(cfg: Config, s: State, a: Action)
    requires cfg.Valid() && Steady(cfg, s) && Patient(cfg, s)
    ensures Patient(cfg, Step(cfg, s, a))
  {
    var s' := Step(cfg, s, a);
    StepKeepsSteady(cfg, s, a);
    StepFine(cfg, s, a);
    NewRowsStay(s, s');
    StepDeletes(cfg, s, a);
    PatientCarries(cfg, s, s', WorkerOf(a));
  }

  // ---- every instance serves a match ----------------------------------------------------------

  ghost predicate Serves(s: State, i: nat, m: nat) { m in s.made && s.made[m].instance == Some(i) }

  ghost predicate Served(s: State) {
    forall i :: i in s.db.instances ==> exists m :: Serves(s, i, m)
  }

  lemma ChangeKeepsServed(s: State, s': State)
    requires RowsOk(s) && Served(s) && Change(s, s')
    ensures Served(s')
  {
    ChangeIsFine(s, s');
    forall i | i in s'.db.instances ensures exists m :: Serves(s', i, m) {
      if i in s.db.instances {
        var m :| Serves(s, i, m);
        assert Serves(s', i, m);
      } else {
        var m, row :| Birth(s, s', m, row);
        assert Serves(s', i, m);
      }
    }
  }

  lemma StepKeepsServed(cfg: Config, s: State, a: Action)
    requires cfg.Valid() && Steady(cfg, s) && Served(s)
    ensures Served(Step(cfg, s, a))
  {
    StepFine(cfg, s, a);
    ChangeKeepsServed(s, Step(cfg, s, a));
  }

  /** An instance whose match has its result is past starting. */
  ghost predicate PastStarting(s: State) {
    forall m :: m in s.made && m in s.db.results && s.made[m].instance.Some? && s.made[m].instance.value in s.db.instances ==>
      s.db.instances[s.made[m].instance.value].status != Starting
  }

  /** Only a new instance is starting. */
  ghost predicate StartsNone(s: State, s': State) {
    forall i :: i in s.db.instances && i in s'.db.instances && s'.db.instances[i].status == Starting ==>
      s.db.instances[i].status == Starting
  }

  lemma ChangeStartsNone(s: State, s': State)
    requires Change(s, s')
    ensures StartsNone(s, s')
  {
  }

  lemma CommitKeepsPastStarting(s: State, s': State, m: nat, v: Verdict)
    requires Linked(s) && PastStarting(s) && Committed(s, s', m, v)
    ensures PastStarting(s')
  {
  }

  lemma QuietKeepsPastStarting(s: State, s': State)
    requires RowsOk(s) && RowsOk(s') && PastStarting(s) && Evolves(s, s') && StartsNone(s, s')
    requires s'.db.results.Keys == s.db.results.Keys
    ensures PastStarting(s')
  {
  }

  lemma ChangeKeepsPastStarting(s: State, s': State)
    requires RowsOk(s) && PastStarting(s) && Change(s, s')
    ensures PastStarting(s')
  {
    ChangeIsFine(s, s');
    ChangeStartsNone(s, s');
    if m, v :| Committed(s, s', m, v) {
      CommitKeepsPastStarting(s, s', m, v);
    } else {
      QuietKeepsPastStarting(s, s');
    }
  }

  lemma StepKeepsPastStarting(cfg: Config, s: State, a: Action)
    requires cfg.Valid() && Steady(cfg, s) && PastStarting(s)
    ensures PastStarting(Step(cfg, s, a))
  {
    StepFine(cfg, s, a);
    ChangeKeepsPastStarting(s, Step(cfg, s, a));
  }

  // ---- every reachable state ----------------------------------------------------------------

  lemma StepKeepsSafe(cfg: Config, s: State, a: Action)
    requires cfg.Valid() && Safe(cfg, s)
    ensures Safe(cfg, Step(cfg, s, a)) && Evolves(s, Step(cfg, s, a))
  {
    StepKeepsSteady(cfg, s, a);
    StepKeepsClaims(cfg, s, a);
    StepKeepsOwnership(cfg, s, a);
    StepKeepsBooks(cfg, s, a);
    StepKeepsPatient(cfg, s, a);
    StepKeepsServed(cfg, s, a);
    StepKeepsPastStarting(cfg, s, a);
  }

  lemma {:induction false} ExecKeepsSafe(cfg: Config, s: State, acts: seq<Action>)
    requires cfg.Valid() && Safe(cfg, s)
    ensures Safe(cfg, Exec(cfg, s, acts)) && Evolves(s, Exec(cfg, s, acts))
  {
    if acts != [] {
      var init, last := acts[..|acts| - 1], acts[|acts| - 1];
      ExecKeepsSafe(cfg, s, init);
      StepKeepsSafe(cfg, Exec(cfg, s, init), last);
      EvolvesTransitively(s, Exec(cfg, s, init), Exec(cfg, s, acts));
    }
  }

  lemma InitSafe(cfg: Config)
    requires cfg.Valid()
    ensures Safe(cfg, Init())
  {
  }

  /** Every run from the empty database. */
  lemma ReachableIsSafe(cfg: Config, s: State)
    requires cfg.Valid() && Reachable(cfg, s)
    ensures Safe(cfg, s)
  {
    var acts :| s == Exec(cfg, Init(), acts);
    InitSafe(cfg);
    ExecKeepsSafe(cfg, Init(), acts);
  }

  /** And every run from there. */
  lemma LeadsEvolves(cfg: Config, s: State, s': State)
    requires cfg.Valid() && Safe(cfg, s) && Leads(cfg, s, s')
    ensures Safe(cfg, s') && Evolves(s, s')
  {
    var acts :| s' == Exec(cfg, s, acts);
    ExecKeepsSafe(cfg, s, acts);
  }

  // ---- what stays removed -----------------------------------------------------------------

  lemma TouchedHasResult(s: State)
    requires RowsOk(s) && Served(s)
    ensures forall i :: i in s.db.instances && !Untouched(s.db, i) ==> exists m :: Serves(s, i, m) && m in s.db.results
  {
    forall i | i in s.db.instances && !Untouched(s.db, i) ensures exists m :: Serves(s, i, m) && m in s.db.results {
      var m :| Serves(s, i, m);
    }
  }

  lemma SameRow(s: State, s': State, m: nat)
    requires Linked(s) && Linked(s') && Evolves(s, s') && m in s.db.matches && m in s.made
    ensures m in s'.db.matches ==> SameMatch(s.db.matches[m], s'.db.matches[m])
  {
  }

  /** No instance leaves the removed state, save by a commit for a match without result. */
  ghost predicate KeepsRemoved(s: State, s': State, x: Option<nat>) {
    forall i :: i in s.db.instances && s.db.instances[i].status == Removed && !(x.Some? && x.value == i) ==>
      i in s'.db.instances && s'.db.instances[i].status == Removed
  }

  lemma WorldKeepsRemoved(s: State, a: WorldStep)
    ensures KeepsRemoved(s, StepWorld(s, a), None)
  {
  }

  lemma StartKeepsRemoved(cfg: Config, s: State, w: nat, a: StartStep)
    ensures KeepsRemoved(s, StepStart(cfg, s, w, a), None)
  {
  }

  lemma EndKeepsRemoved(cfg: Config, s: State, w: nat, a: EndStep)
    requires cfg.Valid() && !a.CommitResult?
    ensures KeepsRemoved(s, StepEnd(cfg, s, w, a), None)
  {
  }

  lemma DownKeepsRemoved(cfg: Config, s: State, w: nat, a: DownStep)
    ensures KeepsRemoved(s, StepDown(cfg, s, w, a), None)
  {
  }

  lemma HostKeepsRemoved(s: State, w: nat, a: HostStep)
    ensures KeepsRemoved(s, StepHost(s, w, a), None)
  {
  }

  lemma WritesKeepRemoved(s: State, s': State, m: nat, row: Match, v: Verdict, m': nat)
    requires Linked(s) && m in s.made && SameMatch(row, s.made[m]) && Writes(s, s', m, row, v)
    requires m' in s.made && m' in s.db.results && s.made[m'].instance.Some?
    ensures s'.db.instances[s.made[m'].instance.value] == s.db.instances[s.made[m'].instance.value]
  {
  }

  /** Once a match has its result, its instance never leaves the removed state. */
  lemma RemovedStays(cfg: Config, s: State, a: Action, m: nat)
    requires cfg.Valid() && Steady(cfg, s)
    requires m in s.made && m in s.db.results && s.made[m].instance.Some?
    requires s.db.instances[s.made[m].instance.value].status == Removed
    ensures var i := s.made[m].instance.value;
            i in Step(cfg, s, a).db.instances && Step(cfg, s, a).db.instances[i].status == Removed
  {
    match a
    case World(e) => WorldKeepsRemoved(s, e);
    case Starts(w, e) => StartKeepsRemoved(cfg, s, w, e);
    case TearsDown(w, e) => DownKeepsRemoved(cfg, s, w, e);
    case Tends(w, e) => HostKeepsRemoved(s, w, e);
    case Ends(w, e) =>
      if e.CommitResult? {
        CommitRemovedStays(cfg, s, w, e.ok, m);
      } else {
        EndKeepsRemoved(cfg, s, w, e);
      }
  }

  lemma CommitRemovedStays(cfg: Config, s: State, w: nat, ok: bool, m: nat)
    requires cfg.Valid() && Steady(cfg, s)
    requires m in s.made && m in s.db.results && s.made[m].instance.Some?
    ensures var i, s' := s.made[m].instance.value, DoCommitResult(cfg, s, w, ok);
            i in s.db.instances && i in s'.db.instances && s'.db.instances[i] == s.db.instances[i]
  {
    var s' := DoCommitResult(cfg, s, w, ok);
    CommitResultWrites(cfg, s, w, ok);
    if !Quiet(s, s') {
      var pc := s.work[w];
      assert Knows(cfg, s, pc);
      WritesCommit(s, s', pc.m, pc.row, pc.v);
      WritesKeepRemoved(s, s', pc.m, pc.row, pc.v, m);
    }
  }

  lemma {:induction false} ExecRemovedStays(cfg: Config, s: State, acts: seq<Action>, m: nat)
    requires cfg.Valid() && Safe(cfg, s)
    requires m in s.made && m in s.db.results && s.made[m].instance.Some?
    requires s.db.instances[s.made[m].instance.value].status == Removed
    ensures var i := s.made[m].instance.value;
            i in Exec(cfg, s, acts).db.instances && Exec(cfg, s, acts).db.instances[i].status == Removed
  {
    if acts != [] {
      var init, last := acts[..|acts| - 1], acts[|acts| - 1];
      ExecRemovedStays(cfg, s, init, m);
      ExecKeepsSafe(cfg, s, init);
      RemovedStays(cfg, Exec(cfg, s, init), last, m);
    }
  }

  // ---- what stays claimed -----------------------------------------------------------------

  lemma {:induction false} ExecKeepsStranded(cfg: Config, s: State, acts: seq<Action>, i: nat, m: nat)
    requires cfg.Valid() && Safe(cfg, s) && Stranded(s, i, m)
    ensures Stranded(Exec(cfg, s, acts), i, m)
    ensures m in s.db.matches ==> m in Exec(cfg, s, acts).db.matches
  {
    if acts != [] {
      var init, last := acts[..|acts| - 1], acts[|acts| - 1];
      ExecKeepsStranded(cfg, s, init, i, m);
      ExecKeepsSafe(cfg, s, init);
      StrandedStep(cfg, Exec(cfg, s, init), last, i, m);
    }
  }

  lemma StrandedStep(cfg: Config, s: State, a: Action, i: nat, m: nat)
    requires cfg.Valid() && Safe(cfg, s) && Stranded(s, i, m)
    ensures Stranded(Step(cfg, s, a), i, m)
    ensures m in s.db.matches ==> m in Step(cfg, s, a).db.matches
  {
    var s' := Step(cfg, s, a);
    StepKeepsSteady(cfg, s, a);
    StepClaimKind(cfg, s, a);
    KindKeepsStranded(cfg, s, s', WorkerOf(a), i, m);
    StepDeletes(cfg, s, a);
    StrandedRowStays(cfg, s, s', WorkerOf(a), i, m);
  }

  lemma StrandedRowStays(cfg: Config, s: State, s': State, w: nat, i: nat, m: nat)
    requires AllKnow(cfg, s) && Stranded(s, i, m) && DeletesOnlyItsOwn(s, s', w)
    ensures m in s.db.matches ==> m in s'.db.matches
  {
    if w in s.work { assert Knows(cfg, s, s.work[w]); }
  }

  lemma CrashStrands(cfg: Config, s: State, w: nat)
    requires cfg.Valid() && AllKnow(cfg, s) && Claims(s) && w in s.work && Holder(s.work[w]).Some?
    ensures var s' := Step(cfg, s, World(Crash(w)));
            s'.db == s.db && Stranded(s', Holder(s.work[w]).value, s.work[w].m)
  {
    assert Knows(cfg, s, s.work[w]);
  }

  lemma LeadsKeepsStranded(cfg: Config, s: State, s': State, i: nat, m: nat)
    requires cfg.Valid() && Safe(cfg, s) && Stranded(s, i, m) && Leads(cfg, s, s')
    ensures Stranded(s', i, m) && !ClaimTx(s'.db, i).1
    ensures m in s.db.matches ==> m in s'.db.matches
  {
    var acts :| s' == Exec(cfg, s, acts);
    ExecKeepsStranded(cfg, s, acts, i, m);
  }

  lemma StaleKnows(cfg: Config, s: State, w: nat)
    requires AllKnow(cfg, s) && w in s.work && s.work[w].Stale?
    ensures s.work[w].host in s.work[w].knew ==> s.work[w].host !in s.vms
  {
    assert Knows(cfg, s, s.work[w]);
  }
}
