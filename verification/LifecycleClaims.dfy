/** The cooldown claim: one holder at a time, and one release per instance. */
module LifecycleClaims {
  import opened Common
  import opened MatchDb
  import opened LifecycleModel
  import opened LifecycleRows
  import opened LifecycleSteps

  /** The instance whose claim a worker holds: from winning it to reverting or finishing. */
  function Holder(pc: Pc): Option<nat> {
    if pc.Claimed? || pc.Tearing? || pc.Reverting? || pc.Releasing? || pc.Marking? || pc.Finalizing?
    then Some(pc.i) else None
  }

  /** Before its ports are released, a claim can still be reverted. */
  predicate Early(pc: Pc) { pc.Claimed? || pc.Tearing? || pc.Reverting? || pc.Releasing? }

  /** Claimed by somebody, or finished with. */
  predicate Taken(db: Db, i: nat) {
    i in db.instances && (db.instances[i].status == TearingDown || db.instances[i].status == Removed)
  }

  ghost predicate Holders(s: State) {
    && (forall w :: w in s.work && Holder(s.work[w]).Some? ==> Taken(s.db, Holder(s.work[w]).value))
    && (forall w, w' :: w in s.work && w' in s.work && w != w' && Holder(s.work[w]).Some? ==>
          Holder(s.work[w]) != Holder(s.work[w']))
    && (forall w :: w in s.work && Early(s.work[w]) ==> s.work[w].i !in s.releases)
  }

  ghost predicate Releases(s: State) {
    && NoDup(s.releases)
    && (forall i :: i in s.releases ==> Taken(s.db, i))
    && (forall m :: m in s.made && s.made[m].instance.Some? && s.made[m].instance.value in s.releases ==> m in s.db.results)
  }

  ghost predicate Claims(s: State) { Holders(s) && Releases(s) }

  // ---- the kinds of step ----------------------------------------------------------------

  /** Worker w gains no claim and no way back. */
  ghost predicate GainsNone(s: State, s': State, w: nat) {
    && OnlyWorker(s, s', w)
    && (w in s'.work && Holder(s'.work[w]).Some? ==>
          w in s.work && Holder(s.work[w]) == Holder(s'.work[w]) && (Early(s'.work[w]) ==> Early(s.work[w])))
  }

  ghost predicate KeepsTaken(s: State, s': State) {
    && s'.releases == s.releases
    && (forall i :: Taken(s.db, i) ==> Taken(s'.db, i))
  }

  ghost predicate Wins(s: State, s': State, w: nat) {
    && OnlyWorker(s, s', w) && s'.releases == s.releases && s'.made == s.made && s'.db.results == s.db.results
    && w in s'.work && Holder(s'.work[w]).Some? 
    && var i := Holder(s'.work[w]).value;
       && i in s.db.instances && s.db.instances[i].status == Cooling
       && s'.db.instances == s.db.instances[i := s.db.instances[i].(status := TearingDown)]
  }

  ghost predicate Reverts(s: State, s': State, w: nat) {
    && OnlyWorker(s, s', w) && s'.releases == s.releases && s'.made == s.made && s'.db.results == s.db.results
    && w in s.work && s.work[w].Reverting? && w !in s'.work
    && (forall i :: i != s.work[w].i && Taken(s.db, i) ==> Taken(s'.db, i))
  }

  ghost predicate ReleasesOne(s: State, s': State, w: nat) {
    && OnlyWorker(s, s', w) && s'.made == s.made && s'.db.results == s.db.results && s'.db.instances == s.db.instances
    && w in s.work && s.work[w].Releasing? && w in s'.work && s'.work[w] == Marking(s.work[w].i, s.work[w].m)
    && s'.releases == s.releases + [s.work[w].i]
  }

  lemma GainsNoneKeeps(s: State, s': State, w: nat)
    requires Claims(s) && GainsNone(s, s', w) && KeepsTaken(s, s')
    ensures Holders(s')
  {
  }

  lemma WinsKeeps(s: State, s': State, w: nat)
    requires Claims(s) && Wins(s, s', w)
    ensures Claims(s')
  {
  }

  lemma RevertsKeeps(s: State, s': State, w: nat)
    requires Claims(s) && Reverts(s, s', w)
    ensures Claims(s')
  {
  }

  lemma ReleasesOneKeeps(cfg: Config, s: State, s': State, w: nat)
    requires Linked(s) && Claims(s) && ReleasesOne(s, s', w) && Knows(cfg, s, s.work[w])
    ensures Claims(s')
  {
  }

  // ---- which step is which ----------------------------------------------------------------

  lemma WorldGainsNone(s: State, w: nat, a: WorldStep)
    requires a.Crash? ==> a.w == w
    ensures GainsNone(s, StepWorld(s, a), w) && KeepsTaken(s, StepWorld(s, a))
  {
  }

  lemma StartGainsNone(cfg: Config, s: State, w: nat, a: StartStep)
    ensures GainsNone(s, StepStart(cfg, s, w, a), w) && KeepsTaken(s, StepStart(cfg, s, w, a))
  {
    if a.Persist? { PersistGainsNone(s, w, a.i, a.m, a.io); } else { OtherStartsGainNone(cfg, s, w, a); }
  }

  lemma PersistGainsNone(s: State, w: nat, i: nat, m: nat, io: Io)
    ensures GainsNone(s, DoPersist(s, w, i, m, io), w) && KeepsTaken(s, DoPersist(s, w, i, m, io))
  {
  }

  lemma OtherStartsGainNone(cfg: Config, s: State, w: nat, a: StartStep)
    requires !a.Persist?
    ensures GainsNone(s, StepStart(cfg, s, w, a), w) && KeepsTaken(s, StepStart(cfg, s, w, a))
  {
  }

  lemma EndGainsNone(cfg: Config, s: State, w: nat, a: EndStep)
    requires cfg.Valid() && !a.ClaimInline? && !a.CommitResult?
    ensures GainsNone(s, StepEnd(cfg, s, w, a), w) && KeepsTaken(s, StepEnd(cfg, s, w, a))
  {
  }

  lemma DownGainsNone(cfg: Config, s: State, w: nat, a: DownStep)
    requires !a.Claim? && !a.Revert? && !a.Release?
    ensures GainsNone(s, StepDown(cfg, s, w, a), w) && KeepsTaken(s, StepDown(cfg, s, w, a))
  {
  }

  lemma HostGainsNone(s: State, w: nat, a: HostStep)
    ensures GainsNone(s, StepHost(s, w, a), w) && KeepsTaken(s, StepHost(s, w, a))
  {
  }

  lemma ClaimWins(s: State, w: nat, ok: bool)
    ensures var s' := DoClaim(s, w, ok); Wins(s, s', w) || (GainsNone(s, s', w) && KeepsTaken(s, s'))
  {
  }

  lemma ClaimInlineWins(s: State, w: nat, ok: bool)
    ensures var s' := DoClaimInline(s, w, ok); Wins(s, s', w) || (GainsNone(s, s', w) && KeepsTaken(s, s'))
  {
  }

  lemma RevertReverts(s: State, w: nat, ok: bool)
    ensures var s' := DoRevert(s, w, ok); Reverts(s, s', w) || (GainsNone(s, s', w) && KeepsTaken(s, s'))
  {
  }

  lemma ReleaseReleases(s: State, w: nat, ok: bool)
    ensures var s' := DoRelease(s, w, ok); ReleasesOne(s, s', w) || (GainsNone(s, s', w) && KeepsTaken(s, s'))
  {
  }

  lemma CommitGainsNone(cfg: Config, s: State, w: nat, ok: bool)
    requires cfg.Valid()
    ensures GainsNone(s, DoCommitResult(cfg, s, w, ok), w)
  {
  }

  // ---- together ---------------------------------------------------------------------------

  lemma ReleasesCarry(s: State, s': State)
    requires RowsOk(s) && Releases(s) && KeepsTaken(s, s') && Change(s, s')
    ensures Releases(s')
  {
    ChangeIsFine(s, s');
    assert forall m :: m in s'.made && m !in s.made && s'.made[m].instance.Some? ==> s'.made[m].instance.value !in s.db.instances by {
      NewMatchNewInstance(s, s');
    }
  }

  lemma NewMatchNewInstance(s: State, s': State)
    requires Change(s, s')
    ensures forall m :: m in s'.made && m !in s.made && s'.made[m].instance.Some? ==> s'.made[m].instance.value !in s.db.instances
  {
  }

  lemma QuietClaims(s: State, s': State, w: nat)
    requires RowsOk(s) && Claims(s) && GainsNone(s, s', w) && KeepsTaken(s, s') && Change(s, s')
    ensures Claims(s')
  {
    GainsNoneKeeps(s, s', w);
    ReleasesCarry(s, s');
  }

  /** An instance may lose its status if nobody holds or has released it. */
  ghost predicate Spares(s: State, s': State, w: nat, i: Option<nat>) {
    && GainsNone(s, s', w) && s'.releases == s.releases && s'.made == s.made
    && (forall m :: m in s.db.results ==> m in s'.db.results)
    && (forall k :: Taken(s.db, k) && (i.None? || i.value != k) ==> Taken(s'.db, k))
    && (forall k :: k in s.work && Holder(s.work[k]).Some? ==> Holder(s.work[k]) != i)
    && (i.Some? ==> i.value !in s.releases)
  }

  lemma SparesKeeps(s: State, s': State, w: nat, i: Option<nat>)
    requires Claims(s) && Spares(s, s', w, i)
    ensures Claims(s')
  {
  }

  lemma HolderHasResult(cfg: Config, s: State, m: nat, pc: Pc)
    requires Linked(s) && m in s.made && m !in s.db.results && Knows(cfg, s, pc) && Holder(pc).Some?
    ensures s.made[m].instance != Holder(pc)
  {
  }

  /** A result is never committed for an instance that is claimed or released. */
  lemma CommittedKeepsClaims(cfg: Config, s: State, s': State, w: nat, m: nat, v: Verdict)
    requires Linked(s) && AllKnow(cfg, s) && Claims(s) && Committed(s, s', m, v) && GainsNone(s, s', w)
    ensures Claims(s')
  {
    forall k | k in s.work && Holder(s.work[k]).Some? ensures Holder(s.work[k]) != s.made[m].instance {
      HolderHasResult(cfg, s, m, s.work[k]);
    }
    assert Spares(s, s', w, s.made[m].instance);
    SparesKeeps(s, s', w, s.made[m].instance);
  }

  // ---- every step is of one of these kinds --------------------------------------------------

  ghost predicate ClaimKind(s: State, s': State, w: nat) {
    || (GainsNone(s, s', w) && KeepsTaken(s, s'))
    || Wins(s, s', w)
    || Reverts(s, s', w)
    || ReleasesOne(s, s', w)
    || (GainsNone(s, s', w) && exists m, v :: Committed(s, s', m, v))
  }

  lemma CommitClaimKind(cfg: Config, s: State, w: nat, ok: bool)
    requires cfg.Valid() && Steady(cfg, s)
    ensures ClaimKind(s, DoCommitResult(cfg, s, w, ok), w)
  {
    var s' := DoCommitResult(cfg, s, w, ok);
    CommitGainsNone(cfg, s, w, ok);
    CommitResultWrites(cfg, s, w, ok);
    if Quiet(s, s') {
      QuietKeepsTaken(s, s');
    } else {
      assert Knows(cfg, s, s.work[w]);
      WritesCommit(s, s', s.work[w].m, s.work[w].row, s.work[w].v);
    }
  }

  lemma QuietKeepsTaken(s: State, s': State)
    requires Quiet(s, s')
    ensures KeepsTaken(s, s')
  {
  }

  lemma EndClaimKind(cfg: Config, s: State, w: nat, a: EndStep)
    requires cfg.Valid() && Steady(cfg, s)
    ensures ClaimKind(s, StepEnd(cfg, s, w, a), w)
  {
    match a
    case CommitResult(ok) => CommitClaimKind(cfg, s, w, ok);
    case ClaimInline(ok) => ClaimInlineWins(s, w, ok);
    case _ => EndGainsNone(cfg, s, w, a);
  }

  lemma DownClaimKind(cfg: Config, s: State, w: nat, a: DownStep)
    ensures ClaimKind(s, StepDown(cfg, s, w, a), w)
  {
    match a
    case Claim(ok) => ClaimWins(s, w, ok);
    case Revert(ok) => RevertReverts(s, w, ok);
    case Release(ok) => ReleaseReleases(s, w, ok);
    case _ => DownGainsNone(cfg, s, w, a);
  }

  lemma StepClaimKind(cfg: Config, s: State, a: Action)
    requires cfg.Valid() && Steady(cfg, s)
    ensures ClaimKind(s, Step(cfg, s, a), WorkerOf(a))
  {
    match a
    case World(e) => WorldGainsNone(s, WorkerOf(a), e);
    case Starts(w, e) => StartGainsNone(cfg, s, w, e);
    case Ends(w, e) => EndClaimKind(cfg, s, w, e);
    case TearsDown(w, e) => DownClaimKind(cfg, s, w, e);
    case Tends(w, e) => HostGainsNone(s, w, e);
  }

  lemma KindKeepsClaims(cfg: Config, s: State, s': State, w: nat)
    requires Steady(cfg, s) && Claims(s) && Change(s, s') && ClaimKind(s, s', w)
    ensures Claims(s')
  {
    if GainsNone(s, s', w) && KeepsTaken(s, s') {
      QuietClaims(s, s', w);
    } else if Wins(s, s', w) {
      WinsKeeps(s, s', w);
    } else if Reverts(s, s', w) {
      RevertsKeeps(s, s', w);
    } else if ReleasesOne(s, s', w) {
      ReleasesOneKeeps(cfg, s, s', w);
    } else {
      var m, v :| Committed(s, s', m, v);
      CommittedKeepsClaims(cfg, s, s', w, m, v);
    }
  }

  lemma StepKeepsClaims(cfg: Config, s: State, a: Action)
    requires cfg.Valid() && Steady(cfg, s) && Claims(s)
    ensures Claims(Step(cfg, s, a))
  {
    StepFine(cfg, s, a);
    StepClaimKind(cfg, s, a);
    KindKeepsClaims(cfg, s, Step(cfg, s, a), WorkerOf(a));
  }

  lemma {:induction false} ExecKeepsClaims(cfg: Config, s: State, acts: seq<Action>)
    requires cfg.Valid() && Steady(cfg, s) && Claims(s)
    ensures Claims(Exec(cfg, s, acts))
  {
    if acts != [] {
      var init, last := acts[..|acts| - 1], acts[|acts| - 1];
      ExecKeepsClaims(cfg, s, init);
      ExecKeepsSteady(cfg, s, init);
      StepKeepsClaims(cfg, Exec(cfg, s, init), last);
    }
  }

  // ---- stranded claims ------------------------------------------------------------------------

  /** Instance i of match m was claimed, but no worker holds the claim any more. */
  ghost predicate Stranded(s: State, i: nat, m: nat) {
    && m in s.made && s.made[m].instance == Some(i) && m in s.db.results && Taken(s.db, i)
    && (forall w :: w in s.work ==> Holder(s.work[w]) != Some(i))
  }

  lemma KindKeepsStranded(cfg: Config, s: State, s': State, w: nat, i: nat, m: nat)
    requires Linked(s) && Stranded(s, i, m) && Evolves(s, s') && ClaimKind(s, s', w)
    ensures Stranded(s', i, m)
  {
    if exists m', v :: Committed(s, s', m', v) {
      var m', v :| Committed(s, s', m', v);
      CommitKeepsTaken(s, s', i, m, m', v);
    }
    NobodyGains(s, s', w, i, m);
  }

  /** The instance of a match with a result is left alone by every other commit. */
  lemma CommitKeepsTaken(s: State, s': State, i: nat, m: nat, m': nat, v: Verdict)
    requires Linked(s) && m in s.made && s.made[m].instance == Some(i) && m in s.db.results && Taken(s.db, i)
    requires Committed(s, s', m', v)
    ensures Taken(s'.db, i)
  {
  }

  lemma NobodyGains(s: State, s': State, w: nat, i: nat, m: nat)
    requires Stranded(s, i, m) && ClaimKind(s, s', w)
    ensures forall k :: k in s'.work ==> Holder(s'.work[k]) != Some(i)
  {
  }
}
