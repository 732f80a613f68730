/** The sequential procedures are the workers of the transition system, run alone. */
module LifecycleFlow {
  import opened Common
  import opened MatchDb
  import opened Teardown
  import opened Sweeps
  import opened MatchFlow
  import opened LifecycleModel

  lemma Then(cfg: Config, s: State, acts: seq<Action>, a: Action)
    requires cfg.Valid()
    ensures Exec(cfg, s, acts + [a]) == Step(cfg, Exec(cfg, s, acts), a)
  {
    assert (acts + [a])[..|acts|] == acts;
  }

  // ---- runs ----------------------------------------------------------------------------------

  lemma LeadsNowhere(cfg: Config, s: State)
    requires cfg.Valid()
    ensures Leads(cfg, s, s)
  {
    assert s == Exec(cfg, s, []);
  }

  lemma LeadsOn(cfg: Config, s: State, s': State, a: Action)
    requires cfg.Valid() && Leads(cfg, s, s')
    ensures Leads(cfg, s, Step(cfg, s', a))
  {
    var acts :| s' == Exec(cfg, s, acts);
    Then(cfg, s, acts, a);
    assert Step(cfg, s', a) == Exec(cfg, s, acts + [a]);
  }

  lemma LeadsOneStep(cfg: Config, s: State, a: Action)
    requires cfg.Valid()
    ensures Leads(cfg, s, Step(cfg, s, a))
  {
    LeadsNowhere(cfg, s);
    LeadsOn(cfg, s, s, a);
  }

  lemma {:induction false} ExecConcat(cfg: Config, s: State, a: seq<Action>, b: seq<Action>)
    requires cfg.Valid()
    ensures Exec(cfg, s, a + b) == Exec(cfg, Exec(cfg, s, a), b)
    decreases |b|
  {
    if b == [] {
      assert a + b == a;
    } else {
      var init, both := b[..|b| - 1], a + b;
      ExecConcat(cfg, s, a, init);
      assert both[..|both| - 1] == a + init;
    }
  }

  lemma LeadsTransitive(cfg: Config, s: State, s': State, s'': State)
    requires cfg.Valid() && Leads(cfg, s, s') && Leads(cfg, s', s'')
    ensures Leads(cfg, s, s'')
  {
    var a :| s' == Exec(cfg, s, a);
    var b :| s'' == Exec(cfg, s', b);
    ExecConcat(cfg, s, a, b);
    assert s'' == Exec(cfg, s, a + b);
  }

  /** There is always room for one more worker. */
  lemma FreshWorker(s: State) returns (w: nat)
    ensures w !in s.work
  {
    w := Beyond(s.work.Keys);
  }

  lemma Beyond(used: set<nat>) returns (w: nat)
    ensures forall k :: k in used ==> k < w
    decreases |used|
  {
    if used == {} { return 0; }
    var x :| x in used;
    var v := Beyond(used - {x});
    w := if v <= x then x + 1 else v;
    forall k | k in used ensures k < w {
      if k != x { assert k in used - {x}; }
    }
  }

  // ---- the procedures -------------------------------------------------------------------------

  /** What the holder of a claim does next, given how its calls turn out. */
  function TeardownSteps(w: nat, force: bool, luck: TearLuck): seq<Action> {
    [TearsDown(w, Decide), TearsDown(w, StopDone(luck.stopped))]
    + if luck.stopped || force
      then [TearsDown(w, Release(luck.freed)), TearsDown(w, Mark(luck.marked)),
            TearsDown(w, Finalize(luck.logsKey, luck.artifacts, luck.finalized))]
      else [TearsDown(w, Revert(luck.reverted))]
  }

  lemma DecideAndStop(cfg: Config, s: State, w: nat, stopped: bool)
    requires cfg.Valid() && w in s.work && s.work[w].Claimed?
    ensures var pc := s.work[w];
            var force := s.now - pc.endedAt >= cfg.forceDeadline;
            Exec(cfg, s, [TearsDown(w, Decide), TearsDown(w, StopDone(stopped))])
              == Go(s, w, if stopped || force then Releasing(pc.i, pc.m) else Reverting(pc.i, pc.m))
  {
    var first: seq<Action> := [TearsDown(w, Decide)];
    Then(cfg, s, [], first[0]);
    assert [] + first == first;
    Then(cfg, s, first, TearsDown(w, StopDone(stopped)));
    var pc := s.work[w];
    var force := s.now - pc.endedAt >= cfg.forceDeadline;
    var after := if stopped || force then Releasing(pc.i, pc.m) else Reverting(pc.i, pc.m);
    assert s.work[w := Tearing(pc.i, pc.m, force)][w := after] == s.work[w := after];
  }

  lemma ReleaseToEnd(cfg: Config, s: State, w: nat, luck: TearLuck, acts: seq<Action>, s0: State)
    requires cfg.Valid() && w in s.work && s.work[w].Releasing? && s.work[w].i in s.db.instances
    requires s == Exec(cfg, s0, acts)
    ensures Exec(cfg, s0, acts + [TearsDown(w, Release(luck.freed)), TearsDown(w, Mark(luck.marked)),
                                  TearsDown(w, Finalize(luck.logsKey, luck.artifacts, luck.finalized))]).db
         == TornDown(s.db, s.work[w].i, s.work[w].m, true, luck)
  {
    var a, b, c := TearsDown(w, Release(luck.freed)), TearsDown(w, Mark(luck.marked)),
                   TearsDown(w, Finalize(luck.logsKey, luck.artifacts, luck.finalized));
    Then(cfg, s0, acts, a);
    Then(cfg, s0, acts + [a], b);
    Then(cfg, s0, acts + [a] + [b], c);
    assert acts + [a] + [b] + [c] == acts + [a, b, c];
  }

  /** A worker that has won a claim and is left alone has the effect of the teardown
      procedure, with the force flag that the clock dictates. */
  lemma TeardownIsItsSteps(cfg: Config, s: State, w: nat, luck: TearLuck)
    requires cfg.Valid() && w in s.work && s.work[w].Claimed? && s.work[w].i in s.db.instances
    ensures var pc := s.work[w];
            var force := s.now - pc.endedAt >= cfg.forceDeadline;
            Exec(cfg, s, TeardownSteps(w, force, luck)).db == TornDown(s.db, pc.i, pc.m, force, luck)
  {
    var pc := s.work[w];
    var force := s.now - pc.endedAt >= cfg.forceDeadline;
    var acts: seq<Action> := [TearsDown(w, Decide), TearsDown(w, StopDone(luck.stopped))];
    DecideAndStop(cfg, s, w, luck.stopped);
    if luck.stopped || force {
      ReleaseToEnd(cfg, Exec(cfg, s, acts), w, luck, acts, s);
    } else {
      Then(cfg, s, acts, TearsDown(w, Revert(luck.reverted)));
    }
  }

  // ---- one entry of the sweep ---------------------------------------------------------------------

  /** The sweep lists exactly the matches whose entry a worker could list here. */
  lemma ListedIffReady(cfg: Config, s: State, w: nat, m: nat)
    requires w !in s.work
    ensures m in ReadyMatches(cfg, s.db, s.now) <==>
              exists i :: DoListReady(cfg, s, w, i, m) == Go(s, w, Listed(i, m, s.now - Age(s, m)))
                          && w in DoListReady(cfg, s, w, i, m).work
  {
    if m in ReadyMatches(cfg, s.db, s.now) {
      var i := s.db.matches[m].instance.value;
      assert DoListReady(cfg, s, w, i, m) == Go(s, w, Listed(i, m, s.now - Age(s, m)));
    }
  }

  /** Time since the result of m. */
  function Age(s: State, m: nat): int { if m in s.db.results then s.now - s.db.results[m].endedAt else 0 }

  /** What a worker does with a ready match: list it, claim its instance, and if it wins the
      claim tear the match down, by force once the result is as old as the deadline. */
  function SweepSteps(cfg: Config, w: nat, i: nat, m: nat, age: int, claimed: bool, luck: TearLuck): seq<Action> {
    [TearsDown(w, ListReady(i, m)), TearsDown(w, Claim(claimed))]
    + if claimed then TeardownSteps(w, age >= cfg.forceDeadline, luck) else []
  }

  lemma ListAndClaim(cfg: Config, s: State, w: nat, i: nat, m: nat, claimed: bool)
    requires cfg.Valid() && w !in s.work && m in ReadyMatches(cfg, s.db, s.now) && s.db.matches[m].instance == Some(i)
    ensures var s' := Exec(cfg, s, [TearsDown(w, ListReady(i, m)), TearsDown(w, Claim(claimed))]);
            && s'.now == s.now && s'.db == (if claimed then ClaimTx(s.db, i).0 else s.db)
            && (claimed ==> w in s'.work && s'.work[w] == Claimed(i, m, s.db.results[m].endedAt))
  {
    var first: seq<Action> := [TearsDown(w, ListReady(i, m))];
    Then(cfg, s, [], first[0]);
    assert [] + first == first;
    Then(cfg, s, first, TearsDown(w, Claim(claimed)));
  }

  /** One entry of the sweep, left alone, has the effect of those steps at that clock. */
  lemma SweepIsItsSteps(cfg: Config, s: State, w: nat, i: nat, m: nat, luck: SweepLuck)
    requires cfg.Valid() && w !in s.work && m in ReadyMatches(cfg, s.db, s.now) && s.db.matches[m].instance == Some(i)
    requires luck.fetched(m)
    ensures Exec(cfg, s, SweepSteps(cfg, w, i, m, Age(s, m), luck.claimed(m), luck.tear(m))).db
         == SweptOne(cfg, s.db, m, s.now, luck)
  {
    var acts: seq<Action> := [TearsDown(w, ListReady(i, m)), TearsDown(w, Claim(luck.claimed(m)))];
    var s1 := Exec(cfg, s, acts);
    ListAndClaim(cfg, s, w, i, m, luck.claimed(m));
    if luck.claimed(m) {
      TeardownIsItsSteps(cfg, s1, w, luck.tear(m));
      ExecConcat(cfg, s, acts, TeardownSteps(w, Age(s, m) >= cfg.forceDeadline, luck.tear(m)));
    } else {
      assert acts + [] == acts;
    }
  }

  // ---- the end of a match ------------------------------------------------------------------------

  /** From the stop on, as TeardownSteps does. */
  function StopSteps(w: nat, luck: TearLuck): seq<Action> {
    [TearsDown(w, StopDone(luck.stopped))]
    + if luck.stopped
      then [TearsDown(w, Release(luck.freed)), TearsDown(w, Mark(luck.marked)),
            TearsDown(w, Finalize(luck.logsKey, luck.artifacts, luck.finalized))]
      else [TearsDown(w, Revert(luck.reverted))]
  }

  lemma StopIsItsSteps(cfg: Config, s: State, w: nat, i: nat, m: nat, luck: TearLuck)
    requires cfg.Valid() && w in s.work && s.work[w] == Tearing(i, m, false) && i in s.db.instances
    ensures Exec(cfg, s, StopSteps(w, luck)).db == TornDown(s.db, i, m, false, luck)
  {
    var first: seq<Action> := [TearsDown(w, StopDone(luck.stopped))];
    Then(cfg, s, [], first[0]);
    assert [] + first == first;
    if luck.stopped {
      ReleaseToEnd(cfg, Exec(cfg, s, first), w, luck, first, s);
    } else {
      Then(cfg, s, first, TearsDown(w, Revert(luck.reverted)));
    }
  }

  /** A report is taken up, the match is found underway and read, and its result is recorded. */
  function RecordSteps(w: nat, m: nat, v: Verdict): seq<Action> {
    [Ends(w, Report(m, v)), Ends(w, CheckUnderway), Ends(w, LoadMatch), Ends(w, CommitResult(true))]
  }

  /** And what comes after that, in the same call. */
  function AfterRecordSteps(cfg: Config, w: nat, row: Match, luck: EndLuck, tear: TearLuck): seq<Action> {
    if row.instance.None? then [Ends(w, FinalizeBare(luck.finalized))]
    else if cfg.cooldown > 0 then []
    else if !luck.instanceRead then [World(Crash(w))]
    else [Ends(w, ClaimInline(luck.claimed))] + if luck.claimed then StopSteps(w, tear) else []
  }

  lemma Recording(cfg: Config, s: State, w: nat, m: nat, v: Verdict)
    requires cfg.Valid() && w !in s.work && Teardown.Underway(s.db, m) && m !in s.db.results
    ensures var s1, s' := s.(work := s.work[w := Loaded(m, s.db.matches[m], v)]), Exec(cfg, s, RecordSteps(w, m, v));
            s' == AfterCommit(cfg, s1, w, PhaseA(cfg, s.db, m, v, s.now))
  {
    var acts := RecordSteps(w, m, v);
    var a, b, c := acts[0], acts[1], acts[2];
    ThreeSteps(cfg, s, a, b, c);
    Then(cfg, s, [a, b, c], acts[3]);
    assert [a, b, c] + [acts[3]] == acts;
    assert s.work[w := Ending(m, v)][w := Pc.Underway(m, v)][w := Loaded(m, s.db.matches[m], v)] == s.work[w := Loaded(m, s.db.matches[m], v)];
  }

  /** A worker that ends a match and is left alone has the effect of the end procedure. */
  lemma EndIsItsSteps(cfg: Config, s: State, w: nat, m: nat, v: Verdict, luck: EndLuck, tear: TearLuck)
    requires cfg.Valid() && w !in s.work && Teardown.Underway(s.db, m) && m !in s.db.results
    requires s.db.matches[m].instance.Some? ==> s.db.matches[m].instance.value in s.db.instances
    ensures Exec(cfg, s, RecordSteps(w, m, v) + AfterRecordSteps(cfg, w, s.db.matches[m], luck, tear)).db
         == EndedAs(cfg, s.db, m, v, s.now, luck, tear)
  {
    var row := s.db.matches[m];
    var s1 := Exec(cfg, s, RecordSteps(w, m, v));
    Recording(cfg, s, w, m, v);
    PhaseAMeans(cfg, s.db, m, v, s.now);
    ExecConcat(cfg, s, RecordSteps(w, m, v), AfterRecordSteps(cfg, w, row, luck, tear));
    if row.instance.None? {
      AloneStep(cfg, s1, Ends(w, FinalizeBare(luck.finalized)));
    } else if cfg.cooldown == 0 {
      if luck.instanceRead { InlineIsItsSteps(cfg, s1, w, row.instance.value, m, luck.claimed, tear); } else { AloneStep(cfg, s1, World(Crash(w))); }
    }
  }

  lemma AloneStep(cfg: Config, s: State, a: Action)
    requires cfg.Valid()
    ensures Exec(cfg, s, [a]) == Step(cfg, s, a)
  {
    assert [a][..0] == [];
  }

  lemma InlineIsItsSteps(cfg: Config, s: State, w: nat, i: nat, m: nat, claimed: bool, tear: TearLuck)
    requires cfg.Valid() && w in s.work && s.work[w] == InlineClaim(i, m) && ClaimTx(s.db, i).1
    ensures Exec(cfg, s, [Ends(w, ClaimInline(claimed))] + if claimed then StopSteps(w, tear) else []).db
         == if claimed then TornDown(ClaimTx(s.db, i).0, i, m, false, tear) else s.db
  {
    var first: seq<Action> := [Ends(w, ClaimInline(claimed))];
    AloneStep(cfg, s, first[0]);
    ExecConcat(cfg, s, first, if claimed then StopSteps(w, tear) else []);
    if claimed { StopIsItsSteps(cfg, Exec(cfg, s, first), w, i, m, tear); }
  }

  // ---- a start ---------------------------------------------------------------------------------

  /** What a start on host h does when nothing fails. */
  function StartActions(w: nat, h: nat, spec: Spec, i: nat, m: nat): seq<Action> {
    [Starts(w, PickHost(h, spec)), Starts(w, AllocatePorts(Acked)), Starts(w, Persist(i, m, Acked))]
  }

  lemma ThreeSteps(cfg: Config, s: State, a: Action, b: Action, c: Action)
    requires cfg.Valid()
    ensures Exec(cfg, s, [a, b, c]) == Step(cfg, Step(cfg, Step(cfg, s, a), b), c)
  {
    var acts := [a, b, c];
    assert acts[..2][..1] == acts[..1] && acts[..1][..0] == [];
    assert Exec(cfg, s, acts[..1]) == Step(cfg, Exec(cfg, s, []), a);
    assert Exec(cfg, s, acts[..2]) == Step(cfg, Exec(cfg, s, acts[..1]), b);
  }

  /** A start that is left alone on a host with the ports it needs adds exactly what the
      start procedure promises. */
  lemma StartIsItsSteps(cfg: Config, s: State, w: nat, h: nat, spec: Spec, i: nat, m: nat, newHost: nat, row: Host, streams: bool)
    requires cfg.Valid() && w !in s.work && h in s.db.hosts && s.db.hosts[h].status == Ready
    requires i !in s.db.instances && m !in s.made && m !in s.db.matches && newHost !in s.db.hosts
    requires AllocateTx(cfg, s.db, h, spec.count).1.Some?
    ensures AddsOneMatch(cfg, s.db, Exec(cfg, s, StartActions(w, h, spec, i, m)).db, i, m,
                     Job(spec.count, spec.queue, spec.players, streams), newHost, row, s.now)
  {
    var acts := StartActions(w, h, spec, i, m);
    ThreeSteps(cfg, s, acts[0], acts[1], acts[2]);
    StartSteps(cfg, s, w, h, spec, i, m, newHost, row, streams);
  }

  lemma StartSteps(cfg: Config, s: State, w: nat, h: nat, spec: Spec, i: nat, m: nat, newHost: nat, row: Host, streams: bool)
    requires cfg.Valid() && w !in s.work && h in s.db.hosts && s.db.hosts[h].status == Ready
    requires i !in s.db.instances && m !in s.made && m !in s.db.matches && newHost !in s.db.hosts
    requires AllocateTx(cfg, s.db, h, spec.count).1.Some?
    ensures var s1 := DoPickHost(s, w, h, spec);
            var s3 := DoPersist(DoAllocatePorts(cfg, s1, w, Acked), w, i, m, Acked);
            AddsOneMatch(cfg, s.db, s3.db, i, m, Job(spec.count, spec.queue, spec.players, streams), newHost, row, s.now)
  {
    var s2 := DoAllocatePorts(cfg, DoPickHost(s, w, h, spec), w, Acked);
    assert s2.work[w] == PortsHeld(h, AllocateTx(cfg, s.db, h, spec.count).1.value, spec);
  }
}
