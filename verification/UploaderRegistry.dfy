/** The registry of running spectator uploaders: starting one registers it under its match,
    stopping a match cancels whatever is registered, and an uploader that ends deletes its
    match's entry. */
module UploaderRegistry {
  /** One goroutine. It ends some time after it was cancelled. */
  datatype Uploader = Uploader(m: nat, cancelled: bool)

  datatype Registry = Registry(entry: map<nat, nat>, running: map<nat, Uploader>)

  function Without(entry: map<nat, nat>, m: nat): map<nat, nat> { map k | k in entry && k != m :: entry[k] }

  /** u: the goroutine's number. Nothing starts for a match that does not stream, or that
      has an entry. */
  function Start(r: Registry, m: nat, u: nat, streams: bool): Registry {
    if !streams || m in r.entry || u in r.running then r
    else Registry(r.entry[m := u], r.running[u := Uploader(m, false)])
  }

  function Stop(r: Registry, m: nat): Registry {
    if m !in r.entry then r
    else
      var u := r.entry[m];
      Registry(Without(r.entry, m), if u in r.running then r.running[u := r.running[u].(cancelled := true)] else r.running)
  }

  /** The deferred delete goes by match, not by uploader. */
  function Exit(r: Registry, u: nat): Registry {
    if u !in r.running || !r.running[u].cancelled then r
    else Registry(Without(r.entry, r.running[u].m), map k | k in r.running && k != u :: r.running[k])
  }

  class Uploaders {
    var entry: map<nat, nat>
    var running: map<nat, Uploader>

    constructor ()
      ensures View() == Registry(map[], map[])
    {
      entry, running := map[], map[];
    }

    ghost function View(): Registry
      reads this
    {
      Registry(entry, running)
    }

    method StartUploader(m: nat, u: nat, streams: bool)
      requires u !in running
      modifies this
      ensures View() == Start(old(View()), m, u, streams)
    {
      if !streams { return; }
      if m in entry { return; }
      entry := entry[m := u];
      running := running[u := Uploader(m, false)];
    }

    method StopUploader(m: nat)
      modifies this
      ensures View() == Stop(old(View()), m)
    {
      if m in entry {
        var u := entry[m];
        entry := Without(entry, m);
        if u in running { running := running[u := running[u].(cancelled := true)]; }
      }
    }

    method UploaderExits(u: nat)
      requires u in running && running[u].cancelled
      modifies this
      ensures View() == Exit(old(View()), u)
    {
      entry := Without(entry, running[u].m);
      running := map k | k in running && k != u :: running[k];
    }
  }

  // ---- what the registry is for ----------------------------------------------------------------

  predicate Live(r: Registry, u: nat) { u in r.running && !r.running[u].cancelled }

  /** The entries are exactly the uploaders that have not been told to stop. */
  ghost predicate Tracks(r: Registry) {
    && (forall u :: Live(r, u) ==> r.running[u].m in r.entry && r.entry[r.running[u].m] == u)
    && (forall m :: m in r.entry ==> Live(r, r.entry[m]) && r.running[r.entry[m]].m == m)
  }

  /** At most one uploader writes for a match, and stopping the match reaches it. */
  lemma TrackedIsUnique(r: Registry, u: nat, u': nat)
    requires Tracks(r) && Live(r, u) && Live(r, u') && r.running[u].m == r.running[u'].m
    ensures u == u' && !Live(Stop(r, r.running[u].m), u)
  {
  }

  lemma StartTracks(r: Registry, m: nat, u: nat, streams: bool)
    requires Tracks(r)
    ensures Tracks(Start(r, m, u, streams))
  {
    var r' := Start(r, m, u, streams);
    forall k | Live(r', k) ensures r'.running[k].m in r'.entry && r'.entry[r'.running[k].m] == k {
      if k != u { assert Live(r, k); }
    }
  }

  lemma StopTracks(r: Registry, m: nat)
    requires Tracks(r)
    ensures Tracks(Stop(r, m))
  {
    var r' := Stop(r, m);
    forall k | Live(r', k) ensures r'.running[k].m in r'.entry && r'.entry[r'.running[k].m] == k {
      assert Live(r, k);
    }
  }

  /** The end of a stopped uploader keeps the registry right exactly if no other uploader
      has been started for its match meanwhile. */
  lemma ExitTracksIff(r: Registry, u: nat)
    requires Tracks(r) && u in r.running && r.running[u].cancelled
    ensures Tracks(Exit(r, u)) <==> r.running[u].m !in r.entry
  {
    var r', m := Exit(r, u), r.running[u].m;
    if m in r.entry {
      assert Live(r', r.entry[m]);
    } else {
      forall k | Live(r', k) ensures r'.running[k].m in r'.entry && r'.entry[r'.running[k].m] == k {
        assert Live(r, k);
      }
    }
  }

  // ---- whole histories -------------------------------------------------------------------------

  datatype Op = OpStart(m: nat, u: nat, streams: bool) | OpStop(m: nat) | OpExit(u: nat)

  function Apply(r: Registry, op: Op): Registry {
    match op
    case OpStart(m, u, streams) => Start(r, m, u, streams)
    case OpStop(m) => Stop(r, m)
    case OpExit(u) => Exit(r, u)
  }

  function Run(ops: seq<Op>): Registry {
    if ops == [] then Registry(map[], map[]) else Apply(Run(ops[..|ops| - 1]), ops[|ops| - 1])
  }

  /** No uploader of m is still winding down. */
  predicate Settled(r: Registry, m: nat) { forall u :: u in r.running && r.running[u].m == m ==> !r.running[u].cancelled }

  /** A match is only started when its earlier uploaders, if any, have ended. */
  ghost predicate Patient(ops: seq<Op>) {
    forall k :: 0 <= k < |ops| && ops[k].OpStart? ==> Settled(Run(ops[..k]), ops[k].m)
  }

  /** An entry's match has no uploader winding down. */
  ghost predicate Clean(r: Registry) { Tracks(r) && forall m :: m in r.entry ==> Settled(r, m) }

  lemma ApplyKeepsClean(r: Registry, op: Op)
    requires Clean(r) && (op.OpStart? ==> Settled(r, op.m))
    ensures Clean(Apply(r, op))
  {
    match op
    case OpStart(m, u, streams) => StartTracks(r, m, u, streams);
    case OpStop(m) => StopTracks(r, m);
    case OpExit(u) => if u in r.running && r.running[u].cancelled { ExitTracksIff(r, u); }
  }

  lemma {:induction false} PatientIsClean(ops: seq<Op>)
    requires Patient(ops)
    ensures Clean(Run(ops))
  {
    if ops != [] {
      var init := ops[..|ops| - 1];
      forall k | 0 <= k < |init| ensures init[..k] == ops[..k] {}
      PatientIsClean(init);
      assert init == ops[..|ops| - 1];
      ApplyKeepsClean(Run(init), ops[|ops| - 1]);
    }
  }

  /** No match is started twice: its uploader is started when the match is persisted, and
      every match is persisted under a new identifier. */
  ghost predicate StartsOnce(ops: seq<Op>) {
    forall j, k :: 0 <= j < k < |ops| && ops[j].OpStart? && ops[k].OpStart? ==> ops[j].m != ops[k].m
  }

  ghost predicate WasStarted(ops: seq<Op>, m: nat) { exists k :: 0 <= k < |ops| && ops[k].OpStart? && ops[k].m == m }

  lemma {:induction false} RunningWasStarted(ops: seq<Op>)
    ensures forall u :: u in Run(ops).running ==> WasStarted(ops, Run(ops).running[u].m)
  {
    if ops != [] {
      var init, last := ops[..|ops| - 1], ops[|ops| - 1];
      RunningWasStarted(init);
      forall u | u in Run(ops).running ensures WasStarted(ops, Run(ops).running[u].m) {
        if u in Run(init).running && Run(init).running[u].m == Run(ops).running[u].m {
          var k :| 0 <= k < |init| && init[k].OpStart? && init[k].m == Run(ops).running[u].m;
          assert ops[k] == init[k];
        } else {
          assert last.OpStart? && ops[|ops| - 1].m == Run(ops).running[u].m;
        }
      }
    }
  }

  lemma StartsOnceIsPatient(ops: seq<Op>)
    requires StartsOnce(ops)
    ensures Patient(ops)
  {
    forall k | 0 <= k < |ops| && ops[k].OpStart? ensures Settled(Run(ops[..k]), ops[k].m) {
      RunningWasStarted(ops[..k]);
      forall u | u in Run(ops[..k]).running ensures Run(ops[..k]).running[u].m != ops[k].m {
        var j :| 0 <= j < k && ops[..k][j].OpStart? && ops[..k][j].m == Run(ops[..k]).running[u].m;
        assert ops[j] == ops[..k][j];
      }
    }
  }

  /** In every history that starts each match at most once, stopped and ended in any order,
      the registry is right: every match has at most one uploader that writes, and a stop
      reaches it if it runs by then. */
  lemma OneUploaderPerMatch(ops: seq<Op>)
    requires StartsOnce(ops)
    ensures Tracks(Run(ops))
    ensures forall u, u' :: Live(Run(ops), u) && Live(Run(ops), u') && Run(ops).running[u].m == Run(ops).running[u'].m ==> u == u'
    ensures forall u :: Live(Run(ops), u) ==> !Live(Stop(Run(ops), Run(ops).running[u].m), u)
  {
    StartsOnceIsPatient(ops);
    PatientIsClean(ops);
  }

  /** What the interface alone would allow, if a match were started again before its stopped
      uploader has ended: the late end deletes the new entry, and a third start runs beside
      the second. */
  lemma RestartLosesTrack()
    ensures var r := Run([OpStart(0, 1, true), OpStop(0), OpStart(0, 2, true), OpExit(1), OpStart(0, 3, true)]);
            Live(r, 2) && Live(r, 3) && r.running[2].m == r.running[3].m
  {
    var ops := [OpStart(0, 1, true), OpStop(0), OpStart(0, 2, true), OpExit(1), OpStart(0, 3, true)];
    assert ops[..4][..3] == ops[..3] && ops[..3][..2] == ops[..2] && ops[..2][..1] == ops[..1] && ops[..1][..0] == [];
    assert Run(ops[..1]) == Registry(map[0 := 1], map[1 := Uploader(0, false)]);
    assert Run(ops[..2]) == Registry(map[], map[1 := Uploader(0, true)]);
    assert Run(ops[..3]) == Registry(map[0 := 2], map[1 := Uploader(0, true), 2 := Uploader(0, false)]);
    assert Run(ops[..4]) == Registry(map[], map[2 := Uploader(0, false)]);
  }

  // ---- who is left running --------------------------------------------------------------------------

  ghost predicate HasLive(r: Registry, m: nat) { exists u :: Live(r, u) && r.running[u].m == m }

  /** Operation k starts an uploader of m: the match streams and the goroutine is new. */
  predicate StartsAt(ops: seq<Op>, k: nat, m: nat)
    requires k < |ops|
  {
    ops[k].OpStart? && ops[k].m == m && ops[k].streams && ops[k].u !in Run(ops[..k]).running
  }

  ghost predicate StoppedAfter(ops: seq<Op>, k: nat, m: nat) { exists j :: k < j < |ops| && ops[j] == OpStop(m) }

  /** Some start of m has no stop of m after it. */
  ghost predicate LeftRunning(ops: seq<Op>, m: nat) {
    exists k :: 0 <= k < |ops| && StartsAt(ops, k, m) && !StoppedAfter(ops, k, m)
  }

  lemma StoppedAfterSnoc(ops: seq<Op>, k: nat, m: nat)
    requires k < |ops| - 1
    ensures StoppedAfter(ops, k, m) <==> StoppedAfter(ops[..|ops| - 1], k, m) || ops[|ops| - 1] == OpStop(m)
  {
    var init, n := ops[..|ops| - 1], |ops| - 1;
    if j :| k < j < n && init[j] == OpStop(m) { assert ops[j] == OpStop(m); }
    if ops[n] == OpStop(m) { assert StoppedAfter(ops, k, m); }
    if j :| k < j < |ops| && ops[j] == OpStop(m) {
      if j < n { assert init[j] == OpStop(m); }
    }
  }

  lemma StartsAtSnoc(ops: seq<Op>, k: nat, m: nat)
    requires k < |ops| - 1
    ensures StartsAt(ops, k, m) == StartsAt(ops[..|ops| - 1], k, m)
  {
    assert ops[..k] == ops[..|ops| - 1][..k];
  }

  lemma LeftRunningSnoc(ops: seq<Op>, m: nat)
    requires ops != []
    ensures var init, n := ops[..|ops| - 1], |ops| - 1;
            LeftRunning(ops, m) <==> StartsAt(ops, n, m) || (LeftRunning(init, m) && ops[n] != OpStop(m))
  {
    var init, n := ops[..|ops| - 1], |ops| - 1;
    if k :| 0 <= k < n && StartsAt(init, k, m) && !StoppedAfter(init, k, m) {
      StartsAtSnoc(ops, k, m);
      StoppedAfterSnoc(ops, k, m);
    }
    if StartsAt(ops, n, m) { assert !StoppedAfter(ops, n, m); }
    if k :| 0 <= k < |ops| && StartsAt(ops, k, m) && !StoppedAfter(ops, k, m) {
      if k < n {
        StartsAtSnoc(ops, k, m);
        StoppedAfterSnoc(ops, k, m);
      }
    }
  }

  lemma EntryIsLive(r: Registry, m: nat)
    requires Tracks(r)
    ensures m in r.entry ==> HasLive(r, m)
  {
    if m in r.entry { assert Live(r, r.entry[m]) && r.running[r.entry[m]].m == m; }
  }

  lemma StartLives(r: Registry, m: nat, u: nat, streams: bool, k: nat)
    requires Tracks(r) && !HasLive(r, m)
    ensures HasLive(Start(r, m, u, streams), k) <==> HasLive(r, k) || (k == m && streams && u !in r.running)
  {
    var r' := Start(r, m, u, streams);
    EntryIsLive(r, m);
    if v :| Live(r, v) && r.running[v].m == k { assert Live(r', v) && r'.running[v].m == k; }
    if streams && u !in r.running { assert Live(r', u) && r'.running[u].m == m; }
  }

  lemma StopLives(r: Registry, m: nat, k: nat)
    requires Tracks(r)
    ensures HasLive(Stop(r, m), k) <==> HasLive(r, k) && k != m
  {
    var r' := Stop(r, m);
    if v :| Live(r, v) && r.running[v].m == k { if k != m { assert Live(r', v) && r'.running[v].m == k; } }
    if v :| Live(r', v) && r'.running[v].m == k { assert Live(r, v) && r.running[v].m == k; }
  }

  lemma ExitLives(r: Registry, u: nat, k: nat)
    ensures HasLive(Exit(r, u), k) <==> HasLive(r, k)
  {
    var r' := Exit(r, u);
    if v :| Live(r, v) && r.running[v].m == k { assert Live(r', v) && r'.running[v].m == k; }
    if v :| Live(r', v) && r'.running[v].m == k { assert Live(r, v) && r.running[v].m == k; }
  }

  /** A match that is started once has an uploader at the end exactly if its start took
      effect and no stop of the match came after it. A stop that comes before the start
      stops nothing, and the uploader runs on. */
  lemma {:induction false} RunsAtEndIff(ops: seq<Op>, m: nat)
    requires StartsOnce(ops)
    ensures HasLive(Run(ops), m) <==> LeftRunning(ops, m)
  {
    if ops != [] {
      var init, n := ops[..|ops| - 1], |ops| - 1;
      RunsAtEndIff(init, m);
      LeftRunningSnoc(ops, m);
      StartsOnceIsPatient(init);
      PatientIsClean(init);
      match ops[n]
      case OpStart(k, u, streams) =>
        NotYetStarted(ops);
        StartLives(Run(init), k, u, streams, m);
      case OpStop(k) => StopLives(Run(init), k, m);
      case OpExit(u) => ExitLives(Run(init), u, m);
    }
  }

  lemma LiveWasStarted(ops: seq<Op>, m: nat)
    ensures HasLive(Run(ops), m) ==> WasStarted(ops, m)
  {
    RunningWasStarted(ops);
  }

  lemma NotYetStarted(ops: seq<Op>)
    requires ops != [] && StartsOnce(ops) && ops[|ops| - 1].OpStart?
    ensures !HasLive(Run(ops[..|ops| - 1]), ops[|ops| - 1].m)
  {
    var init, n := ops[..|ops| - 1], |ops| - 1;
    LiveWasStarted(init, ops[n].m);
    forall k | 0 <= k < n && init[k].OpStart? ensures init[k].m != ops[n].m {
      assert ops[k] == init[k];
    }
  }

  /** The match is in the database before its uploader is started. If its result is reported
      in between, the stop finds nothing, and nobody stops the match again. */
  lemma StopBeforeStartIsLost()
    ensures var ops := [OpStop(0), OpStart(0, 1, true)];
            StartsOnce(ops) && Live(Run(ops), 1) && Run(ops).running[1].m == 0
  {
    var ops := [OpStop(0), OpStart(0, 1, true)];
    assert ops[..1][..0] == [];
    assert Run(ops[..1]) == Registry(map[], map[]);
  }
}
