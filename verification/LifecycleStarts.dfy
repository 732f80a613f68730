/** Every match is created once, and its uploader is started by the start that created it:
    so each match is started at most once, whoever runs alongside. */
module LifecycleStarts {
  import opened MatchDb
  import opened LifecycleModel
  import opened LifecycleSafety
  import opened LifecycleFlow
  import opened UploaderRegistry

  /** Action k of the run creates match m. */
  ghost predicate Creates(cfg: Config, acts: seq<Action>, k: nat, m: nat)
    requires cfg.Valid() && k < |acts|
  {
    m !in Exec(cfg, LifecycleModel.Init(), acts[..k]).made && m in Exec(cfg, LifecycleModel.Init(), acts[..k + 1]).made
  }

  lemma RunsOn(cfg: Config, acts: seq<Action>, j: nat, k: nat)
    requires cfg.Valid() && j <= k <= |acts|
    ensures var s, s' := Exec(cfg, LifecycleModel.Init(), acts[..j]), Exec(cfg, LifecycleModel.Init(), acts[..k]);
            Reachable(cfg, s) && Leads(cfg, s, s')
  {
    var s0 := LifecycleModel.Init();
    ExecConcat(cfg, s0, acts[..j], acts[j..k]);
    assert acts[..j] + acts[j..k] == acts[..k];
  }

  lemma MadeGrows(cfg: Config, s: State, s': State, m: nat)
    requires cfg.Valid() && Reachable(cfg, s) && Leads(cfg, s, s') && m in s.made
    ensures m in s'.made
  {
    ReachableIsSafe(cfg, s);
    LeadsEvolves(cfg, s, s');
  }

  lemma MadeStays(cfg: Config, acts: seq<Action>, j: nat, k: nat, m: nat)
    requires cfg.Valid() && j <= k <= |acts| && m in Exec(cfg, LifecycleModel.Init(), acts[..j]).made
    ensures m in Exec(cfg, LifecycleModel.Init(), acts[..k]).made
  {
    RunsOn(cfg, acts, j, k);
    MadeGrows(cfg, Exec(cfg, LifecycleModel.Init(), acts[..j]), Exec(cfg, LifecycleModel.Init(), acts[..k]), m);
  }

  lemma CreatedOnce(cfg: Config, acts: seq<Action>, j: nat, k: nat, m: nat)
    requires cfg.Valid() && j < |acts| && k < |acts| && Creates(cfg, acts, j, m) && Creates(cfg, acts, k, m)
    ensures j == k
  {
    if j < k {
      MadeStays(cfg, acts, j + 1, k, m);
    } else if k < j {
      MadeStays(cfg, acts, k + 1, j, m);
    }
  }

  /** Every start of an uploader belongs to the action that created its match, and no two to
      the same one; stops and ends come from anywhere. */
  ghost predicate Launches(cfg: Config, acts: seq<Action>, ops: seq<Op>, cause: map<nat, nat>)
    requires cfg.Valid()
  {
    && (forall k :: 0 <= k < |ops| && ops[k].OpStart? ==> k in cause && cause[k] < |acts| && Creates(cfg, acts, cause[k], ops[k].m))
    && (forall j, k :: j in cause && k in cause && j != k ==> cause[j] != cause[k])
  }

  /** In every run of the service the registry of uploaders is right, and a match has an
      uploader at the end exactly if its start took effect and no stop came after it. */
  lemma UploadersAreTracked(cfg: Config, acts: seq<Action>, ops: seq<Op>, cause: map<nat, nat>)
    requires cfg.Valid() && Launches(cfg, acts, ops, cause)
    ensures StartsOnce(ops) && Tracks(Run(ops))
    ensures forall m :: HasLive(Run(ops), m) <==> LeftRunning(ops, m)
  {
    forall j, k | 0 <= j < k < |ops| && ops[j].OpStart? && ops[k].OpStart? ensures ops[j].m != ops[k].m {
      if ops[j].m == ops[k].m { CreatedOnce(cfg, acts, cause[j], cause[k], ops[j].m); }
    }
    OneUploaderPerMatch(ops);
    forall m ensures HasLive(Run(ops), m) <==> LeftRunning(ops, m) {
      RunsAtEndIff(ops, m);
    }
  }
}
