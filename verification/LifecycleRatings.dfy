/** Results and ratings over whole runs: one result per match, and ratings that are exactly
    the committed results replayed in order. */
module LifecycleRatings {
  import opened Common
  import opened Ids
  import opened EloApply
  import opened MatchDb
  import opened LifecycleModel
  import opened LifecycleRows
  import opened LifecycleSteps

  ghost predicate KnownMatches(made: map<nat, Match>, commits: seq<Ended>) {
    forall k :: 0 <= k < |commits| ==> commits[k].m in made
  }

  /** The ratings that the committed results justify, applied one after the other to the
      matches as they were created. */
  function Replay(cfg: Config, made: map<nat, Match>, commits: seq<Ended>): map<nat, Rows>
    requires cfg.Valid() && KnownMatches(made, commits)
  {
    if commits == [] then map[]
    else
      var last := commits[|commits| - 1];
      Rated(cfg, Replay(cfg, made, commits[..|commits| - 1]), made[last.m], last.v)
  }

  /** The result table holds this verdict. */
  ghost predicate Stands(db: Db, c: Ended) {
    c.m in db.results && db.results[c.m].winners == c.v.winners && db.results[c.m].reason == c.v.reason
  }

  /** The result table holds the committed verdicts, one per match and nothing else. */
  ghost predicate Tallied(s: State) {
    && KnownMatches(s.made, s.commits)
    && (forall j, k :: 0 <= j < k < |s.commits| ==> s.commits[j].m != s.commits[k].m)
    && (forall k :: 0 <= k < |s.commits| ==> Stands(s.db, s.commits[k]))
    && (forall m :: m in s.db.results ==> Recorded(s.commits, m))
  }

  ghost predicate Books(cfg: Config, s: State)
    requires cfg.Valid()
  {
    Tallied(s) && s.db.ratings == Replay(cfg, s.made, s.commits)
  }

  lemma {:induction false} ReplayFrame(cfg: Config, made: map<nat, Match>, made': map<nat, Match>, commits: seq<Ended>)
    requires cfg.Valid() && KnownMatches(made, commits)
    requires forall m :: m in made ==> m in made' && made'[m] == made[m]
    ensures Replay(cfg, made', commits) == Replay(cfg, made, commits)
  {
    if commits != [] {
      ReplayFrame(cfg, made, made', commits[..|commits| - 1]);
    }
  }

  lemma QuietTallied(s: State, s': State)
    requires Tallied(s) && s'.commits == s.commits && s'.db.results.Keys == s.db.results.Keys
    requires forall m :: m in s.db.results ==> m in s'.db.results && SameVerdict(s.db.results[m], s'.db.results[m])
    requires forall m :: m in s.made ==> m in s'.made
    ensures Tallied(s')
  {
  }

  /** A step that commits no result leaves ratings and verdicts alone. */
  lemma QuietBooks(cfg: Config, s: State, s': State)
    requires cfg.Valid() && RowsOk(s) && Books(cfg, s) && Change(s, s') && s'.commits == s.commits
    ensures Books(cfg, s')
  {
    ChangeIsFine(s, s');
    ReplayFrame(cfg, s.made, s'.made, s.commits);
    SameResults(s, s');
    QuietTallied(s, s');
  }

  lemma SameResults(s: State, s': State)
    requires Change(s, s') && s'.commits == s.commits
    ensures s'.db.ratings == s.db.ratings && s'.db.results.Keys == s.db.results.Keys
  {
  }

  lemma TxRates(cfg: Config, db: Db, db': Db, m: nat, row: Match, v: Verdict, now: int)
    requires cfg.Valid() && EndTx(cfg, db, m, row, v, now) == Some(db')
    ensures db'.ratings == Rated(cfg, db.ratings, row, v)
  {
  }

  lemma CommitRates(cfg: Config, s: State, s': State, w: nat, ok: bool)
    requires cfg.Valid() && Commits(s, w, ok) && s'.db == DoCommitResult(cfg, s, w, ok).db
    ensures s'.db.ratings == Rated(cfg, s.db.ratings, s.work[w].row, s.work[w].v)
  {
    CommitIsTx(cfg, s, w, ok);
    TxRates(cfg, s.db, s'.db, s.work[w].m, s.work[w].row, s.work[w].v, s.now);
  }

  /** Rating depends on the parts of a match that never change. */
  lemma RatedBySameMatch(cfg: Config, ratings: map<nat, Rows>, row: Match, row': Match, v: Verdict)
    requires cfg.Valid() && SameMatch(row, row')
    ensures Rated(cfg, ratings, row, v) == Rated(cfg, ratings, row', v)
  {
  }

  /** m is among the committed matches. */
  ghost predicate Recorded(commits: seq<Ended>, m: nat) { exists k :: 0 <= k < |commits| && commits[k].m == m }

  lemma RecordedSnoc(commits: seq<Ended>, c: Ended, m: nat)
    ensures Recorded(commits + [c], m) <==> Recorded(commits, m) || c.m == m
  {
    if c.m == m { assert (commits + [c])[|commits|].m == m; }
    if Recorded(commits, m) {
      var k :| 0 <= k < |commits| && commits[k].m == m;
      assert (commits + [c])[k].m == m;
    }
  }

  lemma CommittedTallied(s: State, s': State, m: nat, v: Verdict)
    requires Tallied(s) && Committed(s, s', m, v)
    ensures Tallied(s')
  {
    forall k ensures Recorded(s'.commits, k) <==> Recorded(s.commits, k) || k == m {
      RecordedSnoc(s.commits, Ended(m, v), k);
    }
    VerdictsStand(s, s', m, v);
  }

  lemma VerdictsStand(s: State, s': State, m: nat, v: Verdict)
    requires Tallied(s) && Committed(s, s', m, v)
    ensures KnownMatches(s'.made, s'.commits)
    ensures forall j, k :: 0 <= j < k < |s'.commits| ==> s'.commits[j].m != s'.commits[k].m
    ensures forall k :: 0 <= k < |s'.commits| ==> Stands(s'.db, s'.commits[k])
  {
  }

  lemma CommittedBooks(cfg: Config, s: State, s': State, m: nat, row: Match, v: Verdict)
    requires cfg.Valid() && Books(cfg, s) && Committed(s, s', m, v)
    requires SameMatch(row, s.made[m]) && s'.db.ratings == Rated(cfg, s.db.ratings, row, v)
    ensures Books(cfg, s')
  {
    CommittedTallied(s, s', m, v);
    RatedBySameMatch(cfg, s.db.ratings, row, s.made[m], v);
    assert s'.commits[..|s'.commits| - 1] == s.commits;
  }

  lemma CommitBooks(cfg: Config, s: State, w: nat, ok: bool)
    requires cfg.Valid() && Steady(cfg, s) && Books(cfg, s)
    ensures Books(cfg, DoCommitResult(cfg, s, w, ok))
  {
    var s' := DoCommitResult(cfg, s, w, ok);
    if !Commits(s, w, ok) {
      RefusedIsQuiet(cfg, s, w, ok);
      QuietBooks(cfg, s, s');
    } else {
      CommitResultWrites(cfg, s, w, ok);
      CommitRates(cfg, s, s', w, ok);
      if Quiet(s, s') {
        QuietBooks(cfg, s, s');
      } else {
        var pc := s.work[w];
        assert Knows(cfg, s, pc);
        WritesCommit(s, s', pc.m, pc.row, pc.v);
        CommittedBooks(cfg, s, s', pc.m, pc.row, pc.v);
      }
    }
  }

  lemma OnlyCommitsCommit(cfg: Config, s: State, a: Action)
    requires cfg.Valid() && !(a.Ends? && a.end.CommitResult?)
    ensures Step(cfg, s, a).commits == s.commits
  {
    match a
    case World(e) =>
    case Starts(w, e) =>
    case Ends(w, e) =>
    case TearsDown(w, e) =>
    case Tends(w, e) =>
  }

  lemma StepKeepsBooks(cfg: Config, s: State, a: Action)
    requires cfg.Valid() && Steady(cfg, s) && Books(cfg, s)
    ensures Books(cfg, Step(cfg, s, a))
  {
    if a.Ends? && a.end.CommitResult? {
      CommitBooks(cfg, s, a.w, a.end.ok);
    } else {
      StepFine(cfg, s, a);
      OnlyCommitsCommit(cfg, s, a);
      QuietBooks(cfg, s, Step(cfg, s, a));
    }
  }

  // ---- points in circulation ------------------------------------------------------------

  /** Does this result move ratings in queue q? */
  predicate Rates(made: map<nat, Match>, c: Ended, q: nat) {
    c.m in made && made[c.m].queue == q && c.v.adjustRatings
  }

  /** The registered players of all matches rated in queue q, counted per match; matches
      between two do not count, for they conserve exactly. */
  function Seats(made: map<nat, Match>, commits: seq<Ended>, q: nat): nat {
    if commits == [] then 0
    else
      var last := commits[|commits| - 1];
      var n := if Rates(made, last, q) then |NonGuests(made[last.m].players)| else 0;
      Seats(made, commits[..|commits| - 1], q) + if n <= 2 then 0 else n
  }

  ghost predicate Enrolled(made: map<nat, Match>, roll: seq<Id>) {
    NoDup(roll) && forall m :: m in made ==> NoDup(made[m].players) && forall p :: p in made[m].players && !IsGuest(p) ==> p in roll
  }

  lemma {:induction false} NoPlayersNoExcess(roll: seq<Id>, default: int)
    ensures Excess(map[], roll, default) == 0
  {
    if roll != [] { NoPlayersNoExcess(roll[..|roll| - 1], default); }
  }

  /** Over any list of results, the points in circulation in a queue leave the default by
      at most half a point per seat. */
  lemma {:induction false} ReplayNearlyConserves(cfg: Config, made: map<nat, Match>, commits: seq<Ended>, q: nat, roll: seq<Id>)
    requires cfg.Valid() && KnownMatches(made, commits) && Enrolled(made, roll)
    requires q in cfg.rulesOf && cfg.rulesOf[q].Classic?
    ensures var total := Excess(QueueRows(Replay(cfg, made, commits), q), roll, cfg.rulesOf[q].queue.defaultRating);
            0 - Seats(made, commits, q) <= 2 * total <= Seats(made, commits, q)
  {
    var rules := cfg.rulesOf[q].queue;
    if commits == [] {
      NoPlayersNoExcess(roll, rules.defaultRating);
    } else {
      var init, last := commits[..|commits| - 1], commits[|commits| - 1];
      ReplayNearlyConserves(cfg, made, init, q, roll);
      if Rates(made, last, q) {
        var rows := QueueRows(Replay(cfg, made, init), q);
        UpdateNearlyConserves(cfg.base, rules, rows, made[last.m].players, last.v.winners, roll);
      }
    }
  }
}
