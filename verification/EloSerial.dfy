/** The rating values behind the row locks. Transactions interleave statement by statement:
    each keeps its own versions of the rows it inserts and saves until it commits, and reads
    a row when it locks it, in the version committed last or its own. The committed ratings
    are those of the committed updates applied one after the other, in the order in which
    they commit. */
module EloSerial {
  import opened Ids
  import opened EloMath
  import opened EloApply
  import opened MatchDb
  import L = EloLocks

  /** What a transaction carries: the match and its verdict, the ratings read so far, its own
      uncommitted versions of rows, and how many of them it has saved. */
  datatype Draft = Draft(row: Match, v: Verdict, read: seq<int>, mine: Rows, saved: nat)

  /** What was committed: a match's update, or a row that was read for the first time. */
  datatype Entry = Update(row: Match, v: Verdict) | Fresh(queue: nat, player: Id)

  datatype State = State(locks: L.State, values: map<nat, Rows>, drafts: map<nat, Draft>, log: seq<Entry>)

  datatype Action =
    | Begin(t: nat, row: Match, v: Verdict)
    | Insert(t: nat)
    | Lock(t: nat)
    | Save(t: nat)
    | Commit(t: nat)
    | Abort(t: nat)
    | LazyCreate(queue: nat, player: Id)

  predicate Rates(cfg: Config, q: nat) { q in cfg.rulesOf && cfg.rulesOf[q].Classic? }

  function Default(cfg: Config, q: nat): int { if Rates(cfg, q) then cfg.rulesOf[q].queue.defaultRating else 0 }

  /** A player without a row counts as one at the default. */
  function Rank(cfg: Config, values: map<nat, Rows>, q: nat, p: Id): int {
    if p in QueueRows(values, q) then QueueRows(values, q)[p] else Default(cfg, q)
  }

  // ---- the statements --------------------------------------------------------------------------

  function DoBegin(cfg: Config, s: State, t: nat, row: Match, v: Verdict): State {
    var locks := L.DoBegin(s.locks, t, row.queue, row.players);
    if !v.adjustRatings || !Rates(cfg, row.queue) || locks == s.locks then s
    else s.(locks := locks, drafts := s.drafts[t := Draft(row, v, [], map[], 0)])
  }

  function DoInsert(cfg: Config, s: State, t: nat): State {
    var locks := L.DoInsert(s.locks, t);
    if locks == s.locks || t !in s.drafts then s
    else
      var x, d := s.locks.txns[t], s.drafts[t];
      var p := x.players[x.pc.k];
      if x.RowAt(x.pc.k) in s.locks.committed || p in d.mine then s.(locks := locks)
      else s.(locks := locks, drafts := s.drafts[t := d.(mine := d.mine[p := Default(cfg, x.queue)])])
  }

  function DoLock(cfg: Config, s: State, t: nat): State {
    var locks := L.DoLock(s.locks, t);
    if locks == s.locks || t !in s.drafts then s
    else if locks.txns[t].pc.Finished? then s.(locks := locks)
    else
      var x, d := s.locks.txns[t], s.drafts[t];
      var p := x.players[x.pc.k];
      var rating := if p in d.mine then d.mine[p] else Rank(cfg, s.values, x.queue, p);
      s.(locks := locks, drafts := s.drafts[t := d.(read := d.read + [rating])])
  }

  /** The ratings that a transaction which has read all its rows saves. */
  function News(cfg: Config, q: nat, read: seq<int>, winners: seq<Id>, players: seq<Id>): (r: seq<int>)
    requires cfg.Valid() && Rates(cfg, q) && |read| == |players| >= 2
    ensures |r| == |players|
  {
    NewRatings(Table(cfg.base, cfg.rulesOf[q].queue.kFactor, read, WonFlags(winners, players)))
  }

  predicate MaySave(cfg: Config, s: State, t: nat) {
    && t in s.locks.txns && t in s.drafts && s.locks.txns[t].pc.Saving? && Rates(cfg, s.drafts[t].row.queue)
    && |s.drafts[t].read| == |s.locks.txns[t].players| >= 2
  }

  function DoSave(cfg: Config, s: State, t: nat): State
    requires cfg.Valid()
  {
    if !MaySave(cfg, s, t) || s.drafts[t].saved >= |s.locks.txns[t].players| then s
    else
      var x, d := s.locks.txns[t], s.drafts[t];
      var mine := d.mine[x.players[d.saved] := News(cfg, d.row.queue, d.read, d.v.winners, x.players)[d.saved]];
      s.(drafts := s.drafts[t := d.(mine := mine, saved := d.saved + 1)])
  }

  /** Own versions become the committed ones. */
  function DoCommit(cfg: Config, s: State, t: nat): State {
    if !MaySave(cfg, s, t) || s.drafts[t].saved != |s.locks.txns[t].players| then s
    else
      var d := s.drafts[t];
      State(L.DoCommit(s.locks, t), s.values[d.row.queue := QueueRows(s.values, d.row.queue) + d.mine],
            s.drafts, s.log + [Update(d.row, d.v)])
  }

  function DoAbort(s: State, t: nat): State { s.(locks := L.DoAbort(s.locks, t)) }

  function DoLazyCreate(cfg: Config, s: State, q: nat, p: Id): State {
    if L.Row(q, p) in s.locks.inserts || p in QueueRows(s.values, q) then s
    else
      s.(locks := L.DoLazyCreate(s.locks, L.Row(q, p)),
         values := s.values[q := QueueRows(s.values, q)[p := Default(cfg, q)]],
         log := s.log + [Fresh(q, p)])
  }

  function Step(cfg: Config, s: State, a: Action): State
    requires cfg.Valid()
  {
    match a
    case Begin(t, row, v) => DoBegin(cfg, s, t, row, v)
    case Insert(t) => DoInsert(cfg, s, t)
    case Lock(t) => DoLock(cfg, s, t)
    case Save(t) => DoSave(cfg, s, t)
    case Commit(t) => DoCommit(cfg, s, t)
    case Abort(t) => DoAbort(s, t)
    case LazyCreate(q, p) => DoLazyCreate(cfg, s, q, p)
  }

  function RowsIn(values: map<nat, Rows>): set<L.Row> { set q, p | q in values && p in values[q] :: L.Row(q, p) }

  function Init(values: map<nat, Rows>): State { State(L.Init(RowsIn(values)), values, map[], []) }

  function Exec(cfg: Config, s: State, acts: seq<Action>): State
    requires cfg.Valid()
  {
    if acts == [] then s else Step(cfg, Exec(cfg, s, acts[..|acts| - 1]), acts[|acts| - 1])
  }

  function Applied(cfg: Config, before: map<nat, Rows>, e: Entry): map<nat, Rows>
    requires cfg.Valid()
  {
    match e
    case Update(row, v) => Rated(cfg, before, row, v)
    case Fresh(q, p) => before[q := Created(QueueRows(before, q), [p], Default(cfg, q))]
  }

  /** The committed updates, one after the other. */
  function Replay(cfg: Config, values: map<nat, Rows>, log: seq<Entry>): map<nat, Rows>
    requires cfg.Valid()
  {
    if log == [] then values else Applied(cfg, Replay(cfg, values, log[..|log| - 1]), log[|log| - 1])
  }

  // ---- what every run keeps ----------------------------------------------------------------------

  ghost predicate Inserts(locks: L.State, t: nat, r: L.Row) { r in locks.inserts && locks.inserts[r] == t }

  ghost predicate Locks(locks: L.State, t: nat, r: L.Row) { r in locks.locks && locks.locks[r] == t }

  /** The rows that t has inserted, at the default. */
  ghost function Own(cfg: Config, locks: L.State, t: nat, q: nat, players: seq<Id>): Rows {
    map p | p in players && Inserts(locks, t, L.Row(q, p)) :: Default(cfg, q)
  }

  /** t's versions are its inserts, overwritten as far as it has saved. */
  ghost predicate MineOk(cfg: Config, own: Rows, d: Draft, players: seq<Id>)
    requires cfg.Valid()
  {
    && d.saved <= |players|
    && (d.saved == 0 ==> d.mine == own)
    && (d.saved > 0 ==>
          && Rates(cfg, d.row.queue) && |d.read| == |players| >= 2
          && d.mine == Saved(own, players, News(cfg, d.row.queue, d.read, d.v.winners, players), d.saved))
  }

  /** The lock on p's row is t's, and the committed rows say so of p's rating. */
  ghost predicate ReadOk(cfg: Config, s: State, t: nat, q: nat, p: Id, rating: int) {
    Locks(s.locks, t, L.Row(q, p)) && rating == Rank(cfg, s.values, q, p)
  }

  /** What t has read is still what the committed rows say. */
  ghost predicate ReadsOk(cfg: Config, s: State, t: nat, read: seq<int>, x: L.Txn) {
    |read| == x.LockedUpTo() <= |x.players| && forall j :: 0 <= j < |read| ==> ReadOk(cfg, s, t, x.queue, x.players[j], read[j])
  }

  ghost predicate Drafted(cfg: Config, s: State, t: nat, d: Draft, x: L.Txn)
    requires cfg.Valid()
  {
    && x.queue == d.row.queue && Rates(cfg, x.queue)
    && ReadsOk(cfg, s, t, d.read, x)
    && (d.saved > 0 ==> x.pc.Saving?)
    && MineOk(cfg, Own(cfg, s.locks, t, x.queue, x.players), d, x.players)
  }

  ghost predicate DraftOk(cfg: Config, s: State, t: nat)
    requires cfg.Valid() && t in s.locks.txns
  {
    !s.locks.txns[t].pc.Finished? ==> t in s.drafts && Drafted(cfg, s, t, s.drafts[t], s.locks.txns[t])
  }

  ghost predicate Drafts(cfg: Config, s: State)
    requires cfg.Valid()
  {
    forall t :: t in s.locks.txns ==> DraftOk(cfg, s, t)
  }

  ghost predicate SameRows(s: State) {
    forall q, p :: L.Row(q, p) in s.locks.committed <==> p in QueueRows(s.values, q)
  }

  /** t goes over the registered players of its match in order. */
  ghost predicate Enlisted(s: State) {
    forall t :: t in s.locks.txns && t in s.drafts ==>
      s.drafts[t].v.adjustRatings && s.locks.txns[t].players == Sort(NonGuests(s.drafts[t].row.players))
  }

  ghost predicate Inv(cfg: Config, s: State)
    requires cfg.Valid()
  {
    L.Inv(s.locks) && SameRows(s) && Drafts(cfg, s) && Enlisted(s)
  }

  // ---- locks, rows and players ---------------------------------------------------------------------

  /** On the locks every step is a step of their own, or none. */
  lemma StepKeepsLocks(cfg: Config, s: State, a: Action)
    requires cfg.Valid() && L.Inv(s.locks)
    ensures L.Inv(Step(cfg, s, a).locks)
  {
    match a
    case Begin(t, row, v) => L.BeginKeeps(s.locks, t, row.queue, row.players);
    case Insert(t) => L.InsertKeeps(s.locks, t);
    case Lock(t) => L.LockKeeps(s.locks, t);
    case Save(t) =>
    case Commit(t) => if Step(cfg, s, a) != s { L.EndKeeps(s.locks, Step(cfg, s, a).locks, t); }
    case Abort(t) => if Step(cfg, s, a).locks != s.locks { L.EndKeeps(s.locks, Step(cfg, s, a).locks, t); }
    case LazyCreate(q, p) => L.LazyCreateKeeps(s.locks, L.Row(q, p));
  }

  /** No transaction changes its players. */
  ghost predicate SamePlayers(locks: L.State, locks': L.State) {
    forall t :: t in locks'.txns ==> t in locks.txns && locks'.txns[t].players == locks.txns[t].players
  }

  lemma InsertKeepsPlayers(locks: L.State, t: nat)
    ensures SamePlayers(locks, L.DoInsert(locks, t))
  {
  }

  lemma LockKeepsPlayers(locks: L.State, t: nat)
    ensures SamePlayers(locks, L.DoLock(locks, t))
  {
  }

  lemma MovesKeepPlayers(cfg: Config, s: State, a: Action)
    requires cfg.Valid() && !a.Begin?
    ensures SamePlayers(s.locks, Step(cfg, s, a).locks)
  {
    if a.Insert? { InsertKeepsPlayers(s.locks, a.t); } else if a.Lock? { LockKeepsPlayers(s.locks, a.t); }
  }

  /** Nor its match and verdict. */
  lemma MovesKeepMatches(cfg: Config, s: State, a: Action)
    requires cfg.Valid() && !a.Begin?
    ensures var s' := Step(cfg, s, a);
            forall t :: t in s'.drafts ==> t in s.drafts && s'.drafts[t].row == s.drafts[t].row && s'.drafts[t].v == s.drafts[t].v
  {
  }

  lemma BeginEnlists(cfg: Config, s: State, t: nat, row: Match, v: Verdict)
    requires Enlisted(s)
    ensures Enlisted(DoBegin(cfg, s, t, row, v))
  {
  }

  lemma StepKeepsPlayers(cfg: Config, s: State, a: Action)
    requires cfg.Valid() && Enlisted(s)
    ensures Enlisted(Step(cfg, s, a))
  {
    if a.Begin? {
      BeginEnlists(cfg, s, a.t, a.row, a.v);
    } else {
      MovesKeepPlayers(cfg, s, a);
      MovesKeepMatches(cfg, s, a);
    }
  }

  // ---- a transaction that does not move --------------------------------------------------------

  /** Nothing that t relies on changes. */
  ghost predicate Spares(cfg: Config, s: State, s': State, t: nat) {
    && t in s.locks.txns && t in s'.locks.txns && s'.locks.txns[t] == s.locks.txns[t]
    && (t in s.drafts ==> t in s'.drafts && s'.drafts[t] == s.drafts[t])
    && (forall r :: Inserts(s'.locks, t, r) <==> Inserts(s.locks, t, r))
    && (forall r :: Locks(s.locks, t, r) ==> Locks(s'.locks, t, r))
    && (forall q, p :: Locks(s.locks, t, L.Row(q, p)) ==> Rank(cfg, s'.values, q, p) == Rank(cfg, s.values, q, p))
  }

  lemma SparedStaysOk(cfg: Config, s: State, s': State, t: nat)
    requires cfg.Valid() && Spares(cfg, s, s', t) && DraftOk(cfg, s, t)
    ensures DraftOk(cfg, s', t)
  {
    var x := s.locks.txns[t];
    assert Own(cfg, s'.locks, t, x.queue, x.players) == Own(cfg, s.locks, t, x.queue, x.players);
    if !x.pc.Finished? { SparedReads(cfg, s, s', t, s.drafts[t].read, x); }
  }

  lemma SparedReads(cfg: Config, s: State, s': State, t: nat, read: seq<int>, x: L.Txn)
    requires Spares(cfg, s, s', t) && ReadsOk(cfg, s, t, read, x)
    ensures ReadsOk(cfg, s', t, read, x)
  {
    forall j | 0 <= j < |read| ensures ReadOk(cfg, s', t, x.queue, x.players[j], read[j]) {
      assert ReadOk(cfg, s, t, x.queue, x.players[j], read[j]);
    }
  }

  /** All transactions but t are spared, and t is as it should be. */
  ghost predicate Minds(cfg: Config, s: State, s': State, t: nat)
    requires cfg.Valid()
  {
    && (forall u :: u in s.locks.txns && u != t ==> Spares(cfg, s, s', u))
    && s'.locks.txns.Keys <= s.locks.txns.Keys + {t}
    && (t in s'.locks.txns ==> DraftOk(cfg, s', t))
  }

  lemma MindsKeeps(cfg: Config, s: State, s': State, t: nat)
    requires cfg.Valid() && Drafts(cfg, s) && Minds(cfg, s, s', t)
    ensures Drafts(cfg, s')
  {
    forall u | u in s'.locks.txns ensures DraftOk(cfg, s', u) {
      if u != t {
        assert DraftOk(cfg, s, u);
        SparedStaysOk(cfg, s, s', u);
      }
    }
  }

  // ---- each statement --------------------------------------------------------------------------

  lemma NothingInserted(locks: L.State, t: nat)
    requires L.Inv(locks) && t !in locks.txns
    ensures forall r :: !Inserts(locks, t, r)
  {
    forall r ensures !Inserts(locks, t, r) {
      if r in locks.inserts { assert L.InsertHeld(locks, r); }
    }
  }

  lemma BeginMinds(cfg: Config, s: State, t: nat, row: Match, v: Verdict)
    requires cfg.Valid() && DoBegin(cfg, s, t, row, v) != s && forall r :: !Inserts(s.locks, t, r)
    ensures Minds(cfg, s, DoBegin(cfg, s, t, row, v), t)
  {
    var s' := DoBegin(cfg, s, t, row, v);
    var x := s'.locks.txns[t];
    forall p ensures !Inserts(s'.locks, t, L.Row(x.queue, p)) {
      assert !Inserts(s.locks, t, L.Row(x.queue, p));
    }
    assert Own(cfg, s'.locks, t, x.queue, x.players) == map[];
    assert Drafted(cfg, s', t, s'.drafts[t], x);
  }

  /** The row at hand is there, or t's own. */
  lemma InsertOwns(cfg: Config, locks: L.State, t: nat)
    requires L.DoInsert(locks, t) != locks
    ensures var locks', x := L.DoInsert(locks, t), locks.txns[t];
            var own, own' := Own(cfg, locks, t, x.queue, x.players), Own(cfg, locks', t, x.queue, x.players);
            own' == if x.RowAt(x.pc.k) in locks.committed then own else own[x.players[x.pc.k] := Default(cfg, x.queue)]
  {
    var locks', x := L.DoInsert(locks, t), locks.txns[t];
    var p := x.players[x.pc.k];
    forall q | q in x.players && q != p
      ensures Inserts(locks', t, L.Row(x.queue, q)) <==> Inserts(locks, t, L.Row(x.queue, q))
    {
    }
  }

  lemma InsertMoves(locks: L.State, t: nat)
    requires L.DoInsert(locks, t) != locks
    ensures var locks', x := L.DoInsert(locks, t), locks.txns[t];
            && locks'.txns == locks.txns[t := L.AfterInsert(x)] && x.LockedUpTo() == 0 == L.AfterInsert(x).LockedUpTo()
            && locks'.locks == locks.locks && locks'.committed == locks.committed && x.pc.Inserting?
            && !L.AfterInsert(x).pc.Finished?
    ensures forall u, r :: u != t ==> (Inserts(L.DoInsert(locks, t), u, r) <==> Inserts(locks, u, r))
  {
  }

  lemma InsertMinds(cfg: Config, s: State, t: nat)
    requires cfg.Valid() && DoInsert(cfg, s, t) != s && DraftOk(cfg, s, t)
    ensures Minds(cfg, s, DoInsert(cfg, s, t), t)
  {
    var s' := DoInsert(cfg, s, t);
    InsertMoves(s.locks, t);
    InsertOwns(cfg, s.locks, t);
    var x, x', d, d' := s.locks.txns[t], s'.locks.txns[t], s.drafts[t], s'.drafts[t];
    assert d'.mine == Own(cfg, s'.locks, t, x.queue, x.players);
    assert Drafted(cfg, s', t, d', x');
  }

  lemma LockMoves(locks: L.State, t: nat)
    requires L.DoLock(locks, t) != locks && !L.DoLock(locks, t).txns[t].pc.Finished?
    ensures var locks', x := L.DoLock(locks, t), locks.txns[t];
            && x.pc.Locking? && locks'.txns == locks.txns[t := L.AfterLock(x)] && L.AfterLock(x).LockedUpTo() == x.pc.k + 1
            && locks'.inserts == locks.inserts && locks'.committed == locks.committed
            && Locks(locks', t, x.RowAt(x.pc.k))
    ensures forall u, r :: Locks(locks, u, r) ==> Locks(L.DoLock(locks, t), u, r)
  {
  }

  lemma AbortSpares(cfg: Config, s: State, s': State, t: nat)
    requires cfg.Valid() && t in s.locks.txns && s' == s.(locks := L.DoAbort(s.locks, t))
    ensures Minds(cfg, s, s', t)
  {
  }

  /** A row of one's own is not committed and stands at the default. */
  ghost predicate OwnIsDefault(cfg: Config, s: State, t: nat)
    requires t in s.locks.txns && t in s.drafts
  {
    s.drafts[t].saved == 0 ==>
      forall p :: p in s.drafts[t].mine ==> s.drafts[t].mine[p] == Rank(cfg, s.values, s.locks.txns[t].queue, p)
  }

  lemma OwnStandsAtDefault(cfg: Config, s: State, t: nat)
    requires cfg.Valid() && L.Inv(s.locks) && SameRows(s) && t in s.locks.txns && t in s.drafts
    requires Drafted(cfg, s, t, s.drafts[t], s.locks.txns[t])
    ensures OwnIsDefault(cfg, s, t)
  {
    forall p | p in s.drafts[t].mine && s.drafts[t].saved == 0
      ensures s.drafts[t].mine[p] == Rank(cfg, s.values, s.locks.txns[t].queue, p)
    {
      assert L.InsertHeld(s.locks, L.Row(s.locks.txns[t].queue, p));
    }
  }

  lemma LockMinds(cfg: Config, s: State, t: nat)
    requires cfg.Valid() && DoLock(cfg, s, t) != s && DraftOk(cfg, s, t) && t in s.drafts && OwnIsDefault(cfg, s, t)
    requires !DoLock(cfg, s, t).locks.txns[t].pc.Finished?
    ensures Minds(cfg, s, DoLock(cfg, s, t), t)
  {
    var s' := DoLock(cfg, s, t);
    LockMoves(s.locks, t);
    var x, x', d, d' := s.locks.txns[t], s'.locks.txns[t], s.drafts[t], s'.drafts[t];
    assert Own(cfg, s'.locks, t, x.queue, x.players) == Own(cfg, s.locks, t, x.queue, x.players);
    forall j | 0 <= j < |d'.read| ensures ReadOk(cfg, s', t, x.queue, x.players[j], d'.read[j]) {
      if j < |d.read| { assert ReadOk(cfg, s, t, x.queue, x.players[j], d.read[j]); }
    }
    assert Drafted(cfg, s', t, d', x');
  }

  lemma SaveMinds(cfg: Config, s: State, t: nat)
    requires cfg.Valid() && DoSave(cfg, s, t) != s && DraftOk(cfg, s, t)
    ensures Minds(cfg, s, DoSave(cfg, s, t), t)
  {
    var s' := DoSave(cfg, s, t);
    var x, d, d' := s.locks.txns[t], s.drafts[t], s'.drafts[t];
    assert ReadsOk(cfg, s', t, d'.read, x) by {
      forall j | 0 <= j < |d'.read| ensures ReadOk(cfg, s', t, x.queue, x.players[j], d'.read[j]) {
        assert ReadOk(cfg, s, t, x.queue, x.players[j], d.read[j]);
      }
    }
    assert Drafted(cfg, s', t, d', x);
  }

  lemma LazyCreateSpares(cfg: Config, s: State, q: nat, p: Id, t: nat)
    requires cfg.Valid() && t in s.locks.txns
    ensures Spares(cfg, s, DoLazyCreate(cfg, s, q, p), t)
  {
  }

  // ---- a commit ------------------------------------------------------------------------------------

  lemma {:induction false} SavedKeys(rows: Rows, ids: seq<Id>, ratings: seq<int>, n: nat)
    requires |ratings| == |ids| && n <= |ids|
    ensures Saved(rows, ids, ratings, n).Keys == rows.Keys + (set p | p in ids[..n])
  {
    if n > 0 {
      SavedKeys(rows, ids, ratings, n - 1);
      assert ids[..n] == ids[..n - 1] + [ids[n - 1]];
    }
  }

  /** Saving over one's own rows and merging is saving over the merged rows. */
  lemma {:induction false} SavedMerges(rows: Rows, own: Rows, ids: seq<Id>, ratings: seq<int>, n: nat)
    requires |ratings| == |ids| && n <= |ids|
    ensures rows + Saved(own, ids, ratings, n) == Saved(rows + own, ids, ratings, n)
  {
    if n > 0 { SavedMerges(rows, own, ids, ratings, n - 1); }
  }

  /** Every listed row is committed or t's own, and no row is both. */
  ghost predicate Complete(s: State, t: nat, q: nat, players: seq<Id>) {
    && (forall p :: p in players ==> p in QueueRows(s.values, q) || Inserts(s.locks, t, L.Row(q, p)))
    && (forall r :: Inserts(s.locks, t, r) ==> r.queue == q && r.player in players && r.player !in QueueRows(s.values, q))
  }

  lemma SavingIsComplete(s: State, t: nat)
    requires L.Inv(s.locks) && SameRows(s) && t in s.locks.txns && s.locks.txns[t].pc.Saving?
    ensures Complete(s, t, s.locks.txns[t].queue, s.locks.txns[t].players)
  {
    var x := s.locks.txns[t];
    assert L.TxnOk(s.locks, t);
    forall p | p in x.players ensures p in QueueRows(s.values, x.queue) || Inserts(s.locks, t, L.Row(x.queue, p)) {
      var j :| 0 <= j < |x.players| && x.players[j] == p;
      assert L.Visible(s.locks, t, j);
    }
    forall r | Inserts(s.locks, t, r) ensures r.queue == x.queue && r.player in x.players && r.player !in QueueRows(s.values, x.queue) {
      InsertedInPlace(s.locks, t, r);
    }
  }

  lemma InsertedInPlace(locks: L.State, t: nat, r: L.Row)
    requires L.Inv(locks) && Inserts(locks, t, r)
    ensures t in locks.txns && r.queue == locks.txns[t].queue && r.player in locks.txns[t].players && r !in locks.committed
  {
    assert L.InsertHeld(locks, r);
    var x := locks.txns[t];
    var j :| 0 <= j < x.InsertedUpTo() && x.RowAt(j) == r;
    assert x.players[j] == r.player;
  }

  lemma OwnCompletes(cfg: Config, s: State, t: nat, q: nat, players: seq<Id>)
    requires Complete(s, t, q, players)
    ensures QueueRows(s.values, q) + Own(cfg, s.locks, t, q, players) == Created(QueueRows(s.values, q), players, Default(cfg, q))
  {
    var rows, own := QueueRows(s.values, q), Own(cfg, s.locks, t, q, players);
    assert forall p :: p in own ==> L.Row(q, p).player == p;
    assert (rows + own).Keys == rows.Keys + (set p | p in players);
  }

  lemma ReadsAreCurrent(cfg: Config, s: State, t: nat, read: seq<int>, x: L.Txn)
    requires ReadsOk(cfg, s, t, read, x) && |read| == |x.players|
    ensures read == RatingsOf(Created(QueueRows(s.values, x.queue), x.players, Default(cfg, x.queue)), x.players)
  {
    forall j | 0 <= j < |read|
      ensures read[j] == Created(QueueRows(s.values, x.queue), x.players, Default(cfg, x.queue))[x.players[j]]
    {
      assert ReadOk(cfg, s, t, x.queue, x.players[j], read[j]);
    }
  }

  predicate MayCommit(cfg: Config, s: State, t: nat) { MaySave(cfg, s, t) && s.drafts[t].saved == |s.locks.txns[t].players| }

  /** What a commit publishes is the update function of the rows committed before it. */
  lemma CommitIsUpdate(cfg: Config, s: State, t: nat)
    requires cfg.Valid() && MayCommit(cfg, s, t) && Drafted(cfg, s, t, s.drafts[t], s.locks.txns[t])
    requires Complete(s, t, s.locks.txns[t].queue, s.locks.txns[t].players)
    ensures var x, d := s.locks.txns[t], s.drafts[t];
            QueueRows(s.values, x.queue) + d.mine
            == UpdateSorted(cfg.base, cfg.rulesOf[x.queue].queue, QueueRows(s.values, x.queue), x.players, WonFlags(d.v.winners, x.players))
  {
    var x, d := s.locks.txns[t], s.drafts[t];
    OwnCompletes(cfg, s, t, x.queue, x.players);
    ReadsAreCurrent(cfg, s, t, d.read, x);
    SavedMerges(QueueRows(s.values, x.queue), Own(cfg, s.locks, t, x.queue, x.players), x.players,
                News(cfg, x.queue, d.read, d.v.winners, x.players), |x.players|);
  }

  lemma CommitIsRated(cfg: Config, s: State, t: nat)
    requires cfg.Valid() && Inv(cfg, s) && MayCommit(cfg, s, t)
    ensures DoCommit(cfg, s, t).values == Rated(cfg, s.values, s.drafts[t].row, s.drafts[t].v)
  {
    assert DraftOk(cfg, s, t);
    SavingIsComplete(s, t);
    CommitIsUpdate(cfg, s, t);
  }

  /** A committing transaction changes the rows of its players, and holds all their locks. */
  ghost predicate ChangesLocked(s: State, t: nat, mine: Rows, x: L.Txn) {
    && (forall p :: p in mine <==> p in x.players)
    && (forall p :: p in x.players ==> Locks(s.locks, t, L.Row(x.queue, p)))
  }

  lemma CommitChangesLocked(cfg: Config, s: State, t: nat)
    requires cfg.Valid() && MayCommit(cfg, s, t) && Drafted(cfg, s, t, s.drafts[t], s.locks.txns[t])
    ensures ChangesLocked(s, t, s.drafts[t].mine, s.locks.txns[t])
  {
    var x, d := s.locks.txns[t], s.drafts[t];
    SavedKeys(Own(cfg, s.locks, t, x.queue, x.players), x.players, News(cfg, x.queue, d.read, d.v.winners, x.players), |x.players|);
    assert x.players[..|x.players|] == x.players;
    forall p | p in x.players ensures Locks(s.locks, t, L.Row(x.queue, p)) {
      var j :| 0 <= j < |x.players| && x.players[j] == p;
      assert ReadOk(cfg, s, t, x.queue, x.players[j], d.read[j]);
    }
  }

  lemma CommitSameRows(cfg: Config, s: State, t: nat)
    requires SameRows(s) && MayCommit(cfg, s, t) && s.drafts[t].row.queue == s.locks.txns[t].queue
    requires ChangesLocked(s, t, s.drafts[t].mine, s.locks.txns[t])
    requires Complete(s, t, s.locks.txns[t].queue, s.locks.txns[t].players)
    ensures SameRows(DoCommit(cfg, s, t))
  {
    var s', q' := DoCommit(cfg, s, t), s.locks.txns[t].queue;
    forall q, p ensures L.Row(q, p) in s'.locks.committed <==> p in QueueRows(s'.values, q) {
      assert L.Row(q, p) in s'.locks.committed <==> L.Row(q, p) in s.locks.committed || Inserts(s.locks, t, L.Row(q, p));
    }
  }

  lemma CommitMinds(cfg: Config, s: State, t: nat)
    requires cfg.Valid() && MayCommit(cfg, s, t) && s.drafts[t].row.queue == s.locks.txns[t].queue
    requires ChangesLocked(s, t, s.drafts[t].mine, s.locks.txns[t])
    ensures Minds(cfg, s, DoCommit(cfg, s, t), t)
  {
  }

  // ---- every run -----------------------------------------------------------------------------------

  /** Every step that moves transaction t minds the others. */
  lemma StepMinds(cfg: Config, s: State, a: Action)
    requires cfg.Valid() && L.Inv(s.locks) && SameRows(s) && Drafts(cfg, s) && !a.LazyCreate? && Step(cfg, s, a) != s
    ensures Minds(cfg, s, Step(cfg, s, a), a.t)
  {
    if a.t in s.locks.txns { assert DraftOk(cfg, s, a.t); }
    match a
    case Begin(t, row, v) =>
      NothingInserted(s.locks, t);
      BeginMinds(cfg, s, t, row, v);
    case Insert(t) => InsertMinds(cfg, s, t);
    case Lock(t) => LockStepMinds(cfg, s, t);
    case Save(t) => SaveMinds(cfg, s, t);
    case Commit(t) =>
      CommitChangesLocked(cfg, s, t);
      CommitMinds(cfg, s, t);
    case Abort(t) => AbortSpares(cfg, s, Step(cfg, s, a), t);
  }

  lemma LockStepMinds(cfg: Config, s: State, t: nat)
    requires cfg.Valid() && L.Inv(s.locks) && SameRows(s) && t in s.locks.txns && DraftOk(cfg, s, t) && DoLock(cfg, s, t) != s
    ensures Minds(cfg, s, DoLock(cfg, s, t), t)
  {
    var s' := DoLock(cfg, s, t);
    if s'.locks.txns[t].pc.Finished? {
      AbortSpares(cfg, s, s', t);
    } else {
      OwnStandsAtDefault(cfg, s, t);
      LockMinds(cfg, s, t);
    }
  }

  lemma StepKeepsRows(cfg: Config, s: State, a: Action)
    requires cfg.Valid() && L.Inv(s.locks) && SameRows(s) && Drafts(cfg, s)
    ensures SameRows(Step(cfg, s, a))
  {
    if a.Commit? && MayCommit(cfg, s, a.t) {
      assert DraftOk(cfg, s, a.t);
      SavingIsComplete(s, a.t);
      CommitChangesLocked(cfg, s, a.t);
      CommitSameRows(cfg, s, a.t);
    }
  }

  lemma StepKeepsDrafts(cfg: Config, s: State, a: Action)
    requires cfg.Valid() && L.Inv(s.locks) && SameRows(s) && Drafts(cfg, s)
    ensures Drafts(cfg, Step(cfg, s, a))
  {
    var s' := Step(cfg, s, a);
    if a.LazyCreate? {
      forall t | t in s'.locks.txns ensures DraftOk(cfg, s', t) {
        assert DraftOk(cfg, s, t);
        LazyCreateSpares(cfg, s, a.queue, a.player, t);
        SparedStaysOk(cfg, s, s', t);
      }
    } else if s' != s {
      StepMinds(cfg, s, a);
      MindsKeeps(cfg, s, s', a.t);
    }
  }

  lemma StepKeeps(cfg: Config, s: State, a: Action)
    requires cfg.Valid() && Inv(cfg, s)
    ensures Inv(cfg, Step(cfg, s, a))
  {
    StepKeepsLocks(cfg, s, a);
    StepKeepsPlayers(cfg, s, a);
    StepKeepsRows(cfg, s, a);
    StepKeepsDrafts(cfg, s, a);
  }

  /** The committed rows are those of the log. */
  ghost predicate Serial(cfg: Config, first: map<nat, Rows>, s: State)
    requires cfg.Valid()
  {
    s.values == Replay(cfg, first, s.log)
  }

  lemma CommitKeepsSerial(cfg: Config, first: map<nat, Rows>, s: State, t: nat)
    requires cfg.Valid() && Inv(cfg, s) && Serial(cfg, first, s) && MayCommit(cfg, s, t)
    ensures Serial(cfg, first, DoCommit(cfg, s, t))
  {
    CommitIsRated(cfg, s, t);
    CommitLogs(cfg, s, t);
    ReplaySnoc(cfg, first, s.log, Update(s.drafts[t].row, s.drafts[t].v));
  }

  lemma FreshKeepsSerial(cfg: Config, first: map<nat, Rows>, s: State, q: nat, p: Id)
    requires cfg.Valid() && Serial(cfg, first, s)
    ensures Serial(cfg, first, DoLazyCreate(cfg, s, q, p))
  {
    if p !in QueueRows(s.values, q) {
      FreshIsCreated(QueueRows(s.values, q), p, Default(cfg, q));
      ReplaySnoc(cfg, first, s.log, Fresh(q, p));
    }
  }

  lemma OthersKeepSerial(cfg: Config, first: map<nat, Rows>, s: State, a: Action)
    requires cfg.Valid() && Serial(cfg, first, s) && !a.LazyCreate? && (a.Commit? ==> !MayCommit(cfg, s, a.t))
    ensures Serial(cfg, first, Step(cfg, s, a))
  {
  }

  lemma StepKeepsSerial(cfg: Config, first: map<nat, Rows>, s: State, a: Action)
    requires cfg.Valid() && Inv(cfg, s) && Serial(cfg, first, s)
    ensures Serial(cfg, first, Step(cfg, s, a))
  {
    if a.LazyCreate? {
      FreshKeepsSerial(cfg, first, s, a.queue, a.player);
    } else if a.Commit? && MayCommit(cfg, s, a.t) {
      CommitKeepsSerial(cfg, first, s, a.t);
    } else {
      OthersKeepSerial(cfg, first, s, a);
    }
  }

  lemma FreshIsCreated(rows: Rows, p: Id, default: int)
    requires p !in rows
    ensures rows[p := default] == Created(rows, [p], default)
  {
  }

  lemma {:induction false} ExecKeeps(cfg: Config, first: map<nat, Rows>, acts: seq<Action>)
    requires cfg.Valid()
    ensures Inv(cfg, Exec(cfg, Init(first), acts)) && Serial(cfg, first, Exec(cfg, Init(first), acts))
  {
    if acts != [] {
      var init, last := acts[..|acts| - 1], acts[|acts| - 1];
      ExecKeeps(cfg, first, init);
      StepKeeps(cfg, Exec(cfg, Init(first), init), last);
      StepKeepsSerial(cfg, first, Exec(cfg, Init(first), init), last);
    }
  }

  // ---- rows created alongside ------------------------------------------------------------------------

  /** The committed updates alone. */
  function Updates(log: seq<Entry>): seq<Entry> {
    if log == [] then []
    else
      var init, last := log[..|log| - 1], log[|log| - 1];
      if last.Update? then Updates(init) + [last] else Updates(init)
  }

  ghost predicate SameRatings(a: Rows, b: Rows, default: int) {
    forall p :: (if p in a then a[p] else default) == if p in b then b[p] else default
  }

  ghost predicate SameRanks(cfg: Config, values: map<nat, Rows>, values': map<nat, Rows>) {
    forall q :: SameRatings(QueueRows(values, q), QueueRows(values', q), Default(cfg, q))
  }

  lemma {:induction false} SavedSameRatings(a: Rows, b: Rows, default: int, ids: seq<Id>, news: seq<int>, n: nat)
    requires SameRatings(a, b, default) && |news| == |ids| && n <= |ids|
    ensures SameRatings(Saved(a, ids, news, n), Saved(b, ids, news, n), default)
  {
    if n > 0 { SavedSameRatings(a, b, default, ids, news, n - 1); }
  }

  lemma UpdateSameRatings(b: real, q: EloApply.Queue, rows: Rows, rows': Rows, players: seq<Id>, winners: seq<Id>)
    requires b > 1.0 && SameRatings(rows, rows', q.defaultRating)
    ensures SameRatings(EloUpdate(b, q, rows, players, winners), EloUpdate(b, q, rows', players, winners), q.defaultRating)
  {
    var ids := Sort(NonGuests(players));
    if |ids| >= 2 {
      var created, created' := Created(rows, ids, q.defaultRating), Created(rows', ids, q.defaultRating);
      assert RatingsOf(created, ids) == RatingsOf(created', ids);
      SavedSameRatings(created, created', q.defaultRating, ids,
                       NewRatings(Table(b, q.kFactor, RatingsOf(created, ids), WonFlags(winners, ids))), |ids|);
    }
  }

  lemma RatedSameRanks(cfg: Config, values: map<nat, Rows>, values': map<nat, Rows>, row: Match, v: Verdict)
    requires cfg.Valid() && SameRanks(cfg, values, values')
    ensures SameRanks(cfg, Rated(cfg, values, row, v), Rated(cfg, values', row, v))
  {
    if v.adjustRatings && Rates(cfg, row.queue) {
      assert SameRatings(QueueRows(values, row.queue), QueueRows(values', row.queue), Default(cfg, row.queue));
      UpdateSameRatings(cfg.base, cfg.rulesOf[row.queue].queue, QueueRows(values, row.queue), QueueRows(values', row.queue),
                        row.players, v.winners);
      forall q | q != row.queue
        ensures SameRatings(QueueRows(Rated(cfg, values, row, v), q), QueueRows(Rated(cfg, values', row, v), q), Default(cfg, q))
      {
        assert SameRatings(QueueRows(values, q), QueueRows(values', q), Default(cfg, q));
      }
    }
  }

  lemma FreshSameRanks(cfg: Config, values: map<nat, Rows>, values': map<nat, Rows>, q: nat, p: Id)
    requires SameRanks(cfg, values, values')
    ensures SameRanks(cfg, values[q := Created(QueueRows(values, q), [p], Default(cfg, q))], values')
  {
    var after := values[q := Created(QueueRows(values, q), [p], Default(cfg, q))];
    forall k ensures SameRatings(QueueRows(after, k), QueueRows(values', k), Default(cfg, k)) {
      assert SameRatings(QueueRows(values, k), QueueRows(values', k), Default(cfg, k));
    }
  }

  /** A row at the default changes nobody's rating, then or later. */
  lemma {:induction false} FreshDoesNotMatter(cfg: Config, values: map<nat, Rows>, log: seq<Entry>)
    requires cfg.Valid()
    ensures SameRanks(cfg, Replay(cfg, values, log), Replay(cfg, values, Updates(log)))
  {
    if log != [] {
      var init, last := log[..|log| - 1], log[|log| - 1];
      FreshDoesNotMatter(cfg, values, init);
      EntrySameRanks(cfg, Replay(cfg, values, init), Replay(cfg, values, Updates(init)), last);
      if last.Update? { ReplaySnoc(cfg, values, Updates(init), last); }
    }
  }

  lemma EntrySameRanks(cfg: Config, a: map<nat, Rows>, b: map<nat, Rows>, e: Entry)
    requires cfg.Valid() && SameRanks(cfg, a, b)
    ensures SameRanks(cfg, Applied(cfg, a, e), if e.Update? then Applied(cfg, b, e) else b)
  {
    match e
    case Fresh(q, p) => FreshSameRanks(cfg, a, b, q, p);
    case Update(row, v) => RatedSameRanks(cfg, a, b, row, v);
  }

  lemma ReplaySnoc(cfg: Config, values: map<nat, Rows>, log: seq<Entry>, e: Entry)
    requires cfg.Valid()
    ensures Replay(cfg, values, log + [e]) == Applied(cfg, Replay(cfg, values, log), e)
  {
    assert (log + [e])[..|log|] == log;
  }

  // ---- the result ----------------------------------------------------------------------------------------

  /** However the statements of concurrent rating updates interleave, whoever aborts and
      whatever rows are created alongside: the committed rows are those of the log replayed
      in order, and every player's rating is that of the committed updates alone, applied
      one after the other in the order of their commits. */
  lemma RatingsAreSerial(cfg: Config, first: map<nat, Rows>, acts: seq<Action>)
    requires cfg.Valid()
    ensures var s := Exec(cfg, Init(first), acts);
            && s.values == Replay(cfg, first, s.log)
            && SameRanks(cfg, s.values, Replay(cfg, first, Updates(s.log)))
  {
    ExecKeeps(cfg, first, acts);
    FreshDoesNotMatter(cfg, first, Exec(cfg, Init(first), acts).log);
  }

  lemma ExecNext(cfg: Config, s: State, acts: seq<Action>, a: Action)
    requires cfg.Valid()
    ensures Exec(cfg, s, acts + [a]) == Step(cfg, Exec(cfg, s, acts), a)
  {
    assert (acts + [a])[..|acts|] == acts;
  }

  lemma SaveAdvances(cfg: Config, s: State, t: nat)
    requires cfg.Valid() && MaySave(cfg, s, t) && s.drafts[t].saved < |s.locks.txns[t].players|
    ensures var s' := DoSave(cfg, s, t);
            && s'.locks == s.locks && s'.log == s.log && t in s'.drafts
            && s'.drafts[t].row == s.drafts[t].row && s'.drafts[t].v == s.drafts[t].v
            && s'.drafts[t].saved == s.drafts[t].saved + 1
  {
  }

  /** A transaction that holds all its locks can always be carried to its commit, which adds
      its match, as the last one, to the log. */
  lemma {:induction false} LockedCommits(cfg: Config, first: map<nat, Rows>, acts: seq<Action>, t: nat, s: State)
    returns (all: seq<Action>)
    requires cfg.Valid() && s == Exec(cfg, Init(first), acts) && t in s.locks.txns && s.locks.txns[t].pc.Saving?
    ensures |all| > |acts| && all[..|acts|] == acts
    ensures t in s.drafts && Exec(cfg, Init(first), all).log == s.log + [Update(s.drafts[t].row, s.drafts[t].v)]
    decreases if t in s.drafts then |s.locks.txns[t].players| - s.drafts[t].saved else 0
  {
    LockedMaySave(cfg, first, acts, t, s);
    if MayCommit(cfg, s, t) {
      CommitLogs(cfg, s, t);
      ExecNext(cfg, Init(first), acts, Commit(t));
      all := acts + [Commit(t)];
    } else {
      SaveAdvances(cfg, s, t);
      ExecNext(cfg, Init(first), acts, Save(t));
      all := LockedCommits(cfg, first, acts + [Save(t)], t, DoSave(cfg, s, t));
      assert all[..|acts|] == all[..|acts| + 1][..|acts|];
    }
  }

  lemma CommitLogs(cfg: Config, s: State, t: nat)
    requires MayCommit(cfg, s, t)
    ensures DoCommit(cfg, s, t).log == s.log + [Update(s.drafts[t].row, s.drafts[t].v)]
  {
  }

  lemma LockedMaySave(cfg: Config, first: map<nat, Rows>, acts: seq<Action>, t: nat, s: State)
    requires cfg.Valid() && s == Exec(cfg, Init(first), acts) && t in s.locks.txns && s.locks.txns[t].pc.Saving?
    ensures MaySave(cfg, s, t) && s.drafts[t].saved <= |s.locks.txns[t].players|
  {
    ExecKeeps(cfg, first, acts);
    assert DraftOk(cfg, s, t) && L.TxnOk(s.locks, t);
  }
}
