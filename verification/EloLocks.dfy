/** The row locks of concurrent rating updates. Each transaction goes over its sorted
    players twice: first it inserts missing rows, waiting only where another transaction
    holds an uncommitted insert of the same row, then it locks every row for update. No
    set of transactions ever waits in a circle, whoever commits, aborts or creates rows
    alongside. */
module EloLocks {
  import opened Ids

  datatype Row = Row(queue: nat, player: Id)

  /** Inserting(k), Locking(k): about to insert, to lock, the row of player k. */
  datatype Pc = Inserting(k: nat) | Locking(k: nat) | Saving | Finished

  datatype Txn = Txn(queue: nat, players: seq<Id>, pc: Pc)
  {
    function RowAt(k: nat): Row
      requires k < |players|
    {
      Row(queue, players[k])
    }

    /** How many players the first pass is done with, and the second. */
    function InsertedUpTo(): nat { if pc.Inserting? then pc.k else |players| }

    function LockedUpTo(): nat {
      match pc
      case Inserting(_) => 0
      case Locking(k) => k
      case _ => |players|
    }

    ghost predicate Valid() {
      && Sorted(players) && |players| >= 2
      && (pc.Inserting? ==> pc.k < |players|)
      && (pc.Locking? ==> pc.k < |players|)
    }
  }

  /** committed: rows every transaction sees. inserts, locks: who holds an uncommitted
      insert of a row, and who holds its lock. */
  datatype State = State(
    committed: set<Row>,
    inserts: map<Row, nat>,
    locks: map<Row, nat>,
    txns: map<nat, Txn>)

  datatype Action =
    | Begin(t: nat, queue: nat, match_: seq<Id>)
    | Insert(t: nat)
    | Lock(t: nat)
    | Commit(t: nat)
    | Abort(t: nat)
    | LazyCreate(row: Row)

  /** Rows first read outside a match are created, and committed, on the spot. */
  function DoLazyCreate(s: State, row: Row): State {
    if row in s.inserts then s else s.(committed := s.committed + {row})
  }

  /** A rating update with two or more registered players starts its first pass. */
  function DoBegin(s: State, t: nat, queue: nat, match_: seq<Id>): State {
    var players := Sort(NonGuests(match_));
    if t in s.txns || |players| < 2 then s
    else s.(txns := s.txns[t := Txn(queue, players, Inserting(0))])
  }

  function AfterInsert(x: Txn): Txn
    requires x.pc.Inserting?
  {
    x.(pc := if x.pc.k + 1 < |x.players| then Inserting(x.pc.k + 1) else Locking(0))
  }

  function AfterLock(x: Txn): Txn
    requires x.pc.Locking?
  {
    x.(pc := if x.pc.k + 1 < |x.players| then Locking(x.pc.k + 1) else Saving)
  }

  /** t's next statement must wait for u to finish. */
  predicate WaitsFor(s: State, t: nat, u: nat) {
    && t in s.txns && u != t
    && var x := s.txns[t];
       || (x.pc.Inserting? && x.pc.k < |x.players| && x.RowAt(x.pc.k) in s.inserts && s.inserts[x.RowAt(x.pc.k)] == u)
       || (x.pc.Locking? && x.pc.k < |x.players| && x.RowAt(x.pc.k) in s.locks && s.locks[x.RowAt(x.pc.k)] == u)
  }

  /** Insert unless the row is there; on another's uncommitted insert, wait. */
  function DoInsert(s: State, t: nat): State {
    if !(t in s.txns && s.txns[t].pc.Inserting? && s.txns[t].pc.k < |s.txns[t].players|) then s
    else
      var x := s.txns[t];
      var row := x.RowAt(x.pc.k);
      if row in s.committed then s.(txns := s.txns[t := AfterInsert(x)])
      else if row in s.inserts && s.inserts[row] != t then s
      else s.(inserts := s.inserts[row := t], txns := s.txns[t := AfterInsert(x)])
  }

  /** Lock a visible row; on another's lock, wait; an invisible row is an error. */
  function DoLock(s: State, t: nat): State {
    if !(t in s.txns && s.txns[t].pc.Locking? && s.txns[t].pc.k < |s.txns[t].players|) then s
    else
      var x := s.txns[t];
      var row := x.RowAt(x.pc.k);
      if row !in s.committed && !(row in s.inserts && s.inserts[row] == t) then DoAbort(s, t)
      else if row in s.locks && s.locks[row] != t then s
      else s.(locks := s.locks[row := t], txns := s.txns[t := AfterLock(x)])
  }

  /** Whatever t holds, let go. */
  function Released(held: map<Row, nat>, t: nat): map<Row, nat> {
    map r | r in held && held[r] != t :: held[r]
  }

  function DoCommit(s: State, t: nat): State {
    if !(t in s.txns && s.txns[t].pc.Saving?) then s
    else
      State(s.committed + (set r | r in s.inserts && s.inserts[r] == t), Released(s.inserts, t), Released(s.locks, t),
            s.txns[t := s.txns[t].(pc := Finished)])
  }

  function DoAbort(s: State, t: nat): State {
    if t !in s.txns then s
    else s.(inserts := Released(s.inserts, t), locks := Released(s.locks, t), txns := s.txns[t := s.txns[t].(pc := Finished)])
  }

  function Step(s: State, a: Action): State {
    match a
    case Begin(t, queue, match_) => DoBegin(s, t, queue, match_)
    case Insert(t) => DoInsert(s, t)
    case Lock(t) => DoLock(s, t)
    case Commit(t) => DoCommit(s, t)
    case Abort(t) => DoAbort(s, t)
    case LazyCreate(row) => DoLazyCreate(s, row)
  }

  function Init(committed: set<Row>): State { State(committed, map[], map[], map[]) }

  function Exec(s: State, acts: seq<Action>): State {
    if acts == [] then s else Step(Exec(s, acts[..|acts| - 1]), acts[|acts| - 1])
  }

  // ---- what every run keeps ---------------------------------------------------------

  ghost predicate Passed(x: Txn, row: Row, upTo: nat)
    requires upTo <= |x.players|
  {
    exists j :: 0 <= j < upTo && x.RowAt(j) == row
  }

  ghost predicate InsertHeld(s: State, row: Row) {
    && row in s.inserts && s.inserts[row] in s.txns && row !in s.committed
    && var x := s.txns[s.inserts[row]];
       x.Valid() && !x.pc.Finished? && Passed(x, row, x.InsertedUpTo())
  }

  ghost predicate LockHeld(s: State, row: Row) {
    && row in s.locks && s.locks[row] in s.txns
    && var x := s.txns[s.locks[row]];
       x.Valid() && !x.pc.Finished? && Passed(x, row, x.LockedUpTo())
  }

  /** A row the first pass has dealt with is there to be locked. */
  ghost predicate Visible(s: State, t: nat, j: nat)
    requires t in s.txns && j < |s.txns[t].players|
  {
    var row := s.txns[t].RowAt(j);
    row in s.committed || (row in s.inserts && s.inserts[row] == t)
  }

  ghost predicate TxnOk(s: State, t: nat)
    requires t in s.txns
  {
    && s.txns[t].Valid()
    && (!s.txns[t].pc.Finished? ==> forall j :: 0 <= j < s.txns[t].InsertedUpTo() ==> Visible(s, t, j))
  }

  ghost predicate Inv(s: State) {
    && (forall row :: row in s.inserts ==> InsertHeld(s, row))
    && (forall row :: row in s.locks ==> LockHeld(s, row))
    && (forall t :: t in s.txns ==> TxnOk(s, t))
  }

  /** The same transaction, no less far along. */
  ghost predicate Onward(x: Txn, y: Txn) {
    && x.Valid() && y.Valid() && y.queue == x.queue && y.players == x.players && !y.pc.Finished?
    && x.InsertedUpTo() <= y.InsertedUpTo() && x.LockedUpTo() <= y.LockedUpTo()
  }

  lemma InsertCarries(s: State, s': State, r: Row)
    requires InsertHeld(s, r) && r in s'.inserts && s'.inserts[r] == s.inserts[r] && r !in s'.committed
    requires s'.inserts[r] in s'.txns && Onward(s.txns[s.inserts[r]], s'.txns[s'.inserts[r]])
    ensures InsertHeld(s', r)
  {
    var y := s.txns[s.inserts[r]];
    var j :| 0 <= j < y.InsertedUpTo() && y.RowAt(j) == r;
    assert s'.txns[s'.inserts[r]].RowAt(j) == r;
  }

  lemma LockCarries(s: State, s': State, r: Row)
    requires LockHeld(s, r) && r in s'.locks && s'.locks[r] == s.locks[r]
    requires s'.locks[r] in s'.txns && Onward(s.txns[s.locks[r]], s'.txns[s'.locks[r]])
    ensures LockHeld(s', r)
  {
    var y := s.txns[s.locks[r]];
    var j :| 0 <= j < y.LockedUpTo() && y.RowAt(j) == r;
    assert s'.txns[s'.locks[r]].RowAt(j) == r;
  }

  /** What t sees it goes on seeing, as long as rows stay committed and its own inserts its own. */
  ghost predicate SeesAsMuch(s: State, s': State, t: nat) {
    && s.committed <= s'.committed
    && forall r :: r in s.inserts && s.inserts[r] == t ==> r in s'.committed || (r in s'.inserts && s'.inserts[r] == t)
  }

  lemma TxnCarries(s: State, s': State, t: nat)
    requires t in s.txns && TxnOk(s, t) && t in s'.txns && s'.txns[t] == s.txns[t] && SeesAsMuch(s, s', t)
    ensures TxnOk(s', t)
  {
    if !s'.txns[t].pc.Finished? {
      forall j | 0 <= j < s'.txns[t].InsertedUpTo() ensures Visible(s', t, j) {
        assert Visible(s, t, j);
      }
    }
  }

  lemma InsertHoldings(s: State, s': State, t: nat)
    requires Inv(s) && s' == DoInsert(s, t) && s' != s
    ensures forall r :: r in s'.inserts ==> InsertHeld(s', r)
  {
    var x := s.txns[t];
    assert TxnOk(s, t);
    forall r | r in s'.inserts ensures InsertHeld(s', r) {
      if r in s.inserts {
        assert InsertHeld(s, r);
        InsertCarries(s, s', r);
      } else {
        assert s'.txns[t].RowAt(x.pc.k) == r;
      }
    }
  }

  /** A transaction moves on and takes at most the row it was about to take. */
  lemma InsertKeeps(s: State, t: nat)
    requires Inv(s)
    ensures Inv(DoInsert(s, t))
  {
    var s' := DoInsert(s, t);
    if s' != s {
      assert TxnOk(s, t);
      InsertHoldings(s, s', t);
      forall r | r in s'.locks ensures LockHeld(s', r) {
        assert LockHeld(s, r);
        LockCarries(s, s', r);
      }
      forall u | u in s'.txns ensures TxnOk(s', u) {
        assert TxnOk(s, u);
        if u == t { InsertMakesVisible(s, t); } else { TxnCarries(s, s', u); }
      }
    }
  }

  lemma InsertMakesVisible(s: State, t: nat)
    requires t in s.txns && TxnOk(s, t) && DoInsert(s, t) != s
    ensures TxnOk(DoInsert(s, t), t)
  {
    var x, s' := s.txns[t], DoInsert(s, t);
    forall j | 0 <= j < s'.txns[t].InsertedUpTo() ensures Visible(s', t, j) {
      if j < x.pc.k { assert Visible(s, t, j); }
    }
  }

  lemma LockKeeps(s: State, t: nat)
    requires Inv(s)
    ensures Inv(DoLock(s, t))
  {
    var s' := DoLock(s, t);
    if s' != s {
      var x := s.txns[t];
      assert TxnOk(s, t);
      assert Visible(s, t, x.pc.k);
      assert Onward(x, s'.txns[t]);
      forall r | r in s'.inserts ensures InsertHeld(s', r) {
        assert InsertHeld(s, r);
        InsertCarries(s, s', r);
      }
      forall r | r in s'.locks ensures LockHeld(s', r) {
        if r == x.RowAt(x.pc.k) {
          assert s'.txns[t].RowAt(x.pc.k) == r;
        } else {
          assert LockHeld(s, r);
          LockCarries(s, s', r);
        }
      }
      forall u | u in s'.txns ensures TxnOk(s', u) {
        assert TxnOk(s, u);
        if u != t { TxnCarries(s, s', u); } else { LockKeepsSight(s, t); }
      }
    }
  }

  lemma LockKeepsSight(s: State, t: nat)
    requires t in s.txns && TxnOk(s, t) && DoLock(s, t).inserts == s.inserts && DoLock(s, t) != s
    ensures TxnOk(DoLock(s, t), t)
  {
    var s' := DoLock(s, t);
    if !s'.txns[t].pc.Finished? {
      forall j | 0 <= j < s'.txns[t].InsertedUpTo() ensures Visible(s', t, j) {
        assert Visible(s, t, j);
      }
    }
  }

  /** A transaction that ends takes all its holdings with it. */
  lemma EndKeeps(s: State, s': State, t: nat)
    requires Inv(s) && t in s.txns
    requires s' == s.(committed := s'.committed, inserts := Released(s.inserts, t), locks := Released(s.locks, t),
                      txns := s.txns[t := s.txns[t].(pc := Finished)])
    requires s'.committed == s.committed || s'.committed == s.committed + (set r | r in s.inserts && s.inserts[r] == t)
    ensures Inv(s')
  {
    assert TxnOk(s, t);
    forall r | r in s'.inserts ensures InsertHeld(s', r) {
      assert InsertHeld(s, r) && s.inserts[r] != t;
      InsertCarries(s, s', r);
    }
    forall r | r in s'.locks ensures LockHeld(s', r) {
      assert LockHeld(s, r) && s.locks[r] != t;
      LockCarries(s, s', r);
    }
    forall u | u in s'.txns ensures TxnOk(s', u) {
      assert TxnOk(s, u);
      if u != t { TxnCarries(s, s', u); }
    }
  }

  /** Nobody minds a new transaction or a row created elsewhere. */
  lemma EnvironmentKeeps(s: State, s': State)
    requires Inv(s) && s'.inserts == s.inserts && s'.locks == s.locks && s.committed <= s'.committed
    requires forall r :: r in s.inserts ==> r !in s'.committed
    requires s.txns.Keys <= s'.txns.Keys && forall u :: u in s.txns ==> s'.txns[u] == s.txns[u]
    requires forall u :: u in s'.txns && u !in s.txns ==> s'.txns[u].Valid() && s'.txns[u].InsertedUpTo() == 0
    ensures Inv(s')
  {
    forall r | r in s'.inserts ensures InsertHeld(s', r) {
      assert InsertHeld(s, r);
      InsertCarries(s, s', r);
    }
    forall r | r in s'.locks ensures LockHeld(s', r) {
      assert LockHeld(s, r);
      LockCarries(s, s', r);
    }
    forall u | u in s'.txns ensures TxnOk(s', u) {
      if u in s.txns {
        assert TxnOk(s, u);
        TxnCarries(s, s', u);
      }
    }
  }

  lemma BeginKeeps(s: State, t: nat, queue: nat, match_: seq<Id>)
    requires Inv(s)
    ensures Inv(DoBegin(s, t, queue, match_))
  {
    if DoBegin(s, t, queue, match_) != s {
      forall r | r in s.inserts ensures r !in s.committed { assert InsertHeld(s, r); }
      EnvironmentKeeps(s, DoBegin(s, t, queue, match_));
    }
  }

  lemma LazyCreateKeeps(s: State, row: Row)
    requires Inv(s)
    ensures Inv(DoLazyCreate(s, row))
  {
    forall r | r in s.inserts ensures r !in s.committed { assert InsertHeld(s, r); }
    EnvironmentKeeps(s, DoLazyCreate(s, row));
  }

  lemma StepKeeps(s: State, a: Action)
    requires Inv(s)
    ensures Inv(Step(s, a))
  {
    match a
    case Begin(t, queue, match_) => BeginKeeps(s, t, queue, match_);
    case Insert(t) => InsertKeeps(s, t);
    case Lock(t) =>
      LockKeeps(s, t);
    case Commit(t) => if Step(s, a) != s { EndKeeps(s, Step(s, a), t); }
    case Abort(t) => if Step(s, a) != s { EndKeeps(s, Step(s, a), t); }
    case LazyCreate(row) => LazyCreateKeeps(s, row);
  }

  lemma {:induction false} ExecKeeps(s: State, acts: seq<Action>)
    requires Inv(s)
    ensures Inv(Exec(s, acts))
    decreases |acts|
  {
    if acts != [] {
      ExecKeeps(s, acts[..|acts| - 1]);
      StepKeeps(Exec(s, acts[..|acts| - 1]), acts[|acts| - 1]);
    }
  }

  // ---- no circular waiting ----------------------------------------------------------

  /** How far along a transaction is: its pass, then the player it has come to. */
  function Phase(x: Txn): nat {
    match x.pc
    case Inserting(_) => 0
    case Locking(_) => 1
    case _ => 2
  }

  function At(x: Txn): Id {
    match x.pc
    case Inserting(k) => if k < |x.players| then x.players[k] else ""
    case Locking(k) => if k < |x.players| then x.players[k] else ""
    case _ => ""
  }

  predicate Before(x: Txn, y: Txn) {
    Phase(x) < Phase(y) || (Phase(x) == Phase(y) && Le(At(x), At(y)) && At(x) != At(y))
  }

  lemma BeforeTransitive(x: Txn, y: Txn, z: Txn)
    requires Before(x, y) && Before(y, z)
    ensures Before(x, z)
  {
    if Phase(x) == Phase(y) == Phase(z) {
      LeTransitive(At(x), At(y), At(z));
      if At(x) == At(z) { LeAntisymmetric(At(x), At(y)); }
    }
  }

  /** If t waits for u and u for v, then u is further along than t. */
  lemma WaitingClimbs(s: State, t: nat, u: nat, v: nat)
    requires Inv(s) && WaitsFor(s, t, u) && WaitsFor(s, u, v)
    ensures Before(s.txns[t], s.txns[u])
  {
    var x, y := s.txns[t], s.txns[u];
    assert TxnOk(s, t) && TxnOk(s, u);
    var row := x.RowAt(x.pc.k);
    if x.pc.Inserting? {
      assert InsertHeld(s, row);
      var j :| 0 <= j < y.InsertedUpTo() && y.RowAt(j) == row;
      if y.pc.Inserting? { assert Le(y.players[j], y.players[y.pc.k]); }
    } else {
      assert LockHeld(s, row);
      var j :| 0 <= j < y.LockedUpTo() && y.RowAt(j) == row;
      assert Le(y.players[j], y.players[y.pc.k]);
    }
  }

  /** A finite set of transactions has one that none of them is further along than. */
  lemma {:induction false} FurthestExists(txns: map<nat, Txn>, w: set<nat>) returns (m: nat)
    requires w != {} && w <= txns.Keys
    ensures m in w && forall u :: u in w ==> !Before(txns[m], txns[u])
    decreases |w|
  {
    var x :| x in w;
    var rest := w - {x};
    if rest == {} {
      m := x;
      assert w == {x};
    } else {
      m := FurthestExists(txns, rest);
      if Before(txns[m], txns[x]) {
        FurtherThanAll(txns, rest, m, x);
        m := x;
      }
      assert w == rest + {x};
    }
  }

  lemma FurtherThanAll(txns: map<nat, Txn>, w: set<nat>, m: nat, x: nat)
    requires w <= txns.Keys && m in txns && x in txns && Before(txns[m], txns[x])
    requires forall u :: u in w ==> !Before(txns[m], txns[u])
    ensures forall u :: u in w ==> !Before(txns[x], txns[u])
  {
    forall u | u in w ensures !Before(txns[x], txns[u]) {
      if Before(txns[x], txns[u]) { BeforeTransitive(txns[m], txns[x], txns[u]); }
    }
  }

  ghost predicate Unfinished(s: State, t: nat) {
    t in s.txns && !s.txns[t].pc.Finished?
  }

  /** Its next statement executes at once, and successfully: the insert-or-skip, the lock,
      or the commit. */
  ghost predicate CanGoOn(s: State, t: nat)
    requires t in s.txns
  {
    var x := s.txns[t];
    match x.pc
    case Inserting(_) => t in DoInsert(s, t).txns && DoInsert(s, t).txns[t] == AfterInsert(x)
    case Locking(_) => t in DoLock(s, t).txns && DoLock(s, t).txns[t] == AfterLock(x)
    case Saving => DoCommit(s, t).txns == s.txns[t := x.(pc := Finished)]
    case Finished => false
  }

  /** t waits for a member of w. */
  ghost predicate WaitsIn(s: State, t: nat, w: set<nat>) {
    exists u :: u in w && WaitsFor(s, t, u)
  }

  /** The furthest along, or the one it waits for, waits for no member. */
  lemma FreeMember(s: State, w: set<nat>) returns (t: nat)
    requires Inv(s) && w != {} && w <= s.txns.Keys
    ensures t in w && !WaitsIn(s, t, w)
  {
    t := FurthestExists(s.txns, w);
    if WaitsIn(s, t, w) {
      var u :| u in w && WaitsFor(s, t, u);
      if WaitsIn(s, u, w) {
        var v :| v in w && WaitsFor(s, u, v);
        WaitingClimbs(s, t, u, v);
      }
      t := u;
    }
  }

  /** In every reachable state every non-empty set of transactions has a member that waits
      for no member: the wait-for graph has no cycle. */
  lemma NoCircularWait(committed: set<Row>, acts: seq<Action>, w: set<nat>)
    requires w != {} && w <= Exec(Init(committed), acts).txns.Keys
    ensures exists t :: t in w && !WaitsIn(Exec(Init(committed), acts), t, w)
  {
    ExecKeeps(Init(committed), acts);
    var t := FreeMember(Exec(Init(committed), acts), w);
  }

  /** Only unfinished transactions are waited for, and one that waits for nobody goes on. */
  lemma FreeGoesOn(s: State, t: nat)
    requires Inv(s) && Unfinished(s, t)
    ensures forall u :: WaitsFor(s, t, u) ==> Unfinished(s, u)
    ensures (forall u :: Unfinished(s, u) ==> !WaitsFor(s, t, u)) ==> CanGoOn(s, t)
  {
    var x := s.txns[t];
    assert TxnOk(s, t);
    if x.pc.Inserting? {
      var row := x.RowAt(x.pc.k);
      if row in s.inserts {
        assert InsertHeld(s, row);
        assert WaitsFor(s, t, s.inserts[row]) || s.inserts[row] == t;
      }
    } else if x.pc.Locking? {
      var row := x.RowAt(x.pc.k);
      if row in s.locks {
        assert LockHeld(s, row);
        assert WaitsFor(s, t, s.locks[row]) || s.locks[row] == t;
      }
      assert Visible(s, t, x.pc.k);
    }
  }

  /** In every reachable state with an unfinished rating update, some unfinished one's next
      statement executes without waiting. */
  lemma NeverDeadlocked(committed: set<Row>, acts: seq<Action>, t0: nat)
    requires Unfinished(Exec(Init(committed), acts), t0)
    ensures var s := Exec(Init(committed), acts);
            exists t :: Unfinished(s, t) && CanGoOn(s, t)
  {
    var s := Exec(Init(committed), acts);
    var w := set t | t in s.txns && Unfinished(s, t);
    assert t0 in w;
    NoCircularWait(committed, acts, w);
    var t :| t in w && !WaitsIn(s, t, w);
    ExecKeeps(Init(committed), acts);
    forall u | Unfinished(s, u) ensures !WaitsFor(s, t, u) {
      assert u in w;
    }
    FreeGoesOn(s, t);
  }
}
