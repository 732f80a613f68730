/** The two pairing loops on a queue, with what every start attempt turns out as. What
    happens from outside is given round by round; a loop that has not stopped by the end of
    the list goes on. */
module PairingLoops {
  import opened Common
  import opened Ids
  import opened PlayerQueues
  import opened Pairing
  import opened GroupPick

  /** How StartMatch ends: the match runs; the players got an error notice; every host is
      full and the players were pushed back; or every host is full and pushing them back
      failed, which nobody reports. */
  datatype Outcome = Started | Refused | Full | Lost

  /** What one pass through the loop meets. reached: the queue, the times and the ratings
      could be read. gone: who leaves the queue between the reading of its length and the
      pop, in pairFIFO. taken: the group could be taken out of the queue. outcome: of the
      start; where the pop yields too few players, Lost says that pushing them back fails.
      ratings: as read in this pass. */
  datatype Round = Round(reached: bool, gone: seq<Id>, taken: bool, outcome: Outcome, now: int, ratings: map<Id, int>)
  {
    predicate Ok() { reached && taken }
  }

  /** A group that was taken out of the queue as view shows it. */
  datatype Turn = Turn(view: Queue, round: Round, players: seq<Id>)

  // ---- who is where --------------------------------------------------------------------------------

  /** The players who left with the given outcome. */
  ghost function With(turns: seq<Turn>, o: Outcome): multiset<Id> {
    if turns == [] then multiset{}
    else
      var last := turns[|turns| - 1];
      With(turns[..|turns| - 1], o) + if last.round.outcome == o then multiset(last.players) else multiset{}
  }

  lemma WithSnoc(turns: seq<Turn>, t: Turn, o: Outcome)
    ensures With(turns + [t], o) == With(turns, o) + if t.round.outcome == o then multiset(t.players) else multiset{}
  {
    assert (turns + [t])[..|turns|] == turns;
  }

  /** Everybody who queued at first is in the queue, has a match, was told of an error, or
      was lost. */
  ghost predicate Accounted(list: seq<Id>, turns: seq<Turn>, first: seq<Id>) {
    multiset(list) + With(turns, Started) + With(turns, Refused) + With(turns, Lost) == multiset(first)
  }

  lemma AccountedSnoc(list: seq<Id>, list': seq<Id>, turns: seq<Turn>, t: Turn, first: seq<Id>)
    requires Accounted(list, turns, first)
    requires multiset(list') + (if t.round.outcome.Full? then multiset{} else multiset(t.players)) == multiset(list)
    ensures Accounted(list', turns + [t], first)
  {
    WithSnoc(turns, t, Started);
    WithSnoc(turns, t, Refused);
    WithSnoc(turns, t, Lost);
  }

  /** Nobody is lost exactly if no push-back fails. */
  lemma {:induction false} NobodyLostIff(turns: seq<Turn>)
    requires forall k :: 0 <= k < |turns| ==> turns[k].players != []
    ensures With(turns, Lost) == multiset{} <==> forall k :: 0 <= k < |turns| ==> !turns[k].round.outcome.Lost?
  {
    if turns != [] {
      var init, last := turns[..|turns| - 1], turns[|turns| - 1];
      NobodyLostIff(init);
      assert turns == init + [last];
      if last.round.outcome.Lost? { assert last.players[0] in multiset(last.players); }
    }
  }

  /** How many outcomes are not a push-back. */
  function Served(rounds: seq<Round>): nat {
    if rounds == [] then 0
    else Served(rounds[..|rounds| - 1]) + if rounds[|rounds| - 1].outcome.Full? then 0 else 1
  }

  /** How many groups left for good. */
  function Departures(turns: seq<Turn>): nat {
    if turns == [] then 0
    else Departures(turns[..|turns| - 1]) + if turns[|turns| - 1].round.outcome.Full? then 0 else 1
  }

  lemma DeparturesSnoc(turns: seq<Turn>, t: Turn)
    ensures Departures(turns + [t]) == Departures(turns) + if t.round.outcome.Full? then 0 else 1
  {
    assert (turns + [t])[..|turns|] == turns;
  }

  predicate SomeStarted(turns: seq<Turn>) { exists k :: 0 <= k < |turns| && turns[k].round.outcome.Started? }

  lemma StartedSnoc(turns: seq<Turn>, t: Turn)
    ensures SomeStarted(turns + [t]) <==> SomeStarted(turns) || t.round.outcome.Started?
  {
    if t.round.outcome.Started? { assert (turns + [t])[|turns|].round.outcome.Started?; }
    if SomeStarted(turns) {
      var k :| 0 <= k < |turns| && turns[k].round.outcome.Started?;
      assert (turns + [t])[k].round.outcome.Started?;
    }
  }

  // ---- counting groups -------------------------------------------------------------------------------

  /** size times n, kept as a sum. */
  function Times(size: nat, n: nat): nat { if n == 0 then 0 else Times(size, n - 1) + size }

  lemma {:induction false} TimesIsProduct(size: nat, n: nat)
    ensures Times(size, n) == size * n
  {
    if n > 0 { TimesIsProduct(size, n - 1); }
  }

  lemma {:induction false} TimesGrows(size: nat, n: nat, m: nat)
    requires n <= m
    ensures Times(size, n) <= Times(size, m)
    ensures n < m ==> Times(size, n) + size <= Times(size, m)
  {
    if n < m { TimesGrows(size, n, m - 1); }
  }

  lemma Groups(n: nat, size: nat)
    requires size > 0
    ensures Times(size, n / size) <= n < Times(size, n / size) + size
  {
    TimesIsProduct(size, n / size);
  }

  /** With left players queueing after some groups of one size departed from n, too few are
      left exactly if as many groups departed as there were. */
  lemma TooFewIff(n: nat, left: nat, size: nat, groups: nat)
    requires size > 0 && left + Times(size, groups) == n
    ensures left < size <==> groups >= n / size
  {
    Groups(n, size);
    if left < size {
      if groups < n / size { TimesGrows(size, groups, n / size); }
    } else {
      if groups >= n / size { TimesGrows(size, n / size, groups); }
    }
  }

  // ---- first come, first served, as a function -----------------------------------------------------------

  /** Why the loop has stopped, if it has; too few players left is told by the queue. */
  datatype Halt = Running | Unavailable | Short(group: seq<Id>, lost: bool)

  /** gone: who has left the queue on their own. */
  datatype Fifo = Fifo(q: Queue, turns: seq<Turn>, gone: seq<Id>, halt: Halt)

  predicate FifoEnded(f: Fifo, size: nat) { !f.halt.Running? || |f.q.list| < size }

  /** Those of the given players who were in the list. */
  function Leavers(list: seq<Id>, players: seq<Id>): seq<Id> {
    if players == [] then []
    else
      var init, last := players[..|players| - 1], players[|players| - 1];
      Leavers(list, init) + if last in DropEach(list, init) then [last] else []
  }

  function Leave(f: Fifo, gone: seq<Id>): Fifo {
    f.(q := RemoveAll(f.q, gone), gone := f.gone + Leavers(f.q.list, gone))
  }

  /** What a pass does after its pop: too few players go back and end the loop; at capacity
      the group rejoins at the end. Either push may fail. */
  function Serve(f: Fifo, size: nat, r: Round): Fifo
    requires 0 < size && f.q.list != []
  {
    var (rest, group) := Pop(f.q, size).value;
    if |group| < size then
      f.(q := if r.outcome.Lost? then rest else Push(rest, group, r.now).value, halt := Short(group, r.outcome.Lost?))
    else
      f.(q := if r.outcome.Full? then Push(rest, group, r.now).value else rest, turns := f.turns + [Turn(f.q, r, group)])
  }

  /** f2 is f1 after a pop that yields a whole group. */
  ghost predicate Seats(f1: Fifo, f2: Fifo, size: nat, r: Round) {
    && |f1.q.list| >= size && f2.gone == f1.gone && f2.halt == f1.halt
    && f2.turns == f1.turns + [Turn(f1.q, r, f1.q.list[..size])]
    && f2.q.list == f1.q.list[size..] + if r.outcome.Full? then f1.q.list[..size] else []
  }

  /** f2 is f1 after a pop that yields too few. */
  ghost predicate FallsShort(f1: Fifo, f2: Fifo, size: nat, r: Round) {
    && 0 < |f1.q.list| < size && f2.gone == f1.gone && f2.turns == f1.turns
    && f2.halt == Short(f1.q.list, r.outcome.Lost?)
    && f2.q.list == if r.outcome.Lost? then [] else f1.q.list
  }

  lemma ServeIs(f: Fifo, size: nat, r: Round)
    requires 0 < size && f.q.list != []
    ensures Seats(f, Serve(f, size, r), size, r) || FallsShort(f, Serve(f, size, r), size, r)
  {
  }

  /** One pass: a read or a pop that fails ends the loop, and an empty queue makes it fail. */
  function FifoStep(f: Fifo, size: nat, r: Round): Fifo
    requires size > 0
  {
    if FifoEnded(f, size) then f
    else if !r.reached then f.(halt := Unavailable)
    else
      var f1 := Leave(f, r.gone);
      if !r.taken || f1.q.list == [] then f1.(halt := Unavailable) else Serve(f1, size, r)
  }

  function FifoRun(q: Queue, size: nat, rounds: seq<Round>): Fifo
    requires size > 0
  {
    if rounds == [] then Fifo(q, [], [], Running)
    else FifoStep(FifoRun(q, size, rounds[..|rounds| - 1]), size, rounds[|rounds| - 1])
  }

  // ---- everybody is accounted for ------------------------------------------------------------------------

  /** The players of a short pop whose push back failed. */
  function Dropped(f: Fifo): seq<Id> { if f.halt.Short? && f.halt.lost then f.halt.group else [] }

  /** As Accounted, with those who left on their own and those whom a short pop lost. */
  ghost predicate FifoAccounted(f: Fifo, first: seq<Id>) {
    multiset(f.q.list) + With(f.turns, Started) + With(f.turns, Refused) + With(f.turns, Lost) + multiset(f.gone) + multiset(Dropped(f))
    == multiset(first)
  }

  lemma CutBag(list: seq<Id>, n: nat)
    requires n <= |list|
    ensures multiset(list) == multiset(list[..n]) + multiset(list[n..]) == multiset(list[n..] + list[..n])
  {
    assert list == list[..n] + list[n..];
  }

  /** Where the first occurrence is; at the end if there is none. */
  lemma {:induction false} DropFirstAt(list: seq<Id>, p: Id) returns (k: nat)
    ensures k <= |list| && (k < |list| <==> p in list)
    ensures k < |list| ==> list[k] == p && DropFirst(list, p) == list[..k] + list[k + 1..]
    ensures k == |list| ==> DropFirst(list, p) == list
  {
    if list == [] || list[0] == p { return 0; }
    k := DropFirstAt(list[1..], p);
    assert list == [list[0]] + list[1..];
    k := k + 1;
    assert k < |list| ==> [list[0]] + (list[1..][..k - 1] + list[1..][k..]) == list[..k] + list[k + 1..];
  }

  lemma DropFirstBag(list: seq<Id>, p: Id)
    ensures multiset(DropFirst(list, p)) + (if p in list then multiset{p} else multiset{}) == multiset(list)
  {
    var k := DropFirstAt(list, p);
    if k < |list| { assert list == list[..k] + [p] + list[k + 1..]; }
  }

  lemma {:induction false} LeaversBag(list: seq<Id>, players: seq<Id>)
    ensures multiset(DropEach(list, players)) + multiset(Leavers(list, players)) == multiset(list)
  {
    if players != [] {
      var init, last := players[..|players| - 1], players[|players| - 1];
      LeaversBag(list, init);
      DropFirstBag(DropEach(list, init), last);
    }
  }

  lemma BagSize(a: seq<Id>, b: seq<Id>, list: seq<Id>)
    requires multiset(a) + multiset(b) == multiset(list)
    ensures |a| + |b| == |list|
  {
    assert |multiset(a) + multiset(b)| == |multiset(list)|;
  }

  lemma LeaveAccounts(f: Fifo, gone: seq<Id>, first: seq<Id>)
    requires FifoAccounted(f, first)
    ensures FifoAccounted(Leave(f, gone), first)
    ensures |Leave(f, gone).q.list| + |Leave(f, gone).gone| == |f.q.list| + |f.gone|
  {
    LeaversBag(f.q.list, gone);
    BagSize(DropEach(f.q.list, gone), Leavers(f.q.list, gone), f.q.list);
  }

  lemma SeatsAccounts(f1: Fifo, f2: Fifo, size: nat, r: Round, first: seq<Id>)
    requires Seats(f1, f2, size, r) && f1.halt.Running? && FifoAccounted(f1, first)
    ensures FifoAccounted(f2, first)
  {
    CutBag(f1.q.list, size);
    var t := Turn(f1.q, r, f1.q.list[..size]);
    WithSnoc(f1.turns, t, Started);
    WithSnoc(f1.turns, t, Refused);
    WithSnoc(f1.turns, t, Lost);
  }

  lemma ServeAccounts(f: Fifo, size: nat, r: Round, first: seq<Id>)
    requires 0 < size && f.q.list != [] && f.halt.Running? && FifoAccounted(f, first)
    ensures FifoAccounted(Serve(f, size, r), first)
  {
    ServeIs(f, size, r);
    if |f.q.list| >= size { SeatsAccounts(f, Serve(f, size, r), size, r, first); }
  }

  lemma FifoStepAccounts(f: Fifo, size: nat, r: Round, first: seq<Id>)
    requires size > 0 && FifoAccounted(f, first)
    ensures FifoAccounted(FifoStep(f, size, r), first)
  {
    if !FifoEnded(f, size) && r.reached {
      var f1 := Leave(f, r.gone);
      LeaveAccounts(f, r.gone, first);
      if r.taken && f1.q.list != [] { ServeAccounts(f1, size, r, first); }
    }
  }

  lemma {:induction false} FifoAccounts(q: Queue, size: nat, rounds: seq<Round>)
    requires size > 0
    ensures FifoAccounted(FifoRun(q, size, rounds), q.list)
  {
    if rounds != [] {
      FifoAccounts(q, size, rounds[..|rounds| - 1]);
      FifoStepAccounts(FifoRun(q, size, rounds[..|rounds| - 1]), size, rounds[|rounds| - 1], q.list);
    }
  }

  /** Nobody is invented, and the players who queued are those who still queue, have a match,
      were told of an error, left on their own, or were lost; somebody is lost exactly if a
      push back fails. */
  lemma {:induction false} FifoConserves(q: Queue, size: nat, rounds: seq<Round>)
    requires size > 0
    ensures var f := FifoRun(q, size, rounds);
            && FifoAccounted(f, q.list)
            && (With(f.turns, Lost) + multiset(Dropped(f)) == multiset{} <==>
                  (forall k :: 0 <= k < |f.turns| ==> !f.turns[k].round.outcome.Lost?) && !(f.halt.Short? && f.halt.lost))
  {
    var f := FifoRun(q, size, rounds);
    FifoAccounts(q, size, rounds);
    FifoTurns(q, size, rounds);
    forall k | 0 <= k < |f.turns| ensures f.turns[k].players != [] {
      assert FrontTurn(f.turns[k], size, rounds);
    }
    NobodyLostIff(f.turns);
    if f.halt.Short? && f.halt.lost { assert f.halt.group[0] in multiset(Dropped(f)); }
  }

  ghost predicate FrontTurn(t: Turn, size: nat, rounds: seq<Round>) {
    |t.view.list| >= size && t.players == t.view.list[..size] && t.round in rounds && t.round.Ok()
  }

  ghost predicate ShortTakesAll(f: Fifo, size: nat) {
    f.halt.Short? ==> 0 < |f.halt.group| < size && f.q.list == if f.halt.lost then [] else f.halt.group
  }

  lemma FifoStepTurns(f: Fifo, size: nat, r: Round, t: Turn)
    requires size > 0 && t in FifoStep(f, size, r).turns
    ensures t in f.turns || (|t.view.list| >= size && t.players == t.view.list[..size] && t.round == r && r.Ok())
  {
    var f1 := Leave(f, r.gone);
    if f1.q.list != [] { ServeIs(f1, size, r); }
  }

  lemma FifoStepShort(f: Fifo, size: nat, r: Round)
    requires size > 0 && ShortTakesAll(f, size)
    ensures ShortTakesAll(FifoStep(f, size, r), size)
  {
    var f1 := Leave(f, r.gone);
    if f1.q.list != [] { ServeIs(f1, size, r); }
  }

  /** Every group is the front of the queue at its turn, and a short pop the whole queue. */
  lemma {:induction false} FifoTurns(q: Queue, size: nat, rounds: seq<Round>)
    requires size > 0
    ensures forall t :: t in FifoRun(q, size, rounds).turns ==> FrontTurn(t, size, rounds)
    ensures ShortTakesAll(FifoRun(q, size, rounds), size)
  {
    if rounds != [] {
      var init, last := rounds[..|rounds| - 1], rounds[|rounds| - 1];
      var f := FifoRun(q, size, init);
      FifoTurns(q, size, init);
      FifoStepShort(f, size, last);
      assert rounds == init + [last];
      forall t | t in FifoStep(f, size, last).turns ensures FrontTurn(t, size, rounds) {
        FifoStepTurns(f, size, last, t);
      }
    }
  }

  // ---- when the loop ends --------------------------------------------------------------------------------

  /** Of n players, left still queue; served counts the attempts so far that were not pushed
      back. */
  ghost predicate Counted(left: nat, turns: seq<Turn>, n: int, size: nat, served: nat) {
    && left + Times(size, Departures(turns)) == n
    && Departures(turns) <= served
    && (left >= size ==> Departures(turns) == served)
  }

  lemma CountedSnoc(left: nat, left': nat, turns: seq<Turn>, t: Turn, n: int, size: nat, served: nat)
    requires left >= size && Counted(left, turns, n, size, served)
    requires left' == if t.round.outcome.Full? then left else left - size
    ensures Counted(left', turns + [t], n, size, served + if t.round.outcome.Full? then 0 else 1)
  {
    DeparturesSnoc(turns, t);
  }

  /** Those who still queue, or whom a short pop took. */
  function LeftOver(f: Fifo): nat { |f.q.list| + |Dropped(f)| }

  ghost predicate FifoCounted(f: Fifo, n: nat, size: nat, served: nat) {
    && (f.halt.Running? || LeftOver(f) < size)
    && |f.gone| <= n && Counted(LeftOver(f), f.turns, n - |f.gone|, size, served)
  }

  lemma LeaveCounts(f: Fifo, n: nat, size: nat, served: nat, gone: seq<Id>, first: seq<Id>)
    requires f.halt.Running? && |f.q.list| >= size && FifoAccounted(f, first) && FifoCounted(f, n, size, served)
    ensures var f1 := Leave(f, gone);
            && |f1.gone| <= n && Departures(f1.turns) == served
            && |f1.q.list| + Times(size, Departures(f1.turns)) == n - |f1.gone|
  {
    LeaveAccounts(f, gone, first);
  }

  lemma ServeCounts(f1: Fifo, f2: Fifo, n: nat, size: nat, served: nat, r: Round)
    requires size > 0 && f1.halt.Running? && (Seats(f1, f2, size, r) || FallsShort(f1, f2, size, r))
    requires |f1.gone| <= n && Departures(f1.turns) == served
    requires |f1.q.list| + Times(size, Departures(f1.turns)) == n - |f1.gone|
    ensures FifoCounted(f2, n, size, served + if r.outcome.Full? then 0 else 1)
  {
    if Seats(f1, f2, size, r) {
      CountedSnoc(|f1.q.list|, |f2.q.list|, f1.turns, Turn(f1.q, r, f1.q.list[..size]), n - |f1.gone|, size, served);
    }
  }

  lemma FifoStepCounts(f: Fifo, n: nat, size: nat, served: nat, r: Round, first: seq<Id>)
    requires size > 0 && FifoAccounted(f, first) && FifoCounted(f, n, size, served) && r.Ok()
    ensures FifoCounted(FifoStep(f, size, r), n, size, served + if r.outcome.Full? then 0 else 1)
  {
    if !FifoEnded(f, size) {
      LeaveCounts(f, n, size, served, r.gone, first);
      var f1 := Leave(f, r.gone);
      if f1.q.list != [] {
        ServeIs(f1, size, r);
        ServeCounts(f1, Serve(f1, size, r), n, size, served, r);
      }
    }
  }

  lemma {:induction false} FifoCounts(q: Queue, size: nat, rounds: seq<Round>)
    requires size > 0 && forall k :: 0 <= k < |rounds| ==> rounds[k].Ok()
    ensures FifoCounted(FifoRun(q, size, rounds), |q.list|, size, Served(rounds))
  {
    if rounds != [] {
      var init, last := rounds[..|rounds| - 1], rounds[|rounds| - 1];
      FifoCounts(q, size, init);
      FifoAccounts(q, size, init);
      FifoStepCounts(FifoRun(q, size, init), |q.list|, size, Served(init), last, q.list);
    }
  }

  /** Once over, over. */
  lemma {:induction false} FifoStays(q: Queue, size: nat, rounds: seq<Round>, k: nat)
    requires size > 0 && k <= |rounds| && FifoEnded(FifoRun(q, size, rounds[..k]), size)
    ensures FifoRun(q, size, rounds) == FifoRun(q, size, rounds[..k])
  {
    if k < |rounds| {
      var init := rounds[..|rounds| - 1];
      assert init[..k] == rounds[..k];
      FifoStays(q, size, init, k);
    } else {
      assert rounds[..k] == rounds;
    }
  }

  lemma FifoNext(q: Queue, size: nat, rounds: seq<Round>, k: nat)
    requires size > 0 && k < |rounds|
    ensures FifoRun(q, size, rounds[..k + 1]) == FifoStep(FifoRun(q, size, rounds[..k]), size, rounds[k])
  {
    assert rounds[..k + 1][..k] == rounds[..k];
  }

  lemma FailureEnds(f: Fifo, size: nat, r: Round)
    requires size > 0 && !r.Ok()
    ensures FifoEnded(FifoStep(f, size, r), size)
  {
  }

  lemma FailedRunEnds(q: Queue, size: nat, rounds: seq<Round>, k: nat)
    requires size > 0 && k < |rounds| && !rounds[k].Ok()
    ensures FifoEnded(FifoRun(q, size, rounds), size)
  {
    FifoNext(q, size, rounds, k);
    FailureEnds(FifoRun(q, size, rounds[..k]), size, rounds[k]);
    FifoStays(q, size, rounds, k + 1);
  }

  lemma CountedEndsIff(f: Fifo, n: nat, size: nat, served: nat)
    requires size > 0 && FifoCounted(f, n, size, served)
    ensures FifoEnded(f, size) <==> served >= (n - |f.gone|) / size
  {
    TooFewIff(n - |f.gone|, LeftOver(f), size, Departures(f.turns));
  }

  /** The loop has ended exactly when the queue could not be read or popped in some round, or
      as many attempts were not pushed back as there are full groups among those who have not
      left. If every host stays full with a group waiting, it never ends. */
  lemma FifoEndsIff(q: Queue, size: nat, rounds: seq<Round>)
    requires size > 0
    ensures var f := FifoRun(q, size, rounds);
            FifoEnded(f, size) <==>
              (exists k :: 0 <= k < |rounds| && !rounds[k].Ok()) || Served(rounds) >= (|q.list| - |f.gone|) / size
  {
    if k :| 0 <= k < |rounds| && !rounds[k].Ok() {
      FailedRunEnds(q, size, rounds, k);
    } else {
      FifoCounts(q, size, rounds);
      CountedEndsIff(FifoRun(q, size, rounds), |q.list|, size, Served(rounds));
    }
  }

  lemma {:induction false} NobodyLeaves(q: Queue, size: nat, rounds: seq<Round>)
    requires size > 0 && forall k :: 0 <= k < |rounds| ==> rounds[k].gone == []
    ensures FifoRun(q, size, rounds).gone == []
  {
    if rounds != [] { NobodyLeaves(q, size, rounds[..|rounds| - 1]); }
  }

  // ---- first come, first served ----------------------------------------------------------------------------

  /** part is whole without some of its elements. */
  ghost predicate Embeds(part: seq<Id>, whole: seq<Id>) {
    if part == [] then true
    else whole != [] && ((part[0] == whole[0] && Embeds(part[1..], whole[1..])) || Embeds(part, whole[1..]))
  }

  lemma {:induction false} EmbedsItself(list: seq<Id>)
    ensures Embeds(list, list)
  {
    if list != [] { EmbedsItself(list[1..]); }
  }

  lemma {:induction false} EmbedsWithout(part: seq<Id>, whole: seq<Id>, k: nat)
    requires Embeds(part, whole) && k < |part|
    ensures Embeds(part[..k] + part[k + 1..], whole)
    decreases |whole|
  {
    var less := part[..k] + part[k + 1..];
    if part[0] == whole[0] && Embeds(part[1..], whole[1..]) {
      if k == 0 {
        assert less == part[1..];
        EmbedsLater(less, whole);
      } else {
        EmbedsWithout(part[1..], whole[1..], k - 1);
        assert less[1..] == part[1..][..k - 1] + part[1..][k..];
      }
    } else {
      EmbedsWithout(part, whole[1..], k);
      EmbedsLater(less, whole);
    }
  }

  lemma EmbedsLater(part: seq<Id>, whole: seq<Id>)
    requires whole != [] && Embeds(part, whole[1..])
    ensures Embeds(part, whole)
  {
  }

  lemma EmbedsDropFirst(front: seq<Id>, list: seq<Id>, p: Id, whole: seq<Id>)
    requires Embeds(front + list, whole)
    ensures Embeds(front + DropFirst(list, p), whole)
  {
    var k := DropFirstAt(list, p);
    if k < |list| {
      EmbedsWithout(front + list, whole, |front| + k);
      assert (front + list)[..|front| + k] + (front + list)[|front| + k + 1..] == front + (list[..k] + list[k + 1..]);
    }
  }

  lemma {:induction false} EmbedsDropEach(front: seq<Id>, list: seq<Id>, players: seq<Id>, whole: seq<Id>)
    requires Embeds(front + list, whole)
    ensures Embeds(front + DropEach(list, players), whole)
  {
    if players != [] {
      EmbedsDropEach(front, list, players[..|players| - 1], whole);
      EmbedsDropFirst(front, DropEach(list, players[..|players| - 1]), players[|players| - 1], whole);
    }
  }

  /** The players of all groups, one group after the other. */
  ghost function Seated(turns: seq<Turn>): seq<Id> {
    if turns == [] then [] else Seated(turns[..|turns| - 1]) + turns[|turns| - 1].players
  }

  ghost predicate InOrder(f: Fifo, first: seq<Id>) { Embeds(Seated(f.turns) + f.q.list + Dropped(f), first) }

  lemma SeatsInOrder(f1: Fifo, f2: Fifo, size: nat, r: Round, first: seq<Id>)
    requires Seats(f1, f2, size, r) && f1.halt.Running? && InOrder(f1, first) && !r.outcome.Full?
    ensures InOrder(f2, first)
  {
    var t := Turn(f1.q, r, f1.q.list[..size]);
    assert (f1.turns + [t])[..|f1.turns|] == f1.turns;
    assert Seated(f2.turns) + f2.q.list + [] == Seated(f1.turns) + f1.q.list + [];
  }

  lemma ShortInOrder(f1: Fifo, f2: Fifo, size: nat, r: Round, first: seq<Id>)
    requires FallsShort(f1, f2, size, r) && f1.halt.Running? && InOrder(f1, first)
    ensures InOrder(f2, first)
  {
    assert Seated(f1.turns) + [] + f1.q.list == Seated(f1.turns) + f1.q.list + [];
  }

  lemma ServeInOrder(f: Fifo, size: nat, r: Round, first: seq<Id>)
    requires 0 < size && f.q.list != [] && f.halt.Running? && InOrder(f, first) && !r.outcome.Full?
    ensures InOrder(Serve(f, size, r), first)
  {
    var f2 := Serve(f, size, r);
    ServeIs(f, size, r);
    if Seats(f, f2, size, r) { SeatsInOrder(f, f2, size, r, first); } else { ShortInOrder(f, f2, size, r, first); }
  }

  lemma LeaveInOrder(f: Fifo, gone: seq<Id>, first: seq<Id>)
    requires InOrder(f, first) && f.halt.Running?
    ensures InOrder(Leave(f, gone), first)
  {
    assert Seated(f.turns) + f.q.list + [] == Seated(f.turns) + f.q.list;
    EmbedsDropEach(Seated(f.turns), f.q.list, gone, first);
    var list := DropEach(f.q.list, gone);
    assert Seated(f.turns) + list + [] == Seated(f.turns) + list;
  }

  /** With room for everybody, whoever queued earlier is seated earlier, and before all who
      still queue, whoever leaves in between. */
  lemma {:induction false} FifoInOrder(q: Queue, size: nat, rounds: seq<Round>)
    requires size > 0 && forall j :: 0 <= j < |rounds| ==> !rounds[j].outcome.Full?
    ensures InOrder(FifoRun(q, size, rounds), q.list)
  {
    if rounds == [] {
      EmbedsItself(q.list);
      assert [] + q.list + [] == q.list;
    } else {
      var f, r := FifoRun(q, size, rounds[..|rounds| - 1]), rounds[|rounds| - 1];
      FifoInOrder(q, size, rounds[..|rounds| - 1]);
      if !FifoEnded(f, size) && r.reached {
        LeaveInOrder(f, r.gone, q.list);
        var f1 := Leave(f, r.gone);
        if r.taken && f1.q.list != [] { ServeInOrder(f1, size, r, q.list); }
      }
    }
  }

  lemma CutTwice(list: seq<Id>, at: nat, size: nat)
    requires at + size <= |list|
    ensures list[at..][..size] == list[at..at + size] && list[at..][size..] == list[at + size..]
  {
  }

  lemma FifoStepPlain(f: Fifo, size: nat, r: Round)
    requires size > 0 && !r.outcome.Full? && r.gone == []
    ensures var f' := FifoStep(f, size, r);
            || (f'.turns == f.turns && f'.q.list == f.q.list)
            || (|f.q.list| >= size && f'.q.list == f.q.list[size..]
                && |f'.turns| == |f.turns| + 1 && f'.turns[..|f.turns|] == f.turns
                && f'.turns[|f.turns|].players == f.q.list[..size])
  {
    var f1 := Leave(f, []);
    if f1.q.list != [] { ServeIs(f1, size, r); }
  }

  lemma {:induction false} FifoSuffix(q: Queue, size: nat, rounds: seq<Round>)
    requires size > 0 && forall j :: 0 <= j < |rounds| ==> !rounds[j].outcome.Full? && rounds[j].gone == []
    ensures var f := FifoRun(q, size, rounds);
            Times(size, |f.turns|) <= |q.list| && f.q.list == q.list[Times(size, |f.turns|)..]
  {
    if rounds != [] {
      FifoSuffix(q, size, rounds[..|rounds| - 1]);
      var f := FifoRun(q, size, rounds[..|rounds| - 1]);
      FifoStepPlain(f, size, rounds[|rounds| - 1]);
      if |f.q.list| >= size { CutTwice(q.list, Times(size, |f.turns|), size); }
    }
  }

  /** With room for everybody and nobody leaving, the groups are consecutive blocks of the
      queue, in order. */
  lemma {:induction false} FifoBlocks(q: Queue, size: nat, rounds: seq<Round>, k: nat)
    requires size > 0 && forall j :: 0 <= j < |rounds| ==> !rounds[j].outcome.Full? && rounds[j].gone == []
    requires k < |FifoRun(q, size, rounds).turns|
    ensures Times(size, k) + size <= |q.list|
    ensures FifoRun(q, size, rounds).turns[k].players == q.list[Times(size, k)..Times(size, k) + size]
  {
    var init := rounds[..|rounds| - 1];
    var f, f' := FifoRun(q, size, init), FifoRun(q, size, rounds);
    FifoStepPlain(f, size, rounds[|rounds| - 1]);
    FifoSuffix(q, size, init);
    if k < |f.turns| {
      FifoBlocks(q, size, init, k);
      assert f'.turns[k] == f'.turns[..|f.turns|][k];
    } else {
      CutTwice(q.list, Times(size, |f.turns|), size);
    }
  }

  /** An attempt that finds every host full only moves the first group to the end. */
  lemma FullOnlyRotates(f: Fifo, size: nat, r: Round)
    requires size > 0 && !FifoEnded(f, size) && r.Ok() && r.outcome.Full? && |Leave(f, r.gone).q.list| >= size
    ensures var list := Leave(f, r.gone).q.list; FifoStep(f, size, r).q.list == list[size..] + list[..size]
    ensures Agrees(f.q) ==> Agrees(FifoStep(f, size, r).q)
  {
    if Agrees(f.q) { FifoStepAgrees(f, size, r); }
  }

  /** A pop that yields too few players leaves their order as it is and, unless pushing them
      back fails, queues them again with their wait restarted. */
  lemma ShortPopRestartsWait(f: Fifo, size: nat, r: Round)
    requires size > 0 && !FifoEnded(f, size) && r.Ok() && 0 < |Leave(f, r.gone).q.list| < size
    ensures var list, f' := Leave(f, r.gone).q.list, FifoStep(f, size, r);
            && f'.halt == Short(list, r.outcome.Lost?) && f'.turns == f.turns
            && f'.q.list == (if r.outcome.Lost? then [] else list)
            && (!r.outcome.Lost? ==> forall p :: p in list ==> p in f'.q.joined && f'.q.joined[p] == r.now)
  {
  }

  lemma PushBackAgrees(q: Queue, count: nat, now: int)
    requires Agrees(q) && 0 < count <= |q.list|
    ensures Agrees(Pop(q, count).value.0)
    ensures Agrees(Push(Pop(q, count).value.0, q.list[..count], now).value)
  {
    SplitEntries(q, count);
    var front, rest := q.list[..count], q.list[count..];
    assert q.list == front + rest;
    PushDistinctIff(front, rest);
    PushDistinctIff(rest, front);
  }

  lemma FifoStepAgrees(f: Fifo, size: nat, r: Round)
    requires size > 0 && Agrees(f.q)
    ensures Agrees(FifoStep(f, size, r).q)
  {
    RemoveAllRefines(f.q, r.gone);
    var q := Leave(f, r.gone).q;
    if q.list != [] { PushBackAgrees(q, FrontSize(q, size), r.now); }
  }

  lemma {:induction false} FifoAgrees(q: Queue, size: nat, rounds: seq<Round>)
    requires size > 0 && Agrees(q)
    ensures Agrees(FifoRun(q, size, rounds).q)
  {
    if rounds != [] {
      FifoAgrees(q, size, rounds[..|rounds| - 1]);
      FifoStepAgrees(FifoRun(q, size, rounds[..|rounds| - 1]), size, rounds[|rounds| - 1]);
    }
  }

  // ---- pairFIFO ------------------------------------------------------------------------------------------

  /** One pass of pairFIFO that finds a group waiting. Between its look at the length and its
      pop the players of r.gone leave. */
  method PairFront(q: PlayerQueue, size: nat, r: Round, turns: seq<Turn>, gone: seq<Id>)
    returns (turns': seq<Turn>, gone': seq<Id>, halt: Halt)
    requires 0 < size <= |q.list|
    modifies q
    ensures Fifo(q.View(), turns', gone', halt) == FifoStep(Fifo(old(q.View()), turns, gone, Running), size, r)
    ensures SomeStarted(turns') <==> SomeStarted(turns) || (|turns'| > |turns| && r.outcome.Started?)
  {
    if !r.reached { return turns, gone, Unavailable; }
    gone' := gone + Leavers(q.list, r.gone);
    q.RemovePlayersFromQueue(r.gone);
    if !r.taken { return turns, gone', Unavailable; }
    var view := Queue(q.list, q.joined);
    var players := q.PopPlayersFromQueue(size);
    if players.None? { return turns, gone', Unavailable; }
    if |players.value| < size {
      if !r.outcome.Lost? { var _ := q.PushPlayersToQueue(players.value, r.now); }
      return turns, gone', Short(players.value, r.outcome.Lost?);
    }
    StartedSnoc(turns, Turn(view, r, players.value));
    if r.outcome.Full? { var _ := q.PushPlayersToQueue(players.value, r.now); }
    turns', halt := turns + [Turn(view, r, players.value)], Running;
  }

  /** As far as the given rounds go; ended tells whether the loop is over by then. */
  method PairFIFO(q: PlayerQueue, size: nat, rounds: seq<Round>)
    returns (paired: bool, turns: seq<Turn>, gone: seq<Id>, halt: Halt, ended: bool)
    requires size > 0
    modifies q
    ensures Fifo(q.View(), turns, gone, halt) == FifoRun(old(q.View()), size, rounds)
    ensures ended <==> FifoEnded(Fifo(q.View(), turns, gone, halt), size)
    ensures paired <==> SomeStarted(turns)
  {
    paired, turns, gone, halt := false, [], [], Running;
    ghost var first := q.View();
    var k := 0;
    while k < |rounds| && halt.Running? && |q.list| >= size
      invariant k <= |rounds|
      invariant Fifo(q.View(), turns, gone, halt) == FifoRun(first, size, rounds[..k])
      invariant paired <==> SomeStarted(turns)
    {
      FifoNext(first, size, rounds, k);
      var taken := |turns|;
      turns, gone, halt := PairFront(q, size, rounds[k], turns, gone);
      paired := paired || (|turns| > taken && rounds[k].outcome.Started?);
      k := k + 1;
    }
    if k < |rounds| { FifoStays(first, size, rounds, k); }
    assert rounds[..|rounds|] == rounds;
    ended := !halt.Running? || |q.list| < size;
  }

  // ---- by rating, as a function -----------------------------------------------------------------------------

  /** Why the loop has stopped, if it has; too few players left is told by the queue. */
  datatype Stop = Going | Unreachable | Deferred(group: seq<Cand>, round: Round)

  /** groups[k] is the group of turns[k]. */
  datatype Rate = Rate(q: Queue, turns: seq<Turn>, groups: seq<seq<Cand>>, stop: Stop)

  predicate RateEnded(s: Rate, size: nat) { !s.stop.Going? || |s.q.list| < size }

  function Choice(pick: (seq<Cand>, nat) -> seq<Cand>, q: Queue, size: nat, default: int, r: Round): seq<Cand> {
    pick(CandsOf(q, r.ratings, default, r.now), size)
  }

  predicate FitsWindow(group: seq<Cand>) { group != [] && Spread(group) <= RatingWindow(group[0].waited) }

  /** The queue after a group was taken out and its start has turned out as r says. */
  function AfterTurn(q: Queue, ids: seq<Id>, r: Round): Queue {
    var left := RemoveAll(q, ids);
    if r.outcome.Full? && ids != [] then Push(left, ids, r.now).value else left
  }

  /** One pass: a read or a removal that fails ends the loop, and so does a picked group that
      does not fit its seed's window. */
  function RateStep(pick: (seq<Cand>, nat) -> seq<Cand>, s: Rate, size: nat, default: int, r: Round): Rate {
    if RateEnded(s, size) then s
    else if !r.reached then s.(stop := Unreachable)
    else
      var group := Choice(pick, s.q, size, default, r);
      if !FitsWindow(group) then s.(stop := Deferred(group, r))
      else if !r.taken then s.(stop := Unreachable)
      else Rate(AfterTurn(s.q, IdsOf(group), r), s.turns + [Turn(s.q, r, IdsOf(group))], s.groups + [group], Going)
  }

  function RateRun(pick: (seq<Cand>, nat) -> seq<Cand>, q: Queue, size: nat, default: int, rounds: seq<Round>): Rate {
    if rounds == [] then Rate(q, [], [], Going)
    else RateStep(pick, RateRun(pick, q, size, default, rounds[..|rounds| - 1]), size, default, rounds[|rounds| - 1])
  }

  /** What the loop guarantees about a group that it takes: it was picked from the queue as
      it was then, with the ratings as they were then, and it fits its seed's window. */
  ghost predicate GoodTurn(t: Turn, group: seq<Cand>, size: nat, default: int) {
    && Picked(CandsOf(t.view, t.round.ratings, default, t.round.now), size, group)
    && FitsWindow(group) && t.players == IdsOf(group)
    && |t.players| == size && NoDup(t.players) && forall p :: p in t.players ==> p in t.view.list
  }

  ghost predicate GoodRate(s: Rate, first: Queue, size: nat, default: int) {
    && Agrees(s.q) && |s.turns| == |s.groups|
    && (forall k :: 0 <= k < |s.turns| ==> GoodTurn(s.turns[k], s.groups[k], size, default))
    && Accounted(s.q.list, s.turns, first.list)
    && (s.stop.Deferred? ==>
          Picked(CandsOf(s.q, s.stop.round.ratings, default, s.stop.round.now), size, s.stop.group) && !FitsWindow(s.stop.group))
  }

  lemma TurnKeepsQueue(q: Queue, ids: seq<Id>, r: Round)
    requires Agrees(q) && NoDup(ids) && ids != [] && forall p :: p in ids ==> p in q.list
    ensures Agrees(AfterTurn(q, ids, r))
    ensures multiset(AfterTurn(q, ids, r).list) + (if r.outcome.Full? then multiset{} else multiset(ids)) == multiset(q.list)
    ensures r.outcome.Full? ==> forall p :: p in ids ==> p in AfterTurn(q, ids, r).joined && AfterTurn(q, ids, r).joined[p] == r.now
  {
    RemoveAllRefines(q, ids);
    DropEachIsOthers(q.list, ids);
    OthersMeaning(q.list, ids);
    OthersBag(q.list, ids);
    PushDistinctIff(Others(q.list, ids), ids);
  }

  lemma RateStepGood(pick: Chooser, s: Rate, first: Queue, size: nat, default: int, r: Round)
    requires size > 0 && GoodRate(s, first, size, default)
    ensures GoodRate(RateStep(pick, s, size, default, r), first, size, default)
  {
    var s' := RateStep(pick, s, size, default, r);
    var group := Choice(pick, s.q, size, default, r);
    if !RateEnded(s, size) && r.reached {
      assert Picked(CandsOf(s.q, r.ratings, default, r.now), size, group);
      if FitsWindow(group) && r.taken {
        PickedIds(s.q, r.ratings, default, r.now, size, group);
        TurnKeepsQueue(s.q, IdsOf(group), r);
        AccountedSnoc(s.q.list, s'.q.list, s.turns, Turn(s.q, r, IdsOf(group)), first.list);
      }
    }
  }

  lemma {:induction false} RateRunGood(pick: Chooser, q: Queue, size: nat, default: int, rounds: seq<Round>)
    requires size > 0 && Agrees(q)
    ensures GoodRate(RateRun(pick, q, size, default, rounds), q, size, default)
  {
    if rounds != [] {
      RateRunGood(pick, q, size, default, rounds[..|rounds| - 1]);
      RateStepGood(pick, RateRun(pick, q, size, default, rounds[..|rounds| - 1]), q, size, default, rounds[|rounds| - 1]);
    }
  }

  /** Rating pairing loses somebody exactly if a push-back fails. */
  lemma RateLosesNobodyIff(pick: Chooser, q: Queue, size: nat, default: int, rounds: seq<Round>)
    requires size > 0 && Agrees(q)
    ensures var turns := RateRun(pick, q, size, default, rounds).turns;
            With(turns, Lost) == multiset{} <==> forall k :: 0 <= k < |turns| ==> !turns[k].round.outcome.Lost?
  {
    RateRunGood(pick, q, size, default, rounds);
    var s := RateRun(pick, q, size, default, rounds);
    forall k | 0 <= k < |s.turns| ensures s.turns[k].players != [] {
      assert GoodTurn(s.turns[k], s.groups[k], size, default);
    }
    NobodyLostIff(s.turns);
  }

  /** Once over, over. */
  lemma {:induction false} RateStays(pick: (seq<Cand>, nat) -> seq<Cand>, q: Queue, size: nat, default: int, rounds: seq<Round>, k: nat)
    requires k <= |rounds| && RateEnded(RateRun(pick, q, size, default, rounds[..k]), size)
    ensures RateRun(pick, q, size, default, rounds) == RateRun(pick, q, size, default, rounds[..k])
  {
    if k < |rounds| {
      var init := rounds[..|rounds| - 1];
      assert init[..k] == rounds[..k];
      RateStays(pick, q, size, default, init, k);
    } else {
      assert rounds[..k] == rounds;
    }
  }

  lemma RateNext(pick: (seq<Cand>, nat) -> seq<Cand>, q: Queue, size: nat, default: int, rounds: seq<Round>, k: nat)
    requires k < |rounds|
    ensures RateRun(pick, q, size, default, rounds[..k + 1])
         == RateStep(pick, RateRun(pick, q, size, default, rounds[..k]), size, default, rounds[k])
  {
    assert rounds[..k + 1][..k] == rounds[..k];
  }

  lemma RateWhole(pick: (seq<Cand>, nat) -> seq<Cand>, q: Queue, size: nat, default: int, rounds: seq<Round>, k: nat)
    requires k <= |rounds| && (k == |rounds| || RateEnded(RateRun(pick, q, size, default, rounds[..k]), size))
    ensures RateRun(pick, q, size, default, rounds) == RateRun(pick, q, size, default, rounds[..k])
  {
    if k < |rounds| { RateStays(pick, q, size, default, rounds, k); } else { assert rounds[..k] == rounds; }
  }

  // ---- pairByRating -----------------------------------------------------------------------------------------

  /** One pass of pairByRating that finds enough players. */
  method PairNearest(q: PlayerQueue, size: nat, default: int, r: Round, turns: seq<Turn>, groups: seq<seq<Cand>>)
    returns (turns': seq<Turn>, groups': seq<seq<Cand>>, stop: Stop)
    requires 0 < size <= |q.list|
    modifies q
    ensures Rate(q.View(), turns', groups', stop) == RateStep(Nearest, Rate(old(q.View()), turns, groups, Going), size, default, r)
    ensures SomeStarted(turns') <==> SomeStarted(turns) || (stop.Going? && r.outcome.Started?)
  {
    if !r.reached { return turns, groups, Unreachable; }
    var cands := Candidates(q, r.ratings, default, r.now);
    var group, fits := PickGroup(cands, size);
    if !fits { return turns, groups, Deferred(group, r); }
    if !r.taken { return turns, groups, Unreachable; }
    var view, ids := Queue(q.list, q.joined), IdsOf(group);
    StartedSnoc(turns, Turn(view, r, ids));
    q.RemovePlayersFromQueue(ids);
    if r.outcome.Full? { var _ := q.PushPlayersToQueue(ids, r.now); }
    turns', groups', stop := turns + [Turn(view, r, ids)], groups + [group], Going;
  }

  /** The loop of pairByRating, as far as the given rounds go. */
  method RatingRounds(q: PlayerQueue, size: nat, default: int, rounds: seq<Round>)
    returns (paired: bool, turns: seq<Turn>, groups: seq<seq<Cand>>, stop: Stop)
    requires size > 0
    modifies q
    ensures Rate(q.View(), turns, groups, stop) == RateRun(Nearest, old(q.View()), size, default, rounds)
    ensures paired <==> SomeStarted(turns)
  {
    paired, turns, groups, stop := false, [], [], Going;
    ghost var first := q.View();
    var k := 0;
    while k < |rounds| && stop.Going? && |q.list| >= size
      invariant k <= |rounds|
      invariant Rate(q.View(), turns, groups, stop) == RateRun(Nearest, first, size, default, rounds[..k])
      invariant paired <==> SomeStarted(turns)
    {
      RateNext(Nearest, first, size, default, rounds, k);
      turns, groups, stop := PairNearest(q, size, default, rounds[k], turns, groups);
      paired := paired || (stop.Going? && rounds[k].outcome.Started?);
      k := k + 1;
    }
    RateWhole(Nearest, first, size, default, rounds, k);
  }

  /** Every group that is taken was picked by rating from the queue of its turn and fits its
      seed's window, everybody is accounted for, and a deferral names the group that did not
      fit; ended tells whether the loop is over by the end of the given rounds. */
  method PairByRating(q: PlayerQueue, size: nat, default: int, rounds: seq<Round>)
    returns (paired: bool, turns: seq<Turn>, groups: seq<seq<Cand>>, stop: Stop, ended: bool)
    requires size > 0
    modifies q
    ensures Rate(q.View(), turns, groups, stop) == RateRun(Nearest, old(q.View()), size, default, rounds)
    ensures ended <==> RateEnded(Rate(q.View(), turns, groups, stop), size)
    ensures paired <==> SomeStarted(turns)
    ensures Agrees(old(q.View())) ==> GoodRate(Rate(q.View(), turns, groups, stop), old(q.View()), size, default)
  {
    paired, turns, groups, stop := RatingRounds(q, size, default, rounds);
    if Agrees(old(q.View())) { RateRunGood(Nearest, old(q.View()), size, default, rounds); }
    ended := !stop.Going? || |q.list| < size;
  }
}
