/** One matchmaking queue: the list of waiting players, the hash of their join times, and the
    operations on the two, each taken as one step. The two together stand for one ordered
    list of (player, join time) entries. */
module PlayerQueues {
  import opened Common
  import opened Ids

  datatype Queue = Queue(list: seq<Id>, joined: map<Id, int>)

  datatype Entry = Entry(player: Id, since: int)

  // ---- the operations as functions ----------------------------------------------------------

  /** LREM with count 1: the first occurrence goes. */
  function DropFirst(list: seq<Id>, p: Id): seq<Id> {
    if list == [] then [] else if list[0] == p then list[1..] else [list[0]] + DropFirst(list[1..], p)
  }

  function DropEach(list: seq<Id>, players: seq<Id>): seq<Id> {
    if players == [] then list else DropFirst(DropEach(list, players[..|players| - 1]), players[|players| - 1])
  }

  function Forget(joined: map<Id, int>, players: seq<Id>): map<Id, int> {
    map p | p in joined && p !in players :: joined[p]
  }

  /** HSETNX for each player: a time that is there stays. */
  function Note(joined: map<Id, int>, players: seq<Id>, now: int): map<Id, int> {
    map p | p in joined.Keys + (set x | x in players) :: if p in joined then joined[p] else now
  }

  /** A player who is already queued is refused. */
  function Add(q: Queue, p: Id, now: int): Option<Queue> {
    if p in q.list then None else Some(Queue(q.list + [p], q.joined[p := now]))
  }

  function Remove(q: Queue, p: Id): Option<Queue> {
    if p !in q.list then None else Some(Queue(DropFirst(q.list, p), Forget(q.joined, [p])))
  }

  function FrontSize(q: Queue, count: nat): nat { if count <= |q.list| then count else |q.list| }

  /** An empty list yields an error, not an empty answer. */
  function Pop(q: Queue, count: nat): Option<(Queue, seq<Id>)> {
    if q.list == [] then None
    else
      var n := FrontSize(q, count);
      Some((Queue(q.list[n..], Forget(q.joined, q.list[..n])), q.list[..n]))
  }

  function RemoveAll(q: Queue, players: seq<Id>): Queue {
    Queue(DropEach(q.list, players), Forget(q.joined, players))
  }

  /** Pushing nobody is an error. */
  function Push(q: Queue, players: seq<Id>, now: int): Option<Queue> {
    if players == [] then None else Some(Queue(q.list + players, Note(q.joined, players, now)))
  }

  // ---- the operations as they are performed ---------------------------------------------------

  class PlayerQueue {
    var list: seq<Id>
    var joined: map<Id, int>

    constructor ()
      ensures View() == Queue([], map[])
    {
      list, joined := [], map[];
    }

    ghost function View(): Queue
      reads this
    {
      Queue(list, joined)
    }

    method AddPlayerToQueueWithTTL(p: Id, now: int) returns (added: bool)
      modifies this
      ensures added == Add(old(View()), p, now).Some?
      ensures View() == if added then Add(old(View()), p, now).value else old(View())
    {
      added := p !in list;
      if added { list, joined := list + [p], joined[p := now]; }
    }

    method RemovePlayerFromQueue(p: Id) returns (removed: bool)
      modifies this
      ensures removed == Remove(old(View()), p).Some?
      ensures View() == if removed then Remove(old(View()), p).value else old(View())
    {
      removed := p in list;
      if removed { list, joined := DropFirst(list, p), Forget(joined, [p]); }
    }

    method PopPlayersFromQueue(count: nat) returns (players: Option<seq<Id>>)
      modifies this
      ensures players.Some? == Pop(old(View()), count).Some?
      ensures players.Some? ==> Pop(old(View()), count).value == (View(), players.value)
      ensures players.None? ==> View() == old(View())
    {
      if list == [] { return None; }
      var n := if count <= |list| then count else |list|;
      players := Some(list[..n]);
      list, joined := list[n..], Forget(joined, list[..n]);
    }

    method RemovePlayersFromQueue(players: seq<Id>)
      modifies this
      ensures View() == RemoveAll(old(View()), players)
    {
      if |players| == 0 {
        assert Forget(joined, players) == joined;
        return;
      }
      for k := 0 to |players|
        invariant list == DropEach(old(list), players[..k]) && joined == old(joined)
      {
        assert players[..k + 1][..k] == players[..k];
        list := DropFirst(list, players[k]);
      }
      assert players[..|players|] == players;
      joined := Forget(joined, players);
    }

    method PushPlayersToQueue(players: seq<Id>, now: int) returns (ok: bool)
      modifies this
      ensures ok == Push(old(View()), players, now).Some?
      ensures View() == if ok then Push(old(View()), players, now).value else old(View())
    {
      if |players| == 0 { return false; }
      list := list + players;
      for k := 0 to |players|
        invariant list == old(list) + players && joined == Note(old(joined), players[..k], now)
      {
        assert players[..k + 1] == players[..k] + [players[k]];
        if players[k] !in joined { joined := joined[players[k] := now]; }
      }
      assert players[..|players|] == players;
      ok := true;
    }
  }

  // ---- agreement of list and hash --------------------------------------------------------------

  ghost predicate Agrees(q: Queue) { NoDup(q.list) && forall p :: p in q.joined <==> p in q.list }

  ghost function EntriesOf(list: seq<Id>, joined: map<Id, int>): (es: seq<Entry>)
    requires forall p :: p in list ==> p in joined
    ensures |es| == |list| && forall k :: 0 <= k < |list| ==> es[k] == Entry(list[k], joined[list[k]])
  {
    if list == [] then []
    else
      assert list == [list[0]] + list[1..];
      [Entry(list[0], joined[list[0]])] + EntriesOf(list[1..], joined)
  }

  /** The ordered list of entries that an agreeing queue stands for. */
  ghost function Entries(q: Queue): seq<Entry>
    requires Agrees(q)
  {
    EntriesOf(q.list, q.joined)
  }

  ghost predicate Queued(es: seq<Entry>, p: Id) { exists k :: 0 <= k < |es| && es[k].player == p }

  /** The entries of everybody not in players, in order. */
  ghost function Keeping(es: seq<Entry>, players: seq<Id>): seq<Entry> {
    if es == [] then []
    else (if es[0].player in players then [] else [es[0]]) + Keeping(es[1..], players)
  }

  ghost function Arrivals(players: seq<Id>, now: int): seq<Entry> {
    seq(|players|, k requires 0 <= k < |players| => Entry(players[k], now))
  }

  // ---- each operation on the one list -----------------------------------------------------------

  lemma QueuedMeansListed(q: Queue, p: Id)
    requires Agrees(q)
    ensures Queued(Entries(q), p) <==> p in q.list
  {
    if p in q.list {
      var k :| 0 <= k < |q.list| && q.list[k] == p;
      assert Entries(q)[k].player == p;
    }
  }

  /** The listed players that are not in players, in order. */
  ghost function Others(list: seq<Id>, players: seq<Id>): seq<Id> {
    if list == [] then [] else (if list[0] in players then [] else [list[0]]) + Others(list[1..], players)
  }

  lemma {:induction false} OthersMeaning(list: seq<Id>, players: seq<Id>)
    ensures forall x :: x in Others(list, players) <==> x in list && x !in players
  {
    if list != [] {
      OthersMeaning(list[1..], players);
      assert list == [list[0]] + list[1..];
    }
  }

  lemma Tail(list: seq<Id>)
    requires NoDup(list) && list != []
    ensures NoDup(list[1..]) && list[0] !in list[1..] && list == [list[0]] + list[1..]
  {
    assert forall k :: 0 <= k < |list| - 1 ==> list[1..][k] == list[k + 1];
  }

  lemma {:induction false} OthersOfAll(list: seq<Id>, players: seq<Id>)
    requires forall p :: p in list ==> p !in players
    ensures Others(list, players) == list
  {
    if list != [] {
      assert list == [list[0]] + list[1..];
      OthersOfAll(list[1..], players);
    }
  }

  lemma {:induction false} OthersNoDup(list: seq<Id>, players: seq<Id>)
    requires NoDup(list)
    ensures NoDup(Others(list, players))
  {
    if list != [] {
      Tail(list);
      OthersNoDup(list[1..], players);
      OthersMeaning(list[1..], players);
    }
  }

  lemma {:induction false} OthersTwice(list: seq<Id>, a: seq<Id>, b: seq<Id>)
    ensures Others(Others(list, a), b) == Others(list, a + b)
  {
    if list != [] {
      OthersTwice(list[1..], a, b);
      assert list[0] in a + b <==> list[0] in a || list[0] in b;
      if list[0] in a {
        assert Others(list, a) == Others(list[1..], a);
      } else {
        assert Others(list, a)[1..] == Others(list[1..], a);
      }
    }
  }

  lemma {:induction false} DropFirstIsOthers(list: seq<Id>, p: Id)
    requires NoDup(list)
    ensures DropFirst(list, p) == Others(list, [p])
  {
    if list != [] {
      Tail(list);
      DropFirstIsOthers(list[1..], p);
      if list[0] == p { OthersOfAll(list[1..], [p]); }
    }
  }

  lemma {:induction false} DropEachIsOthers(list: seq<Id>, players: seq<Id>)
    requires NoDup(list)
    ensures DropEach(list, players) == Others(list, players)
  {
    if players == [] {
      OthersOfAll(list, players);
    } else {
      var init, last := players[..|players| - 1], players[|players| - 1];
      DropEachIsOthers(list, init);
      OthersNoDup(list, init);
      DropFirstIsOthers(Others(list, init), last);
      OthersTwice(list, init, [last]);
      assert init + [last] == players;
    }
  }

  lemma {:induction false} OthersEntries(list: seq<Id>, joined: map<Id, int>, players: seq<Id>)
    requires forall p :: p in list ==> p in joined
    ensures forall p :: p in Others(list, players) ==> p in Forget(joined, players)
    ensures EntriesOf(Others(list, players), Forget(joined, players)) == Keeping(EntriesOf(list, joined), players)
  {
    OthersMeaning(list, players);
    if list != [] {
      assert list == [list[0]] + list[1..];
      OthersEntries(list[1..], joined, players);
      var rest := Others(list[1..], players);
      if list[0] !in players { assert Others(list, players)[1..] == rest; }
    }
  }

  lemma {:induction false} EntriesConcat(a: seq<Id>, b: seq<Id>, joined: map<Id, int>)
    requires forall p :: p in a || p in b ==> p in joined
    ensures EntriesOf(a + b, joined) == EntriesOf(a, joined) + EntriesOf(b, joined)
  {
  }

  lemma {:induction false} EntriesFrame(list: seq<Id>, joined: map<Id, int>, joined': map<Id, int>)
    requires forall p :: p in list ==> p in joined && p in joined' && joined[p] == joined'[p]
    ensures EntriesOf(list, joined) == EntriesOf(list, joined')
  {
  }

  lemma AddRefines(q: Queue, p: Id, now: int)
    requires Agrees(q)
    ensures Add(q, p, now).None? <==> Queued(Entries(q), p)
    ensures Add(q, p, now).Some? ==>
              var q' := Add(q, p, now).value;
              Agrees(q') && Entries(q') == Entries(q) + [Entry(p, now)]
  {
    QueuedMeansListed(q, p);
  }

  lemma RemoveAllRefines(q: Queue, players: seq<Id>)
    requires Agrees(q)
    ensures var q' := RemoveAll(q, players); Agrees(q') && Entries(q') == Keeping(Entries(q), players)
  {
    DropEachIsOthers(q.list, players);
    OthersNoDup(q.list, players);
    OthersMeaning(q.list, players);
    OthersEntries(q.list, q.joined, players);
  }

  lemma RemoveRefines(q: Queue, p: Id)
    requires Agrees(q)
    ensures Remove(q, p).None? <==> !Queued(Entries(q), p)
    ensures Remove(q, p).Some? ==>
              var q' := Remove(q, p).value;
              Agrees(q') && Entries(q') == Keeping(Entries(q), [p])
  {
    QueuedMeansListed(q, p);
    RemoveAllRefines(q, [p]);
    var one := [p];
    assert one[..|one| - 1] == [] && one[|one| - 1] == p;
    assert DropEach(q.list, one) == DropFirst(DropEach(q.list, []), p);
    assert RemoveAll(q, one) == Queue(DropFirst(q.list, p), Forget(q.joined, [p]));
  }

  lemma PopRefines(q: Queue, count: nat)
    requires Agrees(q)
    ensures Pop(q, count).None? <==> Entries(q) == []
    ensures Pop(q, count).Some? ==>
              var (q', players) := Pop(q, count).value;
              var n := FrontSize(q, count);
              && Agrees(q') && Entries(q') == Entries(q)[n..]
              && |players| == n && forall k :: 0 <= k < n ==> players[k] == Entries(q)[k].player
  {
    if q.list != [] { SplitEntries(q, FrontSize(q, count)); }
  }

  lemma SplitEntries(q: Queue, n: nat)
    requires Agrees(q) && n <= |q.list|
    ensures var q' := Queue(q.list[n..], Forget(q.joined, q.list[..n]));
            Agrees(q') && Entries(q') == Entries(q)[n..]
  {
    var front, rest := q.list[..n], q.list[n..];
    assert q.list == front + rest;
    PushDistinctIff(front, rest);
    EntriesConcat(front, rest, q.joined);
    EntriesFrame(rest, q.joined, Forget(q.joined, front));
  }

  /** Pushing players back keeps list and hash in agreement exactly if they are distinct
      and none of them is queued; then they join at the end. */
  lemma PushRefines(q: Queue, players: seq<Id>, now: int)
    requires Agrees(q) && players != []
    ensures var q' := Push(q, players, now).value;
            && (Agrees(q') <==> NoDup(players) && forall p :: p in players ==> !Queued(Entries(q), p))
            && (Agrees(q') ==> Entries(q') == Entries(q) + Arrivals(players, now))
  {
    var q' := Push(q, players, now).value;
    forall p ensures Queued(Entries(q), p) <==> p in q.list { QueuedMeansListed(q, p); }
    PushDistinctIff(q.list, players);
    if NoDup(q'.list) { PushedEntries(q, players, now); }
  }

  lemma PushedEntries(q: Queue, players: seq<Id>, now: int)
    requires Agrees(q) && forall p :: p in players ==> p !in q.list
    ensures var joined := Note(q.joined, players, now);
            EntriesOf(q.list + players, joined) == EntriesOf(q.list, q.joined) + Arrivals(players, now)
  {
    var joined := Note(q.joined, players, now);
    EntriesConcat(q.list, players, joined);
    EntriesFrame(q.list, q.joined, joined);
    forall p | p in players ensures joined[p] == now { assert p !in q.joined; }
    ArrivalsAreEntries(players, joined, now);
  }

  lemma ArrivalsAreEntries(players: seq<Id>, joined: map<Id, int>, now: int)
    requires forall p :: p in players ==> p in joined && joined[p] == now
    ensures EntriesOf(players, joined) == Arrivals(players, now)
  {
    assert forall k :: 0 <= k < |players| ==> players[k] in players;
  }

  lemma {:induction false} PrefixNoDup(list: seq<Id>, players: seq<Id>)
    requires NoDup(list + players)
    ensures NoDup(list) && NoDup(players) && forall p :: p in players ==> p !in list
  {
    var both := list + players;
    assert forall k :: 0 <= k < |list| ==> both[k] == list[k];
    assert forall k :: 0 <= k < |players| ==> both[|list| + k] == players[k];
    forall p | p in players ensures p !in list {
      var j :| 0 <= j < |players| && players[j] == p;
      forall k | 0 <= k < |list| ensures list[k] != p {
        assert both[k] != both[|list| + j];
      }
    }
  }

  lemma PushDistinctIff(list: seq<Id>, players: seq<Id>)
    ensures NoDup(list + players) <==> NoDup(list) && NoDup(players) && forall p :: p in players ==> p !in list
  {
    var both := list + players;
    if NoDup(both) {
      PrefixNoDup(list, players);
    } else if NoDup(list) && NoDup(players) {
      var i, j :| 0 <= i < j < |both| && both[i] == both[j];
      assert i < |list| <= j && players[j - |list|] == both[j];
      assert both[j] in players && both[j] in list;
    }
  }

  // ---- whole histories -----------------------------------------------------------------------------

  datatype Op =
    | OpAdd(p: Id, now: int)
    | OpRemove(p: Id)
    | OpPop(count: nat)
    | OpRemoveAll(players: seq<Id>)
    | OpPush(players: seq<Id>, now: int)

  /** A refused operation changes nothing. */
  function Apply(q: Queue, op: Op): Queue {
    match op
    case OpAdd(p, now) => (var r := Add(q, p, now); if r.Some? then r.value else q)
    case OpRemove(p) => (var r := Remove(q, p); if r.Some? then r.value else q)
    case OpPop(count) => (var r := Pop(q, count); if r.Some? then r.value.0 else q)
    case OpRemoveAll(players) => RemoveAll(q, players)
    case OpPush(players, now) => (var r := Push(q, players, now); if r.Some? then r.value else q)
  }

  function Run(ops: seq<Op>): Queue {
    if ops == [] then Queue([], map[]) else Apply(Run(ops[..|ops| - 1]), ops[|ops| - 1])
  }

  /** The same operation on one ordered list of entries. */
  ghost function ApplyToList(es: seq<Entry>, op: Op): seq<Entry> {
    match op
    case OpAdd(p, now) => if Queued(es, p) then es else es + [Entry(p, now)]
    case OpRemove(p) => Keeping(es, [p])
    case OpPop(count) => if count <= |es| then es[count..] else []
    case OpRemoveAll(players) => Keeping(es, players)
    case OpPush(players, now) => es + Arrivals(players, now)
  }

  ghost function RunOnList(ops: seq<Op>): seq<Entry> {
    if ops == [] then [] else ApplyToList(RunOnList(ops[..|ops| - 1]), ops[|ops| - 1])
  }

  /** Only distinct players that are not queued are ever pushed back. */
  ghost predicate PushesAreNew(ops: seq<Op>) {
    forall k :: 0 <= k < |ops| && ops[k].OpPush? ==>
      NoDup(ops[k].players) && forall p :: p in ops[k].players ==> !Queued(RunOnList(ops[..k]), p)
  }

  lemma {:induction false} KeepingNobody(es: seq<Entry>, p: Id)
    requires !Queued(es, p)
    ensures Keeping(es, [p]) == es
  {
    if es != [] {
      assert es[0].player != p;
      assert forall k :: 0 <= k < |es| - 1 ==> es[1..][k] == es[k + 1];
      KeepingNobody(es[1..], p);
    }
  }

  lemma ApplyRefines(q: Queue, op: Op)
    requires Agrees(q)
    requires op.OpPush? ==> NoDup(op.players) && forall p :: p in op.players ==> !Queued(Entries(q), p)
    ensures Agrees(Apply(q, op)) && Entries(Apply(q, op)) == ApplyToList(Entries(q), op)
  {
    match op
    case OpAdd(p, now) => AddRefines(q, p, now);
    case OpRemove(p) =>
      RemoveRefines(q, p);
      if !Queued(Entries(q), p) { KeepingNobody(Entries(q), p); }
    case OpPop(count) => PopRefines(q, count);
    case OpRemoveAll(players) => RemoveAllRefines(q, players);
    case OpPush(players, now) => if players != [] { PushRefines(q, players, now); }
  }

  /** Whatever is done to an empty queue, as long as nobody is pushed back who is queued:
      list and hash stand for one ordered list of entries, and behave like it. */
  lemma {:induction false} RunRefines(ops: seq<Op>)
    requires PushesAreNew(ops)
    ensures Agrees(Run(ops)) && Entries(Run(ops)) == RunOnList(ops)
  {
    if ops != [] {
      var init := ops[..|ops| - 1];
      forall k | 0 <= k < |init| ensures init[..k] == ops[..k] {}
      RunRefines(init);
      assert init == ops[..|ops| - 1];
      ApplyRefines(Run(init), ops[|ops| - 1]);
    }
  }
}
