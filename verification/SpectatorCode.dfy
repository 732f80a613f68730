/** The code that produces the steps of SpectatorModel: the agent's file server, the
    object-store client, the uploader's loop, the live-to-replay move and the spectator
    route. The outcome of every remote call is a parameter. Each writer is shown to leave
    the store exactly as some list of the model's steps would. */
module SpectatorCode {
  import opened Common
  import opened SpectatorModel
  import opened SpectatorProofs

  /** Opening the stream file: it can be read, it does not exist (yet), or opening or
      seeking fails otherwise. */
  datatype FileState = Readable | Absent | Unreadable

  datatype AgentReply = Data(data: Bytes) | BadRequest | AgentError

  /** One to 128 letters, digits, underscores and hyphens. */
  predicate SafeId(id: string) {
    1 <= |id| <= 128
    && forall k :: 0 <= k < |id| ==>
         'a' <= id[k] <= 'z' || 'A' <= id[k] <= 'Z' || '0' <= id[k] <= '9' || id[k] == '_' || id[k] == '-'
  }

  /** In ASCII: letters, digits, hyphen and underscore, which have no way to name a file
      outside the agent's directory. */
  predicate IsWordCode(n: int) { 65 <= n <= 90 || 97 <= n <= 122 || 48 <= n <= 57 || n == 45 || n == 95 }

  lemma SafeIdIff(id: string)
    ensures SafeId(id) <==> 0 < |id| < 129 && forall k :: 0 <= k < |id| ==> IsWordCode(id[k] as int)
    ensures SafeId(id) ==> '/' !in id && '.' !in id && '\\' !in id
  {
    if SafeId(id) {
      forall k | 0 <= k < |id| ensures IsWordCode(id[k] as int) {}
    }
  }

  /** The agent on the host: the append-only file a game server writes. */
  class HostAgent {
    var stream: Bytes

    constructor ()
      ensures stream == []
    {
      stream := [];
    }

    method Append(data: Bytes)
      modifies this
      ensures stream == old(stream) + data
    {
      stream := stream + data;
    }

    /** One request of the spectate route; offset and max come from the query string. An
        unusable max falls back to the default, and a file that is not there yet is empty. */
    method HandleSpectate(id: string, file: FileState, offset: int, max: Option<int>) returns (reply: AgentReply)
      ensures var n := if max.Some? && 0 < max.value < 0x100_0000 then max.value else 0x4_0000;
              reply == if !SafeId(id) then BadRequest
                       else match file
                            case Absent => Data([])
                            case Unreadable => AgentError
                            case Readable => Data(Slice(stream, if offset < 0 then 0 else offset, n))
    {
      if !SafeId(id) { return BadRequest; }
      var from := if offset < 0 then 0 else offset;
      var limit := 0x4_0000;
      if max.Some? && 0 < max.value < 0x100_0000 {
        limit := max.value;
      }
      if file.Absent? { return Data([]); }
      if file.Unreadable? { return AgentError; }
      if from >= |stream| {
        return Data([]);
      }
      reply := Data(if from + limit <= |stream| then stream[from..from + limit] else stream[from..]);
    }
  }

  /** One match's objects, written one call at a time. */
  class ObjectStore {
    var live: map<nat, Bytes>
    var replay: map<nat, Bytes>
    var liveManifest: Option<Manifest>
    var replayManifest: Option<Manifest>

    constructor ()
      ensures View() == Init().store
    {
      live, replay, liveManifest, replayManifest := map[], map[], None, None;
    }

    ghost function View(): Store
      reads this
    {
      Store(live, replay, liveManifest, replayManifest)
    }

    method PutSpectateChunk(n: nat, data: Bytes, io: Io) returns (ok: bool)
      modifies this
      ensures ok == io.Acked?
      ensures View() == if io.Landed() then old(View()).(live := old(live)[n := data]) else old(View())
    {
      if io.Landed() { live := live[n := data]; }
      ok := io.Acked?;
    }

    method PutSpectateManifest(m: Manifest, io: Io) returns (ok: bool)
      modifies this
      ensures ok == io.Acked?
      ensures View() == if io.Landed() then old(View()).(liveManifest := Some(m)) else old(View())
    {
      if io.Landed() { liveManifest := Some(m); }
      ok := io.Acked?;
    }

    method CopyChunk(n: nat, io: Io) returns (ok: bool)
      modifies this
      ensures ok == (io.Acked? && n in old(live))
      ensures View() == if io.Landed() && n in old(live)
                        then old(View()).(replay := old(replay)[n := old(live)[n]]) else old(View())
    {
      if n !in live { return false; }
      if io.Landed() { replay := replay[n := live[n]]; }
      ok := io.Acked?;
    }

    method PutReplayManifest(m: Manifest, io: Io) returns (ok: bool)
      modifies this
      ensures ok == io.Acked?
      ensures View() == if io.Landed() then old(View()).(replayManifest := Some(m)) else old(View())
    {
      if io.Landed() { replayManifest := Some(m); }
      ok := io.Acked?;
    }

    method DeleteLiveChunk(n: nat, io: Io)
      modifies this
      ensures View() == if io.Landed()
                        then old(View()).(live := map k | k in old(live) && k != n :: old(live)[k]) else old(View())
    {
      if io.Landed() { live := map k | k in live && k != n :: live[k]; }
    }

    method DeleteLiveManifest(io: Io)
      modifies this
      ensures View() == if io.Landed() then old(View()).(liveManifest := None) else old(View())
    {
      if io.Landed() { liveManifest := None; }
    }
  }

  // ---- the uploader ----------------------------------------------------------------

  /** What happens around one tick: bytes the game wrote since the last, and the fate of
      the poll, of the file and of the two writes. */
  datatype Tick = Tick(written: Bytes, pollOk: bool, file: FileState, chunkIo: Io, manifestIo: Io)

  /** The poll reaches the agent and finds the file. */
  predicate Polls(id: string, t: Tick) { t.pollOk && SafeId(id) && t.file.Readable? }

  function TickActs(id: string, t: Tick): seq<Action> {
    [GameWrites(t.written), Poll(Polls(id, t)), PutChunk(t.chunkIo), PutManifest(t.manifestIo)]
  }

  function RunActs(id: string, ticks: seq<Tick>): seq<Action> {
    if ticks == [] then [] else RunActs(id, ticks[..|ticks| - 1]) + TickActs(id, ticks[|ticks| - 1])
  }

  lemma TickUnfolds(s: State, id: string, t: Tick)
    ensures Exec(s, TickActs(id, t))
         == DoPutManifest(DoPutChunk(DoPoll(s.(stream := s.stream + t.written), Polls(id, t)), t.chunkIo), t.manifestIo)
  {
    var acts := TickActs(id, t);
    assert acts[..3][..2] == acts[..2] && acts[..2][..1] == acts[..1] && acts[..1][..0] == [];
    assert Exec(s, acts[..1]) == Step(s, acts[0]);
    assert Exec(s, acts[..2]) == Step(Exec(s, acts[..1]), acts[1]);
    assert Exec(s, acts[..3]) == Step(Exec(s, acts[..2]), acts[2]);
  }

  /** One tick: a poll, then the chunk, then the manifest; any failure ends the tick, and
      only an acknowledged chunk advances the counters. */
  method OneTick(agent: HostAgent, store: ObjectStore, id: string, t: Tick, n: nat, at: nat, ghost s: State)
    returns (seq_: nat, offset: nat)
    requires s.uploader == Uploader(n, at, Waiting) && s.stream == agent.stream && s.store == store.View()
    modifies agent, store
    ensures var s' := Exec(s, TickActs(id, t));
            && store.View() == s'.store && agent.stream == s'.stream && s'.uploader == Uploader(seq_, offset, Waiting)
  {
    TickUnfolds(s, id, t);
    seq_, offset := n, at;
    agent.Append(t.written);
    if t.pollOk {
      var reply := agent.HandleSpectate(id, t.file, offset, Some(CHUNK_MAX_BYTES));
      var data := if reply.Data? then reply.data else [];
      if data != [] {
        var ok := store.PutSpectateChunk(seq_, data, t.chunkIo);
        if ok {
          seq_ := seq_ + 1;
          offset := offset + |data|;
          var stored := store.PutSpectateManifest(Manifest(seq_ - 1, seq_, false), t.manifestIo);
        }
      }
    }
  }

  /** The uploader's loop over the ticks that pass before it is cancelled. It leaves agent
      and store as the model's uploader steps do, and its counters are the model's. */
  method Run(agent: HostAgent, store: ObjectStore, id: string, ticks: seq<Tick>, ghost s0: State)
    returns (seq_: nat, offset: nat)
    requires s0.uploader == Uploader(0, 0, Waiting) && s0.stream == agent.stream && s0.store == store.View()
    modifies agent, store
    ensures var s := Exec(s0, RunActs(id, ticks));
            && store.View() == s.store && agent.stream == s.stream
            && s.uploader == Uploader(seq_, offset, Waiting)
  {
    seq_, offset := 0, 0;
    ghost var s := s0;
    for k := 0 to |ticks|
      invariant s == Exec(s0, RunActs(id, ticks[..k]))
      invariant store.View() == s.store && agent.stream == s.stream
      invariant s.uploader == Uploader(seq_, offset, Waiting)
    {
      seq_, offset := OneTick(agent, store, id, ticks[k], seq_, offset, s);
      assert ticks[..k + 1][..k] == ticks[..k];
      ExecConcat(s0, RunActs(id, ticks[..k]), TickActs(id, ticks[k]));
      s := Exec(s, TickActs(id, ticks[k]));
    }
    assert ticks[..|ticks|] == ticks;
  }

  // ---- the live-to-replay move -------------------------------------------------------

  datatype MoveError = ReadFailed | CopyFailed(n: nat) | PublishFailed

  /** The fate of every remote call of one move. */
  datatype MoveIo = MoveIo(readOk: bool, copy: nat -> Io, publish: Io, delete: nat -> Io, deleteManifest: Io)

  /** The copy of chunk k goes through. */
  predicate CopyGoes(st: Store, io: MoveIo, k: nat) { k in st.live && io.copy(k).Acked? }

  ghost predicate CopiesGo(st: Store, io: MoveIo, n: nat) { forall k: nat :: k < n ==> CopyGoes(st, io, k) }

  /** The first n live chunks are under the replay prefix too, and nothing else is new. */
  ghost predicate CopiedUpTo(st: Store, st': Store, n: nat) {
    && st' == st.(replay := st'.replay)
    && (forall k: nat :: k < n ==> k in st.live && k in st'.replay && st'.replay[k] == st.live[k])
    && (forall k: nat :: k >= n ==> (k in st'.replay <==> k in st.replay) && (k in st.replay ==> st'.replay[k] == st.replay[k]))
  }

  /** The counted chunks are under the replay prefix with the finalized manifest, and the
      live objects are gone as far as their deletes landed. */
  ghost predicate MovedAway(st: Store, st': Store, io: MoveIo, m: Manifest) {
    CopiedUpTo(st, st.(replay := st'.replay), m.chunkCount) && Cleared(st, st', io, m)
  }

  ghost predicate Cleared(st: Store, st': Store, io: MoveIo, m: Manifest) {
    && st'.replayManifest == Some(m.(finalized := true))
    && st'.liveManifest == (if io.deleteManifest.Landed() then None else st.liveManifest)
    && (forall k: nat :: k in st'.live <==> k in st.live && !(k < m.chunkCount && io.delete(k).Landed()))
    && (forall k: nat :: k in st'.live ==> st'.live[k] == st.live[k])
  }

  /** What the move makes of the store: nothing without a live manifest that can be read; the
      chunks before the first whose copy fails; or all of them, and then everything exactly if
      the publishing is acknowledged. */
  ghost predicate MoveLeaves(st: Store, st': Store, io: MoveIo) {
    if !io.readOk || st.liveManifest.None? then st' == st
    else
      var m := st.liveManifest.value;
      && (forall k: nat :: k < m.chunkCount && CopiesGo(st, io, k) && !CopyGoes(st, io, k) ==>
            CopiedUpTo(st, st', if k in st.live && io.copy(k).Landed() then k + 1 else k))
      && (CopiesGo(st, io, m.chunkCount) && !io.publish.Acked? ==>
            && CopiedUpTo(st, st'.(replayManifest := st.replayManifest), m.chunkCount)
            && st'.replayManifest == if io.publish.Landed() then Some(m.(finalized := true)) else st.replayManifest)
      && (CopiesGo(st, io, m.chunkCount) && io.publish.Acked? ==> MovedAway(st, st', io, m))
  }

  /** And what it reports. */
  ghost predicate MoveReports(st: Store, io: MoveIo, err: Option<MoveError>) {
    && (err == Some(ReadFailed) <==> !io.readOk)
    && (io.readOk && st.liveManifest.None? ==> err.None?)
    && (io.readOk && st.liveManifest.Some? ==>
          var m := st.liveManifest.value;
          && (forall k: nat :: err == Some(CopyFailed(k)) <==> k < m.chunkCount && CopiesGo(st, io, k) && !CopyGoes(st, io, k))
          && (err == Some(PublishFailed) <==> CopiesGo(st, io, m.chunkCount) && !io.publish.Acked?)
          && (err.None? <==> CopiesGo(st, io, m.chunkCount) && io.publish.Acked?))
  }

  /** s is what some steps of move id alone make of s0. */
  ghost predicate MoveLeads(s0: State, s: State, id: nat) {
    exists acts :: (forall a :: a in acts ==> ByMove(a, id)) && Exec(s0, acts) == s
  }

  predicate ByMove(a: Action, id: nat) {
    match a
    case MoveBegin(k) => k == id
    case MoveCopy(k, io) => k == id
    case MovePublish(k, io) => k == id
    case MoveDeleteChunk(k, io) => k == id
    case MoveDeleteManifest(k, io) => k == id
    case _ => false
  }

  lemma MoveLeadsStart(s0: State, id: nat)
    ensures MoveLeads(s0, s0, id)
  {
    assert Exec(s0, []) == s0;
  }

  lemma MoveLeadsOn(s0: State, s: State, id: nat, a: Action)
    requires MoveLeads(s0, s, id) && ByMove(a, id)
    ensures MoveLeads(s0, Step(s, a), id)
  {
    var acts :| (forall a :: a in acts ==> ByMove(a, id)) && Exec(s0, acts) == s;
    var more := acts + [a];
    assert more[..|more| - 1] == acts;
    assert Exec(s0, more) == Step(s, a);
  }

  lemma Begins(s0: State, id: nat)
    requires id !in s0.moves && s0.store.liveManifest.Some?
    ensures MoveLeads(s0, s0.(moves := s0.moves[id := Copying(s0.store.liveManifest.value, 0)]), id)
  {
    MoveLeadsStart(s0, id);
    MoveLeadsOn(s0, s0, id, MoveBegin(id));
  }

  /** The state of a move in progress. */
  ghost function Under(s0: State, st: Store, id: nat, mv: Move): State {
    s0.(store := st, moves := s0.moves[id := mv])
  }

  lemma Copies(s0: State, st: Store, id: nat, m: Manifest, n: nat, io: Io)
    requires MoveLeads(s0, Under(s0, st, id, Copying(m, n)), id) && n < m.chunkCount && id !in s0.moves
    ensures var st' := if io.Landed() && n in st.live then st.(replay := st.replay[n := st.live[n]]) else st;
            if io.Acked? && n in st.live then MoveLeads(s0, Under(s0, st', id, Copying(m, n + 1)), id)
            else MoveLeads(s0, s0.(store := st'), id)
  {
    var s := Under(s0, st, id, Copying(m, n));
    MoveLeadsOn(s0, s, id, MoveCopy(id, io));
    assert Drop(s.moves, id) == s0.moves;
    assert s.moves[id := Copying(m, n + 1)] == s0.moves[id := Copying(m, n + 1)];
  }

  lemma Publishes(s0: State, st: Store, id: nat, m: Manifest, io: Io)
    requires MoveLeads(s0, Under(s0, st, id, Copying(m, m.chunkCount)), id) && id !in s0.moves
    ensures var st' := if io.Landed() then st.(replayManifest := Some(m.(finalized := true))) else st;
            if io.Acked? then MoveLeads(s0, Under(s0, st', id, Deleting(m, 0)), id)
            else MoveLeads(s0, s0.(store := st'), id)
  {
    var s := Under(s0, st, id, Copying(m, m.chunkCount));
    MoveLeadsOn(s0, s, id, MovePublish(id, io));
    assert Drop(s.moves, id) == s0.moves;
    assert s.moves[id := Deleting(m, 0)] == s0.moves[id := Deleting(m, 0)];
  }

  lemma Deletes(s0: State, st: Store, id: nat, m: Manifest, n: nat, io: Io)
    requires MoveLeads(s0, Under(s0, st, id, Deleting(m, n)), id) && n < m.chunkCount && !s0.reader.pc.AwaitingLive?
    ensures var st' := if io.Landed() then st.(live := map k | k in st.live && k != n :: st.live[k]) else st;
            MoveLeads(s0, Under(s0, st', id, Deleting(m, n + 1)), id)
  {
    var s := Under(s0, st, id, Deleting(m, n));
    MoveLeadsOn(s0, s, id, MoveDeleteChunk(id, io));
    assert s.moves[id := Deleting(m, n + 1)] == s0.moves[id := Deleting(m, n + 1)];
  }

  lemma Finishes(s0: State, st: Store, id: nat, m: Manifest, io: Io)
    requires MoveLeads(s0, Under(s0, st, id, Deleting(m, m.chunkCount)), id) && id !in s0.moves
    ensures MoveLeads(s0, s0.(store := if io.Landed() then st.(liveManifest := None) else st), id)
  {
    var s := Under(s0, st, id, Deleting(m, m.chunkCount));
    MoveLeadsOn(s0, s, id, MoveDeleteManifest(id, io));
    assert Drop(s.moves, id) == s0.moves;
  }

  lemma CopiedNext(st: Store, mid: Store, io: MoveIo, n: nat)
    requires CopiesGo(st, io, n) && CopiedUpTo(st, mid, n)
    ensures var next := if io.copy(n).Landed() && n in mid.live then mid.(replay := mid.replay[n := mid.live[n]]) else mid;
            && CopiedUpTo(st, next, if n in st.live && io.copy(n).Landed() then n + 1 else n)
            && (CopyGoes(st, io, n) ==> CopiesGo(st, io, n + 1))
  {
  }

  /** Step 2 of the move: copy chunk by chunk, give up at the first failure. */
  method CopyChunks(store: ObjectStore, m: Manifest, io: MoveIo, ghost s0: State, ghost id: nat)
    returns (failed: Option<nat>)
    requires MoveLeads(s0, Under(s0, store.View(), id, Copying(m, 0)), id) && id !in s0.moves
    modifies store
    ensures if failed.None? then MoveLeads(s0, Under(s0, store.View(), id, Copying(m, m.chunkCount)), id)
            else MoveLeads(s0, s0.(store := store.View()), id)
    ensures failed.None? ==> CopiesGo(old(store.View()), io, m.chunkCount) && CopiedUpTo(old(store.View()), store.View(), m.chunkCount)
    ensures failed.Some? ==>
              var k := failed.value;
              && k < m.chunkCount && CopiesGo(old(store.View()), io, k) && !CopyGoes(old(store.View()), io, k)
              && CopiedUpTo(old(store.View()), store.View(), if k in store.live && io.copy(k).Landed() then k + 1 else k)
  {
    var n := 0;
    while n < m.chunkCount
      invariant n <= m.chunkCount
      invariant MoveLeads(s0, Under(s0, store.View(), id, Copying(m, n)), id)
      invariant CopiesGo(old(store.View()), io, n) && CopiedUpTo(old(store.View()), store.View(), n)
    {
      Copies(s0, store.View(), id, m, n, io.copy(n));
      CopiedNext(old(store.View()), store.View(), io, n);
      var ok := store.CopyChunk(n, io.copy(n));
      if !ok { return Some(n); }
      n := n + 1;
    }
    failed := None;
  }

  /** Step 4 of the move: delete chunk by chunk, whatever the deletes report. */
  method DeleteChunks(store: ObjectStore, m: Manifest, delete: nat -> Io, ghost s0: State, ghost id: nat)
    requires MoveLeads(s0, Under(s0, store.View(), id, Deleting(m, 0)), id) && !s0.reader.pc.AwaitingLive?
    modifies store
    ensures MoveLeads(s0, Under(s0, store.View(), id, Deleting(m, m.chunkCount)), id)
    ensures store.View() == old(store.View()).(live := store.live)
    ensures forall n :: n in store.live <==> n in old(store.live) && !(n < m.chunkCount && delete(n).Landed())
    ensures forall n :: n in store.live ==> store.live[n] == old(store.live)[n]
  {
    var n := 0;
    while n < m.chunkCount
      invariant n <= m.chunkCount
      invariant MoveLeads(s0, Under(s0, store.View(), id, Deleting(m, n)), id)
      invariant store.View() == old(store.View()).(live := store.live)
      invariant forall k :: k in store.live <==> k in old(store.live) && !(k < n && delete(k).Landed())
      invariant forall k :: k in store.live ==> store.live[k] == old(store.live)[k]
    {
      Deletes(s0, store.View(), id, m, n, delete(n));
      store.DeleteLiveChunk(n, delete(n));
      n := n + 1;
    }
  }

  lemma StuckMove(st: Store, st': Store, io: MoveIo, m: Manifest, k: nat)
    requires io.readOk && st.liveManifest == Some(m)
    requires k < m.chunkCount && CopiesGo(st, io, k) && !CopyGoes(st, io, k)
    requires CopiedUpTo(st, st', if k in st.live && io.copy(k).Landed() then k + 1 else k)
    ensures MoveLeaves(st, st', io) && MoveReports(st, io, Some(CopyFailed(k)))
  {
    assert forall j: nat :: CopiesGo(st, io, j) && !CopyGoes(st, io, j) ==> j == k;
  }

  lemma CopiedMove(st: Store, mid: Store, st': Store, io: MoveIo, m: Manifest)
    requires io.readOk && st.liveManifest == Some(m) && CopiesGo(st, io, m.chunkCount) && CopiedUpTo(st, mid, m.chunkCount)
    requires st'.replay == mid.replay
    requires io.publish.Acked? ==> Cleared(mid, st', io, m)
    requires !io.publish.Acked? ==>
               st' == mid.(replayManifest := if io.publish.Landed() then Some(m.(finalized := true)) else st.replayManifest)
    ensures MoveLeaves(st, st', io)
    ensures MoveReports(st, io, if io.publish.Acked? then None else Some(PublishFailed))
  {
    assert forall k: nat :: k < m.chunkCount ==> CopyGoes(st, io, k);
  }

  /** Steps 3 and 4: publish the finalized manifest, and if that is acknowledged clean up. */
  method PublishAndDelete(store: ObjectStore, m: Manifest, io: MoveIo, ghost s0: State, ghost id: nat) returns (published: bool)
    requires MoveLeads(s0, Under(s0, store.View(), id, Copying(m, m.chunkCount)), id)
    requires id !in s0.moves && !s0.reader.pc.AwaitingLive? && store.liveManifest == Some(m)
    modifies store
    ensures MoveLeads(s0, s0.(store := store.View()), id)
    ensures published == io.publish.Acked? && store.replay == old(store.replay)
    ensures published ==> Cleared(old(store.View()), store.View(), io, m)
    ensures !published ==>
              store.View() == old(store.View()).(replayManifest := if io.publish.Landed() then Some(m.(finalized := true))
                                                                   else old(store.replayManifest))
  {
    Publishes(s0, store.View(), id, m, io.publish);
    published := store.PutReplayManifest(m.(finalized := true), io.publish);
    if !published { return; }
    DeleteChunks(store, m, io.delete, s0, id);
    Finishes(s0, store.View(), id, m, io.deleteManifest);
    store.DeleteLiveManifest(io.deleteManifest);
  }

  /** Copy every counted chunk, publish the finalized manifest, then clean up. The store
      ends as a list of this move's own steps would leave it, and exactly as the fate of the
      calls says. */
  method MoveSpectateLiveToReplay(store: ObjectStore, io: MoveIo, ghost s0: State, ghost id: nat)
    returns (err: Option<MoveError>)
    requires s0.store == store.View() && id !in s0.moves && !s0.reader.pc.AwaitingLive?
    modifies store
    ensures MoveLeads(s0, s0.(store := store.View()), id)
    ensures MoveLeaves(old(store.View()), store.View(), io) && MoveReports(old(store.View()), io, err)
  {
    MoveLeadsStart(s0, id);
    if !io.readOk { return Some(ReadFailed); }
    if store.liveManifest.None? { return None; }
    var m := store.liveManifest.value;
    Begins(s0, id);

    ghost var st := store.View();
    var failed := CopyChunks(store, m, io, s0, id);
    ghost var mid := store.View();
    if failed.Some? {
      StuckMove(st, mid, io, m, failed.value);
      return Some(CopyFailed(failed.value));
    }

    var published := PublishAndDelete(store, m, io, s0, id);
    CopiedMove(st, mid, store.View(), io, m);
    err := if published then None else Some(PublishFailed);
  }

  // ---- the spectator route -------------------------------------------------------------

  /** Every chunk numbered from..end-1 can be found. */
  predicate Present(st: Store, from: nat, end: nat) {
    forall n :: from <= n < end ==> Lookup(st, n).Some?
  }

  /** The chunks numbered from..end-1 as the lookup finds them. */
  function Chunks(st: Store, from: nat, end: nat): (r: seq<Bytes>)
    requires from <= end && Present(st, from, end)
    ensures |r| == end - from
    ensures forall i :: 0 <= i < |r| ==> Lookup(st, from + i) == Some(r[i])
    decreases end
  {
    if from == end then [] else Chunks(st, from, end - 1) + [Lookup(st, end - 1).value]
  }

  /** The store at one re-check of a request, and which of its reads then fail. */
  datatype View = View(st: Store, manifestFails: bool, chunkFails: nat -> bool)
  {
    predicate Readable(n: nat) { !chunkFails(n) && Lookup(st, n).Some? }
  }

  /** Concatenates chunks up to the first that neither prefix has; a read that fails with
      anything but not-found fails the drain. */
  method DrainChunks(v: View, from: nat, end: nat) returns (out: Option<Bytes>, stop: nat)
    requires from <= end
    ensures from <= stop <= end && Present(v.st, from, stop)
    ensures forall n :: from <= n < stop ==> v.Readable(n)
    ensures stop < end ==> !v.Readable(stop)
    ensures out.None? <==> stop < end && v.chunkFails(stop)
    ensures out.Some? ==> out.value == Flatten(Chunks(v.st, from, stop))
  {
    var body: Bytes := [];
    var n := from;
    stop := from;
    while n < end
      invariant from <= n <= end && stop == n
      invariant Present(v.st, from, n) && forall k :: from <= k < n ==> v.Readable(k)
      invariant body == Flatten(Chunks(v.st, from, n))
    {
      if v.chunkFails(n) { return None, n; }
      var chunk := Lookup(v.st, n);
      if chunk.None? { break; }
      FlattenSnoc(Chunks(v.st, from, n), chunk.value);
      body := body + chunk.value;
      n := n + 1;
      stop := n;
    }
    out := Some(body);
  }

  datatype Reply =
    | Stream(cursor: nat, eof: bool, body: Bytes)
    | NotFound
    | ServerError
    | ClientGone

  /** The match as the route looks it up: a row, no row, or a database error. */
  datatype MatchLookup = Found(spectateEnabled: bool) | NoRow | LookupFailed

  /** The wait is over: an error, no manifest, something for this cursor, or the end. */
  predicate EndsWait(v: View, cursor: nat) {
    var m := LookupManifest(v.st);
    v.manifestFails || m.None? || cursor < m.value.chunkCount || m.value.finalized
  }

  /** What a client at cursor may be told when the wait ends at v: bytes always come with
      the manifest's count as the next cursor, and they are all of the counted chunks
      unless one of them could not be found. */
  ghost predicate Answers(reply: Reply, v: View, cursor: nat, rowExists: bool) {
    var m := LookupManifest(v.st);
    if v.manifestFails then reply == ServerError
    else if m.None? then reply == if rowExists then Stream(cursor, false, []) else NotFound
    else if m.value.chunkCount <= cursor then reply == Stream(cursor, true, [])
    else
      exists stop :: cursor <= stop <= m.value.chunkCount && Present(v.st, cursor, stop)
        && (forall n :: cursor <= n < stop ==> v.Readable(n))
        && (stop < m.value.chunkCount ==> !v.Readable(stop))
        && reply == if stop < m.value.chunkCount && v.chunkFails(stop) then ServerError
                    else Stream(m.value.chunkCount, m.value.finalized, Flatten(Chunks(v.st, cursor, stop)))
  }

  /** The manifest counts nothing beyond the cursor, and the stream goes on. */
  ghost predicate IsQuiet(v: View, cursor: nat) {
    !v.manifestFails && LookupManifest(v.st).Some? && LookupManifest(v.st).value.chunkCount <= cursor && !LookupManifest(v.st).value.finalized
  }

  /** The manifest counts nothing beyond the cursor, and the stream is final. */
  ghost predicate IsOver(v: View, cursor: nat) {
    !v.manifestFails && LookupManifest(v.st).Some? && LookupManifest(v.st).value.chunkCount <= cursor && LookupManifest(v.st).value.finalized
  }

  /** The first view that ends the wait decides the reply; if none does the reply is empty
      and keeps the cursor. */
  ghost predicate Decides(reply: Reply, views: seq<View>, cursor: nat, rowExists: bool, clientLeft: bool) {
    if forall j :: 0 <= j < |views| ==> !EndsWait(views[j], cursor)
    then reply == if clientLeft then ClientGone else Stream(cursor, false, [])
    else exists k :: 0 <= k < |views| && EndsWait(views[k], cursor)
           && (forall j :: 0 <= j < k ==> !EndsWait(views[j], cursor))
           && Answers(reply, views[k], cursor, rowExists)
  }

  /** One long poll. views: the store as each re-check finds it, up to the deadline or the
      client's departure. */
  method GetMatchStream(row: MatchLookup, rawCursor: int, views: seq<View>, clientLeft: bool)
    returns (reply: Reply)
    ensures row == Found(false) ==> reply == NotFound
    ensures row.LookupFailed? ==> reply == ServerError
    ensures row.NoRow? || row == Found(true) ==>
              Decides(reply, views, if rawCursor < 0 then 0 else rawCursor, row.Found?, clientLeft)
  {
    if row.LookupFailed? { return ServerError; }
    if row.Found? && !row.spectateEnabled { return NotFound; }
    var cursor := if rawCursor < 0 then 0 else rawCursor;
    for k := 0 to |views|
      invariant forall j :: 0 <= j < k ==> !EndsWait(views[j], cursor)
    {
      var v := views[k];
      if v.manifestFails { return ServerError; }
      var m := LookupManifest(v.st);
      if m.None? {
        reply := if row.NoRow? then NotFound else Stream(cursor, false, []);
        return;
      }
      if cursor < m.value.chunkCount {
        var body, stop := DrainChunks(v, cursor, m.value.chunkCount);
        reply := if body.None? then ServerError else Stream(m.value.chunkCount, m.value.finalized, body.value);
        assert Answers(reply, v, cursor, row.Found?);
        return;
      }
      if m.value.finalized { return Stream(cursor, true, []); }
    }
    reply := if clientLeft then ClientGone else Stream(cursor, false, []);
  }

  /** While nothing is new the request waits, until it is told so or the client leaves. */
  lemma QuietStreamWaits(reply: Reply, views: seq<View>, cursor: nat, rowExists: bool, clientLeft: bool)
    requires Decides(reply, views, cursor, rowExists, clientLeft) && forall k :: 0 <= k < |views| ==> IsQuiet(views[k], cursor)
    ensures reply == if clientLeft then ClientGone else Stream(cursor, false, [])
  {
    forall k | 0 <= k < |views| ensures !EndsWait(views[k], cursor) {
      assert IsQuiet(views[k], cursor);
    }
  }

  /** A client with everything is told that the stream is over as soon as it is final. */
  lemma OverIsTold(reply: Reply, views: seq<View>, cursor: nat, rowExists: bool, clientLeft: bool, k: nat)
    requires Decides(reply, views, cursor, rowExists, clientLeft)
    requires k < |views| && IsOver(views[k], cursor) && forall j :: 0 <= j < k ==> IsQuiet(views[j], cursor)
    ensures reply == Stream(cursor, true, [])
  {
    assert EndsWait(views[k], cursor);
    forall j | 0 <= j < k ensures !EndsWait(views[j], cursor) {
      assert IsQuiet(views[j], cursor);
    }
  }

  /** And nobody is told so before. */
  lemma ToldIsOver(reply: Reply, views: seq<View>, cursor: nat, rowExists: bool, clientLeft: bool)
    requires Decides(reply, views, cursor, rowExists, clientLeft) && reply.Stream? && reply.eof
    ensures exists k :: 0 <= k < |views| && LookupManifest(views[k].st).Some? && LookupManifest(views[k].st).value.finalized
                        && LookupManifest(views[k].st).value.chunkCount <= reply.cursor
  {
    var k :| 0 <= k < |views| && EndsWait(views[k], cursor)
      && (forall j :: 0 <= j < k ==> !EndsWait(views[j], cursor)) && Answers(reply, views[k], cursor, rowExists);
  }

  /** Against any reachable store the lookup finds the logged chunks. */
  lemma ChunksAreLogged(s: State, from: nat, end: nat)
    requires StoreInv(s.store, s.log) && from <= end <= |s.log|
    ensures Present(s.store, from, end) && Chunks(s.store, from, end) == s.log[from..end]
  {
    assert forall n :: from <= n < end ==> Lookup(s.store, n) == Some(s.log[n]);
  }

  /** Against any reachable store, a reply that carries bytes carries exactly the logged
      chunks from the client's cursor to the cursor it is given next. */
  lemma RequestServesNextChunks(s: State, v: View, reply: Reply, cursor: nat, rowExists: bool)
    requires Inv(s) && v.st == s.store && Answers(reply, v, cursor, rowExists)
    requires reply.Stream? && reply.body != []
    ensures cursor < reply.cursor <= |s.log| && reply.body == Flatten(s.log[cursor..reply.cursor])
  {
    if s.store.replayManifest.Some? { FinalManifestCounts(s.store, s.log); }
    var m := LookupManifest(s.store).value;
    var stop :| cursor <= stop <= m.chunkCount && Present(v.st, cursor, stop)
      && (forall n :: cursor <= n < stop ==> v.Readable(n)) && (stop < m.chunkCount ==> !v.Readable(stop))
      && reply == if stop < m.chunkCount && v.chunkFails(stop) then ServerError
                  else Stream(m.chunkCount, m.finalized, Flatten(Chunks(v.st, cursor, stop)));
    ChunksAreLogged(s, cursor, m.chunkCount);
    assert stop == m.chunkCount;
  }
}
