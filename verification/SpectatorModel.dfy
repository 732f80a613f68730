/** The spectator pipeline of one match as a transition system: the game server appends to
    a byte stream, one uploader cuts it into numbered chunks under the live prefix, any
    number of live-to-replay moves copy, publish and delete, and a spectator polls with a
    cursor. Every object-store call is one step and may fail with or without effect. A
    run is any list of actions; an action that is not enabled leaves the state as it is,
    so a statement about every list is a statement about every interleaving. */
module SpectatorModel {
  import opened Common

  newtype Byte = i: int | 0 <= i < 256
  type Bytes = seq<Byte>

  const CHUNK_MAX_BYTES: nat := 0x4_0000

  datatype Manifest = Manifest(latestSeq: int, chunkCount: nat, finalized: bool)

  /** The objects of one match: chunk numbers to bytes and one manifest, per prefix. */
  datatype Store = Store(
    live: map<nat, Bytes>,
    replay: map<nat, Bytes>,
    liveManifest: Option<Manifest>,
    replayManifest: Option<Manifest>)

  /** Where the uploader stands inside one tick. */
  datatype UploadPc = Waiting | Polled(data: Bytes) | ChunkStored

  datatype Uploader = Uploader(seq_: nat, offset: nat, pc: UploadPc)

  /** Where one call of the move stands; m is the live manifest it read at its start. */
  datatype Move =
    | Copying(m: Manifest, next: nat)
    | Deleting(m: Manifest, next: nat)

  /** Where one spectator request stands. AwaitingLive: the replay read of chunk next
      missed and the live read is still to come; deleted records whether a delete of that
      live chunk landed in between. */
  datatype ReadPc =
    | Idle
    | NoReplayManifest
    | Draining(m: Manifest, next: nat, body: Bytes)
    | AwaitingLive(m: Manifest, next: nat, body: Bytes, deleted: bool)

  /** A spectator that starts at cursor 0 and follows the returned cursors. got: all bytes
      received. eof: the chunk count of the manifest behind an EOF response. lost: some
      live chunk was deleted between the two reads of one lookup. */
  datatype Reader = Reader(cursor: nat, got: Bytes, eof: Option<Manifest>, lost: bool, pc: ReadPc)

  /** log is history: the data of every chunk whose upload was acknowledged, in order. */
  datatype State = State(
    stream: Bytes,
    store: Store,
    uploader: Uploader,
    moves: map<nat, Move>,
    reader: Reader,
    log: seq<Bytes>)

  datatype Action =
    | GameWrites(data: Bytes)
    | Poll(ok: bool)
    | PutChunk(io: Io)
    | PutManifest(io: Io)
    | MoveBegin(id: nat)
    | MoveCopy(id: nat, io: Io)
    | MovePublish(id: nat, io: Io)
    | MoveDeleteChunk(id: nat, io: Io)
    | MoveDeleteManifest(id: nat, io: Io)
    | MoveAbort(id: nat)
    | ReadReplayManifest
    | ReadLiveManifest
    | ReadReplayChunk
    | ReadLiveChunk
    | Respond
    | RequestFails

  // ---- the agent's slice of the stream -------------------------------------------

  /** At most max bytes of file from offset on; empty when the reader has caught up. */
  function Slice(file: Bytes, offset: nat, max: nat): (r: Bytes)
    ensures |r| == if offset >= |file| then 0 else if |file| - offset <= max then |file| - offset else max
    ensures forall k :: 0 <= k < |r| ==> r[k] == file[offset + k]
    ensures offset <= |file| ==> offset + |r| <= |file| && r == file[offset..offset + |r|]
  {
    if offset >= |file| then []
    else if offset + max <= |file| then file[offset..offset + max]
    else file[offset..]
  }

  // ---- the two-prefix store ------------------------------------------------------

  /** The replay-then-live lookup of a chunk, both reads at one instant. */
  function Lookup(st: Store, n: nat): Option<Bytes> {
    if n in st.replay then Some(st.replay[n])
    else if n in st.live then Some(st.live[n])
    else None
  }

  /** The replay-then-live lookup of the manifest, both reads at one instant. */
  function LookupManifest(st: Store): Option<Manifest> {
    if st.replayManifest.Some? then st.replayManifest else st.liveManifest
  }

  /** The bytes of a list of chunks. */
  function Flatten(chunks: seq<Bytes>): Bytes {
    if chunks == [] then [] else Flatten(chunks[..|chunks| - 1]) + chunks[|chunks| - 1]
  }

  // ---- steps ---------------------------------------------------------------------

  function Init(): State {
    State([], Store(map[], map[], None, None), Uploader(0, 0, Waiting), map[],
          Reader(0, [], None, false, Idle), [])
  }

  function Drop(ms: map<nat, Move>, id: nat): map<nat, Move> {
    map k | k in ms && k != id :: ms[k]
  }

  /** One poll of the agent: an error or an empty answer ends the tick. */
  function DoPoll(s: State, ok: bool): State {
    var data := Slice(s.stream, s.uploader.offset, CHUNK_MAX_BYTES);
    if !s.uploader.pc.Waiting? || !ok || data == [] then s
    else s.(uploader := s.uploader.(pc := Polled(data)))
  }

  /** Only an acknowledged upload advances seq and offset. */
  function DoPutChunk(s: State, io: Io): State {
    if !s.uploader.pc.Polled? then s
    else
      var u := s.uploader;
      var st := if io.Landed() then s.store.(live := s.store.live[u.seq_ := u.pc.data]) else s.store;
      if io.Acked?
      then s.(store := st, log := s.log + [u.pc.data],
              uploader := Uploader(u.seq_ + 1, u.offset + |u.pc.data|, ChunkStored))
      else s.(store := st, uploader := u.(pc := Waiting))
  }

  /** A failed manifest write is only logged; the next tick writes a newer one. */
  function DoPutManifest(s: State, io: Io): State {
    if !s.uploader.pc.ChunkStored? then s
    else
      var m := Manifest(s.uploader.seq_ - 1, s.uploader.seq_, false);
      var st := if io.Landed() then s.store.(liveManifest := Some(m)) else s.store;
      s.(store := st, uploader := s.uploader.(pc := Waiting))
  }

  function DoMoveBegin(s: State, id: nat): State {
    if id in s.moves || s.store.liveManifest.None? then s
    else s.(moves := s.moves[id := Copying(s.store.liveManifest.value, 0)])
  }

  /** Copying a chunk that is not there fails, and any failed copy abandons the move. */
  function DoMoveCopy(s: State, id: nat, io: Io): State {
    if !(id in s.moves && s.moves[id].Copying? && s.moves[id].next < s.moves[id].m.chunkCount) then s
    else
      var mv := s.moves[id];
      if mv.next !in s.store.live then s.(moves := Drop(s.moves, id))
      else
        var st := if io.Landed()
                  then s.store.(replay := s.store.replay[mv.next := s.store.live[mv.next]])
                  else s.store;
        s.(store := st,
           moves := if io.Acked? then s.moves[id := mv.(next := mv.next + 1)] else Drop(s.moves, id))
  }

  /** After the last copy: write the finalized manifest under the replay prefix. */
  function DoMovePublish(s: State, id: nat, io: Io): State {
    if !(id in s.moves && s.moves[id].Copying? && s.moves[id].next >= s.moves[id].m.chunkCount) then s
    else
      var mv := s.moves[id];
      var st := if io.Landed()
                then s.store.(replayManifest := Some(mv.m.(finalized := true)))
                else s.store;
      s.(store := st,
         moves := if io.Acked? then s.moves[id := Deleting(mv.m, 0)] else Drop(s.moves, id))
  }

  /** Deletes are best effort: the move goes on whatever they report. */
  function DoMoveDeleteChunk(s: State, id: nat, io: Io): State {
    if !(id in s.moves && s.moves[id].Deleting? && s.moves[id].next < s.moves[id].m.chunkCount) then s
    else
      var mv := s.moves[id];
      var n := mv.next;
      var pc := s.reader.pc;
      if io.Landed() then
        s.(store := s.store.(live := map k | k in s.store.live && k != n :: s.store.live[k]),
           moves := s.moves[id := mv.(next := n + 1)],
           reader := if pc.AwaitingLive? && pc.next == n
                     then s.reader.(pc := pc.(deleted := true)) else s.reader)
      else s.(moves := s.moves[id := mv.(next := n + 1)])
  }

  function DoMoveDeleteManifest(s: State, id: nat, io: Io): State {
    if !(id in s.moves && s.moves[id].Deleting? && s.moves[id].next >= s.moves[id].m.chunkCount) then s
    else
      s.(store := if io.Landed() then s.store.(liveManifest := None) else s.store,
         moves := Drop(s.moves, id))
  }

  /** What a request does once it has a manifest: drain, report the end, or poll again. */
  function Judge(r: Reader, m: Manifest): Reader {
    if r.cursor < m.chunkCount then r.(pc := Draining(m, r.cursor, []))
    else if m.finalized then r.(eof := Some(m), pc := Idle)
    else r.(pc := Idle)
  }

  function DoReadReplayManifest(s: State): State {
    if !s.reader.pc.Idle? then s
    else s.(reader := if s.store.replayManifest.Some?
                      then Judge(s.reader, s.store.replayManifest.value)
                      else s.reader.(pc := NoReplayManifest))
  }

  function DoReadLiveManifest(s: State): State {
    if !s.reader.pc.NoReplayManifest? then s
    else s.(reader := if s.store.liveManifest.Some?
                      then Judge(s.reader, s.store.liveManifest.value)
                      else s.reader.(pc := Idle))
  }

  function DoReadReplayChunk(s: State): State {
    var pc := s.reader.pc;
    if !(pc.Draining? && pc.next < pc.m.chunkCount) then s
    else if pc.next in s.store.replay
    then s.(reader := s.reader.(pc := Draining(pc.m, pc.next + 1, pc.body + s.store.replay[pc.next])))
    else s.(reader := s.reader.(pc := AwaitingLive(pc.m, pc.next, pc.body, false)))
  }

  /** The response carries the manifest's chunk count as the next cursor, however many
      chunks the body holds. */
  function Answer(r: Reader, m: Manifest, body: Bytes): Reader {
    r.(cursor := m.chunkCount, got := r.got + body,
       eof := if m.finalized then Some(m) else r.eof, pc := Idle)
  }

  /** A chunk missing under both prefixes stops the drain at the gap. */
  function DoReadLiveChunk(s: State): State {
    var pc := s.reader.pc;
    if !pc.AwaitingLive? then s
    else if pc.next in s.store.live
    then s.(reader := s.reader.(pc := Draining(pc.m, pc.next + 1, pc.body + s.store.live[pc.next])))
    else s.(reader := Answer(s.reader.(lost := s.reader.lost || pc.deleted), pc.m, pc.body))
  }

  function DoRespond(s: State): State {
    var pc := s.reader.pc;
    if !(pc.Draining? && pc.next >= pc.m.chunkCount) then s
    else s.(reader := Answer(s.reader, pc.m, pc.body))
  }

  function Step(s: State, a: Action): State {
    match a
    case GameWrites(data) => s.(stream := s.stream + data)
    case Poll(ok) => DoPoll(s, ok)
    case PutChunk(io) => DoPutChunk(s, io)
    case PutManifest(io) => DoPutManifest(s, io)
    case MoveBegin(id) => DoMoveBegin(s, id)
    case MoveCopy(id, io) => DoMoveCopy(s, id, io)
    case MovePublish(id, io) => DoMovePublish(s, id, io)
    case MoveDeleteChunk(id, io) => DoMoveDeleteChunk(s, id, io)
    case MoveDeleteManifest(id, io) => DoMoveDeleteManifest(s, id, io)
    case MoveAbort(id) => s.(moves := Drop(s.moves, id))
    case ReadReplayManifest => DoReadReplayManifest(s)
    case ReadLiveManifest => DoReadLiveManifest(s)
    case ReadReplayChunk => DoReadReplayChunk(s)
    case ReadLiveChunk => DoReadLiveChunk(s)
    case Respond => DoRespond(s)
    case RequestFails => s.(reader := s.reader.(pc := Idle))
  }

  /** The state after a list of actions. */
  function Exec(s: State, acts: seq<Action>): State {
    if acts == [] then s else Step(Exec(s, acts[..|acts| - 1]), acts[|acts| - 1])
  }
}
