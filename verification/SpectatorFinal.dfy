/** The finalized manifest under overlapping live-to-replay moves. */
module SpectatorFinal {
  import opened Common
  import opened SpectatorModel
  import opened SpectatorProofs
  import opened SpectatorTheorems

  /** How many chunks spectators are told the finished stream has. */
  function FinalCount(st: Store): nat {
    if st.replayManifest.Some? then st.replayManifest.value.chunkCount else 0
  }

  /** A step shortens the finished stream exactly if it publishes the manifest of a move that
      had read a shorter live manifest than the published one. */
  lemma StepShortensIff(s: State, a: Action)
    ensures FinalCount(Step(s, a).store) < FinalCount(s.store) <==>
              && a.MovePublish? && a.io.Landed() && a.id in s.moves && s.moves[a.id].Copying?
              && s.moves[a.id].m.chunkCount <= s.moves[a.id].next && s.moves[a.id].m.chunkCount < FinalCount(s.store)
  {
  }

  // ---- moves that do not overlap -------------------------------------------------------------------

  /** No move begins while another is under way. */
  ghost predicate OneMoveAtATime(acts: seq<Action>) {
    forall k :: 0 <= k < |acts| && acts[k].MoveBegin? ==> Exec(Init(), acts[..k]).moves == map[]
  }

  /** The published count is at most what the live manifest and a move in progress count. */
  ghost predicate Growing(s: State) {
    && (forall id, id' :: id in s.moves && id' in s.moves ==> id == id')
    && (s.store.liveManifest.Some? ==> FinalCount(s.store) <= s.store.liveManifest.value.chunkCount)
    && (forall id :: id in s.moves && s.moves[id].Copying? ==>
          && FinalCount(s.store) <= s.moves[id].m.chunkCount
          && (s.store.liveManifest.Some? ==> s.moves[id].m.chunkCount <= s.store.liveManifest.value.chunkCount))
  }

  lemma PutManifestGrows(s: State, io: Io)
    requires Inv(s) && Growing(s)
    ensures Growing(DoPutManifest(s, io))
  {
    if s.store.replayManifest.Some? { FinalManifestCounts(s.store, s.log); }
    forall id | id in s.moves ensures s.moves[id].m.chunkCount <= |s.log| {
      assert MoveOk(s.moves[id], s.store, |s.log|);
    }
  }

  lemma StepGrows(s: State, a: Action)
    requires Inv(s) && Growing(s) && (a.MoveBegin? ==> s.moves == map[])
    ensures Growing(Step(s, a))
  {
    match a
    case PutManifest(io) => PutManifestGrows(s, io);
    case MoveBegin(id) => BeginGrows(s, id);
    case MoveCopy(id, io) => CopyGrows(s, id, io);
    case MovePublish(id, io) => PublishGrows(s, id, io);
    case MoveDeleteChunk(id, io) => DeleteGrows(s, id, io);
    case _ => OtherGrows(s, a);
  }

  lemma BeginGrows(s: State, id: nat)
    requires Growing(s) && s.moves == map[]
    ensures Growing(DoMoveBegin(s, id))
  {
  }

  lemma CopyGrows(s: State, id: nat, io: Io)
    requires Growing(s)
    ensures Growing(DoMoveCopy(s, id, io))
  {
  }

  lemma PublishGrows(s: State, id: nat, io: Io)
    requires Growing(s)
    ensures Growing(DoMovePublish(s, id, io))
  {
  }

  lemma DeleteGrows(s: State, id: nat, io: Io)
    requires Growing(s)
    ensures Growing(DoMoveDeleteChunk(s, id, io))
  {
  }

  lemma OtherGrows(s: State, a: Action)
    requires Growing(s) && !a.PutManifest? && !a.MoveBegin? && !a.MoveCopy? && !a.MovePublish? && !a.MoveDeleteChunk?
    ensures Growing(Step(s, a))
  {
  }

  lemma PrefixOneAtATime(acts: seq<Action>, n: nat)
    requires OneMoveAtATime(acts) && n <= |acts|
    ensures OneMoveAtATime(acts[..n])
  {
    forall k | 0 <= k < n && acts[..n][k].MoveBegin? ensures Exec(Init(), acts[..n][..k]).moves == map[] {
      assert acts[..n][..k] == acts[..k];
    }
  }

  lemma {:induction false} ExecGrows(acts: seq<Action>)
    requires OneMoveAtATime(acts)
    ensures Inv(Exec(Init(), acts)) && Growing(Exec(Init(), acts))
    decreases |acts|
  {
    InitInv();
    ExecKeeps(Init(), acts);
    if acts != [] {
      var init := acts[..|acts| - 1];
      PrefixOneAtATime(acts, |acts| - 1);
      ExecGrows(init);
      StepGrows(Exec(Init(), init), acts[|acts| - 1]);
    }
  }

  /** While moves do not overlap, the finished stream never gets shorter. */
  lemma {:induction false} FinalNeverShrinks(acts: seq<Action>, n: nat)
    requires OneMoveAtATime(acts) && n <= |acts|
    ensures FinalCount(Exec(Init(), acts[..n]).store) <= FinalCount(Exec(Init(), acts).store)
    decreases |acts| - n
  {
    if n < |acts| {
      FinalNeverShrinks(acts, n + 1);
      var s := Exec(Init(), acts[..n]);
      PrefixOneAtATime(acts, n);
      ExecGrows(acts[..n]);
      assert acts[..n + 1][..n] == acts[..n];
      StepShortensIff(s, acts[n]);
    } else {
      assert acts[..n] == acts;
    }
  }

  // ---- moves that do -----------------------------------------------------------------------------------

  /** The first move reads a manifest of one chunk, the second one of two. */
  const SECOND_CHUNK: seq<Action> := [MoveBegin(0), GameWrites([2]), Poll(true), PutChunk(Acked)]
  const SECOND_MOVE: seq<Action> := [PutManifest(Acked), MoveBegin(1), MoveCopy(1, Acked), MoveCopy(1, Acked)]
  const BOTH_PUBLISH: seq<Action> := [MovePublish(1, Acked), MoveCopy(0, Acked), MovePublish(0, Acked), MoveAbort(0)]

  lemma SecondChunkIsStored(s: State)
    requires s == State([1], Store(map[0 := [1]], map[], Some(Manifest(0, 1, false)), None), Uploader(1, 1, Waiting),
                        map[], ReaderAt(Idle), [[1]])
    ensures Exec(s, SECOND_CHUNK)
         == State([1, 2], Store(map[0 := [1], 1 := [2]], map[], Some(Manifest(0, 1, false)), None), Uploader(2, 2, ChunkStored),
                  map[0 := Copying(Manifest(0, 1, false), 0)], ReaderAt(Idle), [[1], [2]])
  {
    FourSteps(s, SECOND_CHUNK[0], SECOND_CHUNK[1], SECOND_CHUNK[2], SECOND_CHUNK[3]);
  }

  lemma SecondMoveCopies(s: State)
    requires s.store == Store(map[0 := [1], 1 := [2]], map[], Some(Manifest(0, 1, false)), None)
    requires s.uploader == Uploader(2, 2, ChunkStored) && s.moves == map[0 := Copying(Manifest(0, 1, false), 0)]
    ensures Exec(s, SECOND_MOVE)
         == s.(store := Store(map[0 := [1], 1 := [2]], map[0 := [1], 1 := [2]], Some(Manifest(1, 2, false)), None),
               uploader := Uploader(2, 2, Waiting),
               moves := map[0 := Copying(Manifest(0, 1, false), 0), 1 := Copying(Manifest(1, 2, false), 2)])
  {
    FourSteps(s, SECOND_MOVE[0], SECOND_MOVE[1], SECOND_MOVE[2], SECOND_MOVE[3]);
  }

  lemma BothPublish(s: State)
    requires s.store == Store(map[0 := [1], 1 := [2]], map[0 := [1], 1 := [2]], Some(Manifest(1, 2, false)), None)
    requires s.moves == map[0 := Copying(Manifest(0, 1, false), 0), 1 := Copying(Manifest(1, 2, false), 2)]
    ensures Step(s, MovePublish(1, Acked)).store.replayManifest == Some(Manifest(1, 2, true))
    ensures Exec(s, BOTH_PUBLISH).store.replayManifest == Some(Manifest(0, 1, true)) && Exec(s, BOTH_PUBLISH).log == s.log
  {
    FourSteps(s, BOTH_PUBLISH[0], BOTH_PUBLISH[1], BOTH_PUBLISH[2], BOTH_PUBLISH[3]);
  }

  /** Two moves of one match overlap, as a report and a timeout can make them: the one that
      began earlier publishes last, and a stream whose two chunks are acknowledged and were
      both announced as final is announced with one. */
  lemma OverlappingMovesShrink()
    ensures var s := Exec(Exec(Exec(Init(), UPLOAD_ONE), SECOND_CHUNK), SECOND_MOVE);
            && Step(s, MovePublish(1, Acked)).store.replayManifest == Some(Manifest(1, 2, true))
            && Exec(s, BOTH_PUBLISH).store.replayManifest == Some(Manifest(0, 1, true))
            && Exec(s, BOTH_PUBLISH).log == [[1], [2]]
  {
    LosingRunStarts();
    SecondChunkIsStored(Exec(Init(), UPLOAD_ONE));
    SecondMoveCopies(Exec(Exec(Init(), UPLOAD_ONE), SECOND_CHUNK));
    BothPublish(Exec(Exec(Exec(Init(), UPLOAD_ONE), SECOND_CHUNK), SECOND_MOVE));
  }
}
