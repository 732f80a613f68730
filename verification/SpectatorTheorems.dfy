/** What spectators can rely on, over every run. */
module SpectatorTheorems {
  import opened Common
  import opened SpectatorModel
  import opened SpectatorProofs

  /** A manifest's chunks, all of them, laid end to end. */
  ghost function Counted(s: State, m: Manifest): Bytes
    requires m.chunkCount <= |s.log|
  {
    Flatten(s.log[..m.chunkCount])
  }

  /** The first chunks of the log are a prefix of the game server's stream. */
  lemma LogPrefixOfStream(s: State, n: nat)
    requires UploaderInv(s) && n <= |s.log|
    ensures Flatten(s.log[..n]) <= s.stream
  {
    FlattenSplit(s.log, n);
  }

  lemma FlattenPrefix(log: seq<Bytes>, a: nat, b: nat)
    requires a <= b <= |log|
    ensures Flatten(log[..a]) <= Flatten(log[..b])
  {
    FlattenSplit(log[..b], a);
    assert log[..b][..a] == log[..a];
  }

  /** In every interleaving, a spectator holds exactly the bytes of the chunks before its
      cursor -- no gap, repeat or reordering, hence a prefix of the stream -- if and only
      if no lookup of its lost a race with a delete; and an EOF names a finalized manifest
      every byte of which has then been received. */
  lemma SpectatorGetsPrefix(acts: seq<Action>)
    ensures var s := Exec(Init(), acts); var r := s.reader;
            && r.cursor <= |s.log|
            && (r.got == Flatten(s.log[..r.cursor]) <==> !r.lost)
            && (!r.lost ==> r.got <= s.stream)
            && (r.eof.Some? ==> r.eof.value.finalized && r.eof.value.chunkCount <= |s.log|)
            && (r.eof.Some? && !r.lost ==> Counted(s, r.eof.value) <= r.got)
  {
    InitInv();
    ExecKeeps(Init(), acts);
    var s := Exec(Init(), acts);
    LogPrefixOfStream(s, s.reader.cursor);
    if s.reader.eof.Some? {
      FlattenPrefix(s.log, s.reader.eof.value.chunkCount, s.reader.cursor);
    }
  }

  /** Between the two reads of a lookup, the live read will miss exactly when a delete of
      that chunk has landed since the replay read; the replay copy is there by then. */
  lemma LookupMissesIffDeleted(acts: seq<Action>)
    ensures var s := Exec(Init(), acts);
            s.reader.pc.AwaitingLive? ==>
              && (s.reader.pc.next !in s.store.live <==> s.reader.pc.deleted)
              && (s.reader.pc.deleted ==> s.reader.pc.next in s.store.replay)
  {
    InitInv();
    ExecKeeps(Init(), acts);
  }

  /** The run never interposes another party's step between the two reads of a lookup. */
  ghost predicate AtomicLookups(acts: seq<Action>) {
    forall k :: 0 <= k < |acts| && Exec(Init(), acts[..k]).reader.pc.AwaitingLive? ==>
      acts[k].ReadLiveChunk? || acts[k].RequestFails?
  }

  lemma AtomicStepLosesNothing(r: Reader, s: State, a: Action)
    requires s.reader == r && !r.lost && (r.pc.AwaitingLive? ==> !r.pc.deleted)
    requires r.pc.AwaitingLive? ==> a.ReadLiveChunk? || a.RequestFails?
    ensures var r' := Step(s, a).reader; !r'.lost && (r'.pc.AwaitingLive? ==> !r'.pc.deleted)
  {
  }

  lemma AtomicPrefix(acts: seq<Action>)
    requires acts != [] && AtomicLookups(acts)
    ensures AtomicLookups(acts[..|acts| - 1])
  {
    var init := acts[..|acts| - 1];
    forall k | 0 <= k < |init| && Exec(Init(), init[..k]).reader.pc.AwaitingLive?
      ensures init[k].ReadLiveChunk? || init[k].RequestFails?
    {
      assert acts[..k] == init[..k];
    }
  }

  lemma {:induction false} AtomicLookupsLoseNothing(acts: seq<Action>)
    requires AtomicLookups(acts)
    ensures var r := Exec(Init(), acts).reader;
            !r.lost && (r.pc.AwaitingLive? ==> !r.pc.deleted)
    decreases |acts|
  {
    if acts != [] {
      var init := acts[..|acts| - 1];
      AtomicPrefix(acts);
      AtomicLookupsLoseNothing(init);
      var s := Exec(Init(), init);
      AtomicStepLosesNothing(s.reader, s, acts[|init|]);
    }
  }

  /** With each chunk lookup taken as one read, the spectator's bytes are always a prefix of
      the stream, and an EOF is only ever sent to one who has all of a finalized manifest. */
  lemma AtomicSpectatorGetsPrefix(acts: seq<Action>)
    requires AtomicLookups(acts)
    ensures var s := Exec(Init(), acts); var r := s.reader;
            && r.cursor <= |s.log| && r.got == Flatten(s.log[..r.cursor]) && r.got <= s.stream
            && (r.eof.Some? ==> r.eof.value.finalized && r.eof.value.chunkCount <= |s.log|
                                && Counted(s, r.eof.value) <= r.got)
  {
    AtomicLookupsLoseNothing(acts);
    SpectatorGetsPrefix(acts);
  }

  // ---- the store refines a write-once log --------------------------------------------

  lemma StepOnlyAppends(s: State, a: Action)
    ensures s.log <= Step(s, a).log && s.stream <= Step(s, a).stream
  {
  }

  lemma {:induction false} ExecOnlyAppends(s: State, acts: seq<Action>)
    ensures s.log <= Exec(s, acts).log && s.stream <= Exec(s, acts).stream
    decreases |acts|
  {
    if acts != [] {
      ExecOnlyAppends(s, acts[..|acts| - 1]);
      StepOnlyAppends(Exec(s, acts[..|acts| - 1]), acts[|acts| - 1]);
    }
  }

  /** Whatever a live-to-replay move, an aborted one, overlapping ones or a late uploader
      have done so far and will still do: an acknowledged chunk number reads its logged
      bytes, and reads the same bytes for ever after. */
  lemma StoreIsWriteOnceLog(before: seq<Action>, after: seq<Action>)
    ensures var s, t := Exec(Init(), before), Exec(Init(), before + after);
            && s.log <= t.log
            && (forall n :: 0 <= n < |s.log| ==>
                  Lookup(s.store, n) == Some(s.log[n]) && Lookup(t.store, n) == Some(s.log[n]))
  {
    InitInv();
    ExecKeeps(Init(), before);
    ExecKeeps(Init(), before + after);
    ExecConcat(Init(), before, after);
    ExecOnlyAppends(Exec(Init(), before), after);
  }

  lemma StepKeepsAManifest(s: State, a: Action)
    requires MovesInv(s) && LookupManifest(s.store).Some?
    ensures LookupManifest(Step(s, a).store).Some?
  {
    if a.MoveDeleteManifest? && a.id in s.moves {
      assert MoveOk(s.moves[a.id], s.store, |s.log|);
    }
  }

  /** Every chunk a visible manifest counts can be read. */
  lemma ManifestIsReadable(s: State)
    requires Inv(s) && LookupManifest(s.store).Some?
    ensures var m := LookupManifest(s.store).value;
            && (forall n :: 0 <= n < m.chunkCount ==> Lookup(s.store, n).Some?)
            && (m.finalized ==> InReplay(s.store, m.chunkCount))
  {
    if s.store.replayManifest.Some? { FinalManifestCounts(s.store, s.log); }
  }

  /** Once there is a manifest to read there always is one, every chunk it counts can be
      read, and a finalized one has all its chunks under the replay prefix. */
  lemma {:induction false} ManifestNeverDisappears(s: State, acts: seq<Action>)
    requires Inv(s) && LookupManifest(s.store).Some?
    ensures var t := Exec(s, acts); var m := LookupManifest(t.store);
            && m.Some?
            && (forall n :: 0 <= n < m.value.chunkCount ==> Lookup(t.store, n).Some?)
            && (m.value.finalized ==> InReplay(t.store, m.value.chunkCount))
    decreases |acts|
  {
    if acts != [] {
      var init := acts[..|acts| - 1];
      ManifestNeverDisappears(s, init);
      ExecKeeps(s, init);
      StepKeepsAManifest(Exec(s, init), acts[|init|]);
    }
    ExecKeeps(s, acts);
    ManifestIsReadable(Exec(s, acts));
  }

  // ---- the window between the two reads is real --------------------------------------

  lemma FourSteps(s: State, a: Action, b: Action, c: Action, d: Action)
    ensures Exec(s, [a, b, c, d]) == Step(Step(Step(Step(s, a), b), c), d)
  {
    assert [a, b, c, d][..3] == [a, b, c] && [a, b, c][..2] == [a, b] && [a, b][..1] == [a] && [a][..0] == [];
    assert Exec(s, [a]) == Step(Exec(s, []), a);
    assert Exec(s, [a, b]) == Step(Exec(s, [a]), b);
    assert Exec(s, [a, b, c]) == Step(Exec(s, [a, b]), c);
  }

  /** One byte per chunk. Before the first chunk's manifest is replaced, the spectator reads
      it and misses chunk 0 under the replay prefix. */
  const UPLOAD_ONE: seq<Action> := [GameWrites([1]), Poll(true), PutChunk(Acked), PutManifest(Acked)]
  const MISS: seq<Action> := [ReadReplayManifest, ReadLiveManifest, ReadReplayChunk, GameWrites([2])]
  const UPLOAD_MORE: seq<Action> := [Poll(true), PutChunk(Acked), PutManifest(Acked), MoveBegin(0)]
  /** A whole move, up to the delete of chunk 0, fits between the two reads. */
  const ROTATE: seq<Action> := [MoveCopy(0, Acked), MoveCopy(0, Acked), MovePublish(0, Acked), MoveDeleteChunk(0, Acked)]
  const RESUME: seq<Action> := [ReadLiveChunk, ReadReplayManifest, ReadReplayChunk, Respond]

  const LOSING_RUN: seq<Action> := UPLOAD_ONE + (MISS + (UPLOAD_MORE + (ROTATE + RESUME)))

  function ReaderAt(pc: ReadPc): Reader {
    Reader(0, [], None, false, pc)
  }

  lemma LosingRunStarts()
    ensures Exec(Init(), UPLOAD_ONE)
         == State([1], Store(map[0 := [1]], map[], Some(Manifest(0, 1, false)), None), Uploader(1, 1, Waiting),
                  map[], ReaderAt(Idle), [[1]])
  {
    FourSteps(Init(), UPLOAD_ONE[0], UPLOAD_ONE[1], UPLOAD_ONE[2], UPLOAD_ONE[3]);
  }

  lemma LosingRunMisses()
    ensures Exec(Exec(Init(), UPLOAD_ONE), MISS)
         == State([1, 2], Store(map[0 := [1]], map[], Some(Manifest(0, 1, false)), None), Uploader(1, 1, Waiting),
                  map[], ReaderAt(AwaitingLive(Manifest(0, 1, false), 0, [], false)), [[1]])
  {
    LosingRunStarts();
    FourSteps(Exec(Init(), UPLOAD_ONE), MISS[0], MISS[1], MISS[2], MISS[3]);
  }

  lemma LosingRunUploadsMore(s: State)
    requires s == State([1, 2], Store(map[0 := [1]], map[], Some(Manifest(0, 1, false)), None), Uploader(1, 1, Waiting),
                        map[], ReaderAt(AwaitingLive(Manifest(0, 1, false), 0, [], false)), [[1]])
    ensures Exec(s, UPLOAD_MORE)
         == s.(store := Store(map[0 := [1], 1 := [2]], map[], Some(Manifest(1, 2, false)), None),
               uploader := Uploader(2, 2, Waiting), moves := map[0 := Copying(Manifest(1, 2, false), 0)], log := [[1], [2]])
  {
    FourSteps(s, UPLOAD_MORE[0], UPLOAD_MORE[1], UPLOAD_MORE[2], UPLOAD_MORE[3]);
  }

  lemma LosingRunMoves(s: State)
    requires s.store == Store(map[0 := [1], 1 := [2]], map[], Some(Manifest(1, 2, false)), None)
    requires s.moves == map[0 := Copying(Manifest(1, 2, false), 0)]
    requires s.reader == ReaderAt(AwaitingLive(Manifest(0, 1, false), 0, [], false))
    ensures Exec(s, ROTATE)
         == s.(store := Store(map[1 := [2]], map[0 := [1], 1 := [2]], Some(Manifest(1, 2, false)), Some(Manifest(1, 2, true))),
               moves := map[0 := Deleting(Manifest(1, 2, false), 1)],
               reader := ReaderAt(AwaitingLive(Manifest(0, 1, false), 0, [], true)))
  {
    FourSteps(s, ROTATE[0], ROTATE[1], ROTATE[2], ROTATE[3]);
  }

  lemma LosingRunResumes(s: State)
    requires s.store.replay == map[0 := [1], 1 := [2]] && 0 !in s.store.live
    requires s.store.replayManifest == Some(Manifest(1, 2, true))
    requires s.reader == ReaderAt(AwaitingLive(Manifest(0, 1, false), 0, [], true))
    ensures Exec(s, RESUME) == s.(reader := Reader(2, [2], Some(Manifest(1, 2, true)), true, Idle))
  {
    FourSteps(s, RESUME[0], RESUME[1], RESUME[2], RESUME[3]);
    assert Step(s, RESUME[0]).reader == Reader(1, [], None, true, Idle);
    var body: Bytes := [];
    assert body + [2] == [2];
  }

  lemma LosingRunInPieces(s: State)
    ensures Exec(s, LOSING_RUN) == Exec(Exec(Exec(Exec(Exec(s, UPLOAD_ONE), MISS), UPLOAD_MORE), ROTATE), RESUME)
  {
    ExecConcat(s, UPLOAD_ONE, MISS + (UPLOAD_MORE + (ROTATE + RESUME)));
    ExecConcat(Exec(s, UPLOAD_ONE), MISS, UPLOAD_MORE + (ROTATE + RESUME));
    ExecConcat(Exec(Exec(s, UPLOAD_ONE), MISS), UPLOAD_MORE, ROTATE + RESUME);
    ExecConcat(Exec(Exec(Exec(s, UPLOAD_ONE), MISS), UPLOAD_MORE), ROTATE, RESUME);
  }

  /** One run of the code at the granularity of single object reads in which a spectator is
      told the stream is over having received only the second of its two bytes. */
  lemma LookupsAreNotAtomic()
    ensures var s := Exec(Init(), LOSING_RUN);
            && s.stream == [1, 2] && s.reader.got == [2] && s.reader.lost
            && s.reader.eof == Some(Manifest(1, 2, true))
  {
    LosingRunMisses();
    var s := Exec(Exec(Init(), UPLOAD_ONE), MISS);
    LosingRunUploadsMore(s);
    LosingRunMoves(Exec(s, UPLOAD_MORE));
    LosingRunResumes(Exec(Exec(s, UPLOAD_MORE), ROTATE));
    LosingRunInPieces(Init());
  }
}
