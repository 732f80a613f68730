/** What every run of the spectator pipeline keeps. */
module SpectatorProofs {
  import opened Common
  import opened SpectatorModel

  // ---- flattening ----------------------------------------------------------------

  lemma {:induction false} FlattenConcat(a: seq<Bytes>, b: seq<Bytes>)
    ensures Flatten(a + b) == Flatten(a) + Flatten(b)
    decreases |b|
  {
    if b == [] {
      assert a + b == a;
    } else {
      var init, both := b[..|b| - 1], a + b;
      FlattenConcat(a, init);
      assert both[..|both| - 1] == a + init;
      assert Flatten(both) == Flatten(a) + Flatten(init) + b[|b| - 1];
    }
  }

  lemma FlattenSnoc(a: seq<Bytes>, c: Bytes)
    ensures Flatten(a + [c]) == Flatten(a) + c
  {
    assert (a + [c])[..|a|] == a;
  }

  /** A list of chunks splits into what comes before n and what comes after. */
  lemma FlattenSplit(a: seq<Bytes>, n: nat)
    requires n <= |a|
    ensures Flatten(a) == Flatten(a[..n]) + Flatten(a[n..])
  {
    var front, back := a[..n], a[n..];
    assert a == front + back;
    FlattenConcat(front, back);
  }

  // ---- the invariant, component by component ---------------------------------------

  /** Acknowledged chunks, laid end to end, are exactly the stream up to offset. */
  ghost predicate UploaderInv(s: State) {
    var u := s.uploader;
    && |s.log| == u.seq_
    && u.offset <= |s.stream|
    && Flatten(s.log) == s.stream[..u.offset]
    && (forall i :: 0 <= i < |s.log| ==> s.log[i] != [])
    && (u.pc.Polled? ==> u.pc.data != [] && u.offset + |u.pc.data| <= |s.stream|
                         && u.pc.data == s.stream[u.offset..u.offset + |u.pc.data|])
    && (u.pc.ChunkStored? ==> u.seq_ > 0)
  }

  /** Every object that holds an acknowledged chunk holds its bytes, and one of the two
      prefixes always has it. */
  ghost predicate StoreInv(st: Store, log: seq<Bytes>) {
    && (forall i :: 0 <= i < |log| && i in st.live ==> st.live[i] == log[i])
    && (forall i :: i in st.replay ==> i < |log| && st.replay[i] == log[i])
    && (forall i :: 0 <= i < |log| && i !in st.live ==> i in st.replay)
    && (st.liveManifest.Some? ==> LiveManifestOk(st.liveManifest.value, |log|))
    && (st.replayManifest.Some? ==> FinalManifestOk(st.replayManifest.value, st))
  }

  ghost predicate LiveManifestOk(m: Manifest, acknowledged: nat) {
    0 < m.chunkCount <= acknowledged && m.latestSeq == m.chunkCount - 1 && !m.finalized
  }

  ghost predicate InReplay(st: Store, n: nat) {
    forall i :: 0 <= i < n ==> i in st.replay
  }

  ghost predicate FinalManifestOk(m: Manifest, st: Store) {
    m.finalized && 0 < m.chunkCount && m.latestSeq == m.chunkCount - 1 && InReplay(st, m.chunkCount)
  }

  ghost predicate MoveOk(mv: Move, st: Store, acknowledged: nat) {
    && LiveManifestOk(mv.m, acknowledged)
    && mv.next <= mv.m.chunkCount
    && (mv.Copying? ==> InReplay(st, mv.next))
    && (mv.Deleting? ==> InReplay(st, mv.m.chunkCount) && st.replayManifest.Some?)
  }

  ghost predicate MovesInv(s: State) {
    forall id :: id in s.moves ==> MoveOk(s.moves[id], s.store, |s.log|)
  }

  /** A manifest some request has read. */
  ghost predicate SeenOk(m: Manifest, st: Store, acknowledged: nat) {
    && m.chunkCount <= acknowledged
    && (m.finalized ==> FinalManifestOk(m, st))
  }

  ghost predicate DrainOk(r: Reader, m: Manifest, next: nat, body: Bytes, s: State) {
    && SeenOk(m, s.store, |s.log|)
    && r.cursor <= next <= m.chunkCount
    && body == Flatten(s.log[r.cursor..next])
  }

  ghost predicate ReaderInv(s: State) {
    var r := s.reader;
    && r.cursor <= |s.log|
    && (r.eof.Some? ==> FinalManifestOk(r.eof.value, s.store) && r.eof.value.chunkCount <= r.cursor)
    && (!r.lost ==> r.got == Flatten(s.log[..r.cursor]))
    && (r.lost ==> |r.got| < |Flatten(s.log[..r.cursor])|)
    && (r.pc.Draining? ==> DrainOk(r, r.pc.m, r.pc.next, r.pc.body, s))
    && (r.pc.AwaitingLive? ==> DrainOk(r, r.pc.m, r.pc.next, r.pc.body, s) && r.pc.next < r.pc.m.chunkCount
                               && (r.pc.deleted <==> r.pc.next !in s.store.live))
  }

  ghost predicate Inv(s: State) {
    UploaderInv(s) && StoreInv(s.store, s.log) && MovesInv(s) && ReaderInv(s)
  }

  // ---- preservation --------------------------------------------------------------

  lemma InitInv()
    ensures Inv(Init())
  {
  }

  lemma GameKeeps(s: State, data: Bytes)
    requires Inv(s)
    ensures Inv(Step(s, GameWrites(data)))
  {
    var t := s.stream + data;
    assert t[..s.uploader.offset] == s.stream[..s.uploader.offset];
    if s.uploader.pc.Polled? {
      var n := s.uploader.offset + |s.uploader.pc.data|;
      assert t[s.uploader.offset..n] == s.stream[s.uploader.offset..n];
    }
  }

  lemma PollKeeps(s: State, ok: bool)
    requires Inv(s)
    ensures Inv(DoPoll(s, ok))
  {
  }

  /** Writing the chunk in hand changes no chunk that was already acknowledged. */
  lemma StoreSurvivesUpload(st: Store, log: seq<Bytes>, data: Bytes, log': seq<Bytes>)
    requires StoreInv(st, log) && (log' == log || log' == log + [data])
    ensures StoreInv(st.(live := st.live[|log| := data]), log')
  {
    forall i | 0 <= i < |log| ensures log'[i] == log[i] {}
  }

  /** An acknowledged upload appends exactly the next bytes of the stream to the log. */
  lemma UploadAdvances(s: State)
    requires UploaderInv(s) && s.uploader.pc.Polled?
    ensures UploaderInv(DoPutChunk(s, Acked))
  {
    var t := DoPutChunk(s, Acked);
    FlattenSnoc(s.log, s.uploader.pc.data);
    assert s.stream[..s.uploader.offset] + s.uploader.pc.data == s.stream[..t.uploader.offset];
    forall i | 0 <= i < |t.log| ensures t.log[i] != [] {
      if i < |s.log| { assert t.log[i] == s.log[i]; }
    }
  }

  /** Moves look at the replay prefix and at how much is acknowledged, nothing else. */
  lemma MovesSurvive(s: State, t: State)
    requires MovesInv(s) && t.moves == s.moves && |s.log| <= |t.log|
    requires t.store.replay == s.store.replay && t.store.replayManifest == s.store.replayManifest
    ensures MovesInv(t)
  {
    forall id | id in t.moves ensures MoveOk(t.moves[id], t.store, |t.log|) {
      assert MoveOk(s.moves[id], s.store, |s.log|);
    }
  }

  lemma PutChunkKeeps(s: State, io: Io)
    requires Inv(s)
    ensures Inv(DoPutChunk(s, io))
  {
    if s.uploader.pc.Polled? {
      var t := DoPutChunk(s, io);
      MovesSurvive(s, t);
      LogGrows(s, t);
      match io
      case Acked =>
        StoreSurvivesUpload(s.store, s.log, s.uploader.pc.data, t.log);
        UploadAdvances(s);
      case LostReply => StoreSurvivesUpload(s.store, s.log, s.uploader.pc.data, t.log);
      case Dropped =>
    }
  }

  /** Appending to the log leaves the reader's half of the invariant alone. */
  lemma LogGrows(s: State, t: State)
    requires ReaderInv(s) && s.log <= t.log && s.reader == t.reader && |s.log| == s.uploader.seq_
    requires t.store == s.store.(live := t.store.live)
    requires forall i :: 0 <= i < |s.log| ==> (i in s.store.live <==> i in t.store.live)
    ensures ReaderInv(t)
  {
    var r := s.reader;
    assert t.log[..r.cursor] == s.log[..r.cursor];
    if r.pc.Draining? || r.pc.AwaitingLive? {
      assert t.log[r.cursor..r.pc.next] == s.log[r.cursor..r.pc.next];
    }
  }

  lemma PutManifestKeeps(s: State, io: Io)
    requires Inv(s)
    ensures Inv(DoPutManifest(s, io))
  {
  }

  lemma MoveBeginKeeps(s: State, id: nat)
    requires Inv(s)
    ensures Inv(DoMoveBegin(s, id))
  {
  }

  /** Copying an acknowledged chunk puts its own bytes under the replay prefix. */
  lemma StoreSurvivesCopy(st: Store, log: seq<Bytes>, n: nat)
    requires StoreInv(st, log) && n < |log| && n in st.live
    ensures StoreInv(st.(replay := st.replay[n := st.live[n]]), log)
  {
  }

  /** More in the replay prefix suits every other party. */
  lemma ReplayGrows(s: State, replay: map<nat, Bytes>)
    requires MovesInv(s) && ReaderInv(s) && s.store.replay.Keys <= replay.Keys
    ensures MovesInv(s.(store := s.store.(replay := replay)))
    ensures ReaderInv(s.(store := s.store.(replay := replay)))
  {
  }

  /** t is s after move id's next copy: the move is over, or it goes on with that chunk
      under the replay prefix. */
  ghost predicate CopiesNext(s: State, t: State, id: nat) {
    && id in s.moves && s.moves[id].Copying? && s.moves[id].next < s.moves[id].m.chunkCount
    && t.log == s.log && t.stream == s.stream && t.uploader == s.uploader && t.reader == s.reader
    && var n := s.moves[id].next;
       && (t.store == s.store || (n in s.store.live && t.store == s.store.(replay := s.store.replay[n := s.store.live[n]])))
       && (t.moves == Drop(s.moves, id)
           || (n in t.store.replay && t.moves == s.moves[id := s.moves[id].(next := n + 1)]))
  }

  lemma MoveCopiesNext(s: State, id: nat, io: Io)
    ensures var t := DoMoveCopy(s, id, io); t == s || CopiesNext(s, t, id)
  {
  }

  lemma MovesGoOn(s: State, t: State, id: nat)
    requires MovesInv(s) && id in s.moves && s.moves[id].Copying? && s.moves[id].next < s.moves[id].m.chunkCount
    requires t.log == s.log && t.store == s.store && s.moves[id].next in t.store.replay
    requires t.moves == s.moves[id := s.moves[id].(next := s.moves[id].next + 1)]
    ensures MovesInv(t)
  {
    assert MoveOk(s.moves[id], s.store, |s.log|);
  }

  lemma CopiesNextKeeps(s: State, t: State, id: nat)
    requires Inv(s) && CopiesNext(s, t, id)
    ensures Inv(t)
  {
    var n := s.moves[id].next;
    assert MoveOk(s.moves[id], s.store, |s.log|);
    var mid := s.(store := t.store);
    if t.store != s.store {
      StoreSurvivesCopy(s.store, s.log, n);
      ReplayGrows(s, s.store.replay[n := s.store.live[n]]);
    }
    assert MovesInv(mid) && ReaderInv(mid);
    if t.moves != Drop(s.moves, id) { MovesGoOn(mid, t, id); }
  }

  lemma MoveCopyKeeps(s: State, id: nat, io: Io)
    requires Inv(s)
    ensures Inv(DoMoveCopy(s, id, io))
  {
    MoveCopiesNext(s, id, io);
    if DoMoveCopy(s, id, io) != s { CopiesNextKeeps(s, DoMoveCopy(s, id, io), id); }
  }

  lemma MovePublishKeeps(s: State, id: nat, io: Io)
    requires Inv(s)
    ensures Inv(DoMovePublish(s, id, io))
  {
  }

  /** A live chunk may go once its copy is in the replay prefix. */
  lemma StoreSurvivesDelete(st: Store, log: seq<Bytes>, n: nat)
    requires StoreInv(st, log) && n in st.replay
    ensures StoreInv(st.(live := map k | k in st.live && k != n :: st.live[k]), log)
  {
  }

  /** No move minds that another one has deleted a live chunk. */
  lemma MovesSeeDelete(s: State, t: State, id: nat)
    requires MovesInv(s) && id in s.moves && s.moves[id].Deleting? && s.moves[id].next < s.moves[id].m.chunkCount
    requires t.log == s.log && t.store == s.store.(live := t.store.live)
    requires t.moves == s.moves[id := s.moves[id].(next := s.moves[id].next + 1)]
    ensures MovesInv(t)
  {
    forall k | k in t.moves ensures MoveOk(t.moves[k], t.store, |t.log|) {
      assert k in s.moves && MoveOk(s.moves[k], s.store, |s.log|);
    }
  }

  /** t is s after move id's next delete, which landed or did not. */
  ghost predicate DeletesNext(s: State, t: State, id: nat, landed: bool) {
    && id in s.moves && s.moves[id].Deleting? && s.moves[id].next < s.moves[id].m.chunkCount
    && t.log == s.log && t.stream == s.stream && t.uploader == s.uploader
    && t.moves == s.moves[id := s.moves[id].(next := s.moves[id].next + 1)]
    && var n := s.moves[id].next;
       if landed
       then t.store == s.store.(live := map k | k in s.store.live && k != n :: s.store.live[k])
            && t.reader == if s.reader.pc.AwaitingLive? && s.reader.pc.next == n
                           then s.reader.(pc := s.reader.pc.(deleted := true)) else s.reader
       else t.store == s.store && t.reader == s.reader
  }

  lemma DeletesNextKeeps(s: State, t: State, id: nat, landed: bool)
    requires Inv(s) && DeletesNext(s, t, id, landed)
    ensures Inv(t)
  {
    assert MoveOk(s.moves[id], s.store, |s.log|);
    StoreSurvivesDelete(s.store, s.log, s.moves[id].next);
    MovesSeeDelete(s, t, id);
    ReaderSeesDelete(s, t, s.moves[id].next, landed);
  }

  lemma MoveDeleteChunkKeeps(s: State, id: nat, io: Io)
    requires Inv(s)
    ensures Inv(DoMoveDeleteChunk(s, id, io))
  {
    var t := DoMoveDeleteChunk(s, id, io);
    MoveDeletesNext(s, id, io);
    if t != s { DeletesNextKeeps(s, t, id, io.Landed()); }
  }

  lemma MoveDeletesNext(s: State, id: nat, io: Io)
    ensures var t := DoMoveDeleteChunk(s, id, io); t == s || DeletesNext(s, t, id, io.Landed())
  {
  }

  /** What a reader has and is about to look up is not upset by a delete; a lookup between
      its two reads takes note of it. */
  lemma ReaderSeesDelete(s: State, t: State, n: nat, landed: bool)
    requires ReaderInv(s) && t.log == s.log && t.store == s.store.(live := t.store.live)
    requires if landed
             then t.store.live.Keys == s.store.live.Keys - {n}
                  && t.reader == if s.reader.pc.AwaitingLive? && s.reader.pc.next == n
                                 then s.reader.(pc := s.reader.pc.(deleted := true)) else s.reader
             else t.store.live == s.store.live && t.reader == s.reader
    ensures ReaderInv(t)
  {
  }

  lemma MoveDeleteManifestKeeps(s: State, id: nat, io: Io)
    requires Inv(s)
    ensures Inv(DoMoveDeleteManifest(s, id, io))
  {
  }

  lemma JudgeKeeps(s: State, m: Manifest)
    requires ReaderInv(s) && SeenOk(m, s.store, |s.log|)
    ensures ReaderInv(s.(reader := Judge(s.reader, m)))
  {
    assert s.log[s.reader.cursor..s.reader.cursor] == [];
  }

  lemma ManifestReadsKeep(s: State)
    requires StoreInv(s.store, s.log) && ReaderInv(s)
    ensures ReaderInv(DoReadReplayManifest(s)) && ReaderInv(DoReadLiveManifest(s))
  {
    if s.store.replayManifest.Some? {
      FinalManifestCounts(s.store, s.log);
      JudgeKeeps(s, s.store.replayManifest.value);
    }
    if s.store.liveManifest.Some? { JudgeKeeps(s, s.store.liveManifest.value); }
  }

  /** A finalized manifest never counts past the acknowledged chunks. */
  lemma FinalManifestCounts(st: Store, log: seq<Bytes>)
    requires StoreInv(st, log) && st.replayManifest.Some?
    ensures st.replayManifest.value.chunkCount <= |log|
  {
    assert st.replayManifest.value.chunkCount - 1 in st.replay;
  }

  /** One more chunk found: the body grows by the next logged chunk. */
  lemma DrainExtends(s: State, m: Manifest, next: nat, body: Bytes, chunk: Bytes)
    requires DrainOk(s.reader, m, next, body, s) && next < m.chunkCount
    requires chunk == s.log[next]
    ensures DrainOk(s.reader, m, next + 1, body + chunk, s)
  {
    var c := s.reader.cursor;
    assert s.log[c..next + 1] == s.log[c..next] + [chunk];
    FlattenSnoc(s.log[c..next], chunk);
  }

  lemma ReplayChunkReadKeeps(s: State)
    requires StoreInv(s.store, s.log) && ReaderInv(s)
    ensures ReaderInv(DoReadReplayChunk(s))
  {
    var pc := s.reader.pc;
    if pc.Draining? && pc.next < pc.m.chunkCount && pc.next in s.store.replay {
      DrainExtends(s, pc.m, pc.next, pc.body, s.store.replay[pc.next]);
    }
  }

  /** The live read either finds the logged bytes, or its chunk was deleted meanwhile and
      the answer stops at the gap. */
  lemma LiveChunkReadKeeps(s: State)
    requires UploaderInv(s) && StoreInv(s.store, s.log) && ReaderInv(s)
    ensures ReaderInv(DoReadLiveChunk(s))
  {
    var pc := s.reader.pc;
    if pc.AwaitingLive? {
      if pc.next in s.store.live {
        DrainExtends(s, pc.m, pc.next, pc.body, s.store.live[pc.next]);
      } else {
        AnswerKeeps(s, pc.m, pc.next, pc.body, true);
      }
    }
  }

  /** What chunks [cursor, count) hold, cut at next. */
  lemma AnswerBytes(log: seq<Bytes>, cursor: nat, next: nat, count: nat)
    requires cursor <= next <= count <= |log|
    ensures Flatten(log[..count]) == Flatten(log[..cursor]) + Flatten(log[cursor..next]) + Flatten(log[next..count])
  {
    assert log[..next] == log[..cursor] + log[cursor..next];
    assert log[..count] == log[..next] + log[next..count];
    FlattenConcat(log[..cursor], log[cursor..next]);
    FlattenConcat(log[..next], log[next..count]);
  }

  /** A non-empty list of non-empty chunks holds bytes. */
  lemma FlattenNonEmpty(chunks: seq<Bytes>)
    requires chunks != [] && chunks[|chunks| - 1] != []
    ensures |Flatten(chunks)| > 0
  {
  }

  /** Answering with body for the chunks up to next: complete exactly when next is the
      manifest's count. */
  lemma AnswerKeeps(s: State, m: Manifest, next: nat, body: Bytes, gap: bool)
    requires UploaderInv(s) && ReaderInv(s) && DrainOk(s.reader, m, next, body, s)
    requires gap <==> next < m.chunkCount
    ensures ReaderInv(s.(reader := Answer(s.reader.(lost := s.reader.lost || gap), m, body)))
  {
    AnswerBytes(s.log, s.reader.cursor, next, m.chunkCount);
    if gap {
      FlattenNonEmpty(s.log[next..m.chunkCount]);
    } else {
      assert s.log[next..m.chunkCount] == [];
    }
  }

  lemma RespondKeeps(s: State)
    requires UploaderInv(s) && ReaderInv(s)
    ensures ReaderInv(DoRespond(s))
  {
    var pc := s.reader.pc;
    if pc.Draining? && pc.next >= pc.m.chunkCount {
      AnswerKeeps(s, pc.m, pc.next, pc.body, false);
    }
  }

  /** A reader's step touches nothing but the reader. */
  lemma ReaderStepKeeps(s: State, t: State)
    requires Inv(s) && t == s.(reader := t.reader) && ReaderInv(t)
    ensures Inv(t)
  {
  }

  predicate OfUploader(a: Action) { a.GameWrites? || a.Poll? || a.PutChunk? || a.PutManifest? }

  predicate OfMove(a: Action) {
    a.MoveBegin? || a.MoveCopy? || a.MovePublish? || a.MoveDeleteChunk? || a.MoveDeleteManifest? || a.MoveAbort?
  }

  lemma UploaderStepKeeps(s: State, a: Action)
    requires Inv(s) && OfUploader(a)
    ensures Inv(Step(s, a))
  {
    match a
    case GameWrites(data) => GameKeeps(s, data);
    case Poll(ok) => PollKeeps(s, ok);
    case PutChunk(io) => PutChunkKeeps(s, io);
    case PutManifest(io) => PutManifestKeeps(s, io);
  }

  lemma MoveStepKeeps(s: State, a: Action)
    requires Inv(s) && OfMove(a)
    ensures Inv(Step(s, a))
  {
    match a
    case MoveBegin(id) => MoveBeginKeeps(s, id);
    case MoveCopy(id, io) => MoveCopyKeeps(s, id, io);
    case MovePublish(id, io) => MovePublishKeeps(s, id, io);
    case MoveDeleteChunk(id, io) => MoveDeleteChunkKeeps(s, id, io);
    case MoveDeleteManifest(id, io) => MoveDeleteManifestKeeps(s, id, io);
    case MoveAbort(id) =>
  }

  lemma ReaderActionKeeps(s: State, a: Action)
    requires Inv(s) && !OfUploader(a) && !OfMove(a)
    ensures Step(s, a) == s.(reader := Step(s, a).reader) && ReaderInv(Step(s, a))
  {
    match a
    case ReadReplayManifest => ManifestReadsKeep(s);
    case ReadLiveManifest => ManifestReadsKeep(s);
    case ReadReplayChunk => ReplayChunkReadKeeps(s);
    case ReadLiveChunk => LiveChunkReadKeeps(s);
    case Respond => RespondKeeps(s);
    case RequestFails =>
  }

  lemma StepKeeps(s: State, a: Action)
    requires Inv(s)
    ensures Inv(Step(s, a))
  {
    if OfUploader(a) {
      UploaderStepKeeps(s, a);
    } else if OfMove(a) {
      MoveStepKeeps(s, a);
    } else {
      ReaderActionKeeps(s, a);
      ReaderStepKeeps(s, Step(s, a));
    }
  }

  lemma {:induction false} ExecKeeps(s: State, acts: seq<Action>)
    requires Inv(s)
    ensures Inv(Exec(s, acts))
    decreases |acts|
  {
    if acts != [] {
      ExecKeeps(s, acts[..|acts| - 1]);
      StepKeeps(Exec(s, acts[..|acts| - 1]), acts[|acts| - 1]);
    }
  }

  lemma {:induction false} ExecConcat(s: State, a: seq<Action>, b: seq<Action>)
    ensures Exec(s, a + b) == Exec(Exec(s, a), b)
    decreases |b|
  {
    if b == [] {
      assert a + b == a;
    } else {
      ExecConcat(s, a, b[..|b| - 1]);
      assert (a + b)[..|a + b| - 1] == a + b[..|b| - 1];
    }
  }
}
