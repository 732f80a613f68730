/** Nothing stands in the way of a stream: while the calls succeed, every tick uploads the next
    bytes and counts them, a move publishes all of them, and a spectator receives them to the
    last byte and is told that this is the end. */
module SpectatorProgress {
  import opened Common
  import opened SpectatorModel
  import opened SpectatorProofs

  ghost predicate CanReach(s: State, t: State) { exists acts :: Exec(s, acts) == t }

  lemma ReachItself(s: State)
    ensures CanReach(s, s)
  {
    assert Exec(s, []) == s;
  }

  lemma ReachOn(s: State, t: State, a: Action)
    requires CanReach(s, t)
    ensures CanReach(s, Step(t, a))
  {
    var acts :| Exec(s, acts) == t;
    assert (acts + [a])[..|acts|] == acts;
    assert Exec(s, acts + [a]) == Step(t, a);
  }

  lemma ReachFurther(s: State, t: State, u: State)
    requires CanReach(s, t) && CanReach(t, u)
    ensures CanReach(s, u)
  {
    var a :| Exec(s, a) == t;
    var b :| Exec(t, b) == u;
    ExecConcat(s, a, b);
    assert Exec(s, a + b) == u;
  }

  // ---- the uploader -----------------------------------------------------------------------

  /** The bytes that one tick can take: at most 256 KiB of what was not uploaded yet. */
  function Unread(s: State): Bytes
    requires s.uploader.offset <= |s.stream|
  {
    s.stream[s.uploader.offset..if |s.stream| <= s.uploader.offset + 0x4_0000 then |s.stream| else s.uploader.offset + 0x4_0000]
  }

  /** s after the next bytes were uploaded as a chunk and counted. */
  function Uploaded(s: State): State
    requires s.uploader.offset <= |s.stream|
  {
    var n, data := s.uploader.seq_, Unread(s);
    s.(log := s.log + [data],
       uploader := Uploader(n + 1, s.uploader.offset + |data|, Waiting),
       store := s.store.(live := s.store.live[n := data], liveManifest := Some(Manifest(n, n + 1, false))))
  }

  /** A tick whose calls succeed uploads the next bytes of the file and counts them. */
  lemma TickUploads(s: State)
    requires s.uploader.pc.Waiting? && s.uploader.offset < |s.stream|
    ensures Step(Step(Step(s, Poll(true)), PutChunk(Acked)), PutManifest(Acked)) == Uploaded(s)
  {
    assert Step(s, Poll(true)).uploader.pc == Polled(Unread(s));
  }

  lemma TickReaches(s: State)
    requires s.uploader.pc.Waiting? && s.uploader.offset < |s.stream|
    ensures CanReach(s, Uploaded(s))
  {
    TickUploads(s);
    ReachItself(s);
    ReachOn(s, s, Poll(true));
    ReachOn(s, Step(s, Poll(true)), PutChunk(Acked));
    ReachOn(s, Step(Step(s, Poll(true)), PutChunk(Acked)), PutManifest(Acked));
  }

  /** Every acknowledged chunk is still under the live prefix. */
  ghost predicate LiveComplete(s: State) { forall n :: 0 <= n < |s.log| ==> n in s.store.live }

  /** Uploader and store have moved on, nothing else has. */
  ghost predicate OnlyUploads(s: State, t: State) {
    t.stream == s.stream && t.moves == s.moves && t.reader == s.reader && s.log <= t.log
  }

  lemma UploadsRest(s: State) returns (t: State)
    requires UploaderInv(s) && LiveComplete(s) && s.uploader.pc.Waiting? && s.uploader.offset < |s.stream|
    ensures CanReach(s, t) && OnlyUploads(s, t) && UploaderInv(t) && LiveComplete(t)
    ensures Flatten(t.log) == s.stream && t.store.liveManifest == Some(Manifest(|t.log| - 1, |t.log|, false))
    decreases |s.stream| - s.uploader.offset
  {
    t := Uploaded(s);
    TickReaches(s);
    UploadedKeeps(s);
    if t.uploader.offset < |t.stream| {
      var u := UploadsRest(t);
      ReachFurther(s, t, u);
      t := u;
    }
  }

  lemma UploadedKeeps(s: State)
    requires UploaderInv(s) && LiveComplete(s) && s.uploader.pc.Waiting? && s.uploader.offset < |s.stream|
    ensures var t := Uploaded(s);
            OnlyUploads(s, t) && UploaderInv(t) && LiveComplete(t) && (t.uploader.offset == |t.stream| ==> Flatten(t.log) == t.stream)
  {
    FlattenSnoc(s.log, Unread(s));
    assert s.stream[..s.uploader.offset] + Unread(s) == s.stream[..s.uploader.offset + |Unread(s)|];
  }

  // ---- the move ----------------------------------------------------------------------------

  /** s with move id at the given place and this replay prefix. */
  function MoveAt(s: State, id: nat, mv: Move, replay: map<nat, Bytes>): State {
    s.(moves := s.moves[id := mv], store := s.store.(replay := replay))
  }

  lemma CopiesRest(s: State, id: nat, m: Manifest, n: nat, replay: map<nat, Bytes>) returns (replay': map<nat, Bytes>)
    requires n <= m.chunkCount && forall k: nat :: k < m.chunkCount ==> k in s.store.live
    requires forall k: nat :: k < n ==> k in replay
    ensures CanReach(MoveAt(s, id, Copying(m, n), replay), MoveAt(s, id, Copying(m, m.chunkCount), replay'))
    ensures forall k: nat :: k < m.chunkCount ==> k in replay'
    decreases m.chunkCount - n
  {
    var s0 := MoveAt(s, id, Copying(m, n), replay);
    ReachItself(s0);
    if n == m.chunkCount { return replay; }
    var more := replay[n := s.store.live[n]];
    var s1 := MoveAt(s, id, Copying(m, n + 1), more);
    ReachOn(s0, s0, MoveCopy(id, Acked));
    assert s0.moves[id := Copying(m, n + 1)] == s1.moves;
    assert Step(s0, MoveCopy(id, Acked)) == s1;
    replay' := CopiesRest(s, id, m, n + 1, more);
    ReachFurther(s0, s1, MoveAt(s, id, Copying(m, m.chunkCount), replay'));
  }

  /** A move whose calls succeed publishes every counted chunk. */
  lemma MovePublishes(s: State, id: nat) returns (t: State)
    requires id !in s.moves && s.store.liveManifest.Some?
    requires forall k: nat :: k < s.store.liveManifest.value.chunkCount ==> k in s.store.live
    ensures CanReach(s, t) && t.stream == s.stream && t.log == s.log && t.reader == s.reader
    ensures t.store.replayManifest == Some(s.store.liveManifest.value.(finalized := true))
    ensures InReplay(t.store, s.store.liveManifest.value.chunkCount)
  {
    var m := s.store.liveManifest.value;
    ReachItself(s);
    ReachOn(s, s, MoveBegin(id));
    assert Step(s, MoveBegin(id)) == MoveAt(s, id, Copying(m, 0), s.store.replay);
    var replay := CopiesRest(s, id, m, 0, s.store.replay);
    var s1 := MoveAt(s, id, Copying(m, m.chunkCount), replay);
    ReachFurther(s, MoveAt(s, id, Copying(m, 0), s.store.replay), s1);
    ReachOn(s, s1, MovePublish(id, Acked));
    t := Step(s1, MovePublish(id, Acked));
  }

  // ---- the spectator --------------------------------------------------------------------------

  lemma DrainsRest(s: State) returns (t: State)
    requires s.reader.pc.Draining? && InReplay(s.store, s.reader.pc.m.chunkCount)
    ensures CanReach(s, t) && t.store == s.store && t.log == s.log && t.stream == s.stream
    ensures exists body :: t.reader == Answer(s.reader, s.reader.pc.m, body)
    decreases if s.reader.pc.next < s.reader.pc.m.chunkCount then s.reader.pc.m.chunkCount - s.reader.pc.next else 0
  {
    ReachItself(s);
    if s.reader.pc.next < s.reader.pc.m.chunkCount {
      var s1 := Step(s, ReadReplayChunk);
      ReachOn(s, s, ReadReplayChunk);
      t := DrainsRest(s1);
      ReachFurther(s, s1, t);
      var body :| t.reader == Answer(s1.reader, s1.reader.pc.m, body);
      assert t.reader == Answer(s.reader, s.reader.pc.m, body);
    } else {
      ReachOn(s, s, Respond);
      t := Step(s, Respond);
      assert t.reader == Answer(s.reader, s.reader.pc.m, s.reader.pc.body);
    }
  }

  /** With a finalized manifest to read, one request gets the rest and the end. */
  lemma RequestFinishes(s: State, m: Manifest) returns (t: State)
    requires s.reader.pc.Idle? && s.store.replayManifest == Some(m) && m.finalized && InReplay(s.store, m.chunkCount)
    ensures CanReach(s, t) && t.stream == s.stream && t.log == s.log
    ensures t.reader.eof == Some(m) && t.reader.lost == s.reader.lost
    ensures t.reader.cursor == if s.reader.cursor < m.chunkCount then m.chunkCount else s.reader.cursor
  {
    ReachItself(s);
    ReachOn(s, s, ReadReplayManifest);
    t := Step(s, ReadReplayManifest);
    if s.reader.cursor < m.chunkCount {
      var s1 := t;
      t := DrainsRest(s1);
      ReachFurther(s, s1, t);
    }
  }

  /** With nothing in between, the two reads of a manifest are its lookup: the replay copy if
      there is one, and otherwise the live one. */
  lemma ManifestLookupIsTwoReads(s: State)
    requires s.reader.pc.Idle? && (s.store.replayManifest.Some? ==> s.reader.cursor < s.store.replayManifest.value.chunkCount)
    ensures var m := LookupManifest(s.store);
            Step(Step(s, ReadReplayManifest), ReadLiveManifest).reader == if m.Some? then Judge(s.reader, m.value) else s.reader
  {
  }

  /** And the two reads of a chunk are its lookup. */
  lemma ChunkLookupIsTwoReads(s: State)
    requires s.reader.pc.Draining? && s.reader.pc.next < s.reader.pc.m.chunkCount
    ensures var pc, t := s.reader.pc, Step(s, ReadReplayChunk);
            var after := if t.reader.pc.AwaitingLive? then Step(t, ReadLiveChunk) else t;
            after.reader == if Lookup(s.store, pc.next).Some?
                            then s.reader.(pc := Draining(pc.m, pc.next + 1, pc.body + Lookup(s.store, pc.next).value))
                            else Answer(s.reader, pc.m, pc.body)
  {
  }

  // ---- together ----------------------------------------------------------------------------------

  /** Whatever was under way is dropped: the tick ends, and the request fails. */
  function Settled(s: State): State {
    Step(Step(Step(s, PutChunk(Dropped)), PutManifest(Dropped)), RequestFails)
  }

  lemma Settles(s: State)
    ensures CanReach(s, Settled(s))
    ensures var t := Settled(s);
            && t.uploader.pc.Waiting? && t.uploader.offset == s.uploader.offset && t.reader == s.reader.(pc := Idle)
            && t.stream == s.stream && t.log == s.log && t.store == s.store && t.moves == s.moves
  {
    ReachItself(s);
    ReachOn(s, s, PutChunk(Dropped));
    ReachOn(s, Step(s, PutChunk(Dropped)), PutManifest(Dropped));
    ReachOn(s, Step(Step(s, PutChunk(Dropped)), PutManifest(Dropped)), RequestFails);
  }

  lemma UploadedThenMoved(s: State, id: nat) returns (t: State)
    requires Inv(s) && LiveComplete(s) && id !in s.moves && s.uploader.pc.Waiting? && s.uploader.offset < |s.stream|
    ensures CanReach(s, t) && t.stream == s.stream && t.reader == s.reader && Flatten(t.log) == s.stream
    ensures t.store.replayManifest == Some(Manifest(|t.log| - 1, |t.log|, true)) && InReplay(t.store, |t.log|)
  {
    var s1 := UploadsRest(s);
    t := MovePublishes(s1, id);
    ReachFurther(s, s1, t);
  }

  /** From every reachable state in which the file holds bytes that were not uploaded yet and
      no live chunk was deleted, the stream can still arrive in full: the uploader catches up,
      a move publishes, and a spectator that lost no race holds exactly the stream and has
      been told that it ends there. */
  lemma StreamCanArrive(acts: seq<Action>, id: nat) returns (t: State)
    requires var s := Exec(Init(), acts);
             LiveComplete(s) && id !in s.moves && s.uploader.offset < |s.stream| && !s.reader.lost
    ensures CanReach(Exec(Init(), acts), t)
    ensures t.stream == Exec(Init(), acts).stream && t.reader.got == t.stream
    ensures t.reader.eof.Some? && t.reader.eof.value.finalized && t.reader.eof.value.chunkCount == |t.log|
  {
    var s := Exec(Init(), acts);
    InitInv();
    ExecKeeps(Init(), acts);
    Settles(s);
    ReachKeeps(s, Settled(s));
    var s1 := UploadedThenMoved(Settled(s), id);
    ReachFurther(s, Settled(s), s1);
    t := RequestFinishes(s1, Manifest(|s1.log| - 1, |s1.log|, true));
    ReachFurther(s, s1, t);
    ReachKeeps(s, t);
    assert t.log[..|t.log|] == t.log;
  }

  lemma ReachKeeps(s: State, t: State)
    requires Inv(s) && CanReach(s, t)
    ensures Inv(t)
  {
    var acts :| Exec(s, acts) == t;
    ExecKeeps(s, acts);
  }
}
