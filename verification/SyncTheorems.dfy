/** What every run of the synchronisation system keeps, and when the server catches up. */
module SyncTheorems {
  import opened Wrappers
  import opened TranscriptSessions
  import opened PluginRuntime
  import opened SyncProtocol

  function FileOf(files: Files, path: Path): Bytes {
    if path in files then files[path] else []
  }

  /** The session holds exactly the first `synced` bytes of the file, and so does its snapshot. */
  ghost predicate HoldsPrefix(files: Files, path: Path, s: Session) {
    && 0 <= s.synced <= |FileOf(files, path)|
    && Joined(s.chunks) == FileOf(files, path)[..s.synced]
    && (s.snapshot.Some? ==> s.snapshot.value.content == Joined(s.chunks))
  }

  ghost predicate HoldsWhole(files: Files, path: Path, s: Session) {
    HoldsPrefix(files, path, s) && s.synced == |FileOf(files, path)|
  }

  // ---------------------------------------------------------------- every run

  lemma {:induction false} RunsKeepSound(w: World, events: seq<Event>)
    requires Sound(w)
    ensures Sound(Exec(w, events))
    decreases |events|
  {
    hide Step, Sound;
    if events != [] {
      StepKeepsSound(w, events[0]);
      RunsKeepSound(Step(w, events[0]), events[1..]);
    }
  }

  /**
   Safety without any assumption on transcript paths: sessions are tiled and numbered, at most one
   is open per resume key, and each chunk is, byte for byte, what its file holds at its offsets.
   */
  lemma EveryRunIsSound(events: seq<Event>)
    ensures var w := Exec(EMPTY_WORLD, events);
            && TableOk(w.table)
            && (forall i, j :: 0 <= i < |w.table| && 0 <= j < |w.table[i].chunks| ==>
                  var c := w.table[i].chunks[j];
                  Slice(w.files, c.source, c.start, c.end, c.content))
  {
    RunsKeepSound(EMPTY_WORLD, events);
    var w := Exec(EMPTY_WORLD, events);
    forall i, j | 0 <= i < |w.table| && 0 <= j < |w.table[i].chunks|
      ensures var c := w.table[i].chunks[j]; Slice(w.files, c.source, c.start, c.end, c.content)
    {
      assert SessionSound(w.table[i], w.files);
    }
  }

  /**
   A session has a snapshot of version n + 1 for its n chunks, or neither snapshot nor chunks: a plugin is bound only
   by a reply, so nothing is ever uploaded to a session whose connect was cut off.
   */
  lemma EveryRunVersions(events: seq<Event>)
    ensures var t := Exec(EMPTY_WORLD, events).table;
            forall i :: 0 <= i < |t| ==>
                          || (t[i].snapshot.Some? && t[i].snapshot.value.version == |t[i].chunks| + 1)
                          || (t[i].snapshot.None? && t[i].chunks == [])
  {
    RunsKeepSound(EMPTY_WORLD, events);
    var w := Exec(EMPTY_WORLD, events);
    forall i | 0 <= i < |w.table|
      ensures VersionExact(w.table[i]) && SnapshotOk(w.table[i])
    {
      assert SessionSound(w.table[i], w.files) && SessionOk(w.table[i]);
    }
  }

  /** Every chunk a hook adds is that of an upload on record, so that it may be delivered again at any later time. */
  lemma SentRecords(w: World, k: ResumeKey, h: Hook)
    requires Sound(w)
    ensures var w' := Step(w, Run(k, h));
            && w.sent <= w'.sent
            && forall i :: 0 <= i < |w'.table| && w'.table[i].chunks != ChunksAt(w.table, i) ==>
                             exists u :: u in w'.sent && u.session == i
                                         && w'.table[i].chunks == ChunksAt(w.table, i) + [ChunkOf(u)]
  {
    hide RunHook, PostedBy;
    var p := PluginOf(w, k);
    FreshIsSound(w, k);
    HookKeeps(k, p, h, w.files, w.table);
    hide Sound, TableSound, Delivers, PostedSound;
    var w', posted := Step(w, Run(k, h)), PostedBy(k, p, h, w.files, w.table);
    forall i | 0 <= i < |w'.table| && w'.table[i].chunks != ChunksAt(w.table, i)
      ensures exists u :: u in w'.sent && u.session == i && w'.table[i].chunks == ChunksAt(w.table, i) + [ChunkOf(u)]
    {
      assert posted.value in w'.sent && posted.value.session == i;
    }
  }

  /** An upload on record delivered again is taken when it is still the next of its open session, and otherwise changes nothing. */
  lemma RedeliverIs(w: World, u: Upload)
    requires Sound(w) && u in w.sent
    ensures u.session < |w.table|
    ensures var s, t' := w.table[u.session], Step(w, Redeliver(u)).table;
            if s.status == Active && u.start == s.synced && u.sequence == |s.chunks| + 1
            then t'[u.session].chunks == s.chunks + [ChunkOf(u)] && forall i :: 0 <= i < |t'| && i != u.session ==> t'[i] == w.table[i]
            else t' == w.table
  {
    hide UploadChunk;
    assert UploadSound(u, w.table, w.files);
    UploadAccepted(w.table, u);
  }

  /** A tool use, a session start, and the end of a turn of a plugin that is not dirty send no upload; a tool use no request. */
  lemma SendsNothing(w: World, k: ResumeKey, h: Hook)
    requires h.OnPostToolUse? || h.OnSessionStart? || (h.OnStop? && !PluginOf(w, k).dirty)
    ensures Step(w, Run(k, h)).sent == w.sent
    ensures h.OnPostToolUse? ==> Step(w, Run(k, h)).table == w.table && RunHook(k, PluginOf(w, k), h, w.files, w.table).ok
  {
    hide Connect;
  }

  /** Connects and disconnects from elsewhere reach the server: afterwards a session of the key is open, or that one is closed. */
  lemma StraysLand(w: World, k: ResumeKey, conversation: Option<nat>, now: int, built: bool, id: nat)
    requires TableOk(w.table)
    ensures var t := Step(w, StrayConnect(k, conversation, now, built)).table;
            exists i :: 0 <= i < |t| && t[i].key == k && t[i].status == Active
    ensures id < |w.table| ==> Step(w, StrayDisconnect(id, now)).table[id].status == Closed
  {
    hide Connect, Disconnect, SessionOk;
    ConnectBinds(w.table, k, conversation, now, built);
    var t := Connect(w.table, k, conversation, now, built).table;
    if |t| > |w.table| {
      assert t[|w.table|].key == k && t[|w.table|].status == Active;
    } else {
      var i :| 0 <= i < |w.table| && w.table[i].key == k && w.table[i].status == Active;
      assert t[i].key == k && t[i].status == Active;
    }
    DisconnectCloses(w.table, id, now);
  }

  // ---------------------------------------------------------------- one transcript per session

  /** What the event uploads to a session, and the path it saves while bound to one, is that session's transcript. */
  ghost predicate FromHome(home: nat -> Path, w: World, e: Event) {
    e.Run? ==>
      var p := PluginOf(w, e.key);
      var posted := PostedBy(e.key, p, e.hook, w.files, w.table);
      && (posted.Some? ==> posted.value.source == home(posted.value.session))
      && AtHome(home, RunHook(e.key, p, e.hook, w.files, w.table).disk)
  }

  ghost predicate AtHome(home: nat -> Path, p: Plugin) {
    p.session.Some? && p.path.Some? ==> p.path.value == home(p.session.value)
  }

  /** So does every event of the run. */
  ghost predicate AllFromHome(home: nat -> Path, w: World, events: seq<Event>)
    decreases |events|
  {
    events != [] ==> FromHome(home, w, events[0]) && AllFromHome(home, Step(w, events[0]), events[1..])
  }

  /** Everything uploaded to a session came from its transcript. */
  ghost predicate Homed(home: nat -> Path, w: World) {
    && (forall i :: 0 <= i < |w.table| ==> ChunksFrom(home(i), w.table[i].chunks))
    && (forall u :: u in w.sent ==> u.source == home(u.session))
    && (forall k :: k in w.plugins ==> AtHome(home, w.plugins[k]))
  }

  ghost predicate ChunksFrom(path: Path, chunks: seq<Chunk>) {
    forall j :: 0 <= j < |chunks| ==> chunks[j].source == path
  }

  lemma AddsKeepsHomes(home: nat -> Path, t: Table, t': Table, posted: Option<Upload>)
    requires forall i :: 0 <= i < |t| ==> ChunksFrom(home(i), t[i].chunks)
    requires Adds(t, t', posted)
    requires posted.Some? ==> posted.value.source == home(posted.value.session)
    ensures forall i :: 0 <= i < |t'| ==> ChunksFrom(home(i), t'[i].chunks)
  {
    forall i | 0 <= i < |t'| ensures ChunksFrom(home(i), t'[i].chunks) {
      assert ChunksFrom(home(i), ChunksAt(t, i));
    }
  }

  /** A table change that leaves the plugins and messages alone. */
  lemma TableKeepsHomed(home: nat -> Path, w: World, t': Table, posted: Option<Upload>)
    requires Homed(home, w) && Adds(w.table, t', posted)
    requires posted.Some? ==> posted.value.source == home(posted.value.session)
    ensures Homed(home, w.(table := t'))
  {
    AddsKeepsHomes(home, w.table, t', posted);
    hide Adds, ChunksFrom, AtHome;
  }

  lemma HookKeepsHomed(home: nat -> Path, w: World, k: ResumeKey, h: Hook)
    requires Sound(w) && Homed(home, w) && FromHome(home, w, Run(k, h))
    ensures Homed(home, Step(w, Run(k, h)))
  {
    hide RunHook, PostedBy, AtHome, ChunksFrom;
    var p := PluginOf(w, k);
    FreshIsSound(w, k);
    HookKeeps(k, p, h, w.files, w.table);
    hide Sound, Delivers, PostedSound;
    AddsKeepsHomes(home, w.table, RunHook(k, p, h, w.files, w.table).table, PostedBy(k, p, h, w.files, w.table));
    hide Adds;
  }

  lemma SentIsSound(w: World, u: Upload)
    requires Sound(w) && u in w.sent
    ensures UploadSound(u, w.table, w.files)
  {
  }

  lemma StepKeepsHomed(home: nat -> Path, w: World, e: Event)
    requires Sound(w) && Homed(home, w) && FromHome(home, w, e)
    ensures Homed(home, Step(w, e))
  {
    assert TableSound(w.table, w.files);
    hide RunHook, PostedBy, UploadChunk, Connect, Disconnect, Appended, ChunksFrom, AtHome, Sound, TableSound, UploadSound, Adds;
    match e
    case Append(path, bytes) =>
    case Run(k, h) =>
      HookKeepsHomed(home, w, k, h);
    case Redeliver(u) =>
      if u in w.sent {
        SentIsSound(w, u);
        UploadStep(w.table, u, w.files);
        TableKeepsHomed(home, w, Settled(w.table, UploadChunk(w.table, u)), Some(u));
      }
    case StrayConnect(k, c, now, built) =>
      ConnectAdds(w.table, w.files, k, c, now, built);
      TableKeepsHomed(home, w, Connect(w.table, k, c, now, built).table, None);
    case StrayDisconnect(id, now) =>
      DisconnectAdds(w.table, w.files, id, now);
      TableKeepsHomed(home, w, Settled(w.table, Disconnect(w.table, id, now)), None);
  }

  lemma ConnectAdds(t: Table, files: Files, k: ResumeKey, c: Option<nat>, now: int, built: bool)
    requires TableSound(t, files)
    ensures Adds(t, Connect(t, k, c, now, built).table, None)
  {
    hide Connect, TableSound;
    ConnectStep(t, k, c, now, built, files);
  }

  lemma DisconnectAdds(t: Table, files: Files, id: nat, now: int)
    requires TableSound(t, files)
    ensures Adds(t, Settled(t, Disconnect(t, id, now)), None)
  {
    hide Disconnect, TableSound;
    DisconnectStep(t, id, now, files);
  }

  lemma {:induction false} JoinedIsPrefix(files: Files, path: Path, chunks: seq<Chunk>)
    requires Tiled(chunks)
    requires forall i :: 0 <= i < |chunks| ==>
                           chunks[i].source == path
                           && Slice(files, path, chunks[i].start, chunks[i].end, chunks[i].content)
    ensures 0 <= Cut(chunks, |chunks|) <= |FileOf(files, path)|
    ensures Joined(chunks) == FileOf(files, path)[..Cut(chunks, |chunks|)]
    decreases |chunks|
  {
    if chunks != [] {
      var n := |chunks| - 1;
      TiledPrefix(chunks);
      assert Adjacent(chunks, n);
      JoinedIsPrefix(files, path, chunks[..n]);
      assert chunks[n].source == path;
      assert Cut(chunks[..n], n) == chunks[n].start;
      var f := files[path];
      assert f[..chunks[n].start] + f[chunks[n].start..chunks[n].end] == f[..chunks[n].end];
    }
  }

  lemma HomedHoldsPrefix(home: nat -> Path, w: World, i: nat)
    requires Sound(w) && Homed(home, w) && i < |w.table|
    ensures HoldsPrefix(w.files, home(i), w.table[i])
  {
    var s := w.table[i];
    assert SessionOk(s);
    assert SessionSound(s, w.files);
    assert ChunksFrom(home(i), s.chunks);
    JoinedIsPrefix(w.files, home(i), s.chunks);
  }

  /** With one transcript per session, aligning after a push never moves the offset forward. */
  lemma SteadyNoDrift(home: nat -> Path, w: World, e: Event)
    requires Sound(w) && Homed(home, w)
    ensures NoDrift(w, e)
  {
    if e.Run? && e.hook.OnPush? && PluginOf(w, e.key).session.Some? {
      var p := PluginOf(w, e.key);
      var s := p.session.value;
      if s < |w.table| {
        assert AtHome(home, p) && SessionOk(w.table[s]);
        HomedHoldsPrefix(home, w, s);
        if p.path.None? {
          assert !Authored(w, e.key);
        }
      }
    }
  }

  lemma {:induction false} SteadyRunsKeep(home: nat -> Path, w: World, events: seq<Event>)
    requires Sound(w) && CursorsOk(w) && Homed(home, w) && AllFromHome(home, w, events)
    ensures Sound(Exec(w, events)) && CursorsOk(Exec(w, events)) && Homed(home, Exec(w, events))
    decreases |events|
  {
    hide Step, Sound, Homed, FromHome, CursorsOk, NoDrift;
    if events != [] {
      SteadyNoDrift(home, w, events[0]);
      StepKeepsSound(w, events[0]);
      StepKeepsHomed(home, w, events[0]);
      SteadyRunsKeep(home, Step(w, events[0]), events[1..]);
    }
  }

  /**
   Transcript safety: in every run in which each session has one append-only transcript, every session and its
   snapshot hold exactly a prefix of that transcript, and every bound plugin's (offset, next sequence) is the
   cursor after some prefix of its session's chunks.
   */
  lemma TranscriptSafety(home: nat -> Path, events: seq<Event>)
    requires AllFromHome(home, EMPTY_WORLD, events)
    ensures var w := Exec(EMPTY_WORLD, events);
            && OneActivePerKey(w.table)
            && (forall i :: 0 <= i < |w.table| ==> HoldsPrefix(w.files, home(i), w.table[i]))
            && (forall k :: k in w.plugins ==> CursorOk(w.plugins[k], w.table))
  {
    SteadyRunsKeep(home, EMPTY_WORLD, events);
    var w := Exec(EMPTY_WORLD, events);
    forall i | 0 <= i < |w.table| ensures HoldsPrefix(w.files, home(i), w.table[i]) {
      HomedHoldsPrefix(home, w, i);
    }
  }

  // ---------------------------------------------------------------- when an upload is accepted

  /** A bound plugin's upload is accepted exactly when its session is open and it has seen every chunk. */
  lemma AcceptedIffInStep(w: World, k: ResumeKey, force: bool)
    requires TableOk(w.table) && CursorOk(PluginOf(w, k), w.table)
    requires Posted(force, PluginOf(w, k), w.files).Some?
    requires 0 <= PluginOf(w, k).offset
    ensures var p := PluginOf(w, k);
            UploadChunk(w.table, Posted(force, p, w.files).value).Success? <==>
            && w.table[p.session.value].status == Active
            && p.nextSequence == |w.table[p.session.value].chunks| + 1
  {
    hide UploadChunk;
    var p := PluginOf(w, k);
    UploadAccepted(w.table, Posted(force, p, w.files).value);
    assert SessionOk(w.table[p.session.value]);
  }

  ghost predicate Stale(p: Plugin, t: Table) {
    p.session.Some? && p.session.value < |t| && p.nextSequence <= |t[p.session.value].chunks|
  }

  ghost predicate SameCursor(p: Plugin, q: Plugin) {
    p.session == q.session && p.offset == q.offset && p.nextSequence == q.nextSequence
  }

  /** A plugin that missed a reply can neither duplicate nor skip bytes: no hook short of a session start adds a chunk. */
  lemma StaleAddsNothing(w: World, k: ResumeKey, h: Hook)
    requires Sound(w) && k in w.plugins && Stale(w.plugins[k], w.table) && !h.OnSessionStart?
    ensures var t' := Step(w, Run(k, h)).table;
            |t'| == |w.table| && forall i :: 0 <= i < |t'| ==> t'[i].chunks == w.table[i].chunks
  {
    hide Flush, Posted, PostedBy, UploadChunk, Sound;
    var p := w.plugins[k];
    match h
    case OnPostToolUse(payload) =>
    case OnStop(payload, fate) =>
      StaleFlush(w, k, false, if payload.Some? then p.(path := payload) else p, fate);
    case OnPreCompact(payload, fate) =>
      StaleFlush(w, k, true, if payload.Some? then p.(path := payload, dirty := true) else p, fate);
    case OnSessionEnd(payload, now, fate, closeFate) =>
      StaleFlush(w, k, true, if payload.Some? then p.(path := payload, dirty := true) else p, fate);
    case OnPush(c, now, built, connectFate, fate, readFate) =>
      StaleFlush(w, k, true, p.(dirty := true), fate);
  }

  /** While it is told of its session's own transcript the whole table stays, and so does the plugin's cursor. */
  lemma StaleStaysPut(home: nat -> Path, w: World, k: ResumeKey, h: Hook)
    requires Sound(w) && CursorsOk(w) && Homed(home, w)
    requires k in w.plugins && Stale(w.plugins[k], w.table) && !h.OnSessionStart?
    requires h.PayloadPath().Some? ==> h.PayloadPath().value == home(w.plugins[k].session.value)
    ensures Step(w, Run(k, h)).table == w.table
    ensures SameCursor(Step(w, Run(k, h)).plugins[k], w.plugins[k])
  {
    var p := w.plugins[k];
    StaleHasBytes(home, w, k);
    match h
    case OnPostToolUse(payload) =>
    case OnStop(payload, fate) =>
      StaleFlush(w, k, false, if payload.Some? then p.(path := payload) else p, fate);
    case OnPreCompact(payload, fate) =>
      StaleFlush(w, k, true, if payload.Some? then p.(path := payload, dirty := true) else p, fate);
    case OnSessionEnd(payload, now, fate, closeFate) =>
      StaleFlush(w, k, true, if payload.Some? then p.(path := payload, dirty := true) else p, fate);
    case OnPush(c, now, built, connectFate, fate, readFate) =>
      StaleFlush(w, k, true, p.(dirty := true), fate);
  }

  /** The bytes a stale plugin has not seen acknowledged are in its transcript. */
  lemma StaleHasBytes(home: nat -> Path, w: World, k: ResumeKey)
    requires Sound(w) && CursorsOk(w) && Homed(home, w) && k in w.plugins && Stale(w.plugins[k], w.table)
    ensures var p := w.plugins[k];
            p.path == Some(home(p.session.value)) && 0 <= p.offset < |FileOf(w.files, home(p.session.value))|
  {
    var p := w.plugins[k];
    var s := p.session.value;
    assert SessionOk(w.table[s]) && AtHome(home, p);
    HomedHoldsPrefix(home, w, s);
    CutsIncrease(w.table[s].chunks, p.nextSequence - 1, |w.table[s].chunks|);
    assert Authored(w, w.table[s].key);
  }

  /** A stale flush never changes the table, and fails when there is something to read. */
  lemma StaleFlush(w: World, k: ResumeKey, force: bool, memory: Plugin, fate: Fate)
    requires Sound(w) && k in w.plugins
    requires Stale(w.plugins[k], w.table) && SameCursor(memory, w.plugins[k])
    ensures forall disk :: Flush(force, memory, disk, w.files, w.table, fate).table == w.table
    ensures (force || memory.dirty) && memory.path.Some? && 0 <= memory.offset < |FileOf(w.files, memory.path.value)| ==>
              forall disk :: !Flush(force, memory, disk, w.files, w.table, fate).ok
                             && Flush(force, memory, disk, w.files, w.table, fate).disk == disk
  {
    hide UploadChunk;
    var posted := Posted(force, memory, w.files);
    if posted.Some? {
      UploadAccepted(w.table, posted.value);
    }
  }

  // ---------------------------------------------------------------- catching up

  /** The plugin has seen every chunk of the session. */
  ghost predicate AtEnd(p: Plugin, s: Session) {
    p.offset == s.synced && p.nextSequence == |s.chunks| + 1
  }

  /**
   A forced flush of a file that returns normally leaves the session with the whole file exactly when it held a
   prefix of it, and the plugin is then at the session's end.
   */
  lemma FlushReturnedMeansWhole(t: Table, files: Files, path: Path, memory: Plugin, disk: Plugin, fate: Fate)
    requires TableOk(t) && memory.session.Some? && CursorOk(memory, t) && memory.path == Some(path)
    ensures var out, s := Flush(true, memory, disk, files, t, fate), memory.session.value;
            out.ok ==>
              && (HoldsWhole(files, path, out.table[s]) <==> HoldsPrefix(files, path, t[s]))
              && (HoldsPrefix(files, path, t[s]) || AtEnd(memory, t[s]) ==> AtEnd(out.disk, out.table[s]))
              && |out.table| == |t| && out.disk == out.memory && !out.disk.dirty
              && out.disk.session == memory.session && out.disk.path == memory.path
              && out.table[s].status == t[s].status && out.table[s].key == t[s].key
  {
    hide UploadChunk, TableOk, HoldsPrefix;
    var s := memory.session.value;
    SoundSession(t, s);
    CutsNonNegative(t[s].chunks, memory.nextSequence - 1);
    var posted := Posted(true, memory, files);
    if posted.None? {
      NothingLeft(files, path, memory, t[s]);
    } else if UploadChunk(t, posted.value).Success? {
      AcceptedTailIff(t, files, path, posted.value);
    }
  }

  /** With nothing to read past its cursor, a session that holds a prefix of the file holds all of it. */
  lemma NothingLeft(files: Files, path: Path, p: Plugin, s: Session)
    requires SessionOk(s) && 1 <= p.nextSequence <= |s.chunks| + 1 && p.offset == Cut(s.chunks, p.nextSequence - 1)
    requires p.path == Some(path) && p.session.Some? && Posted(true, p, files).None?
    ensures HoldsPrefix(files, path, s) ==> HoldsWhole(files, path, s) && AtEnd(p, s)
  {
    CutsNonNegative(s.chunks, p.nextSequence - 1);
    if p.nextSequence <= |s.chunks| {
      CutsIncrease(s.chunks, p.nextSequence - 1, |s.chunks|);
    }
  }

  lemma SoundSession(t: Table, s: nat)
    requires TableOk(t) && s < |t|
    ensures SessionOk(t[s])
  {
  }

  /** An accepted upload of the rest of the file completes the file exactly when the session held the part before it. */
  lemma AcceptedTailIff(t: Table, files: Files, path: Path, u: Upload)
    requires TableOk(t) && UploadChunk(t, u).Success?
    requires path in files && 0 <= u.start < u.end == |files[path]| && u.content == files[path][u.start..]
    ensures u.session < |t|
    ensures var s' := UploadChunk(t, u).value[u.session];
            && (HoldsWhole(files, path, s') <==> HoldsPrefix(files, path, t[u.session]))
            && |s'.chunks| == u.sequence && s'.synced == u.end
            && s'.status == t[u.session].status && s'.key == t[u.session].key
            && |UploadChunk(t, u).value| == |t|
  {
    hide UploadChunk;
    UploadAccepted(t, u);
    var s, f := t[u.session], files[path];
    assert SessionOk(s);
    JoinedAppend(s.chunks, ChunkOf(u));
    assert f[..u.start] + f[u.start..] == f;
    if Joined(s.chunks) + u.content == f {
      assert f[..u.start] == (Joined(s.chunks) + u.content)[..u.start] == Joined(s.chunks);
    }
  }

  /** From an in-step cursor on an open session, an answered forced flush always returns normally. */
  lemma FlushFromCursorReturns(memory: Plugin, disk: Plugin, files: Files, t: Table)
    requires TableOk(t) && memory.session.Some? && memory.session.value < |t| && memory.path.Some?
    requires t[memory.session.value].status == Active
    requires 0 <= memory.offset == t[memory.session.value].synced
    requires memory.nextSequence == |t[memory.session.value].chunks| + 1
    ensures Flush(true, memory, disk, files, t, Answered).ok
  {
    hide UploadChunk;
    var posted := Posted(true, memory, files);
    if posted.Some? {
      UploadAccepted(t, posted.value);
    }
  }

  /** The plugin is bound to an open session and has seen every chunk of it. */
  ghost predicate InStepWithOpen(w: World, k: ResumeKey) {
    && k in w.plugins && w.plugins[k].session.Some? && w.plugins[k].session.value < |w.table|
    && var s := w.table[w.plugins[k].session.value];
    s.status == Active && AtEnd(w.plugins[k], s)
  }

  /** The transcript a hook leaves the plugin with: the one it names, or else the one saved before. */
  function Told(payload: Option<Path>, before: Option<Path>): Option<Path> {
    if payload.Some? then payload else before
  }

  /** The session is as it was but for what the upload of its transcript adds; no other session is touched. */
  ghost predicate CaughtUp(w: World, w': World, s: nat, path: Option<Path>) {
    && s < |w.table| == |w'.table| && w'.files == w.files
    && (forall i :: 0 <= i < |w.table| && i != s ==> w'.table[i] == w.table[i])
    && w'.table[s].key == w.table[s].key
    && (path.None? ==> w'.table[s].chunks == w.table[s].chunks)
    && (path.Some? ==> (HoldsWhole(w.files, path.value, w'.table[s]) <==> HoldsPrefix(w.files, path.value, w.table[s])))
  }

  lemma AnsweredFlush(w: World, k: ResumeKey, force: bool, memory: Plugin, disk: Plugin)
    requires TableOk(w.table) && InStepWithOpen(w, k) && SameCursor(memory, w.plugins[k]) && (force || memory.dirty)
    ensures var out, s := Flush(force, memory, disk, w.files, w.table, Answered), memory.session.value;
            && out.ok && out.disk == out.memory && !out.disk.dirty && out.disk.session == memory.session
            && out.disk.path == memory.path && |out.table| == |w.table|
            && AtEnd(out.disk, out.table[s]) && out.table[s].status == Active
            && CaughtUp(w, w.(table := out.table), s, memory.path)
  {
    hide UploadChunk, TableOk, HoldsPrefix, HoldsWhole;
    var s := memory.session.value;
    SoundSession(w.table, s);
    BoundAtCursor(w.table[s]);
    assert Flush(force, memory, disk, w.files, w.table, Answered) == Flush(true, memory, disk, w.files, w.table, Answered);
    if memory.path.Some? {
      FlushFromCursorReturns(memory, disk, w.files, w.table);
      FlushReturnedMeansWhole(w.table, w.files, memory.path.value, memory, disk, Answered);
      FlushOwnSession(memory, disk, w.files, w.table);
    }
  }

  lemma FlushOwnSession(memory: Plugin, disk: Plugin, files: Files, t: Table)
    requires TableOk(t) && memory.session.Some?
    ensures var out := Flush(true, memory, disk, files, t, Answered);
            && |out.table| == |t| && forall i :: 0 <= i < |t| && i != memory.session.value ==> out.table[i] == t[i]
  {
    hide UploadChunk;
    var posted := Posted(true, memory, files);
    if posted.Some? {
      UploadAccepted(t, posted.value);
    }
  }

  /** A hook whose requests are all lost leaves the server's table as it is. */
  predicate AllLost(h: Hook) {
    match h
    case OnSessionStart(_, _, _, _, fate) => fate == RequestLost
    case OnPostToolUse(_) => true
    case OnStop(_, fate) => fate == RequestLost
    case OnPreCompact(_, fate) => fate == RequestLost
    case OnSessionEnd(_, _, fate, closeFate) => fate == RequestLost && closeFate == RequestLost
    case OnPush(_, _, _, connectFate, fate, _) => connectFate == RequestLost && fate == RequestLost
  }

  lemma LostChangesNoTable(w: World, k: ResumeKey, h: Hook)
    requires AllLost(h)
    ensures Step(w, Run(k, h)).table == w.table
  {
    hide UploadChunk, Connect, Disconnect;
  }

  /** A flush whose reply is lost, or that dies before saving, has reached the server like an answered one. */
  lemma UnansweredLands(w: World, k: ResumeKey, payload: Option<Path>, fate: Fate)
    requires TableOk(w.table) && InStepWithOpen(w, k) && fate != RequestLost
    ensures var e, answered := Run(k, OnPreCompact(payload, fate)), Run(k, OnPreCompact(payload, Answered));
            && Step(w, e).table == Step(w, answered).table
            && (Step(w, e).table != w.table && fate != Answered ==>
                  SameCursor(Step(w, e).plugins[k], w.plugins[k])
                  && !RunHook(k, w.plugins[k], e.hook, w.files, w.table).ok)
  {
    hide UploadChunk, TableOk;
    var p := if payload.Some? then w.plugins[k].(path := payload, dirty := true) else w.plugins[k];
    var posted := Posted(true, p, w.files);
    if posted.Some? {
      UploadAccepted(w.table, posted.value);
    }
  }

  /**
   A turn: after a tool use the end of the turn leaves the plugin clean and at its session's end, and the session holds the
   whole of the transcript last named exactly when it held a prefix of it before.
   */
  lemma TurnCatchesUp(w: World, k: ResumeKey, used: Option<Path>, payload: Option<Path>)
    requires TableOk(w.table) && InStepWithOpen(w, k)
    ensures var w1 := Step(w, Run(k, OnPostToolUse(used)));
            var w2 := Step(w1, Run(k, OnStop(payload, Answered)));
            var s, path := w.plugins[k].session.value, Told(payload, Told(used, w.plugins[k].path));
            && InStepWithOpen(w2, k) && w2.plugins[k].session == Some(s) && !w2.plugins[k].dirty
            && w2.plugins[k].path == path && CaughtUp(w, w2, s, path)
  {
    hide Flush, TableOk, HoldsPrefix, HoldsWhole, Posted;
    var w1 := Step(w, Run(k, OnPostToolUse(used)));
    assert TableOk(w1.table);
    StopCatchesUp(w1, k, payload);
  }

  /** The end of a turn uploads for a dirty plugin, and for another neither changes the table nor the cursor. */
  lemma StopCatchesUp(w: World, k: ResumeKey, payload: Option<Path>)
    requires TableOk(w.table) && InStepWithOpen(w, k)
    ensures var w' := Step(w, Run(k, OnStop(payload, Answered)));
            var s, path := w.plugins[k].session.value, Told(payload, w.plugins[k].path);
            && InStepWithOpen(w', k) && w'.plugins[k].session == Some(s)
            && !w'.plugins[k].dirty && w'.plugins[k].path == path
            && (w.plugins[k].dirty ==> CaughtUp(w, w', s, path))
            && (!w.plugins[k].dirty ==> w'.table == w.table)
            && RunHook(k, w.plugins[k], OnStop(payload, Answered), w.files, w.table).ok
  {
    hide Flush, TableOk, HoldsPrefix, HoldsWhole, Posted;
    var p := w.plugins[k].(path := Told(payload, w.plugins[k].path));
    if p.dirty {
      AnsweredFlush(w, k, false, p, p);
    }
  }

  /**
   A session end catches up too, then closes the session, unless that request is lost, and unbinds the plugin, unless it dies
   before it has saved that.
   */
  lemma SessionEndCloses(w: World, k: ResumeKey, payload: Option<Path>, now: int, closeFate: Fate)
    requires TableOk(w.table) && InStepWithOpen(w, k)
    ensures var w' := Step(w, Run(k, OnSessionEnd(payload, now, Answered, closeFate)));
            var s, path := w.plugins[k].session.value, Told(payload, w.plugins[k].path);
            && CaughtUp(w, w', s, path)
            && w'.plugins[k].session == (if closeFate == CrashBeforeSave then Some(s) else None)
            && !w'.plugins[k].dirty && w'.plugins[k].path == path
            && (RunHook(k, w.plugins[k], OnSessionEnd(payload, now, Answered, closeFate), w.files, w.table).ok
                <==> closeFate != CrashBeforeSave)
            && (if closeFate == RequestLost then w'.table[s].status == Active
                else w'.table[s].status == Closed && w'.table[s].endedAt == Some(now))
  {
    hide Flush, TableOk, Posted;
    var p := if payload.Some? then w.plugins[k].(path := payload, dirty := true) else w.plugins[k];
    AnsweredFlush(w, k, true, p, p);
    var out := Flush(true, p, p, w.files, w.table, Answered);
    hide InStepWithOpen, AtEnd;
  }

  /** Every open session of the key holds a prefix of the file. */
  ghost predicate OpenHoldPrefix(w: World, k: ResumeKey, path: Path) {
    forall i :: 0 <= i < |w.table| && w.table[i].key == k && w.table[i].status == Active ==>
                  HoldsPrefix(w.files, path, w.table[i])
  }

  /**
   Recovery: from every reachable state, one answered session start and one answered pre-compaction flush, both naming
   `path`, leave a clean plugin in step with an open session. That session holds the whole file exactly when every
   session of the key that was open before held a prefix of it.
   */
  lemma Recovery(w: World, k: ResumeKey, path: Path, conversation: Option<nat>, now: int)
    requires TableOk(w.table)
    ensures var w1 := Step(w, Run(k, OnSessionStart(Some(path), conversation, now, true, Answered)));
            var w2 := Step(w1, Run(k, OnPreCompact(Some(path), Answered)));
            && k in w2.plugins
            && var p := w2.plugins[k];
            && p.session.Some? && p.session.value < |w2.table| && !p.dirty
            && var s := w2.table[p.session.value];
            && s.status == Active && s.key == k
            && AtEnd(p, s)
            && (HoldsWhole(w2.files, path, s) <==> OpenHoldPrefix(w, k, path))
  {
    hide TableOk, Connect, UploadChunk, HoldsPrefix, HoldsWhole;
    var w1 := Step(w, Run(k, OnSessionStart(Some(path), conversation, now, true, Answered)));
    StartBinds(w, k, path, conversation, now);
    var memory := w1.plugins[k].(dirty := true);
    FlushFromCursorReturns(memory, memory, w1.files, w1.table);
    FlushReturnedMeansWhole(w1.table, w1.files, path, memory, memory, Answered);
  }

  /** The start binds to the open session of the key, or to a new one, at its cursor. */
  lemma StartBinds(w: World, k: ResumeKey, path: Path, conversation: Option<nat>, now: int)
    requires TableOk(w.table)
    ensures var w1 := Step(w, Run(k, OnSessionStart(Some(path), conversation, now, true, Answered)));
            && k in w1.plugins && TableOk(w1.table)
            && var p := w1.plugins[k];
            && p.session.Some? && p.session.value < |w1.table| && p.path == Some(path)
            && w1.table[p.session.value].key == k && w1.table[p.session.value].status == Active
            && 0 <= p.offset == w1.table[p.session.value].synced
            && p.nextSequence == |w1.table[p.session.value].chunks| + 1
            && CursorOk(p, w1.table)
            && (HoldsPrefix(w1.files, path, w1.table[p.session.value]) <==> OpenHoldPrefix(w, k, path))
  {
    hide Connect, HoldsPrefix, SessionOk;
    ConnectBinds(w.table, k, conversation, now, true);
    var out := Connect(w.table, k, conversation, now, true);
    var s := out.reply.value.id;
    BoundAtCursor(out.table[s]);
    if s < |w.table| {
      assert SessionOk(w.table[s]) && SessionOk(out.table[s]);
      SamePrefix(w.files, path, w.table[s], out.table[s]);
    } else {
      EmptyIsPrefix(w.files, path, out.table[s]);
    }
  }

  lemma BoundAtCursor(s: Session)
    requires SessionOk(s)
    ensures 0 <= s.synced == Cut(s.chunks, |s.chunks|)
  {
    CutsNonNegative(s.chunks, |s.chunks|);
  }

  lemma SamePrefix(files: Files, path: Path, s: Session, s': Session)
    requires SessionOk(s) && SessionOk(s') && s.chunks == s'.chunks
    ensures HoldsPrefix(files, path, s) <==> HoldsPrefix(files, path, s')
  {
  }

  lemma EmptyIsPrefix(files: Files, path: Path, s: Session)
    requires SessionOk(s) && s.chunks == []
    ensures HoldsPrefix(files, path, s) && s.synced == 0
  {
  }

  /** After a steady run the named file becomes whole when it is the transcript of the key's open session, if there is one. */
  lemma SteadyRecovery(home: nat -> Path, events: seq<Event>, k: ResumeKey, path: Path, conversation: Option<nat>, now: int)
    requires AllFromHome(home, EMPTY_WORLD, events)
    requires var t := Exec(EMPTY_WORLD, events).table;
             forall i :: 0 <= i < |t| && t[i].key == k && t[i].status == Active ==> home(i) == path
    ensures var w := Exec(Exec(EMPTY_WORLD, events),
                          [Run(k, OnSessionStart(Some(path), conversation, now, true, Answered)),
                           Run(k, OnPreCompact(Some(path), Answered))]);
            && k in w.plugins && w.plugins[k].session.Some? && w.plugins[k].session.value < |w.table|
            && HoldsWhole(w.files, path, w.table[w.plugins[k].session.value])
  {
    hide Step, HoldsPrefix, HoldsWhole;
    TranscriptSafety(home, events);
    RunsKeepSound(EMPTY_WORLD, events);
    var w := Exec(EMPTY_WORLD, events);
    Recovery(w, k, path, conversation, now);
    ExecTwo(w, Run(k, OnSessionStart(Some(path), conversation, now, true, Answered)),
            Run(k, OnPreCompact(Some(path), Answered)));
  }

  /**
   A push that reports success leaves the plugin in step with its session. The session then has the whole transcript
   exactly when the plugin had been told where it is, or the transcript is empty.
   */
  lemma PushSucceededMeansWhole(home: nat -> Path, w: World, k: ResumeKey, h: Hook)
    requires Sound(w) && CursorsOk(w) && Homed(home, w) && h.OnPush? && FromHome(home, w, Run(k, h))
    ensures var out := RunHook(k, PluginOf(w, k), h, w.files, w.table);
            out.ok ==>
              && out.disk.session.Some? && out.disk.session.value < |out.table|
              && var i := out.disk.session.value;
              && AtEnd(out.disk, out.table[i])
              && (HoldsWhole(w.files, home(i), out.table[i])
                  <==> PluginOf(w, k).path.Some? || FileOf(w.files, home(i)) == [])
  {
    hide EnsureSession, PushBound, HoldsPrefix, HoldsWhole, Homed, TableSound, PostedBy, UploadSound;
    var p := PluginOf(w, k);
    var bound := EnsureSession(p, k, h.conversation, h.now, h.built, w.table, h.connectFate);
    EnsureSessionDelivers(k, p, h.conversation, h.now, h.built, w.files, w.table, h.connectFate);
    if bound.ok {
      PushedWhole(home, w, k, bound, h.fate, h.readFate);
    } else {
      PushUnbound(bound, w.files, h.fate, h.readFate);
    }
  }

  lemma PushedWhole(home: nat -> Path, w: World, k: ResumeKey, bound: Outcome, fate: Fate, readFate: Fate)
    requires Sound(w) && Homed(home, w) && bound.ok
    requires Delivers(k, PluginOf(w, k), w.table, w.files, bound) && Adds(w.table, bound.table, None)
    requires bound.memory.session.Some? && bound.memory.path == PluginOf(w, k).path && CursorOk(bound.memory, bound.table)
    requires AtHome(home, PushBound(bound, w.files, fate, readFate).disk)
    ensures var out := PushBound(bound, w.files, fate, readFate);
            out.ok ==>
              && out.disk.session.Some? && out.disk.session.value < |out.table|
              && var i := out.disk.session.value;
              && AtEnd(out.disk, out.table[i])
              && (HoldsWhole(w.files, home(i), out.table[i])
                  <==> PluginOf(w, k).path.Some? || FileOf(w.files, home(i)) == [])
  {
    hide Flush, Homed, Sound, SessionOk, SessionSound, HoldsPrefix;
    var memory := bound.memory.(dirty := true);
    var flushed := Flush(true, memory, bound.disk, w.files, bound.table, fate);
    var i := memory.session.value;
    BoundHoldsPrefix(home, w, k, bound.table, i);
    if memory.path.Some? {
      FlushReturnedMeansWhole(bound.table, w.files, memory.path.value, memory, bound.disk, fate);
    } else {
      UntoldFlush(memory, bound.disk, w.files, bound.table, fate);
    }
  }

  /** The session a push is bound to holds a prefix of its transcript, and nothing while the plugin knows no path. */
  lemma BoundHoldsPrefix(home: nat -> Path, w: World, k: ResumeKey, t: Table, i: nat)
    requires Sound(w) && Homed(home, w) && TableOk(t) && Adds(w.table, t, None) && Grows(w.table, t)
    requires i < |t| && t[i].key == k
    ensures HoldsPrefix(w.files, home(i), t[i])
    ensures PluginOf(w, k).path.None? ==> t[i].chunks == [] && t[i].synced == 0
  {
    hide Homed, HoldsPrefix, SessionSound, UploadSound;
    assert SessionOk(t[i]);
    if i < |w.table| {
      assert SessionOk(w.table[i]);
      HomedHoldsPrefix(home, w, i);
      SamePrefix(w.files, home(i), w.table[i], t[i]);
    } else {
      EmptyIsPrefix(w.files, home(i), t[i]);
    }
  }

  /** Without a path a forced flush uploads nothing and returns normally. */
  lemma UntoldFlush(memory: Plugin, disk: Plugin, files: Files, t: Table, fate: Fate)
    requires memory.path.None?
    ensures var clean := memory.(dirty := false);
            Flush(true, memory, disk, files, t, fate) == if memory.session.None? then Outcome(memory, disk, t, true)
                                                         else Outcome(clean, clean, t, true)
  {
  }

  // ---------------------------------------------------------------- where the guarantees end

  /**
   The resume key does not name a transcript file. If an upload read from another file is accepted, the
   session still holds a prefix of `path` exactly when that file agrees with `path` on the uploaded range.
   */
  lemma AcceptedKeepsPrefixIff(files: Files, path: Path, t: Table, u: Upload)
    requires TableOk(t) && UploadChunk(t, u).Success?
    requires Slice(files, u.source, u.start, u.end, u.content)
    requires HoldsPrefix(files, path, t[u.session])
    ensures HoldsPrefix(files, path, UploadChunk(t, u).value[u.session]) <==>
            u.end <= |FileOf(files, path)| && FileOf(files, path)[u.start..u.end] == u.content
  {
    hide UploadChunk, TableOk, SnapshotOk;
    UploadAccepted(t, u);
    var s, s' := t[u.session], UploadChunk(t, u).value[u.session];
    hide SessionOk;
    var f := FileOf(files, path);
    JoinedAppend(s.chunks, Chunk(u.sequence, u.start, u.end, u.content, u.source));
    PrefixExtends(f, u.start, u.end, u.content);
  }

  lemma PrefixExtends(f: Bytes, start: int, end: int, tail: Bytes)
    requires 0 <= start < end && start <= |f| && |tail| == end - start
    ensures (end <= |f| && f[..start] + tail == f[..end]) <==> (end <= |f| && f[start..end] == tail)
  {
    if end <= |f| {
      assert f[..start] + f[start..end] == f[..end];
      if f[..start] + tail == f[..end] {
        assert (f[..start] + tail)[start..end] == tail;
        assert f[..end][start..end] == f[start..end];
      }
    }
  }

  const FILE_A: Bytes := [1]
  const FILE_B: Bytes := [2, 3]

  /** A transcript exists, and the first thing its machine runs is a push. */
  function UntoldRun(k: ResumeKey): seq<Event> {
    [Append("a", FILE_A), Run(k, OnPush(None, 0, true, Answered, Answered, Answered))]
  }

  /** No hook has named the transcript: the push reports success and nothing is uploaded. */
  lemma PushUploadsNothing(k: ResumeKey)
    ensures var before, w := Exec(EMPTY_WORLD, UntoldRun(k)[..1]), Exec(EMPTY_WORLD, UntoldRun(k));
            && RunHook(k, PluginOf(before, k), UntoldRun(k)[1].hook, before.files, before.table).ok
            && w.files == map["a" := FILE_A] && w.sent == {}
            && |w.table| == 1 && w.table[0].status == Active && w.table[0].chunks == []
  {
    hide Connect;
    var r := UntoldRun(k);
    var none: Bytes := [];
    var files: Files := map["a" := FILE_A];
    assert none + FILE_A == FILE_A;
    var before := Step(EMPTY_WORLD, r[0]);
    assert before == World([], map[], files, {});
    ConnectBinds([], k, None, 0, true);
    ExecTwo(EMPTY_WORLD, r[0], r[1]);
    assert r == [r[0], r[1]] && r[..1] == [r[0]];
    assert Exec(EMPTY_WORLD, [r[0]]) == before by {
      assert [r[0]][1..] == [];
    }
  }

  /** A machine that is told of a second transcript while its session stays open. */
  function SwitchRun(k: ResumeKey): seq<Event> {
    [Append("a", FILE_A), Append("b", FILE_B),
     Run(k, OnSessionStart(Some("a"), None, 0, true, Answered)),
     Run(k, OnPreCompact(Some("a"), Answered)),
     Run(k, OnPreCompact(Some("b"), Answered))]
  }

  /** Two transcripts, one session: the session then holds a prefix of neither. */
  lemma SwitchedTranscript(k: ResumeKey)
    ensures var w := Exec(EMPTY_WORLD, SwitchRun(k));
            && |w.table| == 1 && Joined(w.table[0].chunks) == [1, 3]
            && w.files == map["a" := FILE_A, "b" := FILE_B]
            && !HoldsPrefix(w.files, "a", w.table[0]) && !HoldsPrefix(w.files, "b", w.table[0])
  {
    var r := SwitchRun(k);
    var w1 := Step(Step(EMPTY_WORLD, r[0]), r[1]);
    var files: Files := map["a" := FILE_A, "b" := FILE_B];
    var a: Files := map["a" := FILE_A];
    var none: Bytes := [];
    assert none + FILE_A == FILE_A && none + FILE_B == FILE_B;
    assert Step(EMPTY_WORLD, r[0]).files == a;
    assert w1 == World([], map[], files, {});
    FirstStart(files, k, "a");
    var w2 := Step(w1, r[2]);
    SwitchAfterStart(k, w2);
    hide Step, HoldsPrefix;
    ExecFive(EMPTY_WORLD, r[0], r[1], r[2], r[3], r[4]);
    assert r == [r[0], r[1], r[2], r[3], r[4]];
  }

  lemma SwitchAfterStart(k: ResumeKey, w: World)
    requires TableOk(w.table) && |w.table| == 1 && w.table[0].status == Active
    requires w.files == map["a" := FILE_A, "b" := FILE_B]
    requires w.table[0].chunks == [] && w.table[0].synced == 0
    requires w.plugins == map[k := Plugin(Some(0), 0, 1, Some("a"), false)]
    ensures var w' := Step(Step(w, Run(k, OnPreCompact(Some("a"), Answered))), Run(k, OnPreCompact(Some("b"), Answered)));
            && |w'.table| == 1 && Joined(w'.table[0].chunks) == [1, 3] && w'.files == w.files
            && !HoldsPrefix(w'.files, "a", w'.table[0]) && !HoldsPrefix(w'.files, "b", w'.table[0])
  {
    hide Step;
    var c1, c2 := Chunk(1, 0, 1, [1], "a"), Chunk(2, 1, 2, [3], "b");
    OneUpload(w, k, "a", c1);
    var w3 := Step(w, Run(k, OnPreCompact(Some("a"), Answered)));
    OneUpload(w3, k, "b", c2);
    var w4 := Step(w3, Run(k, OnPreCompact(Some("b"), Answered)));
    JoinedAppend([], c1);
    JoinedAppend([c1], c2);
    assert w4.table[0].chunks == [c1] + [c2];
    assert Joined(w4.table[0].chunks) == [1, 3];
  }

  /** The first session start on an empty table opens session 0 at offset 0. */
  lemma FirstStart(files: Files, k: ResumeKey, path: Path)
    ensures var w := Step(World([], map[], files, {}), Run(k, OnSessionStart(Some(path), None, 0, true, Answered)));
            && TableOk(w.table) && |w.table| == 1 && w.table[0].status == Active && w.files == files
            && w.table[0].chunks == [] && w.table[0].synced == 0
            && w.plugins == map[k := Plugin(Some(0), 0, 1, Some(path), false)]
  {
    hide Connect;
    ConnectBinds([], k, None, 0, true);
    var t := Connect([], k, None, 0, true).table;
    assert SessionOk(t[0]);
  }

  /** An answered pre-compaction flush whose upload fits appends exactly that chunk. */
  lemma OneUpload(w: World, k: ResumeKey, path: Path, c: Chunk)
    requires TableOk(w.table) && k in w.plugins && path in w.files && w.files[path] != []
    requires w.plugins[k].session == Some(0) && |w.table| == 1 && w.table[0].status == Active
    requires 0 <= w.plugins[k].offset == w.table[0].synced < |w.files[path]|
    requires w.plugins[k].nextSequence == |w.table[0].chunks| + 1
    requires c == Chunk(w.plugins[k].nextSequence, w.plugins[k].offset, |w.files[path]|,
                        w.files[path][w.plugins[k].offset..], path)
    ensures var w' := Step(w, Run(k, OnPreCompact(Some(path), Answered)));
            && TableOk(w'.table) && |w'.table| == 1 && w'.table[0].status == Active && w'.files == w.files
            && w'.table[0].chunks == w.table[0].chunks + [c] && w'.table[0].synced == c.end
            && k in w'.plugins
            && w'.plugins[k] == Plugin(Some(0), c.end, c.sequence + 1, Some(path), false)
  {
    hide UploadChunk;
    var p := w.plugins[k].(path := Some(path), dirty := true);
    var posted := Posted(true, p, w.files);
    UploadAccepted(w.table, posted.value);
    UploadKeepsTable(w.table, posted.value);
  }

  lemma ExecTwo(w: World, e0: Event, e1: Event)
    ensures Exec(w, [e0, e1]) == Step(Step(w, e0), e1)
  {
    hide Step;
    assert [e0, e1][1..] == [e1];
    assert Exec(w, [e0, e1]) == Exec(Step(w, e0), [e1]);
    assert [e1][1..] == [];
  }

  lemma ExecFive(w: World, e0: Event, e1: Event, e2: Event, e3: Event, e4: Event)
    ensures Exec(w, [e0, e1, e2, e3, e4]) == Step(Step(Step(Step(Step(w, e0), e1), e2), e3), e4)
  {
    hide Step;
    var w1 := Step(w, e0);
    var w2 := Step(w1, e1);
    var w3 := Step(w2, e2);
    var w4 := Step(w3, e3);
    assert [e0, e1, e2, e3, e4][1..] == [e1, e2, e3, e4];
    assert Exec(w, [e0, e1, e2, e3, e4]) == Exec(w1, [e1, e2, e3, e4]);
    assert [e1, e2, e3, e4][1..] == [e2, e3, e4];
    assert Exec(w1, [e1, e2, e3, e4]) == Exec(w2, [e2, e3, e4]);
    assert [e2, e3, e4][1..] == [e3, e4];
    assert Exec(w2, [e2, e3, e4]) == Exec(w3, [e3, e4]);
    assert [e3, e4][1..] == [e4];
    assert Exec(w3, [e3, e4]) == Exec(w4, [e4]);
    assert [e4][1..] == [];
  }

  /**
   The push command aligns the offset but not the sequence number. The cursor of a bound plugin survives exactly when
   the session is not read back, there is something to upload, or the server has no more than the plugin's offset; an
   unbound one is bound in step.
   */
  lemma PushKeepsCursorIff(w: World, k: ResumeKey, h: Hook)
    requires Sound(w) && CursorsOk(w) && h.OnPush?
    ensures var out := RunHook(k, PluginOf(w, k), h, w.files, w.table);
            CursorOk(out.disk, out.table) <==> (h.readFate == Answered ==> NoDrift(w, Run(k, h)))
  {
    var p := PluginOf(w, k);
    if h.readFate == Answered {
      ReadPushKeepsCursorIff(w, k, h);
    } else {
      hide EnsureSession, Flush, Sound, Align, PushBound;
      FreshIsSound(w, k);
      EnsureSessionDelivers(k, p, h.conversation, h.now, h.built, w.files, w.table, h.connectFate);
      var bound := EnsureSession(p, k, h.conversation, h.now, h.built, w.table, h.connectFate);
      UnreadPushKeepsCursor(k, bound, w.files, h.fate, h.readFate);
    }
  }

  lemma UnreadPushKeepsCursor(k: ResumeKey, bound: Outcome, files: Files, fate: Fate, readFate: Fate)
    requires TableSound(bound.table, files) && bound.memory.path == bound.disk.path && readFate != Answered
    requires PluginSound(k, bound.memory, bound.table) && PluginSound(k, bound.disk, bound.table)
    requires CursorOk(bound.memory, bound.table) && CursorOk(bound.disk, bound.table)
    ensures var out := PushBound(bound, files, fate, readFate); CursorOk(out.disk, out.table)
  {
    hide Flush, TableSound, Slice, Keeps;
    if bound.ok {
      FlushKeeps(k, true, bound.memory.(dirty := true), bound.disk, files, bound.table, fate);
    }
  }

  lemma ReadPushKeepsCursorIff(w: World, k: ResumeKey, h: Hook)
    requires Sound(w) && CursorsOk(w) && h.OnPush? && h.readFate == Answered
    ensures var out := RunHook(k, PluginOf(w, k), h, w.files, w.table);
            CursorOk(out.disk, out.table) <==> NoDrift(w, Run(k, h))
  {
    hide EnsureSession, Flush, Align, SessionStart, NoDrift, Sound, CursorsOk, InStep, Adds, Grows, PostedBy, Posted, PostedSound;
    var p := PluginOf(w, k);
    FreshIsSound(w, k);
    LandsInStepIff(w, k, h);
    PushKeeps(k, p, h.conversation, h.now, h.built, w.files, w.table, h.connectFate, h.fate, h.readFate);
    EnsureSessionDelivers(k, p, h.conversation, h.now, h.built, w.files, w.table, h.connectFate);
    var bound := EnsureSession(p, k, h.conversation, h.now, h.built, w.table, h.connectFate);
    if bound.ok {
      FlushKeeps(k, true, bound.memory.(dirty := true), bound.disk, w.files, bound.table, h.fate);
      var out := Flush(true, bound.memory.(dirty := true), bound.disk, w.files, bound.table, h.fate);
      if out.ok && !InStep(out) {
        DriftBreaksCursor(out);
      }
    }
  }

  /** A lost reply, then a second transcript that has not been written yet, then a push. */
  function DriftRun(k: ResumeKey): seq<Event> {
    [Append("a", FILE_B),
     Run(k, OnSessionStart(Some("a"), None, 0, true, Answered)),
     Run(k, OnPreCompact(Some("a"), ReplyLost)),
     Run(k, OnPostToolUse(Some("b"))),
     Run(k, OnPush(None, 0, true, Answered, Answered, Answered))]
  }

  /** The push reports success and leaves the plugin at offset 2 and sequence number 1, where the server's chunk ends at 2. */
  lemma PushDrifts(k: ResumeKey)
    ensures var before, after := Exec(EMPTY_WORLD, DriftRun(k)[..4]), Exec(EMPTY_WORLD, DriftRun(k));
            && CursorsOk(before) && !NoDrift(before, DriftRun(k)[4])
            && RunHook(k, PluginOf(before, k), DriftRun(k)[4].hook, before.files, before.table).ok
            && k in after.plugins && after.plugins[k] == Plugin(Some(0), 2, 1, Some("b"), false)
            && !CursorOk(after.plugins[k], after.table)
  {
    hide Step, RunHook, CursorOk, NoDrift, CursorsOk;
    var r := DriftRun(k);
    DriftBefore(k);
    EmptyPush(Step(Step(Step(Step(EMPTY_WORLD, r[0]), r[1]), r[2]), r[3]), k, r[4].hook);
    ExecFive(EMPTY_WORLD, r[0], r[1], r[2], r[3], r[4]);
    ExecFour(EMPTY_WORLD, r[0], r[1], r[2], r[3]);
    assert r == [r[0], r[1], r[2], r[3], r[4]] && r[..4] == [r[0], r[1], r[2], r[3]];
  }

  lemma DriftBefore(k: ResumeKey)
    ensures var r := DriftRun(k);
            var w := Step(Step(Step(Step(EMPTY_WORLD, r[0]), r[1]), r[2]), r[3]);
            && w.plugins == map[k := Plugin(Some(0), 0, 1, Some("b"), true)] && "b" !in w.files
            && TableOk(w.table) && |w.table| == 1 && w.table[0].synced == 2 && |w.table[0].chunks| == 1
  {
    var r := DriftRun(k);
    var none: Bytes := [];
    var files: Files := map["a" := FILE_B];
    assert none + FILE_B == FILE_B;
    assert Step(EMPTY_WORLD, r[0]) == World([], map[], files, {});
    hide Step;
    FirstStart(files, k, "a");
    DriftFrom(k, Step(World([], map[], files, {}), r[1]));
  }

  lemma DriftFrom(k: ResumeKey, w: World)
    requires TableOk(w.table) && |w.table| == 1 && w.table[0].status == Active && w.files == map["a" := FILE_B]
    requires w.table[0].chunks == [] && w.table[0].synced == 0
    requires w.plugins == map[k := Plugin(Some(0), 0, 1, Some("a"), false)]
    ensures var w' := Step(Step(w, Run(k, OnPreCompact(Some("a"), ReplyLost))), Run(k, OnPostToolUse(Some("b"))));
            && w'.plugins == map[k := Plugin(Some(0), 0, 1, Some("b"), true)] && w'.files == w.files
            && TableOk(w'.table) && |w'.table| == 1 && w'.table[0].synced == 2 && |w'.table[0].chunks| == 1
  {
    hide Step, TableOk;
    assert FILE_B[0..] == FILE_B;
    LostReply(w, k, "a", Chunk(1, 0, 2, FILE_B, "a"));
    var w1 := Step(w, Run(k, OnPreCompact(Some("a"), ReplyLost)));
    DirtyAfter(w1, k);
  }

  lemma DirtyAfter(w: World, k: ResumeKey)
    requires w.plugins.Keys == {k}
    ensures Step(w, Run(k, OnPostToolUse(Some("b")))) == w.(plugins := map[k := w.plugins[k].(path := Some("b"), dirty := true)])
  {
  }

  /** A pre-compaction flush whose upload fits but whose reply is lost. */
  lemma LostReply(w: World, k: ResumeKey, path: Path, c: Chunk)
    requires TableOk(w.table) && w.plugins.Keys == {k} && path in w.files && w.files[path] != []
    requires w.plugins[k].session == Some(0) && |w.table| == 1 && w.table[0].status == Active
    requires 0 <= w.plugins[k].offset == w.table[0].synced < |w.files[path]|
    requires w.plugins[k].nextSequence == |w.table[0].chunks| + 1
    requires c == Chunk(w.plugins[k].nextSequence, w.plugins[k].offset, |w.files[path]|,
                        w.files[path][w.plugins[k].offset..], path)
    ensures var w' := Step(w, Run(k, OnPreCompact(Some(path), ReplyLost)));
            && TableOk(w'.table) && |w'.table| == 1 && w'.table[0].status == Active && w'.files == w.files
            && w'.table[0].chunks == w.table[0].chunks + [c] && w'.table[0].synced == c.end
            && w'.plugins == map[k := w.plugins[k].(path := Some(path), dirty := true)]
  {
    hide UploadChunk;
    var p := w.plugins[k].(path := Some(path), dirty := true);
    var posted := Posted(true, p, w.files);
    UploadAccepted(w.table, posted.value);
    UploadKeepsTable(w.table, posted.value);
  }

  /** A push with nothing to read goes straight to its alignment. */
  lemma EmptyPush(w: World, k: ResumeKey, h: Hook)
    requires h == OnPush(None, 0, true, Answered, Answered, Answered)
    requires w.plugins == map[k := Plugin(Some(0), 0, 1, Some("b"), true)] && "b" !in w.files
    requires TableOk(w.table) && |w.table| == 1 && w.table[0].synced == 2 && |w.table[0].chunks| == 1
    ensures CursorsOk(w) && !NoDrift(w, Run(k, h))
    ensures RunHook(k, PluginOf(w, k), h, w.files, w.table).ok
    ensures var w' := Step(w, Run(k, h));
            && w'.plugins == map[k := Plugin(Some(0), 2, 1, Some("b"), false)] && w'.table == w.table
            && !CursorOk(w'.plugins[k], w'.table)
  {
  }

  lemma ExecFour(w: World, e0: Event, e1: Event, e2: Event, e3: Event)
    ensures Exec(w, [e0, e1, e2, e3]) == Step(Step(Step(Step(w, e0), e1), e2), e3)
  {
    hide Step;
    var w1 := Step(w, e0);
    var w2 := Step(w1, e1);
    var w3 := Step(w2, e2);
    assert [e0, e1, e2, e3][1..] == [e1, e2, e3];
    assert Exec(w, [e0, e1, e2, e3]) == Exec(w1, [e1, e2, e3]);
    assert [e1, e2, e3][1..] == [e2, e3];
    assert Exec(w1, [e1, e2, e3]) == Exec(w2, [e2, e3]);
    assert [e2, e3][1..] == [e3];
    assert Exec(w2, [e2, e3]) == Exec(w3, [e3]);
    assert [e3][1..] == [];
  }

  lemma DriftBreaksCursor(out: Outcome)
    requires TableOk(out.table) && CursorOk(out.memory, out.table) && !InStep(out)
    ensures var aligned := Align(out, Answered);
            !CursorOk(aligned.disk, aligned.table)
  {
    var s := out.table[out.memory.session.value];
    assert SessionOk(s);
    if out.memory.nextSequence - 1 < |s.chunks| {
      CutsIncrease(s.chunks, out.memory.nextSequence - 1, |s.chunks|);
    }
  }
}
