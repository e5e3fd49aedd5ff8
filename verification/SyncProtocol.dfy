/**
 The whole synchronisation system: many plugins, one server, transcript files that only grow,
 and a network that may lose a request, lose a reply, or deliver any upload ever sent again at
 any later time. The theorems quantify over every run of this system.
 */
module SyncProtocol {
  import opened Wrappers
  import opened TranscriptSessions
  import opened PluginRuntime

  /** `plugins` maps a machine's resume key to its state file; `sent` holds every upload ever posted. */
  datatype World = World(table: Table, plugins: map<ResumeKey, Plugin>, files: Files, sent: set<Upload>)

  datatype Hook =
    | OnSessionStart(payload: Option<Path>, conversation: Option<nat>, now: int, built: bool, fate: Fate)
    | OnPostToolUse(payload: Option<Path>)
    | OnStop(payload: Option<Path>, fate: Fate)
    | OnPreCompact(payload: Option<Path>, fate: Fate)
    | OnSessionEnd(payload: Option<Path>, now: int, fate: Fate, closeFate: Fate)
    | OnPush(conversation: Option<nat>, now: int, built: bool, connectFate: Fate, fate: Fate, readFate: Fate)
  {
    function PayloadPath(): Option<Path> {
      if OnPush? then None else payload
    }
  }

  datatype Event =
    | Append(path: Path, bytes: Bytes)
    | Run(key: ResumeKey, hook: Hook)
    | Redeliver(upload: Upload)
    | StrayConnect(key: ResumeKey, conversation: Option<nat>, now: int, built: bool)
    | StrayDisconnect(id: nat, now: int)

  const EMPTY_WORLD := World([], map[], map[], {})

  function PluginOf(w: World, k: ResumeKey): Plugin {
    if k in w.plugins then w.plugins[k] else FRESH_PLUGIN
  }

  function RunHook(k: ResumeKey, p: Plugin, h: Hook, files: Files, t: Table): Outcome {
    match h
    case OnSessionStart(payload, c, now, built, fate) => SessionStart(p, payload, k, c, now, built, t, fate)
    case OnPostToolUse(payload) => Outcome(PostToolUse(p, payload), PostToolUse(p, payload), t, true)
    case OnStop(payload, fate) => Stop(p, payload, files, t, fate)
    case OnPreCompact(payload, fate) => PreCompact(p, payload, files, t, fate)
    case OnSessionEnd(payload, now, fate, closeFate) => SessionEnd(p, payload, files, t, now, fate, closeFate)
    case OnPush(c, now, built, connectFate, fate, readFate) =>
      Push(p, k, c, now, built, files, t, connectFate, fate, readFate)
  }

  /** The upload a hook posts, if any. */
  function PostedBy(k: ResumeKey, p: Plugin, h: Hook, files: Files, t: Table): Option<Upload> {
    match h
    case OnSessionStart(_, _, _, _, _) => None
    case OnPostToolUse(_) => None
    case OnStop(payload, _) => Posted(false, if payload.Some? then p.(path := payload) else p, files)
    case OnPreCompact(payload, _) =>
      Posted(true, if payload.Some? then p.(path := payload, dirty := true) else p, files)
    case OnSessionEnd(payload, _, _, _) =>
      Posted(true, if payload.Some? then p.(path := payload, dirty := true) else p, files)
    case OnPush(c, now, built, connectFate, _, _) =>
      var bound := EnsureSession(p, k, c, now, built, t, connectFate);
      if bound.ok then Posted(true, bound.memory.(dirty := true), files) else None
  }

  function Appended(files: Files, path: Path, bytes: Bytes): Files {
    files[path := (if path in files then files[path] else []) + bytes]
  }

  function Step(w: World, e: Event): World {
    match e
    case Append(path, bytes) => w.(files := Appended(w.files, path, bytes))
    case Run(k, h) =>
      var out := RunHook(k, PluginOf(w, k), h, w.files, w.table);
      var posted := PostedBy(k, PluginOf(w, k), h, w.files, w.table);
      w.(table := out.table, plugins := w.plugins[k := out.disk],
         sent := if posted.Some? then w.sent + {posted.value} else w.sent)
    case Redeliver(u) => if u in w.sent then w.(table := Settled(w.table, UploadChunk(w.table, u))) else w
    case StrayConnect(k, c, now, built) => w.(table := Connect(w.table, k, c, now, built).table)
    case StrayDisconnect(id, now) => w.(table := Settled(w.table, Disconnect(w.table, id, now)))
  }

  function Exec(w: World, events: seq<Event>): World
    decreases |events|
  {
    if events == [] then w else Exec(Step(w, events[0]), events[1..])
  }

  // ---------------------------------------------------------------- invariants

  ghost predicate Slice(files: Files, path: Path, start: int, end: int, content: Bytes) {
    path in files && 0 <= start < end <= |files[path]| && content == files[path][start..end]
  }

  ghost predicate SessionSound(s: Session, files: Files) {
    && VersionExact(s)
    && forall i :: 0 <= i < |s.chunks| ==>
                     Slice(files, s.chunks[i].source, s.chunks[i].start, s.chunks[i].end, s.chunks[i].content)
  }

  ghost predicate TableSound(t: Table, files: Files) {
    TableOk(t) && forall i :: 0 <= i < |t| ==> SessionSound(t[i], files)
  }

  ghost predicate UploadSound(u: Upload, t: Table, files: Files) {
    && u.session < |t| && t[u.session].snapshot.Some?
    && Slice(files, u.source, u.start, u.end, u.content)
  }

  ghost predicate PluginSound(k: ResumeKey, p: Plugin, t: Table) {
    && 0 <= p.offset
    && (p.session.Some? ==>
          p.session.value < |t| && t[p.session.value].key == k && t[p.session.value].snapshot.Some?)
  }

  /** Only a machine that knows its transcript path can have uploaded. */
  ghost predicate Authored(w: World, k: ResumeKey) {
    PluginOf(w, k).path.Some?
  }

  ghost predicate Sound(w: World) {
    && TableSound(w.table, w.files)
    && (forall u :: u in w.sent ==> UploadSound(u, w.table, w.files))
    && (forall u :: u in w.sent && u.session < |w.table| ==> Authored(w, w.table[u.session].key))
    && (forall k :: k in w.plugins ==> PluginSound(k, w.plugins[k], w.table))
    && (forall i :: 0 <= i < |w.table| && w.table[i].chunks != [] ==> Authored(w, w.table[i].key))
  }

  /** A bound plugin's offset and sequence number are the cursor after some prefix of its session's chunks. */
  ghost predicate CursorOk(p: Plugin, t: Table) {
    p.session.Some? ==>
      && p.session.value < |t|
      && 1 <= p.nextSequence <= |t[p.session.value].chunks| + 1
      && p.offset == Cut(t[p.session.value].chunks, p.nextSequence - 1)
  }

  ghost predicate CursorsOk(w: World) {
    forall k :: k in w.plugins ==> CursorOk(w.plugins[k], w.table)
  }

  /** Sessions keep their key, chunks are only ever added at the end, and a snapshot never goes. */
  ghost predicate Grows(t: Table, t': Table) {
    |t| <= |t'| && forall i :: 0 <= i < |t| ==>
                                 && t[i].key == t'[i].key && t[i].chunks <= t'[i].chunks
                                 && (t[i].snapshot.Some? ==> t'[i].snapshot.Some?)
  }

  function ChunkOf(u: Upload): Chunk {
    Chunk(u.sequence, u.start, u.end, u.content, u.source)
  }

  function ChunksAt(t: Table, i: nat): seq<Chunk> {
    if i < |t| then t[i].chunks else []
  }

  /** The only chunk that may have been added is the posted upload's, to the session it names. */
  ghost predicate Adds(t: Table, t': Table, posted: Option<Upload>) {
    forall i :: 0 <= i < |t'| ==>
                  || t'[i].chunks == ChunksAt(t, i)
                  || (posted.Some? && posted.value.session == i
                      && t'[i].chunks == ChunksAt(t, i) + [ChunkOf(posted.value)])
  }

  /** The bound session does not reach beyond the local offset. */
  ghost predicate InStep(out: Outcome) {
    out.memory.session.Some? && out.memory.session.value < |out.table| ==>
      out.table[out.memory.session.value].synced <= out.memory.offset
  }

  /** A push that gets as far as its alignment would find the server no further than the plugin. */
  ghost predicate LandsInStep(w: World, k: ResumeKey, h: Hook)
    requires h.OnPush?
  {
    var bound := EnsureSession(PluginOf(w, k), k, h.conversation, h.now, h.built, w.table, h.connectFate);
    var out := Flush(true, bound.memory.(dirty := true), bound.disk, w.files, bound.table, h.fate);
    bound.ok && out.ok ==> InStep(out)
  }

  /** Before a push by a bound plugin: its transcript goes on past its offset, or the server has no more than that offset. */
  ghost predicate NoDrift(w: World, e: Event) {
    e.Run? && e.hook.OnPush? ==>
      var p := PluginOf(w, e.key);
      || p.session.None?
      || Posted(true, p.(dirty := true), w.files).Some?
      || (p.session.value < |w.table| ==> w.table[p.session.value].synced <= p.offset)
  }

  lemma FreshIsSound(w: World, k: ResumeKey)
    requires Sound(w)
    ensures TableSound(w.table, w.files) && PluginSound(k, PluginOf(w, k), w.table)
    ensures CursorsOk(w) ==> CursorOk(PluginOf(w, k), w.table)
  {
  }

  // ---------------------------------------------------------------- table steps

  lemma GrowsTransitive(t: Table, t': Table, t'': Table)
    requires Grows(t, t') && Grows(t', t'')
    ensures Grows(t, t'')
  {
  }

  lemma UploadStep(t: Table, u: Upload, files: Files)
    requires TableSound(t, files) && UploadSound(u, t, files)
    ensures var t' := Settled(t, UploadChunk(t, u));
            && TableSound(t', files) && Grows(t, t') && Adds(t, t', Some(u)) && Adds(t, t, Some(u))
            && |t'| == |t|
            && (forall i :: 0 <= i < |t'| && i != u.session ==> t'[i] == t[i])
            && (UploadChunk(t, u).Success? ==>
                  && u.sequence == |t[u.session].chunks| + 1
                  && t'[u.session].chunks == t[u.session].chunks + [ChunkOf(u)])
            && (UploadChunk(t, u).Failure? ==> t' == t)
  {
    hide UploadChunk, SessionOk;
    UploadAccepted(t, u);
    UploadKeepsTable(t, u);
    hide TableOk;
    assert SessionSound(t[u.session], files);
  }

  lemma ConnectStep(t: Table, key: ResumeKey, conversation: Option<nat>, now: int, built: bool, files: Files)
    requires TableSound(t, files)
    ensures var t' := Connect(t, key, conversation, now, built).table;
            && TableSound(t', files) && Grows(t, t')
            && (forall i :: 0 <= i < |t'| && t'[i].chunks != [] ==> i < |t| && t[i].chunks == t'[i].chunks)
  {
    hide Connect;
    ConnectBinds(t, key, conversation, now, built);
    var t' := Connect(t, key, conversation, now, built).table;
    forall i | 0 <= i < |t'| ensures SessionSound(t'[i], files) {
      if i < |t| {
        assert SessionSound(t[i], files);
      }
    }
  }

  lemma DisconnectStep(t: Table, id: nat, now: int, files: Files)
    requires TableSound(t, files)
    ensures var t' := Settled(t, Disconnect(t, id, now));
            && TableSound(t', files) && Grows(t, t') && |t'| == |t|
            && (forall i :: 0 <= i < |t| ==> t'[i].chunks == t[i].chunks && t'[i].synced == t[i].synced)
  {
    DisconnectCloses(t, id, now);
    var t' := Settled(t, Disconnect(t, id, now));
    forall i | 0 <= i < |t'| ensures SessionSound(t'[i], files) {
      assert SessionSound(t[i], files);
    }
  }

  lemma PluginSurvivesGrowth(k: ResumeKey, p: Plugin, t: Table, t': Table)
    requires PluginSound(k, p, t) && Grows(t, t')
    ensures PluginSound(k, p, t')
    ensures CursorOk(p, t) ==> CursorOk(p, t')
  {
  }

  // ---------------------------------------------------------------- handlers

  /** What a handler guarantees about the pair (saved state, table). */
  ghost predicate Delivers(k: ResumeKey, disk: Plugin, t: Table, files: Files, out: Outcome) {
    && TableSound(out.table, files)
    && Grows(t, out.table)
    && PluginSound(k, out.memory, out.table)
    && PluginSound(k, out.disk, out.table)
    && (disk.path.Some? ==> out.disk.path.Some? && out.memory.path.Some?)
    && out.memory.path == out.disk.path
  }

  /** A posted upload reads from the plugin's own path, for its own session. */
  ghost predicate PostedSound(k: ResumeKey, p: Plugin, u: Upload, t: Table, files: Files) {
    UploadSound(u, t, files) && t[u.session].key == k && p.path == Some(u.source)
  }

  lemma PostedSurvives(k: ResumeKey, p: Plugin, p': Plugin, u: Upload, t: Table, t': Table, files: Files)
    requires PostedSound(k, p, u, t, files) && Grows(t, t') && p'.path == p.path
    ensures PostedSound(k, p', u, t', files)
  {
  }

  /** Everything a handler keeps, for the upload it may have posted. */
  ghost predicate Keeps(k: ResumeKey, disk: Plugin, t: Table, files: Files, out: Outcome, posted: Option<Upload>)
  {
    && Delivers(k, disk, t, files, out)
    && Adds(t, out.table, posted)
    && (posted.Some? ==> PostedSound(k, out.disk, posted.value, out.table, files))
  }

  lemma NothingAdded(t: Table)
    ensures Grows(t, t) && Adds(t, t, None)
  {
  }

  lemma PostedIsSound(k: ResumeKey, force: bool, p: Plugin, t: Table, files: Files)
    requires PluginSound(k, p, t) && Posted(force, p, files).Some?
    ensures PostedSound(k, p, Posted(force, p, files).value, t, files)
  {
  }

  lemma FlushKeeps(k: ResumeKey, force: bool, memory: Plugin, disk: Plugin, files: Files, t: Table, fate: Fate)
    requires TableSound(t, files)
    requires PluginSound(k, memory, t) && PluginSound(k, disk, t) && memory.path == disk.path
    ensures var out := Flush(force, memory, disk, files, t, fate);
            && Keeps(k, disk, t, files, out, Posted(force, memory, files))
            && out.memory.session == memory.session && out.disk.path == disk.path
            && (CursorOk(memory, t) && CursorOk(disk, t) ==>
                  CursorOk(out.memory, out.table) && CursorOk(out.disk, out.table))
  {
    var posted := Posted(force, memory, files);
    NothingAdded(t);
    hide UploadChunk, TableSound, Slice, Adds, Grows, PostedSound;
    if posted.Some? {
      var u := posted.value;
      PostedIsSound(k, force, memory, t, files);
      UploadStep(t, u, files);
      PluginSurvivesGrowth(k, memory, t, Settled(t, UploadChunk(t, u)));
      PluginSurvivesGrowth(k, disk, t, Settled(t, UploadChunk(t, u)));
      var out := Flush(force, memory, disk, files, t, fate);
      PostedSurvives(k, memory, out.disk, u, t, out.table, files);
    }
  }

  lemma StopKeeps(k: ResumeKey, disk: Plugin, payload: Option<Path>, files: Files, t: Table, fate: Fate)
    requires TableSound(t, files) && PluginSound(k, disk, t)
    ensures var out := Stop(disk, payload, files, t, fate);
            && Keeps(k, disk, t, files, out, PostedBy(k, disk, OnStop(payload, fate), files, t))
            && (CursorOk(disk, t) ==> CursorOk(out.disk, out.table))
  {
    hide Flush, TableSound;
    var p := if payload.Some? then disk.(path := payload) else disk;
    FlushKeeps(k, false, p, p, files, t, fate);
  }

  lemma PreCompactKeeps(k: ResumeKey, disk: Plugin, payload: Option<Path>, files: Files, t: Table, fate: Fate)
    requires TableSound(t, files) && PluginSound(k, disk, t)
    ensures var out := PreCompact(disk, payload, files, t, fate);
            && Keeps(k, disk, t, files, out, PostedBy(k, disk, OnPreCompact(payload, fate), files, t))
            && (CursorOk(disk, t) ==> CursorOk(out.disk, out.table))
  {
    hide Flush, TableSound;
    var p := if payload.Some? then disk.(path := payload, dirty := true) else disk;
    FlushKeeps(k, true, p, p, files, t, fate);
  }

  /** A successful connect hands out the end-of-session cursor of an open session of that key. */
  lemma ReplyIsCursor(t: Table, files: Files, k: ResumeKey, conversation: Option<nat>, now: int, built: bool)
    requires TableSound(t, files)
    requires Connect(t, k, conversation, now, built).reply.Success?
    ensures var out := Connect(t, k, conversation, now, built);
            var r := out.reply.value;
            && r.id < |out.table| && out.table[r.id].key == k && out.table[r.id].status == Active
            && out.table[r.id].snapshot.Some?
            && 0 <= r.synced == Cut(out.table[r.id].chunks, |out.table[r.id].chunks|)
            && r.chunkCount == |out.table[r.id].chunks|
  {
    hide Connect;
    ConnectBinds(t, k, conversation, now, built);
    var out := Connect(t, k, conversation, now, built);
    var chunks := out.table[out.reply.value.id].chunks;
    assert SessionOk(out.table[out.reply.value.id]);
    CutsNonNegative(chunks, |chunks|);
  }

  lemma SessionStartDelivers(k: ResumeKey, disk: Plugin, payload: Option<Path>,
                             conversation: Option<nat>, now: int, built: bool, files: Files, t: Table, fate: Fate)
    requires TableSound(t, files) && PluginSound(k, disk, t)
    ensures var out := SessionStart(disk, payload, k, conversation, now, built, t, fate);
            && Delivers(k, disk, t, files, out) && Adds(t, out.table, None)
            && (CursorOk(disk, t) ==> CursorOk(out.memory, out.table) && CursorOk(out.disk, out.table))
            && (payload.None? ==> out.memory.path == disk.path) && (out.ok ==> out.memory.session.Some?)
  {
    hide Connect, TableSound;
    if fate != RequestLost {
      var c := Connect(t, k, conversation, now, built);
      ConnectStep(t, k, conversation, now, built, files);
      PluginSurvivesGrowth(k, disk, t, c.table);
      if fate == Answered && c.reply.Success? {
        ReplyIsCursor(t, files, k, conversation, now, built);
      }
    }
  }

  lemma EnsureSessionDelivers(k: ResumeKey, disk: Plugin, conversation: Option<nat>, now: int,
                              built: bool, files: Files, t: Table, fate: Fate)
    requires TableSound(t, files) && PluginSound(k, disk, t)
    ensures var out := EnsureSession(disk, k, conversation, now, built, t, fate);
            && Delivers(k, disk, t, files, out) && Adds(t, out.table, None)
            && (CursorOk(disk, t) ==> CursorOk(out.memory, out.table) && CursorOk(out.disk, out.table))
            && out.memory.path == disk.path && (out.ok ==> out.memory.session.Some?)
  {
    hide SessionStart;
    if disk.session.None? {
      SessionStartDelivers(k, disk, None, conversation, now, built, files, t, fate);
    }
  }

  lemma AddsTransitive(t: Table, t': Table, t'': Table, before: Option<Upload>, after: Option<Upload>)
    requires Adds(t, t', before) && Adds(t', t'', after) && Grows(t, t') && Grows(t', t'')
    requires before.None? || after.None?
    ensures Adds(t, t'', if before.Some? then before else after)
  {
  }

  lemma CloseDelivers(k: ResumeKey, flushed: Outcome, files: Files, now: int, closeFate: Fate)
    requires TableSound(flushed.table, files)
    requires flushed.memory.session.Some? && flushed.memory.path == flushed.disk.path
    requires PluginSound(k, flushed.memory, flushed.table)
    requires PluginSound(k, flushed.disk, flushed.table)
    ensures var out := CloseAfter(flushed, now, closeFate);
            && Delivers(k, flushed.disk, flushed.table, files, out) && Adds(flushed.table, out.table, None)
            && out.disk.path == flushed.disk.path
            && (CursorOk(flushed.disk, flushed.table) ==> CursorOk(out.disk, out.table))
  {
    hide Disconnect, TableSound;
    var closed := Settled(flushed.table, Disconnect(flushed.table, flushed.memory.session.value, now));
    DisconnectStep(flushed.table, flushed.memory.session.value, now, files);
    PluginSurvivesGrowth(k, flushed.memory, flushed.table, closed);
    PluginSurvivesGrowth(k, flushed.disk, flushed.table, closed);
  }

  lemma SessionEndKeeps(k: ResumeKey, disk: Plugin, payload: Option<Path>, files: Files,
                        t: Table, now: int, fate: Fate, closeFate: Fate)
    requires TableSound(t, files) && PluginSound(k, disk, t)
    ensures var out := SessionEnd(disk, payload, files, t, now, fate, closeFate);
            && Keeps(k, disk, t, files, out,
                     PostedBy(k, disk, OnSessionEnd(payload, now, fate, closeFate), files, t))
            && (CursorOk(disk, t) ==> CursorOk(out.disk, out.table))
  {
    hide Flush, CloseAfter, Posted, TableSound, Grows, PostedSound, Adds;
    var p := if payload.Some? then disk.(path := payload, dirty := true) else disk;
    FlushKeeps(k, true, p, p, files, t, fate);
    var flushed := Flush(true, p, p, files, t, fate);
    if flushed.ok && flushed.memory.session.Some? {
      CloseDelivers(k, flushed, files, now, closeFate);
      var out := CloseAfter(flushed, now, closeFate);
      GrowsTransitive(t, flushed.table, out.table);
      AddsTransitive(t, flushed.table, out.table, Posted(true, p, files), None);
      var posted := Posted(true, p, files);
      if posted.Some? {
        PostedSurvives(k, flushed.disk, out.disk, posted.value, flushed.table, out.table, files);
      }
    }
  }

  /** Aligning touches the offset only, and leaves a plugin that is in step alone. */
  lemma AlignDelivers(k: ResumeKey, flushed: Outcome, files: Files, readFate: Fate)
    requires TableSound(flushed.table, files) && flushed.ok
    requires PluginSound(k, flushed.memory, flushed.table)
    ensures var out := Align(flushed, readFate);
            && out.table == flushed.table
            && (!out.ok ==> out.disk == flushed.disk && out.memory == flushed.memory)
            && (out.ok ==> out.disk == out.memory && out.memory == flushed.memory.(offset := out.memory.offset))
            && PluginSound(k, out.memory, out.table)
            && (out.ok && InStep(flushed) ==> out.memory == flushed.memory)
            && Adds(flushed.table, out.table, None) && Grows(flushed.table, out.table)
  {
    if flushed.memory.session.Some? && flushed.memory.session.value < |flushed.table| {
      var s := flushed.table[flushed.memory.session.value];
      assert SessionOk(s);
      CutsNonNegative(s.chunks, |s.chunks|);
    }
  }

  lemma PushKeeps(k: ResumeKey, disk: Plugin, conversation: Option<nat>, now: int, built: bool,
                  files: Files, t: Table, connectFate: Fate, fate: Fate, readFate: Fate)
    requires TableSound(t, files) && PluginSound(k, disk, t)
    ensures var out := Push(disk, k, conversation, now, built, files, t, connectFate, fate, readFate);
            var bound := EnsureSession(disk, k, conversation, now, built, t, connectFate);
            var flushed := Flush(true, bound.memory.(dirty := true), bound.disk, files, bound.table, fate);
            && Keeps(k, disk, t, files, out,
                     PostedBy(k, disk, OnPush(conversation, now, built, connectFate, fate, readFate), files, t))
            && (CursorOk(disk, t) && (bound.ok && flushed.ok ==> InStep(flushed)) ==> CursorOk(out.disk, out.table))
  {
    hide EnsureSession, Flush, Posted, PushBound, TableSound, Grows, Adds, InStep, PostedSound;
    EnsureSessionDelivers(k, disk, conversation, now, built, files, t, connectFate);
    var bound := EnsureSession(disk, k, conversation, now, built, t, connectFate);
    if bound.ok {
      PushBoundKeeps(k, bound, files, fate, readFate);
      var out := PushBound(bound, files, fate, readFate);
      GrowsTransitive(t, bound.table, out.table);
      AddsTransitive(t, bound.table, out.table, None, Posted(true, bound.memory.(dirty := true), files));
    } else {
      assert PushBound(bound, files, fate, readFate) == bound by { PushUnbound(bound, files, fate, readFate); }
    }
  }

  lemma PushUnbound(bound: Outcome, files: Files, fate: Fate, readFate: Fate)
    requires !bound.ok
    ensures PushBound(bound, files, fate, readFate) == bound
  {
  }

  /** The flush and the alignment of a push. */
  lemma PushBoundKeeps(k: ResumeKey, bound: Outcome, files: Files, fate: Fate, readFate: Fate)
    requires bound.ok && TableSound(bound.table, files)
    requires PluginSound(k, bound.memory, bound.table) && PluginSound(k, bound.disk, bound.table)
    requires bound.memory.path == bound.disk.path
    ensures var memory := bound.memory.(dirty := true);
            var flushed := Flush(true, memory, bound.disk, files, bound.table, fate);
            var out := PushBound(bound, files, fate, readFate);
            && Keeps(k, bound.disk, bound.table, files, out, Posted(true, memory, files))
            && out.disk.path == bound.disk.path
            && (CursorOk(bound.memory, bound.table) && CursorOk(bound.disk, bound.table)
                && (flushed.ok ==> InStep(flushed))
                ==> CursorOk(out.disk, out.table))
  {
    hide Flush, Posted, Align, TableSound, Grows, Adds, InStep, PostedSound;
    var memory := bound.memory.(dirty := true);
    FlushKeeps(k, true, memory, bound.disk, files, bound.table, fate);
    var flushed := Flush(true, memory, bound.disk, files, bound.table, fate);
    if flushed.ok {
      AlignDelivers(k, flushed, files, readFate);
      var out := Align(flushed, readFate);
      GrowsTransitive(bound.table, flushed.table, out.table);
      AddsTransitive(bound.table, flushed.table, out.table, Posted(true, memory, files), None);
      var posted := Posted(true, memory, files);
      if posted.Some? {
        PostedSurvives(k, flushed.disk, out.disk, posted.value, flushed.table, out.table, files);
      }
    }
  }

  lemma HookKeeps(k: ResumeKey, p: Plugin, h: Hook, files: Files, t: Table)
    requires TableSound(t, files) && PluginSound(k, p, t)
    ensures Keeps(k, p, t, files, RunHook(k, p, h, files, t), PostedBy(k, p, h, files, t))
    ensures CursorOk(p, t) && !h.OnPush? ==>
              CursorOk(RunHook(k, p, h, files, t).disk, RunHook(k, p, h, files, t).table)
  {
    hide SessionStart, Stop, PreCompact, SessionEnd, Push, Posted, TableSound;
    match h
    case OnSessionStart(payload, c, now, built, fate) =>
      SessionStartDelivers(k, p, payload, c, now, built, files, t, fate);
    case OnPostToolUse(payload) =>
    case OnStop(payload, fate) =>
      StopKeeps(k, p, payload, files, t, fate);
    case OnPreCompact(payload, fate) =>
      PreCompactKeeps(k, p, payload, files, t, fate);
    case OnSessionEnd(payload, now, fate, closeFate) =>
      SessionEndKeeps(k, p, payload, files, t, now, fate, closeFate);
    case OnPush(c, now, built, connectFate, fate, readFate) =>
      PushKeeps(k, p, c, now, built, files, t, connectFate, fate, readFate);
  }

  // ---------------------------------------------------------------- one step

  lemma SliceSurvivesAppend(files: Files, at: Path, bytes: Bytes, path: Path, start: int, end: int, content: Bytes)
    requires Slice(files, path, start, end, content)
    ensures Slice(Appended(files, at, bytes), path, start, end, content)
  {
    if path == at {
      assert (files[path] + bytes)[start..end] == files[path][start..end];
    }
  }

  lemma AppendKeepsSound(w: World, path: Path, bytes: Bytes)
    requires Sound(w)
    ensures Sound(w.(files := Appended(w.files, path, bytes)))
  {
    var files' := Appended(w.files, path, bytes);
    forall i | 0 <= i < |w.table| ensures SessionSound(w.table[i], files') {
      var s := w.table[i];
      assert SessionSound(s, w.files);
      forall j | 0 <= j < |s.chunks|
        ensures Slice(files', s.chunks[j].source, s.chunks[j].start, s.chunks[j].end, s.chunks[j].content)
      {
        var c := s.chunks[j];
        SliceSurvivesAppend(w.files, path, bytes, c.source, c.start, c.end, c.content);
      }
    }
    forall u | u in w.sent ensures UploadSound(u, w.table, files') {
      SliceSurvivesAppend(w.files, path, bytes, u.source, u.start, u.end, u.content);
    }
    forall k ensures PluginOf(w.(files := files'), k) == PluginOf(w, k) {
    }
  }

  /** A table change that leaves the plugins and messages alone. */
  lemma TableChangeKeepsSound(w: World, t': Table)
    requires Sound(w)
    requires TableSound(t', w.files) && Grows(w.table, t')
    requires forall i :: 0 <= i < |t'| && t'[i].chunks != [] && !(i < |w.table| && w.table[i].chunks == t'[i].chunks)
                         ==> Authored(w, t'[i].key)
    ensures Sound(w.(table := t'))
    ensures CursorsOk(w) ==> CursorsOk(w.(table := t'))
  {
    var w' := w.(table := t');
    hide TableSound;
    forall k ensures PluginOf(w', k) == PluginOf(w, k) {
    }
    forall k | k in w.plugins ensures PluginSound(k, w.plugins[k], t') {
      PluginSurvivesGrowth(k, w.plugins[k], w.table, t');
    }
    if CursorsOk(w) {
      forall k | k in w.plugins ensures CursorOk(w.plugins[k], t') {
        PluginSurvivesGrowth(k, w.plugins[k], w.table, t');
      }
    }
  }

  lemma HookKeepsSound(w: World, k: ResumeKey, out: Outcome, posted: Option<Upload>)
    requires Sound(w)
    requires Keeps(k, PluginOf(w, k), w.table, w.files, out, posted)
    ensures var w' := w.(table := out.table, plugins := w.plugins[k := out.disk],
                         sent := if posted.Some? then w.sent + {posted.value} else w.sent);
            && Sound(w')
            && (CursorsOk(w) && CursorOk(out.disk, out.table) ==> CursorsOk(w'))
  {
    var w' := w.(table := out.table, plugins := w.plugins[k := out.disk],
                 sent := if posted.Some? then w.sent + {posted.value} else w.sent);
    hide TableSound, Slice;
    forall k' | Authored(w, k') ensures Authored(w', k') {
    }
    forall k' | k' in w'.plugins ensures PluginSound(k', w'.plugins[k'], w'.table) {
      if k' != k {
        PluginSurvivesGrowth(k', w.plugins[k'], w.table, out.table);
      }
    }
    forall u | u in w'.sent ensures UploadSound(u, w'.table, w'.files) && Authored(w', w'.table[u.session].key) {
      if u in w.sent {
        assert UploadSound(u, w.table, w.files);
        assert Authored(w, w.table[u.session].key);
      }
    }
    forall i | 0 <= i < |w'.table| && w'.table[i].chunks != [] ensures Authored(w', w'.table[i].key) {
      if i < |w.table| && w.table[i].chunks == w'.table[i].chunks {
        assert Authored(w, w.table[i].key);
      }
    }
    if CursorsOk(w) && CursorOk(out.disk, out.table) {
      forall k' | k' in w'.plugins ensures CursorOk(w'.plugins[k'], w'.table) {
        if k' != k {
          PluginSurvivesGrowth(k', w.plugins[k'], w.table, out.table);
        }
      }
    }
  }

  /** Every event keeps the system sound, whatever is lost, crashed or delivered again. */
  lemma StepKeepsSound(w: World, e: Event)
    requires Sound(w)
    ensures Sound(Step(w, e))
    ensures CursorsOk(w) && NoDrift(w, e) ==> CursorsOk(Step(w, e))
  {
    hide RunHook, PostedBy, UploadChunk, Connect, Disconnect, EnsureSession, Flush, Appended;
    match e
    case Append(path, bytes) =>
      AppendKeepsSound(w, path, bytes);
    case Run(k, h) =>
      HookKeeps(k, PluginOf(w, k), h, w.files, w.table);
      HookKeepsSound(w, k, RunHook(k, PluginOf(w, k), h, w.files, w.table),
                     PostedBy(k, PluginOf(w, k), h, w.files, w.table));
      if CursorsOk(w) && NoDrift(w, e) {
        HookKeepsCursor(w, k, h);
      }
    case Redeliver(u) =>
      if u in w.sent {
        UploadStep(w.table, u, w.files);
        TableChangeKeepsSound(w, Settled(w.table, UploadChunk(w.table, u)));
      }
    case StrayConnect(k, c, now, built) =>
      ConnectStep(w.table, k, c, now, built, w.files);
      TableChangeKeepsSound(w, Connect(w.table, k, c, now, built).table);
    case StrayDisconnect(id, now) =>
      DisconnectStep(w.table, id, now, w.files);
      TableChangeKeepsSound(w, Settled(w.table, Disconnect(w.table, id, now)));
  }

  /** A session start binds at the server's cursor, and an accepted upload ends there. */
  lemma LandsInStepIff(w: World, k: ResumeKey, h: Hook)
    requires Sound(w) && h.OnPush?
    ensures LandsInStep(w, k, h) <==> NoDrift(w, Run(k, h))
  {
    hide UploadChunk, Connect, SessionSound, UploadSound, Flush, Posted, InStep;
    var p := PluginOf(w, k);
    var bound := EnsureSession(p, k, h.conversation, h.now, h.built, w.table, h.connectFate);
    if p.session.None? && bound.ok {
      ReplyIsCursor(w.table, w.files, k, h.conversation, h.now, h.built);
      ConnectBinds(w.table, k, h.conversation, h.now, h.built);
      SyncedAtCut(bound.table, bound.memory.session.value);
    }
    if bound.ok {
      FlushLandsInStepIff(bound.memory.(dirty := true), bound.disk, w.files, bound.table, h.fate);
    }
  }

  lemma SyncedAtCut(t: Table, i: nat)
    requires TableOk(t) && i < |t|
    ensures t[i].synced == Cut(t[i].chunks, |t[i].chunks|)
  {
    assert SessionOk(t[i]);
  }

  /** A forced flush that returns is in step exactly when it uploaded something, or the session had no more than the offset. */
  lemma FlushLandsInStepIff(memory: Plugin, disk: Plugin, files: Files, t: Table, fate: Fate)
    requires TableOk(t)
    ensures var out, posted := Flush(true, memory, disk, files, t, fate), Posted(true, memory, files);
            && (posted.None? ==> out.ok)
            && (out.ok ==>
                  (InStep(out) <==>
                     || memory.session.None? || posted.Some?
                     || (memory.session.value < |t| ==> t[memory.session.value].synced <= memory.offset)))
  {
    hide UploadChunk, TableOk;
    var posted := Posted(true, memory, files);
    if posted.Some? {
      UploadAccepted(t, posted.value);
    }
  }

  lemma HookKeepsCursor(w: World, k: ResumeKey, h: Hook)
    requires Sound(w) && CursorsOk(w) && NoDrift(w, Run(k, h))
    ensures var out := RunHook(k, PluginOf(w, k), h, w.files, w.table);
            CursorOk(out.disk, out.table)
  {
    hide SessionStart, Stop, PreCompact, SessionEnd, Push, EnsureSession, Flush, TableSound;
    var p := PluginOf(w, k);
    HookKeeps(k, p, h, w.files, w.table);
    if h.OnPush? {
      LandsInStepIff(w, k, h);
      PushKeeps(k, p, h.conversation, h.now, h.built, w.files, w.table, h.connectFate, h.fate, h.readFate);
    }
  }
}
