/**
 The client side of transcript synchronisation: the Claude plugin's hook handlers.
 Each handler is given first as a function of the saved state, the transcript files and the
 server table, then as the step-by-step method that is proved to compute it.
 */
module PluginRuntime {
  import opened Wrappers
  import opened TranscriptSessions

  /** The synchronisation fields of the plugin's state file. */
  datatype Plugin = Plugin(session: Option<nat>, offset: int, nextSequence: int, path: Option<Path>, dirty: bool)

  /** The state of a plugin that has no state file yet. */
  const FRESH_PLUGIN := Plugin(None, 0, 1, None, false)

  type Files = map<Path, Bytes>

  /** What the network and the process do to one request. */
  datatype Fate =
    | RequestLost       // never reaches the server; the call raises
    | ReplyLost         // processed, but the call raises
    | CrashBeforeSave   // processed, but the plugin process dies before it saves
    | Answered

  /** `ok` is false when the handler raised or the process died. */
  datatype Outcome = Outcome(memory: Plugin, disk: Plugin, table: Table, ok: bool)

  // ---------------------------------------------------------------- reading the transcript

  /** Content after the offset clamped to the file, with its start and end offsets. */
  function ReadDelta(files: Files, path: Path, offset: int): (r: (Bytes, int, int))
    ensures r.0 != [] <==> r.1 < r.2
    ensures path in files && 0 <= offset <= |files[path]| ==>
              r.1 == offset && r.2 == |files[path]| && r.0 == files[path][offset..]
    ensures r.0 != [] ==> path in files && 0 <= r.1 < r.2 == |files[path]| && r.0 == files[path][r.1..]
    ensures r.0 != [] && 0 <= offset ==> r.1 == offset
  {
    if path !in files then ([], offset, offset)
    else
      var size := |files[path]|;
      var clamped := if offset < size then offset else size;
      var start := if clamped > 0 then clamped else 0;
      var data := files[path][start..];
      if data == [] then ([], start, start) else (data, start, start + |data|)
  }

  /** The upload a flush sends, if it sends one. */
  function Posted(force: bool, p: Plugin, files: Files): Option<Upload> {
    if (!force && !p.dirty) || p.session.None? || p.path.None? then None
    else
      var (content, start, end) := ReadDelta(files, p.path.value, p.offset);
      if content == [] || end <= start then None
      else Some(Upload(p.session.value, p.nextSequence, start, end, content, p.path.value))
  }

  // ---------------------------------------------------------------- handlers as functions

  function Flushed(p: Plugin, end: int): Plugin {
    p.(offset := end, dirty := false, nextSequence := p.nextSequence + 1)
  }

  function Flush(force: bool, memory: Plugin, disk: Plugin, files: Files, t: Table, fate: Fate): Outcome {
    if (!force && !memory.dirty) || memory.session.None? then Outcome(memory, disk, t, true)
    else
      match Posted(force, memory, files)
      case None =>
        var clean := memory.(dirty := false);
        Outcome(clean, clean, t, true)
      case Some(u) =>
        var moved := memory.(offset := u.start);
        if fate == RequestLost then Outcome(moved, disk, t, false)
        else
          var r := UploadChunk(t, u);
          if fate == Answered && r.Success?
          then Outcome(Flushed(moved, u.end), Flushed(moved, u.end), r.value, true)
          else Outcome(moved, disk, Settled(t, r), false)
  }

  function SessionStart(disk: Plugin, payload: Option<Path>, key: ResumeKey, conversation: Option<nat>,
                        now: int, built: bool, t: Table, fate: Fate): Outcome
  {
    if fate == RequestLost then Outcome(disk, disk, t, false)
    else
      var out := Connect(t, key, conversation, now, built);
      if fate != Answered || out.reply.Failure? then Outcome(disk, disk, out.table, false)
      else
        var r := out.reply.value;
        var bound := Plugin(Some(r.id), r.synced, r.chunkCount + 1,
                            if payload.Some? then payload else disk.path, false);
        Outcome(bound, bound, out.table, true)
  }

  function PostToolUse(disk: Plugin, payload: Option<Path>): Plugin {
    disk.(dirty := true, path := if payload.Some? then payload else disk.path)
  }

  function Stop(disk: Plugin, payload: Option<Path>, files: Files, t: Table, fate: Fate): Outcome {
    var p := if payload.Some? then disk.(path := payload) else disk;
    if p.dirty then Flush(false, p, p, files, t, fate) else Outcome(p, p, t, true)
  }

  function PreCompact(disk: Plugin, payload: Option<Path>, files: Files, t: Table, fate: Fate): Outcome {
    var p := if payload.Some? then disk.(path := payload, dirty := true) else disk;
    Flush(true, p, p, files, t, fate)
  }

  function SessionEnd(disk: Plugin, payload: Option<Path>, files: Files, t: Table, now: int,
                      uploadFate: Fate, closeFate: Fate): Outcome
  {
    var p := if payload.Some? then disk.(path := payload, dirty := true) else disk;
    var out := Flush(true, p, p, files, t, uploadFate);
    if !out.ok || out.memory.session.None? then out else CloseAfter(out, now, closeFate)
  }

  /** Best-effort disconnect: the local binding is cleared whether or not the request got through. */
  function CloseAfter(flushed: Outcome, now: int, closeFate: Fate): Outcome
    requires flushed.memory.session.Some?
  {
    var t' := if closeFate == RequestLost then flushed.table
              else Settled(flushed.table, Disconnect(flushed.table, flushed.memory.session.value, now));
    if closeFate == CrashBeforeSave then Outcome(flushed.memory, flushed.disk, t', false)
    else
      var p := flushed.memory.(session := None, dirty := false);
      Outcome(p, p, t', true)
  }

  function EnsureSession(disk: Plugin, key: ResumeKey, conversation: Option<nat>, now: int, built: bool,
                         t: Table, fate: Fate): Outcome
  {
    if disk.session.Some? then Outcome(disk, disk, t, true)
    else SessionStart(disk, None, key, conversation, now, built, t, fate)
  }

  /** The push command up to the point where it has saved its state. */
  function Push(disk: Plugin, key: ResumeKey, conversation: Option<nat>, now: int, built: bool, files: Files,
                t: Table, connectFate: Fate, uploadFate: Fate, readFate: Fate): Outcome
  {
    PushBound(EnsureSession(disk, key, conversation, now, built, t, connectFate), files, uploadFate, readFate)
  }

  function PushBound(bound: Outcome, files: Files, uploadFate: Fate, readFate: Fate): Outcome {
    if !bound.ok then bound
    else
      var out := Flush(true, bound.memory.(dirty := true), bound.disk, files, bound.table, uploadFate);
      if !out.ok then out else Align(out, readFate)
  }

  /** Reads the session back and moves the local offset to the server's. */
  function Align(out: Outcome, readFate: Fate): Outcome {
    if readFate != Answered || out.memory.session.None? || out.memory.session.value >= |out.table|
    then out.(ok := false)
    else
      var remote := out.table[out.memory.session.value].synced;
      if remote < out.memory.offset then out.(ok := false)
      else
        var aligned := out.memory.(offset := remote);
        Outcome(aligned, aligned, out.table, true)
  }

  // ---------------------------------------------------------------- handlers as code

  /** The dataclass PluginState, updated in place by the handlers. */
  class PluginState {
    var session: Option<nat>
    var offset: int
    var nextSequence: int
    var path: Option<Path>
    var dirty: bool

    constructor (p: Plugin)
      ensures Value() == p
    {
      session, offset, nextSequence, path, dirty := p.session, p.offset, p.nextSequence, p.path, p.dirty;
    }

    function Value(): Plugin
      reads this
    {
      Plugin(session, offset, nextSequence, path, dirty)
    }

    method MarkDirty(transcript: Option<Path>)
      modifies this
      ensures Value() == PostToolUse(old(Value()), transcript)
    {
      dirty := true;
      if transcript.Some? {
        path := transcript;
      }
    }

    method MarkFlushed(end: int)
      modifies this
      ensures Value() == Flushed(old(Value()), end)
    {
      offset := end;
      dirty := false;
      nextSequence := nextSequence + 1;
    }
  }

  /** One machine's plugin: its state file and the hook handlers. */
  class PluginHost {
    var disk: Plugin
    const key: ResumeKey
    const conversation: Option<nat>

    constructor (key: ResumeKey, conversation: Option<nat>)
      ensures disk == FRESH_PLUGIN == Plugin(None, 0, 1, None, false)
      ensures this.key == key && this.conversation == conversation
    {
      this.key, this.conversation := key, conversation;
      disk := FRESH_PLUGIN;
    }

    method SaveState(state: PluginState)
      modifies this
      ensures disk == state.Value()
    {
      disk := state.Value();
    }

    /** `ok == false` stands for a raised exception: the caller stops. */
    method FlushTranscript(force: bool, state: PluginState, files: Files, server: SessionService, fate: Fate)
      returns (ok: bool)
      modifies this, state, server
      ensures Outcome(state.Value(), disk, server.sessions, ok)
           == Flush(force, old(state.Value()), old(disk), files, old(server.sessions), fate)
    {
      if !force && !state.dirty {
        return true;
      }
      if state.session.None? {
        return true;
      }
      if state.path.None? {
        state.dirty := false;
        SaveState(state);
        return true;
      }
      var (content, start, end) := ReadDelta(files, state.path.value, state.offset);
      if content == [] || end <= start {
        state.dirty := false;
        SaveState(state);
        return true;
      }
      if start != state.offset {
        state.offset := start;
      }
      if fate == RequestLost {
        return false;
      }
      var u := Upload(state.session.value, state.nextSequence, start, end, content, state.path.value);
      var failure := server.Receive(u);
      if fate != Answered || failure.Some? {
        return false;
      }
      state.MarkFlushed(end);
      SaveState(state);
      return true;
    }

    method HandleSessionStart(state: PluginState, payload: Option<Path>, now: int, built: bool,
                              server: SessionService, fate: Fate)
      returns (ok: bool)
      requires state.Value() == disk
      modifies this, state, server
      ensures Outcome(state.Value(), disk, server.sessions, ok)
           == SessionStart(old(disk), payload, key, conversation, now, built, old(server.sessions), fate)
    {
      if fate == RequestLost {
        return false;
      }
      var reply := server.ConnectSession(key, conversation, now, built);
      if fate != Answered || reply.Failure? {
        return false;
      }
      state.session := Some(reply.value.id);
      state.offset := reply.value.synced;
      state.nextSequence := reply.value.chunkCount + 1;
      state.dirty := false;
      if payload.Some? {
        state.path := payload;
      }
      SaveState(state);
      return true;
    }

    method HandlePostToolUse(payload: Option<Path>)
      modifies this
      ensures disk == PostToolUse(old(disk), payload)
    {
      var state := new PluginState(disk);
      state.MarkDirty(payload);
      SaveState(state);
    }

    method HandleStop(payload: Option<Path>, files: Files, server: SessionService, fate: Fate) returns (ok: bool)
      modifies this, server
      ensures var out := Stop(old(disk), payload, files, old(server.sessions), fate);
              disk == out.disk && server.sessions == out.table && ok == out.ok
    {
      var state := new PluginState(disk);
      if payload.Some? {
        state.path := payload;
        SaveState(state);
      }
      if state.dirty {
        ok := FlushTranscript(false, state, files, server, fate);
        return;
      }
      return true;
    }

    method HandlePreCompact(payload: Option<Path>, files: Files, server: SessionService, fate: Fate)
      returns (ok: bool)
      modifies this, server
      ensures var out := PreCompact(old(disk), payload, files, old(server.sessions), fate);
              disk == out.disk && server.sessions == out.table && ok == out.ok
    {
      var state := new PluginState(disk);
      if payload.Some? {
        state.path := payload;
        state.dirty := true;
        SaveState(state);
      }
      ok := FlushTranscript(true, state, files, server, fate);
    }

    method HandleSessionEnd(payload: Option<Path>, files: Files, now: int, server: SessionService,
                            uploadFate: Fate, closeFate: Fate)
      returns (ok: bool)
      modifies this, server
      ensures var out := SessionEnd(old(disk), payload, files, old(server.sessions), now, uploadFate, closeFate);
              disk == out.disk && server.sessions == out.table && ok == out.ok
    {
      hide Flush, Disconnect;
      var state := new PluginState(disk);
      if payload.Some? {
        state.path := payload;
        state.dirty := true;
        SaveState(state);
      }
      ok := FlushTranscript(true, state, files, server, uploadFate);
      if !ok {
        return;
      }
      if state.session.Some? {
        if closeFate != RequestLost {
          var _ := server.Close(state.session.value, now);
        }
        if closeFate == CrashBeforeSave {
          return false;
        }
        state.session := None;
        state.dirty := false;
        SaveState(state);
      }
      return true;
    }

    method BindIfUnbound(state: PluginState, now: int, built: bool, server: SessionService, fate: Fate)
      returns (ok: bool)
      requires state.Value() == disk
      modifies this, state, server
      ensures Outcome(state.Value(), disk, server.sessions, ok)
           == EnsureSession(old(disk), key, conversation, now, built, old(server.sessions), fate)
    {
      if state.session.Some? {
        return true;
      }
      ok := HandleSessionStart(state, None, now, built, server, fate);
    }

    method AlignOffset(state: PluginState, server: SessionService, readFate: Fate) returns (ok: bool)
      modifies this, state
      ensures Outcome(state.Value(), disk, server.sessions, ok)
           == Align(Outcome(old(state.Value()), old(disk), server.sessions, true), readFate)
    {
      if readFate != Answered || state.session.None? || state.session.value >= |server.sessions| {
        return false;
      }
      var remote := server.sessions[state.session.value].synced;
      if remote < state.offset {
        return false;
      }
      state.offset := remote;
      SaveState(state);
      return true;
    }

    method FlushAndAlign(state: PluginState, files: Files, server: SessionService, uploadFate: Fate, readFate: Fate)
      returns (ok: bool)
      modifies this, state, server
      ensures Outcome(state.Value(), disk, server.sessions, ok)
           == PushBound(Outcome(old(state.Value()), old(disk), old(server.sessions), true), files, uploadFate, readFate)
    {
      state.dirty := true;
      ok := FlushTranscript(true, state, files, server, uploadFate);
      if ok {
        ok := AlignOffset(state, server, readFate);
      }
    }

    method RunPush(files: Files, now: int, built: bool, server: SessionService,
                   connectFate: Fate, uploadFate: Fate, readFate: Fate)
      returns (ok: bool)
      modifies this, server
      ensures var out := Push(old(disk), key, conversation, now, built, files, old(server.sessions),
                              connectFate, uploadFate, readFate);
              disk == out.disk && server.sessions == out.table && ok == out.ok
    {
      hide EnsureSession, Flush, Align;
      var state := new PluginState(disk);
      ok := BindIfUnbound(state, now, built, server, connectFate);
      if ok {
        ok := FlushAndAlign(state, files, server, uploadFate, readFate);
      }
    }
  }
}
