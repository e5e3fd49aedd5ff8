/**
 The server side of transcript synchronisation: the table of external AI sessions,
 their append-only chunks, and the snapshot that is rebuilt from the chunks.
 A session id is its row number in the table.
 */
module TranscriptSessions {
  import opened Wrappers
  import opened StableSort

  type Bytes = seq<bv8>
  type Path(!new, ==, 0) = string

  datatype Provider = ClaudeCode | Codex | GeminiCli | Cursor

  /** What `connect` matches on to resume a session. */
  datatype ResumeKey = ResumeKey(provider: Provider, repository: nat, branch: nat, user: nat, machine: string)

  datatype Status = Active | Closed

  /** `source` is a history field: the transcript file the bytes were read from. No operation looks at it. */
  datatype Chunk = Chunk(sequence: int, start: int, end: int, content: Bytes, source: Path)

  datatype Snapshot = Snapshot(version: int, content: Bytes, characters: int)

  datatype Session = Session(key: ResumeKey, conversation: Option<nat>, startedAt: int, endedAt: Option<int>,
                             status: Status, synced: int, chunks: seq<Chunk>, snapshot: Option<Snapshot>)

  type Table = seq<Session>

  datatype Upload = Upload(session: nat, sequence: int, start: int, end: int, content: Bytes, source: Path)

  datatype Error =
    | SessionNotFound
    | SessionClosed
    | EmptyRange
    | BehindSyncedOffset
    | NotContiguous
    | WrongSequence(expected: int)
    | ChunksOutOfOrder(expected: int, actual: int)
    | ServerFailure

  /** The part of a session response the plugin reads. */
  datatype SessionReply = SessionReply(id: nat, synced: int, chunkCount: nat)

  datatype ConnectOutcome = ConnectOutcome(table: Table, reply: Result<SessionReply, Error>)

  // ---------------------------------------------------------------- chunk rows

  /** Largest sequence number, 0 when there is none. */
  function MaxSequence(chunks: seq<Chunk>): int
    decreases |chunks|
  {
    if chunks == [] then 0
    else if |chunks| == 1 then chunks[0].sequence
    else
      var rest := MaxSequence(chunks[..|chunks| - 1]);
      var last := chunks[|chunks| - 1].sequence;
      if last > rest then last else rest
  }

  function NextSequence(chunks: seq<Chunk>): int {
    MaxSequence(chunks) + 1
  }

  const SEQUENCE_KEY: Chunk -> Rank := (c: Chunk) => (c.sequence, 0)

  /** Rows in ascending sequence order; equal numbers keep their row order. */
  function BySequence(chunks: seq<Chunk>): (ordered: seq<Chunk>)
    ensures |ordered| == |chunks|
  {
    SortBy(chunks, SEQUENCE_KEY)
  }

  /** First position whose number is not position + 1. */
  function FirstMisnumbered(chunks: seq<Chunk>, from: nat): (r: Option<nat>)
    requires from <= |chunks|
    ensures r.None? <==> forall i :: from <= i < |chunks| ==> chunks[i].sequence == i + 1
    ensures r.Some? ==> from <= r.value < |chunks| && chunks[r.value].sequence != r.value + 1
    ensures r.Some? ==> forall i :: from <= i < r.value ==> chunks[i].sequence == i + 1
    decreases |chunks| - from
  {
    if from == |chunks| then None
    else if chunks[from].sequence != from + 1 then Some(from)
    else FirstMisnumbered(chunks, from + 1)
  }

  /** The chunk contents joined in order. */
  function Joined(chunks: seq<Chunk>): Bytes
    decreases |chunks|
  {
    if chunks == [] then [] else Joined(chunks[..|chunks| - 1]) + chunks[|chunks| - 1].content
  }

  /** Where the first m chunks end: the byte cursor after them. */
  function Cut(chunks: seq<Chunk>, m: nat): int
    requires m <= |chunks|
  {
    if m == 0 then 0 else chunks[m - 1].end
  }

  // ---------------------------------------------------------------- invariants

  ghost predicate Numbered(chunks: seq<Chunk>) {
    forall i :: 0 <= i < |chunks| ==> chunks[i].sequence == i + 1
  }

  /** Chunk i is non-empty and starts where the one before it ended. */
  ghost predicate Adjacent(chunks: seq<Chunk>, i: nat)
    requires i < |chunks|
  {
    chunks[i].start == Cut(chunks, i) && chunks[i].start < chunks[i].end
  }

  /** Numbered 1..n, and without gap or overlap. */
  ghost predicate Tiled(chunks: seq<Chunk>) {
    Numbered(chunks) && forall i :: 0 <= i < |chunks| ==> Adjacent(chunks, i)
  }

  /** A snapshot is the joined chunks; it has been rebuilt with each of them, and once more unless the first made it. */
  ghost predicate SnapshotOk(s: Session) {
    match s.snapshot
    case None => s.chunks == []
    case Some(x) =>
      && x.content == Joined(s.chunks) && x.characters == |Joined(s.chunks)|
      && 1 <= x.version && |s.chunks| <= x.version <= |s.chunks| + 1
  }

  /** The snapshot was made before the first chunk. */
  ghost predicate VersionExact(s: Session) {
    s.snapshot.Some? ==> s.snapshot.value.version == |s.chunks| + 1
  }

  ghost predicate SessionOk(s: Session) {
    Tiled(s.chunks) && s.synced == Cut(s.chunks, |s.chunks|) && SnapshotOk(s)
  }

  ghost predicate OneActivePerKey(t: Table) {
    forall i, j :: 0 <= i < j < |t| && t[i].key == t[j].key ==> t[i].status == Closed || t[j].status == Closed
  }

  ghost predicate TableOk(t: Table) {
    (forall i :: 0 <= i < |t| ==> SessionOk(t[i])) && OneActivePerKey(t)
  }

  // ---------------------------------------------------------------- operations

  function RebuildSnapshot(s: Session): Result<Session, Error> {
    var ordered := BySequence(s.chunks);
    var bad := FirstMisnumbered(ordered, 0);
    if bad.Some? then Failure(ChunksOutOfOrder(bad.value + 1, ordered[bad.value].sequence))
    else
      var content := Joined(ordered);
      var version := if s.snapshot.None? then 1 else s.snapshot.value.version + 1;
      Success(s.(snapshot := Some(Snapshot(version, content, |content|))))
  }

  function EnsureSnapshot(s: Session): Result<Session, Error> {
    if s.snapshot.Some? then Success(s) else RebuildSnapshot(s)
  }

  /** The open session to resume: the latest started one, the earlier row on a tie. */
  function FindResumable(t: Table, key: ResumeKey): (r: Option<nat>)
    ensures r.Some? ==> r.value < |t| && t[r.value].key == key && t[r.value].status == Active
    ensures r.None? ==> forall i :: 0 <= i < |t| && t[i].key == key ==> t[i].status.Closed?
    ensures r.Some? ==> forall i :: 0 <= i < |t| && t[i].key == key && t[i].status == Active ==>
                                      t[i].startedAt <= t[r.value].startedAt
    decreases |t|
  {
    if t == [] then None
    else
      var n := |t| - 1;
      var earlier := FindResumable(t[..n], key);
      assert forall i :: 0 <= i < n ==> t[..n][i] == t[i];
      if t[n].key != key || !t[n].status.Active? then earlier
      else if earlier.Some? && t[earlier.value].startedAt >= t[n].startedAt then earlier
      else Some(n)
  }

  function Reply(t: Table, id: nat): SessionReply
    requires id < |t|
  {
    SessionReply(id, t[id].synced, |t[id].chunks|)
  }

  /**
   A new session is committed before its snapshot is built; `built == false` is the server
   failing between the two commits.
   */
  function Connect(t: Table, key: ResumeKey, conversation: Option<nat>, now: int, built: bool): ConnectOutcome {
    var found := FindResumable(t, key);
    if found.Some? then
      var id := found.value;
      var s := if conversation.Some? && t[id].conversation != conversation
               then t[id].(conversation := conversation) else t[id];
      match EnsureSnapshot(s)
      case Success(s') => ConnectOutcome(t[id := s'], Success(Reply(t[id := s'], id)))
      case Failure(e) => ConnectOutcome(t[id := s], Failure(e))
    else
      var s := Session(key, conversation, now, None, Active, 0, [], None);
      if !built then ConnectOutcome(t + [s], Failure(ServerFailure))
      else
        match RebuildSnapshot(s)
        case Success(s') => ConnectOutcome(t + [s'], Success(Reply(t + [s'], |t|)))
        case Failure(e) => ConnectOutcome(t + [s], Failure(e))
  }

  function UploadChunk(t: Table, u: Upload): Result<Table, Error> {
    if u.session >= |t| then Failure(SessionNotFound)
    else
      var s := t[u.session];
      if s.status != Active then Failure(SessionClosed)
      else if u.end <= u.start then Failure(EmptyRange)
      else if u.start < s.synced then Failure(BehindSyncedOffset)
      else if u.start != s.synced then Failure(NotContiguous)
      else if u.sequence != NextSequence(s.chunks) then Failure(WrongSequence(NextSequence(s.chunks)))
      else
        var chunk := Chunk(u.sequence, u.start, u.end, u.content, u.source);
        match RebuildSnapshot(s.(chunks := s.chunks + [chunk], synced := u.end))
        case Success(s') => Success(t[u.session := s'])
        case Failure(e) => Failure(e)
  }

  function Disconnect(t: Table, id: nat, now: int): Result<Table, Error> {
    if id >= |t| then Failure(SessionNotFound)
    else if t[id].status == Closed then Success(t)
    else Success(t[id := t[id].(status := Closed, endedAt := Some(now))])
  }

  /** What the table is after a request that may be rejected: a rejection is rolled back. */
  function Settled(t: Table, r: Result<Table, Error>): Table {
    if r.Success? then r.value else t
  }

  // ---------------------------------------------------------------- chunk lemmas

  lemma {:induction false} TiledMaxSequence(chunks: seq<Chunk>)
    requires Tiled(chunks)
    ensures MaxSequence(chunks) == |chunks|
    decreases |chunks|
  {
    if |chunks| > 1 {
      TiledPrefix(chunks);
      TiledMaxSequence(chunks[..|chunks| - 1]);
    }
  }

  /** On any rows it is the largest number, and 0 when there is none. */
  lemma {:induction false} MaxSequenceIs(chunks: seq<Chunk>)
    ensures chunks == [] ==> MaxSequence(chunks) == 0
    ensures chunks != [] ==> exists c :: c in chunks && c.sequence == MaxSequence(chunks)
    ensures forall c :: c in chunks ==> c.sequence <= MaxSequence(chunks)
    decreases |chunks|
  {
    if |chunks| == 1 {
      assert chunks[0] in chunks;
    } else if chunks != [] {
      var front, last := chunks[..|chunks| - 1], chunks[|chunks| - 1];
      MaxSequenceIs(front);
      assert chunks == front + [last];
    }
  }

  lemma TiledPrefix(chunks: seq<Chunk>)
    requires Tiled(chunks) && chunks != []
    ensures Tiled(chunks[..|chunks| - 1])
  {
    var front := chunks[..|chunks| - 1];
    forall i | 0 <= i < |front| ensures Adjacent(front, i) {
      assert Adjacent(chunks, i);
    }
  }

  lemma TiledAppend(chunks: seq<Chunk>, c: Chunk)
    requires Tiled(chunks)
    requires c.sequence == |chunks| + 1 && c.start == Cut(chunks, |chunks|) && c.start < c.end
    ensures Tiled(chunks + [c])
    ensures forall m: nat :: m <= |chunks| ==> Cut(chunks + [c], m) == Cut(chunks, m)
    ensures Cut(chunks + [c], |chunks| + 1) == c.end
  {
    forall i | 0 <= i < |chunks + [c]| ensures Adjacent(chunks + [c], i) {
      if i < |chunks| {
        assert Adjacent(chunks, i);
      }
    }
  }

  lemma {:induction false} CutsIncrease(chunks: seq<Chunk>, m: nat, n: nat)
    requires Tiled(chunks) && m < n <= |chunks|
    ensures 0 <= Cut(chunks, m) < Cut(chunks, n)
    decreases n
  {
    assert Adjacent(chunks, n - 1);
    if m < n - 1 {
      CutsIncrease(chunks, m, n - 1);
    } else if m > 0 {
      CutsIncrease(chunks, m - 1, m);
    }
  }

  lemma CutsNonNegative(chunks: seq<Chunk>, m: nat)
    requires Tiled(chunks) && m <= |chunks|
    ensures 0 <= Cut(chunks, m) <= Cut(chunks, |chunks|)
  {
    if m < |chunks| {
      CutsIncrease(chunks, m, |chunks|);
    } else if m > 0 {
      CutsIncrease(chunks, m - 1, m);
    }
  }

  /** Rows written by accepted uploads are already in order, so ordering them changes nothing. */
  lemma OrderedAlready(chunks: seq<Chunk>)
    requires Numbered(chunks)
    ensures BySequence(chunks) == chunks
  {
    assert Sorted(chunks, SEQUENCE_KEY);
    SortedIsFixed(chunks, SEQUENCE_KEY);
  }

  /** `_validate_chunk_ordering` never rejects a tiled session, and the snapshot is the joined chunks. */
  lemma RebuildOfTiled(s: Session)
    requires Tiled(s.chunks)
    ensures RebuildSnapshot(s) ==
            Success(s.(snapshot := Some(Snapshot(if s.snapshot.None? then 1 else s.snapshot.value.version + 1,
                                                 Joined(s.chunks), |Joined(s.chunks)|))))
  {
    OrderedAlready(s.chunks);
  }

  /** On any chunks the rebuild fails exactly when, in sequence order, one is not numbered by its place, and names the first. */
  lemma RebuildFailsIff(s: Session)
    ensures var r, ordered := RebuildSnapshot(s), BySequence(s.chunks);
            && (r.Success? <==> Numbered(ordered))
            && (r.Failure? ==>
                  exists i: nat :: FirstAside(ordered, i) && r.error == ChunksOutOfOrder(i + 1, ordered[i].sequence))
  {
    hide BySequence;
    var ordered := BySequence(s.chunks);
    var bad := FirstMisnumbered(ordered, 0);
    if bad.Some? {
      assert FirstAside(ordered, bad.value);
    }
  }

  /** Position i is the first whose number is not its place. */
  ghost predicate FirstAside(chunks: seq<Chunk>, i: nat) {
    i < |chunks| && chunks[i].sequence != i + 1 && forall j :: 0 <= j < i ==> chunks[j].sequence == j + 1
  }

  /** Ensuring a snapshot changes nothing else, and makes a missing one at version 1. */
  lemma EnsureOfSound(s: Session)
    requires SessionOk(s)
    ensures EnsureSnapshot(s).Success?
    ensures var s' := EnsureSnapshot(s).value;
            && SessionOk(s') && s'.snapshot.Some? && s' == s.(snapshot := s'.snapshot)
            && (s.snapshot.Some? ==> s' == s)
            && (s.snapshot.None? ==> s'.snapshot.value.version == 1)
  {
    hide RebuildSnapshot;
    RebuildOfTiled(s);
  }

  lemma NewSnapshot(s: Session)
    requires s.snapshot.None?
    ensures RebuildSnapshot(s) == EnsureSnapshot(s)
  {
  }

  // ---------------------------------------------------------------- what each operation does

  /** The exact acceptance condition of an upload, and its whole effect. */
  lemma UploadAccepted(t: Table, u: Upload)
    requires TableOk(t)
    ensures UploadChunk(t, u).Success? <==>
            && u.session < |t|
            && t[u.session].status == Active
            && u.start < u.end
            && u.start == t[u.session].synced
            && u.sequence == |t[u.session].chunks| + 1
    ensures UploadChunk(t, u).Success? ==>
              var s, s' := t[u.session], UploadChunk(t, u).value[u.session];
              && UploadChunk(t, u).value == t[u.session := s']
              && s'.chunks == s.chunks + [Chunk(u.sequence, u.start, u.end, u.content, u.source)]
              && s'.synced == u.end
              && s'.snapshot.Some?
              && s'.snapshot.value.content == Joined(s.chunks) + u.content
              && s'.snapshot.value.version == (if s.snapshot.None? then 1 else s.snapshot.value.version + 1)
              && s'.key == s.key && s'.status == Active && s'.conversation == s.conversation
              && SessionOk(s')
  {
    hide MaxSequence, Joined, RebuildSnapshot;
    if u.session < |t| {
      var s := t[u.session];
      assert SessionOk(s);
      TiledMaxSequence(s.chunks);
      if s.status == Active && u.start < u.end && u.start == s.synced && u.sequence == |s.chunks| + 1 {
        var c := Chunk(u.sequence, u.start, u.end, u.content, u.source);
        TiledAppend(s.chunks, c);
        RebuildOfTiled(s.(chunks := s.chunks + [c], synced := u.end));
        JoinedAppend(s.chunks, c);
      }
    }
  }

  /** Which error a rejected upload gets: the session's first, then the range's, then its place's, then the number's. */
  lemma UploadRejectedAs(t: Table, u: Upload)
    requires TableOk(t) && UploadChunk(t, u).Failure?
    ensures var error := UploadChunk(t, u).error;
            && (u.session >= |t| ==> error == SessionNotFound)
            && (u.session < |t| ==>
                  var s := t[u.session];
                  && (s.status == Closed ==> error == SessionClosed)
                  && (s.status == Active ==>
                        && (error == EmptyRange <==> u.end <= u.start)
                        && (error == BehindSyncedOffset <==> u.start < u.end && u.start < s.synced)
                        && (error == NotContiguous <==> u.start < u.end && s.synced < u.start)
                        && (u.start < u.end && u.start == s.synced ==>
                              error == WrongSequence(|s.chunks| + 1) && u.sequence != |s.chunks| + 1)))
  {
    hide MaxSequence, RebuildSnapshot;
    if u.session < |t| {
      var s := t[u.session];
      assert SessionOk(s);
      TiledMaxSequence(s.chunks);
      UploadAccepted(t, u);
    }
  }

  lemma JoinedAppend(chunks: seq<Chunk>, c: Chunk)
    ensures Joined(chunks + [c]) == Joined(chunks) + c.content
  {
    assert (chunks + [c])[..|chunks|] == chunks;
  }

  lemma UploadKeepsTable(t: Table, u: Upload)
    requires TableOk(t)
    ensures TableOk(Settled(t, UploadChunk(t, u)))
  {
    hide UploadChunk, SessionOk;
    UploadAccepted(t, u);
  }

  /** Delivering the same upload again changes nothing: duplicates are rejected. */
  lemma DuplicateUploadRejected(t: Table, u: Upload)
    requires TableOk(t)
    ensures UploadChunk(Settled(t, UploadChunk(t, u)), u).Failure?
  {
    UploadAccepted(t, u);
    UploadKeepsTable(t, u);
    UploadAccepted(Settled(t, UploadChunk(t, u)), u);
  }

  /** Connecting never fails on a sound table; it resumes the open session or appends one, and binds to the cursor. */
  lemma ConnectBinds(t: Table, key: ResumeKey, conversation: Option<nat>, now: int, built: bool)
    requires TableOk(t)
    ensures var out := Connect(t, key, conversation, now, built);
            && TableOk(out.table)
            && |t| <= |out.table| <= |t| + 1
            && (out.reply.Failure? ==> !built)
            && (built ==> out.reply.Success?)
            && (!built && |out.table| == |t| + 1 ==> out.reply.Failure? && out.table[|t|].snapshot.None?)
            && (out.reply.Success? ==>
                  var r := out.reply.value;
                  && r.id < |out.table|
                  && out.table[r.id].key == key && out.table[r.id].status == Active
                  && out.table[r.id].snapshot.Some?
                  && (conversation.Some? || r.id == |t| ==> out.table[r.id].conversation == conversation)
                  && r.synced == Cut(out.table[r.id].chunks, |out.table[r.id].chunks|)
                  && r.chunkCount == |out.table[r.id].chunks|)
            && (forall i :: 0 <= i < |t| ==>
                  && out.table[i].key == t[i].key && out.table[i].status == t[i].status
                  && out.table[i].chunks == t[i].chunks && out.table[i].synced == t[i].synced
                  && out.table[i].startedAt == t[i].startedAt && out.table[i].endedAt == t[i].endedAt
                  && (out.table[i].conversation != t[i].conversation ==>
                        conversation.Some? && out.table[i].conversation == conversation
                        && t[i].key == key && t[i].status == Active)
                  && (t[i].snapshot.Some? ==> out.table[i].snapshot == t[i].snapshot)
                  && (VersionExact(t[i]) ==> VersionExact(out.table[i])))
            && (|out.table| == |t| + 1 ==>
                  && out.table[|t|].key == key && out.table[|t|].chunks == [] && VersionExact(out.table[|t|])
                  && out.table[|t|].startedAt == now && out.table[|t|].endedAt == None && out.table[|t|].status == Active
                  && (forall i :: 0 <= i < |t| && t[i].key == key ==> t[i].status == Closed))
            && (|out.table| == |t| ==> exists i :: 0 <= i < |t| && t[i].key == key && t[i].status == Active)
  {
    hide EnsureSnapshot, RebuildSnapshot, FindResumable;
    var found := FindResumable(t, key);
    if found.Some? {
      var s := t[found.value];
      assert SessionOk(s);
      EnsureOfSound(s.(conversation := conversation));
      EnsureOfSound(s);
    } else {
      var s := Session(key, conversation, now, None, Active, 0, [], None);
      EnsureOfSound(s);
      NewSnapshot(s);
    }
  }

  lemma DisconnectCloses(t: Table, id: nat, now: int)
    requires TableOk(t)
    ensures Disconnect(t, id, now).Success? <==> id < |t|
    ensures var t' := Settled(t, Disconnect(t, id, now));
            && TableOk(t') && |t'| == |t|
            && (id < |t| && t[id].status == Closed ==> t' == t)
            && (id < |t| && t[id].status == Active ==> t' == t[id := t[id].(status := Closed, endedAt := Some(now))])
            && (forall i :: 0 <= i < |t| ==>
                  && t'[i].key == t[i].key && t'[i].chunks == t[i].chunks && t'[i].synced == t[i].synced
                  && t'[i].status == (if i == id then Closed else t[i].status)
                  && t'[i].snapshot == t[i].snapshot)
  {
  }

  // ---------------------------------------------------------------- the services

  /** ExternalAISessionService and TranscriptSnapshotService over the session table. */
  class SessionService {
    var sessions: Table

    constructor ()
      ensures sessions == []
    {
      sessions := [];
    }

    method ValidateChunkOrdering(chunks: seq<Chunk>) returns (bad: Option<nat>)
      ensures bad == FirstMisnumbered(chunks, 0)
    {
      var index := 0;
      while index < |chunks|
        invariant index <= |chunks|
        invariant FirstMisnumbered(chunks, 0) == FirstMisnumbered(chunks, index)
      {
        if chunks[index].sequence != index + 1 {
          return Some(index);
        }
        index := index + 1;
      }
      return None;
    }

    method JoinContents(chunks: seq<Chunk>) returns (content: Bytes)
      ensures content == Joined(chunks)
    {
      content := [];
      for i := 0 to |chunks|
        invariant content == Joined(chunks[..i])
      {
        assert chunks[..i + 1][..i] == chunks[..i];
        content := content + chunks[i].content;
      }
      assert chunks[..|chunks|] == chunks;
    }

    /** A failure leaves the table as it was: the caller's transaction is rolled back. */
    method Rebuild(id: nat) returns (failure: Option<Error>)
      requires id < |sessions|
      modifies this
      ensures failure.None? <==> RebuildSnapshot(old(sessions[id])).Success?
      ensures failure.None? ==> sessions == old(sessions)[id := RebuildSnapshot(old(sessions[id])).value]
      ensures failure.Some? ==> sessions == old(sessions) && failure.value == RebuildSnapshot(old(sessions[id])).error
    {
      var s := sessions[id];
      var ordered := BySequence(s.chunks);
      var bad := ValidateChunkOrdering(ordered);
      if bad.Some? {
        return Some(ChunksOutOfOrder(bad.value + 1, ordered[bad.value].sequence));
      }
      var content := JoinContents(ordered);
      if s.snapshot.None? {
        s := s.(snapshot := Some(Snapshot(1, content, |content|)));
      } else {
        s := s.(snapshot := Some(Snapshot(s.snapshot.value.version + 1, content, |content|)));
      }
      sessions := sessions[id := s];
      return None;
    }

    method ConnectSession(key: ResumeKey, conversation: Option<nat>, now: int, built: bool)
      returns (reply: Result<SessionReply, Error>)
      modifies this
      ensures ConnectOutcome(sessions, reply) == Connect(old(sessions), key, conversation, now, built)
    {
      hide RebuildSnapshot, FindResumable;
      var existing := FindResumable(sessions, key);
      if existing.Some? {
        var id := existing.value;
        if conversation.Some? && sessions[id].conversation != conversation {
          sessions := sessions[id := sessions[id].(conversation := conversation)];
        }
        if sessions[id].snapshot.None? {
          var failure := Rebuild(id);
          if failure.Some? {
            return Failure(failure.value);
          }
        }
        return Success(Reply(sessions, id));
      }
      var session := Session(key, conversation, now, None, Active, 0, [], None);
      sessions := sessions + [session];
      if !built {
        return Failure(ServerFailure);
      }
      var failure := Rebuild(|sessions| - 1);
      if failure.Some? {
        return Failure(failure.value);
      }
      return Success(Reply(sessions, |sessions| - 1));
    }

    method Receive(u: Upload) returns (failure: Option<Error>)
      modifies this
      ensures failure.None? <==> UploadChunk(old(sessions), u).Success?
      ensures sessions == Settled(old(sessions), UploadChunk(old(sessions), u))
      ensures failure.Some? ==> failure.value == UploadChunk(old(sessions), u).error
    {
      if u.session >= |sessions| {
        return Some(SessionNotFound);
      }
      var before := sessions;
      var session := sessions[u.session];
      if session.status != Active {
        return Some(SessionClosed);
      }
      if u.end <= u.start {
        return Some(EmptyRange);
      }
      if u.start < session.synced {
        return Some(BehindSyncedOffset);
      }
      if u.start != session.synced {
        return Some(NotContiguous);
      }
      var expected := NextSequence(session.chunks);
      if u.sequence != expected {
        return Some(WrongSequence(expected));
      }
      session := session.(chunks := session.chunks + [Chunk(u.sequence, u.start, u.end, u.content, u.source)]);
      session := session.(synced := u.end);
      sessions := sessions[u.session := session];
      failure := Rebuild(u.session);
      if failure.Some? {
        sessions := before;
      }
    }

    method Close(id: nat, now: int) returns (failure: Option<Error>)
      modifies this
      ensures failure.None? <==> Disconnect(old(sessions), id, now).Success?
      ensures sessions == Settled(old(sessions), Disconnect(old(sessions), id, now))
      ensures failure.Some? ==> failure.value == Disconnect(old(sessions), id, now).error
    {
      if id >= |sessions| {
        return Some(SessionNotFound);
      }
      if sessions[id].status == Active {
        sessions := sessions[id := sessions[id].(status := Closed, endedAt := Some(now))];
      }
      return None;
    }
  }
}
