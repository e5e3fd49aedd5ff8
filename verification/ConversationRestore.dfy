/** Snapshots of messages in context packages, and restoring them into a new conversation. */
module ConversationRestore {
  import opened Wrappers
  import opened ConversationMessages
  import opened CommitRanges
  import opened StableSort

  /** A stored field that may be missing or not parse. */
  datatype Field<T> = Absent | Unreadable | Readable(value: T)

  datatype Entry =
    | NotAnObject
    | Item(role: Option<string>, content: Option<string>, author: Field<Id>, createdAt: Field<int>)

  /** What a message says, apart from its id and conversation. */
  datatype Said = Said(role: Role, content: string, author: Option<Id>, createdAt: int)

  function SaidBy(m: Message): Said {
    Said(m.role, m.content, m.author, m.createdAt)
  }

  function RoleName(role: Role): string {
    match role
    case User => "user"
    case Assistant => "assistant"
    case System => "system"
  }

  function ParseRole(name: string): Role {
    if name == "assistant" then Assistant else if name == "system" then System else User
  }

  /** The item of a context package's snapshot for a message. */
  function SnapshotItem(m: Message): Entry {
    Item(Some(RoleName(m.role)), Some(m.content), if m.author.Some? then Readable(m.author.value) else Absent,
         Readable(m.createdAt))
  }

  function Snapshot(messages: seq<Message>): (r: seq<Entry>)
    ensures |r| == |messages|
    ensures forall i :: 0 <= i < |r| ==> r[i] == SnapshotItem(messages[i])
  {
    if messages == [] then [] else [SnapshotItem(messages[0])] + Snapshot(messages[1..])
  }

  /** What `_restore_messages` makes of one item; items without content are skipped. */
  function Decode(entry: Entry, now: int): Option<Said> {
    if entry.NotAnObject? || entry.content.None? || entry.content.value == "" then None
    else
      Some(Said(ParseRole(if entry.role.None? then "user" else entry.role.value), entry.content.value,
                if entry.author.Readable? then Some(entry.author.value) else None,
                if entry.createdAt.Readable? then entry.createdAt.value else now))
  }

  /**
   Only an object with content is restored: as its role if it is "assistant" or "system" and as a user's otherwise, by its
   author if that can be read, and at its time, or else now.
   */
  lemma DecodeIs(entry: Entry, now: int)
    ensures Decode(entry, now).Some? <==> entry.Item? && entry.content.Some? && entry.content.value != ""
    ensures Decode(entry, now).Some? ==>
              var said := Decode(entry, now).value;
              && said.content == entry.content.value
              && (said.role == Assistant <==> entry.role == Some("assistant"))
              && (said.role == System <==> entry.role == Some("system"))
              && (if entry.author.Readable? then said.author == Some(entry.author.value) else said.author == None)
              && (if entry.createdAt.Readable? then said.createdAt == entry.createdAt.value else said.createdAt == now)
  {
  }

  function DecodeAll(entries: seq<Entry>, now: int): seq<Said>
    decreases |entries|
  {
    if entries == [] then []
    else
      var front, last := DecodeAll(entries[..|entries| - 1], now), Decode(entries[|entries| - 1], now);
      if last.None? then front else front + [last.value]
  }

  function HasContent(): Message -> bool {
    (m: Message) => m.content != ""
  }

  function AllSaid(messages: seq<Message>): (r: seq<Said>)
    ensures |r| == |messages|
    ensures forall i :: 0 <= i < |r| ==> r[i] == SaidBy(messages[i])
  {
    if messages == [] then [] else [SaidBy(messages[0])] + AllSaid(messages[1..])
  }

  lemma AllSaidAppend(a: seq<Message>, b: seq<Message>)
    ensures AllSaid(a + b) == AllSaid(a) + AllSaid(b)
  {
    hide AllSaid;
  }

  lemma SnapshotAppend(a: seq<Message>, b: seq<Message>)
    ensures Snapshot(a + b) == Snapshot(a) + Snapshot(b)
  {
    hide Snapshot, SnapshotItem;
  }

  lemma {:induction false} DecodeAppend(a: seq<Entry>, b: seq<Entry>, now: int)
    ensures DecodeAll(a + b, now) == DecodeAll(a, now) + DecodeAll(b, now)
    decreases |b|
  {
    hide Decode;
    if b == [] {
      assert a + b == a;
    } else {
      var n := |b| - 1;
      DecodeAppend(a, b[..n], now);
      assert (a + b)[..|a + b| - 1] == a + b[..n];
    }
  }

  lemma DecodesBack(m: Message, now: int)
    ensures Decode(SnapshotItem(m), now)
            == if m.content == "" then None else Some(Said(m.role, m.content, m.author, m.createdAt))
    ensures SaidBy(m) == Said(m.role, m.content, m.author, m.createdAt)
  {
  }

  /** Restoring a snapshot gives back role, content, author and time of every message that has content. */
  lemma {:induction false} RestoreRoundTrip(messages: seq<Message>, now: int)
    ensures DecodeAll(Snapshot(messages), now) == AllSaid(Filter(messages, HasContent()))
    decreases |messages|
  {
    hide SnapshotItem, Decode, SaidBy, AllSaid;
    if messages != [] {
      var n := |messages| - 1;
      var front, last := messages[..n], messages[n];
      assert messages == front + [last];
      RestoreRoundTrip(front, now);
      SnapshotAppend(front, [last]);
      assert Snapshot([last]) == [SnapshotItem(last)];
      assert (Snapshot(front) + [SnapshotItem(last)])[..n] == Snapshot(front);
      DecodesBack(last, now);
      AllSaidAppend(Filter(front, HasContent()), [last]);
    }
  }

  /** Restoring the packages of a chain one after the other, each at its own time. */
  ghost function RestoredInOrder(messages: seq<Message>, commits: seq<Commit>, nows: seq<int>, n: nat): seq<Said>
    requires n <= |commits| && n <= |nows|
  {
    if n == 0 then []
    else RestoredInOrder(messages, commits, nows, n - 1)
         + DecodeAll(Snapshot(PackageRange(messages, commits, commits[n - 1])), nows[n - 1])
  }

  lemma {:induction false} RestoredIsIntroduced(messages: seq<Message>, commits: seq<Commit>, nows: seq<int>, n: nat)
    requires n <= |commits| && n <= |nows|
    ensures RestoredInOrder(messages, commits, nows, n) == AllSaid(Filter(Introduced(messages, commits, n), HasContent()))
  {
    hide PackageRange, Filter, AllSaid, Snapshot, DecodeAll;
    if n == 0 {
      FilterAll([], HasContent(), true);
      AllSaidAppend([], []);
    } else {
      var range := PackageRange(messages, commits, commits[n - 1]);
      RestoredIsIntroduced(messages, commits, nows, n - 1);
      RestoreRoundTrip(range, nows[n - 1]);
      FilterAppend(Introduced(messages, commits, n - 1), range, HasContent());
      AllSaidAppend(Filter(Introduced(messages, commits, n - 1), HasContent()), Filter(range, HasContent()));
    }
  }

  /** When no commit steps back, the packages restored in order reproduce what the tip's prefix says. */
  lemma RestoreReproducesPrefix(messages: seq<Message>, commits: seq<Commit>, nows: seq<int>)
    requires Chain(messages, commits) && Ascending(messages, commits) && |nows| == |commits|
    ensures RestoredInOrder(messages, commits, nows, |commits|)
            == AllSaid(Filter(messages[..EndOf(messages, commits, |commits|)], HasContent()))
  {
    hide Chain, Ascending, Introduced, EndOf, RestoredInOrder, Filter, AllSaid;
    RestoredIsIntroduced(messages, commits, nows, |commits|);
    AscendingIntroduces(messages, commits, |commits|);
  }

  // ---------------------------------------------------------------- the program

  /** The conversation's activity after restoring: the latest of what it was and the restored times. */
  ghost predicate LatestOf(latest: int, before: int, rows: seq<Message>) {
    && before <= latest
    && (forall m :: m in rows ==> m.createdAt <= latest)
    && (latest == before || exists m :: m in rows && m.createdAt == latest)
  }

  /** The new rows have the new conversation and the given ids, in order. */
  ghost predicate Numbered(rows: seq<Message>, conversation: Id, ids: seq<Id>) {
    |rows| <= |ids| && forall i :: 0 <= i < |rows| ==> rows[i].id == ids[i] && rows[i].conversation == conversation
  }

  lemma NumberedGrows(rows: seq<Message>, conversation: Id, ids: seq<Id>, m: Message)
    requires Numbered(rows, conversation, ids) && |rows| < |ids| && m.id == ids[|rows|] && m.conversation == conversation
    ensures Numbered(rows + [m], conversation, ids)
  {
  }

  /** The body of the restoring loop for one item. */
  method RestoreItem(entry: Entry, conversation: Id, now: int, id: Id) returns (r: Option<Message>)
    ensures r.Some? <==> Decode(entry, now).Some?
    ensures r.Some? ==> SaidBy(r.value) == Decode(entry, now).value && r.value.id == id && r.value.conversation == conversation
  {
    if entry.NotAnObject? || entry.content.None? || entry.content.value == "" {
      return None;
    }
    var role := ParseRole(if entry.role.None? then "user" else entry.role.value);
    var author := if entry.author.Readable? then Some(entry.author.value) else None;
    var createdAt := if entry.createdAt.Readable? then entry.createdAt.value else now;
    return Some(Message(id, conversation, role, entry.content.value, author, createdAt));
  }

  /** `_restore_messages`: adds a row for each item with content and moves the conversation's activity forward. */
  method RestoreMessages(entries: seq<Entry>, conversation: Id, lastActivity: Option<int>, now: int, ids: seq<Id>)
    returns (rows: seq<Message>, latest: int)
    requires |entries| <= |ids|
    ensures AllSaid(rows) == DecodeAll(entries, now)
    ensures Numbered(rows, conversation, ids)
    ensures LatestOf(latest, if lastActivity.Some? then lastActivity.value else now, rows)
  {
    hide AllSaid, LatestOf, Decode, Numbered, SaidBy, DecodeAll;
    rows, latest := [], if lastActivity.Some? then lastActivity.value else now;
    ghost var before := latest;
    assert entries[..0] == [];
    NothingRestored(conversation, ids, now, latest);
    for i := 0 to |entries|
      invariant |rows| <= i && Numbered(rows, conversation, ids)
      invariant AllSaid(rows) == DecodeAll(entries[..i], now)
      invariant LatestOf(latest, before, rows)
    {
      DecodeStep(entries, i, now);
      var restored := RestoreItem(entries[i], conversation, now, ids[|rows|]);
      if restored.None? {
        continue;
      }
      var message := restored.value;
      SaidOneMore(rows, message, DecodeAll(entries[..i], now));
      LatestGrows(latest, before, rows, message);
      NumberedGrows(rows, conversation, ids, message);
      rows := rows + [message];
      if message.createdAt > latest {
        latest := message.createdAt;
      }
    }
    assert entries[..|entries|] == entries;
  }

  lemma NothingRestored(conversation: Id, ids: seq<Id>, now: int, latest: int)
    ensures AllSaid([]) == DecodeAll([], now) && Numbered([], conversation, ids) && LatestOf(latest, latest, [])
  {
  }

  lemma SaidOneMore(rows: seq<Message>, m: Message, before: seq<Said>)
    requires AllSaid(rows) == before
    ensures AllSaid(rows + [m]) == before + [SaidBy(m)]
  {
    AllSaidAppend(rows, [m]);
    AllSaidOne(m);
  }

  lemma DecodeStep(entries: seq<Entry>, i: nat, now: int)
    requires i < |entries|
    ensures var front, next := DecodeAll(entries[..i], now), Decode(entries[i], now);
            DecodeAll(entries[..i + 1], now) == if next.None? then front else front + [next.value]
  {
    assert entries[..i + 1][..i] == entries[..i];
  }

  lemma AllSaidOne(m: Message)
    ensures AllSaid([m]) == [SaidBy(m)]
  {
    hide SaidBy;
  }

  lemma LatestGrows(latest: int, before: int, rows: seq<Message>, m: Message)
    requires LatestOf(latest, before, rows)
    ensures LatestOf(if m.createdAt > latest then m.createdAt else latest, before, rows + [m])
  {
    assert m in rows + [m];
    forall x | x in rows ensures x in rows + [m] {
    }
  }
}
