/**
 Checkpoints, commits and context packages of one conversation as they are created, while messages join it at whatever
 place their date gives them. Clock readings are arbitrary.
 */
module CommitBook {
  import opened Wrappers
  import opened StableSort
  import opened ConversationMessages
  import opened CommitRanges
  import opened ConversationRestore

  datatype Checkpoint = Checkpoint(id: Id, message: Id, parent: Option<Id>, createdAt: int)

  datatype CommitError = NoSuchMessage | CommitExists

  const NEWEST_CHECKPOINT: Checkpoint -> Rank := (c: Checkpoint) => (0 - c.createdAt, 0 - c.id)

  const NEWEST_COMMIT: Commit -> Rank := (c: Commit) => (0 - c.createdAt, 0 - c.id)

  /** A message's checkpoints are ordered by time alone. */
  const NEWEST_FIRST: Checkpoint -> Rank := (c: Checkpoint) => (0 - c.createdAt, 0)

  function ForMessage(message: Id): Checkpoint -> bool {
    (c: Checkpoint) => c.message == message
  }

  /** The newest checkpoint of a message. */
  function NewestFor(checkpoints: seq<Checkpoint>, message: Id): Option<Checkpoint> {
    var own := SortBy(Filter(checkpoints, ForMessage(message)), NEWEST_FIRST);
    if own == [] then None else Some(own[0])
  }

  /**
   The messages are in their order. `known` is a history field: the ids of the messages there were when a commit was
   made. No operation looks at it.
   */
  datatype Book = Book(messages: seq<Message>, checkpoints: seq<Checkpoint>, commits: seq<Commit>,
                       packages: map<Id, seq<Entry>>, known: map<Id, set<Id>>)

  ghost predicate MessagesFit(b: Book) {
    UniqueIds(b.messages) && Sorted(b.messages, IN_ORDER)
  }

  /** The id of the newest commit, by time and then id. */
  function NewestId(commits: seq<Commit>): Option<Id> {
    if commits == [] then None else Some(SortBy(commits, NEWEST_COMMIT)[0].id)
  }

  /** A commit is the child of the newest one there was. */
  ghost predicate ParentIsNewest(commits: seq<Commit>, i: nat)
    requires i < |commits|
  {
    commits[i].parent == NewestId(commits[..i])
  }

  /** Commits in order of creation, each at a message that exists, no two of them at one checkpoint. */
  ghost predicate CommitsFit(b: Book) {
    && UniqueCommits(b.commits)
    && (forall i :: 0 <= i < |b.commits| ==> PositionOf(b.messages, b.commits[i].latestMessage).Some?)
    && (forall i :: 0 <= i < |b.commits| ==> ParentIsNewest(b.commits, i))
    && (forall i, j :: 0 <= i < j < |b.commits| ==> b.commits[i].checkpoint != b.commits[j].checkpoint)
  }

  /** Each commit's checkpoint exists and is at the commit's own message. */
  ghost predicate CheckpointsFit(b: Book) {
    && (forall i, j :: 0 <= i < j < |b.checkpoints| ==> b.checkpoints[i].id != b.checkpoints[j].id)
    && (forall c :: c in b.commits ==> HasCheckpoint(b.checkpoints, c))
  }

  ghost predicate HasCheckpoint(checkpoints: seq<Checkpoint>, c: Commit) {
    CheckpointAt(checkpoints, c.checkpoint, c.latestMessage)
  }

  ghost predicate CheckpointAt(checkpoints: seq<Checkpoint>, id: Id, message: Id) {
    exists i :: 0 <= i < |checkpoints| && checkpoints[i].id == id && checkpoints[i].message == message
  }

  /** One checkpoint has been added. */
  ghost predicate Gains(before: seq<Checkpoint>, after: seq<Checkpoint>, id: Id, message: Id, now: int) {
    && |after| == |before| + 1 && after[..|before|] == before
    && after[|before|] == Checkpoint(id, message, after[|before|].parent, now)
  }

  function IdsOf(messages: seq<Message>): set<Id> {
    set m | m in messages :: m.id
  }

  function KnownTo(ids: set<Id>): Message -> bool {
    (m: Message) => m.id in ids
  }

  /** A package is the snapshot of what its commit introduces now, without the messages that have come since. */
  ghost predicate PackageFits(b: Book, c: Commit) {
    && c.id in b.packages && c.id in b.known && b.known[c.id] <= IdsOf(b.messages)
    && b.packages[c.id] == Snapshot(Filter(PackageRange(b.messages, b.commits, c), KnownTo(b.known[c.id])))
  }

  /** The commits, and nothing else, have a package each. */
  ghost predicate PackagesFit(b: Book) {
    && (forall id :: id in b.packages <==> CommitById(b.commits, id).Some?)
    && (forall c :: c in b.commits ==> PackageFits(b, c))
  }

  ghost predicate Valid(b: Book) {
    MessagesFit(b) && CommitsFit(b) && CheckpointsFit(b) && PackagesFit(b)
  }

  /** The stored package is the snapshot of all that its commit introduces now. */
  ghost predicate PackageTrue(b: Book, c: Commit) {
    c.id in b.packages && b.packages[c.id] == Snapshot(PackageRange(b.messages, b.commits, c))
  }

  ghost predicate PackagesTrue(b: Book) {
    forall c :: c in b.commits ==> PackageTrue(b, c)
  }

  // ---------------------------------------------------------------- commits and their parents

  /** Made at a later clock reading, or at the same one with a higher id. */
  ghost predicate Newer(c: Commit, d: Commit) {
    c.createdAt > d.createdAt || (c.createdAt == d.createdAt && c.id > d.id)
  }

  /** The newest commit is a commit that none is newer than. */
  lemma NewestCommitIs(commits: seq<Commit>) returns (newest: Commit)
    requires commits != []
    ensures newest in commits && NewestId(commits) == Some(newest.id)
    ensures forall x :: x in commits ==> !Newer(x, newest)
  {
    hide SortBy;
    newest := HeadIsLeast(commits, NEWEST_COMMIT);
    assert forall x :: x in commits ==> !Before(NEWEST_COMMIT(x), NEWEST_COMMIT(newest));
  }

  /** A commit's parent is one of those before it, and only the first has none. */
  lemma ParentIsEarlier(commits: seq<Commit>, i: nat)
    requires UniqueCommits(commits) && i < |commits| && ParentIsNewest(commits, i)
    ensures commits[i].parent.None? <==> i == 0
    ensures ParentOf(commits, commits[i]).None? <==> i == 0
    ensures ParentOf(commits, commits[i]).Some? ==> ParentOf(commits, commits[i]).value in commits
  {
    hide NewestId, FirstWhere;
    if i > 0 {
      var newest := NewestCommitIs(commits[..i]);
      assert newest in commits && CommitIs(newest.id)(newest);
    } else {
      assert commits[..0] == [];
      assert NewestId([]) == None by { NoNewest(); }
    }
  }

  lemma NoNewest()
    ensures NewestId([]) == None
  {
  }

  lemma ParentStays(commits: seq<Commit>, added: Commit, i: nat)
    requires UniqueCommits(commits) && i < |commits| && ParentIsNewest(commits, i)
    ensures ParentOf(commits + [added], commits[i]) == ParentOf(commits, commits[i])
  {
    hide FirstWhere, NewestId;
    ParentIsEarlier(commits, i);
    if i > 0 {
      FoundStays(commits, added, CommitIs(commits[i].parent.value));
    }
  }

  /** Each commit up to `n` is newer than the one before it. */
  ghost predicate InOrder(commits: seq<Commit>, n: int) {
    forall i :: 0 < i < n && i < |commits| ==> Newer(commits[i], commits[i - 1])
  }

  lemma {:induction false} LastIsNewer(commits: seq<Commit>, i: nat)
    requires InOrder(commits, |commits|) && i < |commits| - 1
    ensures Newer(commits[|commits| - 1], commits[i])
    decreases |commits| - i
  {
    assert Newer(commits[i + 1], commits[i]);
    if i + 1 < |commits| - 1 {
      LastIsNewer(commits, i + 1);
    }
  }

  /** In order, the newest is the last one. */
  lemma NewestIsLast(commits: seq<Commit>)
    requires InOrder(commits, |commits|) && commits != []
    ensures NewestId(commits) == Some(commits[|commits| - 1].id)
  {
    hide NewestId;
    var newest := NewestCommitIs(commits);
    var i :| 0 <= i < |commits| && commits[i] == newest;
    if i < |commits| - 1 {
      LastIsNewer(commits, i);
    }
  }

  /**
   The commits are a chain, each the child of the one created before it, exactly when every one that has a commit after
   it is newer than the one before it.
   */
  lemma ChainIffInOrder(b: Book)
    requires CommitsFit(b)
    ensures Chain(b.messages, b.commits) <==> InOrder(b.commits, |b.commits| - 1)
  {
    hide NewestId, PositionOf, Newer;
    var commits := b.commits;
    if InOrder(commits, |commits| - 1) {
      forall i | 0 <= i < |commits| ensures ParentIs(commits, i) {
        assert ParentIsNewest(commits, i);
        ParentIsEarlier(commits, i);
        if i > 0 {
          assert InOrder(commits[..i], i);
          NewestIsLast(commits[..i]);
        }
      }
    }
    if Chain(b.messages, commits) {
      forall i | 0 < i < |commits| - 1 ensures Newer(commits[i], commits[i - 1]) {
        ChildOfNewest(commits, i);
      }
    }
  }

  lemma ChildOfNewest(commits: seq<Commit>, i: nat)
    requires UniqueCommits(commits) && 0 < i < |commits| - 1 && ParentIs(commits, i + 1) && ParentIsNewest(commits, i + 1)
    ensures Newer(commits[i], commits[i - 1])
  {
    hide NewestId;
    var newest := NewestCommitIs(commits[..i + 1]);
    var j :| 0 <= j < |commits[..i + 1]| && commits[..i + 1][j] == newest;
    assert j == i;
    assert commits[i - 1] in commits[..i + 1];
  }

  lemma AllPlaced(b: Book, c: Commit)
    requires CommitsFit(b) && c in b.commits
    ensures Placed(b.messages, b.commits, c)
  {
    hide NewestId, FirstWhere, PositionOf;
    var i :| 0 <= i < |b.commits| && b.commits[i] == c;
    ParentIsEarlier(b.commits, i);
  }

  // ---------------------------------------------------------------- a message joins

  function MessageAdded(b: Book, m: Message): Book {
    b.(messages := Place(b.messages, m, IN_ORDER))
  }

  /** The message is dated between the last message of the commit's parent and that of the commit. */
  ghost predicate DatedInside(b: Book, c: Commit, m: Message)
    requires Placed(b.messages, b.commits, c)
  {
    var parent := ParentOf(b.commits, c);
    && Before(IN_ORDER(m), IN_ORDER(b.messages[PositionOf(b.messages, c.latestMessage).value]))
    && (parent.Some? ==>
          Before(IN_ORDER(b.messages[PositionOf(b.messages, parent.value.latestMessage).value]), IN_ORDER(m)))
  }

  /** A message joins the range of exactly the commits it is dated inside. */
  lemma DatedInsideIff(b: Book, c: Commit, m: Message)
    requires MessagesFit(b) && Placed(b.messages, b.commits, c) && forall x :: x in b.messages ==> x.id != m.id
    ensures var start, p := StartAfter(b.messages, ParentOf(b.commits, c)), PlaceAt(b.messages, m, IN_ORDER);
            && MessageAdded(b, m).messages == Inserted(b.messages, p, m)
            && (DatedInside(b, c, m) <==> start <= p <= PositionOf(b.messages, c.latestMessage).value)
  {
    hide PositionOf, ParentOf, Inserted, Place, PlaceAt;
    PlaceInserts(b.messages, m, IN_ORDER);
  }

  lemma AddedFits(b: Book, m: Message)
    requires MessagesFit(b) && forall x :: x in b.messages ==> x.id != m.id
    ensures MessagesFit(MessageAdded(b, m))
    ensures IdsOf(b.messages) <= IdsOf(MessageAdded(b, m).messages) && m.id !in IdsOf(b.messages)
  {
    hide Place, PlaceAt;
    PlaceSorts(b.messages, m, IN_ORDER);
    PlaceInserts(b.messages, m, IN_ORDER);
    hide Sorted;
    var after := Inserted(b.messages, PlaceAt(b.messages, m, IN_ORDER), m);
    forall x | x in b.messages ensures x in after {
      assert x in multiset(after);
    }
  }

  /** A message keeps the book, and a package stays true exactly when the message is not dated inside its commit. */
  lemma MessageKeeps(b: Book, m: Message)
    requires Valid(b) && forall x :: x in b.messages ==> x.id != m.id
    ensures Valid(MessageAdded(b, m))
    ensures forall c :: c in b.commits ==>
                          && Placed(b.messages, b.commits, c)
                          && (PackageTrue(MessageAdded(b, m), c) <==> PackageTrue(b, c) && !DatedInside(b, c, m))
  {
    hide PositionOf, CheckpointsFit, MessagesFit, CommitById, PackageFits, PackageTrue, DatedInside, Placed, IdsOf, MessageAdded;
    var t := MessageAdded(b, m);
    assert t == b.(messages := t.messages) by { MessagesOnly(b, m); }
    AddedFits(b, m);
    forall c | c in b.commits
      ensures PackageFits(t, c) && PositionOf(t.messages, c.latestMessage).Some? && Placed(b.messages, b.commits, c)
      ensures PackageTrue(t, c) <==> PackageTrue(b, c) && !DatedInside(b, c, m)
    {
      AllPlaced(b, c);
      PackageAfter(b, c, m);
    }
    assert CheckpointsFit(t) by { CheckpointsAside(b, t); }
    assert CommitsFit(t);
    assert PackagesFit(t);
  }

  lemma MessagesOnly(b: Book, m: Message)
    ensures MessageAdded(b, m) == b.(messages := MessageAdded(b, m).messages)
  {
  }

  /** One package after a message has joined. */
  lemma PackageAfter(b: Book, c: Commit, m: Message)
    requires MessagesFit(b) && PackageFits(b, c) && Placed(b.messages, b.commits, c)
    requires forall x :: x in b.messages ==> x.id != m.id
    ensures PackageFits(MessageAdded(b, m), c) && PositionOf(MessageAdded(b, m).messages, c.latestMessage).Some?
    ensures PackageTrue(MessageAdded(b, m), c) <==> PackageTrue(b, c) && !DatedInside(b, c, m)
  {
    hide PositionOf, ParentOf, PackageRange, Filter, Snapshot, Inserted, DatedInside, Place, PlaceAt, StartAfter, MessagesFit,
         IdsOf;
    var range := PackageRange(b.messages, b.commits, c);
    var p := PlaceAt(b.messages, m, IN_ORDER);
    DatedInsideIff(b, c, m);
    AddedFits(b, m);
    RangeAfterInsert(b.messages, p, m, b.commits, c);
    PositionShifts(b.messages, p, m, c.latestMessage);
    if DatedInside(b, c, m) {
      FilterInserted(range, p - StartAfter(b.messages, ParentOf(b.commits, c)), m, KnownTo(b.known[c.id]));
      ShorterPackage(range, Inserted(range, p - StartAfter(b.messages, ParentOf(b.commits, c)), m), KnownTo(b.known[c.id]));
    }
  }

  /** The snapshot of some messages of a range is not that of a longer range. */
  lemma ShorterPackage(range: seq<Message>, longer: seq<Message>, known: Message -> bool)
    requires |range| < |longer|
    ensures Snapshot(Filter(range, known)) != Snapshot(longer)
  {
    assert |Filter(range, known)| < |longer|;
  }

  lemma CheckpointsAside(b: Book, t: Book)
    requires CheckpointsFit(b) && t.commits == b.commits && t.checkpoints == b.checkpoints
    ensures CheckpointsFit(t)
  {
  }

  /** A package is true exactly when all that its commit introduces now was there when the commit was made. */
  lemma PackageTrueIff(b: Book, c: Commit)
    requires PackageFits(b, c)
    ensures PackageTrue(b, c) <==> forall m :: m in PackageRange(b.messages, b.commits, c) ==> m.id in b.known[c.id]
  {
    hide PackageRange, Snapshot, Filter;
    var range, known := PackageRange(b.messages, b.commits, c), KnownTo(b.known[c.id]);
    var all := (m: Message) => true;
    FilterTwiceIff(range, known, all);
    FilterAll(range, all, true);
    FilterAll(Filter(range, known), all, true);
  }

  // ---------------------------------------------------------------- a commit joins

  lemma CheckpointKeeps(b: Book, c: Checkpoint)
    requires CheckpointsFit(b) && forall x :: x in b.checkpoints ==> x.id != c.id
    ensures CheckpointsFit(b.(checkpoints := b.checkpoints + [c]))
  {
    var after := b.checkpoints + [c];
    forall x | x in b.commits ensures HasCheckpoint(after, x) {
      var i :| 0 <= i < |b.checkpoints| && b.checkpoints[i].id == x.checkpoint && b.checkpoints[i].message == x.latestMessage;
      assert after[i] == b.checkpoints[i];
    }
  }

  /** The commit that `create_commit` appends, with its package. */
  function Committed(b: Book, c: Commit): Book {
    var commits := b.commits + [c];
    b.(commits := commits, packages := b.packages[c.id := Snapshot(PackageRange(b.messages, commits, c))],
       known := b.known[c.id := IdsOf(b.messages)])
  }

  /** A commit fits as a child of the newest one, at a checkpoint of its message that no commit has. */
  ghost predicate Follows(b: Book, c: Commit) {
    && PositionOf(b.messages, c.latestMessage).Some?
    && c.parent == NewestId(b.commits)
    && (forall x :: x in b.commits ==> x.id != c.id && x.checkpoint != c.checkpoint)
    && HasCheckpoint(b.checkpoints, c)
  }

  lemma CommitKeepsCommits(b: Book, c: Commit)
    requires CommitsFit(b) && Follows(b, c)
    ensures CommitsFit(Committed(b, c))
  {
    hide PositionOf, PackageRange, Snapshot, HasCheckpoint, NewestId, IdsOf;
    var after := b.commits + [c];
    forall i, j | 0 <= i < j < |after| ensures after[i].id != after[j].id && after[i].checkpoint != after[j].checkpoint {
      assert after[i] in b.commits;
    }
    forall i | 0 <= i < |after| ensures ParentIsNewest(after, i) {
      if i < |b.commits| {
        assert ParentIsNewest(b.commits, i) && after[..i] == b.commits[..i];
      } else {
        assert after[..i] == b.commits;
      }
    }
  }

  /** Earlier packages are as they were, and the new one is true. */
  lemma CommitKeepsPackages(b: Book, c: Commit)
    requires CommitsFit(b) && Follows(b, c) && PackagesFit(b)
    ensures PackagesFit(Committed(b, c)) && PackageTrue(Committed(b, c), c)
    ensures forall x :: x in b.commits ==> (PackageTrue(Committed(b, c), x) <==> PackageTrue(b, x))
  {
    hide PositionOf, FirstWhere, Snapshot, HasCheckpoint, Slice, StartAfter, NewestId, Filter, IdsOf;
    var t := Committed(b, c);
    forall id ensures id in t.packages <==> CommitById(t.commits, id).Some? {
      FoundStays(b.commits, c, CommitIs(id));
    }
    forall x | x in b.commits
      ensures PackageFits(t, x) && (PackageTrue(t, x) <==> PackageTrue(b, x))
    {
      var i :| 0 <= i < |b.commits| && b.commits[i] == x;
      assert PackageFits(b, x) && ParentIsNewest(b.commits, i);
      ParentStays(b.commits, c, i);
    }
    RangeIsKnown(t.messages, t.commits, c);
  }

  lemma RangeIsKnown(messages: seq<Message>, commits: seq<Commit>, c: Commit)
    ensures var range := PackageRange(messages, commits, c); Filter(range, KnownTo(IdsOf(messages))) == range
  {
    hide PositionOf, ParentOf, StartAfter;
    FilterAll(PackageRange(messages, commits, c), KnownTo(IdsOf(messages)), true);
  }

  lemma CommitKeeps(b: Book, c: Commit)
    requires Valid(b) && Follows(b, c)
    ensures Valid(Committed(b, c))
    ensures PackagesTrue(Committed(b, c)) <==> PackagesTrue(b)
  {
    hide MessagesFit, CommitsFit, CheckpointsFit, PackagesFit, PackageTrue, Follows, Committed;
    CommitKeepsCommits(b, c);
    CommitKeepsPackages(b, c);
    CommittedBook(b, c);
    SameMessages(b, Committed(b, c));
    CheckpointsKept(b, c);
  }

  lemma CommittedBook(b: Book, c: Commit)
    ensures Committed(b, c).messages == b.messages && Committed(b, c).checkpoints == b.checkpoints
    ensures Committed(b, c).commits == b.commits + [c]
  {
  }

  lemma CheckpointsKept(b: Book, c: Commit)
    requires CheckpointsFit(b) && Follows(b, c)
    ensures CheckpointsFit(Committed(b, c))
  {
    hide PackageRange, Snapshot, PositionOf, NewestId, IdsOf;
  }

  lemma SameMessages(b: Book, t: Book)
    requires MessagesFit(b) && t.messages == b.messages
    ensures MessagesFit(t)
  {
  }

  // ---------------------------------------------------------------- restoring the stored packages

  ghost function StoredInOrder(b: Book, nows: seq<int>, n: nat): seq<Said>
    requires n <= |b.commits| && n <= |nows| && PackagesFit(b)
  {
    if n == 0 then []
    else
      assert PackageFits(b, b.commits[n - 1]);
      StoredInOrder(b, nows, n - 1) + DecodeAll(b.packages[b.commits[n - 1].id], nows[n - 1])
  }

  /** Whatever has come into the commit's range since it was made says nothing. */
  ghost predicate SaidInTime(b: Book, c: Commit) {
    c.id in b.known && forall m :: m in PackageRange(b.messages, b.commits, c) && m.content != "" ==> m.id in b.known[c.id]
  }

  lemma PackageSays(b: Book, c: Commit, now: int)
    requires PackageFits(b, c)
    ensures var stored, range := DecodeAll(b.packages[c.id], now),
                                 DecodeAll(Snapshot(PackageRange(b.messages, b.commits, c)), now);
            && |stored| <= |range|
            && (|stored| == |range| ==> SaidInTime(b, c))
            && (SaidInTime(b, c) ==> stored == range)
  {
    hide PackageRange, Snapshot, Filter, DecodeAll, AllSaid;
    var range, known := PackageRange(b.messages, b.commits, c), KnownTo(b.known[c.id]);
    RestoreRoundTrip(Filter(range, known), now);
    RestoreRoundTrip(range, now);
    FilterTwiceIff(range, known, HasContent());
  }

  lemma {:induction false} StoredIffInTime(b: Book, nows: seq<int>, n: nat)
    requires n <= |b.commits| && n <= |nows| && PackagesFit(b)
    ensures var stored, restored := StoredInOrder(b, nows, n), RestoredInOrder(b.messages, b.commits, nows, n);
            && |stored| <= |restored|
            && (|stored| == |restored| ==> forall i :: 0 <= i < n ==> SaidInTime(b, b.commits[i]))
            && ((forall i :: 0 <= i < n ==> SaidInTime(b, b.commits[i])) ==> stored == restored)
  {
    hide DecodeAll, Snapshot, PackageRange, SaidInTime, PackageFits, CommitById;
    if n > 0 {
      StoredIffInTime(b, nows, n - 1);
      assert PackageFits(b, b.commits[n - 1]);
      PackageSays(b, b.commits[n - 1], nows[n - 1]);
    }
  }

  /**
   For a chain in which no commit steps back, the stored packages restored in order say what the tip's prefix says
   exactly when no message with content has come into a commit's range after the commit was made.
   */
  lemma BookRestoresIff(b: Book, nows: seq<int>)
    requires Valid(b) && |nows| == |b.commits| && Chain(b.messages, b.commits) && Ascending(b.messages, b.commits)
    ensures StoredInOrder(b, nows, |b.commits|)
            == AllSaid(Filter(b.messages[..EndOf(b.messages, b.commits, |b.commits|)], HasContent()))
            <==> forall c :: c in b.commits ==> SaidInTime(b, c)
  {
    hide Ascending, EndOf, Chain, StoredInOrder, RestoredInOrder, Filter, AllSaid, SaidInTime, PackageFits, CommitById;
    StoredIffInTime(b, nows, |b.commits|);
    RestoreReproducesPrefix(b.messages, b.commits, nows);
    if forall i :: 0 <= i < |b.commits| ==> SaidInTime(b, b.commits[i]) {
      forall c | c in b.commits ensures SaidInTime(b, c) {
        var i :| 0 <= i < |b.commits| && b.commits[i] == c;
      }
    }
  }

  // ---------------------------------------------------------------- the program

  class ConversationCommits {
    var messages: seq<Message>
    var checkpoints: seq<Checkpoint>
    var commits: seq<Commit>
    var packages: map<Id, seq<Entry>>
    ghost var known: map<Id, set<Id>>

    ghost function Now(): Book
      reads this
    {
      Book(messages, checkpoints, commits, packages, known)
    }

    constructor ()
      ensures Valid(Now()) && Now() == Book([], [], [], map[], map[])
    {
      messages, checkpoints, commits, packages, known := [], [], [], map[], map[];
    }

    /** A message joins the ordered conversation where its date puts it; no stored package is looked at. */
    method AddMessage(m: Message)
      requires Valid(Now()) && forall x :: x in messages ==> x.id != m.id
      modifies this`messages
      ensures Valid(Now()) && messages == Place(old(messages), m, IN_ORDER)
      ensures forall c :: c in commits ==>
                            && Placed(old(messages), commits, c)
                            && (PackageTrue(Now(), c) <==> PackageTrue(old(Now()), c) && !DatedInside(old(Now()), c, m))
    {
      MessageKeeps(Now(), m);
      hide Valid, PackageTrue, DatedInside, Placed, Place;
      messages := Place(messages, m, IN_ORDER);
    }

    /** `create_checkpoint_for_message`: the parent is the conversation's newest checkpoint. */
    method CreateCheckpointForMessage(message: Id, id: Id, now: int) returns (c: Checkpoint)
      requires CheckpointsFit(Now()) && forall x :: x in checkpoints ==> x.id != id
      modifies this`checkpoints
      ensures CheckpointsFit(Now()) && checkpoints == old(checkpoints) + [c]
      ensures c.id == id && c.message == message && c.createdAt == now
      ensures c.parent.None? <==> old(checkpoints) == []
      ensures c.parent.Some? ==> exists p :: p in old(checkpoints) && c.parent.value == p.id
                                             && forall x :: x in old(checkpoints) ==>
                                                              x.createdAt < p.createdAt
                                                              || (x.createdAt == p.createdAt && x.id <= p.id)
    {
      hide SortBy;
      var parent: Option<Id> := None;
      if checkpoints != [] {
        ghost var newest := HeadIsLeast(checkpoints, NEWEST_CHECKPOINT);
        assert forall x :: x in checkpoints ==> !Before(NEWEST_CHECKPOINT(x), NEWEST_CHECKPOINT(newest));
        parent := Some(SortBy(checkpoints, NEWEST_CHECKPOINT)[0].id);
      }
      c := Checkpoint(id, message, parent, now);
      CheckpointKeeps(Now(), c);
      hide CheckpointsFit;
      checkpoints := checkpoints + [c];
    }

    /**
     `create_commit`: at the newest checkpoint of the message, made on the spot if there is none, as a child of the newest
     commit. A refused commit leaves everything as it was.
     */
    method CreateCommit(message: Id, id: Id, checkpointId: Id, now: int) returns (r: Result<Commit, CommitError>)
      requires Valid(Now())
      requires forall x :: x in commits ==> x.id != id
      requires forall x :: x in checkpoints ==> x.id != checkpointId
      modifies this
      ensures Valid(Now()) && messages == old(messages)
      ensures r.Failure? ==> Now() == old(Now())
      ensures r == Failure(NoSuchMessage) <==> PositionOf(old(messages), message).None?
      ensures r == Failure(CommitExists) <==>
              && PositionOf(old(messages), message).Some? && NewestFor(old(checkpoints), message).Some?
              && exists x :: x in old(commits) && x.checkpoint == NewestFor(old(checkpoints), message).value.id
      ensures r.Success? ==>
                && commits == old(commits) + [r.value] && r.value.id == id && r.value.latestMessage == message
                && r.value.createdAt == now && r.value.parent == NewestId(old(commits))
                && r.value.checkpoint == (if NewestFor(old(checkpoints), message).None? then checkpointId
                                          else NewestFor(old(checkpoints), message).value.id)
                && (if NewestFor(old(checkpoints), message).None?
                    then Gains(old(checkpoints), checkpoints, checkpointId, message, now)
                    else checkpoints == old(checkpoints))
                && packages == old(packages)[id := Snapshot(PackageRange(messages, commits, r.value))]
                && (PackagesTrue(Now()) <==> PackagesTrue(old(Now())))
    {
      ghost var b := Now();
      hide NewestFor, PositionOf, MessagesFit, CommitsFit, CheckpointsFit, PackagesFit, PackagesTrue, CheckpointAt,
           PackageRange, Snapshot, CommitById, NewestId, IdsOf;
      if PositionOf(messages, message).None? {
        return Failure(NoSuchMessage);
      }
      FreshUntaken(b, checkpointId);
      var at := EnsureCheckpoint(message, checkpointId, now);
      var taken := Taken(at);
      if taken {
        return Failure(CommitExists);
      }
      WithCheckpoints(b, Now());
      var parent := NewestCommit();
      var commit := Commit(id, at, message, parent, now);
      assert Follows(Now(), commit);
      CommitKeeps(Now(), commit);
      hide Valid, Follows;
      commits := commits + [commit];
      packages := packages[id := Snapshot(PackageRange(messages, commits, commit))];
      known := known[id := IdsOf(messages)];
      return Success(commit);
    }

    /** The newest commit, which is the one a new commit becomes the child of. */
    method NewestCommit() returns (parent: Option<Id>)
      ensures parent == NewestId(commits)
      ensures parent.None? <==> commits == []
      ensures parent.Some? ==> exists c :: c in commits && parent.value == c.id
                                           && forall x :: x in commits ==> !Newer(x, c)
    {
      if commits == [] {
        return None;
      }
      ghost var newest := NewestCommitIs(commits);
      hide SortBy, Before;
      return Some(SortBy(commits, NEWEST_COMMIT)[0].id);
    }

    /** The message's newest checkpoint, made now if it has none. */
    method EnsureCheckpoint(message: Id, checkpointId: Id, now: int) returns (at: Id)
      requires CheckpointsFit(Now()) && forall x :: x in checkpoints ==> x.id != checkpointId
      modifies this`checkpoints
      ensures CheckpointsFit(Now()) && CheckpointAt(checkpoints, at, message)
      ensures if NewestFor(old(checkpoints), message).None?
              then at == checkpointId && Gains(old(checkpoints), checkpoints, checkpointId, message, now)
              else checkpoints == old(checkpoints) && at == NewestFor(checkpoints, message).value.id
    {
      hide CheckpointsFit, NewestFor;
      var found := FindCheckpoint(message);
      if found.Some? {
        CheckpointIn(checkpoints, found.value);
        return found.value.id;
      }
      var made := CreateCheckpointForMessage(message, checkpointId, now);
      CheckpointIn(checkpoints, made);
      return made.id;
    }

    /** The newest checkpoint of a message. */
    method FindCheckpoint(message: Id) returns (r: Option<Checkpoint>)
      ensures r == NewestFor(checkpoints, message)
      ensures r.Some? ==> r.value in checkpoints && r.value.message == message
    {
      NewestForIs(checkpoints, message);
      hide SortBy, Filter;
      var own := SortBy(Filter(checkpoints, ForMessage(message)), NEWEST_FIRST);
      if own == [] {
        return None;
      }
      return Some(own[0]);
    }

    method Taken(checkpoint: Id) returns (taken: bool)
      ensures taken <==> exists c :: c in commits && c.checkpoint == checkpoint
    {
      for i := 0 to |commits|
        invariant forall c :: c in commits[..i] ==> c.checkpoint != checkpoint
      {
        if commits[i].checkpoint == checkpoint {
          return true;
        }
      }
      assert commits[..|commits|] == commits;
      return false;
    }
  }

  /** It is a checkpoint of the message, none of them is newer, and it is missing only when there is none. */
  lemma NewestForIs(checkpoints: seq<Checkpoint>, message: Id)
    ensures var newest := NewestFor(checkpoints, message);
            && (newest.Some? ==> newest.value in checkpoints && newest.value.message == message)
            && (forall x :: x in checkpoints && x.message == message ==>
                              newest.Some? && x.createdAt <= newest.value.createdAt)
  {
    hide SortBy, Filter;
    var own := Filter(checkpoints, ForMessage(message));
    if own == [] {
      SortSorts(own, NEWEST_FIRST);
    } else {
      ghost var newest := HeadIsLeast(own, NEWEST_FIRST);
      FilterHas(checkpoints, ForMessage(message), newest);
    }
    forall x | x in checkpoints && x.message == message
      ensures NewestFor(checkpoints, message).Some? && x.createdAt <= NewestFor(checkpoints, message).value.createdAt
    {
      FilterHas(checkpoints, ForMessage(message), x);
      var newest := HeadIsLeast(own, NEWEST_FIRST);
      assert !Before(NEWEST_FIRST(x), NEWEST_FIRST(newest));
    }
  }

  lemma CheckpointIn(checkpoints: seq<Checkpoint>, c: Checkpoint)
    requires c in checkpoints
    ensures CheckpointAt(checkpoints, c.id, c.message)
  {
  }

  /** No commit is at a checkpoint that did not exist, so a checkpoint made for a commit never makes it fail. */
  lemma FreshUntaken(b: Book, id: Id)
    requires CheckpointsFit(b) && forall x :: x in b.checkpoints ==> x.id != id
    ensures forall c :: c in b.commits ==> c.checkpoint != id
  {
    forall c | c in b.commits ensures c.checkpoint != id {
      assert HasCheckpoint(b.checkpoints, c);
      var i :| 0 <= i < |b.checkpoints| && b.checkpoints[i].id == c.checkpoint && b.checkpoints[i].message == c.latestMessage;
      assert b.checkpoints[i] in b.checkpoints;
    }
  }

  lemma WithCheckpoints(b: Book, t: Book)
    requires Valid(b) && t == b.(checkpoints := t.checkpoints) && CheckpointsFit(t)
    ensures Valid(t)
    ensures PackagesTrue(t) <==> PackagesTrue(b)
  {
    hide MessagesFit, CheckpointsFit, PackageRange, Snapshot, PositionOf, NewestId, FirstWhere;
    assert MessagesFit(t) by { SameMessages(b, t); }
    forall c | c in t.commits ensures PackageFits(t, c) && (PackageTrue(t, c) <==> PackageTrue(b, c)) {
      assert PackageFits(b, c);
    }
  }

  // ---------------------------------------------------------------- a chain that steps back

  const FIRST := Message(1, 0, User, "a", None, 1)
  const SECOND := Message(2, 0, Assistant, "b", None, 2)
  const THIRD := Message(3, 0, User, "c", None, 3)

  function StartingBook(): Book {
    Book([FIRST, SECOND, THIRD], [Checkpoint(11, 1, None, 1), Checkpoint(12, 2, Some(11), 2), Checkpoint(13, 3, Some(12), 3)],
         [], map[], map[])
  }

  lemma StartingIsValid()
    ensures Valid(StartingBook())
  {
  }

  lemma StartingHas(message: Id)
    requires 1 <= message <= 3
    ensures CheckpointAt(StartingBook().checkpoints, message + 10, message)
    ensures PositionOf(StartingBook().messages, message) == Some(message - 1)
  {
    hide PositionOf;
    PositionIsFirst(StartingBook().messages, message, message - 1);
    assert StartingBook().checkpoints[message - 1].id == message + 10;
  }

  /** One more commit on a book over the three messages. */
  lemma OneCommit(b: Book, c: Commit)
    requires Valid(b) && b.messages == StartingBook().messages && b.checkpoints == StartingBook().checkpoints
    requires c.parent == NewestId(b.commits) && 1 <= c.latestMessage <= 3 && c.checkpoint == c.latestMessage + 10
    requires forall x :: x in b.commits ==> x.id != c.id && x.checkpoint != c.checkpoint
    ensures var t := Committed(b, c);
            && Valid(t) && t.messages == b.messages && t.checkpoints == b.checkpoints && t.commits == b.commits + [c]
  {
    hide Valid, Committed, PackagesTrue, StartingBook, NewestId, PositionOf, CheckpointAt;
    StartingHas(c.latestMessage);
    CommitKeeps(b, c);
    CommittedBook(b, c);
  }

  /** A commit at the second message, then one at the first. */
  const AT_SECOND := Commit(21, 12, 2, None, 4)
  const BACK_AT_FIRST := Commit(22, 11, 1, Some(21), 5)

  function SteppingBook(): Book {
    Committed(Committed(StartingBook(), AT_SECOND), BACK_AT_FIRST)
  }

  lemma SteppingIsValid()
    ensures Valid(SteppingBook()) && SteppingBook().messages == StartingBook().messages
    ensures SteppingBook().commits == [AT_SECOND, BACK_AT_FIRST]
  {
    StartingIsValid();
    NoNewest();
    hide Valid, Committed, PackagesTrue, NewestId;
    var b := StartingBook();
    OneCommit(b, AT_SECOND);
    var middle := Committed(b, AT_SECOND);
    assert middle.commits == [AT_SECOND];
    NewestIsLast([AT_SECOND]);
    OneCommit(middle, BACK_AT_FIRST);
    assert Committed(middle, BACK_AT_FIRST).commits == [AT_SECOND, BACK_AT_FIRST];
  }

  /** A sound book whose second commit introduces nothing: the ranges are two messages, the tip's prefix is one. */
  lemma StepsBack()
    ensures var b := SteppingBook();
            && Valid(b) && |b.commits| == 2 && Chain(b.messages, b.commits) && !Ascending(b.messages, b.commits)
            && Introduced(b.messages, b.commits, 2) == [FIRST, SECOND]
            && b.messages[..EndOf(b.messages, b.commits, 2)] == [FIRST]
  {
    hide SteppingBook, Ascending, Introduced, EndOf, Chain, Valid;
    var b := SteppingBook();
    SteppingIsValid();
    assert CommitsFit(b) by { CommitsOf(b); }
    ChainIffInOrder(b);
    SteppingRanges(b.messages, b.commits);
  }

  lemma CommitsOf(b: Book)
    requires Valid(b)
    ensures CommitsFit(b)
  {
  }

  lemma SteppingRanges(messages: seq<Message>, commits: seq<Commit>)
    requires messages == [FIRST, SECOND, THIRD] && Chain(messages, commits) && |commits| == 2
    requires commits[0].latestMessage == 2 && commits[1].latestMessage == 1
    ensures !Ascending(messages, commits) && EndOf(messages, commits, 2) == 1
    ensures Introduced(messages, commits, 2) == [FIRST, SECOND]
  {
    StartingHas(1);
    StartingHas(2);
    hide PositionOf, PackageRange, Chain;
    assert EndOf(messages, commits, 0) == 0 && EndOf(messages, commits, 1) == 2 && EndOf(messages, commits, 2) == 1;
    ChainRange(messages, commits, 0);
    ChainRange(messages, commits, 1);
    assert !Advances(messages, commits, 1);
    hide EndOf, Advances, Ascending;
    assert messages[0..2] == [FIRST, SECOND];
    assert Introduced(messages, commits, 1) == [] + messages[0..2];
    assert Introduced(messages, commits, 2) == Introduced(messages, commits, 1) + [];
  }

  // ---------------------------------------------------------------- equal clock readings

  /** Two commits at one clock reading, the second with the smaller id, then a third. */
  const FORK_FIRST := Commit(22, 11, 1, None, 4)
  const FORK_SECOND := Commit(21, 12, 2, Some(22), 4)
  const FORK_THIRD := Commit(23, 13, 3, Some(22), 5)

  function ForkedBook(): Book {
    Committed(Committed(Committed(StartingBook(), FORK_FIRST), FORK_SECOND), FORK_THIRD)
  }

  lemma NewestOfFork()
    ensures NewestId([FORK_FIRST]) == Some(22) && NewestId([FORK_FIRST, FORK_SECOND]) == Some(22)
  {
    var one := NewestCommitIs([FORK_FIRST]);
    var two := NewestCommitIs([FORK_FIRST, FORK_SECOND]);
    assert FORK_FIRST in [FORK_FIRST, FORK_SECOND];
  }

  lemma ForkedIsValid()
    ensures Valid(ForkedBook()) && ForkedBook().messages == StartingBook().messages
    ensures ForkedBook().commits == [FORK_FIRST, FORK_SECOND, FORK_THIRD]
  {
    StartingIsValid();
    NoNewest();
    NewestOfFork();
    hide Valid, Committed, PackagesTrue, NewestId;
    var b := StartingBook();
    OneCommit(b, FORK_FIRST);
    var one := Committed(b, FORK_FIRST);
    assert one.commits == [FORK_FIRST];
    OneCommit(one, FORK_SECOND);
    var two := Committed(one, FORK_SECOND);
    assert two.commits == [FORK_FIRST, FORK_SECOND];
    OneCommit(two, FORK_THIRD);
    assert Committed(two, FORK_THIRD).commits == [FORK_FIRST, FORK_SECOND, FORK_THIRD];
  }

  /** The third commit is the child of the first, and both it and the second introduce the second message. */
  lemma EqualClocksFork()
    ensures var b := ForkedBook();
            && Valid(b) && |b.commits| == 3 && !Chain(b.messages, b.commits)
            && PackageRange(b.messages, b.commits, b.commits[1]) == [SECOND]
            && PackageRange(b.messages, b.commits, b.commits[2]) == [SECOND, THIRD]
  {
    hide ForkedBook, Valid, PackageRange;
    var b := ForkedBook();
    ForkedIsValid();
    assert CommitsFit(b) by { CommitsOf(b); }
    ChainIffInOrder(b);
    assert !Newer(b.commits[1], b.commits[0]);
    ForkRange(b.messages, b.commits, 1);
    ForkRange(b.messages, b.commits, 2);
  }

  lemma ForkRange(messages: seq<Message>, commits: seq<Commit>, i: nat)
    requires messages == [FIRST, SECOND, THIRD] && commits == [FORK_FIRST, FORK_SECOND, FORK_THIRD] && 1 <= i < 3
    ensures PackageRange(messages, commits, commits[i]) == messages[1..i + 1]
  {
    StartingHas(1);
    StartingHas(i + 1);
    hide PositionOf;
    assert CommitById(commits, 22) == Some(FORK_FIRST);
  }

  // ---------------------------------------------------------------- a late reply

  /** The reply is dated when its request began; a note came in, and was committed, while it was awaited. */
  const NOTE_COMMIT := Commit(21, 13, 3, None, 4)

  function PromptedBook(): Book {
    Book([FIRST, THIRD], [Checkpoint(11, 1, None, 1), Checkpoint(13, 3, Some(11), 3)], [], map[], map[])
  }

  function NotedBook(): Book {
    Committed(PromptedBook(), NOTE_COMMIT)
  }

  lemma PromptedIsValid()
    ensures Valid(PromptedBook()) && Follows(PromptedBook(), NOTE_COMMIT)
  {
    assert PromptedBook().checkpoints[1].id == 13;
    NoNewest();
    NotePositions();
    hide PositionOf, NewestId;
  }

  lemma NotePositions()
    ensures PositionOf([FIRST, THIRD], 3) == Some(1)
  {
    hide PositionOf;
    PositionIsFirst([FIRST, THIRD], 3, 1);
  }

  lemma NotedIsValid()
    ensures Valid(NotedBook()) && PackagesTrue(NotedBook())
    ensures NotedBook().messages == [FIRST, THIRD] && NotedBook().commits == [NOTE_COMMIT]
    ensures 21 in NotedBook().known && 2 !in NotedBook().known[21]
  {
    hide Valid, PackageTrue, Follows, Snapshot, PackageRange;
    PromptedIsValid();
    CommitKeeps(PromptedBook(), NOTE_COMMIT);
  }

  /**
   The reply falls inside the commit: the book is sound and its package was true, but is not any more, and restoring it
   does not say what the conversation up to the commit says.
   */
  lemma LateReply(now: int)
    ensures var b, t := NotedBook(), MessageAdded(NotedBook(), SECOND);
            && Valid(b) && PackagesTrue(b) && Valid(t) && !PackagesTrue(t)
            && t.messages == [FIRST, SECOND, THIRD] && t.packages == b.packages
            && StoredInOrder(t, [now], 1) != AllSaid(Filter([FIRST, SECOND, THIRD], HasContent()))
  {
    var b, t := NotedBook(), MessageAdded(NotedBook(), SECOND);
    NotedIsValid();
    SecondBetween();
    hide NotedBook, Valid, PackageTrue, StoredInOrder, Filter, AllSaid, Snapshot;
    MessageKeeps(b, SECOND);
    LateRange(t);
    BookRestoresIff(t, [now]);
  }

  lemma SecondBetween()
    ensures Place([FIRST, THIRD], SECOND, IN_ORDER) == [FIRST, SECOND, THIRD]
  {
  }

  lemma LateRange(t: Book)
    requires Valid(t) && t.messages == [FIRST, SECOND, THIRD] && t.commits == [NOTE_COMMIT]
    requires 21 in t.known && 2 !in t.known[21]
    ensures Chain(t.messages, t.commits) && Ascending(t.messages, t.commits)
    ensures t.messages[..EndOf(t.messages, t.commits, 1)] == t.messages
    ensures !SaidInTime(t, NOTE_COMMIT) && !PackageTrue(t, NOTE_COMMIT)
  {
    StartingHas(3);
    hide PositionOf, PackageFits, PackageTrue, MessagesFit, Snapshot;
    assert EndOf(t.messages, t.commits, 0) == 0 && EndOf(t.messages, t.commits, 1) == 3;
    assert PackageRange(t.messages, t.commits, NOTE_COMMIT) == t.messages[0..3];
    assert NOTE_COMMIT in t.commits && SECOND in PackageRange(t.messages, t.commits, NOTE_COMMIT);
    PackageTrueIff(t, NOTE_COMMIT);
  }
}
