/** The sync history of a repository branch: an append-only log whose records carry pointers forward, and the state shown for it. */
module BranchHistory {
  import opened Wrappers
  import opened StableSort
  import Forest = ConversationForest

  type Id = nat

  datatype SyncType = LocalCommit | Restore | Attach | Detach | PluginPush | PluginPull | ManualUpdate

  /** What a caller passes to `_append_sync_record`. */
  datatype Given = Given(kind: SyncType, conversation: Option<Id>, convhubBranch: Option<Id>, commit: Option<Id>,
                         package: Option<Id>, user: Option<Id>)

  datatype Record = Record(kind: SyncType, conversation: Option<Id>, convhubBranch: Option<Id>, commit: Option<Id>,
                           package: Option<Id>, user: Option<Id>, version: nat)

  datatype Status = NotSynced | Ready | Outdated | InProgress | Conflicted

  function Or<T>(a: Option<T>, b: Option<T>): Option<T> {
    if a.Some? then a else b
  }

  /** The record appended after `latest`: a detach starts afresh, anything else keeps what it is not given. */
  function Carried(latest: Option<Record>, g: Given, version: nat): Record {
    if g.kind.Detach? then Record(g.kind, g.conversation, None, None, None, g.user, version)
    else if latest.None? then Record(g.kind, g.conversation, g.convhubBranch, g.commit, g.package, g.user, version)
    else
      var l := latest.value;
      Record(g.kind, Or(g.conversation, l.conversation), Or(g.convhubBranch, l.convhubBranch), Or(g.commit, l.commit),
             Or(g.package, l.package), Or(g.user, l.user), version)
  }

  function LastOf(records: seq<Record>): Option<Record> {
    if records == [] then None else Some(records[|records| - 1])
  }

  /** The log after a run of appends. */
  function Replay(given: seq<Given>): (r: seq<Record>)
    ensures |r| == |given|
    decreases |given|
  {
    if given == [] then []
    else
      var front := Replay(given[..|given| - 1]);
      front + [Carried(LastOf(front), given[|given| - 1], |given|)]
  }

  lemma ReplayStep(given: seq<Given>, g: Given)
    ensures Replay(given + [g]) == Replay(given) + [Carried(LastOf(Replay(given)), g, |given| + 1)]
  {
    assert (given + [g])[..|given|] == given;
  }

  /** Over every run the versions are 1, 2, ..., n. */
  lemma {:induction false} VersionsAreDense(given: seq<Given>, i: nat)
    requires i < |given|
    ensures Replay(given)[i].version == i + 1
    decreases |given|
  {
    if i < |given| - 1 {
      VersionsAreDense(given[..|given| - 1], i);
    }
  }

  /** The log only grows: what was recorded first is still there. */
  lemma {:induction false} ReplayExtends(given: seq<Given>, n: nat)
    requires n <= |given|
    ensures Replay(given[..n]) == Replay(given)[..n]
    decreases |given|
  {
    if n == |given| {
      assert given[..n] == given;
    } else {
      var front := given[..|given| - 1];
      ReplayExtends(front, n);
      assert front[..n] == given[..n];
    }
  }

  /** One of a record's pointers. A detach sets the conversation and the user itself and erases the others. */
  datatype Pointer = ConversationOf | UserOf | CommitOf | PackageOf | BranchOf
  {
    function In(g: Given): Option<Id> {
      match this
      case ConversationOf => g.conversation
      case UserOf => g.user
      case CommitOf => if g.kind.Detach? then None else g.commit
      case PackageOf => if g.kind.Detach? then None else g.package
      case BranchOf => if g.kind.Detach? then None else g.convhubBranch
    }

    function Of(r: Record): Option<Id> {
      match this
      case ConversationOf => r.conversation
      case UserOf => r.user
      case CommitOf => r.commit
      case PackageOf => r.package
      case BranchOf => r.convhubBranch
    }
  }

  /** `r` is the pointer given last and not erased by a later detach, or nothing when there is none. */
  ghost predicate LastExplicit(given: seq<Given>, pointer: Pointer, r: Option<Id>) {
    if r.Some? then exists i :: GivenLast(given, pointer, i, r.value)
    else forall i, id :: !GivenLast(given, pointer, i, id)
  }

  /** Position i gives the pointer, and nothing after it gives another or detaches. */
  ghost predicate GivenLast(given: seq<Given>, pointer: Pointer, i: int, id: Id) {
    && 0 <= i < |given| && pointer.In(given[i]) == Some(id)
    && forall j :: i < j < |given| ==> pointer.In(given[j]).None? && !given[j].kind.Detach?
  }

  lemma GivenLastGrows(given: seq<Given>, g: Given, pointer: Pointer, i: int, id: Id)
    ensures GivenLast(given + [g], pointer, i, id)
            <==> if i == |given| then pointer.In(g) == Some(id)
                 else GivenLast(given, pointer, i, id) && pointer.In(g).None? && !g.kind.Detach?
  {
    var after := given + [g];
    if i < |given| && GivenLast(after, pointer, i, id) {
      assert after[|given|] == g;
      forall j | i < j < |given| ensures pointer.In(given[j]).None? && !given[j].kind.Detach? {
        assert after[j] == given[j];
      }
    }
  }

  lemma LastExplicitGrows(given: seq<Given>, g: Given, pointer: Pointer, r: Option<Id>)
    requires LastExplicit(given, pointer, r)
    ensures LastExplicit(given + [g], pointer, if g.kind.Detach? then pointer.In(g) else Or(pointer.In(g), r))
  {
    hide GivenLast;
    var after := given + [g];
    forall i: int, id: Id
      ensures GivenLast(after, pointer, i, id)
              <==> if i == |given| then pointer.In(g) == Some(id)
                   else GivenLast(given, pointer, i, id) && pointer.In(g).None? && !g.kind.Detach?
    {
      GivenLastGrows(given, g, pointer, i, id);
    }
    if pointer.In(g).Some? {
      assert GivenLast(after, pointer, |given|, pointer.In(g).value);
    } else if !g.kind.Detach? && r.Some? {
      var i :| GivenLast(given, pointer, i, r.value);
      NotAtEnd(given, pointer, i, r.value);
      assert GivenLast(after, pointer, i, r.value);
    }
  }

  lemma NotAtEnd(given: seq<Given>, pointer: Pointer, i: int, id: Id)
    requires GivenLast(given, pointer, i, id)
    ensures i < |given|
  {
  }

  /** Over every run each pointer of the latest record is the one last given since the last detach, or nothing. */
  lemma {:induction false} LatestIsLastExplicit(given: seq<Given>, pointer: Pointer)
    requires given != []
    ensures LastExplicit(given, pointer, pointer.Of(Replay(given)[|given| - 1]))
    decreases |given|
  {
    hide LastExplicit, Replay;
    var n := |given| - 1;
    var front, g := given[..n], given[n];
    assert given == front + [g];
    ReplayStep(front, g);
    if n == 0 {
      assert front == [];
      NothingGiven(pointer);
      LastExplicitGrows(front, g, pointer, None);
    } else {
      LatestIsLastExplicit(front, pointer);
      LastExplicitGrows(front, g, pointer, pointer.Of(Replay(front)[n - 1]));
    }
  }

  lemma NothingGiven(pointer: Pointer)
    ensures LastExplicit([], pointer, None)
  {
  }

  // ---------------------------------------------------------------- the sync state

  datatype CommitRow = CommitRow(id: Id, conversation: Id, createdAt: int)

  datatype PackageRow = PackageRow(id: Id, conversation: Id, version: nat, generatedAt: int)

  datatype Conversation = Conversation(repository: Option<Id>, parent: Option<Id>)

  /** The rows the sync service reads. */
  datatype World = World(conversations: map<Id, Conversation>, commits: seq<CommitRow>, packages: seq<PackageRow>)

  const NEWEST_COMMIT: CommitRow -> Rank := (c: CommitRow) => (0 - c.createdAt, 0 - c.id)
  const NEWEST_PACKAGE: PackageRow -> Rank := (p: PackageRow) => (0 - p.generatedAt, 0 - p.id)

  function CommitsOf(w: World, conversation: Id): seq<CommitRow> {
    Filter(w.commits, (c: CommitRow) => c.conversation == conversation)
  }

  function PackagesOf(w: World, conversation: Id): seq<PackageRow> {
    Filter(w.packages, (p: PackageRow) => p.conversation == conversation)
  }

  function LatestCommit(w: World, conversation: Id): Option<CommitRow> {
    var own := SortBy(CommitsOf(w, conversation), NEWEST_COMMIT);
    if own == [] then None else Some(own[0])
  }

  function LatestPackage(w: World, conversation: Id): Option<PackageRow> {
    var own := SortBy(PackagesOf(w, conversation), NEWEST_PACKAGE);
    if own == [] then None else Some(own[0])
  }

  function FindCommit(commits: seq<CommitRow>, id: Id): Option<CommitRow> {
    FirstWhere(commits, CommitWithId(id))
  }

  function CommitWithId(id: Id): CommitRow -> bool {
    (c: CommitRow) => c.id == id
  }

  function FindPackage(packages: seq<PackageRow>, id: Id): Option<PackageRow> {
    FirstWhere(packages, PackageWithId(id))
  }

  function PackageWithId(id: Id): PackageRow -> bool {
    (p: PackageRow) => p.id == id
  }

  ghost predicate UniqueRows(w: World) {
    && (forall c, d :: c in w.commits && d in w.commits && c.id == d.id ==> c == d)
    && (forall p, q :: p in w.packages && q in w.packages && p.id == q.id ==> p == q)
  }

  function Parents(w: World): Forest.Forest {
    map x | x in w.conversations :: Forest.Conversation(w.conversations[x].parent, 0)
  }

  /** Where the branch memory's walk from a conversation stops. */
  function RootOf(w: World, conversation: Id): (root: Id)
    requires conversation in w.conversations
    ensures root in w.conversations
  {
    Forest.Resolved(Parents(w), conversation)
  }

  /** The root's repository, or else the conversation's own. */
  function RepositoryOf(w: World, conversation: Id): Option<Id>
    requires conversation in w.conversations
  {
    Or(w.conversations[RootOf(w, conversation)].repository, w.conversations[conversation].repository)
  }

  datatype SyncState = Synced | Ahead | Behind | Conflict | Detached

  function IdOfCommit(c: Option<CommitRow>): Option<Id> {
    if c.None? then None else Some(c.value.id)
  }

  function IdOfPackage(p: Option<PackageRow>): Option<Id> {
    if p.None? then None else Some(p.value.id)
  }

  function VersionOf(w: World, package: Option<Id>): Option<nat> {
    if package.None? then None
    else
      var found := FindPackage(w.packages, package.value);
      if found.None? then None else Some(found.value.version)
  }

  function AttachedConversation(w: World, repository: Id, latest: Option<Record>): Option<Id> {
    if latest.None? || latest.value.kind.Detach? || latest.value.conversation.None? then None
    else
      var id := latest.value.conversation.value;
      if id !in w.conversations || w.conversations[id].repository != Some(repository) then None else Some(id)
  }

  function ComparePackages(w: World, conversation: Option<Id>, branch: Option<Id>): SyncState {
    if conversation.None? && branch.None? then Synced
    else
      var c, b := VersionOf(w, conversation), VersionOf(w, branch);
      if c.Some? && b.Some? && c.value > b.value then Ahead
      else if c.Some? && b.Some? && b.value > c.value then Behind
      else if conversation != branch then Conflict
      else Synced
  }

  /** The artifact part of `_compute_sync_state`: the conversation's newest commit and package against the branch's. */
  function CompareArtifacts(w: World, commit: Option<CommitRow>, package: Option<Id>, branchCommit: Option<Id>,
                            branchPackage: Option<Id>): SyncState
  {
    if branchCommit == IdOfCommit(commit) && branchPackage == package then Synced
    else
      var onBranch := if branchCommit.None? then None else FindCommit(w.commits, branchCommit.value);
      if commit.None? && branchCommit.Some? then Behind
      else if commit.Some? && branchCommit.None? then Ahead
      else if commit.Some? && onBranch.Some? && commit.value.createdAt > onBranch.value.createdAt then Ahead
      else if commit.Some? && onBranch.Some? && onBranch.value.createdAt > commit.value.createdAt then Behind
      else if commit.Some? && onBranch.Some? && commit.value.id != onBranch.value.id then Conflict
      else ComparePackages(w, package, branchPackage)
  }

  function ComputeSyncState(w: World, repository: Id, latest: Option<Record>, status: Status, branchCommit: Option<Id>,
                            branchPackage: Option<Id>): SyncState
  {
    if latest.None? || latest.value.kind.Detach? then Detached
    else if status.Conflicted? then Conflict
    else
      var conversation := AttachedConversation(w, repository, latest);
      if conversation.None? then Detached
      else CompareArtifacts(w, LatestCommit(w, conversation.value), IdOfPackage(LatestPackage(w, conversation.value)),
                            branchCommit, branchPackage)
  }

  /**
   Synced means: attached, not in conflict, the same newest package, and the same newest commit. A commit id that names no
   row would do as well, but no caller has one: both look the commit up, and deleting a commit empties the ids naming it.
   */
  lemma SyncedIff(w: World, repository: Id, latest: Option<Record>, status: Status, branchCommit: Option<Id>, branchPackage: Option<Id>)
    ensures ComputeSyncState(w, repository, latest, status, branchCommit, branchPackage) == Synced
            <==> var conversation := AttachedConversation(w, repository, latest);
                 && conversation.Some?
                 && !status.Conflicted?
                 && branchPackage == IdOfPackage(LatestPackage(w, conversation.value))
                 && (branchCommit == IdOfCommit(LatestCommit(w, conversation.value))
                     || (LatestCommit(w, conversation.value).Some? && branchCommit.Some?
                         && FindCommit(w.commits, branchCommit.value).None?))
  {
    hide LatestCommit, LatestPackage, FirstWhere;
    var conversation := AttachedConversation(w, repository, latest);
    if conversation.Some? {
      LatestCommitIsNewest(w, conversation.value);
    }
  }

  /** When the commit compared exists: attached, not in conflict, and both sides have the same newest commit and package. */
  lemma SyncedIffSame(w: World, repository: Id, latest: Option<Record>, status: Status, branchCommit: Option<Id>,
                      branchPackage: Option<Id>)
    requires branchCommit.Some? ==> FindCommit(w.commits, branchCommit.value).Some?
    ensures ComputeSyncState(w, repository, latest, status, branchCommit, branchPackage) == Synced
            <==> var conversation := AttachedConversation(w, repository, latest);
                 && conversation.Some?
                 && !status.Conflicted?
                 && branchCommit == IdOfCommit(LatestCommit(w, conversation.value))
                 && branchPackage == IdOfPackage(LatestPackage(w, conversation.value))
  {
    hide ComputeSyncState, LatestCommit, LatestPackage, AttachedConversation;
    SyncedIff(w, repository, latest, status, branchCommit, branchPackage);
  }

  /** The newest commit is one of the conversation's, and all the conversation's others are older, ids deciding on a tie. */
  lemma LatestCommitIsNewest(w: World, conversation: Id)
    ensures var latest := LatestCommit(w, conversation);
            && (latest.Some? ==> latest.value in w.commits && latest.value.conversation == conversation)
            && (forall c :: c in w.commits && c.conversation == conversation ==>
                              latest.Some? && NoNewerCommit(c, latest.value))
  {
    hide SortBy, Filter;
    var mine := (c: CommitRow) => c.conversation == conversation;
    var own := CommitsOf(w, conversation);
    assert forall c :: c in own <==> c in w.commits && mine(c) by {
      forall c ensures c in own <==> c in w.commits && mine(c) {
        FilterHas(w.commits, mine, c);
      }
    }
    if own != [] {
      var latest := HeadIsLeast(own, NEWEST_COMMIT);
    } else {
      assert |SortBy(own, NEWEST_COMMIT)| == 0;
    }
  }

  ghost predicate NoNewerCommit(c: CommitRow, d: CommitRow) {
    c.createdAt < d.createdAt || (c.createdAt == d.createdAt && c.id <= d.id)
  }

  /** So is the newest package, by the time it was generated. */
  lemma LatestPackageIsNewest(w: World, conversation: Id)
    ensures var latest := LatestPackage(w, conversation);
            && (latest.Some? ==> latest.value in w.packages && latest.value.conversation == conversation)
            && (forall p :: p in w.packages && p.conversation == conversation ==>
                              latest.Some? && NoNewerPackage(p, latest.value))
  {
    hide SortBy, Filter;
    var mine := (p: PackageRow) => p.conversation == conversation;
    var own := PackagesOf(w, conversation);
    assert forall p :: p in own <==> p in w.packages && mine(p) by {
      forall p ensures p in own <==> p in w.packages && mine(p) {
        FilterHas(w.packages, mine, p);
      }
    }
    if own != [] {
      var latest := HeadIsLeast(own, NEWEST_PACKAGE);
    } else {
      assert |SortBy(own, NEWEST_PACKAGE)| == 0;
    }
  }

  ghost predicate NoNewerPackage(p: PackageRow, q: PackageRow) {
    p.generatedAt < q.generatedAt || (p.generatedAt == q.generatedAt && p.id <= q.id)
  }

  // ---------------------------------------------------------------- ahead, behind, conflict

  /** Both packages exist, and the first has the higher version. */
  ghost predicate Outranks(w: World, a: Option<Id>, b: Option<Id>) {
    && a.Some? && b.Some?
    && exists p, q :: p in w.packages && q in w.packages && p.id == a.value && q.id == b.value && p.version > q.version
  }

  lemma OutranksByVersion(w: World, a: Option<Id>, b: Option<Id>)
    requires UniqueRows(w)
    ensures Outranks(w, a, b) <==> VersionOf(w, a).Some? && VersionOf(w, b).Some? && VersionOf(w, a).value > VersionOf(w, b).value
  {
    hide FirstWhere;
    if a.Some? && b.Some? {
      var p, q := FindPackage(w.packages, a.value), FindPackage(w.packages, b.value);
      if p.Some? && q.Some? && p.value.version > q.value.version {
        assert p.value in w.packages && q.value in w.packages;
      }
    }
  }

  /** The conversation attached to the branch, which is not in conflict. */
  ghost predicate Tracks(w: World, repository: Id, latest: Option<Record>, status: Status, conversation: Id) {
    && latest.Some? && !latest.value.kind.Detach? && latest.value.conversation == Some(conversation)
    && conversation in w.conversations && w.conversations[conversation].repository == Some(repository)
    && !status.Conflicted?
  }

  /**
   The state of an attached branch that is not in conflict, whose commit exists if it has one. Dates of commits decide first:
   with the branch's commit older than the conversation's newest, or missing, it is ahead; newer, or with none to compare it
   to, behind; another commit of the same date is a conflict. When the commits are the same, versions of packages decide.
   */
  lemma SyncStateIs(w: World, repository: Id, latest: Option<Record>, status: Status, conversation: Id,
                    branchCommit: Option<Id>, branchPackage: Option<Id>, mine: Option<CommitRow>)
    requires UniqueRows(w) && Tracks(w, repository, latest, status, conversation)
    requires branchCommit == IdOfCommit(mine) && (mine.Some? ==> mine.value in w.commits)
    ensures var state := ComputeSyncState(w, repository, latest, status, branchCommit, branchPackage);
            var newest, package := LatestCommit(w, conversation), IdOfPackage(LatestPackage(w, conversation));
            && (state == Ahead <==>
                  || (newest.Some? && mine.None?)
                  || (newest.Some? && mine.Some? && newest.value.createdAt > mine.value.createdAt)
                  || (newest == mine && Outranks(w, package, branchPackage)))
            && (state == Behind <==>
                  || (newest.None? && mine.Some?)
                  || (newest.Some? && mine.Some? && mine.value.createdAt > newest.value.createdAt)
                  || (newest == mine && Outranks(w, branchPackage, package)))
            && (state == Conflict <==>
                  || (newest.Some? && mine.Some? && newest != mine && newest.value.createdAt == mine.value.createdAt)
                  || (newest == mine && package != branchPackage
                      && !Outranks(w, package, branchPackage) && !Outranks(w, branchPackage, package)))
  {
    hide LatestCommit, LatestPackage, FirstWhere, Outranks;
    LatestCommitIsNewest(w, conversation);
    if mine.Some? {
      FoundIs(w, mine.value);
    }
    var package := IdOfPackage(LatestPackage(w, conversation));
    OutranksByVersion(w, package, branchPackage);
    OutranksByVersion(w, branchPackage, package);
  }

  /**
   Otherwise: a branch without records, or detached by its latest one, is detached whatever its status; one in conflict is so
   whatever it is attached to; and the rest are detached.
   */
  lemma UntrackedIs(w: World, repository: Id, latest: Option<Record>, status: Status, branchCommit: Option<Id>,
                    branchPackage: Option<Id>)
    requires forall conversation :: !Tracks(w, repository, latest, status, conversation)
    ensures ComputeSyncState(w, repository, latest, status, branchCommit, branchPackage)
            == if latest.Some? && !latest.value.kind.Detach? && status.Conflicted? then Conflict else Detached
  {
    if latest.Some? && latest.value.conversation.Some? {
      assert !Tracks(w, repository, latest, status, latest.value.conversation.value);
    }
  }

  lemma FoundIs(w: World, c: CommitRow)
    requires UniqueRows(w) && c in w.commits
    ensures FindCommit(w.commits, c.id) == Some(c)
  {
    hide FirstWhere;
    assert FindCommit(w.commits, c.id).Some?;
  }

  /** What `get_status` compares: the latest record's commit, if it still exists. */
  function BranchCommit(w: World, latest: Option<Record>): Option<Id> {
    if latest.None? || latest.value.kind.Detach? || latest.value.commit.None? then None
    else IdOfCommit(FindCommit(w.commits, latest.value.commit.value))
  }

  function BranchPackage(w: World, latest: Option<Record>): Option<Id> {
    if latest.None? || latest.value.kind.Detach? || latest.value.package.None? then None
    else IdOfPackage(FindPackage(w.packages, latest.value.package.value))
  }

  function StatusState(w: World, repository: Id, latest: Option<Record>, status: Status): SyncState {
    ComputeSyncState(w, repository, latest, status, BranchCommit(w, latest), BranchPackage(w, latest))
  }

  /** Another commit row, with an id of its own. */
  ghost predicate Gains(w: World, w': World, c: CommitRow) {
    UniqueRows(w') && w' == w.(commits := w.commits + [c]) && forall d :: d in w.commits ==> d.id != c.id
  }

  lemma LatestAfterCommit(w: World, w': World, c: CommitRow, conversation: Id)
    requires Gains(w, w', c)
    ensures var latest := LatestCommit(w, conversation);
            LatestCommit(w', conversation)
            == if c.conversation == conversation && (latest.None? || !NoNewerCommit(c, latest.value)) then Some(c) else latest
  {
    hide LatestCommit;
    LatestCommitIsNewest(w, conversation);
    LatestCommitIsNewest(w', conversation);
    assert c in w'.commits && forall d :: d in w.commits ==> d in w'.commits;
  }

  /**
   A branch shown synced becomes ahead with a later commit of its conversation, a conflict with one of the same date and a
   higher id, and stays synced with any other.
   */
  lemma CommitAfterSync(w: World, w': World, repository: Id, record: Record, status: Status, c: CommitRow)
    requires UniqueRows(w) && Gains(w, w', c) && record.commit != Some(c.id)
    requires StatusState(w, repository, Some(record), status) == Synced
    ensures record.conversation.Some?
    ensures var newest := LatestCommit(w, record.conversation.value);
            StatusState(w', repository, Some(record), status)
            == if c.conversation != record.conversation.value then Synced
               else if newest.None? || newest.value.createdAt < c.createdAt then Ahead
               else if newest.value.createdAt == c.createdAt && newest.value.id < c.id then Conflict
               else Synced
  {
    hide LatestCommit, LatestPackage, FirstWhere, Outranks;
    var conversation := record.conversation.value;
    SyncedIff(w, repository, Some(record), status, BranchCommit(w, Some(record)), BranchPackage(w, Some(record)));
    LatestCommitIsNewest(w, conversation);
    LatestAfterCommit(w, w', c, conversation);
    var newest := LatestCommit(w, conversation);
    BranchCommitExists(w, Some(record));
    assert BranchCommit(w, Some(record)) == IdOfCommit(newest);
    StatusAfterCommit(w, w', record, c, conversation);
    SyncStateIs(w', repository, Some(record), status, conversation, IdOfCommit(newest), BranchPackage(w, Some(record)), newest);
    NotOutranked(w', IdOfPackage(LatestPackage(w', conversation)));
  }

  lemma BranchCommitExists(w: World, latest: Option<Record>)
    ensures BranchCommit(w, latest).Some? ==> FindCommit(w.commits, BranchCommit(w, latest).value).Some?
  {
    hide FirstWhere;
    if BranchCommit(w, latest).Some? {
      var c := FindCommit(w.commits, latest.value.commit.value).value;
      assert CommitWithId(c.id)(c);
    }
  }

  lemma StatusAfterCommit(w: World, w': World, record: Record, c: CommitRow, conversation: Id)
    requires Gains(w, w', c) && record.commit != Some(c.id)
    ensures BranchCommit(w', Some(record)) == BranchCommit(w, Some(record))
    ensures BranchPackage(w', Some(record)) == BranchPackage(w, Some(record))
    ensures LatestPackage(w', conversation) == LatestPackage(w, conversation)
  {
    hide FirstWhere, SortBy, Filter;
    if record.commit.Some? {
      FoundStays(w.commits, c, CommitWithId(record.commit.value));
    }
  }

  lemma NotOutranked(w: World, a: Option<Id>)
    requires UniqueRows(w)
    ensures !Outranks(w, a, a)
  {
  }

  /** Another package row, with an id of its own. */
  ghost predicate GainsPackage(w: World, w': World, p: PackageRow) {
    UniqueRows(w') && w' == w.(packages := w.packages + [p]) && forall q :: q in w.packages ==> q.id != p.id
  }

  lemma LatestAfterPackage(w: World, w': World, p: PackageRow, conversation: Id)
    requires GainsPackage(w, w', p)
    ensures var latest := LatestPackage(w, conversation);
            LatestPackage(w', conversation)
            == if p.conversation == conversation && (latest.None? || !NoNewerPackage(p, latest.value)) then Some(p) else latest
  {
    hide LatestPackage;
    LatestPackageIsNewest(w, conversation);
    LatestPackageIsNewest(w', conversation);
    assert p in w'.packages && forall q :: q in w.packages ==> q in w'.packages;
  }

  lemma StatusAfterPackage(w: World, w': World, record: Record, p: PackageRow, conversation: Id)
    requires GainsPackage(w, w', p) && record.package != Some(p.id)
    ensures BranchPackage(w', Some(record)) == BranchPackage(w, Some(record))
    ensures BranchCommit(w', Some(record)) == BranchCommit(w, Some(record))
    ensures LatestCommit(w', conversation) == LatestCommit(w, conversation)
  {
    hide FirstWhere, SortBy, Filter;
    if record.package.Some? {
      FoundStays(w.packages, p, PackageWithId(record.package.value));
    }
  }

  /**
   With a newer package and no newer commit a synced branch becomes ahead or behind as the version of that package is higher
   or lower than the one it has, and a conflict when they are equal or it has none.
   */
  lemma PackageAfterSync(w: World, w': World, repository: Id, record: Record, status: Status, p: PackageRow)
    requires UniqueRows(w) && GainsPackage(w, w', p) && record.package != Some(p.id)
    requires StatusState(w, repository, Some(record), status) == Synced
    ensures record.conversation.Some?
    ensures var newest := LatestPackage(w, record.conversation.value);
            StatusState(w', repository, Some(record), status)
            == if p.conversation != record.conversation.value || (newest.Some? && NoNewerPackage(p, newest.value)) then Synced
               else if newest.None? || newest.value.version == p.version then Conflict
               else if newest.value.version < p.version then Ahead else Behind
  {
    hide LatestCommit, LatestPackage, FirstWhere, Outranks;
    var conversation := record.conversation.value;
    SyncedIff(w, repository, Some(record), status, BranchCommit(w, Some(record)), BranchPackage(w, Some(record)));
    BranchCommitExists(w, Some(record));
    LatestCommitIsNewest(w, conversation);
    LatestPackageIsNewest(w, conversation);
    LatestAfterPackage(w, w', p, conversation);
    StatusAfterPackage(w, w', record, p, conversation);
    var mine, before, after := LatestCommit(w, conversation), LatestPackage(w, conversation), LatestPackage(w', conversation);
    SyncStateIs(w', repository, Some(record), status, conversation, IdOfCommit(mine), IdOfPackage(before), mine);
    NotOutranked(w', IdOfPackage(before));
    if before.Some? {
      assert before.value in w'.packages && p in w'.packages;
      RankedByVersion(w', before.value, p);
    } else {
      assert !Outranks(w', IdOfPackage(after), None) && !Outranks(w', None, IdOfPackage(after)) by { NoneOutranks(w', IdOfPackage(after)); }
    }
  }

  lemma RankedByVersion(w: World, p: PackageRow, q: PackageRow)
    requires UniqueRows(w) && p in w.packages && q in w.packages
    ensures Outranks(w, Some(p.id), Some(q.id)) <==> p.version > q.version
    ensures Outranks(w, Some(q.id), Some(p.id)) <==> q.version > p.version
  {
  }

  lemma NoneOutranks(w: World, a: Option<Id>)
    ensures !Outranks(w, a, None) && !Outranks(w, None, a)
  {
  }

  /** A push that names no commit and no package: what it records and the state it answers with. */
  lemma PlainPushState(w: World, repository: Id, record: Record, carriedCommit: Option<Id>, carriedPackage: Option<Id>)
    requires UniqueRows(w) && AttachedConversation(w, repository, Some(record)).Some?
    requires var conversation := record.conversation.value;
             && record.commit == Or(IdOfCommit(LatestCommit(w, conversation)), carriedCommit)
             && record.package == Or(IdOfPackage(LatestPackage(w, conversation)), carriedPackage)
    ensures var conversation := record.conversation.value;
            var noCommit := LatestCommit(w, conversation).None?;
            var noPackage := LatestPackage(w, conversation).None?;
            ComputeSyncState(w, repository, Some(record), Ready, record.commit, record.package)
            == if noCommit && carriedCommit.Some? then Behind
               else if noPackage && carriedPackage.Some? then Conflict
               else Synced
  {
    hide LatestCommit, LatestPackage, FirstWhere;
    LatestCommitIsNewest(w, record.conversation.value);
  }

  /** After a plain push answered synced the status is synced, and a later commit of the conversation makes it ahead. */
  lemma PushThenCommit(w: World, w': World, repository: Id, record: Record, carriedCommit: Option<Id>,
                       carriedPackage: Option<Id>, c: CommitRow)
    requires UniqueRows(w) && AttachedConversation(w, repository, Some(record)).Some?
    requires var conversation := record.conversation.value;
             && record.commit == Or(IdOfCommit(LatestCommit(w, conversation)), carriedCommit)
             && record.package == Or(IdOfPackage(LatestPackage(w, conversation)), carriedPackage)
    requires ComputeSyncState(w, repository, Some(record), Ready, record.commit, record.package) == Synced
    requires Gains(w, w', c) && record.commit != Some(c.id)
    ensures StatusState(w, repository, Some(record), Ready) == Synced
    ensures c.conversation == record.conversation.value
            && (forall d :: d in w.commits && d.conversation == c.conversation ==> d.createdAt < c.createdAt)
            ==> StatusState(w', repository, Some(record), Ready) == Ahead
  {
    hide LatestCommit, LatestPackage, FirstWhere, ComputeSyncState;
    var conversation := record.conversation.value;
    PlainPushState(w, repository, record, carriedCommit, carriedPackage);
    LatestCommitIsNewest(w, conversation);
    LatestPackageIsNewest(w, conversation);
    var commit, package := LatestCommit(w, conversation), LatestPackage(w, conversation);
    if commit.Some? {
      FoundIs(w, commit.value);
    }
    if package.Some? {
      PackageFoundIs(w, package.value);
    }
    CommitAfterSync(w, w', repository, record, Ready, c);
  }

  lemma PackageFoundIs(w: World, p: PackageRow)
    requires UniqueRows(w) && p in w.packages
    ensures FindPackage(w.packages, p.id) == Some(p)
  {
    hide FirstWhere;
    assert FindPackage(w.packages, p.id).Some?;
  }

  // ---------------------------------------------------------------- the program

  datatype PushError = DetachedBranch | NoActiveConversation | ConversationNotAttached | CommitNotFound | PackageNotFound

  datatype PushReply = PushReply(version: nat, state: SyncState, record: Record, lastSynchronizedAt: int)

  class BranchMemory {
    var memoryVersion: nat
    var currentSyncVersion: nat
    var records: seq<Record>
    var latest: Option<nat>
    var status: Status
    var lastSyncAt: Option<int>
    ghost var given: seq<Given>

    /** The log is the replay of what was given, with both version counters at its length. */
    ghost predicate Valid()
      reads this
    {
      && records == Replay(given)
      && memoryVersion == currentSyncVersion == |records|
      && latest == if records == [] then None else Some(|records| - 1)
    }

    function LatestRecord(): Option<Record>
      requires Valid()
      reads this
    {
      if latest.None? then None else Some(records[latest.value])
    }

    /** `create_for_branch`: version 0, then the first record. */
    constructor ()
      ensures Valid() && records == [Record(Attach, None, None, None, None, None, 1)]
      ensures memoryVersion == 1 && currentSyncVersion == 1 && status == NotSynced && lastSyncAt == None
    {
      memoryVersion, currentSyncVersion, records, latest := 0, 0, [], None;
      status, lastSyncAt, given := NotSynced, None, [];
      new;
      var first := AppendSyncRecord(Given(Attach, None, None, None, None, None), 0);
      assert records == [Carried(None, Given(Attach, None, None, None, None, None), 1)];
    }

    /** `_append_sync_record`: pointers carried forward, versions advanced, the branch no longer in sync. */
    method AppendSyncRecord(g: Given, now: int) returns (record: Record)
      requires Valid()
      modifies this
      ensures Valid() && given == old(given) + [g]
      ensures record == Carried(LastOf(old(records)), g, |old(records)| + 1)
      ensures records == old(records) + [record]
      ensures status == NotSynced
      ensures lastSyncAt == if g.kind.PluginPush? then Some(now) else old(lastSyncAt)
    {
      hide Replay;
      var conversation, convhubBranch, commit, package, user := g.conversation, None, None, None, g.user;
      if !g.kind.Detach? {
        var before := LatestRecord();
        if conversation.None? && before.Some? {
          conversation := before.value.conversation;
        }
        convhubBranch := g.convhubBranch;
        if convhubBranch.None? && before.Some? {
          convhubBranch := before.value.convhubBranch;
        }
        commit := if g.commit.Some? then g.commit else if before.Some? then before.value.commit else None;
        package := if g.package.Some? then g.package else if before.Some? then before.value.package else None;
        user := if g.user.Some? then g.user else if before.Some? then before.value.user else None;
      }
      memoryVersion := memoryVersion + 1;
      currentSyncVersion := currentSyncVersion + 1;
      record := Record(g.kind, conversation, convhubBranch, commit, package, user, memoryVersion);
      ReplayStep(given, g);
      given := given + [g];
      records := records + [record];
      latest := Some(|records| - 1);
      status := NotSynced;
      if g.kind.PluginPush? {
        lastSyncAt := Some(now);
      }
    }

    /**
     `sync_for_conversation`, on the memory of the repository's default branch: nothing without a repository; otherwise the
     record is the root's, and a branch conversation names itself unless told otherwise.
     */
    method SyncForConversation(w: World, kind: SyncType, conversation: Id, convhubBranch: Option<Id>, commit: Option<Id>,
                               package: Option<Id>, user: Option<Id>, now: int)
      returns (recorded: bool)
      requires Valid() && conversation in w.conversations
      modifies this
      ensures Valid()
      ensures recorded <==> RepositoryOf(w, conversation).Some?
      ensures !recorded ==> unchanged(this)
      ensures recorded ==>
                var branch := Or(convhubBranch, if w.conversations[conversation].parent.Some? then Some(conversation) else None);
                given == old(given) + [Given(kind, Some(RootOf(w, conversation)), branch, commit, package, user)]
    {
      var root := Forest.ResolveRoot(Parents(w), conversation);
      if Or(w.conversations[root].repository, w.conversations[conversation].repository).None? {
        return false;
      }
      var branch := convhubBranch;
      if branch.None? && w.conversations[conversation].parent.Some? {
        branch := Some(conversation);
      }
      var record := AppendSyncRecord(Given(kind, Some(root), branch, commit, package, user), now);
      return true;
    }

    /** `sync_for_restore`: nothing unless the source conversation exists and its root has a repository. */
    method SyncForRestore(w: World, source: Id, restored: Id, commit: Option<Id>, package: Id, user: Id, now: int)
      returns (recorded: bool)
      requires Valid()
      modifies this
      ensures Valid()
      ensures recorded <==> source in w.conversations && w.conversations[RootOf(w, source)].repository.Some?
      ensures !recorded ==> unchanged(this)
      ensures recorded ==> given == old(given) + [Given(Restore, Some(restored), None, commit, Some(package), Some(user))]
    {
      if source !in w.conversations {
        return false;
      }
      var root := Forest.ResolveRoot(Parents(w), source);
      if w.conversations[root].repository.None? {
        return false;
      }
      var record := AppendSyncRecord(Given(Restore, Some(restored), None, commit, Some(package), Some(user)), now);
      return true;
    }

    /** One turn of the loop in `detach_for_conversation`: only a memory whose latest record is the root's is detached. */
    method DetachFor(root: Id, user: Option<Id>, now: int) returns (detached: bool)
      requires Valid()
      modifies this
      ensures Valid()
      ensures detached <==> old(records) != [] && old(records)[|old(records)| - 1].conversation == Some(root)
      ensures detached ==> given == old(given) + [Given(Detach, Some(root), None, None, None, user)]
      ensures !detached ==> unchanged(this)
    {
      var before := LatestRecord();
      if before.None? || before.value.conversation != Some(root) {
        return false;
      }
      var record := AppendSyncRecord(Given(Detach, Some(root), None, None, None, user), now);
      return true;
    }

    /** `get_status`: the latest record's commit and package, as far as they still exist, against the conversation's. */
    method GetStatus(w: World, repository: Id) returns (state: SyncState)
      requires Valid()
      ensures state == StatusState(w, repository, LatestRecord(), status)
    {
      hide ComputeSyncState, FirstWhere;
      var l := LatestRecord();
      var commit, package := None, None;
      if l.Some? && !l.value.kind.Detach? {
        if l.value.commit.Some? {
          commit := IdOfCommit(FindCommit(w.commits, l.value.commit.value));
        }
        if l.value.package.Some? {
          package := IdOfPackage(FindPackage(w.packages, l.value.package.value));
        }
      }
      return ComputeSyncState(w, repository, l, status, commit, package);
    }

    /** What `register_push` refuses, in the order it looks. */
    function Refusal(w: World, repository: Id, commit: Option<Id>, package: Option<Id>): Option<PushError>
      requires Valid()
      reads this
    {
      var l := LatestRecord();
      if l.None? || l.value.kind.Detach? then Some(DetachedBranch)
      else if l.value.conversation.None? then Some(NoActiveConversation)
      else if AttachedConversation(w, repository, l).None? then Some(ConversationNotAttached)
      else if commit.Some? && FindCommit(w.commits, commit.value).None? then Some(CommitNotFound)
      else if package.Some? && FindPackage(w.packages, package.value).None? then Some(PackageNotFound)
      else None
    }

    /** `register_push`: a refused push changes nothing; an accepted one appends a record and answers with the state after it. */
    method RegisterPush(w: World, repository: Id, user: Id, commit: Option<Id>, package: Option<Id>, now: int)
      returns (r: Result<PushReply, PushError>)
      requires Valid() && UniqueRows(w)
      modifies this
      ensures Valid()
      ensures r.Failure? <==> old(Refusal(w, repository, commit, package)).Some?
      ensures r.Failure? ==> unchanged(this) && r.error == old(Refusal(w, repository, commit, package)).value
      ensures r.Success? ==> |records| == |old(records)| + 1 && records[..|old(records)|] == old(records) != []
      ensures r.Success? ==>
                var before := old(records)[|old(records)| - 1];
                var after := records[|old(records)|];
                && status == Ready && lastSyncAt == Some(now)
                && after.kind == PluginPush && after.conversation == before.conversation && after.user == Some(user)
                && r.value.record == after && r.value.version == |records| && r.value.lastSynchronizedAt == now
                && r.value.state == ComputeSyncState(w, repository, Some(after), Ready, after.commit, after.package)
      ensures r.Success? ==>
                var before := old(records)[|old(records)| - 1];
                var after := records[|old(records)|];
                before.conversation.Some? && before.conversation.value in w.conversations &&
                var conversation := before.conversation.value;
                && after.commit == Or(commit, Or(IdOfCommit(LatestCommit(w, conversation)), before.commit))
                && after.package == Or(package, Or(IdOfPackage(LatestPackage(w, conversation)), before.package))
                && after.convhubBranch
                   == Or(before.convhubBranch, if w.conversations[conversation].parent.Some? then Some(conversation) else None)
      ensures r.Success? && commit.None? && package.None? ==>
                var before := old(records)[|old(records)| - 1];
                before.conversation.Some? &&
                var conversation := before.conversation.value;
                r.value.state == if LatestCommit(w, conversation).None? && before.commit.Some? then Behind
                                 else if LatestPackage(w, conversation).None? && before.package.Some? then Conflict
                                 else Synced
    {
      hide Replay, LatestCommit, LatestPackage, FirstWhere, UniqueRows, ComputeSyncState;
      var before := LatestRecord();
      if before.None? || before.value.kind.Detach? {
        return Failure(DetachedBranch);
      }
      if before.value.conversation.None? {
        return Failure(NoActiveConversation);
      }
      var conversation := before.value.conversation.value;
      if conversation !in w.conversations || w.conversations[conversation].repository != Some(repository) {
        return Failure(ConversationNotAttached);
      }
      var commitId := if commit.Some? then commit else IdOfCommit(LatestCommit(w, conversation));
      var packageId := if package.Some? then package else IdOfPackage(LatestPackage(w, conversation));
      if commit.Some? && FindCommit(w.commits, commit.value).None? {
        return Failure(CommitNotFound);
      }
      if package.Some? && FindPackage(w.packages, package.value).None? {
        return Failure(PackageNotFound);
      }
      var branch := before.value.convhubBranch;
      if branch.None? && w.conversations[conversation].parent.Some? {
        branch := Some(conversation);
      }
      var record := AppendSyncRecord(Given(PluginPush, Some(conversation), branch, commitId, packageId, Some(user)), now);
      status := Ready;
      if commit.None? && package.None? {
        PlainPushState(w, repository, record, before.value.commit, before.value.package);
      }
      var state := ComputeSyncState(w, repository, LatestRecord(), status, record.commit, record.package);
      return Success(PushReply(currentSyncVersion, state, record, now));
    }
  }

  /** `create_for_branch`: a branch that has a memory keeps it as it is. */
  method CreateForBranch(existing: Option<BranchMemory>) returns (memory: BranchMemory)
    ensures existing.Some? ==> memory == existing.value
    ensures existing.None? ==> fresh(memory) && memory.Valid() && memory.memoryVersion == 1
                               && memory.records == [Record(Attach, None, None, None, None, None, 1)]
  {
    if existing.Some? {
      return existing.value;
    }
    memory := new BranchMemory();
  }

  /** `detach_for_conversation`: of a repository's memories exactly those whose latest record is the root's are detached. */
  method DetachForConversation(w: World, memories: seq<BranchMemory>, conversation: Id, user: Option<Id>, now: int)
    requires conversation in w.conversations
    requires forall m :: m in memories ==> m.Valid()
    requires forall i, j :: 0 <= i < j < |memories| ==> memories[i] != memories[j]
    modifies memories
    ensures forall m :: m in memories ==> m.Valid()
    ensures forall m :: m in memories ==>
                          m.given == Detachment(old(m.records), old(m.given), RootOf(w, conversation), user)
  {
    hide Replay, RootOf;
    var root := FindRootOf(w, conversation);
    for i := 0 to |memories|
      invariant forall m :: m in memories ==> m.Valid()
      invariant forall k :: i <= k < |memories| ==> memories[k].given == old(memories[k].given)
                                                    && memories[k].records == old(memories[k].records)
      invariant forall k :: 0 <= k < i ==>
                              memories[k].given == Detachment(old(memories[k].records), old(memories[k].given), root, user)
    {
      var detached := memories[i].DetachFor(root, user, now);
    }
  }

  method FindRootOf(w: World, conversation: Id) returns (root: Id)
    requires conversation in w.conversations
    ensures root == RootOf(w, conversation)
  {
    root := Forest.ResolveRoot(Parents(w), conversation);
  }

  ghost function Detachment(records: seq<Record>, given: seq<Given>, root: Id, user: Option<Id>): seq<Given> {
    if records != [] && records[|records| - 1].conversation == Some(root)
    then given + [Given(Detach, Some(root), None, None, None, user)]
    else given
  }
}
