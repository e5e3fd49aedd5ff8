/**
 The messages a commit introduces. The program computes this range in three places: when it builds the context package,
 when it shows a commit, and when it summarises a family's commits.
 */
module CommitRanges {
  import opened Wrappers
  import opened StableSort
  import opened ConversationMessages

  datatype Commit = Commit(id: Id, checkpoint: Id, latestMessage: Id, parent: Option<Id>, createdAt: int)

  datatype Request = Request(assistantMessage: Option<Id>, cost: Option<nat>, provider: string)

  datatype RangeError = LatestMessageMissing

  /** A slice that is empty when it starts past its end. */
  function Slice<T>(xs: seq<T>, start: nat, end: nat): seq<T>
    requires start <= |xs| && end <= |xs|
  {
    if start <= end then xs[start..end] else []
  }

  function CommitById(commits: seq<Commit>, id: Id): Option<Commit> {
    FirstWhere(commits, CommitIs(id))
  }

  function CommitIs(id: Id): Commit -> bool {
    (c: Commit) => c.id == id
  }

  /** Just past the parent's message, or the start when there is no such message. */
  function StartAfter(messages: seq<Message>, parent: Option<Commit>): (start: nat)
    ensures start <= |messages|
  {
    if parent.None? then 0
    else
      var at := PositionOf(messages, parent.value.latestMessage);
      if at.None? then 0 else at.value + 1
  }

  function ParentOf(commits: seq<Commit>, commit: Commit): Option<Commit> {
    if commit.parent.None? then None else CommitById(commits, commit.parent.value)
  }

  /** The range of `generate_for_commit`: to the end of the conversation when the latest message is missing. */
  function PackageRange(messages: seq<Message>, commits: seq<Commit>, commit: Commit): seq<Message> {
    var at := PositionOf(messages, commit.latestMessage);
    Slice(messages, StartAfter(messages, ParentOf(commits, commit)), if at.None? then |messages| else at.value + 1)
  }

  /** The range of `_build_range_metadata`, which raises when the latest message is missing. */
  function MetadataRange(messages: seq<Message>, parent: Option<Commit>, commit: Commit): Result<seq<Message>, RangeError> {
    var at := PositionOf(messages, commit.latestMessage);
    if at.None? then Failure(LatestMessageMissing)
    else Success(Slice(messages, StartAfter(messages, parent), at.value + 1))
  }

  /** The range of `_load_commit_range_summaries`, which looks the parent up among the listed commits only. */
  function SummaryRange(messages: seq<Message>, listed: seq<Commit>, commit: Commit): seq<Message> {
    var at := PositionOf(messages, commit.latestMessage);
    if at.None? then [] else Slice(messages, StartAfter(messages, ParentOf(listed, commit)), at.value + 1)
  }

  ghost predicate UniqueCommits(commits: seq<Commit>) {
    forall i, j :: 0 <= i < j < |commits| ==> commits[i].id != commits[j].id
  }

  /** The three ranges agree whenever the commit's message is there and its parent is listed. */
  lemma RangesAgree(messages: seq<Message>, listed: seq<Commit>, commits: seq<Commit>, commit: Commit)
    requires PositionOf(messages, commit.latestMessage).Some?
    requires UniqueCommits(commits) && forall c :: c in listed ==> c in commits
    requires commit.parent.Some? ==> exists c :: c in listed && c.id == commit.parent.value
    ensures MetadataRange(messages, ParentOf(commits, commit), commit) == Success(PackageRange(messages, commits, commit))
    ensures SummaryRange(messages, listed, commit) == PackageRange(messages, commits, commit)
  {
    if commit.parent.Some? {
      SameCommit(listed, commits, commit.parent.value);
    }
  }

  lemma SameCommit(listed: seq<Commit>, commits: seq<Commit>, id: Id)
    requires UniqueCommits(commits) && forall c :: c in listed ==> c in commits
    requires exists c :: c in listed && c.id == id
    ensures CommitById(listed, id).Some? && CommitById(listed, id) == CommitById(commits, id)
  {
    var a, b := CommitById(listed, id).value, CommitById(commits, id).value;
    var i :| 0 <= i < |commits| && commits[i] == a;
    var j :| 0 <= j < |commits| && commits[j] == b;
    assert i == j;
  }

  // ---------------------------------------------------------------- the chain of a conversation

  /** Commits of one conversation, each the child of the one before it, all of them at messages that exist. */
  ghost predicate Chain(messages: seq<Message>, commits: seq<Commit>) {
    && UniqueCommits(commits)
    && (forall i :: 0 <= i < |commits| ==> PositionOf(messages, commits[i].latestMessage).Some?)
    && (forall i :: 0 <= i < |commits| ==> ParentIs(commits, i))
  }

  ghost predicate ParentIs(commits: seq<Commit>, i: nat)
    requires i < |commits|
  {
    commits[i].parent == if i == 0 then None else Some(commits[i - 1].id)
  }

  function At(messages: seq<Message>, commits: seq<Commit>, i: nat): (p: nat)
    requires i < |commits| && PositionOf(messages, commits[i].latestMessage).Some?
    ensures p < |messages|
  {
    PositionOf(messages, commits[i].latestMessage).value
  }

  /** The end of the prefix the i-th commit is at; 0 before the first. */
  ghost function EndOf(messages: seq<Message>, commits: seq<Commit>, n: nat): (e: nat)
    requires n <= |commits| && Chain(messages, commits)
    ensures e <= |messages|
  {
    if n == 0 then 0 else At(messages, commits, n - 1) + 1
  }

  ghost predicate Ascending(messages: seq<Message>, commits: seq<Commit>)
    requires Chain(messages, commits)
  {
    forall i :: 0 <= i < |commits| ==> Advances(messages, commits, i)
  }

  ghost predicate Advances(messages: seq<Message>, commits: seq<Commit>, i: nat)
    requires i < |commits| && Chain(messages, commits)
  {
    EndOf(messages, commits, i) <= EndOf(messages, commits, i + 1)
  }

  /** All that the first `n` commits introduce, in order. */
  ghost function Introduced(messages: seq<Message>, commits: seq<Commit>, n: nat): seq<Message>
    requires n <= |commits|
  {
    if n == 0 then [] else Introduced(messages, commits, n - 1) + PackageRange(messages, commits, commits[n - 1])
  }

  /** In a chain a commit's range starts where the prefix of the commit before it ends. */
  lemma ChainRange(messages: seq<Message>, commits: seq<Commit>, i: nat)
    requires Chain(messages, commits) && i < |commits|
    ensures PackageRange(messages, commits, commits[i])
            == Slice(messages, EndOf(messages, commits, i), EndOf(messages, commits, i + 1))
  {
    hide PositionOf, FirstWhere;
    assert ParentIs(commits, i);
    if i > 0 {
      assert CommitIs(commits[i - 1].id)(commits[i - 1]);
      var found := CommitById(commits, commits[i - 1].id).value;
      var j :| 0 <= j < |commits| && commits[j] == found;
      assert j == i - 1;
    }
  }

  lemma {:induction false} AscendingIntroduces(messages: seq<Message>, commits: seq<Commit>, n: nat)
    requires Chain(messages, commits) && Ascending(messages, commits) && n <= |commits|
    ensures Introduced(messages, commits, n) == messages[..EndOf(messages, commits, n)]
  {
    hide PackageRange, EndOf, Chain;
    if n == 0 {
      assert EndOf(messages, commits, 0) == 0 by { EndOfNone(messages, commits); }
    } else {
      AscendingIntroduces(messages, commits, n - 1);
      ChainRange(messages, commits, n - 1);
      assert Advances(messages, commits, n - 1);
    }
  }

  lemma EndOfNone(messages: seq<Message>, commits: seq<Commit>)
    requires Chain(messages, commits)
    ensures EndOf(messages, commits, 0) == 0
  {
  }

  /** The introduced messages are never fewer than the prefix, and more as soon as one commit steps back. */
  lemma {:induction false} IntroducedLength(messages: seq<Message>, commits: seq<Commit>, n: nat)
    requires Chain(messages, commits) && n <= |commits|
    ensures |Introduced(messages, commits, n)| >= EndOf(messages, commits, n)
    ensures |Introduced(messages, commits, n)| == EndOf(messages, commits, n)
            ==> forall i :: 0 <= i < n ==> Advances(messages, commits, i)
  {
    hide PackageRange, EndOf, Chain;
    if n == 0 {
      EndOfNone(messages, commits);
    } else {
      IntroducedLength(messages, commits, n - 1);
      ChainRange(messages, commits, n - 1);
    }
  }

  /** The ranges of a chain put together are the tip's prefix exactly when no commit steps back. */
  lemma RangesPartitionIff(messages: seq<Message>, commits: seq<Commit>)
    requires Chain(messages, commits)
    ensures Introduced(messages, commits, |commits|) == messages[..EndOf(messages, commits, |commits|)]
            <==> Ascending(messages, commits)
  {
    hide PackageRange, EndOf, Chain, Advances, Introduced;
    IntroducedLength(messages, commits, |commits|);
    if Ascending(messages, commits) {
      AscendingIntroduces(messages, commits, |commits|);
    }
  }

  // ---------------------------------------------------------------- messages added later

  ghost predicate FirstAt(messages: seq<Message>, id: Id, k: nat) {
    k < |messages| && messages[k].id == id && forall j :: 0 <= j < k ==> messages[j].id != id
  }

  lemma {:induction false} PositionIsFirst(messages: seq<Message>, id: Id, k: nat)
    ensures PositionOf(messages, id) == Some(k) <==> FirstAt(messages, id, k)
    decreases |messages|
  {
    if messages != [] && messages[0].id != id && k > 0 {
      PositionIsFirst(messages[1..], id, k - 1);
      assert FirstAt(messages[1..], id, k - 1) <==> FirstAt(messages, id, k) by {
        forall j | 0 <= j < k && k < |messages| ensures messages[j].id == if j == 0 then messages[0].id else messages[1..][j - 1].id {
        }
      }
    }
  }

  lemma PositionShifts(messages: seq<Message>, p: nat, m: Message, id: Id)
    requires p <= |messages| && m.id != id && PositionOf(messages, id).Some?
    ensures var before := PositionOf(messages, id).value;
            PositionOf(Inserted(messages, p, m), id) == Some(if before < p then before else before + 1)
  {
    hide PositionOf;
    var before := PositionOf(messages, id).value;
    PositionIsFirst(messages, id, before);
    PositionIsFirst(Inserted(messages, p, m), id, if before < p then before else before + 1);
  }

  /** The commit's message is there, and so is its parent's, if it has one. */
  ghost predicate Placed(messages: seq<Message>, commits: seq<Commit>, commit: Commit) {
    && PositionOf(messages, commit.latestMessage).Some?
    && var parent := ParentOf(commits, commit);
    parent.Some? ==> PositionOf(messages, parent.value.latestMessage).Some?
  }

  /** A message inserted at position `p` joins the range exactly when `p` is between its two ends. */
  lemma RangeAfterInsert(messages: seq<Message>, p: nat, m: Message, commits: seq<Commit>, commit: Commit)
    requires Placed(messages, commits, commit) && p <= |messages| && forall x :: x in messages ==> x.id != m.id
    ensures var start, at := StartAfter(messages, ParentOf(commits, commit)), PositionOf(messages, commit.latestMessage).value;
            var range := PackageRange(messages, commits, commit);
            && (start <= p <= at ==> p - start <= |range|)
            && PackageRange(Inserted(messages, p, m), commits, commit)
               == if start <= p <= at then Inserted(range, p - start, m) else range
  {
    hide PositionOf, ParentOf, Inserted, Slice;
    var parent := ParentOf(commits, commit);
    PositionShifts(messages, p, m, commit.latestMessage);
    if parent.Some? {
      PositionShifts(messages, p, m, parent.value.latestMessage);
    }
    var start, at := StartAfter(messages, parent), PositionOf(messages, commit.latestMessage).value;
    SliceShifts(messages, p, m, start, at);
    SliceLength(messages, start, at + 1);
  }

  lemma SliceLength(messages: seq<Message>, start: nat, end: nat)
    requires start <= |messages| && end <= |messages|
    ensures |Slice(messages, start, end)| == if start <= end then end - start else 0
  {
  }

  lemma SliceShifts(messages: seq<Message>, p: nat, m: Message, start: nat, at: nat)
    requires p <= |messages| && at < |messages| && start <= |messages|
    ensures Slice(Inserted(messages, p, m), if p < start then start + 1 else start, if p <= at then at + 2 else at + 1)
            == if start <= p <= at then Inserted(Slice(messages, start, at + 1), p - start, m)
               else Slice(messages, start, at + 1)
  {
    hide Inserted;
    if start <= p <= at {
      InsertedAcross(messages, p, m, start, at + 1);
    } else if start <= at + 1 {
      InsertedAside(messages, p, m, start, at + 1);
    }
  }

  lemma InsertedAside(messages: seq<Message>, p: nat, m: Message, start: nat, end: nat)
    requires p <= |messages| && start <= end <= |messages|
    ensures p <= start ==> Inserted(messages, p, m)[start + 1..end + 1] == messages[start..end]
    ensures end <= p ==> Inserted(messages, p, m)[start..end] == messages[start..end]
  {
  }

  lemma InsertedAcross(messages: seq<Message>, p: nat, m: Message, start: nat, end: nat)
    requires start <= p <= end <= |messages|
    ensures Inserted(messages, p, m)[start..end + 1] == Inserted(messages[start..end], p - start, m)
  {
    var range := messages[start..end];
    assert range[..p - start] == messages[start..p] && range[p - start..] == messages[p..end];
  }

  /** A message inserted at position `p` leaves the commit's range alone exactly when `p` is outside it. */
  lemma RangeStaysIff(messages: seq<Message>, p: nat, m: Message, commits: seq<Commit>, commit: Commit)
    requires Placed(messages, commits, commit) && p <= |messages| && forall x :: x in messages ==> x.id != m.id
    ensures PackageRange(Inserted(messages, p, m), commits, commit) == PackageRange(messages, commits, commit)
            <==> !(StartAfter(messages, ParentOf(commits, commit)) <= p <= PositionOf(messages, commit.latestMessage).value)
  {
    hide PackageRange, PositionOf, ParentOf, StartAfter, Inserted;
    RangeAfterInsert(messages, p, m, commits, commit);
  }

  // ---------------------------------------------------------------- credits

  function CostOf(request: Request): nat {
    if request.cost.None? then 0 else request.cost.value
  }

  predicate Answers(request: Request, messages: seq<Message>) {
    request.assistantMessage.Some? && exists i :: 0 <= i < |messages| && messages[i].id == request.assistantMessage.value
  }

  /** The cost of the requests answered in these messages. */
  function CreditsIn(requests: seq<Request>, messages: seq<Message>): nat
    decreases |requests|
  {
    if requests == [] then 0
    else
      var last := requests[|requests| - 1];
      CreditsIn(requests[..|requests| - 1], messages) + (if Answers(last, messages) then CostOf(last) else 0)
  }

  /** A request counts its stored cost, in the ranges that contain its answer and in no others. */
  lemma RequestCounts(requests: seq<Request>, request: Request, messages: seq<Message>)
    ensures CreditsIn(requests + [request], messages) - CreditsIn(requests, messages)
            == if request.cost.Some? && request.assistantMessage.Some?
                  && exists i :: 0 <= i < |messages| && messages[i].id == request.assistantMessage.value
               then request.cost.value else 0
  {
    assert (requests + [request])[..|requests|] == requests;
  }

  lemma AnswersSplit(request: Request, a: seq<Message>, b: seq<Message>)
    ensures Answers(request, a + b) <==> Answers(request, a) || Answers(request, b)
  {
    if Answers(request, a) {
      var i :| 0 <= i < |a| && a[i].id == request.assistantMessage.value;
      assert (a + b)[i] == a[i];
    }
    if Answers(request, b) {
      var i :| 0 <= i < |b| && b[i].id == request.assistantMessage.value;
      assert (a + b)[|a| + i] == b[i];
    }
  }

  lemma AnswersOnce(request: Request, a: seq<Message>, b: seq<Message>)
    requires UniqueIds(a + b) && Answers(request, a)
    ensures !Answers(request, b)
  {
    var i :| 0 <= i < |a| && a[i].id == request.assistantMessage.value;
    assert (a + b)[i] == a[i];
    forall j | 0 <= j < |b| ensures b[j].id != request.assistantMessage.value {
      assert (a + b)[|a| + j] == b[j];
    }
  }

  lemma {:induction false} CreditsSplit(requests: seq<Request>, a: seq<Message>, b: seq<Message>)
    requires UniqueIds(a + b)
    ensures CreditsIn(requests, a + b) == CreditsIn(requests, a) + CreditsIn(requests, b)
    decreases |requests|
  {
    hide Answers, UniqueIds;
    if requests != [] {
      var last := requests[|requests| - 1];
      CreditsSplit(requests[..|requests| - 1], a, b);
      AnswersSplit(last, a, b);
      if Answers(last, a) {
        AnswersOnce(last, a, b);
      }
    }
  }

  ghost function CreditsOfCommits(requests: seq<Request>, messages: seq<Message>, commits: seq<Commit>, n: nat): nat
    requires n <= |commits|
  {
    if n == 0 then 0
    else CreditsOfCommits(requests, messages, commits, n - 1) + CreditsIn(requests, PackageRange(messages, commits, commits[n - 1]))
  }

  /** The credits shown commit by commit add up to the credits of the tip's prefix. */
  lemma {:induction false} CreditsAddUp(requests: seq<Request>, messages: seq<Message>, commits: seq<Commit>, n: nat)
    requires Chain(messages, commits) && Ascending(messages, commits) && n <= |commits| && UniqueIds(messages)
    ensures CreditsOfCommits(requests, messages, commits, n) == CreditsIn(requests, messages[..EndOf(messages, commits, n)])
  {
    hide PackageRange, EndOf, Chain, Answers, UniqueIds;
    if n == 0 {
      EndOfNone(messages, commits);
      CreditsOfNone(requests);
      assert messages[..0] == [];
    } else {
      var start, end := EndOf(messages, commits, n - 1), EndOf(messages, commits, n);
      CreditsAddUp(requests, messages, commits, n - 1);
      ChainRange(messages, commits, n - 1);
      assert Advances(messages, commits, n - 1);
      assert messages[..start] + messages[start..end] == messages[..end];
      UniquePrefix(messages, end);
      CreditsSplit(requests, messages[..start], messages[start..end]);
    }
  }

  lemma UniquePrefix(messages: seq<Message>, n: nat)
    requires UniqueIds(messages) && n <= |messages|
    ensures UniqueIds(messages[..n])
  {
  }

  lemma {:induction false} CreditsOfNone(requests: seq<Request>)
    ensures CreditsIn(requests, []) == 0
    decreases |requests|
  {
    if requests != [] {
      CreditsOfNone(requests[..|requests| - 1]);
    }
  }

  /** The loop over a range's requests in `_load_commit_range_summaries`: credits, and each provider once. */
  method SummarizeRange(messages: seq<Message>, listed: seq<Commit>, commit: Commit, requests: seq<Request>)
    returns (credits: nat, providers: seq<string>)
    ensures credits == CreditsIn(requests, SummaryRange(messages, listed, commit))
    ensures forall p :: p in providers <==>
                          exists i :: 0 <= i < |requests| && requests[i].provider == p
                                      && Answers(requests[i], SummaryRange(messages, listed, commit))
    ensures forall i, j :: 0 <= i < j < |providers| ==> providers[i] != providers[j]
  {
    credits, providers := 0, [];
    var range := SummaryRange(messages, listed, commit);
    assert requests[..0] == [];
    for i := 0 to |requests|
      invariant credits == CreditsIn(requests[..i], range)
      invariant forall p :: p in providers <==>
                              exists k :: 0 <= k < i && requests[k].provider == p && Answers(requests[k], range)
      invariant forall k, j :: 0 <= k < j < |providers| ==> providers[k] != providers[j]
    {
      hide SummaryRange, Answers;
      assert requests[..i + 1][..i] == requests[..i];
      if Answers(requests[i], range) {
        if requests[i].provider !in providers {
          providers := providers + [requests[i].provider];
        }
        credits := credits + CostOf(requests[i]);
      }
    }
    assert requests[..|requests|] == requests;
  }
}
