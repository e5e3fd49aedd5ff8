/** Messages of conversations: the ordered load, branching by copying a prefix, and comparing two conversations. */
module ConversationMessages {
  import opened Wrappers
  import opened StableSort

  type Id = int

  datatype Role = User | Assistant | System

  datatype Message = Message(id: Id, conversation: Id, role: Role, content: string, author: Option<Id>, createdAt: int)

  const IN_ORDER: Message -> Rank := (m: Message) => (m.createdAt, m.id)

  function InConversation(conversation: Id): Message -> bool {
    (m: Message) => m.conversation == conversation
  }

  function Until(time: int): Message -> bool {
    (m: Message) => m.createdAt <= time
  }

  function InConversationUntil(conversation: Id, time: int): Message -> bool {
    (m: Message) => m.conversation == conversation && m.createdAt <= time
  }

  /** The messages of a conversation by creation time, then id. */
  function LoadOrdered(rows: seq<Message>, conversation: Id): seq<Message> {
    SortBy(Filter(rows, InConversation(conversation)), IN_ORDER)
  }

  ghost predicate UniqueIds(rows: seq<Message>) {
    forall i, j :: 0 <= i < j < |rows| ==> rows[i].id != rows[j].id
  }

  // ---------------------------------------------------------------- comparing

  /** The first `n` messages of both sides pair up: equal roles and equal contents. */
  ghost predicate SameUpTo(left: seq<Message>, right: seq<Message>, n: nat) {
    && n <= |left| && n <= |right|
    && forall i :: 0 <= i < n ==> left[i].role == right[i].role && left[i].content == right[i].content
  }

  datatype Comparison = Comparison(shared: seq<Message>, leftOnly: seq<Message>, rightOnly: seq<Message>, divergence: Option<Id>)

  /** The two sides come apart again from the comparison, and no longer common prefix exists. */
  ghost predicate Compares(left: seq<Message>, right: seq<Message>, c: Comparison) {
    var n := |c.shared|;
    && SameUpTo(left, right, n)
    && (n < |left| && n < |right| ==> left[n].role != right[n].role || left[n].content != right[n].content)
    && c.shared == left[..n]
    && c.shared + c.leftOnly == left
    && right[..n] + c.rightOnly == right
    && c.divergence == if n == 0 then None else Some(left[n - 1].id)
  }

  /** The message part of `compare`: a walk over both ordered lists until they differ. */
  method CompareMessages(left: seq<Message>, right: seq<Message>) returns (c: Comparison)
    ensures Compares(left, right, c)
    ensures |c.shared| <= |left| && |c.shared| <= |right|
    ensures forall i :: 0 <= i < |c.shared| ==> left[i].role == right[i].role && left[i].content == right[i].content
    ensures |c.shared| < |left| && |c.shared| < |right| ==>
              left[|c.shared|].role != right[|c.shared|].role || left[|c.shared|].content != right[|c.shared|].content
    ensures c.shared == left[..|c.shared|] && c.leftOnly == left[|c.shared|..] && c.rightOnly == right[|c.shared|..]
  {
    var shared: seq<Message> := [];
    var divergenceIndex := 0;
    while divergenceIndex < |left| && divergenceIndex < |right|
      invariant SameUpTo(left, right, divergenceIndex)
      invariant shared == left[..divergenceIndex]
    {
      if left[divergenceIndex].role != right[divergenceIndex].role
         || left[divergenceIndex].content != right[divergenceIndex].content {
        break;
      }
      shared := shared + [left[divergenceIndex]];
      divergenceIndex := divergenceIndex + 1;
    }
    c := Comparison(shared, left[divergenceIndex..], right[divergenceIndex..],
                    if shared == [] then None else Some(shared[|shared| - 1].id));
  }

  /** The shared part is the longest common prefix. */
  lemma SharedIsMaximal(left: seq<Message>, right: seq<Message>, c: Comparison, n: nat)
    requires Compares(left, right, c) && n <= |left| && n <= |right|
    requires forall i :: 0 <= i < n ==> left[i].role == right[i].role && left[i].content == right[i].content
    ensures n <= |c.shared|
  {
  }

  /** Comparing the other way round shares as much and exchanges the rest. */
  lemma ComparesSymmetrically(left: seq<Message>, right: seq<Message>, c: Comparison, d: Comparison)
    requires Compares(left, right, c) && Compares(right, left, d)
    ensures |c.shared| == |d.shared| && c.leftOnly == d.rightOnly && c.rightOnly == d.leftOnly
  {
    assert SameUpTo(right, left, |c.shared|) && SameUpTo(left, right, |d.shared|);
    SharedIsMaximal(right, left, d, |c.shared|);
    SharedIsMaximal(left, right, c, |d.shared|);
    var n := |c.shared|;
    assert c.leftOnly == left[n..] && c.rightOnly == right[n..];
    assert d.leftOnly == right[n..] && d.rightOnly == left[n..];
  }

  // ---------------------------------------------------------------- branching

  datatype BranchError = MessageNotInConversation

  function PositionOf(messages: seq<Message>, id: Id): (r: Option<nat>)
    ensures r.Some? ==> r.value < |messages| && messages[r.value].id == id
    ensures r.None? ==> forall m :: m in messages ==> m.id != id
    decreases |messages|
  {
    if messages == [] then None
    else if messages[0].id == id then Some(0)
    else
      var rest := PositionOf(messages[1..], id);
      if rest.None? then None else Some(rest.value + 1)
  }

  /** What `create_branch` copies: up to the chosen message in its query, which stops at the chosen message's time. */
  function ToCopy(rows: seq<Message>, parent: Id, chosen: Message): seq<Message> {
    var source := SortBy(Filter(rows, InConversationUntil(parent, chosen.createdAt)), IN_ORDER);
    var cutoff := PositionOf(source, chosen.id);
    if cutoff.None? then source else source[..cutoff.value + 1]
  }

  function CopyTo(m: Message, branch: Id, id: Id): Message {
    m.(id := id, conversation := branch)
  }

  function Copies(messages: seq<Message>, branch: Id, ids: seq<Id>): (r: seq<Message>)
    requires |messages| <= |ids|
    ensures |r| == |messages|
    ensures forall i :: 0 <= i < |r| ==> r[i] == CopyTo(messages[i], branch, ids[i])
  {
    if messages == [] then [] else [CopyTo(messages[0], branch, ids[0])] + Copies(messages[1..], branch, ids[1..])
  }

  /** Ids for new rows, none of them taken. */
  ghost predicate FreshIds(ids: seq<Id>, rows: seq<Message>) {
    && |ids| >= |rows|
    && (forall i, j :: 0 <= i < j < |ids| ==> ids[i] != ids[j])
    && (forall m :: m in rows ==> m.id !in ids)
  }

  lemma {:induction false} FilterTwice(rows: seq<Message>, parent: Id, until: int)
    ensures Filter(rows, InConversationUntil(parent, until)) == Filter(Filter(rows, InConversation(parent)), Until(until))
    decreases |rows|
  {
    if rows != [] {
      var n := |rows| - 1;
      FilterTwice(rows[..n], parent, until);
      FilterAppend(Filter(rows[..n], InConversation(parent)), [rows[n]], Until(until));
    }
  }

  lemma LoadedHas(rows: seq<Message>, conversation: Id, m: Message)
    ensures m in LoadOrdered(rows, conversation) <==> m in rows && m.conversation == conversation
  {
    hide SortBy, Filter, Sorted;
    var own := Filter(rows, InConversation(conversation));
    SortSorts(own, IN_ORDER);
    FilterHas(rows, InConversation(conversation), m);
    assert m in SortBy(own, IN_ORDER) <==> m in multiset(SortBy(own, IN_ORDER));
    assert m in own <==> m in multiset(own);
  }

  /** The query of `create_branch` finds a prefix of the conversation's ordered messages, the chosen one among them. */
  lemma QueryIsPrefix(rows: seq<Message>, parent: Id, chosen: Message) returns (n: nat)
    requires chosen in rows && chosen.conversation == parent
    ensures n <= |LoadOrdered(rows, parent)| && chosen in LoadOrdered(rows, parent)[..n]
    ensures SortBy(Filter(rows, InConversationUntil(parent, chosen.createdAt)), IN_ORDER) == LoadOrdered(rows, parent)[..n]
  {
    hide SortBy, Filter, InConversation, InConversationUntil;
    var own, ordered := Filter(rows, InConversation(parent)), LoadOrdered(rows, parent);
    assert ordered == SortBy(own, IN_ORDER);
    FilterTwice(rows, parent, chosen.createdAt);
    SortFilter(own, IN_ORDER, Until(chosen.createdAt));
    SortSorts(own, IN_ORDER);
    LoadedHas(rows, parent, chosen);
    hide LoadOrdered;
    OrderedEarly(ordered, chosen.createdAt);
    FilterHas(ordered, Until(chosen.createdAt), chosen);
    n := |Filter(ordered, Until(chosen.createdAt))|;
  }

  /** `create_branch` copies exactly the conversation's ordered messages up to and including the chosen one. */
  lemma CopiesOrderedPrefix(rows: seq<Message>, parent: Id, chosen: Message)
    requires UniqueIds(rows) && chosen in rows && chosen.conversation == parent
    ensures var ordered := LoadOrdered(rows, parent);
            var cutoff := PositionOf(ordered, chosen.id);
            cutoff.Some? && ordered[cutoff.value] == chosen && ToCopy(rows, parent, chosen) == ordered[..cutoff.value + 1]
  {
    hide SortBy, Filter, PositionOf, UniqueIds;
    var n := QueryIsPrefix(rows, parent, chosen);
    var ordered := LoadOrdered(rows, parent);
    PositionIn(ordered, n, chosen.id);
    var cutoff := PositionOf(ordered, chosen.id).value;
    LoadedHas(rows, parent, ordered[cutoff]);
    SameRow(rows, ordered[cutoff], chosen);
    assert cutoff < n;
    assert ordered[..n][..cutoff + 1] == ordered[..cutoff + 1];
  }

  lemma SameRow(rows: seq<Message>, a: Message, b: Message)
    requires UniqueIds(rows) && a in rows && b in rows && a.id == b.id
    ensures a == b
  {
    var i :| 0 <= i < |rows| && rows[i] == a;
    var j :| 0 <= j < |rows| && rows[j] == b;
    assert i == j;
  }

  lemma OrderedEarly(ordered: seq<Message>, until: int)
    requires Sorted(ordered, IN_ORDER)
    ensures var source := Filter(ordered, Until(until)); source == ordered[..|source|]
  {
    var early := Until(until);
    forall i, j | 0 <= i < j < |ordered| && early(ordered[j]) ensures early(ordered[i]) {
      assert !Before(IN_ORDER(ordered[j]), IN_ORDER(ordered[i]));
    }
    FilterIsPrefix(ordered, early);
  }

  /** Looking an id up in a prefix that has it finds it where the whole list does. */
  lemma {:induction false} PositionIn(messages: seq<Message>, n: nat, id: Id)
    requires n <= |messages| && exists m :: m in messages[..n] && m.id == id
    ensures PositionOf(messages, id).Some? && PositionOf(messages[..n], id) == PositionOf(messages, id)
    decreases n
  {
    if messages[0].id != id {
      assert messages[..n][1..] == messages[1..][..n - 1];
      var m :| m in messages[..n] && m.id == id;
      assert m in messages[1..][..n - 1];
      PositionIn(messages[1..], n - 1, id);
    }
  }

  // ---------------------------------------------------------------- reading a branch back

  /** Among copied messages of the same time the new ids ascend. */
  ghost predicate TiesAscend(messages: seq<Message>, ids: seq<Id>)
    requires |messages| <= |ids|
  {
    forall i, j :: 0 <= i < j < |messages| && messages[i].createdAt == messages[j].createdAt ==> ids[i] < ids[j]
  }

  /** The branch's rows are the only ones it has, and the parent's messages are as before. */
  lemma BranchRows(rows: seq<Message>, messages: seq<Message>, branch: Id, ids: seq<Id>, other: Id)
    requires |messages| <= |ids|
    requires forall m :: m in rows ==> m.conversation != branch
    ensures LoadOrdered(rows + Copies(messages, branch, ids), branch) == SortBy(Copies(messages, branch, ids), IN_ORDER)
    ensures other != branch ==> LoadOrdered(rows + Copies(messages, branch, ids), other) == LoadOrdered(rows, other)
  {
    hide SortBy, Filter;
    var copies := Copies(messages, branch, ids);
    FilterAppend(rows, copies, InConversation(branch));
    FilterAll(rows, InConversation(branch), false);
    FilterAll(copies, InConversation(branch), true);
    assert [] + copies == copies;
    FilterAppend(rows, copies, InConversation(other));
    FilterAll(copies, InConversation(other), other == branch);
    assert Filter(rows, InConversation(other)) + [] == Filter(rows, InConversation(other));
  }

  /** The branch reads back as the copied prefix exactly when the new ids keep the order of messages of the same time. */
  lemma ReadsBackIff(messages: seq<Message>, branch: Id, ids: seq<Id>)
    requires |messages| <= |ids| && Sorted(messages, IN_ORDER)
    requires forall i, j :: 0 <= i < j < |ids| ==> ids[i] != ids[j]
    ensures SortBy(Copies(messages, branch, ids), IN_ORDER) == Copies(messages, branch, ids) <==> TiesAscend(messages, ids)
  {
    hide SortBy;
    var copies := Copies(messages, branch, ids);
    if TiesAscend(messages, ids) {
      forall i, j | 0 <= i < j < |copies| ensures !Before(IN_ORDER(copies[j]), IN_ORDER(copies[i])) {
        assert !Before(IN_ORDER(messages[j]), IN_ORDER(messages[i]));
      }
      SortedIsFixed(copies, IN_ORDER);
    }
    if SortBy(copies, IN_ORDER) == copies {
      SortSorts(copies, IN_ORDER);
      forall i, j | 0 <= i < j < |messages| && messages[i].createdAt == messages[j].createdAt ensures ids[i] < ids[j] {
        assert !Before(IN_ORDER(copies[j]), IN_ORDER(copies[i]));
      }
    }
  }

  lemma DistinctTimesAscend(messages: seq<Message>, ids: seq<Id>)
    requires |messages| <= |ids|
    requires forall i, j :: 0 <= i < j < |messages| ==> messages[i].createdAt != messages[j].createdAt
    ensures TiesAscend(messages, ids)
  {
  }

  /**
   Branch, then compare: the shared part is the whole branch, nothing is on the branch alone, and what the parent has
   alone is the rest, provided the new ids keep the order of messages of the same time.
   */
  lemma BranchThenCompare(rows: seq<Message>, parent: Id, chosen: Message, branch: Id, ids: seq<Id>, c: Comparison)
    requires UniqueIds(rows) && chosen in rows && chosen.conversation == parent && branch != parent
    requires forall m :: m in rows ==> m.conversation != branch
    requires |ToCopy(rows, parent, chosen)| <= |ids| && forall i, j :: 0 <= i < j < |ids| ==> ids[i] != ids[j]
    requires TiesAscend(ToCopy(rows, parent, chosen), ids)
    requires var after := rows + Copies(ToCopy(rows, parent, chosen), branch, ids);
             Compares(LoadOrdered(after, parent), LoadOrdered(after, branch), c)
    ensures |c.shared| > 0 && PositionOf(LoadOrdered(rows, parent), chosen.id) == Some(|c.shared| - 1)
    ensures LoadOrdered(rows, parent) == c.shared + c.leftOnly && c.rightOnly == []
    ensures c.divergence == Some(chosen.id)
  {
    hide LoadOrdered, ToCopy, SortBy, PositionOf, UniqueIds, TiesAscend;
    var ordered, copied := LoadOrdered(rows, parent), ToCopy(rows, parent, chosen);
    CopiesOrderedPrefix(rows, parent, chosen);
    BranchRows(rows, copied, branch, ids, parent);
    LoadedIsSorted(rows, parent, |copied|);
    ReadsBackIff(copied, branch, ids);
    var copies := Copies(copied, branch, ids);
    SharesTheBranch(ordered, copies, c, chosen);
  }

  /** Compared with copies of its beginning, a list shares exactly that beginning. */
  lemma SharesTheBranch(ordered: seq<Message>, copies: seq<Message>, c: Comparison, chosen: Message)
    requires 0 < |copies| <= |ordered| && ordered[|copies| - 1] == chosen
    requires forall i :: 0 <= i < |copies| ==> ordered[i].role == copies[i].role && ordered[i].content == copies[i].content
    requires Compares(ordered, copies, c)
    ensures |c.shared| == |copies| && c.divergence == Some(chosen.id) && c.rightOnly == []
    ensures ordered == c.shared + c.leftOnly
  {
    SharedIsMaximal(ordered, copies, c, |copies|);
  }

  lemma LoadedIsSorted(rows: seq<Message>, conversation: Id, n: nat)
    requires n <= |LoadOrdered(rows, conversation)|
    ensures Sorted(LoadOrdered(rows, conversation)[..n], IN_ORDER)
  {
    hide SortBy, Filter;
    SortSorts(Filter(rows, InConversation(conversation)), IN_ORDER);
  }

  /** With two messages of the same time and ids drawn the other way round, the branch shares nothing with its parent. */
  lemma SameTimeDiverges()
    ensures var first, second := Message(1, 0, User, "a", None, 5), Message(2, 0, Assistant, "b", None, 5);
            && LoadOrdered([first, second], 0) == [first, second] == ToCopy([first, second], 0, second)
            && LoadOrdered([first, second] + Copies([first, second], 9, [8, 7]), 9)
               == [CopyTo(second, 9, 7), CopyTo(first, 9, 8)]
            && forall c :: Compares([first, second], [CopyTo(second, 9, 7), CopyTo(first, 9, 8)], c) ==> c.shared == []
  {
    var first, second := Message(1, 0, User, "a", None, 5), Message(2, 0, Assistant, "b", None, 5);
    var rows, ids := [first, second], [8, 7];
    var a, b := CopyTo(first, 9, 8), CopyTo(second, 9, 7);
    hide SortBy, Filter, Place;
    FilterAll(rows, InConversation(0), true);
    SortedIsFixed(rows, IN_ORDER);
    CopiesOrderedPrefix(rows, 0, second);
    BranchRows(rows, rows, 9, ids, 0);
    assert Copies(rows, 9, ids) == [a, b];
    SortTwo(a, b);
    assert first.content != b.content;
  }

  lemma SortTwo(a: Message, b: Message)
    requires Before(IN_ORDER(b), IN_ORDER(a))
    ensures SortBy([a, b], IN_ORDER) == [b, a]
  {
    SortedIsFixed([a], IN_ORDER);
    assert [a, b][..1] == [a];
    assert Place([], b, IN_ORDER) == [b];
  }

  // ---------------------------------------------------------------- the program

  class ConversationStore {
    var messages: seq<Message>

    constructor ()
      ensures messages == []
    {
      messages := [];
    }

    /** The message part of `create_branch`. */
    method CreateBranch(parent: Id, messageId: Id, branch: Id, ids: seq<Id>) returns (r: Result<seq<Message>, BranchError>)
      requires UniqueIds(messages) && FreshIds(ids, messages)
      requires branch != parent && forall m :: m in messages ==> m.conversation != branch
      modifies this
      ensures UniqueIds(messages)
      ensures r.Failure? <==> forall m :: m in old(messages) ==> !(m.id == messageId && m.conversation == parent)
      ensures r.Failure? ==> messages == old(messages)
      ensures r.Success? ==>
                var ordered := LoadOrdered(old(messages), parent);
                var cutoff := PositionOf(ordered, messageId);
                && cutoff.Some?
                && r.value == ordered[..cutoff.value + 1]
                && |r.value| <= |ids|
                && messages == old(messages) + Copies(r.value, branch, ids)
                && EndsWithCopies(messages, r.value, branch, ids)
    {
      hide LoadOrdered, SortBy, Filter, UniqueIds, PositionOf, EndsWithCopies;
      var chosen := FindMessage(messages, parent, messageId);
      if chosen.None? {
        return Failure(MessageNotInConversation);
      }
      CopiesOrderedPrefix(messages, parent, chosen.value);
      var source := SortBy(Filter(messages, InConversationUntil(parent, chosen.value.createdAt)), IN_ORDER);
      var cutoff := PositionOf(source, messageId);
      var toCopy := if cutoff.None? then source else source[..cutoff.value + 1];
      assert toCopy == ToCopy(messages, parent, chosen.value);
      assert |toCopy| <= |source| <= |messages|;
      ghost var before := messages;
      for i := 0 to |toCopy|
        invariant messages == before + Copies(toCopy[..i], branch, ids)
      {
        CopiesStep(toCopy, i, branch, ids);
        messages := messages + [CopyTo(toCopy[i], branch, ids[i])];
      }
      assert toCopy[..|toCopy|] == toCopy;
      StillUnique(before, toCopy, branch, ids);
      CopiesAtEnd(before, toCopy, branch, ids);
      return Success(toCopy);
    }
  }

  method FindMessage(rows: seq<Message>, conversation: Id, id: Id) returns (r: Option<Message>)
    ensures r.Some? ==> r.value in rows && r.value.id == id && r.value.conversation == conversation
    ensures r.None? ==> forall m :: m in rows ==> !(m.id == id && m.conversation == conversation)
  {
    for i := 0 to |rows|
      invariant forall m :: m in rows[..i] ==> !(m.id == id && m.conversation == conversation)
    {
      if rows[i].id == id && rows[i].conversation == conversation {
        return Some(rows[i]);
      }
    }
    assert rows[..|rows|] == rows;
    return None;
  }

  /** The last rows are the given messages, with new ids in the branch and everything else as it was. */
  ghost predicate EndsWithCopies(rows: seq<Message>, copied: seq<Message>, branch: Id, ids: seq<Id>) {
    && |copied| <= |rows| && |copied| <= |ids|
    && forall i :: 0 <= i < |copied| ==>
                     rows[|rows| - |copied| + i] == Message(ids[i], branch, copied[i].role, copied[i].content,
                                                            copied[i].author, copied[i].createdAt)
  }

  lemma CopiesAtEnd(rows: seq<Message>, copied: seq<Message>, branch: Id, ids: seq<Id>)
    requires |copied| <= |ids|
    ensures EndsWithCopies(rows + Copies(copied, branch, ids), copied, branch, ids)
  {
    hide Copies;
  }

  lemma {:induction false} CopiesStep(messages: seq<Message>, i: nat, branch: Id, ids: seq<Id>)
    requires i < |messages| <= |ids|
    ensures Copies(messages[..i + 1], branch, ids) == Copies(messages[..i], branch, ids) + [CopyTo(messages[i], branch, ids[i])]
  {
    hide Copies;
  }

  lemma StillUnique(rows: seq<Message>, messages: seq<Message>, branch: Id, ids: seq<Id>)
    requires UniqueIds(rows) && FreshIds(ids, rows) && |messages| <= |ids|
    ensures UniqueIds(rows + Copies(messages, branch, ids))
  {
    hide Copies;
    var after := rows + Copies(messages, branch, ids);
    forall i, j | 0 <= i < j < |after| ensures after[i].id != after[j].id {
      if i < |rows| <= j {
        assert rows[i] in rows && after[j].id == ids[j - |rows|];
      }
    }
  }
}
