/**
 The websocket manager: a connection table, three indexes over it, and presence. A send may fail at any time; a failed
 send disconnects its target, which broadcasts again. The state is one `Hub` value per moment, so that the effect of
 nested broadcasts can be stated as a relation between two moments and chained.
 */
module RealtimeHub {
  import opened Wrappers

  type Id = int
  type Cid = int

  datatype Connection = Connection(user: Id, name: string, workspace: Option<Id>, conversations: set<Id>)

  datatype Status = Online | Offline

  datatype Presence = Presence(name: string, status: Status)

  datatype Event =
    | PresenceUpdated(workspace: Id, user: Id, name: string, status: Status)
    | MemberJoined(workspace: Id, user: Id, name: string)
    | MemberLeft(workspace: Id, user: Id, name: string)
    | Other(workspace: Id, conversation: Option<Id>, text: string)

  /** One try at sending an event over a connection's socket. */
  datatype Attempt = Attempt(to: Cid, event: Event, ok: bool)

  type Index = map<Id, set<Cid>>

  type Table = map<Cid, Connection>

  /** The manager at one moment, with everything broadcast and every send tried so far. */
  datatype Hub = Hub(connections: Table, byUser: Index, byWorkspace: Index, byConversation: Index,
                     presence: map<Id, map<Id, Presence>>, emitted: seq<Event>, sent: seq<Attempt>)

  // ---------------------------------------------------------------- dictionaries of sets

  function Lookup(index: Index, key: Id): set<Cid> {
    if key in index then index[key] else {}
  }

  function Add(index: Index, key: Id, c: Cid): Index {
    index[key := Lookup(index, key) + {c}]
  }

  function Discard(index: Index, key: Id, c: Cid): Index {
    if key in index then index[key := index[key] - {c}] else index
  }

  function DiscardAndPrune(index: Index, key: Id, c: Cid): Index {
    if key !in index then index
    else if index[key] - {c} == {} then index - {key}
    else index[key := index[key] - {c}]
  }

  function Members(presence: map<Id, map<Id, Presence>>, workspace: Id): map<Id, Presence> {
    if workspace in presence then presence[workspace] else map[]
  }

  function Mark(presence: map<Id, map<Id, Presence>>, workspace: Id, user: Id, name: string, status: Status)
    : map<Id, map<Id, Presence>>
  {
    presence[workspace := Members(presence, workspace)[user := Presence(name, status)]]
  }

  // ---------------------------------------------------------------- agreement

  ghost predicate UserIndexAgrees(h: Hub) {
    && (forall u, c :: c in Lookup(h.byUser, u) <==> c in h.connections && h.connections[c].user == u)
    && (forall u :: u in h.byUser ==> h.byUser[u] != {})
  }

  ghost predicate WorkspaceIndexAgrees(h: Hub) {
    forall w, c :: c in Lookup(h.byWorkspace, w) <==> c in h.connections && h.connections[c].workspace == Some(w)
  }

  ghost predicate ConversationIndexAgrees(h: Hub) {
    forall v, c :: c in Lookup(h.byConversation, v) <==> c in h.connections && v in h.connections[c].conversations
  }

  predicate At(table: Table, c: Cid, w: Id, u: Id) {
    c in table && table[c].workspace == Some(w) && table[c].user == u
  }

  /** The user has a live connection in the workspace. */
  ghost predicate Present(table: Table, w: Id, u: Id) {
    exists c :: At(table, c, w, u)
  }

  ghost predicate PresenceAgrees(h: Hub) {
    && (forall c, w, u :: At(h.connections, c, w, u) ==> u in Members(h.presence, w))
    && (forall w, u :: u in Members(h.presence, w) && Members(h.presence, w)[u].status.Online? ==> Present(h.connections, w, u))
  }

  /** In every reachable state the indexes agree with the table, and whoever is shown online is connected. */
  ghost predicate Valid(h: Hub) {
    UserIndexAgrees(h) && WorkspaceIndexAgrees(h) && ConversationIndexAgrees(h) && PresenceAgrees(h)
  }

  // ---------------------------------------------------------------- what a run of nested broadcasts does

  /** How many MEMBER_LEFT events there are for a user in a workspace. */
  function LeaveCount(emitted: seq<Event>, w: Id, u: Id): nat
    decreases |emitted|
  {
    if emitted == [] then 0
    else
      var last := emitted[|emitted| - 1];
      LeaveCount(emitted[..|emitted| - 1], w, u)
      + (if last.MemberLeft? && last.workspace == w && last.user == u then 1 else 0)
  }

  /** Departures announced plus the one that is still due if the user is there. */
  ghost function Balance(h: Hub, w: Id, u: Id): nat {
    LeaveCount(h.emitted, w, u) + (if Present(h.connections, w, u) then 1 else 0)
  }

  /** The targets of the sends that failed from position `from` on. */
  ghost function FailedTo(sent: seq<Attempt>, from: nat): set<Cid> {
    set i | from <= i < |sent| && !sent[i].ok :: sent[i].to
  }

  ghost predicate Left(table: Table, leavers: set<Cid>, w: Id, u: Id) {
    exists c :: c in leavers && At(table, c, w, u)
  }

  /** One of the leavers was the user's connection in the workspace, under this name. */
  ghost predicate LeftUnder(table: Table, leavers: set<Cid>, w: Id, u: Id, name: string) {
    exists c :: c in leavers && At(table, c, w, u) && table[c].name == name
  }

  /**
   A member with a connection among the leavers is shown offline, under the name of one of those, whatever other
   connections remain; others are untouched.
   */
  ghost predicate PresenceEntryFollows(s: Hub, t: Hub, leavers: set<Cid>, w: Id, u: Id) {
    && (u in Members(s.presence, w) <==> u in Members(t.presence, w))
    && (u in Members(s.presence, w) ==>
          var entry := Members(t.presence, w)[u];
          if Left(s.connections, leavers, w, u) then entry.status.Offline? && LeftUnder(s.connections, leavers, w, u, entry.name)
          else entry == Members(s.presence, w)[u])
  }

  /** What the event says of a member is the member's entry, or follows from a connection of the member having left. */
  ghost predicate Shows(s: Hub, leavers: set<Cid>, event: Event)
    requires event.PresenceUpdated?
  {
    var w, u := event.workspace, event.user;
    && u in Members(s.presence, w)
    && (Members(s.presence, w)[u] == Presence(event.name, event.status)
        || (event.status.Offline? && LeftUnder(s.connections, leavers, w, u, event.name)))
  }

  /** No presence was broadcast but such. */
  ghost predicate Truthful(s: Hub, t: Hub, leavers: set<Cid>) {
    forall i :: |s.emitted| <= i < |t.emitted| && t.emitted[i].PresenceUpdated? ==> Shows(s, leavers, t.emitted[i])
  }

  ghost predicate PresenceFollows(s: Hub, t: Hub, leavers: set<Cid>) {
    forall w, u :: PresenceEntryFollows(s, t, leavers, w, u)
  }

  ghost predicate BalanceKept(s: Hub, t: Hub) {
    forall w, u :: Balance(t, w, u) == Balance(s, w, u)
  }

  /**
   From `s` to `t` exactly the `dropped` connections and those whose send failed have gone, and every other record is
   untouched; presence shows their users offline, and nothing else was said of anybody; MEMBER_LEFT balances.
   */
  ghost predicate Evolves(s: Hub, t: Hub, dropped: set<Cid>) {
    Drops(s, t, dropped) && BalanceKept(s, t)
  }

  ghost predicate Drops(s: Hub, t: Hub, dropped: set<Cid>) {
    && s.sent <= t.sent
    && s.emitted <= t.emitted
    && FailedTo(t.sent, |s.sent|) <= s.connections.Keys
    && t.connections == s.connections - (dropped + FailedTo(t.sent, |s.sent|))
    && PresenceFollows(s, t, dropped + FailedTo(t.sent, |s.sent|))
    && Truthful(s, t, dropped + FailedTo(t.sent, |s.sent|))
  }

  lemma FailedSplits(s: seq<Attempt>, t: seq<Attempt>, from: nat)
    requires from <= |s| && s <= t
    ensures FailedTo(t, from) == FailedTo(s, from) + FailedTo(t, |s|)
  {
    forall c | c in FailedTo(t, from) ensures c in FailedTo(s, from) + FailedTo(t, |s|) {
      var i :| from <= i < |t| && !t[i].ok && t[i].to == c;
      assert i < |s| ==> s[i] == t[i];
    }
    forall c | c in FailedTo(s, from) ensures c in FailedTo(t, from) {
      var i :| from <= i < |s| && !s[i].ok && s[i].to == c;
      assert s[i] == t[i];
    }
  }

  lemma PresenceChains(s: Hub, t: Hub, v: Hub, a: set<Cid>, b: set<Cid>)
    requires PresenceFollows(s, t, a) && PresenceFollows(t, v, b)
    requires t.connections == s.connections - a
    ensures PresenceFollows(s, v, a + b)
  {
    hide Members;
    forall w, u ensures PresenceEntryFollows(s, v, a + b, w, u) {
      assert PresenceEntryFollows(s, t, a, w, u);
      assert PresenceEntryFollows(t, v, b, w, u);
      LeftSplits(s.connections, a, b, w, u);
      if u in Members(v.presence, w) {
        LeftUnderSplits(s.connections, a, b, w, u, Members(v.presence, w)[u].name);
      }
    }
  }

  lemma LeftUnderSplits(table: Table, a: set<Cid>, b: set<Cid>, w: Id, u: Id, name: string)
    ensures LeftUnder(table, a + b, w, u, name) <==> LeftUnder(table, a, w, u, name) || LeftUnder(table - a, b, w, u, name)
  {
    if LeftUnder(table, a + b, w, u, name) {
      var c :| c in a + b && At(table, c, w, u) && table[c].name == name;
      assert c !in a ==> At(table - a, c, w, u);
    }
    if LeftUnder(table, a, w, u, name) {
      var c :| c in a && At(table, c, w, u) && table[c].name == name;
      assert c in a + b;
    }
    if LeftUnder(table - a, b, w, u, name) {
      var c :| c in b && At(table - a, c, w, u) && (table - a)[c].name == name;
      assert c in a + b && At(table, c, w, u);
    }
  }

  lemma TruthfulChains(s: Hub, t: Hub, v: Hub, a: set<Cid>, b: set<Cid>)
    requires Truthful(s, t, a) && Truthful(t, v, b) && PresenceFollows(s, t, a)
    requires t.connections == s.connections - a && t.emitted <= v.emitted
    ensures Truthful(s, v, a + b)
  {
    hide Members, LeftUnder, Left;
    forall i | |s.emitted| <= i < |v.emitted| && v.emitted[i].PresenceUpdated?
      ensures Shows(s, a + b, v.emitted[i])
    {
      var e := v.emitted[i];
      LeftUnderSplits(s.connections, a, b, e.workspace, e.user, e.name);
      if i < |t.emitted| {
        assert e == t.emitted[i];
      } else {
        assert Shows(t, b, e);
        assert PresenceEntryFollows(s, t, a, e.workspace, e.user);
      }
    }
  }

  lemma LeftSplits(table: Table, a: set<Cid>, b: set<Cid>, w: Id, u: Id)
    ensures Left(table, a + b, w, u) <==> Left(table, a, w, u) || Left(table - a, b, w, u)
  {
    if Left(table, a + b, w, u) {
      var c :| c in a + b && At(table, c, w, u);
      assert c !in a ==> At(table - a, c, w, u);
    }
    if Left(table, a, w, u) {
      var c :| c in a && At(table, c, w, u);
      assert c in a + b;
    }
    if Left(table - a, b, w, u) {
      var c :| c in b && At(table - a, c, w, u);
      assert c in a + b && At(table, c, w, u);
    }
  }

  /** What a nested call does and what follows it add up. */
  lemma EvolvesChains(s: Hub, t: Hub, v: Hub, a: set<Cid>, b: set<Cid>)
    requires Evolves(s, t, a) && Evolves(t, v, b)
    ensures Evolves(s, v, a + b)
  {
    hide Drops, BalanceKept;
    DropsChain(s, t, v, a, b);
    BalanceChains(s, t, v);
  }

  lemma EvolvesOn(s: Hub, t: Hub, v: Hub)
    requires Evolves(s, t, {}) && Evolves(t, v, {})
    ensures Evolves(s, v, {})
  {
    hide Evolves;
    var nobody: set<Cid> := {};
    EvolvesChains(s, t, v, nobody, nobody);
    assert nobody + nobody == nobody;
  }

  lemma DropsChain(s: Hub, t: Hub, v: Hub, a: set<Cid>, b: set<Cid>)
    requires Drops(s, t, a) && Drops(t, v, b)
    ensures Drops(s, v, a + b)
  {
    hide FailedTo, PresenceFollows, Truthful;
    var f, g := FailedTo(t.sent, |s.sent|), FailedTo(v.sent, |t.sent|);
    FailedSplits(t.sent, v.sent, |s.sent|);
    PresenceChains(s, t, v, a + f, b + g);
    TruthfulChains(s, t, v, a + f, b + g);
    assert a + b + FailedTo(v.sent, |s.sent|) == (a + f) + (b + g);
    assert v.connections == s.connections - (a + b + FailedTo(v.sent, |s.sent|));
  }

  lemma BalanceChains(s: Hub, t: Hub, v: Hub)
    requires BalanceKept(s, t) && BalanceKept(t, v)
    ensures BalanceKept(s, v)
  {
    hide Balance;
  }

  lemma PresentShrinks(table: Table, leavers: set<Cid>, w: Id, u: Id)
    requires Present(table - leavers, w, u)
    ensures Present(table, w, u)
  {
    var c :| At(table - leavers, c, w, u);
    assert At(table, c, w, u);
  }

  /** MEMBER_LEFT goes out exactly once for each user whose last connection in a workspace has gone, and for nobody else. */
  lemma LeftOnceWhenLastIsGone(s: Hub, t: Hub, dropped: set<Cid>, w: Id, u: Id)
    requires Evolves(s, t, dropped)
    ensures LeaveCount(t.emitted, w, u) - LeaveCount(s.emitted, w, u)
            == if Present(s.connections, w, u) && !Present(t.connections, w, u) then 1 else 0
  {
    hide FailedTo, PresenceFollows, Present, LeaveCount;
    assert Drops(s, t, dropped);
    assert Balance(t, w, u) == Balance(s, w, u);
    if Present(t.connections, w, u) {
      PresentShrinks(s.connections, dropped + FailedTo(t.sent, |s.sent|), w, u);
    }
  }

  /** No connection whose send failed is left in the table or in any index. */
  lemma FailedAreGone(s: Hub, t: Hub, dropped: set<Cid>, c: Cid, key: Id)
    requires Evolves(s, t, dropped) && Valid(t)
    requires c in dropped + FailedTo(t.sent, |s.sent|)
    ensures c !in t.connections && c !in Lookup(t.byUser, key) && c !in Lookup(t.byWorkspace, key)
            && c !in Lookup(t.byConversation, key)
  {
    hide FailedTo, PresenceFollows, BalanceKept, PresenceAgrees, Lookup;
  }

  lemma EvolvesByStaying(h: Hub)
    ensures Evolves(h, h, {})
  {
    assert FailedTo(h.sent, |h.sent|) == {};
    NobodyLeft(h.connections);
  }

  lemma NobodyLeft(table: Table)
    ensures forall w, u :: !Left(table, {}, w, u)
  {
  }

  function Emitting(h: Hub, event: Event): Hub {
    h.(emitted := h.emitted + [event])
  }

  /** An event drops nobody, and only a departure changes a balance. */
  lemma EmittingBalance(h: Hub, event: Event, w: Id, u: Id)
    requires event.PresenceUpdated? ==> Shows(h, {}, event)
    ensures Drops(h, Emitting(h, event), {})
    ensures Balance(Emitting(h, event), w, u)
            == Balance(h, w, u) + (if event.MemberLeft? && event.workspace == w && event.user == u then 1 else 0)
  {
    var t := Emitting(h, event);
    assert FailedTo(t.sent, |h.sent|) == {};
    NobodyLeft(h.connections);
    assert t.emitted[..|h.emitted|] == h.emitted;
  }

  lemma OtherEvent(h: Hub, event: Event)
    requires !event.MemberLeft? && (event.PresenceUpdated? ==> Shows(h, {}, event))
    ensures Evolves(h, Emitting(h, event), {})
  {
    EmittingBalance(h, event, 0, 0);
    hide Balance, Drops, Emitting, Shows;
    forall w, u ensures Balance(Emitting(h, event), w, u) == Balance(h, w, u) {
      EmittingBalance(h, event, w, u);
    }
  }

  // ---------------------------------------------------------------- the blocks under the lock

  function Connected(s: Hub, c: Cid, user: Id, name: string): Hub {
    s.(connections := s.connections[c := Connection(user, name, None, {})], byUser := Add(s.byUser, user, c))
  }

  function DiscardEach(index: Index, keys: set<Id>, c: Cid): Index {
    map k | k in index :: if k in keys then index[k] - {c} else index[k]
  }

  function Popped(s: Hub, c: Cid): Hub
    requires c in s.connections
  {
    var conn := s.connections[c];
    var popped := s.(connections := s.connections - {c}, byUser := DiscardAndPrune(s.byUser, conn.user, c),
                     byConversation := DiscardEach(s.byConversation, conn.conversations, c));
    if conn.workspace.None? then popped
    else
      var w := conn.workspace.value;
      popped.(byWorkspace := Discard(s.byWorkspace, w, c), presence := Mark(s.presence, w, conn.user, conn.name, Offline))
  }

  /** A connection that switches to another workspace leaves its old one without a MEMBER_LEFT. */
  function LeftBehind(s: Hub, c: Cid, w: Id): Hub
    requires c in s.connections
  {
    var conn := s.connections[c];
    if conn.workspace.None? || conn.workspace.value == w then s
    else
      var before := conn.workspace.value;
      s.(byWorkspace := Discard(s.byWorkspace, before, c), presence := Mark(s.presence, before, conn.user, conn.name, Offline))
  }

  function Subscribed(s: Hub, c: Cid, w: Id): Hub
    requires c in s.connections
  {
    var conn, left := s.connections[c], LeftBehind(s, c, w);
    left.(connections := s.connections[c := conn.(workspace := Some(w))], byWorkspace := Add(left.byWorkspace, w, c),
          presence := Mark(left.presence, w, conn.user, conn.name, Online))
  }

  function Following(s: Hub, c: Cid, conversations: seq<Id>): Hub
    requires c in s.connections
    decreases |conversations|
  {
    if conversations == [] then s
    else
      var v := conversations[|conversations| - 1];
      Followed(Following(s, c, conversations[..|conversations| - 1]), c, v)
  }

  function Followed(s: Hub, c: Cid, v: Id): Hub {
    if c !in s.connections then s
    else
      var conn := s.connections[c];
      s.(connections := s.connections[c := conn.(conversations := conn.conversations + {v})],
         byConversation := Add(s.byConversation, v, c))
  }

  lemma ConnectedIsValid(s: Hub, c: Cid, user: Id, name: string)
    requires Valid(s) && c !in s.connections
    ensures Valid(Connected(s, c, user, name)) && BalanceKept(s, Connected(s, c, user, name))
  {
    var t := Connected(s, c, user, name);
    forall k, d ensures d in Lookup(t.byUser, k) <==> d in Lookup(s.byUser, k) || (k == user && d == c) {
    }
    SamePlaces(s, t);
  }

  lemma SamePlaces(s: Hub, t: Hub)
    requires forall c, w, u :: At(s.connections, c, w, u) <==> At(t.connections, c, w, u)
    requires t.presence == s.presence && t.emitted == s.emitted
    ensures PresenceAgrees(s) ==> PresenceAgrees(t)
    ensures BalanceKept(s, t)
  {
    forall w, u ensures Present(t.connections, w, u) <==> Present(s.connections, w, u) {
      SamePlace(s.connections, t.connections, w, u);
    }
  }

  lemma SamePlace(a: Table, b: Table, w: Id, u: Id)
    requires forall c :: At(a, c, w, u) <==> At(b, c, w, u)
    ensures Present(a, w, u) <==> Present(b, w, u)
  {
  }

  lemma PoppedUserIndex(s: Hub, c: Cid)
    requires Valid(s) && c in s.connections
    ensures UserIndexAgrees(Popped(s, c))
  {
    hide PresenceAgrees, WorkspaceIndexAgrees, ConversationIndexAgrees, Mark, Discard, DiscardEach;
    var conn, t := s.connections[c], Popped(s, c);
    forall k, d ensures d in Lookup(t.byUser, k) <==> d in Lookup(s.byUser, k) && !(k == conn.user && d == c) {
    }
  }

  lemma PoppedWorkspaceIndex(s: Hub, c: Cid)
    requires Valid(s) && c in s.connections
    ensures WorkspaceIndexAgrees(Popped(s, c))
  {
    hide PresenceAgrees, UserIndexAgrees, ConversationIndexAgrees, Mark, DiscardAndPrune, DiscardEach;
    var conn, t := s.connections[c], Popped(s, c);
    forall k, d ensures d in Lookup(t.byWorkspace, k) <==> d in Lookup(s.byWorkspace, k) && !(Some(k) == conn.workspace && d == c) {
    }
  }

  lemma PoppedConversationIndex(s: Hub, c: Cid)
    requires Valid(s) && c in s.connections
    ensures ConversationIndexAgrees(Popped(s, c))
  {
    hide PresenceAgrees, UserIndexAgrees, WorkspaceIndexAgrees, Mark, DiscardAndPrune, Discard;
    var conn, t := s.connections[c], Popped(s, c);
    forall k, d
      ensures d in Lookup(t.byConversation, k) <==> d in Lookup(s.byConversation, k) && !(k in conn.conversations && d == c)
    {
    }
  }

  lemma PoppedPresence(s: Hub, c: Cid)
    requires Valid(s) && c in s.connections
    ensures PresenceAgrees(Popped(s, c)) && PresenceFollows(s, Popped(s, c), {c})
  {
    hide UserIndexAgrees, WorkspaceIndexAgrees, ConversationIndexAgrees, DiscardAndPrune, Discard, DiscardEach;
    var t := Popped(s, c);
    forall w, u ensures PresenceEntryFollows(s, t, {c}, w, u) {
      assert Left(s.connections, {c}, w, u) <==> At(s.connections, c, w, u);
      assert At(s.connections, c, w, u) ==> LeftUnder(s.connections, {c}, w, u, s.connections[c].name);
    }
    forall w, u | u in Members(t.presence, w) && Members(t.presence, w)[u].status.Online?
      ensures Present(t.connections, w, u)
    {
      assert PresenceEntryFollows(s, t, {c}, w, u);
      var d :| At(s.connections, d, w, u);
      assert At(t.connections, d, w, u);
    }
    forall d, w, u | At(t.connections, d, w, u) ensures u in Members(t.presence, w) {
      assert At(s.connections, d, w, u);
    }
  }

  lemma LeftBehindPresence(s: Hub, c: Cid, w: Id, v: Id, u: Id)
    requires c in s.connections
    ensures var conn := s.connections[c];
            Members(LeftBehind(s, c, w).presence, v)
            == if conn.workspace == Some(v) && v != w then Members(s.presence, v)[conn.user := Presence(conn.name, Offline)]
               else Members(s.presence, v)
  {
    hide Discard;
  }

  lemma SubscribedPresence(s: Hub, c: Cid, w: Id, v: Id, u: Id)
    requires Valid(s) && c in s.connections
    ensures var t := Subscribed(s, c, w);
            && (At(t.connections, c, v, u) <==> v == w && u == s.connections[c].user)
            && (forall d :: d != c ==> (At(t.connections, d, v, u) <==> At(s.connections, d, v, u)))
            && (Present(t.connections, v, u) ==> u in Members(t.presence, v))
            && (u in Members(t.presence, v) && Members(t.presence, v)[u].status.Online? ==> Present(t.connections, v, u))
  {
    hide UserIndexAgrees, WorkspaceIndexAgrees, ConversationIndexAgrees, Discard, Add;
    LeftBehindPresence(s, c, w, v, u);
    hide LeftBehind;
    var t := Subscribed(s, c, w);
    if v == w && u == s.connections[c].user {
      assert At(t.connections, c, v, u);
    } else if u in Members(t.presence, v) && Members(t.presence, v)[u].status.Online? {
      var d :| At(s.connections, d, v, u);
      assert At(t.connections, d, v, u);
    }
    if Present(t.connections, v, u) {
      var d :| At(t.connections, d, v, u);
      assert d != c ==> At(s.connections, d, v, u);
    }
  }

  lemma SubscribedIndexesAgree(s: Hub, c: Cid, w: Id)
    requires Valid(s) && c in s.connections
    ensures var t := Subscribed(s, c, w); UserIndexAgrees(t) && WorkspaceIndexAgrees(t) && ConversationIndexAgrees(t)
  {
    hide PresenceAgrees, At, Mark;
    var conn, left, t := s.connections[c], LeftBehind(s, c, w), Subscribed(s, c, w);
    forall k, d
      ensures d in Lookup(t.byWorkspace, k) <==> if d == c then k == w else d in Lookup(s.byWorkspace, k)
    {
      assert c in Lookup(s.byWorkspace, k) <==> Some(k) == conn.workspace;
      assert d in Lookup(left.byWorkspace, k)
             <==> d in Lookup(s.byWorkspace, k) && !(d == c && conn.workspace == Some(k) && k != w);
    }
  }

  lemma SubscribedIsValid(s: Hub, c: Cid, w: Id)
    requires Valid(s) && c in s.connections
    ensures Valid(Subscribed(s, c, w))
  {
    SubscribedIndexesAgree(s, c, w);
    var t := Subscribed(s, c, w);
    hide UserIndexAgrees, WorkspaceIndexAgrees, ConversationIndexAgrees, Subscribed;
    forall v, u
      ensures Present(t.connections, v, u) ==> u in Members(t.presence, v)
      ensures u in Members(t.presence, v) && Members(t.presence, v)[u].status.Online? ==> Present(t.connections, v, u)
    {
      SubscribedPresence(s, c, w, v, u);
    }
    forall d, v, u | At(t.connections, d, v, u) ensures u in Members(t.presence, v) {
      assert Present(t.connections, v, u);
    }
  }

  lemma FollowedIsIndexed(s: Hub, c: Cid, v: Id)
    requires ConversationIndexAgrees(s) && UserIndexAgrees(s) && WorkspaceIndexAgrees(s)
    ensures var t := Followed(s, c, v); ConversationIndexAgrees(t) && UserIndexAgrees(t) && WorkspaceIndexAgrees(t)
  {
    var t := Followed(s, c, v);
    assert UserIndexAgrees(t) && WorkspaceIndexAgrees(t);
    hide UserIndexAgrees, WorkspaceIndexAgrees;
    forall k, d | c in s.connections
      ensures d in Lookup(t.byConversation, k) <==> d in Lookup(s.byConversation, k) || (k == v && d == c)
    {
    }
  }

  lemma FollowedIsValid(s: Hub, c: Cid, v: Id)
    requires Valid(s)
    ensures Valid(Followed(s, c, v)) && BalanceKept(s, Followed(s, c, v))
  {
    FollowedIsIndexed(s, c, v);
    hide UserIndexAgrees, WorkspaceIndexAgrees, ConversationIndexAgrees, PresenceAgrees, BalanceKept, Add;
    SamePlaces(s, Followed(s, c, v));
  }

  // ---------------------------------------------------------------- the manager

  /** The live targets of a broadcast, in order. */
  function Targets(ids: seq<Cid>, table: Table, exclude: Option<Cid>): seq<Cid>
    decreases |ids|
  {
    if ids == [] then []
    else
      var last, front := ids[|ids| - 1], Targets(ids[..|ids| - 1], table, exclude);
      if last in table && Some(last) != exclude then front + [last] else front
  }

  /** The first sends tried since `from` are the event to each target, in order. */
  ghost predicate Offered(sent: seq<Attempt>, from: nat, targets: seq<Cid>, event: Event) {
    && from + |targets| <= |sent|
    && forall k :: 0 <= k < |targets| ==> sent[from + k].to == targets[k] && sent[from + k].event == event
  }

  lemma OfferedGrows(s: seq<Attempt>, t: seq<Attempt>, from: nat, targets: seq<Cid>, event: Event)
    requires Offered(s, from, targets, event) && s <= t
    ensures Offered(t, from, targets, event)
  {
    forall k | 0 <= k < |targets| ensures t[from + k].to == targets[k] && t[from + k].event == event {
      assert t[from + k] == s[from + k];
    }
  }

  lemma {:induction false} TargetsAre(ids: seq<Cid>, table: Table, exclude: Option<Cid>, c: Cid)
    ensures c in Targets(ids, table, exclude) <==> c in ids && c in table && Some(c) != exclude
    decreases |ids|
  {
    if ids != [] {
      TargetsAre(ids[..|ids| - 1], table, exclude, c);
      assert ids == ids[..|ids| - 1] + [ids[|ids| - 1]];
    }
  }

  /** The events that disconnecting somebody sends. */
  predicate IsNotice(event: Event) {
    event.PresenceUpdated? || event.MemberLeft?
  }

  /** Nothing but such events was sent from position `from` on. */
  ghost predicate Notices(sent: seq<Attempt>, from: nat) {
    forall i :: from <= i < |sent| ==> IsNotice(sent[i].event)
  }

  /** The event went once to each live member but the excluded one, before anything that failed sends brought about. */
  ghost predicate Sends(s: Hub, sent: seq<Attempt>, members: set<Cid>, event: Event, exclude: Option<Cid>) {
    exists ids :: Lists(ids, members) && Offered(sent, |s.sent|, Targets(ids, s.connections, exclude), event)
                  && Notices(sent, |s.sent| + |Targets(ids, s.connections, exclude)|)
  }

  lemma NoticesChain(t: seq<Attempt>, v: seq<Attempt>, from: nat)
    requires Notices(t, from) && t <= v && Notices(v, |t|)
    ensures Notices(v, from)
  {
    forall i | from <= i < |v| ensures IsNotice(v[i].event) {
      assert i < |t| ==> v[i] == t[i];
    }
  }

  lemma SendsNotices(s: Hub, sent: seq<Attempt>, members: set<Cid>, event: Event, exclude: Option<Cid>)
    requires Sends(s, sent, members, event, exclude) && IsNotice(event)
    ensures Notices(sent, |s.sent|)
  {
    hide IsNotice, Lists, Targets;
    var ids :| Lists(ids, members) && Offered(sent, |s.sent|, Targets(ids, s.connections, exclude), event)
               && Notices(sent, |s.sent| + |Targets(ids, s.connections, exclude)|);
    var targets := Targets(ids, s.connections, exclude);
    forall i | |s.sent| <= i < |sent| ensures IsNotice(sent[i].event) {
      if i < |s.sent| + |targets| {
        var k := i - |s.sent|;
        assert sent[|s.sent| + k].to == targets[k] && sent[|s.sent| + k].event == event;
      }
    }
  }

  /** The excluded connection is not sent the event. */
  lemma NotToExcluded(s: Hub, sent: seq<Attempt>, members: set<Cid>, event: Event, c: Cid)
    requires Sends(s, sent, members, event, Some(c)) && !IsNotice(event)
    ensures SentToOthers(sent, |s.sent|, event, c)
  {
    hide IsNotice, Lists, Targets;
    var ids :| Lists(ids, members) && Offered(sent, |s.sent|, Targets(ids, s.connections, Some(c)), event)
               && Notices(sent, |s.sent| + |Targets(ids, s.connections, Some(c))|);
    var targets := Targets(ids, s.connections, Some(c));
    TargetsAre(ids, s.connections, Some(c), c);
    forall i | |s.sent| <= i < |sent| && sent[i].event == event ensures sent[i].to != c {
      var k := i - |s.sent|;
      assert k < |targets|;
      assert sent[|s.sent| + k].to == targets[k] && targets[k] in targets;
    }
  }

  ghost predicate SentToOthers(sent: seq<Attempt>, from: nat, event: Event, c: Cid) {
    forall i :: from <= i < |sent| && sent[i].event == event ==> sent[i].to != c
  }

  lemma SentToOthersChains(t: seq<Attempt>, v: seq<Attempt>, from: nat, event: Event, c: Cid)
    requires Notices(t, from) && !IsNotice(event) && t <= v && SentToOthers(v, |t|, event, c)
    ensures SentToOthers(v, from, event, c)
  {
    forall i | from <= i < |t| ensures v[i].event != event {
      assert v[i] == t[i];
    }
  }

  lemma OfferedOne(sent: seq<Attempt>, from: nat, targets: seq<Cid>, attempt: Attempt)
    requires Offered(sent, from, targets, attempt.event) && |sent| == from + |targets|
    ensures Offered(sent + [attempt], from, targets + [attempt.to], attempt.event)
  {
    var all, to := sent + [attempt], targets + [attempt.to];
    forall k | 0 <= k < |to| ensures all[from + k].to == to[k] && all[from + k].event == attempt.event {
      if k < |targets| {
        assert to[k] == targets[k] && all[from + k] == sent[from + k];
      }
    }
  }

  /** The members of a set, each once, in some order. */
  ghost predicate Lists(ids: seq<Cid>, members: set<Cid>) {
    && (forall c :: c in ids <==> c in members)
    && (forall i, j :: 0 <= i < j < |ids| ==> ids[i] != ids[j])
  }

  method Any<T(==)>(members: set<T>) returns (x: T)
    requires members != {}
    ensures x in members
  {
    x :| x in members;
  }

  method ListOf(members: set<Cid>) returns (ids: seq<Cid>)
    ensures Lists(ids, members)
  {
    ids := [];
    var rest := members;
    while rest != {}
      invariant rest <= members && Lists(ids, members - rest)
      decreases rest
    {
      var c := Any(rest);
      ids := ids + [c];
      rest := rest - {c};
    }
  }

  class WebSocketManager {
    var connections: Table
    var byUser: Index
    var byWorkspace: Index
    var byConversation: Index
    var presence: map<Id, map<Id, Presence>>
    ghost var emitted: seq<Event>
    ghost var sent: seq<Attempt>

    ghost function Now(): Hub
      reads this
    {
      Hub(connections, byUser, byWorkspace, byConversation, presence, emitted, sent)
    }

    constructor ()
      ensures Valid(Now()) && connections == map[] && emitted == []
    {
      connections, byUser, byWorkspace, byConversation, presence := map[], map[], map[], map[], map[];
      emitted, sent := [], [];
    }

    /** The block of `disconnect` under the lock; `last` tells whether the user's last connection in the workspace went. */
    method Pop(c: Cid) returns (workspace: Option<Id>, last: bool)
      requires Valid(Now()) && c in connections
      modifies this
      ensures Now() == Popped(old(Now()), c)
      ensures workspace == old(connections[c].workspace)
      ensures last <==> workspace.Some? && !Present(connections, workspace.value, old(connections[c].user))
    {
      hide UserIndexAgrees, WorkspaceIndexAgrees, ConversationIndexAgrees, PresenceAgrees, Present;
      ghost var s := Now();
      var connection := connections[c];
      connections := connections - {c};
      ForgetUser(c, connection.user);
      workspace, last := connection.workspace, false;
      if connection.workspace.Some? {
        var w := connection.workspace.value;
        byWorkspace := Discard(byWorkspace, w, c);
        presence := Mark(presence, w, connection.user, connection.name, Offline);
        var remaining := Lookup(byWorkspace, w);
        var stillOnline := exists d :: d in remaining && d in connections && connections[d].user == connection.user;
        last := !stillOnline;
        StillOnline(s, c, remaining, stillOnline);
      }
      ForgetConversations(c, connection.conversations);
    }

    method ForgetUser(c: Cid, user: Id)
      modifies this`byUser
      ensures byUser == DiscardAndPrune(old(byUser), user, c)
    {
      if user in byUser {
        byUser := byUser[user := byUser[user] - {c}];
        if byUser[user] == {} {
          byUser := byUser - {user};
        }
      }
    }

    method ForgetConversations(c: Cid, conversations: set<Id>)
      modifies this`byConversation
      ensures byConversation == DiscardEach(old(byConversation), conversations, c)
    {
      var pending := conversations;
      while pending != {}
        invariant pending <= conversations
        invariant byConversation == DiscardEach(old(byConversation), conversations - pending, c)
        decreases pending
      {
        var v := Any(pending);
        byConversation := Discard(byConversation, v, c);
        pending := pending - {v};
      }
      assert conversations - pending == conversations;
    }

    /** Closing a connection twice does nothing; closing one announces its user's departure if it was the last. */
    method Disconnect(c: Cid)
      requires Valid(Now())
      modifies this
      ensures Valid(Now()) && Evolves(old(Now()), Now(), {c}) && Notices(sent, |old(sent)|)
      ensures c in old(connections) && old(connections[c]).workspace.Some? ==>
                var conn := old(connections[c]);
                && AllAnnounced(Popped(old(Now()), c), Now(), conn.workspace.value)
                && |old(emitted)| <= |emitted| && |old(sent)| <= |sent|
                && exists name :: ClosedOffline(old(Now()), Now(), c, name)
      decreases |connections|, 0
    {
      hide Evolves, Valid, Popped, Emitting, Present, Sends, AllAnnounced;
      ghost var s := Now();
      if c !in connections {
        NotThere(s, c);
        return;
      }
      var connection := connections[c];
      var workspace, last := Pop(c);
      PoppedDrops(s, c);
      assert connections == Now().connections && sent == s.sent;
      if workspace.Some? {
        BroadcastPresence(workspace.value);
        ghost var announced := Now();
        Fewer(Popped(s, c), announced, {});
        if last {
          var left := MemberLeft(workspace.value, connection.user, connection.name);
          BroadcastWorkspace(workspace.value, left, None);
          Fewer(Emitting(announced, left), Now(), {});
          StillAnnounced(Popped(s, c), announced, left, Now(), workspace.value);
          EmittingSent(announced, left);
          NoticesChain(announced.sent, sent, |s.sent|);
          DepartureChains(s, c, announced, Now());
        } else {
          PoppedSilently(s, c);
          EvolvesChains(s, Popped(s, c), Now(), {c}, {});
          assert {c} + {} == {c};
        }
        Fewer(s, Now(), {c});
        ClosedIsOffline(s, c, Now());
      } else {
        PoppedSilently(s, c);
      }
    }

    /** The first pass of `_broadcast_to_connections`: one send to each live target, collecting the stale ids. */
    method TrySends(ids: seq<Cid>, event: Event, exclude: Option<Cid>) returns (stale: seq<Cid>)
      modifies this`sent
      ensures old(sent) <= sent
      ensures |sent| == |old(sent)| + |Targets(ids, connections, exclude)|
      ensures Offered(sent, |old(sent)|, Targets(ids, connections, exclude), event)
      ensures Stale(stale, connections, FailedTo(sent, |old(sent)|))
    {
      stale := [];
      for i := 0 to |ids|
        invariant old(sent) <= sent
        invariant |sent| == |old(sent)| + |Targets(ids[..i], connections, exclude)|
        invariant Offered(sent, |old(sent)|, Targets(ids[..i], connections, exclude), event)
        invariant Stale(stale, connections, FailedTo(sent, |old(sent)|))
      {
        hide FailedTo, Stale, Offered;
        assert ids[..i + 1][..i] == ids[..i];
        if exclude == Some(ids[i]) {
          continue;
        }
        if ids[i] !in connections {
          StaleGrows(stale, connections, FailedTo(sent, |old(sent)|), ids[i]);
          stale := stale + [ids[i]];
        } else {
          var ok: bool := *;
          SentOne(sent, |old(sent)|, Attempt(ids[i], event, ok));
          OfferedOne(sent, |old(sent)|, Targets(ids[..i], connections, exclude), Attempt(ids[i], event, ok));
          if !ok {
            StaleGrows(stale, connections, FailedTo(sent, |old(sent)|), ids[i]);
            stale := stale + [ids[i]];
          }
          sent := sent + [Attempt(ids[i], event, ok)];
        }
      }
      assert ids[..|ids|] == ids;
    }

    /** Every live target is offered the event once; whoever could not be reached is disconnected. */
    method BroadcastToConnections(ids: seq<Cid>, event: Event, exclude: Option<Cid>)
      requires Valid(Now())
      modifies this
      ensures Valid(Now()) && Evolves(old(Now()), Now(), {})
      ensures Offered(sent, |old(sent)|, Targets(ids, old(connections), exclude), event)
      ensures Notices(sent, |old(sent)| + |Targets(ids, old(connections), exclude)|)
      decreases |connections|, 2
    {
      hide Valid, Evolves, Offered, Stale, Targets, Notices, FailedTo;
      ghost var s := Now();
      var stale := TrySends(ids, event, exclude);
      ghost var mid := Now();
      ghost var targets := Targets(ids, s.connections, exclude);
      LogsAside(s, mid);
      DisconnectAll(stale);
      Swept(s, mid, Now(), stale);
      Fewer(mid, Now(), Elements(stale));
      OfferedGrows(mid.sent, sent, |s.sent|, targets, event);
    }

    method DisconnectAll(stale: seq<Cid>)
      requires Valid(Now())
      modifies this
      ensures Valid(Now()) && Evolves(old(Now()), Now(), Elements(stale)) && Notices(sent, |old(sent)|)
      decreases |connections|, 1
    {
      hide Valid, Evolves;
      ghost var mid := Now();
      EvolvesByStaying(mid);
      assert Elements(stale[..0]) == {};
      for i := 0 to |stale|
        invariant Valid(Now()) && Evolves(mid, Now(), Elements(stale[..i])) && Notices(sent, |mid.sent|)
      {
        ghost var before := Now();
        Fewer(mid, before, Elements(stale[..i]));
        Disconnect(stale[i]);
        Fewer(before, Now(), {stale[i]});
        NoticesChain(before.sent, sent, |mid.sent|);
        EvolvesChains(mid, before, Now(), Elements(stale[..i]), {stale[i]});
        assert Elements(stale[..i + 1]) == Elements(stale[..i]) + {stale[i]};
      }
      assert stale[..|stale|] == stale;
    }

    method BroadcastWorkspace(w: Id, event: Event, exclude: Option<Cid>)
      requires Valid(Now())
      modifies this
      ensures Valid(Now()) && Evolves(Emitting(old(Now()), event), Now(), {})
      ensures Sends(old(Now()), sent, Lookup(old(byWorkspace), w), event, exclude)
      ensures IsNotice(event) ==> Notices(sent, |old(sent)|)
      decreases |connections|, 3
    {
      hide Evolves, Offered, Lists, Valid;
      var ids := ListOf(Lookup(byWorkspace, w));
      ghost var s := Now();
      emitted := emitted + [event];
      LogsAside(s, Now());
      BroadcastToConnections(ids, event, exclude);
      assert Sends(s, sent, Lookup(s.byWorkspace, w), event, exclude);
      if IsNotice(event) {
        SendsNotices(s, sent, Lookup(s.byWorkspace, w), event, exclude);
      }
    }

    method BroadcastConversation(w: Id, v: Id, text: string, exclude: Option<Cid>)
      requires Valid(Now())
      modifies this
      ensures var event := Other(w, Some(v), text);
              && Valid(Now()) && Evolves(Emitting(old(Now()), event), Now(), {})
              && Sends(old(Now()), sent, Lookup(old(byConversation), v), event, exclude)
    {
      hide Evolves, Offered, Lists, Valid;
      var ids := ListOf(Lookup(byConversation, v));
      ghost var s := Now();
      var event := Other(w, Some(v), text);
      emitted := emitted + [event];
      LogsAside(s, Now());
      BroadcastToConnections(ids, event, exclude);
    }

    method BroadcastUser(u: Id, event: Event)
      requires Valid(Now())
      modifies this
      ensures Valid(Now()) && Evolves(Emitting(old(Now()), event), Now(), {})
      ensures Sends(old(Now()), sent, Lookup(old(byUser), u), event, None)
    {
      hide Evolves, Offered, Lists, Valid;
      var ids := ListOf(Lookup(byUser, u));
      ghost var s := Now();
      emitted := emitted + [event];
      LogsAside(s, Now());
      BroadcastToConnections(ids, event, None);
    }

    method SendToConnection(c: Cid, event: Event)
      requires Valid(Now())
      modifies this
      ensures Valid(Now()) && Evolves(old(Now()), Now(), {})
      ensures c in old(connections) ==> Offered(sent, |old(sent)|, [c], event)
    {
      hide Evolves, Offered, Stale, Valid;
      ghost var s := Now();
      if c !in connections {
        EvolvesByStaying(s);
        return;
      }
      var ok: bool := *;
      sent := sent + [Attempt(c, event, ok)];
      ghost var mid := Now();
      LogsAside(s, mid);
      SentFirst(s.sent, Attempt(c, event, ok), s.connections);
      if !ok {
        Disconnect(c);
        Swept(s, mid, Now(), [c]);
      } else {
        EvolvesByStaying(mid);
        Swept(s, mid, mid, []);
      }
      Fewer(mid, Now(), Elements(if ok then [] else [c]));
      OfferedGrows(mid.sent, sent, |s.sent|, [c], event);
    }

    /** The caller passes a connection id drawn at random, which no live connection has. */
    method Connect(c: Cid, user: Id, name: string)
      requires Valid(Now()) && c !in connections
      modifies this
      ensures Valid(Now()) && Now() == Connected(old(Now()), c, user, name)
    {
      ConnectedIsValid(Now(), c, user, name);
      hide Valid;
      connections := connections[c := Connection(user, name, None, {})];
      byUser := Add(byUser, user, c);
    }

    /** The block of `subscribe_workspace` under the lock. */
    method MoveTo(c: Cid, w: Id)
      requires c in connections
      modifies this
      ensures Now() == Subscribed(old(Now()), c, w)
    {
      var connection := connections[c];
      if connection.workspace.Some? && connection.workspace.value != w {
        byWorkspace := Discard(byWorkspace, connection.workspace.value, c);
        presence := Mark(presence, connection.workspace.value, connection.user, connection.name, Offline);
      }
      connections := connections[c := connection.(workspace := Some(w))];
      byWorkspace := Add(byWorkspace, w, c);
      presence := Mark(presence, w, connection.user, connection.name, Online);
    }

    /** A subscription moves the connection, then shows everyone's presence and announces the newcomer to the others. */
    method SubscribeWorkspace(c: Cid, w: Id)
      requires Valid(Now())
      modifies this
      ensures Valid(Now())
      ensures c !in old(connections) ==> Now() == old(Now())
      ensures c in old(connections) ==> Evolves(Subscribed(old(Now()), c, w), Now(), {})
      ensures c in old(connections) ==>
                && MemberJoined(w, old(connections[c].user), old(connections[c].name)) in emitted[|old(emitted)|..]
                && AllAnnounced(Subscribed(old(Now()), c, w), Now(), w)
                && NewcomerShown(Subscribed(old(Now()), c, w), Now(), c, w)
                && SentToOthers(sent, |old(sent)|, MemberJoined(w, old(connections[c].user), old(connections[c].name)), c)
    {
      hide Valid, Evolves;
      if c !in connections {
        return;
      }
      ghost var s := Now();
      var connection := connections[c];
      SubscribedIsValid(s, c, w);
      MoveTo(c, w);
      assert emitted == s.emitted && sent == s.sent;
      NewcomerEntry(s, c, w);
      hide Subscribed;
      Welcome(c, MemberJoined(w, connection.user, connection.name));
      NewcomerIsShown(Subscribed(s, c, w), Now(), c, w);
    }

    /** What `subscribe_workspace` sends: everyone's presence, then the newcomer to the others. */
    method Welcome(c: Cid, joined: Event)
      requires Valid(Now()) && joined.MemberJoined?
      modifies this
      ensures Valid(Now()) && Evolves(old(Now()), Now(), {})
      ensures joined in emitted[|old(emitted)|..] && AllAnnounced(old(Now()), Now(), joined.workspace)
      ensures SentToOthers(sent, |old(sent)|, joined, c)
    {
      hide Valid, Evolves, Emitting, Sends, AllAnnounced, SentToOthers;
      ghost var moved := Now();
      BroadcastPresence(joined.workspace);
      ghost var shown := Now();
      BroadcastWorkspace(joined.workspace, joined, Some(c));
      OtherEvent(shown, joined);
      EvolvesOn(shown, Emitting(shown, joined), Now());
      EvolvesOn(moved, shown, Now());
      Fewer(moved, shown, {});
      EmittedStays(shown, joined, Now());
      Fewer(Emitting(shown, joined), Now(), {});
      StillAnnounced(moved, shown, joined, Now(), joined.workspace);
      NotToExcluded(shown, sent, Lookup(shown.byWorkspace, joined.workspace), joined, c);
      EmittingSent(shown, joined);
      SentToOthersChains(shown.sent, sent, |moved.sent|, joined, c);
      assert emitted[|moved.emitted|..][|shown.emitted| - |moved.emitted|] == joined;
    }

    method SubscribeConversations(c: Cid, conversations: seq<Id>)
      requires Valid(Now())
      modifies this
      ensures Valid(Now())
      ensures Now() == if c in old(connections) then Following(old(Now()), c, conversations) else old(Now())
    {
      hide Valid;
      if c !in connections {
        return;
      }
      ghost var s := Now();
      for i := 0 to |conversations|
        invariant Valid(Now()) && Now() == Following(s, c, conversations[..i]) && c in connections
      {
        assert conversations[..i + 1][..i] == conversations[..i];
        FollowedIsValid(Now(), c, conversations[i]);
        var connection := connections[c];
        connections := connections[c := connection.(conversations := connection.conversations + {conversations[i]})];
        byConversation := Add(byConversation, conversations[i], c);
      }
      assert conversations[..|conversations|] == conversations;
    }

    /** One turn of the loop over a workspace's members: the entry as it is now goes to everyone there. */
    method AnnounceEntry(w: Id, u: Id)
      requires Valid(Now()) && u in Members(presence, w)
      modifies this
      ensures Valid(Now()) && Evolves(old(Now()), Now(), {}) && Notices(sent, |old(sent)|)
      ensures Announced(old(Now()), Now(), w, u)
      decreases |connections|, 4
    {
      hide Evolves, Valid, Emitting, Members, Announced, Sends, Shows;
      ghost var before := Now();
      var state := Members(presence, w)[u];
      var event := PresenceUpdated(w, u, state.name, state.status);
      BroadcastWorkspace(w, event, None);
      EntryShows(before, w, u);
      OtherEvent(before, event);
      EvolvesOn(before, Emitting(before, event), Now());
      EntryAnnounced(before, Now(), w, u);
    }

    /** Everyone's entry in the workspace is announced as it is at that moment, and the members stay the same meanwhile. */
    method BroadcastPresence(w: Id)
      requires Valid(Now())
      modifies this
      ensures Valid(Now()) && Evolves(old(Now()), Now(), {})
      ensures AllAnnounced(old(Now()), Now(), w) && Notices(sent, |old(sent)|)
      decreases |connections|, 5
    {
      hide Evolves, Valid, Members, Announced, Lists;
      ghost var s := Now();
      var users := ListOf(Members(presence, w).Keys);
      assert forall u :: u in Members(presence, w) ==> u in users by { ListsAll(users, Members(presence, w).Keys); }
      assert forall u :: u in users ==> u in Members(presence, w) by { ListsAll(users, Members(presence, w).Keys); }
      EvolvesByStaying(s);
      for i := 0 to |users|
        invariant Valid(Now()) && Evolves(s, Now(), {}) && Notices(sent, |s.sent|)
        invariant forall u :: u in users[..i] ==> Announced(s, Now(), w, u)
      {
        ghost var before := Now();
        Fewer(s, before, {});
        assert users[i] in users;
        SameMembers(s, before, {}, w, users[i]);
        AnnounceEntry(w, users[i]);
        Fewer(before, Now(), {});
        EvolvesOn(s, before, Now());
        NoticesChain(before.sent, sent, |s.sent|);
        AnnouncedFrom(s, before, Now(), w, users[i]);
        assert users[..i + 1] == users[..i] + [users[i]];
        forall u | u in users[..i] ensures Announced(s, Now(), w, u) {
          AnnouncedOn(s, before, Now(), w, u);
        }
      }
    }
  }

  lemma AnnouncedFrom(s: Hub, t: Hub, v: Hub, w: Id, u: Id)
    requires Evolves(s, t, {}) && Announced(t, v, w, u)
    ensures Announced(s, v, w, u)
  {
    hide Drops, Emitting, PresenceEvent, Members, BalanceKept;
    var m :| AnnouncedAt(t, m, v, w, u);
    var nobody: set<Cid> := {};
    DropsChain(s, t, m, nobody, nobody);
    assert nobody + nobody == nobody;
    assert AnnouncedAt(s, m, v, w, u);
  }

  lemma AnnouncedOn(s: Hub, t: Hub, v: Hub, w: Id, u: Id)
    requires Announced(s, t, w, u) && Evolves(t, v, {})
    ensures Announced(s, v, w, u)
  {
    hide Drops, Announced, BalanceKept;
    AnnouncedStill(s, t, v, w, u);
  }

  lemma ListsAll(ids: seq<Cid>, members: set<Cid>)
    requires Lists(ids, members)
    ensures forall c :: c in ids <==> c in members
  {
  }

  /** What was sent and broadcast is no part of the manager's own state. */
  lemma LogsAside(s: Hub, t: Hub)
    requires Valid(s) && t == s.(sent := t.sent, emitted := t.emitted)
    ensures Valid(t)
  {
    hide Lookup, Members, Present;
  }

  lemma StaleGrows(stale: seq<Cid>, table: Table, failed: set<Cid>, c: Cid)
    requires Stale(stale, table, failed)
    ensures Stale(stale + [c], table, if c in table then failed + {c} else failed)
  {
  }

  ghost predicate Stale(stale: seq<Cid>, table: Table, failed: set<Cid>) {
    && failed <= table.Keys
    && (forall c :: c in failed ==> c in stale)
    && (forall c :: c in stale ==> c in failed || c !in table)
  }

  function Elements(ids: seq<Cid>): set<Cid> {
    set c | c in ids
  }

  /** What the member's entry says now, as an event. */
  function PresenceEvent(h: Hub, w: Id, u: Id): Event
    requires u in Members(h.presence, w)
  {
    PresenceUpdated(w, u, Members(h.presence, w)[u].name, Members(h.presence, w)[u].status)
  }

  /** At a moment between the two the member's entry was broadcast as it was then. */
  ghost predicate Announced(s: Hub, t: Hub, w: Id, u: Id) {
    exists m: Hub :: AnnouncedAt(s, m, t, w, u)
  }

  ghost predicate AnnouncedAt(s: Hub, m: Hub, t: Hub, w: Id, u: Id) {
    Drops(s, m, {}) && u in Members(m.presence, w) && Drops(Emitting(m, PresenceEvent(m, w, u)), t, {})
  }

  lemma SentOne(sent: seq<Attempt>, from: nat, attempt: Attempt)
    requires from <= |sent|
    ensures FailedTo(sent + [attempt], from) == if attempt.ok then FailedTo(sent, from) else FailedTo(sent, from) + {attempt.to}
  {
    var t := sent + [attempt];
    FailedSplits(sent, t, from);
    assert t[|sent|] == attempt;
  }

  lemma NotThere(h: Hub, c: Cid)
    requires c !in h.connections
    ensures Evolves(h, h, {c})
  {
    assert FailedTo(h.sent, |h.sent|) == {};
    assert forall w, u :: !Left(h.connections, {c}, w, u);
    assert h.connections - {c} == h.connections;
  }

  /** Popping a connection drops exactly it; when it was nobody's last, no departure is due. */
  lemma PoppedDrops(s: Hub, c: Cid)
    requires Valid(s) && c in s.connections
    ensures Valid(Popped(s, c)) && Drops(s, Popped(s, c), {c})
    ensures Popped(s, c).connections == s.connections - {c} && |Popped(s, c).connections| < |s.connections|
    ensures Popped(s, c).sent == s.sent
  {
    hide UserIndexAgrees, WorkspaceIndexAgrees, ConversationIndexAgrees, PresenceAgrees, PresenceFollows,
         DiscardAndPrune, Discard, DiscardEach, Mark;
    PoppedUserIndex(s, c);
    PoppedWorkspaceIndex(s, c);
    PoppedConversationIndex(s, c);
    PoppedPresence(s, c);
    assert FailedTo(s.sent, |s.sent|) == {};
    assert {c} + {} == {c};
    OneFewer(s.connections, c);
  }

  lemma OneFewer(table: Table, c: Cid)
    requires c in table
    ensures |table - {c}| < |table|
  {
    assert (table - {c}).Keys == table.Keys - {c};
    assert |table| == |table.Keys| && |table - {c}| == |(table - {c}).Keys|;
  }

  lemma PoppedBalance(s: Hub, c: Cid, w: Id, u: Id)
    requires c in s.connections
    ensures Balance(s, w, u) == Balance(Popped(s, c), w, u)
                                + (if At(s.connections, c, w, u) && !Present(s.connections - {c}, w, u) then 1 else 0)
  {
    hide LeaveCount;
    assert Present(s.connections, w, u) <==> At(s.connections, c, w, u) || Present(s.connections - {c}, w, u) by {
      if Present(s.connections, w, u) {
        var d :| At(s.connections, d, w, u);
        assert d != c ==> At(s.connections - {c}, d, w, u);
      }
      if Present(s.connections - {c}, w, u) {
        var d :| At(s.connections - {c}, d, w, u);
        assert At(s.connections, d, w, u);
      }
    }
  }

  lemma PoppedSilently(s: Hub, c: Cid)
    requires Valid(s) && c in s.connections
    requires s.connections[c].workspace.Some? ==>
               Present(s.connections - {c}, s.connections[c].workspace.value, s.connections[c].user)
    ensures Evolves(s, Popped(s, c), {c})
  {
    PoppedDrops(s, c);
    hide Valid, Drops, Popped, Balance, Present;
    forall w, u ensures Balance(Popped(s, c), w, u) == Balance(s, w, u) {
      PoppedBalance(s, c, w, u);
    }
  }

  /** The departure that popping a last connection leaves due is paid by the MEMBER_LEFT sent after the presence round. */
  lemma DepartureChains(s: Hub, c: Cid, t: Hub, v: Hub)
    requires Valid(s) && c in s.connections && s.connections[c].workspace.Some?
    requires !Present(s.connections - {c}, s.connections[c].workspace.value, s.connections[c].user)
    requires Evolves(Popped(s, c), t, {})
    requires var conn := s.connections[c];
             Evolves(Emitting(t, MemberLeft(conn.workspace.value, conn.user, conn.name)), v, {})
    ensures Evolves(s, v, {c})
  {
    var conn := s.connections[c];
    var left := MemberLeft(conn.workspace.value, conn.user, conn.name);
    hide Valid, Drops, Popped, Balance, Present, Emitting;
    DepartureDrops(s, c, t, left, v);
    forall w, u ensures Balance(v, w, u) == Balance(s, w, u) {
      PoppedBalance(s, c, w, u);
      EmittingBalance(t, left, w, u);
    }
  }

  lemma DepartureDrops(s: Hub, c: Cid, t: Hub, left: Event, v: Hub)
    requires Valid(s) && c in s.connections
    requires Drops(Popped(s, c), t, {}) && Drops(Emitting(t, left), v, {}) && left.MemberLeft?
    ensures Drops(s, v, {c})
  {
    hide Valid, Drops, Popped, Emitting;
    PoppedDrops(s, c);
    EmittingBalance(t, left, 0, 0);
    assert {c} + {} == {c};
    DropsChain(s, Popped(s, c), t, {c}, {});
    DropsChain(s, t, Emitting(t, left), {c}, {});
    DropsChain(s, Emitting(t, left), v, {c}, {});
  }

  lemma Fewer(s: Hub, t: Hub, dropped: set<Cid>)
    requires Evolves(s, t, dropped)
    ensures |t.connections| <= |s.connections|
    ensures s.emitted <= t.emitted && s.sent <= t.sent
  {
    hide FailedTo, PresenceFollows, BalanceKept;
    assert t.connections.Keys == s.connections.Keys - (dropped + FailedTo(t.sent, |s.sent|));
    assert |s.connections| == |s.connections.Keys| && |t.connections| == |t.connections.Keys|;
    SubsetSize(t.connections.Keys, s.connections.Keys);
  }

  lemma SubsetSize(a: set<Cid>, b: set<Cid>)
    requires a <= b
    ensures |a| <= |b|
  {
    assert b == a + (b - a);
  }

  lemma SameMembers(s: Hub, t: Hub, dropped: set<Cid>, w: Id, u: Id)
    requires Evolves(s, t, dropped)
    ensures u in Members(t.presence, w) <==> u in Members(s.presence, w)
  {
    hide FailedTo, BalanceKept, Members;
    assert PresenceEntryFollows(s, t, dropped + FailedTo(t.sent, |s.sent|), w, u);
  }

  /** Disconnecting the stale ids leaves out exactly those whose send failed: the others had gone before. */
  lemma Swept(s: Hub, mid: Hub, t: Hub, stale: seq<Cid>)
    requires mid == s.(sent := mid.sent) && s.sent <= mid.sent
    requires Stale(stale, s.connections, FailedTo(mid.sent, |s.sent|))
    requires Evolves(mid, t, Elements(stale))
    ensures Evolves(s, t, {})
  {
    hide FailedTo, PresenceFollows, Truthful;
    var f, g, e := FailedTo(mid.sent, |s.sent|), FailedTo(t.sent, |mid.sent|), Elements(stale);
    FailedSplits(mid.sent, t.sent, |s.sent|);
    assert {} + FailedTo(t.sent, |s.sent|) == f + g;
    assert forall c :: c in s.connections ==> (c in e + g <==> c in f + g);
    MinusSame(s.connections, e + g, f + g);
    SameLeavers(mid, t, e + g, f + g);
    assert PresenceFollows(s, t, f + g) && Truthful(s, t, f + g) by { SentAside(s, mid, t, f + g); }
    assert BalanceKept(s, t) by { BalanceAside(s, mid, t); }
  }

  lemma MinusSame(table: Table, a: set<Cid>, b: set<Cid>)
    requires forall c :: c in table ==> (c in a <==> c in b)
    ensures table - a == table - b
  {
    assert forall c :: c in table - a <==> c in table - b;
  }

  lemma SameLeavers(s: Hub, t: Hub, a: set<Cid>, b: set<Cid>)
    requires PresenceFollows(s, t, a) && forall c :: c in s.connections ==> (c in a <==> c in b)
    ensures PresenceFollows(s, t, b)
    ensures Truthful(s, t, a) ==> Truthful(s, t, b)
  {
    hide Members;
    assert forall w, u, name :: LeftUnder(s.connections, a, w, u, name) <==> LeftUnder(s.connections, b, w, u, name);
    hide LeftUnder;
    forall w, u ensures PresenceEntryFollows(s, t, b, w, u) {
      assert PresenceEntryFollows(s, t, a, w, u);
      assert Left(s.connections, a, w, u) <==> Left(s.connections, b, w, u);
    }
  }

  lemma SentAside(s: Hub, mid: Hub, t: Hub, leavers: set<Cid>)
    requires mid == s.(sent := mid.sent) && PresenceFollows(mid, t, leavers) && Truthful(mid, t, leavers)
    ensures PresenceFollows(s, t, leavers) && Truthful(s, t, leavers)
  {
    hide Members, Left, LeftUnder;
    forall w, u ensures PresenceEntryFollows(s, t, leavers, w, u) {
      assert PresenceEntryFollows(mid, t, leavers, w, u);
    }
  }

  lemma BalanceAside(s: Hub, mid: Hub, t: Hub)
    requires mid == s.(sent := mid.sent) && BalanceKept(mid, t)
    ensures BalanceKept(s, t)
  {
    forall w, u ensures Balance(t, w, u) == Balance(s, w, u) {
      assert Balance(t, w, u) == Balance(mid, w, u);
    }
  }

  /** Between the two moments the presence of every member of the workspace was broadcast. */
  ghost predicate AllAnnounced(s: Hub, t: Hub, w: Id) {
    forall u :: u in Members(s.presence, w) ==> Announced(s, t, w, u)
  }

  lemma StillAnnounced(s: Hub, t: Hub, event: Event, v: Hub, w: Id)
    requires AllAnnounced(s, t, w) && !event.PresenceUpdated? && Evolves(Emitting(t, event), v, {})
    ensures AllAnnounced(s, v, w)
  {
    hide Announced, Members, Drops, Emitting, BalanceKept;
    EmittingBalance(t, event, 0, 0);
    var nobody: set<Cid> := {};
    DropsChain(t, Emitting(t, event), v, nobody, nobody);
    assert nobody + nobody == nobody;
    forall u | u in Members(s.presence, w) ensures Announced(s, v, w, u) {
      AnnouncedStill(s, t, v, w, u);
    }
  }

  lemma EmittedStays(h: Hub, event: Event, t: Hub)
    requires Evolves(Emitting(h, event), t, {})
    ensures |h.emitted| < |t.emitted| && t.emitted[|h.emitted|] == event
  {
    assert Drops(Emitting(h, event), t, {});
    assert t.emitted[|h.emitted|] == Emitting(h, event).emitted[|h.emitted|];
  }

  lemma SentFirst(sent: seq<Attempt>, attempt: Attempt, table: Table)
    requires attempt.to in table
    ensures Offered(sent + [attempt], |sent|, [attempt.to], attempt.event)
    ensures var stale := if attempt.ok then [] else [attempt.to];
            Stale(stale, table, FailedTo(sent + [attempt], |sent|))
            && Elements(stale) == if attempt.ok then {} else {attempt.to}
  {
    SentOne(sent, |sent|, attempt);
    assert FailedTo(sent, |sent|) == {};
  }

  lemma EmittingSent(h: Hub, event: Event)
    ensures Emitting(h, event).sent == h.sent
  {
  }

  lemma EntryShows(h: Hub, w: Id, u: Id)
    requires u in Members(h.presence, w)
    ensures Shows(h, {}, PresenceEvent(h, w, u))
  {
  }

  lemma EntryAnnounced(s: Hub, t: Hub, w: Id, u: Id)
    requires u in Members(s.presence, w) && Evolves(Emitting(s, PresenceEvent(s, w, u)), t, {})
    ensures Announced(s, t, w, u)
  {
    EvolvesByStaying(s);
    hide Drops, PresenceEvent, Emitting, BalanceKept;
    assert AnnouncedAt(s, s, t, w, u);
  }

  lemma AnnouncedStill(s: Hub, t: Hub, v: Hub, w: Id, u: Id)
    requires Announced(s, t, w, u) && Drops(t, v, {})
    ensures Announced(s, v, w, u)
  {
    hide Drops, Emitting, PresenceEvent, Members;
    var m :| AnnouncedAt(s, m, t, w, u);
    var nobody: set<Cid> := {};
    DropsChain(Emitting(m, PresenceEvent(m, w, u)), t, v, nobody, nobody);
    assert nobody + nobody == nobody;
    assert AnnouncedAt(s, m, v, w, u);
  }

  /** A member none of whose connections left meanwhile was announced as its entry is. */
  lemma AnnouncedAsIs(s: Hub, t: Hub, w: Id, u: Id)
    requires Announced(s, t, w, u) && u in Members(s.presence, w)
    requires |s.sent| <= |t.sent| && !Left(s.connections, FailedTo(t.sent, |s.sent|), w, u)
    ensures |s.emitted| <= |t.emitted| && PresenceEvent(s, w, u) in t.emitted[|s.emitted|..]
  {
    hide Members, PresenceFollows, Truthful, FailedTo;
    var m :| AnnouncedAt(s, m, t, w, u);
    FailedSplits(m.sent, t.sent, |s.sent|);
    assert !Left(s.connections, {} + FailedTo(m.sent, |s.sent|), w, u);
    EntryUnchanged(s, m, {} + FailedTo(m.sent, |s.sent|), w, u);
    EmittedAt(s, m, t, PresenceEvent(m, w, u));
  }

  /** The user of the connection was announced online under its name, unless a connection of its in the workspace failed. */
  ghost predicate NewcomerShown(moved: Hub, t: Hub, c: Cid, w: Id) {
    && c in moved.connections && |moved.emitted| <= |t.emitted| && |moved.sent| <= |t.sent|
    && var conn := moved.connections[c];
    (!Left(moved.connections, FailedTo(t.sent, |moved.sent|), w, conn.user) ==>
       PresenceUpdated(w, conn.user, conn.name, Online) in t.emitted[|moved.emitted|..])
  }

  ghost predicate EntryIsOnline(moved: Hub, c: Cid, w: Id) {
    && c in moved.connections && moved.connections[c].user in Members(moved.presence, w)
    && Members(moved.presence, w)[moved.connections[c].user] == Presence(moved.connections[c].name, Online)
  }

  lemma NewcomerEntry(s: Hub, c: Cid, w: Id)
    requires c in s.connections
    ensures EntryIsOnline(Subscribed(s, c, w), c, w)
  {
    hide LeftBehind, Add;
  }

  lemma NewcomerIsShown(moved: Hub, t: Hub, c: Cid, w: Id)
    requires EntryIsOnline(moved, c, w) && Evolves(moved, t, {}) && AllAnnounced(moved, t, w)
    ensures NewcomerShown(moved, t, c, w)
  {
    hide Announced, FailedTo, Left, Members, BalanceKept, PresenceFollows, Truthful;
    var u := moved.connections[c].user;
    assert Announced(moved, t, w, u);
    if !Left(moved.connections, FailedTo(t.sent, |moved.sent|), w, u) {
      AnnouncedAsIs(moved, t, w, u);
    }
  }

  lemma EntryUnchanged(s: Hub, m: Hub, leavers: set<Cid>, w: Id, u: Id)
    requires PresenceFollows(s, m, leavers) && u in Members(s.presence, w) && !Left(s.connections, leavers, w, u)
    ensures u in Members(m.presence, w) && Members(m.presence, w)[u] == Members(s.presence, w)[u]
  {
    assert PresenceEntryFollows(s, m, leavers, w, u);
  }

  lemma EmittedAt(s: Hub, m: Hub, t: Hub, event: Event)
    requires s.emitted <= m.emitted && Emitting(m, event).emitted <= t.emitted
    ensures event in t.emitted[|s.emitted|..]
  {
    assert t.emitted[|s.emitted|..][|m.emitted| - |s.emitted|] == Emitting(m, event).emitted[|m.emitted|];
  }

  /** A member already shown offline was announced offline. */
  lemma AnnouncedOffline(s: Hub, t: Hub, w: Id, u: Id)
    requires Announced(s, t, w, u) && u in Members(s.presence, w) && Members(s.presence, w)[u].status.Offline?
    ensures |s.emitted| <= |t.emitted| && |s.sent| <= |t.sent|
    ensures exists name :: SaidOffline(s, t, w, u, name)
  {
    hide Members, Truthful, FailedTo, PresenceFollows;
    var m :| AnnouncedAt(s, m, t, w, u);
    var gone := {} + FailedTo(m.sent, |s.sent|);
    FailedSplits(m.sent, t.sent, |s.sent|);
    EntryOffline(s, m, gone, FailedTo(t.sent, |s.sent|), w, u);
    EmittedAt(s, m, t, PresenceEvent(m, w, u));
    assert SaidOffline(s, t, w, u, Members(m.presence, w)[u].name);
  }

  /** The user was announced offline, under the name it was shown with or that of a connection of its that failed. */
  ghost predicate SaidOffline(s: Hub, t: Hub, w: Id, u: Id, name: string)
    requires |s.emitted| <= |t.emitted| && |s.sent| <= |t.sent|
  {
    && PresenceUpdated(w, u, name, Offline) in t.emitted[|s.emitted|..]
    && u in Members(s.presence, w)
    && (name == Members(s.presence, w)[u].name || LeftUnder(s.connections, FailedTo(t.sent, |s.sent|), w, u, name))
  }

  /** The closed connection's user was announced offline, under its name or that of a connection of its that failed. */
  ghost predicate ClosedOffline(s: Hub, t: Hub, c: Cid, name: string)
    requires |s.emitted| <= |t.emitted| && |s.sent| <= |t.sent|
    requires c in s.connections && s.connections[c].workspace.Some?
  {
    var conn := s.connections[c];
    && PresenceUpdated(conn.workspace.value, conn.user, name, Offline) in t.emitted[|s.emitted|..]
    && (name == conn.name || LeftUnder(s.connections, FailedTo(t.sent, |s.sent|), conn.workspace.value, conn.user, name))
  }

  lemma ClosedIsOffline(s: Hub, c: Cid, t: Hub)
    requires c in s.connections && s.connections[c].workspace.Some?
    requires AllAnnounced(Popped(s, c), t, s.connections[c].workspace.value)
    ensures |s.emitted| <= |t.emitted| && |s.sent| <= |t.sent|
    ensures exists name :: ClosedOffline(s, t, c, name)
  {
    hide Announced, FailedTo, DiscardAndPrune, Discard, DiscardEach;
    var conn := s.connections[c];
    AnnouncedOffline(Popped(s, c), t, conn.workspace.value, conn.user);
    var name :| SaidOffline(Popped(s, c), t, conn.workspace.value, conn.user, name);
    assert ClosedOffline(s, t, c, name);
  }

  lemma EntryOffline(s: Hub, m: Hub, gone: set<Cid>, more: set<Cid>, w: Id, u: Id)
    requires PresenceFollows(s, m, gone) && gone <= more
    requires u in Members(s.presence, w) && Members(s.presence, w)[u].status.Offline?
    ensures u in Members(m.presence, w) && Members(m.presence, w)[u].status.Offline?
    ensures Members(m.presence, w)[u].name == Members(s.presence, w)[u].name
            || LeftUnder(s.connections, more, w, u, Members(m.presence, w)[u].name)
  {
    hide Members;
    assert PresenceEntryFollows(s, m, gone, w, u);
  }

  /** Nobody is announced online who was not shown online, under that name, when it began. */
  lemma OnlineIsTrue(s: Hub, t: Hub, dropped: set<Cid>, i: nat)
    requires Evolves(s, t, dropped) && |s.emitted| <= i < |t.emitted|
    requires t.emitted[i].PresenceUpdated? && t.emitted[i].status.Online?
    ensures var e := t.emitted[i];
            e.user in Members(s.presence, e.workspace) && Members(s.presence, e.workspace)[e.user] == Presence(e.name, Online)
  {
    hide FailedTo, PresenceFollows, BalanceKept, Members, LeftUnder;
    assert Shows(s, dropped + FailedTo(t.sent, |s.sent|), t.emitted[i]);
  }

  lemma StillOnline(s: Hub, c: Cid, remaining: set<Cid>, stillOnline: bool)
    requires Valid(s) && c in s.connections && s.connections[c].workspace.Some?
    requires remaining == Lookup(Discard(s.byWorkspace, s.connections[c].workspace.value, c), s.connections[c].workspace.value)
    requires stillOnline <==> exists d :: d in remaining && d in s.connections - {c}
                                          && (s.connections - {c})[d].user == s.connections[c].user
    ensures stillOnline <==> Present(s.connections - {c}, s.connections[c].workspace.value, s.connections[c].user)
  {
    hide UserIndexAgrees, ConversationIndexAgrees, PresenceAgrees;
    var conn, table := s.connections[c], s.connections - {c};
    var w := conn.workspace.value;
    assert forall d :: d in remaining <==> d in Lookup(s.byWorkspace, w) && d != c;
    if Present(table, w, conn.user) {
      var d :| At(table, d, w, conn.user);
      assert d in Lookup(s.byWorkspace, w);
      assert d in remaining && table[d].user == conn.user;
    }
    if stillOnline {
      var d :| d in remaining && d in table && table[d].user == conn.user;
      assert At(table, d, w, conn.user);
    }
  }

  // ---------------------------------------------------------------- whole runs

  datatype Action =
    | Connects(c: Cid, user: Id, name: string)
    | Subscribes(c: Cid, workspace: Id)
    | Follows(c: Cid, conversations: seq<Id>)
    | Closes(dropped: set<Cid>)

  /** One operation of the manager, as its method states it; a broadcast closes nobody of its own accord. */
  ghost predicate Takes(s: Hub, action: Action, t: Hub) {
    match action
    case Connects(c, user, name) => c !in s.connections && t == Connected(s, c, user, name)
    case Subscribes(c, w) => if c in s.connections then Evolves(Subscribed(s, c, w), t, {}) else t == s
    case Follows(c, conversations) => t == if c in s.connections then Following(s, c, conversations) else s
    case Closes(dropped) => Evolves(s, t, dropped)
  }

  ghost predicate Run(states: seq<Hub>, actions: seq<Action>) {
    && |states| == |actions| + 1
    && forall i :: 0 <= i < |actions| ==> Takes(states[i], actions[i], states[i + 1])
  }

  ghost function Here(table: Table, w: Id, u: Id): nat {
    if Present(table, w, u) then 1 else 0
  }

  /** How a subscription changes whether the user is there: 1 for a first arrival, -1 for leaving by switching. */
  ghost function Arrival(s: Hub, action: Action, w: Id, u: Id): int {
    if action.Subscribes? && action.c in s.connections
    then Here(Subscribed(s, action.c, action.workspace).connections, w, u) - Here(s.connections, w, u)
    else 0
  }

  ghost function Arrivals(states: seq<Hub>, actions: seq<Action>, w: Id, u: Id): int
    requires |actions| <= |states|
    decreases |actions|
  {
    if actions == [] then 0
    else
      var n := |actions| - 1;
      Arrivals(states, actions[..n], w, u) + Arrival(states[n], actions[n], w, u)
  }

  lemma {:induction false} FollowingKeepsPlaces(s: Hub, c: Cid, conversations: seq<Id>)
    requires c in s.connections
    ensures forall d, w, u :: At(Following(s, c, conversations).connections, d, w, u) <==> At(s.connections, d, w, u)
    ensures Following(s, c, conversations).presence == s.presence && Following(s, c, conversations).emitted == s.emitted
    decreases |conversations|
  {
    if conversations != [] {
      FollowingKeepsPlaces(s, c, conversations[..|conversations| - 1]);
    }
  }

  /** Following adds exactly the named conversations to that connection's record, and to nothing else of the manager but the index. */
  lemma {:induction false} FollowingAdds(s: Hub, c: Cid, conversations: seq<Id>)
    requires c in s.connections
    ensures var t := Following(s, c, conversations);
            && t.connections.Keys == s.connections.Keys
            && t.connections[c] == s.connections[c].(conversations := t.connections[c].conversations)
            && (forall v :: v in t.connections[c].conversations <==> v in s.connections[c].conversations || v in conversations)
            && (forall d :: d in s.connections && d != c ==> t.connections[d] == s.connections[d])
            && t == s.(connections := t.connections, byConversation := t.byConversation)
    decreases |conversations|
  {
    hide Add;
    if conversations != [] {
      var n := |conversations| - 1;
      FollowingAdds(s, c, conversations[..n]);
      assert conversations == conversations[..n] + [conversations[n]];
    }
  }

  lemma TakesBalances(s: Hub, action: Action, t: Hub, w: Id, u: Id)
    requires Takes(s, action, t)
    ensures Balance(t, w, u) == Balance(s, w, u) + Arrival(s, action, w, u)
  {
    hide LeaveCount, Drops, Present, Following, Add, Discard, Mark;
    match action
    case Connects(c, user, name) =>
      SamePlaces(s, t);
    case Subscribes(c, v) =>
      if c in s.connections {
        assert Balance(t, w, u) == Balance(Subscribed(s, c, v), w, u);
      }
    case Follows(c, conversations) =>
      if c in s.connections {
        FollowingKeepsPlaces(s, c, conversations);
        SamePlaces(s, t);
      }
    case Closes(dropped) =>
  }

  /** Over every run, a user's departures from a workspace are the arrivals, less the one still to come and the switches away. */
  lemma {:induction false} DeparturesMatchArrivals(states: seq<Hub>, actions: seq<Action>, w: Id, u: Id)
    requires Run(states, actions) && states[0].connections == map[] && states[0].emitted == []
    ensures LeaveCount(states[|actions|].emitted, w, u)
            == Arrivals(states, actions, w, u) - Here(states[|actions|].connections, w, u)
    decreases |actions|
  {
    hide Takes, Present, Arrival;
    if actions == [] {
      assert !Present(map[], w, u) by { NobodyHere(w, u); }
    } else {
      var n := |actions| - 1;
      assert Run(states[..n + 1], actions[..n]);
      DeparturesMatchArrivals(states[..n + 1], actions[..n], w, u);
      ArrivalsOfPrefix(states, actions[..n], w, u);
      TakesBalances(states[n], actions[n], states[n + 1], w, u);
    }
  }

  lemma NobodyHere(w: Id, u: Id)
    ensures !Present(map[], w, u)
  {
  }

  lemma {:induction false} ArrivalsOfPrefix(states: seq<Hub>, actions: seq<Action>, w: Id, u: Id)
    requires |actions| < |states|
    ensures Arrivals(states[..|actions| + 1], actions, w, u) == Arrivals(states, actions, w, u)
    decreases |actions|
  {
    hide Arrival;
    if actions != [] {
      var n := |actions| - 1;
      ArrivalsOfPrefix(states, actions[..n], w, u);
      assert states[..n + 2][..n + 1] == states[..n + 1];
      ArrivalsOfPrefix(states[..n + 2], actions[..n], w, u);
    }
  }

  /** A user whose only connection in a workspace switches to another is gone from it, and no MEMBER_LEFT says so. */
  lemma SwitchIsSilent(s: Hub, t: Hub, c: Cid, before: Id, w: Id)
    requires Valid(s) && c in s.connections && s.connections[c].workspace == Some(before) && before != w
    requires !Present(s.connections - {c}, before, s.connections[c].user)
    requires Evolves(Subscribed(s, c, w), t, {})
    ensures var u := s.connections[c].user;
            Present(s.connections, before, u) && !Present(t.connections, before, u)
            && LeaveCount(t.emitted, before, u) == LeaveCount(s.emitted, before, u)
  {
    hide Valid, LeaveCount, FailedTo, PresenceFollows, Add, Discard, Mark;
    var u, moved := s.connections[c].user, Subscribed(s, c, w);
    assert At(s.connections, c, before, u);
    assert forall d :: At(moved.connections, d, before, u) ==> At(s.connections - {c}, d, before, u);
    LeftOnceWhenLastIsGone(moved, t, {}, before, u);
    if Present(t.connections, before, u) {
      PresentShrinks(moved.connections, {} + FailedTo(t.sent, |moved.sent|), before, u);
    }
  }

  /** Presence does not mean connected: closing one of two connections shows the user offline while the other lives. */
  lemma ShownOfflineWhileConnected(s: Hub, t: Hub, c: Cid, d: Cid, w: Id, u: Id)
    requires Valid(s) && Evolves(s, t, {c})
    requires At(s.connections, c, w, u) && At(s.connections, d, w, u) && d in t.connections
    ensures Present(t.connections, w, u) && u in Members(t.presence, w) && Members(t.presence, w)[u].status.Offline?
  {
    hide UserIndexAgrees, WorkspaceIndexAgrees, ConversationIndexAgrees, FailedTo, BalanceKept, Members;
    assert At(t.connections, d, w, u);
    assert PresenceEntryFollows(s, t, {c} + FailedTo(t.sent, |s.sent|), w, u);
    assert c in {c} + FailedTo(t.sent, |s.sent|);
  }
}
