/** When a member is shown online, over every run of the websocket manager, and two runs from the empty manager. */
module PresenceRuns {
  import opened Wrappers
  import opened RealtimeHub

  ghost predicate ShownOnline(h: Hub, w: Id, u: Id) {
    u in Members(h.presence, w) && Members(h.presence, w)[u].status.Online?
  }

  /** The member subscribes one of its connections to the workspace. */
  predicate Arrives(s: Hub, action: Action, w: Id, u: Id) {
    action.Subscribes? && action.c in s.connections && action.workspace == w && s.connections[action.c].user == u
  }

  /** The member loses a connection in the workspace: closed, switched away, or dropped because a send to it failed. */
  ghost predicate Loses(s: Hub, action: Action, t: Hub, w: Id, u: Id) {
    match action
    case Subscribes(c, v) =>
      c in s.connections
      && ((At(s.connections, c, w, u) && v != w)
          || Left(Subscribed(s, c, v).connections, FailedTo(t.sent, |s.sent|), w, u))
    case Closes(dropped) => Left(s.connections, dropped + FailedTo(t.sent, |s.sent|), w, u)
    case _ => false
  }

  /** Somebody shown online stays so exactly when none of its connections there is dropped or fails, however many remain. */
  lemma StaysOnlineIff(s: Hub, t: Hub, dropped: set<Cid>, w: Id, u: Id)
    requires Evolves(s, t, dropped) && ShownOnline(s, w, u)
    ensures ShownOnline(t, w, u) <==> !Left(s.connections, dropped + FailedTo(t.sent, |s.sent|), w, u)
  {
    hide FailedTo, BalanceKept, Members, Left;
    assert PresenceEntryFollows(s, t, dropped + FailedTo(t.sent, |s.sent|), w, u);
  }

  lemma OnlineAfterEvolving(s: Hub, t: Hub, dropped: set<Cid>, w: Id, u: Id)
    requires Evolves(s, t, dropped)
    ensures ShownOnline(t, w, u)
            <==> ShownOnline(s, w, u) && !Left(s.connections, dropped + FailedTo(t.sent, |s.sent|), w, u)
  {
    hide FailedTo, BalanceKept, Members, Left;
    assert PresenceEntryFollows(s, t, dropped + FailedTo(t.sent, |s.sent|), w, u);
  }

  lemma OnlineAfterSubscribing(s: Hub, c: Cid, v: Id, w: Id, u: Id)
    requires c in s.connections
    ensures ShownOnline(Subscribed(s, c, v), w, u)
            <==> Arrives(s, Subscribes(c, v), w, u) || (ShownOnline(s, w, u) && !(At(s.connections, c, w, u) && v != w))
    ensures Subscribed(s, c, v).sent == s.sent
  {
    LeftBehindPresence(s, c, v, w, u);
    hide LeftBehind, Discard, Add;
  }

  lemma FollowingKeepsPresence(s: Hub, c: Cid, conversations: seq<Id>)
    requires c in s.connections
    ensures Following(s, c, conversations).presence == s.presence
  {
    FollowingKeepsPlaces(s, c, conversations);
  }

  /** One step: shown online afterwards exactly when shown before or arriving, and losing no connection there. */
  lemma OnlineAfterStep(s: Hub, action: Action, t: Hub, w: Id, u: Id)
    requires Takes(s, action, t)
    ensures ShownOnline(t, w, u) <==> (ShownOnline(s, w, u) || Arrives(s, action, w, u)) && !Loses(s, action, t, w, u)
  {
    hide Evolves, Subscribed, Following, Left, FailedTo, ShownOnline;
    match action
    case Connects(c, user, name) =>
      assert ShownOnline(t, w, u) <==> ShownOnline(s, w, u) by { SamePresence(s, t, w, u); }
    case Subscribes(c, v) =>
      if c in s.connections {
        var moved := Subscribed(s, c, v);
        var nobody: set<Cid> := {};
        OnlineAfterSubscribing(s, c, v, w, u);
        OnlineAfterEvolving(moved, t, nobody, w, u);
        assert nobody + FailedTo(t.sent, |s.sent|) == FailedTo(t.sent, |s.sent|);
      }
    case Follows(c, conversations) =>
      if c in s.connections {
        FollowingKeepsPresence(s, c, conversations);
        SamePresence(s, t, w, u);
      }
    case Closes(dropped) =>
      OnlineAfterEvolving(s, t, dropped, w, u);
  }

  lemma SamePresence(s: Hub, t: Hub, w: Id, u: Id)
    requires s.presence == t.presence
    ensures ShownOnline(s, w, u) <==> ShownOnline(t, w, u)
  {
  }

  /** The member's last subscription was at step i, and from that step to the n-th state it lost no connection there. */
  ghost predicate OnlineSince(states: seq<Hub>, actions: seq<Action>, i: nat, n: nat, w: Id, u: Id)
    requires n <= |actions| < |states|
  {
    && i < n && Arrives(states[i], actions[i], w, u)
    && (forall j :: i < j < n ==> !Arrives(states[j], actions[j], w, u))
    && (forall j :: i <= j < n ==> !Loses(states[j], actions[j], states[j + 1], w, u))
  }

  /** Over every run, a member is shown online exactly when it has lost no connection since its last subscription there. */
  lemma {:induction false} OnlineIff(states: seq<Hub>, actions: seq<Action>, n: nat, w: Id, u: Id)
    requires Run(states, actions) && n <= |actions| && states[0].presence == map[]
    ensures ShownOnline(states[n], w, u) <==> exists i: nat :: OnlineSince(states, actions, i, n, w, u)
    decreases n
  {
    hide Takes, Arrives, Loses;
    if n == 0 {
      assert !ShownOnline(states[0], w, u);
    } else {
      OnlineIff(states, actions, n - 1, w, u);
      OnlineAfterStep(states[n - 1], actions[n - 1], states[n], w, u);
      if ShownOnline(states[n], w, u) {
        if Arrives(states[n - 1], actions[n - 1], w, u) {
          assert OnlineSince(states, actions, n - 1, n, w, u);
        } else {
          var i: nat :| OnlineSince(states, actions, i, n - 1, w, u);
          assert OnlineSince(states, actions, i, n, w, u);
        }
      }
      if i: nat :| OnlineSince(states, actions, i, n, w, u) {
        assert !Loses(states[n - 1], actions[n - 1], states[n], w, u);
        if i < n - 1 {
          assert OnlineSince(states, actions, i, n - 1, w, u);
        }
      }
    }
  }

  // ---------------------------------------------------------------- two runs in which every send succeeds

  const EMPTY_HUB := Hub(map[], map[], map[], map[], map[], [], [])
  const USER: Id := 7
  const ROOM: Id := 100
  const OTHER_ROOM: Id := 200

  /** More events broadcast and more sends made, all of them delivered. */
  function Heard(h: Hub, events: seq<Event>, attempts: seq<Attempt>): Hub {
    h.(emitted := h.emitted + events, sent := h.sent + attempts)
  }

  lemma {:induction false} NoDepartures(emitted: seq<Event>, events: seq<Event>, w: Id, u: Id)
    requires forall e :: e in events ==> !e.MemberLeft?
    ensures LeaveCount(emitted + events, w, u) == LeaveCount(emitted, w, u)
    decreases |events|
  {
    if events == [] {
      assert emitted + events == emitted;
    } else {
      var n := |events| - 1;
      NoDepartures(emitted, events[..n], w, u);
      assert (emitted + events)[..|emitted| + n] == emitted + events[..n];
      assert events[n] in events;
    }
  }

  lemma HeardEvolves(h: Hub, events: seq<Event>, attempts: seq<Attempt>)
    requires forall e :: e in events ==> !e.MemberLeft? && (e.PresenceUpdated? ==> Shows(h, {}, e))
    requires forall a :: a in attempts ==> a.ok
    ensures Evolves(h, Heard(h, events, attempts), {})
    ensures Valid(h) ==> Valid(Heard(h, events, attempts))
  {
    var t := Heard(h, events, attempts);
    if Valid(h) {
      LogsAside(h, t);
    }
    hide Valid, LeaveCount, Members, Present, Shows;
    forall i | |h.emitted| <= i < |t.emitted| && t.emitted[i].PresenceUpdated? ensures Shows(h, {}, t.emitted[i]) {
      assert t.emitted[i] == events[i - |h.emitted|];
      assert t.emitted[i] in events;
    }
    forall i | |h.sent| <= i < |t.sent| ensures t.sent[i].ok {
      assert t.sent[i] == attempts[i - |h.sent|];
      assert t.sent[i] in attempts;
    }
    assert FailedTo(t.sent, |h.sent|) == {};
    NobodyLeft(h.connections);
    forall w, u ensures Balance(t, w, u) == Balance(h, w, u) {
      NoDepartures(h.emitted, events, w, u);
    }
  }

  /** What a lone connection's subscription sends: its own presence to itself, and the newcomer to nobody else. */
  function LoneSubscription(s: Hub, c: Cid, w: Id): Hub
    requires c in s.connections
  {
    var online := PresenceUpdated(w, USER, "n", Online);
    Heard(Subscribed(s, c, w), [online, MemberJoined(w, USER, "n")], [Attempt(c, online, true)])
  }

  lemma LoneSubscriptionTakes(s: Hub, c: Cid, w: Id)
    requires Valid(s) && c in s.connections && s.connections[c].user == USER && s.connections[c].name == "n"
    ensures Valid(LoneSubscription(s, c, w)) && Takes(s, Subscribes(c, w), LoneSubscription(s, c, w))
  {
    SubscribedIsValid(s, c, w);
    var online := PresenceUpdated(w, USER, "n", Online);
    SubscriberShown(s, c, w);
    hide Shows;
    HeardEvolves(Subscribed(s, c, w), [online, MemberJoined(w, USER, "n")], [Attempt(c, online, true)]);
    hide Valid, Evolves, Subscribed, Heard;
  }

  lemma SubscriberShown(s: Hub, c: Cid, w: Id)
    requires c in s.connections && s.connections[c].user == USER && s.connections[c].name == "n"
    ensures Shows(Subscribed(s, c, w), {}, PresenceUpdated(w, USER, "n", Online))
  {
    NewcomerEntry(s, c, w);
    hide Subscribed;
  }

  lemma EmptyIsValid()
    ensures Valid(EMPTY_HUB)
  {
  }

  /** One connection that subscribes to a room and then to another. */
  function SwitchStates(): seq<Hub> {
    var s1 := Connected(EMPTY_HUB, 1, USER, "n");
    var s2 := LoneSubscription(s1, 1, ROOM);
    [EMPTY_HUB, s1, s2, LoneSubscription(s2, 1, OTHER_ROOM)]
  }

  const SWITCH: seq<Action> := [Connects(1, USER, "n"), Subscribes(1, ROOM), Subscribes(1, OTHER_ROOM)]

  lemma RunOfThree(states: seq<Hub>, actions: seq<Action>)
    requires |states| == 4 && |actions| == 3
    requires Takes(states[0], actions[0], states[1]) && Takes(states[1], actions[1], states[2])
    requires Takes(states[2], actions[2], states[3])
    ensures Run(states, actions)
  {
    hide Takes;
  }

  /** A run after which the member has left the room and nobody has been told. */
  lemma SwitchRunIsSilent()
    ensures var s := SwitchStates();
            && Run(s, SWITCH) && Present(s[2].connections, ROOM, USER) && !Present(s[3].connections, ROOM, USER)
            && LeaveCount(s[3].emitted, ROOM, USER) == 0
  {
    var s := SwitchStates();
    EmptyIsValid();
    ConnectedIsValid(EMPTY_HUB, 1, USER, "n");
    LoneSubscriptionTakes(s[1], 1, ROOM);
    assert s[2].connections == map[1 := Connection(USER, "n", Some(ROOM), {})];
    LoneSubscriptionTakes(s[2], 1, OTHER_ROOM);
    assert Takes(s[0], SWITCH[0], s[1]);
    RunOfThree(s, SWITCH);
    assert s[3].connections == map[1 := Connection(USER, "n", Some(OTHER_ROOM), {})];
    assert At(s[2].connections, 1, ROOM, USER);
    SwitchEmits();
  }

  lemma SwitchEmits()
    ensures LeaveCount(SwitchStates()[3].emitted, ROOM, USER) == 0
  {
    var s := SwitchStates();
    var none: seq<Event> := [];
    var events := [PresenceUpdated(ROOM, USER, "n", Online), MemberJoined(ROOM, USER, "n")];
    var more := [PresenceUpdated(OTHER_ROOM, USER, "n", Online), MemberJoined(OTHER_ROOM, USER, "n")];
    assert s[2].emitted == none + events;
    assert s[3].emitted == s[2].emitted + more;
    NoDepartures(none, events, ROOM, USER);
    NoDepartures(none + events, more, ROOM, USER);
  }

  /** Two connections of one member subscribe to one room; the first is closed. */
  function BothConnected(): Hub {
    Connected(Connected(EMPTY_HUB, 1, USER, "n"), 2, USER, "n")
  }

  function FirstSubscribed(): Hub {
    var s := BothConnected();
    if 1 in s.connections then LoneSubscription(s, 1, ROOM) else s
  }

  function BothSubscribed(): Hub {
    var s := FirstSubscribed();
    var online, joined := PresenceUpdated(ROOM, USER, "n", Online), MemberJoined(ROOM, USER, "n");
    if 2 !in s.connections then s
    else Heard(Subscribed(s, 2, ROOM), [online, joined],
               [Attempt(1, online, true), Attempt(2, online, true), Attempt(1, joined, true)])
  }

  function FirstClosed(): Hub {
    var s := BothSubscribed();
    var offline := PresenceUpdated(ROOM, USER, "n", Offline);
    if 1 in s.connections then Heard(Popped(s, 1), [offline], [Attempt(2, offline, true)]) else s
  }

  function CloseStates(): seq<Hub> {
    [EMPTY_HUB, Connected(EMPTY_HUB, 1, USER, "n"), BothConnected(), FirstSubscribed(), BothSubscribed(), FirstClosed()]
  }

  const CLOSE: seq<Action> :=
    [Connects(1, USER, "n"), Connects(2, USER, "n"), Subscribes(1, ROOM), Subscribes(2, ROOM), Closes({1})]

  const HERE := Connection(USER, "n", Some(ROOM), {})
  const NOWHERE := Connection(USER, "n", None, {})

  lemma RunOfFive(states: seq<Hub>, actions: seq<Action>)
    requires |states| == 6 && |actions| == 5
    requires Takes(states[0], actions[0], states[1]) && Takes(states[1], actions[1], states[2])
    requires Takes(states[2], actions[2], states[3]) && Takes(states[3], actions[3], states[4])
    requires Takes(states[4], actions[4], states[5])
    ensures Run(states, actions)
  {
    hide Takes;
  }

  lemma BothConnect()
    ensures Takes(EMPTY_HUB, CLOSE[0], Connected(EMPTY_HUB, 1, USER, "n"))
    ensures Takes(Connected(EMPTY_HUB, 1, USER, "n"), CLOSE[1], BothConnected())
    ensures Valid(BothConnected()) && BothConnected().connections == map[1 := NOWHERE, 2 := NOWHERE]
  {
    hide Valid, Add;
    assert Valid(EMPTY_HUB) by { EmptyIsValid(); }
    ConnectedIsValid(EMPTY_HUB, 1, USER, "n");
    ConnectedIsValid(Connected(EMPTY_HUB, 1, USER, "n"), 2, USER, "n");
  }

  lemma FirstSubscribes()
    ensures Takes(BothConnected(), CLOSE[2], FirstSubscribed())
    ensures Valid(FirstSubscribed()) && FirstSubscribed().connections == map[1 := HERE, 2 := NOWHERE]
  {
    BothConnect();
    hide BothConnected, Valid, Takes, Discard, Add, Mark;
    LoneSubscriptionTakes(BothConnected(), 1, ROOM);
  }

  lemma SecondSubscribes()
    ensures Takes(FirstSubscribed(), CLOSE[3], BothSubscribed())
    ensures Valid(BothSubscribed()) && BothSubscribed().connections == map[1 := HERE, 2 := HERE]
  {
    FirstSubscribes();
    hide FirstSubscribed, Valid, Evolves, Discard, Add, Mark;
    SubscribedIsValid(FirstSubscribed(), 2, ROOM);
    SubscriberShown(FirstSubscribed(), 2, ROOM);
    hide Shows;
    var online, joined := PresenceUpdated(ROOM, USER, "n", Online), MemberJoined(ROOM, USER, "n");
    HeardEvolves(Subscribed(FirstSubscribed(), 2, ROOM), [online, joined],
                 [Attempt(1, online, true), Attempt(2, online, true), Attempt(1, joined, true)]);
  }

  lemma FirstCloses()
    ensures Evolves(BothSubscribed(), FirstClosed(), {1}) && FirstClosed().connections == map[2 := HERE]
  {
    SecondSubscribes();
    hide BothSubscribed, Valid, Evolves, DiscardAndPrune, DiscardEach, Discard, Mark;
    var s := BothSubscribed();
    assert At(s.connections - {1}, 2, ROOM, USER);
    PoppedSilently(s, 1);
    var offline := PresenceUpdated(ROOM, USER, "n", Offline);
    CloserShown(s, 1);
    hide Shows;
    HeardEvolves(Popped(s, 1), [offline], [Attempt(2, offline, true)]);
    var one, nobody: set<Cid> := {1}, {};
    EvolvesChains(s, Popped(s, 1), FirstClosed(), one, nobody);
    assert one + nobody == one;
  }

  lemma CloserShown(s: Hub, c: Cid)
    requires c in s.connections && s.connections[c] == HERE
    ensures Shows(Popped(s, c), {}, PresenceUpdated(ROOM, USER, "n", Offline))
  {
    hide DiscardAndPrune, DiscardEach, Discard;
  }

  /** A run after which a connected member is shown offline. */
  lemma CloseRunShowsOffline()
    ensures var s := CloseStates();
            && Run(s, CLOSE) && Present(s[5].connections, ROOM, USER)
            && USER in Members(s[5].presence, ROOM) && Members(s[5].presence, ROOM)[USER].status.Offline?
  {
    hide BothConnected, FirstSubscribed, BothSubscribed, FirstClosed, Connected, Valid, Members, Present, Evolves;
    var s := CloseStates();
    BothConnect();
    FirstSubscribes();
    SecondSubscribes();
    FirstCloses();
    RunOfFive(s, CLOSE);
    ShownOfflineWhileConnected(s[4], s[5], 1, 2, ROOM, USER);
  }
}
