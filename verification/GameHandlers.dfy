/** Every handler of the registry keeps the hub sound. */
module GameHandlers {
  import opened Bytes
  import opened SessionNames
  import opened Packets
  import opened GameModel
  import opened GameInvariant
  import opened GameGraph
  import opened GameViews

  // ---- login ---------------------------------------------------------------------------------

  lemma LoginSound(h: Hub, s: Sid, mac: Mac, name: RawNick, code: RawCode, o: Oracle)
    requires Sound(h) && s in h.users
    ensures Sound(HandleLogin(h, s, mac, name, code, o).0)
  {
    var g := UpToNul(o.link(h.clock, code));
    var u := h.users[s].(mac := mac, name := name, game := Some(g));
    if h.users[s].game.None? && ValidLogin(mac, name, code) {
      assert PointerLive(h.games, h.users[s]);
      EnterSound(h, s, g, u);
      assert HandleLogin(h, s, mac, name, code, o).0
          == h.(games := LoggedIn(h.games, g, s), users := h.users[s := u]);
    }
  }

  lemma EnterSound(h: Hub, s: Sid, g: Bytes, u: User)
    requires Sound(h) && s in h.users && Spot(h.users[s], None, None)
    requires u == h.users[s].(mac := u.mac, name := u.name, game := Some(g))
    ensures Sound(h.(games := LoggedIn(h.games, g, s), users := h.users[s := u]))
  {
    assert OthersStay(h.users, h.users[s := u], s);
    assert JoinedBy(h.users[s := u], h.clock);
    hide Graph, Views, Ordered, JoinedBy, LoggedIn, OthersStay;
    LoginGraph(h.games, h.users, h.users[s := u], g, s);
    LoginViews(h.games, h.users, g, s, u);
    LoginOrdered(h.games, h.users, g, s, u);
  }

  lemma LoginMembers(games: map<Bytes, Game>, g: Bytes, s: Sid, u: User)
    requires u.game.Some? ==> u.game.value in games
    ensures Members(LoggedIn(games, g, s), u) == Members(games, u)
  {
  }

  lemma LoginViews(games: map<Bytes, Game>, us: map<Sid, User>, g: Bytes, s: Sid, u: User)
    requires Views(games, us) && PointersLive(games, us) && s in us && us[s].group.None?
    requires u == us[s].(mac := u.mac, name := u.name, game := u.game)
    ensures Views(LoggedIn(games, g, s), us[s := u])
  {
    var vs, games' := us[s := u], LoggedIn(games, g, s);
    assert SameIps(us, vs);
    forall t | t in vs ensures SeesAs(games', vs, t) {
      hide Others, SeenSince, LoggedIn, Members, SameIps, Quiet;
      assert SeesAs(games, us, t);
      assert PointerLive(games, us[t]);
      if t != s {
        QuietSelf(us[t]);
        LoginMembers(games, g, s, us[t]);
        BystanderSees(games, us, games', vs, t);
      }
    }
  }

  lemma LoginOrdered(games: map<Bytes, Game>, us: map<Sid, User>, g: Bytes, s: Sid, u: User)
    requires Ordered(games, us) && s in us && u.joinedAt == us[s].joinedAt
    ensures Ordered(LoggedIn(games, g, s), us[s := u])
  {
    var games' := LoggedIn(games, g, s);
    forall x, k | x in games' && k in games'[x].groups ensures Seniority(us[s := u], games'[x].groups[k]) {
      assert x in games && k in games[x].groups && games'[x].groups[k] == games[x].groups[k];
      assert Seniority(us, games[x].groups[k]);
    }
  }

  // ---- connect -------------------------------------------------------------------------------

  /** The loop of introductions, the new member and its BSSID together. */
  lemma IntroduceJoins(us: map<Sid, User>, s: Sid, members: seq<Sid>, k: Bytes, now: nat)
    requires NoDup(members) && s in us && s !in members && Known(us, members)
    ensures Joined(us, Introduce(us, s, members, k, now), s, members, k, now)
  {
    hide Introduce, Greet, Queued, QueuedAll, NoDup, Known, OnlySentTo, Posted, BssidOf;
    IntroduceSelf(us, s, members, k, now);
    forall t | t in us && t != s
      ensures Introduce(us, s, members, k, now)[t] == if t in members then Queued(us[t], ConnectOf(us[s])) else us[t]
    {
      IntroduceOther(us, s, members, k, now, t);
    }
  }

  lemma IntroduceOther(us: map<Sid, User>, s: Sid, members: seq<Sid>, k: Bytes, now: nat, t: Sid)
    requires NoDup(members) && s in us && s !in members && Known(us, members) && t in us && t != s
    ensures Introduce(us, s, members, k, now)[t] == if t in members then Queued(us[t], ConnectOf(us[s])) else us[t]
  {
    var ready := us[s := us[s].(logAtJoin := |us[s].log|, joinedAt := now)];
    KnownSame(us, ready, members);
    GreetAt(ready, s, members, t);
    hide Greet, Queued, NoDup, Known, OnlySentTo, Posted;
    assert ConnectOf(ready[s]) == ConnectOf(us[s]);
  }

  /** The last two stages of a join, seen by the newcomer. */
  lemma JoinedThenTold(us: map<Sid, User>, s: Sid, members: seq<Sid>, k: Bytes, now: nat)
    requires s in us && Known(us, members)
    ensures var ready := us[s := us[s].(logAtJoin := |us[s].log|, joinedAt := now)];
            && s in Greet(ready, s, members)
            && Introduce(us, s, members, k, now)[s]
               == Queued(Greet(ready, s, members)[s].(group := Some(k)), BssidOf(us, s, members))
  {
    hide Greet, Queued, WorksFor;
    var ready := us[s := us[s].(logAtJoin := |us[s].log|, joinedAt := now)];
    var greeted := Greet(ready, s, members);
    var front := (members + [s])[0];
    assert front in us && OnlySentTo(ready[front], greeted[front]);
  }

  lemma RegroupedQueue(u: User, k: Bytes, ps: seq<Packet>)
    ensures QueuedAll(u, ps).(group := Some(k)) == QueuedAll(u.(group := Some(k)), ps)
  {
  }

  lemma IntroduceSelf(us: map<Sid, User>, s: Sid, members: seq<Sid>, k: Bytes, now: nat)
    requires NoDup(members) && s in us && s !in members && Known(us, members)
    ensures Introduce(us, s, members, k, now)[s]
         == QueuedAll(us[s].(group := Some(k), logAtJoin := |us[s].log|, joinedAt := now),
                      Greetings(us, members) + [BssidOf(us, s, members)])
  {
    var u := us[s].(logAtJoin := |us[s].log|, joinedAt := now);
    var ready := us[s := u];
    assert Greetings(ready, members) == Greetings(us, members);
    hide Greetings, Greet, Introduce, Queued, QueuedAll, NoDup, Known, BssidOf, OnlySentTo;
    GreetSelf(ready, s, members) by { assert Known(ready, members) by { KnownSame(us, ready, members); } }
    JoinedThenTold(us, s, members, k, now);
    RegroupedQueue(u, k, Greetings(us, members));
    AllThenQueued(u.(group := Some(k)), Greetings(us, members), BssidOf(us, s, members));
  }

  lemma KnownSame(us: map<Sid, User>, vs: map<Sid, User>, members: seq<Sid>)
    requires Known(us, members) && us.Keys == vs.Keys
    ensures Known(vs, members)
  {
  }

  lemma GroupKeyIsValid(raw: RawGroup)
    requires ValidGroup(raw)
    ensures ValidKey(UpToNul(raw))
  {
  }

  lemma ListsHaveUsers(games: map<Bytes, Game>, us: map<Sid, User>, g: Bytes, k: Bytes)
    requires Graph(games, us) && g in games
    ensures Known(us, ListAt(games, g, k)) && NoDup(ListAt(games, g, k))
    ensures Fits(us, g, k, ListAt(games, g, k))
  {
    MembersFit(games, us, g, k);
    assert Known(us, ListAt(games, g, k)) by {
      var v := ListAt(games, g, k);
      forall i | 0 <= i < |v| ensures v[i] in us { assert v[i] in v; }
    }
  }

  lemma ConnectSound(h: Hub, s: Sid, raw: RawGroup)
    requires Sound(h) && s in h.users
    requires forall t :: t in h.users ==> h.users[t].joinedAt < h.clock
    ensures Sound(HandleConnect(h, s, raw).0)
  {
    hide Sound, WorksFor, Introduce, ValidGroup;
    var r := HandleConnect(h, s, raw).0;
    var u := h.users[s];
    PlaceOf(h, s);
    if u.game.Some? && ValidGroup(raw) && u.group.None? {
      var g, k := u.game.value, UpToNul(raw);
      JoinSound(h, s, g, k, ListAt(h.games, g, k), raw, r);
    }
  }

  lemma PlaceOf(h: Hub, s: Sid)
    requires Sound(h) && s in h.users
    ensures h.users[s].game.Some? ==> h.users[s].game.value in h.games
  {
    assert PointerLive(h.games, h.users[s]);
  }

  lemma JoinSound(h: Hub, s: Sid, g: Bytes, k: Bytes, members: seq<Sid>, raw: RawGroup, r: Hub)
    requires Sound(h) && s in h.users && forall t :: t in h.users ==> h.users[t].joinedAt < h.clock
    requires h.users[s].game == Some(g) && h.users[s].group == None && g in h.games
    requires ValidGroup(raw) && k == UpToNul(raw) && members == ListAt(h.games, g, k)
    requires r == h.(games := Regrouped(h.games, g, k, members + [s]),
                     users := Introduce(h.users, s, members, k, h.clock))
    ensures Sound(r)
  {
    assert PlayersListed(h.games, h.users);
    ListsHaveUsers(h.games, h.users, g, k);
    GroupKeyIsValid(raw);
    RegroupElsewhere(h.games, g, k, members + [s]);
    assert s !in members;
    IntroduceJoins(h.users, s, members, k, h.clock);
    JoinedStay(h.users, r.users, s, members, k, h.clock, g);
    hide Introduce, Views, Ordered, Graph, Regrouped, Joined, SameElsewhere, ListAt, OthersStay;
    JoinFits(h.users, r.users, s, g, k, members);
    RegroupGraph(h.games, h.users, r.users, s, g, k, members + [s]);
    JoinViews(h.games, h.users, r.games, r.users, s, g, k, members, h.clock);
    JoinOrdered(h.games, h.users, r.games, r.users, s, g, k, members, h.clock);
  }

  lemma JoinedStay(us: map<Sid, User>, vs: map<Sid, User>, s: Sid, members: seq<Sid>, k: Bytes, now: nat, g: Bytes)
    requires s in us && Known(us, members) && Joined(us, vs, s, members, k, now)
    requires us[s].game == Some(g) && forall t :: t in us ==> us[t].joinedAt < now
    ensures OthersStay(us, vs, s) && Spot(vs[s], Some(g), Some(k)) && JoinedBy(vs, now)
  {
  }

  // ---- leaving a group -----------------------------------------------------------------------

  lemma DeliverLeaves(us: map<Sid, User>, s: Sid, rest: seq<Sid>)
    requires NoDup(rest) && s in us && s !in rest
    ensures Left(us, DeliverAll(us[s := us[s].(group := None)], rest, None, DisconnectPkt(us[s].ip)), s, rest)
  {
    var alone := us[s := us[s].(group := None)];
    var p := DisconnectPkt(us[s].ip);
    forall t | t in alone
      ensures DeliverAll(alone, rest, None, p)[t] == if t in rest then Queued(alone[t], p) else alone[t]
    {
      DeliverAllAt(alone, rest, None, p, t);
    }
  }

  lemma LeaveSound(h: Hub, s: Sid)
    requires Sound(h) && s in h.users
    ensures Sound(LeaveGroup(h, s))
    ensures LeaveGroup(h, s).users[s] == h.users[s].(group := None)
  {
    var u := h.users[s];
    if u.group.Some? {
      assert PointerLive(h.games, u);
      var g, k := u.game.value, u.group.value;
      LeaveListed(h, s, g, k, ListAt(h.games, g, k), LeaveGroup(h, s));
    } else {
      assert u.(group := None) == u;
    }
  }

  lemma LeaveListed(h: Hub, s: Sid, g: Bytes, k: Bytes, members: seq<Sid>, r: Hub)
    requires Sound(h) && s in h.users && InGroup(h.users[s], g, k)
    requires g in h.games && k in h.games[g].groups && members == ListAt(h.games, g, k)
    requires r == h.(games := Regrouped(h.games, g, k, RemoveFirst(members, s)),
                     users := DeliverAll(h.users[s := h.users[s].(group := None)], RemoveFirst(members, s), None,
                                         DisconnectPkt(h.users[s].ip)))
    ensures Sound(r) && r.users[s] == h.users[s].(group := None)
  {
    ListsHaveUsers(h.games, h.users, g, k);
    assert GameOk(h.games[g]);
    var rest := RemoveFirst(members, s);
    RemoveFirstSet(members, s);
    RegroupElsewhere(h.games, g, k, rest);
    DeliverLeaves(h.users, s, rest);
    LeftStay(h.users, r.users, s, rest, h.clock);
    hide DeliverAll, Views, Ordered, Graph, Regrouped, Left, SameElsewhere, ListAt, OthersStay, RemoveFirst;
    LeaveFits(h.users, r.users, s, g, k, members);
    RegroupGraph(h.games, h.users, r.users, s, g, k, rest);
    LeaveViews(h.games, h.users, r.games, r.users, s, g, k, members);
    LeaveOrdered(h.games, h.users, r.games, r.users, s, g, k, members);
  }

  lemma LeftStay(us: map<Sid, User>, vs: map<Sid, User>, s: Sid, rest: seq<Sid>, now: nat)
    requires s in us && Left(us, vs, s, rest) && JoinedBy(us, now)
    ensures OthersStay(us, vs, s) && vs[s] == us[s].(group := None) && JoinedBy(vs, now)
  {
  }

  // ---- leaving a game ------------------------------------------------------------------------

  lemma QuitSound(h: Hub, s: Sid)
    requires Sound(h) && s in h.users && h.users[s].group.None?
    ensures Sound(QuitGame(h, s))
    ensures QuitGame(h, s).users == h.users[s := h.users[s].(game := None)]
  {
    var u := h.users[s];
    assert PointerLive(h.games, u);
    if u.game.Some? {
      ExitSound(h, s, u.game.value);
      assert QuitGame(h, s)
          == h.(games := LoggedOut(h.games, u.game.value, s), users := h.users[s := u.(game := None)]);
    } else {
      assert u.(game := None) == u;
      assert h.users[s := u] == h.users;
    }
  }

  lemma ExitSound(h: Hub, s: Sid, g: Bytes)
    requires Sound(h) && s in h.users && Spot(h.users[s], Some(g), None) && g in h.games
    ensures Sound(h.(games := LoggedOut(h.games, g, s), users := h.users[s := h.users[s].(game := None)]))
  {
    var vs := h.users[s := h.users[s].(game := None)];
    assert OthersStay(h.users, vs, s);
    assert JoinedBy(vs, h.clock);
    hide Graph, Views, Ordered, JoinedBy, LoggedOut, OthersStay;
    LogoutGraph(h.games, h.users, vs, g, s);
    LogoutViews(h.games, h.users, g, s);
    LogoutOrdered(h.games, h.users, g, s);
  }

  lemma LogoutViews(games: map<Bytes, Game>, us: map<Sid, User>, g: Bytes, s: Sid)
    requires Graph(games, us) && Views(games, us) && s in us && Spot(us[s], Some(g), None) && g in games
    ensures Views(LoggedOut(games, g, s), us[s := us[s].(game := None)])
  {
    var vs, games' := us[s := us[s].(game := None)], LoggedOut(games, g, s);
    assert SameIps(us, vs);
    forall t | t in vs ensures SeesAs(games', vs, t) {
      hide Others, SeenSince, RemoveFirst;
      assert SeesAs(games, us, t);
      if t != s {
        QuietSelf(us[t]);
        LogoutMembers(games, us, g, s, us[t]);
        BystanderSees(games, us, games', vs, t);
      }
    }
  }

  lemma LogoutMembers(games: map<Bytes, Game>, us: map<Sid, User>, g: Bytes, s: Sid, u: User)
    requires Graph(games, us) && s in us && Spot(us[s], Some(g), None) && g in games
    ensures Members(LoggedOut(games, g, s), u) == Members(games, u)
  {
    if u.game == Some(g) && u.group.Some? && u.group.value in games[g].groups {
      GroupsKeepGameAlive(games, us, g, u.group.value, s);
    }
  }

  lemma LogoutOrdered(games: map<Bytes, Game>, us: map<Sid, User>, g: Bytes, s: Sid)
    requires Ordered(games, us) && s in us && g in games
    ensures Ordered(LoggedOut(games, g, s), us[s := us[s].(game := None)])
  {
    var games', vs := LoggedOut(games, g, s), us[s := us[s].(game := None)];
    forall x, k | x in games' && k in games'[x].groups ensures Seniority(vs, games'[x].groups[k]) {
      assert x in games && k in games[x].groups && games'[x].groups[k] == games[x].groups[k];
      assert Seniority(us, games[x].groups[k]);
    }
  }

  // ---- handlers that only send ---------------------------------------------------------------

  lemma QueuedQuiet(u: User, ps: seq<Packet>)
    requires Neutral(ps)
    ensures Quiet(u, QueuedAll(u, ps))
  {
    assert (u.log + ps)[|u.log|..] == ps;
  }

  lemma QueuedIsAll(u: User, p: Packet)
    ensures Queued(u, p) == QueuedAll(u, [p])
  {
  }

  lemma ChatQuiet(us: map<Sid, User>, players: seq<Sid>, s: Sid, p: Packet)
    requires NoDup(players) && p.ChatPkt?
    ensures AllQuiet(us, DeliverAll(us, players, Some(s), p))
  {
    hide QueuedAll, Queued, Quiet;
    forall t | t in us ensures Quiet(us[t], DeliverAll(us, players, Some(s), p)[t]) {
      DeliverAllAt(us, players, Some(s), p, t);
      QuietSelf(us[t]);
      QueuedIsAll(us[t], p);
      QueuedQuiet(us[t], [p]);
    }
  }

  lemma ChatSound(h: Hub, s: Sid, message: RawChat)
    requires Sound(h) && s in h.users
    ensures Sound(HandleChat(h, s, message).0)
  {
    var r := HandleChat(h, s, message).0;
    var u := h.users[s];
    if u.game.Some? && u.group.Some? {
      assert PointerLive(h.games, u);
      var players := ListAt(h.games, u.game.value, u.group.value);
      ListsHaveUsers(h.games, h.users, u.game.value, u.group.value);
      var p := ChatOf(message, u.name);
      ChatQuiet(h.users, players, s, p);
      assert AllQuiet(h.users, r.users);
      QuietSound(h, r);
    }
  }

  lemma ScanSound(h: Hub, s: Sid, o: Oracle)
    requires Sound(h) && s in h.users
    ensures Sound(HandleScan(h, s, o).0)
  {
    var r := HandleScan(h, s, o).0;
    var u := h.users[s];
    if u.game.Some? && u.group.None? {
      var game := GameOrNew(h, u.game.value);
      var ks := o.order(h.clock, game.groups.Keys);
      var ps := ScanPackets(h, game, u.mac, ks);
      assert Neutral(ps + [ScanComplete]);
      QueuedQuiet(u, ps + [ScanComplete]);
      forall t | t in h.users ensures Quiet(h.users[t], r.users[t]) { QuietSelf(h.users[t]); }
      assert AllQuiet(h.users, r.users);
      QuietSound(h, r);
    }
  }

  // ---- commands ------------------------------------------------------------------------------

  lemma TickSound(h: Hub)
    requires Sound(h)
    ensures Sound(h.(clock := h.clock + 1))
  {
    forall t | t in h.users ensures Quiet(h.users[t], h.users[t]) { QuietSelf(h.users[t]); }
    assert AllQuiet(h.users, h.users);
    QuietSound(h, h.(clock := h.clock + 1));
  }

  lemma DisconnectSound(h: Hub, s: Sid)
    requires Sound(h) && s in h.users
    ensures Sound(HandleDisconnect(h, s).0)
  {
    LeaveSound(h, s);
  }

  lemma DispatchSound(h: Hub, s: Sid, c: Command, o: Oracle)
    requires Sound(h) && s in h.users && forall t :: t in h.users ==> h.users[t].joinedAt < h.clock
    ensures Sound(Dispatch(h, s, c, o).0)
  {
    hide Sound, HandleLogin, HandleConnect, HandleDisconnect, HandleScan, HandleChat, WorksFor;
    match c
    case Ping =>
    case Login(mac, name, code) => LoginSound(h, s, mac, name, code, o);
    case Connect(group) => ConnectSound(h, s, group);
    case Disconnect => DisconnectSound(h, s);
    case Scan => ScanSound(h, s, o);
    case Chat(message) => ChatSound(h, s, message);
  }

  lemma TickFresh(h: Hub)
    requires Sound(h)
    ensures forall t :: t in h.users ==> h.users[t].joinedAt < h.clock + 1
  {
    hide Graph, Views, Ordered;
  }

  lemma ExecuteIs(h: Hub, s: Sid, c: Command, o: Oracle)
    requires s in h.users
    ensures Execute(h, s, c, o) == Dispatch(h.(clock := h.clock + 1), s, c, o)
  {
    hide Dispatch, WorksFor;
  }

  lemma ExecuteSound(h: Hub, s: Sid, c: Command, o: Oracle)
    requires Sound(h) && s in h.users
    ensures Sound(Execute(h, s, c, o).0)
  {
    hide *;
    TickSound(h);
    TickFresh(h);
    DispatchSound(h.(clock := h.clock + 1), s, c, o);
    ExecuteIs(h, s, c, o);
  }

  /** The reader's own fields are nobody's business. */
  lemma TouchSound(h: Hub, s: Sid, v: User)
    requires Sound(h) && s in h.users && Quiet(h.users[s], v)
    ensures Sound(PutUser(h, s, v))
  {
    var r := PutUser(h, s, v);
    forall t | t in h.users ensures Quiet(h.users[t], r.users[t]) { QuietSelf(h.users[t]); }
    assert AllQuiet(h.users, r.users);
    QuietSound(h, r);
  }

  lemma ShutSound(h: Hub, s: Sid)
    requires Sound(h) && s in h.users
    ensures Sound(Shut(h, s))
  {
    TouchSound(h, s, ClosedUser(h.users[s]));
  }

  lemma ObeySound(h: Hub, s: Sid, c: Command, size: nat, o: Oracle)
    requires Sound(h) && s in h.users && size <= |h.users[s].rx|
    ensures Sound(Obey(h, s, c, size, o).0)
  {
    hide Execute, Sound;
    TouchSound(h, s, Eaten(h.users[s], size));
    var eaten := PutUser(h, s, Eaten(h.users[s], size));
    ExecuteSound(eaten, s, c, o);
    var (r, ok) := Execute(eaten, s, c, o);
    if ok {
      TouchSound(r, s, r.users[s].(commands := r.users[s].commands + [c]));
    } else {
      ShutSound(r, s);
    }
  }

  lemma {:induction false} DrainSound(h: Hub, s: Sid, o: Oracle)
    requires Sound(h) && s in h.users
    ensures Sound(Drain(h, s, o))
    decreases |h.users[s].rx|
  {
    var u := h.users[s];
    if u.rx != [] && !u.closed {
      hide Obey, Sound, Shut;
      match Lex(u.game.Some?, u.rx)
      case NeedMore =>
      case Malformed => ShutSound(h, s);
      case Got(c, size) =>
        ObeySound(h, s, c, size, o);
        var (r, ok) := Obey(h, s, c, size, o);
        if ok { DrainSound(r, s, o); }
    }
  }

  // ---- closing -------------------------------------------------------------------------------

  lemma ReapSound(h: Hub, s: Sid)
    requires Sound(h) && s in h.users
    ensures Sound(Reap(h, s))
    ensures !h.users[s].reaped ==> Reap(h, s).users[s] == h.users[s].(reaped := true, group := None, game := None)
  {
    if !h.users[s].reaped {
      var marked := PutUser(h, s, h.users[s].(reaped := true));
      TouchSound(h, s, h.users[s].(reaped := true));
      LeaveSound(marked, s);
      var left := LeaveGroup(marked, s);
      QuitSound(left, s);
      var quit := QuitGame(left, s);
      SoundIgnoresCount(quit, Reap(h, s));
    }
  }

  lemma SoundIgnoresCount(h: Hub, r: Hub)
    requires Sound(h) && r == h.(connections := r.connections)
    ensures Sound(r)
  {
  }

  lemma AnnounceSound(h: Hub)
    requires Sound(h)
    ensures Sound(Announce(h))
  {
    var r := Announce(h);
    if !h.shutdown {
      forall t | t in h.users ensures Quiet(h.users[t], r.users[t]) {
        QuietSelf(h.users[t]);
        QueuedIsAll(h.users[t], ShutdownPacket());
        QueuedQuiet(h.users[t], [ShutdownPacket()]);
      }
      assert AllQuiet(h.users, r.users);
      QuietSound(h, r);
    }
  }

  lemma OpenSound(h: Hub, s: Sid, ip: Ip, n: nat)
    requires Sound(h) && s !in h.users
    ensures Sound(h.(users := h.users[s := NewUser(ip)], connections := n))
  {
    var r := h.(users := h.users[s := NewUser(ip)], connections := n);
    NewcomerGraph(h.games, h.users, s, NewUser(ip));
    NewcomerViews(h.games, h.users, s, NewUser(ip));
    forall g, k | g in h.games && k in h.games[g].groups ensures Seniority(r.users, h.games[g].groups[k]) {
      assert PlayersOf(h.users, g, k, h.games[g].groups[k]);
      assert Seniority(h.users, h.games[g].groups[k]);
      var players := h.games[g].groups[k];
      assert forall i :: 0 <= i < |players| ==> players[i] in players;
    }
  }

  lemma NewcomerViews(games: map<Bytes, Game>, us: map<Sid, User>, s: Sid, u: User)
    requires Graph(games, us) && Views(games, us) && s !in us && Spot(u, None, None) && u.logAtJoin <= |u.log|
    ensures Views(games, us[s := u])
  {
    var vs := us[s := u];
    forall t | t in vs ensures SeesAs(games, vs, t) {
      hide Others, SeenSince;
      if t != s {
        assert SeesAs(games, us, t);
        MembersKnown(games, us, us[t]);
        OthersKnown(us, vs, Members(games, us[t]), t);
      }
    }
  }

  lemma MembersKnown(games: map<Bytes, Game>, us: map<Sid, User>, u: User)
    requires Graph(games, us)
    ensures Known(us, Members(games, u))
  {
    MembersAre(games, u);
    if u.game.Some? && u.group.Some? && u.game.value in games {
      ListsHaveUsers(games, us, u.game.value, u.group.value);
    }
  }

  lemma {:induction false} OthersKnown(us: map<Sid, User>, vs: map<Sid, User>, players: seq<Sid>, t: Sid)
    requires Known(us, players) && us.Keys <= vs.Keys && forall x :: x in us ==> vs[x].ip == us[x].ip
    ensures Others(vs, players, t) == Others(us, players, t)
  {
    if players != [] {
      assert players[0] in us;
      assert Known(us, players[1..]);
      OthersKnown(us, vs, players[1..], t);
    }
  }
}
