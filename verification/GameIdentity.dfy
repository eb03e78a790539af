/** Who is who, and where: a session's identity and place are what its own bytes say, and every member
of a group has been told the name, the hardware address and the address of every other member.
*/
module GameIdentity {
  import opened Bytes
  import opened SessionNames
  import opened Packets
  import opened GameModel
  import opened GameInvariant
  import opened GameGraph
  import opened GameViews
  import opened GameHandlers
  import opened GameReader
  import opened GameRuns
  import opened GameTheorems

  // ---- identity and place, from the commands -----------------------------------------------------

  function PlaceAfter(place: Option<Bytes>, c: Command): Option<Bytes> {
    if c.Connect? then Some(UpToNul(c.group)) else if c.Disconnect? then None else place
  }

  /** The group that a client's accepted commands have brought it to. */
  function PlaceOf(cs: seq<Command>): Option<Bytes> {
    if cs == [] then None else PlaceAfter(PlaceOf(cs[..|cs| - 1]), cs[|cs| - 1])
  }

  ghost predicate LoggedInAs(cs: seq<Command>, mac: Mac, name: RawNick) {
    cs != [] && cs[0].Login? && cs[0].mac == mac && cs[0].name == name
  }

  /** The state of a session is what its commands made it. */
  ghost predicate TrueToCommands(u: User) {
    && (!u.reaped ==> u.group == PlaceOf(u.commands) && (u.game.Some? <==> u.commands != []))
    && (u.commands != [] ==> LoggedInAs(u.commands, u.mac, u.name))
  }

  // ---- introductions -----------------------------------------------------------------------------

  ghost predicate Together(u: User, v: User) { u.group.Some? && v.game == u.game && v.group == u.group }

  /** Since it joined, `u` has been sent all that there is to know about `v`. */
  ghost predicate HasMet(u: User, v: User) {
    u.logAtJoin <= |u.log| && ConnectPkt(v.name, v.mac, v.ip) in u.log[u.logAtJoin..]
  }

  ghost predicate Met(u: User, v: User) { !u.closed && Together(u, v) ==> HasMet(u, v) }

  ghost predicate AllMet(us: map<Sid, User>) {
    forall t, x :: t in us && x in us && t != x ==> Met(us[t], us[x])
  }

  /** The parts that matter here stay as they are, the log may grow. */
  ghost predicate Steady(u: User, v: User) {
    && v.game == u.game && v.group == u.group && v.mac == u.mac && v.name == u.name && v.ip == u.ip
    && v.logAtJoin == u.logAtJoin && (u.closed ==> v.closed) && u.log <= v.log
  }

  lemma SteadyMet(u: User, v: User, u': User, v': User)
    requires Met(u, v) && Steady(u, u') && Steady(v, v')
    ensures Met(u', v')
  {
    if !u'.closed && Together(u', v') {
      var p := ConnectPkt(v.name, v.mac, v.ip);
      assert p in u.log[u.logAtJoin..];
      var i :| 0 <= i < |u.log[u.logAtJoin..]| && u.log[u.logAtJoin..][i] == p;
      assert u'.log[u'.logAtJoin..][i] == p;
    }
  }

  lemma SentSteady(u: User, v: User)
    requires OnlySentTo(u, v)
    ensures Steady(u, v)
  {
  }

  /** Everybody but `s` is steady, and `s` is in no group. */
  ghost predicate Apart(us: map<Sid, User>, vs: map<Sid, User>, s: Sid) {
    && vs.Keys == us.Keys && (forall t :: t in us && t != s ==> Steady(us[t], vs[t]))
    && (s in us ==> vs[s].group.None?)
  }

  lemma ApartMet(us: map<Sid, User>, vs: map<Sid, User>, s: Sid)
    requires AllMet(us) && Apart(us, vs, s)
    ensures AllMet(vs)
  {
    hide HasMet, Steady;
    forall t, x | t in vs && x in vs && t != x ensures Met(vs[t], vs[x]) {
      if t != s && x != s {
        assert Met(us[t], us[x]);
        hide Met;
        SteadyMet(us[t], us[x], vs[t], vs[x]);
      }
    }
  }

  ghost predicate AllSteady(us: map<Sid, User>, vs: map<Sid, User>) {
    vs.Keys == us.Keys && forall t :: t in us ==> Steady(us[t], vs[t])
  }

  lemma AllSteadyMet(us: map<Sid, User>, vs: map<Sid, User>)
    requires AllMet(us) && AllSteady(us, vs)
    ensures AllMet(vs)
  {
    hide Met, Steady;
    forall t, x | t in vs && x in vs && t != x ensures Met(vs[t], vs[x]) {
      SteadyMet(us[t], us[x], vs[t], vs[x]);
    }
  }

  // ---- joining -----------------------------------------------------------------------------------

  lemma JoinerHasMet(us: map<Sid, User>, vs: map<Sid, User>, s: Sid, members: seq<Sid>, k: Bytes, now: nat, x: Sid)
    requires s in us && Known(us, members) && Joined(us, vs, s, members, k, now) && s !in members
    requires x in members && x in us && x != s && !vs[s].closed
    ensures HasMet(vs[s], vs[x])
  {
    JoinedOther(us, vs, s, members, k, now, x);
    var i :| 0 <= i < |members| && members[i] == x;
    var greetings := Greetings(us, members);
    var sent := greetings + [BssidOf(us, s, members)];
    assert vs[s].log[vs[s].logAtJoin..] == sent;
    assert sent[i] == greetings[i] == ConnectPkt(us[x].name, us[x].mac, us[x].ip);
  }

  lemma MemberHasMet(us: map<Sid, User>, vs: map<Sid, User>, s: Sid, members: seq<Sid>, k: Bytes, now: nat, t: Sid)
    requires s in us && Known(us, members) && Joined(us, vs, s, members, k, now) && s !in members
    requires t in members && t in us && t != s && !vs[t].closed && us[t].logAtJoin <= |us[t].log|
    ensures HasMet(vs[t], vs[s])
  {
    JoinedOther(us, vs, s, members, k, now, t);
    var n := |us[t].log| - us[t].logAtJoin;
    assert vs[t].log[vs[t].logAtJoin..][n] == ConnectPkt(us[s].name, us[s].mac, us[s].ip);
  }

  lemma JoinedSteady(us: map<Sid, User>, vs: map<Sid, User>, s: Sid, members: seq<Sid>, k: Bytes, now: nat, t: Sid)
    requires s in us && Known(us, members) && Joined(us, vs, s, members, k, now) && t in us && t != s
    ensures t in vs && Steady(us[t], vs[t])
  {
  }

  lemma JoinMet(us: map<Sid, User>, vs: map<Sid, User>, s: Sid, g: Bytes, k: Bytes, members: seq<Sid>, now: nat)
    requires AllMet(us) && s in us && us[s].game == Some(g) && s !in members && Known(us, members)
    requires Joined(us, vs, s, members, k, now) && PlayersOf(us, g, k, members)
    requires forall t :: t in us ==> us[t].logAtJoin <= |us[t].log|
    ensures AllMet(vs)
  {
    hide HasMet, Joined, Steady;
    JoinedKeys(us, vs, s, members, k, now);
    JoinedSpot(us, vs, s, members, k, now);
    forall t, x | t in vs && x in vs && t != x ensures Met(vs[t], vs[x]) {
      if t == s {
        JoinedOther(us, vs, s, members, k, now, x);
        if !vs[s].closed && x in members { JoinerHasMet(us, vs, s, members, k, now, x); }
      } else if x == s {
        JoinedOther(us, vs, s, members, k, now, t);
        if !vs[t].closed && t in members { MemberHasMet(us, vs, s, members, k, now, t); }
      } else {
        JoinedSteady(us, vs, s, members, k, now, t);
        JoinedSteady(us, vs, s, members, k, now, x);
        assert Met(us[t], us[x]);
        SteadyMet(us[t], us[x], vs[t], vs[x]);
      }
    }
  }

  // ---- handlers ----------------------------------------------------------------------------------

  lemma WorkedApart(h: Hub, s: Sid, r: Hub)
    requires WorksFor(h, s, r) && s in h.users && r.users[s].group.None?
    ensures Apart(h.users, r.users, s)
  {
    hide Steady, OnlySentTo;
    forall t | t in h.users && t != s ensures Steady(h.users[t], r.users[t]) {
      SentSteady(h.users[t], r.users[t]);
    }
  }

  lemma SentAllSteady(us: map<Sid, User>, vs: map<Sid, User>)
    requires AllOnlySentTo(us, vs)
    ensures AllSteady(us, vs)
  {
    hide Steady, OnlySentTo;
    forall t | t in us ensures Steady(us[t], vs[t]) {
      SentSteady(us[t], vs[t]);
    }
  }

  lemma ConnectMet(h: Hub, s: Sid, raw: RawGroup)
    requires Sound(h) && AllMet(h.users) && s in h.users
    ensures AllMet(HandleConnect(h, s, raw).0.users)
  {
    var u := h.users[s];
    if u.game.Some? && ValidGroup(raw) && u.group.None? {
      assert PointerLive(h.games, u);
      var g, k := u.game.value, UpToNul(raw);
      var members := ListAt(h.games, g, k);
      ListsHaveUsers(h.games, h.users, g, k);
      NotYetMember(h.users, s, g, k, members);
      LogsLong(h);
      hide Sound, Introduce, AllMet, WorksFor, ValidGroup, NoDup;
      IntroduceJoins(h.users, s, members, k, h.clock) by { assert Fits(h.users, g, k, members); }
      ConnectJoins(h, s, raw, g, k, members);
      JoinMet(h.users, Introduce(h.users, s, members, k, h.clock), s, g, k, members, h.clock);
    }
  }

  lemma LogsLong(h: Hub)
    requires Sound(h)
    ensures forall t :: t in h.users ==> h.users[t].logAtJoin <= |h.users[t].log|
  {
    hide Graph, Ordered, Others, View;
    forall t | t in h.users ensures h.users[t].logAtJoin <= |h.users[t].log| {
      assert Sees(h.users[t], Others(h.users, Members(h.games, h.users[t]), t));
    }
  }

  lemma LoginMet(h: Hub, s: Sid, mac: Mac, name: RawNick, code: RawCode, o: Oracle)
    requires Sound(h) && AllMet(h.users) && s in h.users
    ensures AllMet(HandleLogin(h, s, mac, name, code, o).0.users)
  {
    if h.users[s].game.None? && ValidLogin(mac, name, code) {
      assert PointerLive(h.games, h.users[s]);
      hide Sound, AllMet, WorksFor, ValidLogin;
      WorkedApart(h, s, HandleLogin(h, s, mac, name, code, o).0);
      ApartMet(h.users, HandleLogin(h, s, mac, name, code, o).0.users, s);
    }
  }

  lemma DisconnectMet(h: Hub, s: Sid)
    requires AllMet(h.users) && s in h.users
    ensures AllMet(HandleDisconnect(h, s).0.users)
  {
    if h.users[s].game.Some? && h.users[s].group.Some? {
      hide AllMet, WorksFor, LeaveGroup;
      WorkedApart(h, s, LeaveGroup(h, s));
      ApartMet(h.users, LeaveGroup(h, s).users, s);
    }
  }

  lemma ScanMet(h: Hub, s: Sid, o: Oracle)
    requires AllMet(h.users) && s in h.users
    ensures AllMet(HandleScan(h, s, o).0.users)
  {
    hide AllMet, WorksFor, ScanPackets, QueuedAll;
    var r := HandleScan(h, s, o).0;
    assert AllOnlySentTo(h.users, r.users);
    SentAllSteady(h.users, r.users);
    AllSteadyMet(h.users, r.users);
  }

  lemma ChatMet(h: Hub, s: Sid, message: RawChat)
    requires AllMet(h.users) && s in h.users
    ensures AllMet(HandleChat(h, s, message).0.users)
  {
    hide AllMet, WorksFor, DeliverAll;
    var r := HandleChat(h, s, message).0;
    assert AllOnlySentTo(h.users, r.users);
    SentAllSteady(h.users, r.users);
    AllSteadyMet(h.users, r.users);
  }

  lemma DispatchMet(h: Hub, s: Sid, c: Command, o: Oracle)
    requires Sound(h) && AllMet(h.users) && s in h.users
    ensures AllMet(Dispatch(h, s, c, o).0.users)
  {
    hide Sound, AllMet, WorksFor, HandleLogin, HandleConnect, HandleDisconnect, HandleScan, HandleChat;
    match c
    case Ping =>
    case Login(mac, name, code) => LoginMet(h, s, mac, name, code, o);
    case Connect(group) => ConnectMet(h, s, group);
    case Disconnect => DisconnectMet(h, s);
    case Scan => ScanMet(h, s, o);
    case Chat(message) => ChatMet(h, s, message);
  }

  /** What an accepted command makes of the session that sent it. */
  ghost predicate Becomes(u: User, c: Command, v: User) {
    && v.group == PlaceAfter(u.group, c) && v.reaped == u.reaped && v.commands == u.commands && v.game.Some?
    && (c.Login? <==> u.game.None?)
    && (if c.Login? then v.mac == c.mac && v.name == c.name else v.mac == u.mac && v.name == u.name)
  }

  lemma DispatchBecomes(h: Hub, s: Sid, c: Command, o: Oracle)
    requires s in h.users && h.users[s].game.Some? != c.Login?
    requires Dispatch(h, s, c, o).1
    ensures s in Dispatch(h, s, c, o).0.users && Becomes(h.users[s], c, Dispatch(h, s, c, o).0.users[s])
  {
    DispatchAgrees(h, s, c, o);
    hide Accept, ValidLogin, ValidGroup, OnlySentTo, Posted, WorksFor, HandleLogin, HandleConnect, HandleDisconnect,
      HandleScan, HandleChat, Becomes;
    match c
    case Ping => PingBecomes(h.users[s]);
    case Login(mac, name, code) => LoginBecomes(h, s, mac, name, code, o);
    case Connect(group) => ConnectBecomes(h, s, group);
    case Disconnect => DisconnectBecomes(h, s);
    case Scan => ScanBecomes(h, s, o);
    case Chat(message) => ChatBecomes(h, s, message);
  }

  lemma PingBecomes(u: User)
    requires u.game.Some?
    ensures Becomes(u, Ping, u)
  {
  }

  lemma LoginBecomes(h: Hub, s: Sid, mac: Mac, name: RawNick, code: RawCode, o: Oracle)
    requires s in h.users && h.users[s].game.None?
    ensures var (r, ok) := HandleLogin(h, s, mac, name, code, o);
            s in r.users && (ok ==> Becomes(h.users[s], Login(mac, name, code), r.users[s]))
  {
    hide ValidLogin, OnlySentTo, Posted, WorksFor, GameOrNew;
  }

  lemma ConnectBecomes(h: Hub, s: Sid, raw: RawGroup)
    requires s in h.users && h.users[s].game.Some?
    ensures var (r, ok) := HandleConnect(h, s, raw);
            s in r.users && (ok ==> Becomes(h.users[s], Connect(raw), r.users[s]))
  {
    hide ValidGroup, Introduce, OnlySentTo, Posted, WorksFor, GameOrNew;
  }

  lemma DisconnectBecomes(h: Hub, s: Sid)
    requires s in h.users && h.users[s].game.Some?
    ensures var (r, ok) := HandleDisconnect(h, s);
            s in r.users && (ok ==> Becomes(h.users[s], Disconnect, r.users[s]))
  {
    hide LeaveGroup, OnlySentTo, Posted;
  }

  lemma ScanBecomes(h: Hub, s: Sid, o: Oracle)
    requires s in h.users && h.users[s].game.Some?
    ensures var (r, ok) := HandleScan(h, s, o);
            s in r.users && (ok ==> Becomes(h.users[s], Scan, r.users[s]))
  {
    hide ScanPackets, OnlySentTo, Posted, WorksFor;
  }

  lemma ChatBecomes(h: Hub, s: Sid, message: RawChat)
    requires s in h.users && h.users[s].game.Some?
    ensures var (r, ok) := HandleChat(h, s, message);
            s in r.users && (ok ==> Becomes(h.users[s], Chat(message), r.users[s]))
  {
    hide DeliverAll, OnlySentTo, Posted, WorksFor;
    var us := h.users;
    var players := MembersOrNone(GameOrNew(h, us[s].game.GetOr([])), us[s].group.GetOr([]));
    ChatKeeps(us, players, s, ChatOf(message, us[s].name));
  }

  lemma ChatKeeps(us: map<Sid, User>, players: seq<Sid>, s: Sid, p: Packet)
    requires s in us
    ensures var v := DeliverAll(us, players, Some(s), p);
            s in v && v[s] == us[s].(log := v[s].log, out := v[s].out)
  {
    hide DeliverAll;
    assert OnlySentTo(us[s], DeliverAll(us, players, Some(s), p)[s]);
  }

  lemma CommandedTrue(u: User, c: Command, v: User)
    requires TrueToCommands(u) && !u.reaped && Becomes(u, c, v)
    ensures TrueToCommands(v.(commands := v.commands + [c]))
  {
    assert (u.commands + [c])[..|u.commands|] == u.commands;
    if u.commands != [] { assert (u.commands + [c])[0] == u.commands[0]; }
  }

  // ---- the reader ----------------------------------------------------------------------------------

  /** A session whose command was refused is as it was, but for being closed. */
  lemma RefusedTrue(u: User, v: User)
    requires TrueToCommands(u) && v == u.(closed := v.closed, rx := v.rx, out := v.out)
    ensures TrueToCommands(v)
  {
  }

  lemma LexIsDue(playing: bool, rx: Bytes, c: Command, size: nat)
    requires rx != [] && Lex(playing, rx) == Got(c, size)
    ensures playing != c.Login?
  {
  }

  lemma ObeyIdentity(h: Hub, s: Sid, c: Command, size: nat, o: Oracle)
    requires Sound(h) && AllMet(h.users) && s in h.users && size <= |h.users[s].rx|
    requires TrueToCommands(h.users[s]) && !h.users[s].reaped && h.users[s].game.Some? != c.Login?
    ensures var r := Obey(h, s, c, size, o).0; s in r.users && AllMet(r.users) && TrueToCommands(r.users[s])
  {
    hide Sound, AllMet, Dispatch, TrueToCommands, Becomes, WorksFor, Steady, Accept, Eaten, Execute;
    var u := h.users[s];
    var eaten := PutUser(h, s, Eaten(u, size)).(clock := h.clock + 1);
    var (q, ok) := Dispatch(eaten, s, c, o);
    EatenSound(h, s, size);
    EatenMet(h, s, size);
    DispatchMet(eaten, s, c, o);
    DispatchAgrees(eaten, s, c, o);
    ExecuteIs(PutUser(h, s, Eaten(u, size)), s, c, o);
    EatenTrue(u, size);
    if ok {
      DispatchBecomes(eaten, s, c, o);
      CommandedTrue(Eaten(u, size), c, q.users[s]);
      TouchMet(q, s, q.users[s].(commands := q.users[s].commands + [c]));
    } else {
      RefusedTrue(u, ClosedUser(Eaten(u, size))) by { EatenIs(u, size); }
      TouchMet(q, s, ClosedUser(q.users[s]));
    }
  }

  lemma TouchMet(h: Hub, s: Sid, v: User)
    requires AllMet(h.users) && s in h.users
    requires v == ClosedUser(h.users[s]) || v == h.users[s].(commands := v.commands)
    ensures AllMet(PutUser(h, s, v).users)
  {
    hide AllMet;
    PutSteadyMet(h, s, v);
  }

  lemma EatenSound(h: Hub, s: Sid, size: nat)
    requires Sound(h) && s in h.users && size <= |h.users[s].rx|
    ensures Sound(PutUser(h, s, Eaten(h.users[s], size)).(clock := h.clock + 1))
  {
    hide Sound;
    TouchSound(h, s, Eaten(h.users[s], size));
    TickSound(PutUser(h, s, Eaten(h.users[s], size)));
  }

  lemma EatenMet(h: Hub, s: Sid, size: nat)
    requires AllMet(h.users) && s in h.users && size <= |h.users[s].rx|
    ensures AllMet(PutUser(h, s, Eaten(h.users[s], size)).users)
  {
    hide AllMet;
    PutSteadyMet(h, s, Eaten(h.users[s], size));
  }

  lemma EatenTrue(u: User, size: nat)
    requires TrueToCommands(u) && size <= |u.rx|
    ensures TrueToCommands(Eaten(u, size)) && Eaten(u, size).reaped == u.reaped && Eaten(u, size).game == u.game
  {
  }

  lemma PutSteadyMet(h: Hub, s: Sid, v: User)
    requires AllMet(h.users) && s in h.users && Steady(h.users[s], v)
    ensures AllMet(PutUser(h, s, v).users)
  {
    hide AllMet;
    var vs := h.users[s := v];
    forall t | t in h.users ensures Steady(h.users[t], vs[t]) {}
    AllSteadyMet(h.users, vs);
  }

  lemma {:induction false} DrainIdentity(h: Hub, s: Sid, o: Oracle)
    requires Sound(h) && AllMet(h.users) && s in h.users && TrueToCommands(h.users[s]) && !h.users[s].reaped
    ensures s in Drain(h, s, o).users && AllMet(Drain(h, s, o).users) && TrueToCommands(Drain(h, s, o).users[s])
    decreases |h.users[s].rx|
  {
    var u := h.users[s];
    if u.rx != [] && !u.closed {
      DrainUnfolds(h, s, o);
      hide Obey, Drain, Sound, AllMet, TrueToCommands, Confined, Accept, Lex, SameIntake, OnlySentTo, Posted,
        ClosedUser;
      match Lex(u.game.Some?, u.rx)
      case NeedMore =>
      case Malformed =>
        RefusedTrue(u, ClosedUser(u));
        PutSteadyMet(h, s, ClosedUser(u));
      case Got(c, size) =>
        LexIsDue(u.game.Some?, u.rx, c, size);
        ObeyIdentity(h, s, c, size, o);
        ObeySound(h, s, c, size, o);
        ObeyAgrees(h, s, c, size, o);
        var (r, ok) := Obey(h, s, c, size, o);
        if ok {
          assert r.users[s].reaped == u.reaped by { ConfinedReaped(h, s, r); }
          DrainIdentity(r, s, o);
        }
    }
  }

  lemma ConfinedReaped(h: Hub, s: Sid, r: Hub)
    requires Confined(h, s, r)
    ensures r.users[s].reaped == h.users[s].reaped
  {
  }

  // ---- steps and runs ------------------------------------------------------------------------------

  ghost predicate Identified(h: Hub) { AllMet(h.users) && forall t :: t in h.users ==> TrueToCommands(h.users[t]) }

  lemma SentTrue(u: User, v: User)
    requires OnlySentTo(u, v) && TrueToCommands(u)
    ensures TrueToCommands(v)
  {
  }

  lemma ReapedTrue(u: User, v: User)
    requires TrueToCommands(u) && v == ClosedUser(u).(reaped := true, group := None, game := None)
    ensures TrueToCommands(v)
  {
  }

  /** The end of a reader: its session is nowhere, and nobody else is touched. */
  lemma EndIdentity(h: Hub, s: Sid)
    requires Sound(h) && Identified(h) && s in h.users && !h.users[s].reaped
    ensures Identified(EndReader(h, s))
  {
    EndsAs(h, s);
    var shut, r := Shut(h, s), EndReader(h, s);
    assert WorksFor(shut, s, r) by { hide WorksFor; }
    hide Sound, AllMet, TrueToCommands, EndReader, Reap, OnlySentTo, Steady;
    ReapedTrue(h.users[s], r.users[s]);
    EndApart(h, s, r);
    ApartMet(h.users, r.users, s);
    forall t | t in r.users ensures TrueToCommands(r.users[t]) {
      if t != s { SentTrue(h.users[t], r.users[t]); }
    }
  }

  lemma EndApart(h: Hub, s: Sid, r: Hub)
    requires s in h.users && WorksFor(Shut(h, s), s, r) && r.users[s].group.None?
    ensures Apart(h.users, r.users, s)
    ensures forall t :: t in h.users && t != s ==> OnlySentTo(h.users[t], r.users[t])
  {
    hide Steady, OnlySentTo;
    forall t | t in h.users && t != s ensures OnlySentTo(h.users[t], r.users[t]) && Steady(h.users[t], r.users[t]) {
      assert Shut(h, s).users[t] == h.users[t];
      SentSteady(h.users[t], r.users[t]);
    }
  }

  /** A session's own fields that do not matter here. */
  lemma TouchIdentity(h: Hub, s: Sid, v: User)
    requires Identified(h) && s in h.users && Steady(h.users[s], v)
    requires v.commands == h.users[s].commands && v.reaped == h.users[s].reaped
    ensures Identified(PutUser(h, s, v))
  {
    hide AllMet;
    PutSteadyMet(h, s, v);
  }

  lemma ChunkIdentity(h: Hub, s: Sid, bytes: Bytes, o: Oracle)
    requires Healthy(h) && Identified(h) && Enabled(h, Chunk(s, bytes))
    ensures Identified(Step(h, Chunk(s, bytes), o))
  {
    hide Sound, AllMet, TrueToCommands, Drain, LoopHead, Confined, Step, Gone, Counted, AllFaultless;
    var got := PutUser(h, s, Received(h.users[s], bytes));
    var r := Drain(got, s, o);
    ReceivedKeeps(h, s, bytes);
    TouchIdentity(h, s, Received(h.users[s], bytes));
    DrainSound(got, s, o);
    DrainIdentity(got, s, o);
    DrainReaped(got, s, o);
    DrainedIdentified(got, s, r);
    ChunkIs(h, s, bytes, o);
    LoopHeadIdentity(r, s);
  }

  lemma ChunkIs(h: Hub, s: Sid, bytes: Bytes, o: Oracle)
    requires Enabled(h, Chunk(s, bytes))
    ensures var got := PutUser(h, s, Received(h.users[s], bytes));
            s in got.users && Step(h, Chunk(s, bytes), o) == LoopHead(Drain(got, s, o), s)
  {
    hide Drain, LoopHead, Received;
  }

  lemma LoopHeadIdentity(h: Hub, s: Sid)
    requires Sound(h) && Identified(h) && s in h.users && !h.users[s].reaped
    ensures Identified(LoopHead(h, s))
  {
    hide Sound, Identified, EndReader;
    EndIdentity(h, s);
  }

  lemma DrainReaped(h: Hub, s: Sid, o: Oracle)
    requires s in h.users && !h.users[s].reaped
    ensures Confined(h, s, Drain(h, s, o)) && !Drain(h, s, o).users[s].reaped
  {
    if h.users[s].closed {
      assert Drain(h, s, o) == h;
    } else {
      DrainParses(h, s, o);
      hide Drain, Parse;
      ConfinedReaped(h, s, Drain(h, s, o));
    }
  }

  lemma DrainedIdentified(h: Hub, s: Sid, r: Hub)
    requires Identified(h) && Confined(h, s, r) && AllMet(r.users) && TrueToCommands(r.users[s])
    ensures Identified(r)
  {
    hide AllMet, TrueToCommands, OnlySentTo;
    forall t | t in r.users ensures TrueToCommands(r.users[t]) {
      if t != s { SentTrue(h.users[t], r.users[t]); }
    }
  }

  lemma OpenIdentity(h: Hub, s: Sid, ip: Ip, n: nat)
    requires Identified(h) && s !in h.users
    ensures Identified(h.(users := h.users[s := NewUser(ip)], connections := n))
  {
    var vs := h.users[s := NewUser(ip)];
    hide HasMet;
    forall t, x | t in vs && x in vs && t != x ensures Met(vs[t], vs[x]) {
      if t != s && x != s { assert Met(h.users[t], h.users[x]); }
    }
    assert TrueToCommands(NewUser(ip));
  }

  lemma AnnounceIdentity(h: Hub)
    requires Identified(h)
    ensures Identified(Announce(h))
  {
    AnnounceSent(h);
    hide AllMet, TrueToCommands, Announce, OnlySentTo;
    SentAllSteady(h.users, Announce(h).users);
    AllSteadyMet(h.users, Announce(h).users);
    forall t | t in h.users ensures TrueToCommands(Announce(h).users[t]) {
      SentTrue(h.users[t], Announce(h).users[t]);
    }
  }

  lemma FailIdentity(h: Hub, s: Sid, o: Oracle)
    requires Healthy(h) && Identified(h) && Enabled(h, ReadFailed(s))
    ensures Identified(Step(h, ReadFailed(s), o))
  {
    var v := CutUser(h.users[s]);
    hide Sound, Identified, EndReader, Quiet;
    CutQuiet(h.users[s]);
    TouchSound(h, s, v);
    TouchIdentity(h, s, v);
    EndIdentity(PutUser(h, s, v), s);
  }

  lemma CloseIdentity(h: Hub, s: Sid, o: Oracle)
    requires Identified(h) && Enabled(h, CloseFrom(s))
    ensures Identified(Step(h, CloseFrom(s), o))
  {
    CloseIs(h, s, o);
    hide Identified, Step;
    TouchIdentity(h, s, ClosedUser(CutUser(h.users[s])));
  }

  lemma StepIdentity(h: Hub, e: Event, o: Oracle)
    requires Healthy(h) && Identified(h) && Enabled(h, e)
    ensures Identified(Step(h, e, o))
  {
    hide Healthy, Identified, LoopHead, Drain, EndReader, Announce, Shut, NewUser, Received;
    match e
    case Open(s, ip) => OpenIdentity(h, s, ip, h.connections + 1);
    case Chunk(s, bytes) => ChunkIdentity(h, s, bytes, o);
    case ReadFailed(s) => FailIdentity(h, s, o);
    case CloseFrom(s) => CloseIdentity(h, s, o);
    case WriterRuns(s) => TouchIdentity(h, s, WriterLoop(h.users[s]));
    case Written(s, ok) => TouchIdentity(h, s, WriteDone(h.users[s], ok));
    case Shutdown => AnnounceIdentity(h);
  }

  lemma {:induction false} RunIdentity(h: Hub, turns: seq<Turn>)
    requires Healthy(h) && Identified(h) && Schedulable(h, turns)
    ensures Identified(Run(h, turns))
    decreases |turns|
  {
    if turns != [] {
      hide Healthy, Identified, Step, Enabled, Faithful;
      StepKeeps(h, turns[0].0, turns[0].1);
      StepIdentity(h, turns[0].0, turns[0].1);
      RunIdentity(Step(h, turns[0].0, turns[0].1), turns[1..]);
    }
  }

  lemma ReachableIdentity(h: Hub)
    requires Reachable(h)
    ensures Identified(h)
  {
    var turns :| Schedulable(EMPTY_HUB, turns) && Run(EMPTY_HUB, turns) == h;
    EmptyKeeps();
    assert Identified(EMPTY_HUB);
    hide Healthy, Identified;
    RunIdentity(EMPTY_HUB, turns);
  }

  // ---- theorems ------------------------------------------------------------------------------------

  /** A session that has not ended is where its accepted commands brought it, under the name and the
      hardware address of its login; so, until something else closes it, where the bytes it sent say. */
  lemma BytesDecideThePlace(h: Hub, s: Sid)
    requires Reachable(h) && s in h.users && !h.users[s].reaped
    ensures var u, cs := h.users[s], h.users[s].commands;
            && u.group == PlaceOf(cs)
            && (u.game.Some? <==> cs != [])
            && (cs != [] ==> cs[0].Login? && cs[0].mac == u.mac && cs[0].name == u.name)
            && (!u.cut ==> cs == Parse(START, u.input).commands)
  {
    ReachableIdentity(h);
    ReaderRefinesParse(h, s);
    assert TrueToCommands(h.users[s]);
  }

  /** An open member has been told about every other member, name and both addresses, since it joined. */
  lemma EveryMemberWasIntroduced(h: Hub, g: Bytes, k: Bytes, t: Sid, x: Sid)
    requires Reachable(h) && g in h.games && k in h.games[g].groups
    requires t in h.games[g].groups[k] && x in h.games[g].groups[k] && t != x
    ensures t in h.users && x in h.users && h.users[t].logAtJoin <= |h.users[t].log|
    ensures !h.users[t].closed ==>
              ConnectPkt(h.users[x].name, h.users[x].mac, h.users[x].ip) in h.users[t].log[h.users[t].logAtJoin..]
  {
    ReachableIdentity(h);
    ReachableKeeps(h);
    assert PlayersOf(h.users, g, k, h.games[g].groups[k]);
    LogsLong(h);
    assert Met(h.users[t], h.users[x]);
  }
}
