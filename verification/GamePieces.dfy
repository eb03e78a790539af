/** How reads cut a client's bytes makes no difference to anybody.

Two reads, one after the other, leave the whole hub as one read of the same bytes does. So what the
theorems about single commands say holds for whatever a read brings.
*/
module GamePieces {
  import opened Bytes
  import opened SessionNames
  import opened Packets
  import opened GameModel
  import opened GameInvariant
  import opened GameViews
  import opened GameHandlers
  import opened GameReader
  import opened GameRuns
  import opened GameTheorems
  import opened GameCommands
  import GameEnds

  // ---- bytes that are not looked at --------------------------------------------------------------

  /** The users, with more bytes in the buffer of `s`. */
  ghost function Fed(us: map<Sid, User>, s: Sid, more: Bytes): map<Sid, User>
    requires s in us
  {
    us[s := Received(us[s], more)]
  }

  ghost function FedHub(h: Hub, s: Sid, more: Bytes): Hub
    requires s in h.users
  {
    h.(users := Fed(h.users, s, more))
  }

  lemma DeliverFed(us: map<Sid, User>, t: Sid, p: Packet, s: Sid, more: Bytes)
    requires s in us
    ensures s in Deliver(us, t, p) && Deliver(Fed(us, s, more), t, p) == Fed(Deliver(us, t, p), s, more)
  {
    hide Queued, Received, OnlySentTo;
    if t == s {
      QueuedFed(us[s], p, more);
      SameKey(us, s, Received(us[s], more), Queued(us[s], p), Received(Queued(us[s], p), more));
    } else if t in us {
      OtherKey(us, s, Received(us[s], more), t, Queued(us[t], p));
    }
  }

  lemma SameKey(us: map<Sid, User>, s: Sid, a: User, b: User, c: User)
    ensures us[s := a][s := c] == us[s := b][s := c]
  {
  }

  lemma OtherKey(us: map<Sid, User>, s: Sid, a: User, t: Sid, b: User)
    requires s != t
    ensures us[s := a][t := b] == us[t := b][s := a]
  {
  }

  lemma QueuedFed(u: User, p: Packet, more: Bytes)
    ensures Queued(Received(u, more), p) == Received(Queued(u, p), more)
  {
  }

  lemma {:induction false} DeliverAllFed(us: map<Sid, User>, to: seq<Sid>, skip: Option<Sid>, p: Packet, s: Sid, more: Bytes)
    requires s in us
    ensures s in DeliverAll(us, to, skip, p)
    ensures DeliverAll(Fed(us, s, more), to, skip, p) == Fed(DeliverAll(us, to, skip, p), s, more)
    decreases |to|
  {
    hide Fed, Deliver, OnlySentTo;
    if to != [] {
      DeliverFed(us, to[0], p, s, more);
      var one := if skip == Some(to[0]) then us else Deliver(us, to[0], p);
      DeliverAllFed(one, to[1..], skip, p, s, more);
    }
  }

  lemma FedLooks(us: map<Sid, User>, s: Sid, more: Bytes)
    requires s in us
    ensures var vs := Fed(us, s, more);
            && vs.Keys == us.Keys && (forall t :: t in us && t != s ==> vs[t] == us[t])
            && vs[s] == Received(us[s], more) && s in vs
  {
  }

  lemma ReceivedSame(u: User, more: Bytes)
    ensures var v := Received(u, more);
            && ConnectOf(v) == ConnectOf(u) && v.mac == u.mac && v.log == u.log && v.game == u.game && v.group == u.group
            && v.closed == u.closed && v.reaped == u.reaped && v.ip == u.ip && v.name == u.name && v.commands == u.commands
            && v.out == u.out
  {
  }

  lemma ConnectOfFed(us: map<Sid, User>, s: Sid, more: Bytes, t: Sid)
    requires s in us && t in us
    ensures t in Fed(us, s, more) && ConnectOf(Fed(us, s, more)[t]) == ConnectOf(us[t])
  {
  }

  lemma GreetOneFed(us: map<Sid, User>, s: Sid, m: Sid, more: Bytes)
    requires s in us
    ensures s in Fed(us, s, more) && s in GreetOne(us, s, m)
    ensures GreetOne(Fed(us, s, more), s, m) == Fed(GreetOne(us, s, m), s, more)
  {
    FedLooks(us, s, more);
    ConnectOfFed(us, s, more, s);
    if m in us {
      ConnectOfFed(us, s, more, m);
      hide Fed, Deliver, OnlySentTo, ConnectOf;
      DeliverFed(us, m, ConnectOf(us[s]), s, more);
      DeliverFed(Deliver(us, m, ConnectOf(us[s])), s, ConnectOf(us[m]), s, more);
    }
  }

  lemma {:induction false} GreetFed(us: map<Sid, User>, s: Sid, members: seq<Sid>, more: Bytes)
    requires s in us
    ensures s in Fed(us, s, more) && s in Greet(us, s, members)
    ensures Greet(Fed(us, s, more), s, members) == Fed(Greet(us, s, members), s, more)
    decreases |members|
  {
    FedLooks(us, s, more);
    hide Fed, GreetOne, OnlySentTo;
    if members != [] {
      GreetOneFed(us, s, members[0], more);
      GreetFed(GreetOne(us, s, members[0]), s, members[1..], more);
    }
  }

  lemma PutFed(us: map<Sid, User>, s: Sid, more: Bytes, v: User)
    requires s in us
    ensures Fed(us, s, more)[s := Received(v, more)] == Fed(us[s := v], s, more)
  {
  }

  lemma JoinFields(u: User, more: Bytes, k: Bytes, now: nat)
    ensures Received(u, more).(logAtJoin := |u.log|, joinedAt := now)
         == Received(u.(logAtJoin := |u.log|, joinedAt := now), more)
    ensures Received(u, more).(group := Some(k)) == Received(u.(group := Some(k)), more)
    ensures Received(u, more).log == u.log
  {
  }

  lemma MacFed(us: map<Sid, User>, s: Sid, more: Bytes, t: Sid)
    requires s in us
    ensures t in Fed(us, s, more) <==> t in us
    ensures t in us ==> Fed(us, s, more)[t].mac == us[t].mac
  {
  }

  lemma IntroduceFed(us: map<Sid, User>, s: Sid, members: seq<Sid>, key: Bytes, now: nat, more: Bytes)
    requires s in us
    ensures s in Fed(us, s, more) && s in Introduce(us, s, members, key, now)
    ensures Introduce(Fed(us, s, more), s, members, key, now) == Fed(Introduce(us, s, members, key, now), s, more)
  {
    FedLooks(us, s, more);
    JoinFields(us[s], more, key, now);
    var v := us[s].(logAtJoin := |us[s].log|, joinedAt := now);
    var ready := us[s := v];
    PutFed(us, s, more, v);
    GreetFed(ready, s, members, more);
    var greeted := Greet(ready, s, members);
    FedLooks(greeted, s, more);
    JoinFields(greeted[s], more, key, now);
    PutFed(greeted, s, more, greeted[s].(group := Some(key)));
    var joined := greeted[s := greeted[s].(group := Some(key))];
    var front := (members + [s])[0];
    MacFed(joined, s, more, front);
    MacFed(us, s, more, s);
    hide Fed, Greet, Deliver, OnlySentTo, Posted, Received;
    DeliverFed(joined, s, BssidPkt(if front in joined then joined[front].mac else us[s].mac), s, more);
  }

  // ---- handlers ----------------------------------------------------------------------------------

  /** What is done with more bytes in the buffer is what is done without, and the bytes stay there. */
  ghost predicate Alike(s: Sid, more: Bytes, r: (Hub, bool), q: (Hub, bool)) {
    s in r.0.users && q == (FedHub(r.0, s, more), r.1)
  }

  lemma FedUser(h: Hub, s: Sid, more: Bytes)
    requires s in h.users
    ensures var x := FedHub(h, s, more);
            && s in x.users && x.games == h.games && x.clock == h.clock && x.connections == h.connections
            && x.shutdown == h.shutdown && x.users == Fed(h.users, s, more) && x.users[s] == Received(h.users[s], more)
  {
  }

  lemma LoginFed(h: Hub, s: Sid, mac: Mac, name: RawNick, code: RawCode, o: Oracle, more: Bytes)
    requires s in h.users
    ensures Alike(s, more, HandleLogin(h, s, mac, name, code, o), HandleLogin(FedHub(h, s, more), s, mac, name, code, o))
  {
    hide ValidLogin, WorksFor, GameOrNew;
    var g := UpToNul(o.link(h.clock, code));
    PutFed(h.users, s, more, h.users[s].(mac := mac, name := name, game := Some(g)));
    SameGameOrNew(h, FedHub(h, s, more), g);
  }

  lemma SameGameOrNew(h: Hub, x: Hub, g: Bytes)
    requires x.games == h.games
    ensures GameOrNew(x, g) == GameOrNew(h, g)
  {
  }

  lemma ConnectFed(h: Hub, s: Sid, raw: RawGroup, more: Bytes)
    requires s in h.users
    ensures Alike(s, more, HandleConnect(h, s, raw), HandleConnect(FedHub(h, s, more), s, raw))
  {
    hide ValidGroup, WorksFor, GameOrNew, Introduce, Fed, Received, MembersOrNone, PutGroup, UpToNul, OnlySentTo;
    FedUser(h, s, more);
    ReceivedSame(h.users[s], more);
    if h.users[s].game.Some? && h.users[s].group.None? && ValidGroup(raw) {
      var g, k := h.users[s].game.value, UpToNul(raw);
      SameGameOrNew(h, FedHub(h, s, more), g);
      IntroduceFed(h.users, s, MembersOrNone(GameOrNew(h, g), k), k, h.clock, more);
    }
  }

  lemma LeaveFed(h: Hub, s: Sid, more: Bytes)
    requires s in h.users
    ensures s in LeaveGroup(h, s).users
    ensures LeaveGroup(FedHub(h, s, more), s) == FedHub(LeaveGroup(h, s), s, more)
  {
    FedUser(h, s, more);
    ReceivedSame(h.users[s], more);
    var u := h.users[s];
    LeftFields(u, more);
    PutFed(h.users, s, more, u.(group := None));
    hide WorksFor, Fed, Received, MembersOrNone, PutGroup, RemoveFirst, DeliverAll;
    var alone := h.users[s := u.(group := None)];
    if u.group.Some? && u.game.Some? && u.game.value in h.games {
      var rest := RemoveFirst(MembersOrNone(h.games[u.game.value], u.group.value), s);
      DeliverAllFed(alone, rest, None, DisconnectPkt(u.ip), s, more);
    }
  }

  lemma LeftFields(u: User, more: Bytes)
    ensures Received(u, more).(group := None) == Received(u.(group := None), more)
    ensures Received(u, more).(game := None) == Received(u.(game := None), more)
    ensures Received(u, more).(reaped := true) == Received(u.(reaped := true), more)
  {
  }

  lemma DisconnectFed(h: Hub, s: Sid, more: Bytes)
    requires s in h.users
    ensures Alike(s, more, HandleDisconnect(h, s), HandleDisconnect(FedHub(h, s, more), s))
  {
    FedUser(h, s, more);
    ReceivedSame(h.users[s], more);
    hide WorksFor, Fed, Received, LeaveGroup, FedHub;
    LeaveFed(h, s, more);
  }

  lemma {:induction false} ScanPacketsFed(h: Hub, game: Game, own: Mac, ks: seq<Bytes>, s: Sid, more: Bytes)
    requires s in h.users
    ensures ScanPackets(FedHub(h, s, more), game, own, ks) == ScanPackets(h, game, own, ks)
  {
    if ks != [] {
      ScanPacketsFed(h, game, own, ks[1..], s, more);
      var players := MembersOrNone(game, ks[0]);
      if players != [] { MacFed(h.users, s, more, players[0]); }
    }
  }

  lemma QueuedAllFed(u: User, ps: seq<Packet>, more: Bytes)
    ensures QueuedAll(Received(u, more), ps) == Received(QueuedAll(u, ps), more)
  {
  }

  lemma ScanFed(h: Hub, s: Sid, o: Oracle, more: Bytes)
    requires s in h.users
    ensures Alike(s, more, HandleScan(h, s, o), HandleScan(FedHub(h, s, more), s, o))
  {
    var x := FedHub(h, s, more);
    FedUser(h, s, more);
    ReceivedSame(h.users[s], more);
    hide WorksFor, Fed, Received, GameOrNew, QueuedAll, ScanPackets;
    if h.users[s].game.Some? {
      var g := h.users[s].game.value;
      SameGameOrNew(h, x, g);
      var game := GameOrNew(h, g);
      var ks := o.order(h.clock, game.groups.Keys);
      ScanPacketsFed(h, game, h.users[s].mac, ks, s, more);
      var ps := ScanPackets(h, game, h.users[s].mac, ks) + [ScanComplete];
      QueuedAllFed(h.users[s], ps, more);
      PutFed(h.users, s, more, QueuedAll(h.users[s], ps));
    }
  }

  lemma ChatFed(h: Hub, s: Sid, message: RawChat, more: Bytes)
    requires s in h.users
    ensures Alike(s, more, HandleChat(h, s, message), HandleChat(FedHub(h, s, more), s, message))
  {
    FedUser(h, s, more);
    ReceivedSame(h.users[s], more);
    hide WorksFor, Fed, Received, GameOrNew, MembersOrNone, DeliverAll, ChatOf;
    if h.users[s].game.Some? && h.users[s].group.Some? {
      SameGameOrNew(h, FedHub(h, s, more), h.users[s].game.value);
      var players := MembersOrNone(GameOrNew(h, h.users[s].game.value), h.users[s].group.value);
      DeliverAllFed(h.users, players, Some(s), ChatOf(message, h.users[s].name), s, more);
    }
  }

  lemma DispatchFed(h: Hub, s: Sid, c: Command, o: Oracle, more: Bytes)
    requires s in h.users
    ensures s in FedHub(h, s, more).users
    ensures Alike(s, more, Dispatch(h, s, c, o), Dispatch(FedHub(h, s, more), s, c, o))
  {
    FedUser(h, s, more);
    hide WorksFor, HandleLogin, HandleConnect, HandleDisconnect, HandleScan, HandleChat, Fed, Received;
    match c
    case Ping =>
    case Login(mac, name, code) => LoginFed(h, s, mac, name, code, o, more);
    case Connect(group) => ConnectFed(h, s, group, more);
    case Disconnect => DisconnectFed(h, s, more);
    case Scan => ScanFed(h, s, o, more);
    case Chat(message) => ChatFed(h, s, message, more);
  }

  // ---- the reader --------------------------------------------------------------------------------

  lemma EatenFed(u: User, size: nat, more: Bytes)
    requires size <= |u.rx|
    ensures size <= |Received(u, more).rx| && Eaten(Received(u, more), size) == Received(Eaten(u, size), more)
  {
    assert (u.rx + more)[size..] == u.rx[size..] + more;
  }

  lemma NotedFed(u: User, c: Command, more: Bytes)
    ensures Received(u, more).(commands := u.commands + [c]) == Received(u.(commands := u.commands + [c]), more)
    ensures Received(u, more).commands == u.commands
    ensures ClosedUser(Received(u, more)) == Received(ClosedUser(u), more)
  {
  }

  lemma ObeyFed(h: Hub, s: Sid, c: Command, size: nat, o: Oracle, more: Bytes)
    requires s in h.users && size <= |h.users[s].rx|
    ensures s in FedHub(h, s, more).users && size <= |FedHub(h, s, more).users[s].rx|
    ensures Alike(s, more, Obey(h, s, c, size, o), Obey(FedHub(h, s, more), s, c, size, o))
  {
    var u, x := h.users[s], FedHub(h, s, more);
    FedUser(h, s, more);
    EatenFed(u, size, more);
    PutFed(h.users, s, more, Eaten(u, size));
    var eaten := PutUser(h, s, Eaten(u, size)).(clock := h.clock + 1);
    ObeyIs(h, s, c, size, o);
    ObeyIs(x, s, c, size, o);
    DispatchFed(eaten, s, c, o, more);
    var (r, ok) := Dispatch(eaten, s, c, o);
    assert PutUser(x, s, Eaten(x.users[s], size)).(clock := x.clock + 1) == FedHub(eaten, s, more);
    hide Dispatch, Obey, Eaten, Received, ClosedUser, WorksFor;
    NotedFed(r.users[s], c, more);
    FedUser(r, s, more);
    PutFed(r.users, s, more, r.users[s].(commands := r.users[s].commands + [c]));
    PutFed(r.users, s, more, ClosedUser(r.users[s]));
  }

  lemma ShutFed(h: Hub, s: Sid, more: Bytes)
    requires s in h.users
    ensures s in FedHub(h, s, more).users && s in Shut(h, s).users
    ensures Shut(FedHub(h, s, more), s) == FedHub(Shut(h, s), s, more)
  {
    FedUser(h, s, more);
    NotedFed(h.users[s], Ping, more);
    PutFed(h.users, s, more, ClosedUser(h.users[s]));
    hide ClosedUser, Received;
  }

  lemma LexFed(u: User, more: Bytes)
    requires u.rx != []
    ensures Received(u, more).rx != [] && Received(u, more).game == u.game && Received(u, more).closed == u.closed
    ensures !Lex(u.game.Some?, u.rx).NeedMore? ==> Lex(u.game.Some?, Received(u, more).rx) == Lex(u.game.Some?, u.rx)
  {
    if !Lex(u.game.Some?, u.rx).NeedMore? { LexIsStable(u.game.Some?, u.rx, more); }
  }

  /** The inner loop with more bytes behind: if the session is closed on the way they stay where they are, and
      otherwise the loop goes on with them when it is done with the others. */
  ghost predicate GoesOn(s: Sid, o: Oracle, more: Bytes, d: Hub, e: Hub) {
    s in d.users && s in FedHub(d, s, more).users
    && e == if d.users[s].closed then FedHub(d, s, more) else Drain(FedHub(d, s, more), s, o)
  }

  lemma GoesOnHere(h: Hub, s: Sid, o: Oracle, more: Bytes)
    requires s in h.users
    ensures s in FedHub(h, s, more).users && GoesOn(s, o, more, h, Drain(FedHub(h, s, more), s, o))
  {
    FedUser(h, s, more);
    ReceivedSame(h.users[s], more);
    hide Drain, Received, Fed;
    if h.users[s].closed { DrainClosed(FedHub(h, s, more), s, o); }
  }

  lemma MalformedFed(h: Hub, s: Sid, o: Oracle, more: Bytes)
    requires s in h.users && h.users[s].rx != [] && !h.users[s].closed && Lex(h.users[s].game.Some?, h.users[s].rx).Malformed?
    ensures s in FedHub(h, s, more).users && GoesOn(s, o, more, Drain(h, s, o), Drain(FedHub(h, s, more), s, o))
  {
    FedUser(h, s, more);
    LexFed(h.users[s], more);
    DrainUnfolds(h, s, o);
    DrainUnfolds(FedHub(h, s, more), s, o);
    ShutFed(h, s, more);
    FedUser(Shut(h, s), s, more);
    ShutIsClosed(h, s);
    hide Drain, Received, Fed, Lex, Shut;
  }

  lemma ShutIsClosed(h: Hub, s: Sid)
    requires s in h.users
    ensures s in Shut(h, s).users && Shut(h, s).users[s].closed
  {
  }

  lemma NoMore(h: Hub, s: Sid, o: Oracle)
    requires s in h.users && (h.users[s].closed || h.users[s].rx == [] || Lex(h.users[s].game.Some?, h.users[s].rx).NeedMore?)
    ensures Drain(h, s, o) == h
  {
    hide Lex, Obey;
  }

  lemma {:induction false} DrainFed(h: Hub, s: Sid, o: Oracle, more: Bytes)
    requires s in h.users
    ensures s in FedHub(h, s, more).users && GoesOn(s, o, more, Drain(h, s, o), Drain(FedHub(h, s, more), s, o))
    decreases |h.users[s].rx|
  {
    var u := h.users[s];
    if u.closed || u.rx == [] || Lex(u.game.Some?, u.rx).NeedMore? {
      NoMore(h, s, o);
      hide *;
      GoesOnHere(h, s, o, more);
    } else if Lex(u.game.Some?, u.rx).Malformed? {
      hide *;
      MalformedFed(h, s, o, more);
    } else {
      var l := Lex(u.game.Some?, u.rx);
      var (r, ok) := Obey(h, s, l.cmd, l.size, o);
      FedUser(h, s, more);
      LexFed(u, more);
      ObeyFed(h, s, l.cmd, l.size, o, more);
      DrainUnfolds(h, s, o);
      DrainUnfolds(FedHub(h, s, more), s, o);
      ObeyShrinks(h, s, l.cmd, l.size, o);
      hide *;
      AlikeIs(s, more, Obey(h, s, l.cmd, l.size, o), Obey(FedHub(h, s, more), s, l.cmd, l.size, o));
      if ok {
        DrainFed(r, s, o, more);
      } else {
        RefusedGoesOn(r, s, o, more);
      }
    }
  }

  lemma AlikeIs(s: Sid, more: Bytes, r: (Hub, bool), q: (Hub, bool))
    requires Alike(s, more, r, q)
    ensures s in r.0.users && q.0 == FedHub(r.0, s, more) && q.1 == r.1
  {
  }

  lemma ObeyShrinks(h: Hub, s: Sid, c: Command, size: nat, o: Oracle)
    requires s in h.users && 0 < size <= |h.users[s].rx| && !h.users[s].closed
    ensures var (r, ok) := Obey(h, s, c, size, o);
            s in r.users && |r.users[s].rx| < |h.users[s].rx| && (!ok ==> r.users[s].closed)
  {
    ObeyAgrees(h, s, c, size, o);
    hide Obey, Accept, OnlySentTo;
  }

  lemma RefusedGoesOn(r: Hub, s: Sid, o: Oracle, more: Bytes)
    requires s in r.users && r.users[s].closed
    ensures GoesOn(s, o, more, r, FedHub(r, s, more))
  {
    FedUser(r, s, more);
    hide Drain;
  }

  // ---- the end -----------------------------------------------------------------------------------

  lemma QuitFed(h: Hub, s: Sid, more: Bytes)
    requires s in h.users
    ensures s in QuitGame(h, s).users
    ensures QuitGame(FedHub(h, s, more), s) == FedHub(QuitGame(h, s), s, more)
  {
    FedUser(h, s, more);
    LeftFields(h.users[s], more);
    ReceivedSame(h.users[s], more);
    PutFed(h.users, s, more, h.users[s].(game := None));
    hide WorksFor, Fed, Received, RemoveFirst;
  }

  lemma MarkFed(h: Hub, s: Sid, more: Bytes)
    requires s in h.users
    ensures s in FedHub(h, s, more).users
    ensures var m := PutUser(h, s, h.users[s].(reaped := true));
            s in m.users
            && PutUser(FedHub(h, s, more), s, FedHub(h, s, more).users[s].(reaped := true)) == FedHub(m, s, more)
  {
    hide Received;
    LeftFields(h.users[s], more);
    PutFed(h.users, s, more, h.users[s].(reaped := true));
  }

  lemma CountFed(h: Hub, s: Sid, more: Bytes, n: nat)
    requires s in h.users
    ensures FedHub(h, s, more).(connections := n) == FedHub(h.(connections := n), s, more)
    ensures FedHub(h, s, more).connections == h.connections
  {
  }

  lemma ReapFed(h: Hub, s: Sid, more: Bytes)
    requires s in h.users
    ensures s in Reap(h, s).users && s in FedHub(h, s, more).users
    ensures Reap(FedHub(h, s, more), s) == FedHub(Reap(h, s), s, more)
  {
    hide WorksFor, Fed, Received, LeaveGroup, QuitGame, FedHub, PutUser, Reap;
    FedUser(h, s, more);
    ReceivedSame(h.users[s], more);
    if h.users[s].reaped {
      ReapedStays(h, s);
      ReapedStays(FedHub(h, s, more), s);
    } else {
      var marked := PutUser(h, s, h.users[s].(reaped := true));
      MarkFed(h, s, more);
      LeaveFed(marked, s, more);
      QuitFed(LeaveGroup(marked, s), s, more);
      var q := QuitGame(LeaveGroup(marked, s), s);
      CountFed(q, s, more, if q.connections != 0 then q.connections - 1 else 0);
      GameEnds.ReapIs(h, s);
      GameEnds.ReapIs(FedHub(h, s, more), s);
    }
  }

  lemma ReapedStays(h: Hub, s: Sid)
    requires s in h.users && h.users[s].reaped
    ensures Reap(h, s) == h
  {
    hide WorksFor;
  }

  lemma EndFed(h: Hub, s: Sid, more: Bytes)
    requires s in h.users
    ensures s in EndReader(h, s).users && s in FedHub(h, s, more).users
    ensures EndReader(FedHub(h, s, more), s) == FedHub(EndReader(h, s), s, more)
  {
    hide Reap, FedHub, Shut;
    ShutFed(h, s, more);
    ReapFed(Shut(h, s), s, more);
  }

  // ---- two reads ---------------------------------------------------------------------------------

  lemma FedTwice(h: Hub, s: Sid, a: Bytes, b: Bytes)
    requires s in h.users
    ensures s in FedHub(h, s, a).users && FedHub(FedHub(h, s, a), s, b) == FedHub(h, s, a + b)
  {
    FedUser(h, s, a);
    var u := h.users[s];
    assert u.rx + (a + b) == (u.rx + a) + b && u.input + (a + b) == (u.input + a) + b;
    assert h.users[s := Received(u, a)][s := Received(Received(u, a), b)] == h.users[s := Received(u, a + b)];
  }

  lemma ChunkFeeds(h: Hub, s: Sid, bytes: Bytes, o: Oracle)
    requires Enabled(h, Chunk(s, bytes))
    ensures s in h.users && s in FedHub(h, s, bytes).users
    ensures s in Drain(FedHub(h, s, bytes), s, o).users
    ensures Step(h, Chunk(s, bytes), o) == LoopHead(Drain(FedHub(h, s, bytes), s, o), s)
  {
    ChunkIs(h, s, bytes, o);
    hide LoopHead, Drain, Received;
  }

  lemma {:induction false} DrainShortens(h: Hub, s: Sid, o: Oracle)
    requires s in h.users
    ensures s in Drain(h, s, o).users && |Drain(h, s, o).users[s].rx| <= |h.users[s].rx|
    decreases |h.users[s].rx|
  {
    var u := h.users[s];
    if u.closed || u.rx == [] || Lex(u.game.Some?, u.rx).NeedMore? {
      NoMore(h, s, o);
    } else {
      DrainUnfolds(h, s, o);
      var l := Lex(u.game.Some?, u.rx);
      if l.Got? {
        ObeyShrinks(h, s, l.cmd, l.size, o);
        hide Obey, Lex, Drain;
        var (r, ok) := Obey(h, s, l.cmd, l.size, o);
        if ok { DrainShortens(r, s, o); }
      } else {
        hide Obey, Lex, Drain;
      }
    }
  }

  lemma ClosedHead(h: Hub, s: Sid)
    requires s in h.users && h.users[s].closed
    ensures LoopHead(h, s) == EndReader(h, s)
  {
    hide EndReader;
  }

  lemma FitsToo(h: Hub, s: Sid, a: Bytes, b: Bytes)
    requires Enabled(h, Chunk(s, a + b)) && a != [] && b != []
    ensures Enabled(h, Chunk(s, a)) && s in h.users && |h.users[s].rx| + |a| + |b| <= RX_SIZE
  {
  }

  lemma ReadyForMore(d: Hub, s: Sid, b: Bytes)
    requires s in d.users && !d.users[s].reaped && |d.users[s].rx| + |b| <= RX_SIZE && b != []
    ensures Enabled(d, Chunk(s, b))
  {
  }

  lemma OpenIsUnreaped(h: Hub, s: Sid)
    requires Healthy(h) && s in h.users && !h.users[s].closed
    ensures !h.users[s].reaped
  {
    OpenAndIn(h, s);
    hide Healthy, Sound;
  }

  lemma FedRx(h: Hub, s: Sid, a: Bytes)
    requires s in h.users
    ensures s in FedHub(h, s, a).users && |FedHub(h, s, a).users[s].rx| == |h.users[s].rx| + |a|
  {
  }

  lemma HeadOpen(h: Hub, s: Sid, a: Bytes, o: Oracle)
    requires Reachable(h) && Enabled(h, Chunk(s, a)) && s in h.users && s in FedHub(h, s, a).users
    ensures var d := Drain(FedHub(h, s, a), s, o);
            s in d.users && LoopHead(d, s) == if d.users[s].closed then EndReader(d, s) else d
  {
    BufferIsNeverFull(h, s, a, o);
    hide Drain, EndReader, LoopHead, Reachable, Received;
  }

  /** A session is open after a step exactly if the loop left it open. */
  lemma EndCloses(d: Hub, s: Sid)
    requires s in d.users
    ensures s in EndReader(d, s).users && EndReader(d, s).users[s].closed
  {
    hide Reap, Posted;
    assert WorksFor(Shut(d, s), s, EndReader(d, s));
  }

  /** Two reads, one after the other, leave the hub as one read of the same bytes does: the clients, the games
      and groups, every packet that anybody is sent. If the first of them ends the session, the bytes of the
      second are not looked at. */
  lemma ReadsCompose(h: Hub, s: Sid, a: Bytes, b: Bytes, o: Oracle)
    requires Reachable(h) && Enabled(h, Chunk(s, a + b)) && a != [] && b != []
    ensures Enabled(h, Chunk(s, a)) && s in Step(h, Chunk(s, a), o).users
    ensures var d := Step(h, Chunk(s, a), o);
            if d.users[s].closed then Step(h, Chunk(s, a + b), o) == PutUser(d, s, Received(d.users[s], b))
            else Enabled(d, Chunk(s, b)) && Step(h, Chunk(s, a + b), o) == Step(d, Chunk(s, b), o)
  {
    hide *;
    FitsToo(h, s, a, b);
    ChunkFeeds(h, s, a, o);
    ChunkFeeds(h, s, a + b, o);
    FedTwice(h, s, a, b);
    HeadOpen(h, s, a, o);
    var x := FedHub(h, s, a);
    var d := Drain(x, s, o);
    DrainFed(x, s, o, b);
    if d.users[s].closed {
      EndCloses(d, s);
      ClosedAfter(d, s, o, b, Drain(FedHub(x, s, b), s, o));
    } else {
      ReachableKeeps(h);
      StepKeeps(h, Chunk(s, a), o);
      OpenIsUnreaped(d, s);
      DrainShortens(x, s, o);
      FedRx(h, s, a);
      RxSize();
      ReadyForMore(d, s, b);
      ChunkFeeds(d, s, b, o);
      OpenAfter(d, s, o, b, Drain(FedHub(x, s, b), s, o));
    }
  }

  lemma RxSize()
    ensures RX_SIZE == 1024
  {
  }

  lemma ClosedAfter(d: Hub, s: Sid, o: Oracle, b: Bytes, e: Hub)
    requires s in d.users && d.users[s].closed && GoesOn(s, o, b, d, e)
    ensures s in e.users && s in EndReader(d, s).users
    ensures LoopHead(e, s) == PutUser(EndReader(d, s), s, Received(EndReader(d, s).users[s], b))
  {
    FedUser(d, s, b);
    EndFed(d, s, b);
    hide EndReader, LoopHead, Received, Drain;
    ClosedHead(e, s) by { ReceivedSame(d.users[s], b); }
  }

  lemma OpenAfter(d: Hub, s: Sid, o: Oracle, b: Bytes, e: Hub)
    requires s in d.users && !d.users[s].closed && GoesOn(s, o, b, d, e) && s in FedHub(d, s, b).users
    ensures e == Drain(FedHub(d, s, b), s, o)
  {
    hide Drain;
  }
}
