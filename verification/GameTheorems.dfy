/** What holds of the game hub in every reachable state. */
module GameTheorems {
  import opened Bytes
  import opened SessionNames
  import opened Packets
  import opened GameModel
  import opened GameInvariant
  import opened GameGraph
  import opened GameViews
  import opened GameHandlers
  import opened GameReader
  import opened GameRuns

  // ---- the graph -----------------------------------------------------------------------------

  lemma {:induction false} CountOnce(v: seq<Sid>, t: Sid)
    requires NoDup(v)
    ensures multiset(v)[t] == if t in v then 1 else 0
  {
    if v != [] {
      hide NoDup;
      assert v == [v[0]] + v[1..];
      NoDupCons(v[0], v[1..]);
      CountOnce(v[1..], t);
    }
  }

  /** Once on the list of its game, nowhere else. */
  lemma UsersExactlyOnce(h: Hub, g: Bytes, t: Sid)
    requires Reachable(h) && g in h.games
    ensures multiset(h.games[g].users)[t] == if t in h.users && h.users[t].game == Some(g) then 1 else 0
  {
    ReachableKeeps(h);
    assert GameOk(h.games[g]) && UsersOf(h.users, g, h.games[g].users);
    CountOnce(h.games[g].users, t);
  }

  /** Once on the list of its group, nowhere else; and never without being on the game's. */
  lemma PlayersExactlyOnce(h: Hub, g: Bytes, k: Bytes, t: Sid)
    requires Reachable(h) && g in h.games && k in h.games[g].groups
    ensures multiset(h.games[g].groups[k])[t]
         == if t in h.users && h.users[t].game == Some(g) && h.users[t].group == Some(k) then 1 else 0
    ensures multiset(h.games[g].groups[k]) <= multiset(h.games[g].users)
  {
    ReachableKeeps(h);
    assert GameOk(h.games[g]) && PlayersOf(h.users, g, k, h.games[g].groups[k]);
    CountOnce(h.games[g].groups[k], t);
    forall x ensures multiset(h.games[g].groups[k])[x] <= multiset(h.games[g].users)[x] {
      CountOnce(h.games[g].groups[k], x);
      UsersExactlyOnce(h, g, x);
    }
  }

  /** Nothing empty is kept, every pointer is to something that exists, a reaped session is nowhere. */
  lemma NothingDangles(h: Hub)
    requires Reachable(h)
    ensures forall g :: g in h.games ==> h.games[g].users != []
    ensures forall g, k :: g in h.games && k in h.games[g].groups ==> h.games[g].groups[k] != [] && ValidKey(k)
    ensures forall t :: t in h.users && h.users[t].game.Some? ==> h.users[t].game.value in h.games
    ensures forall t :: t in h.users && h.users[t].group.Some? ==>
              h.users[t].game.Some? && h.users[t].group.value in h.games[h.users[t].game.value].groups
    ensures forall t, g :: t in h.users && h.users[t].reaped && g in h.games ==> t !in h.games[g].users
    ensures forall t, g, k :: t in h.users && h.users[t].reaped && g in h.games && k in h.games[g].groups ==>
              t !in h.games[g].groups[k]
  {
    ReachableKeeps(h);
    forall g | g in h.games ensures GameOk(h.games[g]) && UsersOf(h.users, g, h.games[g].users) {}
    forall g, k | g in h.games && k in h.games[g].groups
      ensures h.games[g].groups[k] != [] && ValidKey(k) && PlayersOf(h.users, g, k, h.games[g].groups[k])
    {
      assert GameOk(h.games[g]);
    }
    forall t | t in h.users ensures PointerLive(h.games, h.users[t]) {}
  }

  /** When a session's end destroys a game, the session was its last user and it had no groups. */
  lemma DestroyedGameIsEmpty(h: Hub, s: Sid, g: Bytes)
    requires Sound(h) && s in h.users && h.users[s].group.None?
    requires g in h.games && g !in QuitGame(h, s).games
    ensures h.users[s].game == Some(g) && h.games[g].groups == map[] && multiset(h.games[g].users) == multiset{s}
  {
    assert GameOk(h.games[g]) && UsersOf(h.users, g, h.games[g].users);
    RemoveFirstSet(h.games[g].users, s);
    forall k: Bytes ensures k !in h.games[g].groups {
      if k in h.games[g].groups { GroupsKeepGameAlive(h.games, h.users, g, k, s); }
    }
    forall t ensures multiset(h.games[g].users)[t] == multiset{s}[t] {
      CountOnce(h.games[g].users, t);
      assert t in RemoveFirst(h.games[g].users, s) <==> t in h.games[g].users && t != s;
    }
  }

  // ---- connections ---------------------------------------------------------------------------

  /** The counter is the number of sessions that were let in and have not ended, at most 1024 of them. */
  lemma ConnectionCountIsExact(h: Hub)
    requires Reachable(h)
    ensures h.connections == |Unreaped(h.users)| <= 1024
  {
    ReachableKeeps(h);
  }

  /** Ending a session takes exactly one off: the guard against underflow never has to act. */
  lemma CountGuardNeverActs(h: Hub, s: Sid)
    requires Reachable(h) && s in h.users && !h.users[s].reaped
    ensures h.connections > 0 && EndReader(h, s).connections == h.connections - 1
  {
    ReachableKeeps(h);
    hide Sound, Reap;
    ShutSound(h, s);
    var shut := Shut(h, s);
    SameCount(h.users, shut.users);
    ReapCounted(shut, s);
    assert s in Unreaped(h.users);
  }

  // ---- what members see ----------------------------------------------------------------------

  /** The packets queued for it since it joined tell a member exactly who else is in its group. */
  lemma GroupViewAgrees(h: Hub, t: Sid)
    requires Reachable(h) && t in h.users && !h.users[t].closed && h.users[t].group.Some?
    ensures h.users[t].logAtJoin <= |h.users[t].log|
    ensures SeenSince(h.users[t])
         == Others(h.users, ListAt(h.games, h.users[t].game.GetOr([]), h.users[t].group.value), t)
  {
    ReachableKeeps(h);
    var u := h.users[t];
    assert PointerLive(h.games, u);
    assert Sees(u, Others(h.users, Members(h.games, u), t));
    MembersAre(h.games, u);
  }

  /** And so do their bytes: the client needs nothing but the stream. */
  lemma GroupViewFromBytes(h: Hub, t: Sid, sent: seq<Packet>)
    requires Reachable(h) && t in h.users && !h.users[t].closed && h.users[t].group.Some?
    requires h.users[t].logAtJoin <= |h.users[t].log| && sent == h.users[t].log[h.users[t].logAtJoin..]
    ensures View(DecodeAll(EncodeAll(sent)))
         == Others(h.users, ListAt(h.games, h.users[t].game.GetOr([]), h.users[t].group.value), t)
  {
    hide View, Others, ListAt, Reachable;
    GroupViewAgrees(h, t);
    StreamRoundTrip(sent);
  }

  // ---- the reader ----------------------------------------------------------------------------

  /** Commands, the decision to close, and what is left in the buffer are those of the parse. */
  lemma ReaderRefinesParse(h: Hub, s: Sid)
    requires Reachable(h) && s in h.users
    ensures var u, o := h.users[s], Parse(START, h.users[s].input);
            && u.commands <= o.commands
            && (!u.cut ==> u.commands == o.commands && u.closed == o.dead)
            && (!u.closed ==> !o.dead && u.rx == o.rest && PhaseOf(u) == o.phase)
  {
    ReachableKeeps(h);
    assert Faultless(h.users[s]);
    var o := Parse(START, h.users[s].input);
    assert [] + o.commands == o.commands;
  }

  /** Two sessions that were sent the same bytes, anywhere, in any pieces, in any company, were obeyed alike. */
  lemma OnlyTheBytesMatter(h: Hub, s: Sid, h': Hub, s': Sid)
    requires Reachable(h) && s in h.users && !h.users[s].cut
    requires Reachable(h') && s' in h'.users && !h'.users[s'].cut
    requires h.users[s].input == h'.users[s'].input
    ensures h.users[s].commands == h'.users[s'].commands && h.users[s].closed == h'.users[s'].closed
    ensures !h.users[s].closed ==> PhaseOf(h.users[s]) == PhaseOf(h'.users[s']) && h.users[s].rx == h'.users[s'].rx
  {
    ReaderRefinesParse(h, s);
    ReaderRefinesParse(h', s');
  }

  /** An open session waits for more with less than a login packet in its buffer. */
  lemma BufferHasRoom(h: Hub, s: Sid)
    requires Reachable(h) && s in h.users && !h.users[s].closed
    ensures |h.users[s].rx| < 144
  {
    ReaderRefinesParse(h, s);
  }

  /** So the outer loop never finds its buffer full: it goes on exactly when the session is open. */
  lemma BufferIsNeverFull(h: Hub, s: Sid, bytes: Bytes, o: Oracle)
    requires Reachable(h) && Enabled(h, Chunk(s, bytes))
    ensures var r := Drain(PutUser(h, s, Received(h.users[s], bytes)), s, o);
            LoopHead(r, s) == if r.users[s].closed then EndReader(r, s) else r
  {
    ReachableKeeps(h);
    hide Drain, EndReader, Healthy, Step;
    if h.users[s].closed {
      DrainClosed(PutUser(h, s, Received(h.users[s], bytes)), s, o);
    } else {
      ChunkOpen(h, s, bytes, o);
    }
  }

  lemma DrainClosed(h: Hub, s: Sid, o: Oracle)
    requires s in h.users && h.users[s].closed
    ensures Drain(h, s, o) == h
  {
  }

  // ---- scanning, then joining ----------------------------------------------------------------

  /** Whoever stands first has been in the group longest. */
  lemma FrontIsLongestStanding(h: Hub, g: Bytes, k: Bytes, i: nat)
    requires Reachable(h) && g in h.games && k in h.games[g].groups && i < |h.games[g].groups[k]|
    ensures var players := h.games[g].groups[k];
            && players[0] in h.users && players[i] in h.users
            && (i > 0 ==> h.users[players[0]].joinedAt < h.users[players[i]].joinedAt)
  {
    ReachableKeeps(h);
    var players := h.games[g].groups[k];
    assert Seniority(h.users, players) && PlayersOf(h.users, g, k, players);
    assert players[0] in players && players[i] in players;
  }

  ghost predicate IsScanOf(h: Hub, g: Bytes, k: Bytes, p: Packet) {
    && p.ScanPkt? && UpToNul(p.group) == k
    && var players := ListAt(h.games, g, k);
       players != [] && players[0] in h.users && p.mac == h.users[players[0]].mac
  }

  lemma StoredNameRoundTrip(k: Bytes)
    requires ValidKey(k)
    ensures UpToNul(GroupField(k)) == k && ValidGroup(GroupField(k))
  {
    assert '\0' !in k;
    FixedFieldRoundTrip(k, 8);
  }

  lemma ScanPacketIs(h: Hub, g: Bytes, k: Bytes, own: Mac)
    requires Sound(h) && g in h.games && k in h.games[g].groups
    ensures IsScanOf(h, g, k, ScanPkt(GroupField(k), FrontMac(h, MembersOrNone(h.games[g], k), own)))
    ensures ValidGroup(GroupField(k))
  {
    assert GameOk(h.games[g]);
    StoredNameRoundTrip(k);
    ListsHaveUsers(h.games, h.users, g, k);
  }

  /** `ps` reports each group of game `g` exactly once, in the order `ks`. */
  ghost predicate ScansAll(h: Hub, g: Bytes, ks: seq<Bytes>, ps: seq<Packet>)
    requires g in h.games
  {
    && ListsOnce(ks, h.games[g].groups.Keys) && |ps| == |ks|
    && forall i :: 0 <= i < |ks| ==> IsScanOf(h, g, ks[i], ps[i])
  }

  lemma ScanPacketsScanAll(h: Hub, g: Bytes, ks: seq<Bytes>, own: Mac)
    requires Sound(h) && g in h.games && ListsOnce(ks, h.games[g].groups.Keys)
    ensures ScansAll(h, g, ks, ScanPackets(h, h.games[g], own, ks))
  {
    hide Sound, IsScanOf;
    var ps := ScanPackets(h, h.games[g], own, ks);
    forall i | 0 <= i < |ks| ensures IsScanOf(h, g, ks[i], ps[i]) {
      assert ks[i] in ks;
      ScanPacketIs(h, g, ks[i], own);
    }
  }

  lemma ScanIsHandled(h: Hub, s: Sid, o: Oracle)
    requires Sound(h) && Faithful(o) && s in h.users && !h.users[s].closed
    requires h.users[s].game.Some? && h.users[s].group.None?
    ensures var u := h.users[s];
            && u.game.value in h.games
            && exists ks: seq<Bytes>, ps: seq<Packet> ::
                 && ScansAll(h, u.game.value, ks, ps)
                 && HandleScan(h, s, o) == (PutUser(h, s, QueuedAll(u, ps + [ScanComplete])), true)
  {
    var u := h.users[s];
    assert PointerLive(h.games, u);
    hide Sound, ScansAll;
    var game := h.games[u.game.value];
    var ks := o.order(h.clock, game.groups.Keys);
    assert ListsOnce(ks, game.groups.Keys);
    ScanPacketsScanAll(h, u.game.value, ks, u.mac);
    var ps := ScanPackets(h, game, u.mac, ks);
    assert HandleScan(h, s, o) == (PutUser(h, s, QueuedAll(u, ps + [ScanComplete])), true);
  }

  lemma ScansAtAnyTime(h: Hub, g: Bytes, ks: seq<Bytes>, ps: seq<Packet>, now: nat)
    requires g in h.games && ScansAll(h.(clock := now), g, ks, ps)
    ensures ScansAll(h, g, ks, ps)
  {
    forall i | 0 <= i < |ks| ensures IsScanOf(h, g, ks[i], ps[i]) {
      assert IsScanOf(h.(clock := now), g, ks[i], ps[i]);
    }
  }

  /** What a scan queues: `ps`, which report each group of the game exactly once, and then that it is complete. */
  ghost predicate ScanQueues(h: Hub, s: Sid, ks: seq<Bytes>, ps: seq<Packet>, r: (Hub, bool))
    requires s in h.users && h.users[s].game.Some? && h.users[s].game.value in h.games
  {
    && ScansAll(h, h.users[s].game.value, ks, ps)
    && r == (PutUser(h, s, h.users[s].(log := h.users[s].log + ps + [ScanComplete], out := Woken(h.users[s].out)))
             .(clock := h.clock + 1), true)
  }

  /** A scan reports each group of the game exactly once, then says it is complete. */
  lemma ScanIsComplete(h: Hub, s: Sid, o: Oracle)
    requires Sound(h) && Faithful(o) && s in h.users && !h.users[s].closed
    requires h.users[s].game.Some? && h.users[s].group.None?
    ensures h.users[s].game.value in h.games
    ensures exists ks: seq<Bytes>, ps: seq<Packet> :: ScanQueues(h, s, ks, ps, Execute(h, s, Scan, o))
  {
    hide *;
    var g, now := h.users[s].game.value, h.(clock := h.clock + 1);
    PlaceOf(h, s);
    TickSound(h);
    ScanIs(h, s, o);
    ScanIsHandled(now, s, o);
    var ks, ps :| ScansAll(now, g, ks, ps)
      && HandleScan(now, s, o) == (PutUser(now, s, QueuedAll(h.users[s], ps + [ScanComplete])), true);
    ScansAtAnyTime(h, g, ks, ps, h.clock + 1);
    ScanQueued(h, s, ks, ps);
    assert ScanQueues(h, s, ks, ps, Execute(h, s, Scan, o));
  }

  lemma ScanQueued(h: Hub, s: Sid, ks: seq<Bytes>, ps: seq<Packet>)
    requires s in h.users && !h.users[s].closed && h.users[s].game.Some? && h.users[s].game.value in h.games
    requires ScansAll(h, h.users[s].game.value, ks, ps)
    ensures ScanQueues(h, s, ks, ps, (PutUser(h.(clock := h.clock + 1), s, QueuedAll(h.users[s], ps + [ScanComplete])), true))
  {
    hide ScansAll;
    assert h.users[s].log + (ps + [ScanComplete]) == h.users[s].log + ps + [ScanComplete];
  }

  lemma ScannedKeyIsValid(h: Hub, g: Bytes, k: Bytes, p: Packet)
    requires Lists(h.games) && IsScanOf(h, g, k, p)
    ensures g in h.games && k in h.games[g].groups && ValidGroup(p.group)
  {
    assert g in h.games && k in h.games[g].groups;
    assert GameOk(h.games[g]);
  }

  /** Joining with the name that a scan reported leads to that group, and to the address it reported. */
  lemma ScannedNameLeadsThere(h: Hub, s: Sid, g: Bytes, k: Bytes, p: Packet)
    requires Sound(h) && s in h.users && !h.users[s].closed && Spot(h.users[s], Some(g), None)
    requires IsScanOf(h, g, k, p)
    ensures var (r, ok) := HandleConnect(h, s, p.group);
            && ok && s in r.users && r.users[s].group == Some(k)
            && ListAt(r.games, g, k) == ListAt(h.games, g, k) + [s]
            && r.users[s].log != [] && r.users[s].log[|r.users[s].log| - 1] == BssidPkt(p.mac)
  {
    ScannedKeyIsValid(h, g, k, p);
    var members := ListAt(h.games, g, k);
    ListsHaveUsers(h.games, h.users, g, k);
    NotYetMember(h.users, s, g, k, members);
    hide Sound, Graph, ValidGroup, Introduce;
    RegroupElsewhere(h.games, g, k, members + [s]);
    JoinerTold(h.users, s, members, k, h.clock);
    ConnectJoins(h, s, p.group, g, k, members);
  }

  lemma ConnectJoins(h: Hub, s: Sid, raw: RawGroup, g: Bytes, k: Bytes, members: seq<Sid>)
    requires s in h.users && Spot(h.users[s], Some(g), None) && ValidGroup(raw) && g in h.games
    requires k == UpToNul(raw) && members == ListAt(h.games, g, k)
    ensures HandleConnect(h, s, raw)
         == (h.(games := Regrouped(h.games, g, k, members + [s]), users := Introduce(h.users, s, members, k, h.clock)), true)
  {
    hide Introduce, ValidGroup, WorksFor;
  }

  lemma NotYetMember(us: map<Sid, User>, s: Sid, g: Bytes, k: Bytes, members: seq<Sid>)
    requires Fits(us, g, k, members) && s in us && us[s].group.None?
    ensures s !in members
  {
  }

  lemma JoinerTold(us: map<Sid, User>, s: Sid, members: seq<Sid>, k: Bytes, now: nat)
    requires NoDup(members) && s in us && s !in members && Known(us, members) && members != [] && !us[s].closed
    ensures var v := Introduce(us, s, members, k, now)[s];
            v.group == Some(k) && v.log != [] && v.log[|v.log| - 1] == BssidPkt(us[members[0]].mac)
  {
    IntroduceSelf(us, s, members, k, now);
    hide Introduce;
    assert (members + [s])[0] == members[0];
  }

  /** After a scan: nothing has changed but the log, and every report in it is a true one. */
  lemma AfterScan(h: Hub, s: Sid, o: Oracle, p: Packet) returns (k: Bytes)
    requires Sound(h) && Faithful(o) && s in h.users && !h.users[s].closed
    requires h.users[s].game.Some? && h.users[s].group.None?
    requires p.ScanPkt? && p in HandleScan(h, s, o).0.users[s].log[|h.users[s].log|..]
    ensures var q := HandleScan(h, s, o).0;
            && q == PutUser(h, s, h.users[s].(log := q.users[s].log, out := q.users[s].out))
            && IsScanOf(q, h.users[s].game.value, k, p)
  {
    var u, g := h.users[s], h.users[s].game.value;
    ScanIsHandled(h, s, o);
    hide Sound, HandleScan, ScansAll, IsScanOf;
    var ks, ps :| ScansAll(h, g, ks, ps)
      && HandleScan(h, s, o) == (PutUser(h, s, QueuedAll(u, ps + [ScanComplete])), true);
    var q := HandleScan(h, s, o).0;
    assert q.users[s].log[|u.log|..] == ps + [ScanComplete];
    k := ScannedOne(h, g, ks, ps, p);
    ScanOutlives(h, q, s, g, k, p);
  }

  lemma AtAnyTime(h: Hub, s: Sid, g: Bytes, k: Bytes, p: Packet)
    requires IsScanOf(h, g, k, p)
    ensures IsScanOf(h.(clock := h.clock + 1), g, k, p)
  {
  }

  /** The two together: a scan, then a connect with any name it reported. */
  lemma ScanThenConnectAgree(h: Hub, s: Sid, o: Oracle, o': Oracle, p: Packet)
    requires Reachable(h) && Faithful(o) && s in h.users && !h.users[s].closed
    requires h.users[s].game.Some? && h.users[s].group.None?
    requires p.ScanPkt? && p in Execute(h, s, Scan, o).0.users[s].log[|h.users[s].log|..]
    ensures var q := Execute(h, s, Scan, o).0;
            var (r, ok) := Execute(q, s, Connect(p.group), o');
            var g, k := h.users[s].game.value, UpToNul(p.group);
            && ok && r.users[s].group == Some(k)
            && ListAt(h.games, g, k) != [] && ListAt(r.games, g, k) == ListAt(h.games, g, k) + [s]
            && r.users[s].log != [] && r.users[s].log[|r.users[s].log| - 1] == BssidPkt(p.mac)
  {
    ReachableSound(h);
    var g := h.users[s].game.value;
    hide Sound, Reachable, Faithful, HandleScan, HandleConnect, IsScanOf, ListAt, Execute, Dispatch, WorksFor;
    TickSound(h);
    ScanIs(h, s, o);
    var k := AfterScan(h.(clock := h.clock + 1), s, o, p);
    ExecuteSound(h, s, Scan, o);
    var q := Execute(h, s, Scan, o).0;
    TickSound(q);
    AtAnyTime(q, s, g, k, p);
    ConnectIs(q, s, p.group, o');
    ScannedNameLeadsThere(q.(clock := q.clock + 1), s, g, k, p);
    IsScanParts(h, q, g, k, p);
  }

  lemma ScanIs(h: Hub, s: Sid, o: Oracle)
    requires s in h.users
    ensures Execute(h, s, Scan, o) == HandleScan(h.(clock := h.clock + 1), s, o)
  {
    hide HandleScan, WorksFor;
  }

  lemma ConnectIs(h: Hub, s: Sid, raw: RawGroup, o: Oracle)
    requires s in h.users
    ensures Execute(h, s, Connect(raw), o) == HandleConnect(h.(clock := h.clock + 1), s, raw)
  {
    hide HandleConnect, WorksFor;
  }

  lemma ReachableSound(h: Hub)
    requires Reachable(h)
    ensures Sound(h)
  {
    ReachableKeeps(h);
    hide Sound;
  }

  lemma ScannedOne(h: Hub, g: Bytes, ks: seq<Bytes>, ps: seq<Packet>, p: Packet) returns (k: Bytes)
    requires g in h.games && ScansAll(h, g, ks, ps) && p in ps + [ScanComplete] && p.ScanPkt?
    ensures IsScanOf(h, g, k, p)
  {
    var i :| 0 <= i < |ps + [ScanComplete]| && (ps + [ScanComplete])[i] == p;
    k := ks[i];
  }

  lemma ScanOutlives(h: Hub, r: Hub, s: Sid, g: Bytes, k: Bytes, p: Packet)
    requires IsScanOf(h, g, k, p) && r.games == h.games && s in h.users && s in r.users
    requires r.users == h.users[s := r.users[s]] && r.users[s].mac == h.users[s].mac
    ensures IsScanOf(r, g, k, p)
  {
  }

  lemma IsScanParts(h: Hub, r: Hub, g: Bytes, k: Bytes, p: Packet)
    requires IsScanOf(r, g, k, p) && r.games == h.games
    ensures UpToNul(p.group) == k && ListAt(h.games, g, k) != []
  {
  }

  // ---- chat ----------------------------------------------------------------------------------

  lemma ChatIs(h: Hub, s: Sid, message: RawChat, o: Oracle)
    requires s in h.users
    ensures Execute(h, s, Chat(message), o) == HandleChat(h.(clock := h.clock + 1), s, message)
  {
    hide HandleChat, WorksFor;
  }

  /** A message reaches every other member of the group once, and nobody else. */
  lemma ChatReachesTheOthers(h: Hub, s: Sid, message: RawChat, o: Oracle, t: Sid)
    requires Sound(h) && s in h.users && t in h.users
    requires h.users[s].game.Some? && h.users[s].group.Some?
    ensures var (r, ok) := Execute(h, s, Chat(message), o);
            var u := h.users[s];
            && ok && r.games == h.games && r.users.Keys == h.users.Keys
            && r.connections == h.connections && r.shutdown == h.shutdown
            && r.users[t] ==
              if t != s && !h.users[t].closed && InGroup(h.users[t], u.game.value, u.group.value)
              then h.users[t].(log := h.users[t].log + [ChatPkt(DataFrom(UpToNul(message), 64), u.name)],
                               out := Woken(h.users[t].out))
              else h.users[t]
  {
    hide Sound, WorksFor, OnlySentTo, Posted, DeliverAll, NoDup, DataFrom, HandleChat, MembersOrNone, Execute;
    TickSound(h);
    ChatIs(h, s, message, o);
    var now := h.(clock := h.clock + 1);
    var u := h.users[s];
    ChatTargets(now, s, t);
    ChatDelivers(now, s, message);
    DeliverAllAt(h.users, MembersOrNone(GameOrNew(now, u.game.value), u.group.value), Some(s), ChatOf(message, u.name), t);
  }

  lemma ChatTargets(h: Hub, s: Sid, t: Sid)
    requires Sound(h) && s in h.users && t in h.users
    requires h.users[s].game.Some? && h.users[s].group.Some?
    ensures var g, k := h.users[s].game.value, h.users[s].group.value;
            var players := MembersOrNone(GameOrNew(h, g), k);
            NoDup(players) && (t in players <==> InGroup(h.users[t], g, k))
  {
    var u := h.users[s];
    assert PointerLive(h.games, u);
    ListsHaveUsers(h.games, h.users, u.game.value, u.group.value);
    hide Sound, NoDup, InGroup;
  }

  lemma ChatDelivers(h: Hub, s: Sid, message: RawChat)
    requires s in h.users && h.users[s].game.Some? && h.users[s].group.Some?
    ensures var u := h.users[s];
            var players := MembersOrNone(GameOrNew(h, u.game.value), u.group.value);
            HandleChat(h, s, message) == (h.(users := DeliverAll(h.users, players, Some(s), ChatOf(message, u.name))), true)
  {
    hide DeliverAll, MembersOrNone, GameOrNew, ChatOf, WorksFor;
  }
}
