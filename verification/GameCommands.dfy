/** What each command does for everybody, told from the bytes that the client sends.

A `Chunk` that completes one command is one step of the hub. Each theorem here says of such a step what
every session is sent and what every list becomes.
*/
module GameCommands {
  import opened Bytes
  import opened SessionNames
  import opened Packets
  import opened GameModel
  import opened GameInvariant
  import opened GameGraph
  import opened GameViews
  import opened GameHandlers
  import opened GameReader
  import opened GameRuns
  import opened GameTheorems

  // ---- how effects are told --------------------------------------------------------------------

  /** All that happens to the user is that `ps` are queued for it: nothing if it is closed, and then,
      or if there are no packets, it stays as it is. A sleeping writer is woken. */
  ghost predicate WasSent(u: User, v: User, ps: seq<Packet>) {
    && v.log == (if u.closed then u.log else u.log + ps)
    && v == u.(log := v.log, out := v.out)
    && v.out == if v.log == u.log then u.out else Woken(u.out)
  }

  lemma SentNone(u: User)
    ensures WasSent(u, u, [])
  {
    assert u.log + [] == u.log;
  }

  lemma SentOne(u: User, p: Packet)
    ensures WasSent(u, Queued(u, p), [p])
  {
    assert |u.log + [p]| == |u.log| + 1;
  }

  /** `w` is `v` without its first `x`. */
  ghost predicate Dropped(v: seq<Sid>, w: seq<Sid>, x: Sid) {
    if x in v then exists i :: 0 <= i < |v| && v[i] == x && w == v[..i] + v[i + 1..] else w == v
  }

  lemma DroppedLater(a: Sid, v: seq<Sid>, w: seq<Sid>, x: Sid)
    requires Dropped(v, w, x) && a != x
    ensures Dropped([a] + v, [a] + w, x)
  {
    var all := [a] + v;
    if x in v {
      var i :| 0 <= i < |v| && v[i] == x && w == v[..i] + v[i + 1..];
      assert all[i + 1] == x && all[..i + 1] == [a] + v[..i] && all[i + 2..] == v[i + 1..];
      assert [a] + w == all[..i + 1] + all[i + 1 + 1..];
    } else {
      assert x !in all;
    }
  }

  lemma {:induction false} RemoveFirstDrops(v: seq<Sid>, x: Sid)
    ensures Dropped(v, RemoveFirst(v, x), x)
  {
    if v == [] {
    } else if v[0] != x {
      hide Dropped;
      RemoveFirstDrops(v[1..], x);
      DroppedLater(v[0], v[1..], RemoveFirst(v[1..], x), x);
      assert [v[0]] + v[1..] == v;
    } else {
      assert v[..0] + v[0 + 1..] == v[1..];
    }
  }

  function UsersAt(games: map<Bytes, Game>, g: Bytes): seq<Sid> { if g in games then games[g].users else [] }

  /** Who plays what is as it was. */
  ghost predicate SameUsers(games: map<Bytes, Game>, games': map<Bytes, Game>) {
    forall g: Bytes :: UsersAt(games', g) == UsersAt(games, g)
  }

  // ---- one read, one command -------------------------------------------------------------------

  /** With these bytes the client of `s`, which is open, has sent just the command `c`, and no more. */
  ghost predicate Completes(h: Hub, s: Sid, bytes: Bytes, c: Command) {
    s in h.users && !h.users[s].closed && bytes != [] && h.users[s].rx + bytes == EncodeCommand(c)
  }

  /** The command is in its turn. */
  predicate Takes(u: User, c: Command) { c.Login? != u.game.Some? && Accept(PhaseOf(u), c).Some? }

  /** The hub as the handler finds it: the bytes are read and taken off the buffer. */
  ghost function Ready(h: Hub, s: Sid, bytes: Bytes): Hub
    requires s in h.users
  {
    PutUser(h, s, h.users[s].(rx := [], input := h.users[s].input + bytes))
  }

  lemma CommandFits(c: Command)
    ensures 0 < |EncodeCommand(c)| <= 144
  {
  }

  lemma OpenAndIn(h: Hub, s: Sid)
    requires Healthy(h) && s in h.users && !h.users[s].closed
    ensures !h.users[s].reaped && Sound(h)
  {
    hide Sound, Counted, AllFaultless;
  }

  lemma CompletesIs(h: Hub, s: Sid, bytes: Bytes, c: Command)
    requires Completes(h, s, bytes, c)
    ensures s in h.users && !h.users[s].closed
  {
  }

  lemma CompletesEnabled(h: Hub, s: Sid, bytes: Bytes, c: Command)
    requires Healthy(h) && Completes(h, s, bytes, c)
    ensures Enabled(h, Chunk(s, bytes))
  {
    hide EncodeCommand, Healthy;
    OpenAndIn(h, s);
    CommandFits(c);
  }

  lemma ChunkIs(h: Hub, s: Sid, bytes: Bytes, o: Oracle)
    requires Enabled(h, Chunk(s, bytes))
    ensures Step(h, Chunk(s, bytes), o) == LoopHead(Drain(PutUser(h, s, Received(h.users[s], bytes)), s, o), s)
  {
    hide LoopHead, Drain;
  }

  lemma LoopHeadIs(h: Hub, s: Sid)
    requires s in h.users && |h.users[s].rx| <= 144
    ensures LoopHead(h, s) == if h.users[s].closed then EndReader(h, s) else h
  {
    hide EndReader;
  }

  lemma EatenIsReady(h: Hub, s: Sid, bytes: Bytes)
    requires s in h.users
    ensures var got := PutUser(h, s, Received(h.users[s], bytes));
            PutUser(got, s, Eaten(got.users[s], |h.users[s].rx + bytes|)).(clock := got.clock + 1)
            == Ready(h, s, bytes).(clock := h.clock + 1)
  {
    var u := h.users[s];
    assert (u.rx + bytes)[|u.rx + bytes|..] == [];
    assert h.users[s := Received(u, bytes)][s := u.(rx := [], input := u.input + bytes)]
        == h.users[s := u.(rx := [], input := u.input + bytes)];
  }

  /** The reader's own part of the step. */
  ghost function Noting(r: Hub, s: Sid, c: Command): Hub
    requires s in r.users
  {
    PutUser(r, s, r.users[s].(commands := r.users[s].commands + [c]))
  }

  lemma NotingDrained(r: Hub, s: Sid, c: Command, o: Oracle)
    requires s in r.users && r.users[s].rx == []
    ensures Drain(Noting(r, s, c), s, o) == Noting(r, s, c)
  {
  }

  /** What the step does to a command in its turn: its handler runs, once, and nothing else happens. */
  lemma TakenIs(h: Hub, s: Sid, bytes: Bytes, c: Command, o: Oracle)
    requires Healthy(h) && s in h.users && Completes(h, s, bytes, c) && Takes(h.users[s], c)
    ensures Enabled(h, Chunk(s, bytes))
    ensures var (r, ok) := Execute(Ready(h, s, bytes), s, c, o);
            ok && s in r.users && Step(h, Chunk(s, bytes), o) == Noting(r, s, c)
  {
    hide *;
    var u := h.users[s];
    var got := PutUser(h, s, Received(u, bytes));
    CompletesEnabled(h, s, bytes, c);
    ChunkIs(h, s, bytes, o);
    Arrived(h, s, bytes, c);
    EatenIsReady(h, s, bytes);
    DrainUnfolds(got, s, o);
    ObeyAgrees(got, s, c, |EncodeCommand(c)|, o);
    ObeyIs(got, s, c, |EncodeCommand(c)|, o);
    TakesAccepts(u, got.users[s], c);
    ReadyHas(h, s, bytes);
    ExecuteIs(Ready(h, s, bytes), s, c, o);
    var r := Execute(Ready(h, s, bytes), s, c, o).0;
    assert Obey(got, s, c, |EncodeCommand(c)|, o).1;
    NotedLooks(r, s, c);
    NotingDrained(r, s, c, o);
    LoopHeadIs(Noting(r, s, c), s);
  }

  lemma ReadyHas(h: Hub, s: Sid, bytes: Bytes)
    requires s in h.users
    ensures s in Ready(h, s, bytes).users && Ready(h, s, bytes).clock == h.clock
  {
  }

  lemma NotedLooks(r: Hub, s: Sid, c: Command)
    requires s in r.users
    ensures Noting(r, s, c) == PutUser(r, s, r.users[s].(commands := r.users[s].commands + [c]))
    ensures s in Noting(r, s, c).users
    ensures var v := Noting(r, s, c).users[s]; v.rx == r.users[s].rx && v.closed == r.users[s].closed
  {
  }

  lemma TakesAccepts(u: User, v: User, c: Command)
    requires Takes(u, c) && v.game == u.game && v.group == u.group
    ensures Accept(PhaseOf(v), c).Some? && c.Login? != u.game.Some?
  {
    hide Accept;
  }

  /** After the read the buffer holds the command, whole and alone. */
  lemma Arrived(h: Hub, s: Sid, bytes: Bytes, c: Command)
    requires Completes(h, s, bytes, c)
    ensures s in h.users
    ensures var u := h.users[s];
            var got := PutUser(h, s, Received(u, bytes));
            && s in got.users && got.users[s].rx == u.rx + bytes == EncodeCommand(c) && got.users[s].rx != []
            && !got.users[s].closed && got.users[s].game == u.game && got.users[s].group == u.group
            && got.users[s].rx[|EncodeCommand(c)|..] == []
            && (c.Login? != u.game.Some? ==> Lex(got.users[s].game.Some?, got.users[s].rx) == Got(c, |EncodeCommand(c)|))
            && (c.Login? == u.game.Some? ==> Lex(got.users[s].game.Some?, got.users[s].rx).Malformed?)
  {
    hide Lex, EncodeCommand;
    assert EncodeCommand(c) + [] == EncodeCommand(c);
    LexEncode(c, []);
    if c.Login? == h.users[s].game.Some? { LexOutOfTurn(c.Login?, c, []); }
  }

  // ---- the hub before and after the read -------------------------------------------------------

  /** `x` is the hub with the bytes read, and nothing else different. */
  ghost predicate Feeds(h: Hub, s: Sid, bytes: Bytes, x: Hub) {
    && s in h.users && x == h.(users := x.users) && NobodyElse(h, s, x)
    && x.users[s] == h.users[s].(rx := [], input := h.users[s].input + bytes)
  }

  /** `q` is the hub with the command noted, and nothing else different. */
  ghost predicate Notes(r: Hub, s: Sid, c: Command, q: Hub) {
    && s in r.users && q == r.(users := q.users) && NobodyElse(r, s, q)
    && q.users[s] == r.users[s].(commands := r.users[s].commands + [c])
  }

  lemma ReadyFeeds(h: Hub, s: Sid, bytes: Bytes)
    requires s in h.users
    ensures Feeds(h, s, bytes, Ready(h, s, bytes))
  {
  }

  lemma FedQuiet(u: User, bytes: Bytes)
    ensures Quiet(u, u.(rx := [], input := u.input + bytes))
  {
  }

  lemma ReadyIs(h: Hub, s: Sid, bytes: Bytes)
    requires s in h.users
    ensures Ready(h, s, bytes) == PutUser(h, s, h.users[s].(rx := [], input := h.users[s].input + bytes))
  {
  }

  lemma ReadySound(h: Hub, s: Sid, bytes: Bytes)
    requires Healthy(h) && s in h.users && !h.users[s].closed
    ensures Sound(Ready(h, s, bytes))
  {
    hide *;
    OpenAndIn(h, s);
    FedQuiet(h.users[s], bytes);
    ReadyIs(h, s, bytes);
    TouchSound(h, s, h.users[s].(rx := [], input := h.users[s].input + bytes));
  }

  lemma NotingNotes(r: Hub, s: Sid, c: Command)
    requires s in r.users
    ensures Notes(r, s, c, Noting(r, s, c))
  {
  }

  lemma FeedsLooks(h: Hub, s: Sid, bytes: Bytes, x: Hub)
    requires Feeds(h, s, bytes, x)
    ensures s in h.users && s in x.users && x.games == h.games && x.clock == h.clock
    ensures var u := x.users[s]; u.game == h.users[s].game && u.group == h.users[s].group && u.closed == h.users[s].closed
  {
  }

  /** One read that completes a command in its turn: the bytes are read, the handler runs, once, and the
      command is noted; nothing else happens. */
  lemma OneCommand(h: Hub, s: Sid, bytes: Bytes, c: Command, o: Oracle)
    requires Healthy(h) && s in h.users && Completes(h, s, bytes, c) && Takes(h.users[s], c)
    ensures Enabled(h, Chunk(s, bytes))
    ensures var x := Ready(h, s, bytes);
            && s in x.users && Feeds(h, s, bytes, x) && Sound(x)
            && var (r, ok) := Execute(x, s, c, o); ok && Notes(r, s, c, Step(h, Chunk(s, bytes), o))
    ensures Step(h, Chunk(s, bytes), o).users.Keys == h.users.Keys
  {
    CompletesIs(h, s, bytes, c);
    hide *;
    TakenIs(h, s, bytes, c, o);
    ReadySound(h, s, bytes);
    ReadyFeeds(h, s, bytes);
    ReadyHas(h, s, bytes);
    NotingNotes(Execute(Ready(h, s, bytes), s, c, o).0, s, c);
    ChunkKeys(h, s, bytes, o);
  }

  lemma ChunkKeys(h: Hub, s: Sid, bytes: Bytes, o: Oracle)
    requires Enabled(h, Chunk(s, bytes))
    ensures Step(h, Chunk(s, bytes), o).users.Keys == h.users.Keys
  {
    hide Drain, Reap, WorksFor;
    ChunkIs(h, s, bytes, o);
    var got := PutUser(h, s, Received(h.users[s], bytes));
    var r := Drain(got, s, o);
    var v := Shut(r, s);
    assert WorksFor(v, s, Reap(v, s));
    KeysOf(v, s, Reap(v, s));
  }

  lemma KeysOf(h: Hub, s: Sid, r: Hub)
    requires WorksFor(h, s, r)
    ensures r.users.Keys == h.users.Keys
  {
  }

  /** Nobody's place, and none of the tables, is any different. */
  ghost predicate SameTables(h: Hub, r: Hub) {
    r.users.Keys == h.users.Keys && r.games == h.games && r.connections == h.connections && r.shutdown == h.shutdown
  }

  /** Everybody but `s` is sent nothing. */
  ghost predicate NobodyElse(h: Hub, s: Sid, r: Hub) {
    r.users.Keys == h.users.Keys && forall t :: t in h.users && t != s ==> r.users[t] == h.users[t]
  }

  /** `u` after it was obeyed: nothing but this changes by itself. */
  ghost function Obeyed(u: User, bytes: Bytes, c: Command): User {
    u.(rx := [], input := u.input + bytes, commands := u.commands + [c])
  }

  // ---- chat ------------------------------------------------------------------------------------

  lemma ChatInTurn(u: User, c: Command)
    requires c.Chat? && u.game.Some? && u.group.Some?
    ensures Takes(u, c)
  {
  }

  lemma GroupedPlays(h: Hub, s: Sid)
    requires Healthy(h) && s in h.users && h.users[s].group.Some?
    ensures h.users[s].game.Some?
  {
    hide AllFaultless, Counted, Gone;
    assert PointerLive(h.games, h.users[s]);
  }

  /** Everybody on the list is sent `p`, and nobody else but `s` anything. */
  ghost predicate EachTold(h: Hub, s: Sid, members: seq<Sid>, p: Packet, q: Hub) {
    && q.users.Keys == h.users.Keys
    && forall t :: t in h.users && t != s ==> WasSent(h.users[t], q.users[t], if t in members then [p] else [])
  }

  /** The whole effect of a chat message: each member but the sender, if open, is sent the text up to its
      first NUL under the sender's name, and nobody else is sent anything. */
  ghost predicate Chats(h: Hub, s: Sid, c: Command, bytes: Bytes, q: Hub)
    requires s in h.users && c.Chat? && h.users[s].game.Some? && h.users[s].group.Some?
  {
    var u := h.users[s];
    && SameTables(h, q) && s in q.users && q.users[s] == Obeyed(u, bytes, c)
    && forall t :: t in h.users && t != s ==>
         WasSent(h.users[t], q.users[t],
                 if InGroup(h.users[t], u.game.value, u.group.value)
                 then [ChatPkt(DataFrom(UpToNul(c.message), 64), u.name)] else [])
  }

  lemma ChatDone(h: Hub, x: Hub, s: Sid, c: Command, bytes: Bytes, o: Oracle, q: Hub)
    requires Feeds(h, s, bytes, x) && Sound(x) && s in x.users && c.Chat?
    requires h.users[s].game.Some? && h.users[s].group.Some? && Notes(Execute(x, s, c, o).0, s, c, q)
    ensures Chats(h, s, c, bytes, q)
  {
    hide Sound, Execute, WasSent, DataFrom, UpToNul, WorksFor, OnlySentTo;
    var r, u := Execute(x, s, c, o).0, h.users[s];
    var p := ChatPkt(DataFrom(UpToNul(c.message), 64), u.name);
    ChatReachesTheOthers(x, s, c.message, o, s);
    forall t | t in h.users && t != s
      ensures WasSent(h.users[t], r.users[t], if InGroup(h.users[t], u.game.value, u.group.value) then [p] else [])
    {
      ChatReachesTheOthers(x, s, c.message, o, t);
      SentNone(h.users[t]);
      SentOrClosed(h.users[t], p);
    }
  }

  /** The 65 bytes of a chat command, sent by a member of a group. */
  lemma ChatArrives(h: Hub, s: Sid, c: Command, bytes: Bytes, o: Oracle)
    requires Reachable(h) && c.Chat? && Completes(h, s, bytes, c) && h.users[s].group.Some?
    ensures h.users[s].game.Some? && Enabled(h, Chunk(s, bytes))
    ensures Chats(h, s, c, bytes, Step(h, Chunk(s, bytes), o))
  {
    ReachableKeeps(h);
    CompletesIs(h, s, bytes, c);
    hide *;
    GroupedPlays(h, s);
    ChatInTurn(h.users[s], c);
    OneCommand(h, s, bytes, c, o);
    ChatDone(h, Ready(h, s, bytes), s, c, bytes, o, Step(h, Chunk(s, bytes), o));
  }

  lemma SentOrClosed(u: User, p: Packet)
    ensures WasSent(u, if u.closed then u else u.(log := u.log + [p], out := Woken(u.out)), [p])
  {
    SentOne(u, p);
  }

  // ---- ping ------------------------------------------------------------------------------------

  lemma PingIs(h: Hub, s: Sid, o: Oracle)
    requires s in h.users
    ensures Execute(h, s, Ping, o) == (h.(clock := h.clock + 1), true)
  {
    hide WorksFor;
  }

  lemma PingInTurn(u: User)
    requires u.game.Some?
    ensures Takes(u, Ping)
  {
  }

  ghost predicate OnlyNotes(h: Hub, s: Sid, c: Command, bytes: Bytes, q: Hub)
    requires s in h.users
  {
    SameTables(h, q) && NobodyElse(h, s, q) && q.users[s] == Obeyed(h.users[s], bytes, c)
  }

  lemma PingDone(h: Hub, x: Hub, s: Sid, bytes: Bytes, o: Oracle, q: Hub)
    requires Feeds(h, s, bytes, x) && s in x.users && Notes(Execute(x, s, Ping, o).0, s, Ping, q)
    ensures OnlyNotes(h, s, Ping, bytes, q)
  {
    PingIs(x, s, o);
    hide Execute, WorksFor;
  }

  /** A ping, once the client has logged in, is noted and does nothing. */
  lemma PingArrives(h: Hub, s: Sid, bytes: Bytes, o: Oracle)
    requires Reachable(h) && Completes(h, s, bytes, Ping) && h.users[s].game.Some?
    ensures Enabled(h, Chunk(s, bytes)) && OnlyNotes(h, s, Ping, bytes, Step(h, Chunk(s, bytes), o))
  {
    ReachableKeeps(h);
    CompletesIs(h, s, bytes, Ping);
    hide *;
    PingInTurn(h.users[s]);
    OneCommand(h, s, bytes, Ping, o);
    PingDone(h, Ready(h, s, bytes), s, bytes, o, Step(h, Chunk(s, bytes), o));
  }

  // ---- scan ------------------------------------------------------------------------------------

  lemma ScanInTurn(u: User)
    requires u.game.Some? && u.group.None?
    ensures Takes(u, Scan)
  {
  }

  /** `ps` report each group of game `g` exactly once, each under its name with its first member's address. */
  ghost predicate Reports(h: Hub, g: Bytes, ks: seq<Bytes>, ps: seq<Packet>) {
    && (forall k: Bytes :: k in ks <==> ListAt(h.games, g, k) != [])
    && (forall i, j :: 0 <= i < j < |ks| ==> ks[i] != ks[j])
    && |ps| == |ks|
    && forall i :: 0 <= i < |ks| ==> ReportOf(h, ListAt(h.games, g, ks[i]), ks[i], ps[i])
  }

  ghost predicate ReportOf(h: Hub, players: seq<Sid>, k: Bytes, p: Packet) {
    && p.ScanPkt? && UpToNul(p.group) == k
    && players != [] && players[0] in h.users && p.mac == h.users[players[0]].mac
  }

  lemma ReportsAll(h: Hub, x: Hub, s: Sid, g: Bytes, ks: seq<Bytes>, ps: seq<Packet>)
    requires Sound(x) && x.games == h.games && x.users.Keys == h.users.Keys && g in x.games
    requires forall t :: t in h.users ==> x.users[t].mac == h.users[t].mac
    requires ScansAll(x, g, ks, ps)
    ensures Reports(h, g, ks, ps)
  {
    assert GameOk(x.games[g]);
    forall k: Bytes ensures k in ks <==> ListAt(h.games, g, k) != [] {
      assert k in ks <==> k in x.games[g].groups;
    }
    forall i | 0 <= i < |ks| ensures ReportOf(h, ListAt(h.games, g, ks[i]), ks[i], ps[i]) {
      assert IsScanOf(x, g, ks[i], ps[i]);
    }
  }

  /** The whole effect of a scan: the client is sent the reports `ps`, one for each group of its game, and
      then that this was all; nobody else is sent anything. */
  ghost predicate Scans(h: Hub, s: Sid, bytes: Bytes, ks: seq<Bytes>, ps: seq<Packet>, q: Hub)
    requires s in h.users && h.users[s].game.Some?
  {
    && SameTables(h, q) && NobodyElse(h, s, q) && Reports(h, h.users[s].game.value, ks, ps)
    && q.users[s] == Obeyed(h.users[s], bytes, Scan).(log := h.users[s].log + ps + [ScanComplete],
                                                      out := Woken(h.users[s].out))
  }

  lemma ScanQueuesScans(h: Hub, s: Sid, ks: seq<Bytes>, ps: seq<Packet>, r: (Hub, bool))
    requires s in h.users && h.users[s].game.Some? && h.users[s].game.value in h.games
    requires ScanQueues(h, s, ks, ps, r)
    ensures ScansAll(h, h.users[s].game.value, ks, ps)
  {
  }

  lemma FedReports(h: Hub, s: Sid, bytes: Bytes, x: Hub, g: Bytes, ks: seq<Bytes>, ps: seq<Packet>)
    requires Feeds(h, s, bytes, x) && Sound(x) && g in x.games && ScansAll(x, g, ks, ps)
    ensures Reports(h, g, ks, ps)
  {
    hide Reports, ScansAll, Sound;
    ReportsAll(h, x, s, g, ks, ps);
  }

  lemma ScanDone(h: Hub, x: Hub, s: Sid, bytes: Bytes, r: (Hub, bool), q: Hub, ks: seq<Bytes>, ps: seq<Packet>)
    requires Feeds(h, s, bytes, x) && s in x.users && x.users[s].game.Some? && x.users[s].game.value in x.games
    requires ScanQueues(x, s, ks, ps, r) && Notes(r.0, s, Scan, q) && Reports(h, h.users[s].game.value, ks, ps)
    ensures Scans(h, s, bytes, ks, ps, q)
  {
    hide Reports, ScansAll, Woken;
  }

  /** The one byte of a scan, sent by a client that plays and is in no group. */
  lemma ScanArrives(h: Hub, s: Sid, bytes: Bytes, o: Oracle)
    requires Reachable(h) && Faithful(o) && Completes(h, s, bytes, Scan)
    requires h.users[s].game.Some? && h.users[s].group.None?
    ensures Enabled(h, Chunk(s, bytes))
    ensures exists ks: seq<Bytes>, ps: seq<Packet> :: Scans(h, s, bytes, ks, ps, Step(h, Chunk(s, bytes), o))
  {
    ReachableKeeps(h);
    CompletesIs(h, s, bytes, Scan);
    hide *;
    var x := Ready(h, s, bytes);
    ScanInTurn(h.users[s]);
    OneCommand(h, s, bytes, Scan, o);
    FeedsLooks(h, s, bytes, x);
    ScanIsComplete(x, s, o);
    var ks, ps :| ScanQueues(x, s, ks, ps, Execute(x, s, Scan, o));
    ScanQueuesScans(x, s, ks, ps, Execute(x, s, Scan, o));
    FedReports(h, s, bytes, x, h.users[s].game.value, ks, ps);
    ScanDone(h, x, s, bytes, Execute(x, s, Scan, o), Step(h, Chunk(s, bytes), o), ks, ps);
  }

  // ---- login -----------------------------------------------------------------------------------

  lemma LoginInTurn(u: User, c: Command)
    requires c.Login? && u.game.None? && ValidLogin(c.mac, c.name, c.code)
    ensures Takes(u, c)
  {
    hide ValidLogin;
  }

  /** The game that a login's product code stands for: the one it is linked to, up to the first NUL. */
  ghost function GameOfLogin(h: Hub, c: Command, o: Oracle): Bytes
    requires c.Login?
  {
    UpToNul(o.link(h.clock + 1, c.code))
  }

  lemma LoginIs(h: Hub, s: Sid, c: Command, o: Oracle)
    requires c.Login? && s in h.users && h.users[s].game.None? && ValidLogin(c.mac, c.name, c.code)
    ensures var g := GameOfLogin(h, c, o);
            var (r, ok) := Execute(h, s, c, o);
            && ok && r == h.(games := LoggedIn(h.games, g, s), clock := h.clock + 1,
                             users := h.users[s := h.users[s].(mac := c.mac, name := c.name, game := Some(g))])
  {
    hide ValidLogin, WorksFor;
  }

  /** `s` is the last of the users of `g` now; no other game, and no group, has changed. */
  ghost predicate Enlisted(games: map<Bytes, Game>, games': map<Bytes, Game>, g: Bytes, s: Sid) {
    && (forall x: Bytes :: UsersAt(games', x) == if x == g then UsersAt(games, g) + [s] else UsersAt(games, x))
    && (forall x: Bytes, k: Bytes :: ListAt(games', x, k) == ListAt(games, x, k))
  }

  /** The session plays `g` under its name and address, and everybody else is as before. */
  ghost predicate LoggedInAs(h: Hub, s: Sid, bytes: Bytes, c: Command, g: Bytes, q: Hub)
    requires s in h.users && c.Login?
  {
    && NobodyElse(h, s, q) && q.connections == h.connections && q.shutdown == h.shutdown
    && q.users[s] == Obeyed(h.users[s], bytes, c).(game := Some(g), mac := c.mac, name := c.name)
  }

  lemma LoggedInLooks(games: map<Bytes, Game>, g: Bytes, s: Sid)
    ensures Enlisted(games, LoggedIn(games, g, s), g, s)
  {
  }

  lemma LoginDone(h: Hub, x: Hub, s: Sid, c: Command, g: Bytes, bytes: Bytes, r: Hub, q: Hub)
    requires c.Login? && Feeds(h, s, bytes, x) && s in x.users
    requires r == x.(games := r.games, clock := r.clock,
                     users := x.users[s := x.users[s].(mac := c.mac, name := c.name, game := Some(g))])
    requires Notes(r, s, c, q)
    ensures LoggedInAs(h, s, bytes, c, g, q) && q.games == r.games
  {
  }

  /** The 144 bytes of a valid login, from a client that plays nothing yet: it is the last of the users of
      the game that its code stands for, under its name and address. Nobody is sent anything. */
  lemma LoginArrives(h: Hub, s: Sid, c: Command, bytes: Bytes, o: Oracle)
    requires Reachable(h) && c.Login? && Completes(h, s, bytes, c)
    requires h.users[s].game.None? && ValidLogin(c.mac, c.name, c.code)
    ensures Enabled(h, Chunk(s, bytes))
    ensures var q, g := Step(h, Chunk(s, bytes), o), GameOfLogin(h, c, o);
            LoggedInAs(h, s, bytes, c, g, q) && Enlisted(h.games, q.games, g, s)
  {
    ReachableKeeps(h);
    CompletesIs(h, s, bytes, c);
    hide *;
    var x, g := Ready(h, s, bytes), GameOfLogin(h, c, o);
    LoginInTurn(h.users[s], c);
    OneCommand(h, s, bytes, c, o);
    FeedsLooks(h, s, bytes, x);
    SameClock(h, x, c, o);
    LoginIs(x, s, c, o);
    LoggedInLooks(h.games, g, s);
    LoginDone(h, x, s, c, g, bytes, Execute(x, s, c, o).0, Step(h, Chunk(s, bytes), o));
  }

  lemma SameClock(h: Hub, x: Hub, c: Command, o: Oracle)
    requires c.Login? && x.clock == h.clock
    ensures GameOfLogin(x, c, o) == GameOfLogin(h, c, o)
  {
  }

  // ---- connect ---------------------------------------------------------------------------------

  lemma ConnectInTurn(u: User, c: Command)
    requires c.Connect? && u.game.Some? && u.group.None? && ValidGroup(c.group)
    ensures Takes(u, c)
  {
    hide ValidGroup;
  }

  /** The list of group `k` of game `g` is now `players`; no other group, and no game's users, have changed. */
  ghost predicate Relisted(games: map<Bytes, Game>, games': map<Bytes, Game>, g: Bytes, k: Bytes, players: seq<Sid>) {
    && ListAt(games', g, k) == players && SameElsewhere(games, games', g, k) && SameUsers(games, games')
  }

  lemma RegroupedLooks(games: map<Bytes, Game>, g: Bytes, k: Bytes, players: seq<Sid>)
    requires g in games
    ensures Relisted(games, Regrouped(games, g, k, players), g, k, players)
  {
    RegroupElsewhere(games, g, k, players);
    hide SameElsewhere, ListAt;
  }

  /** What the newcomer `s` is told: who the members are, in their order, and then the hardware address
      of the first of them, or its own if it is the first. */
  ghost predicate Introduced(us: map<Sid, User>, s: Sid, members: seq<Sid>, ps: seq<Packet>)
    requires s in us
  {
    && Known(us, members) && |ps| == |members| + 1
    && (forall i :: 0 <= i < |members| ==>
          ps[i] == ConnectPkt(us[members[i]].name, us[members[i]].mac, us[members[i]].ip))
    && ps[|members|] == BssidPkt(if members == [] then us[s].mac else us[members[0]].mac)
  }

  lemma GreetingsIntroduce(us: map<Sid, User>, s: Sid, members: seq<Sid>)
    requires s in us && Known(us, members)
    ensures Introduced(us, s, members, Greetings(us, members) + [BssidOf(us, s, members)])
  {
  }

  /** What becomes of the newcomer itself. */
  ghost predicate JoinedAs(us: map<Sid, User>, s: Sid, c: Command, bytes: Bytes, members: seq<Sid>, now: nat, v: User)
    requires s in us && c.Connect?
  {
    var u := us[s];
    && |u.log| <= |v.log| && Introduced(us, s, members, v.log[|u.log|..])
    && v == Obeyed(u, bytes, c).(group := Some(UpToNul(c.group)), logAtJoin := |u.log|, joinedAt := now,
                                            log := u.log + v.log[|u.log|..], out := Woken(u.out))
  }

  lemma JoinTells(h: Hub, x: Hub, s: Sid, k: Bytes, members: seq<Sid>, now: nat, r: Hub, q: Hub)
    requires s in h.users && NobodyElse(h, s, x) && s in x.users && ConnectOf(x.users[s]) == ConnectOf(h.users[s])
    requires Known(x.users, members) && Joined(x.users, r.users, s, members, k, now) && NobodyElse(r, s, q)
    ensures EachTold(h, s, members, ConnectOf(h.users[s]), q)
  {
    hide WasSent, Queued, Greetings, BssidOf, ConnectOf;
    forall t | t in h.users && t != s
      ensures WasSent(h.users[t], q.users[t], if t in members then [ConnectOf(h.users[s])] else [])
    {
      SentNone(h.users[t]);
      SentOne(h.users[t], ConnectOf(h.users[s]));
    }
  }

  lemma JoinDone(h: Hub, x: Hub, s: Sid, c: Command, bytes: Bytes, members: seq<Sid>, now: nat, r: Hub, v: User)
    requires c.Connect? && Feeds(h, s, bytes, x) && !h.users[s].closed && s in x.users && Known(x.users, members)
    requires Joined(x.users, r.users, s, members, UpToNul(c.group), now)
    requires v == r.users[s].(commands := r.users[s].commands + [c])
    ensures JoinedAs(h.users, s, c, bytes, members, now, v)
  {
    hide Queued, QueuedAll, Greetings, BssidOf, Introduced, UpToNul, Woken;
    var u, ps := h.users[s], Greetings(x.users, members) + [BssidOf(x.users, s, members)];
    GreetingsIntroduce(x.users, s, members);
    IntroducedSame(h.users, x.users, s, members, ps);
    QueuedGrows(x.users[s].(group := Some(UpToNul(c.group)), logAtJoin := |u.log|, joinedAt := now), ps);
    assert v.log[|u.log|..] == ps;
  }

  lemma QueuedGrows(u: User, ps: seq<Packet>)
    requires !u.closed && ps != []
    ensures QueuedAll(u, ps) == u.(log := u.log + ps, out := Woken(u.out))
  {
  }

  lemma IntroducedSame(us: map<Sid, User>, vs: map<Sid, User>, s: Sid, members: seq<Sid>, ps: seq<Packet>)
    requires s in us && us.Keys == vs.Keys && Introduced(vs, s, members, ps)
    requires forall t :: t in us ==> vs[t].mac == us[t].mac && vs[t].name == us[t].name && vs[t].ip == us[t].ip
    ensures Introduced(us, s, members, ps) && ps != []
  {
  }

  lemma ConnectHandled(x: Hub, s: Sid, c: Command, o: Oracle)
    requires c.Connect? && Sound(x) && s in x.users && x.users[s].game.Some? && x.users[s].group.None? && ValidGroup(c.group)
    ensures var g, k := x.users[s].game.value, UpToNul(c.group);
            var members := ListAt(x.games, g, k);
            var r := Execute(x, s, c, o).0;
            && r == x.(games := r.games, users := r.users, clock := x.clock + 1)
            && Relisted(x.games, r.games, g, k, members + [s])
            && Known(x.users, members) && Joined(x.users, r.users, s, members, k, x.clock + 1)
  {
    hide *;
    var g, k, now := x.users[s].game.value, UpToNul(c.group), x.(clock := x.clock + 1);
    var members := ListAt(x.games, g, k);
    PlaceOf(x, s);
    SoundLists(x, g, k);
    NotYetMember(x.users, s, g, k, members);
    ConnectIs(x, s, c.group, o);
    OnlyConnect(c);
    InSpot(x.users[s]);
    ConnectJoins(now, s, c.group, g, k, members);
    IntroduceJoins(x.users, s, members, k, x.clock + 1);
    RegroupedLooks(x.games, g, k, members + [s]);
  }

  lemma OnlyConnect(c: Command)
    requires c.Connect?
    ensures Connect(c.group) == c
  {
  }

  lemma InSpot(u: User)
    requires u.game.Some? && u.group.None?
    ensures Spot(u, Some(u.game.value), None)
  {
  }

  lemma SoundLists(h: Hub, g: Bytes, k: Bytes)
    requires Sound(h) && g in h.games
    ensures var members := ListAt(h.games, g, k);
            Known(h.users, members) && NoDup(members) && Fits(h.users, g, k, members)
  {
    ListsHaveUsers(h.games, h.users, g, k);
  }

  lemma SameConnectOf(u: User, v: User)
    requires v.name == u.name && v.mac == u.mac && v.ip == u.ip
    ensures ConnectOf(v) == ConnectOf(u) == ConnectPkt(u.name, u.mac, u.ip)
  {
  }

  /** The whole effect of joining the group whose members are `members`. */
  ghost predicate Connects(h: Hub, s: Sid, c: Command, bytes: Bytes, members: seq<Sid>, q: Hub)
    requires s in h.users && h.users[s].game.Some? && c.Connect?
  {
    var u := h.users[s];
    && s in q.users && q.connections == h.connections && q.shutdown == h.shutdown
    && Relisted(h.games, q.games, u.game.value, UpToNul(c.group), members + [s])
    && EachTold(h, s, members, ConnectPkt(u.name, u.mac, u.ip), q)
    && JoinedAs(h.users, s, c, bytes, members, h.clock + 1, q.users[s])
  }

  lemma JoinAll(h: Hub, x: Hub, s: Sid, c: Command, bytes: Bytes, members: seq<Sid>, r: Hub, q: Hub)
    requires c.Connect? && Feeds(h, s, bytes, x) && !h.users[s].closed && h.users[s].game.Some? && s in x.users
    requires r == x.(games := r.games, users := r.users, clock := x.clock + 1)
    requires Relisted(x.games, r.games, x.users[s].game.value, UpToNul(c.group), members + [s])
    requires Known(x.users, members) && Joined(x.users, r.users, s, members, UpToNul(c.group), x.clock + 1)
    requires Notes(r, s, c, q)
    ensures Connects(h, s, c, bytes, members, q)
  {
    hide EachTold, JoinedAs, Relisted, Joined, UpToNul, Known, ConnectOf;
    SameConnectOf(h.users[s], x.users[s]);
    JoinTells(h, x, s, UpToNul(c.group), members, h.clock + 1, r, q);
    JoinDone(h, x, s, c, bytes, members, h.clock + 1, r, q.users[s]);
  }

  /** The nine bytes of a connect with a valid name, from a client that plays and is in no group. It is the
      last on that group's list. Each member is sent the newcomer's name and addresses, and the newcomer
      each member's, in order, and then the first member's hardware address; nobody else is sent anything. */
  lemma ConnectArrives(h: Hub, s: Sid, c: Command, bytes: Bytes, o: Oracle)
    requires Reachable(h) && c.Connect? && Completes(h, s, bytes, c)
    requires h.users[s].game.Some? && h.users[s].group.None? && ValidGroup(c.group)
    ensures Enabled(h, Chunk(s, bytes))
    ensures Connects(h, s, c, bytes, ListAt(h.games, h.users[s].game.value, UpToNul(c.group)), Step(h, Chunk(s, bytes), o))
  {
    ReachableKeeps(h);
    CompletesIs(h, s, bytes, c);
    hide *;
    var x := Ready(h, s, bytes);
    ConnectInTurn(h.users[s], c);
    OneCommand(h, s, bytes, c, o);
    FeedsLooks(h, s, bytes, x);
    ConnectHandled(x, s, c, o);
    JoinAll(h, x, s, c, bytes, ListAt(h.games, h.users[s].game.value, UpToNul(c.group)), Execute(x, s, c, o).0,
            Step(h, Chunk(s, bytes), o));
  }

  // ---- disconnect ------------------------------------------------------------------------------

  lemma DisconnectInTurn(u: User)
    requires u.game.Some? && u.group.Some?
    ensures Takes(u, Disconnect)
  {
  }

  /** A group's list loses the session; no other group, and no game's users, change. */
  ghost predicate Delisted(games: map<Bytes, Game>, games': map<Bytes, Game>, g: Bytes, k: Bytes, s: Sid) {
    && Dropped(ListAt(games, g, k), ListAt(games', g, k), s)
    && SameElsewhere(games, games', g, k) && SameUsers(games, games')
  }

  /** The others in the group are sent the address of the one who leaves, once. */
  ghost predicate LeaveTold(h: Hub, s: Sid, q: Hub)
    requires s in h.users
  {
    var u := h.users[s];
    && q.users.Keys == h.users.Keys
    && forall t :: t in h.users && t != s ==>
         WasSent(h.users[t], q.users[t],
                 if u.game.Some? && u.group.Some? && InGroup(h.users[t], u.game.value, u.group.value)
                 then [DisconnectPkt(u.ip)] else [])
  }

  lemma LeaveTells(h: Hub, s: Sid)
    requires Sound(h) && s in h.users && h.users[s].game.Some? && h.users[s].group.Some?
    ensures var u, r := h.users[s], LeaveGroup(h, s);
            && LeaveTold(h, s, r) && Delisted(h.games, r.games, u.game.value, u.group.value, s)
            && r == h.(games := r.games, users := r.users) && r.users[s] == u.(group := None)
  {
    var u := h.users[s];
    var g, k := u.game.value, u.group.value;
    var members := ListAt(h.games, g, k);
    GroupIsListed(h, s);
    SoundLists(h, g, k);
    RemoveFirstSet(members, s);
    LeaveGroupIs(h, s);
    RemoveFirstDrops(members, s);
    RegroupedLooks(h.games, g, k, RemoveFirst(members, s));
    DeliverLeaves(h.users, s, RemoveFirst(members, s));
    LeftTells(h, s, RemoveFirst(members, s), LeaveGroup(h, s));
    hide *;
    RelistedDrops(h.games, LeaveGroup(h, s).games, g, k, s);
  }

  lemma RelistedDrops(games: map<Bytes, Game>, games': map<Bytes, Game>, g: Bytes, k: Bytes, s: Sid)
    requires Relisted(games, games', g, k, RemoveFirst(ListAt(games, g, k), s))
    requires Dropped(ListAt(games, g, k), RemoveFirst(ListAt(games, g, k), s), s)
    ensures Delisted(games, games', g, k, s)
  {
    hide Dropped, SameElsewhere, SameUsers, ListAt;
  }

  lemma GroupIsListed(h: Hub, s: Sid)
    requires Sound(h) && s in h.users && h.users[s].game.Some? && h.users[s].group.Some?
    ensures h.users[s].game.value in h.games && h.users[s].group.value in h.games[h.users[s].game.value].groups
  {
    assert PointerLive(h.games, h.users[s]);
  }

  lemma LeaveGroupIs(h: Hub, s: Sid)
    requires s in h.users && h.users[s].game.Some? && h.users[s].group.Some?
    requires h.users[s].game.value in h.games && h.users[s].group.value in h.games[h.users[s].game.value].groups
    ensures var u := h.users[s];
            var g, k := u.game.value, u.group.value;
            var rest := RemoveFirst(ListAt(h.games, g, k), s);
            LeaveGroup(h, s) == h.(games := Regrouped(h.games, g, k, rest),
                                   users := DeliverAll(h.users[s := u.(group := None)], rest, None, DisconnectPkt(u.ip)))
  {
    hide DeliverAll, RemoveFirst, WorksFor;
  }

  lemma LeftTells(h: Hub, s: Sid, rest: seq<Sid>, r: Hub)
    requires s in h.users && h.users[s].game.Some? && h.users[s].group.Some? && Left(h.users, r.users, s, rest)
    requires forall t :: t in rest <==>
      t in h.users && InGroup(h.users[t], h.users[s].game.value, h.users[s].group.value) && t != s
    ensures LeaveTold(h, s, r) && r.users[s] == h.users[s].(group := None)
  {
    hide WasSent, Queued;
    var p := DisconnectPkt(h.users[s].ip);
    forall t | t in h.users && t != s ensures WasSent(h.users[t], r.users[t], if t in rest then [p] else []) {
      SentNone(h.users[t]);
      SentOne(h.users[t], p);
    }
  }

  lemma DisconnectHandled(x: Hub, s: Sid, o: Oracle)
    requires s in x.users && x.users[s].game.Some? && x.users[s].group.Some?
    ensures Execute(x, s, Disconnect, o) == (LeaveGroup(x.(clock := x.clock + 1), s), true)
  {
    hide LeaveGroup, WorksFor;
  }

  /** The whole effect of leaving a group. */
  ghost predicate Disconnects(h: Hub, s: Sid, bytes: Bytes, q: Hub)
    requires s in h.users && h.users[s].game.Some? && h.users[s].group.Some?
  {
    var u := h.users[s];
    && q.connections == h.connections && q.shutdown == h.shutdown
    && Delisted(h.games, q.games, u.game.value, u.group.value, s) && LeaveTold(h, s, q)
    && q.users[s] == Obeyed(u, bytes, Disconnect).(group := None)
  }

  lemma SameTold(h: Hub, s: Sid, x: Hub, r: Hub, q: Hub)
    requires s in h.users && NobodyElse(h, s, x) && s in x.users && LeaveTold(x, s, r) && NobodyElse(r, s, q)
    requires x.users[s].ip == h.users[s].ip && x.users[s].game == h.users[s].game && x.users[s].group == h.users[s].group
    ensures LeaveTold(h, s, q)
  {
    hide WasSent, InGroup;
  }

  lemma DisconnectDone(h: Hub, x: Hub, s: Sid, bytes: Bytes, r: Hub, q: Hub)
    requires Feeds(h, s, bytes, x) && s in x.users && h.users[s].game.Some? && h.users[s].group.Some?
    requires LeaveTold(x, s, r) && Delisted(x.games, r.games, h.users[s].game.value, h.users[s].group.value, s)
    requires r == x.(games := r.games, users := r.users, clock := r.clock) && r.users[s] == x.users[s].(group := None)
    requires Notes(r, s, Disconnect, q)
    ensures Disconnects(h, s, bytes, q)
  {
    hide Delisted, LeaveTold;
    SameTold(h, s, x, r, q);
  }

  lemma ToldAtAnyTime(h: Hub, s: Sid, now: nat, r: Hub)
    requires s in h.users && LeaveTold(h.(clock := now), s, r)
    ensures LeaveTold(h, s, r)
  {
    hide WasSent, InGroup;
  }

  /** The one byte of a disconnect, sent by a member of a group: the client leaves the group and stays
      open, and each other member is sent its address, once. */
  lemma DisconnectArrives(h: Hub, s: Sid, bytes: Bytes, o: Oracle)
    requires Reachable(h) && Completes(h, s, bytes, Disconnect) && h.users[s].group.Some?
    ensures h.users[s].game.Some? && Enabled(h, Chunk(s, bytes))
    ensures Disconnects(h, s, bytes, Step(h, Chunk(s, bytes), o))
  {
    ReachableKeeps(h);
    CompletesIs(h, s, bytes, Disconnect);
    hide *;
    var x := Ready(h, s, bytes);
    GroupedPlays(h, s);
    DisconnectInTurn(h.users[s]);
    OneCommand(h, s, bytes, Disconnect, o);
    FeedsLooks(h, s, bytes, x);
    TickSound(x);
    DisconnectHandled(x, s, o);
    LeaveTells(x.(clock := x.clock + 1), s);
    ToldAtAnyTime(x, s, x.clock + 1, Execute(x, s, Disconnect, o).0);
    DisconnectDone(h, x, s, bytes, Execute(x, s, Disconnect, o).0, Step(h, Chunk(s, bytes), o));
  }
}
