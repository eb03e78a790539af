/** The game hub: connected users, the games they play and the groups they form, as values.

A reader activation, from one completed read to the next suspension, is one step. What the program
leaves to others is an `Oracle`: the product database's crosslinks and the order in which a hash map
is walked, both free to change from one use to the next.
*/
module GameModel {
  import opened Bytes
  import opened SessionNames
  import opened Packets

  type Sid = nat

  /** Where `writer` is suspended; `Runnable` is a wait whose wake-up is on its way. */
  datatype Writer = Runnable | Idle | Writing | Failed | Stopped

  /** Of the packets accepted for sending, the first `taken` have left the queue and the first
      `delivered` have been written to the client; the others are the queue. */
  datatype Outbox = Outbox(writer: Writer, taken: nat, delivered: nat)

  const EMPTY_OUTBOX: Outbox := Outbox(Runnable, 0, 0)

  /** `input`, `commands`, `log` and `cut` are history: every byte read, every command accepted, every
      packet accepted for sending, and whether something other than the reader closed the session.
      `joinedAt` and `logAtJoin` remember the last successful connect. */
  datatype User = User(
    ip: Ip,
    mac: Mac,
    name: RawNick,
    game: Option<Bytes>,
    group: Option<Bytes>,
    reaped: bool,
    closed: bool,
    rx: Bytes,
    log: seq<Packet>,
    out: Outbox,
    input: Bytes,
    commands: seq<Command>,
    cut: bool,
    joinedAt: nat,
    logAtJoin: nat)

  datatype Game = Game(groups: map<Bytes, seq<Sid>>, users: seq<Sid>)

  datatype Hub = Hub(
    games: map<Bytes, Game>,
    users: map<Sid, User>,
    connections: nat,
    shutdown: bool,
    clock: nat)

  const EMPTY_HUB: Hub := Hub(map[], map[], 0, false, 0)

  function BlankNick(): RawNick { DataFrom([], 128) }

  function NewUser(ip: Ip): User {
    User(ip, ['\0', '\0', '\0', '\0', '\0', '\0'], BlankNick(), None, None, false, false, [], [], EMPTY_OUTBOX, [], [], false, 0, 0)
  }

  datatype Oracle = Oracle(link: (nat, RawCode) -> RawCode, order: (nat, set<Bytes>) -> seq<Bytes>)

  ghost predicate ListsOnce(ks: seq<Bytes>, s: set<Bytes>) {
    && (forall k :: k in ks <==> k in s)
    && (forall i, j :: 0 <= i < j < |ks| ==> ks[i] != ks[j])
  }

  /** Walking a map meets every key exactly once. */
  ghost predicate Faithful(o: Oracle) {
    forall t, s :: ListsOnce(o.order(t, s), s)
  }

  // ---- lists ---------------------------------------------------------------------------------

  /** `vector_remove`: the first occurrence goes. */
  function RemoveFirst<T(==)>(v: seq<T>, x: T): seq<T> {
    if v == [] then [] else if v[0] == x then v[1..] else [v[0]] + RemoveFirst(v[1..], x)
  }

  // ---- sending -------------------------------------------------------------------------------

  /** `write_signal_.cancel_one` */
  function Woken(o: Outbox): Outbox { if o.writer.Idle? then o.(writer := Runnable) else o }

  /** `send_bytes` */
  function Queued(u: User, p: Packet): User {
    if u.closed then u else u.(log := u.log + [p], out := Woken(u.out))
  }

  /** What is queued grows, and then the writer is awake. */
  predicate Posted(u: User, v: User) {
    (v.log == u.log && v.out == u.out) || (!u.closed && u.log <= v.log && v.out == Woken(u.out))
  }

  /** At most packets were queued for this user. */
  predicate OnlySentTo(u: User, v: User) {
    v == u.(log := v.log, out := v.out) && Posted(u, v)
  }

  predicate AllOnlySentTo(us: map<Sid, User>, vs: map<Sid, User>) {
    us.Keys == vs.Keys && forall t :: t in us ==> OnlySentTo(us[t], vs[t])
  }

  lemma SentTrans(u: User, v: User, w: User)
    requires OnlySentTo(u, v) && OnlySentTo(v, w)
    ensures OnlySentTo(u, w)
  {
  }

  lemma AllSentTrans(us: map<Sid, User>, vs: map<Sid, User>, ws: map<Sid, User>)
    requires AllOnlySentTo(us, vs) && AllOnlySentTo(vs, ws)
    ensures AllOnlySentTo(us, ws)
  {
    hide OnlySentTo;
    forall t | t in us ensures OnlySentTo(us[t], ws[t]) {
      SentTrans(us[t], vs[t], ws[t]);
    }
  }

  function Deliver(us: map<Sid, User>, s: Sid, p: Packet): (r: map<Sid, User>)
    ensures AllOnlySentTo(us, r)
  {
    if s in us then us[s := Queued(us[s], p)] else us
  }

  /** The same packet to every session of a list except `skip`. */
  function DeliverAll(us: map<Sid, User>, to: seq<Sid>, skip: Option<Sid>, p: Packet): (r: map<Sid, User>)
    ensures AllOnlySentTo(us, r)
    decreases |to|
  {
    if to == [] then us
    else
      var one := if skip == Some(to[0]) then us else Deliver(us, to[0], p);
      var all := DeliverAll(one, to[1..], skip, p);
      AllSentTrans(us, one, all);
      all
  }

  function ConnectOf(u: User): Packet { ConnectPkt(u.name, u.mac, u.ip) }

  /** One turn of the loop of `handle_connect`: the member learns of the newcomer, the newcomer of the member. */
  function GreetOne(us: map<Sid, User>, s: Sid, member: Sid): (r: map<Sid, User>)
    requires s in us
    ensures AllOnlySentTo(us, r)
  {
    if member in us then
      var one := Deliver(us, member, ConnectOf(us[s]));
      var both := Deliver(one, s, ConnectOf(us[member]));
      AllSentTrans(us, one, both);
      both
    else us
  }

  function Greet(us: map<Sid, User>, s: Sid, members: seq<Sid>): (r: map<Sid, User>)
    requires s in us
    ensures AllOnlySentTo(us, r)
    decreases |members|
  {
    if members == [] then us
    else
      var one := GreetOne(us, s, members[0]);
      var all := Greet(one, s, members[1..]);
      AllSentTrans(us, one, all);
      all
  }

  // ---- handlers ------------------------------------------------------------------------------

  /** A handler works for `s`: it leaves the reader's fields of `s` alone, and to everybody else it
      at most sends packets. */
  predicate WorksFor(h: Hub, s: Sid, r: Hub) {
    && r.users.Keys == h.users.Keys
    && (forall t :: t in h.users && t != s ==> OnlySentTo(h.users[t], r.users[t]))
    && (s in h.users ==>
          var u, v := h.users[s], r.users[s];
          v.rx == u.rx && v.input == u.input && v.commands == u.commands && v.cut == u.cut
          && v.ip == u.ip && v.closed == u.closed && Posted(u, v))
  }

  lemma WorksForTrans(h: Hub, s: Sid, q: Hub, r: Hub)
    requires WorksFor(h, s, q) && WorksFor(q, s, r)
    ensures WorksFor(h, s, r)
  {
    hide OnlySentTo, Posted;
    forall t | t in h.users && t != s ensures OnlySentTo(h.users[t], r.users[t]) {
      SentTrans(h.users[t], q.users[t], r.users[t]);
    }
    if s in h.users { PostedTrans(h.users[s], q.users[s], r.users[s]); }
  }

  function PutUser(h: Hub, s: Sid, u: User): Hub { h.(users := h.users[s := u]) }

  function PutGroup(g: Game, k: Bytes, players: seq<Sid>): Game {
    g.(groups := if players == [] then g.groups - {k} else g.groups[k := players])
  }

  function PutGame(h: Hub, g: Bytes, game: Game): Hub { h.(games := h.games[g := game]) }

  function GameOrNew(h: Hub, key: Bytes): Game {
    if key in h.games then h.games[key] else Game(map[], [])
  }

  function MembersOrNone(g: Game, k: Bytes): seq<Sid> {
    if k in g.groups then g.groups[k] else []
  }

  /** `handle_login` */
  function HandleLogin(h: Hub, s: Sid, mac: Mac, name: RawNick, code: RawCode, o: Oracle): (r: (Hub, bool))
    requires s in h.users
    ensures WorksFor(h, s, r.0)
  {
    if h.users[s].game.Some? || !ValidLogin(mac, name, code) then (h, false)
    else
      var key := UpToNul(o.link(h.clock, code));
      var game := GameOrNew(h, key);
      (PutUser(PutGame(h, key, game.(users := game.users + [s])), s,
               h.users[s].(mac := mac, name := name, game := Some(key))), true)
  }

  /** The users after `s` has been introduced to `members` and has become one of group `key`. */
  function Introduce(us: map<Sid, User>, s: Sid, members: seq<Sid>, key: Bytes, now: nat): (r: map<Sid, User>)
    requires s in us
    ensures r.Keys == us.Keys
    ensures forall t :: t in us && t != s ==> OnlySentTo(us[t], r[t])
    ensures r[s] == us[s].(log := r[s].log, out := r[s].out,
                           group := Some(key), logAtJoin := |us[s].log|, joinedAt := now)
    ensures Posted(us[s], r[s])
  {
    var ready := us[s := us[s].(logAtJoin := |us[s].log|, joinedAt := now)];
    var greeted := Greet(ready, s, members);
    var joined := greeted[s := greeted[s].(group := Some(key))];
    var front := (members + [s])[0];
    var told := Deliver(joined, s, BssidPkt(if front in joined then joined[front].mac else us[s].mac));
    JoinPosts(us, s, key, now, ready, greeted, joined, told);
    told
  }

  lemma PostedTrans(u: User, v: User, w: User)
    requires Posted(u, v) && Posted(v, w) && v.closed == u.closed
    ensures Posted(u, w)
  {
  }

  /** The stages of a join, put together. */
  lemma JoinPosts(us: map<Sid, User>, s: Sid, key: Bytes, now: nat, ready: map<Sid, User>,
                  greeted: map<Sid, User>, joined: map<Sid, User>, told: map<Sid, User>)
    requires s in us && ready == us[s := us[s].(logAtJoin := |us[s].log|, joinedAt := now)]
    requires AllOnlySentTo(ready, greeted)
    requires joined == greeted[s := greeted[s].(group := Some(key))]
    requires AllOnlySentTo(joined, told)
    ensures told.Keys == us.Keys && Posted(us[s], told[s])
    ensures told[s] == us[s].(log := told[s].log, out := told[s].out,
                              group := Some(key), logAtJoin := |us[s].log|, joinedAt := now)
    ensures forall t :: t in us && t != s ==> OnlySentTo(us[t], told[t])
  {
    assert OnlySentTo(ready[s], greeted[s]) && OnlySentTo(joined[s], told[s]);
    PostedTrans(us[s], greeted[s], told[s]);
    forall t | t in us && t != s ensures OnlySentTo(us[t], told[t]) {
      hide OnlySentTo;
      assert OnlySentTo(ready[t], greeted[t]) && OnlySentTo(joined[t], told[t]);
      SentTrans(us[t], greeted[t], told[t]);
    }
  }

  /** `handle_connect` */
  function HandleConnect(h: Hub, s: Sid, raw: RawGroup): (r: (Hub, bool))
    requires s in h.users
    ensures WorksFor(h, s, r.0)
  {
    var u := h.users[s];
    if u.game.None? || !ValidGroup(raw) || u.group.Some? then (h, false)
    else
      var key := UpToNul(raw);
      var game := GameOrNew(h, u.game.value);
      var members := MembersOrNone(game, key);
      (PutGame(h, u.game.value, PutGroup(game, key, members + [s]))
       .(users := Introduce(h.users, s, members, key, h.clock)), true)
  }

  /** `leave_group` */
  function LeaveGroup(h: Hub, s: Sid): (r: Hub)
    requires s in h.users
    ensures WorksFor(h, s, r)
    ensures r.users[s] == h.users[s].(group := None, log := r.users[s].log, out := r.users[s].out)
    ensures r.connections == h.connections && r.clock == h.clock && r.shutdown == h.shutdown
  {
    var u := h.users[s];
    var alone := h.users[s := u.(group := None)];
    if u.group.None? then h
    else if u.game.None? || u.game.value !in h.games then h.(users := alone)
    else
      var game := h.games[u.game.value];
      var rest := RemoveFirst(MembersOrNone(game, u.group.value), s);
      PutGame(h, u.game.value, PutGroup(game, u.group.value, rest))
      .(users := DeliverAll(alone, rest, None, DisconnectPkt(u.ip)))
  }

  /** `handle_disconnect` */
  function HandleDisconnect(h: Hub, s: Sid): (r: (Hub, bool))
    requires s in h.users
    ensures WorksFor(h, s, r.0)
  {
    if h.users[s].game.None? || h.users[s].group.None? then (h, false) else (LeaveGroup(h, s), true)
  }

  function GroupField(k: Bytes): RawGroup { DataFrom(k, 8) }

  /** The address that a scan reports for a group, and that joining it returns: its first member's. */
  function FrontMac(h: Hub, players: seq<Sid>, own: Mac): Mac {
    if players != [] && players[0] in h.users then h.users[players[0]].mac else own
  }

  /** The scan packets for the groups `ks`, in that order. */
  function ScanPackets(h: Hub, game: Game, own: Mac, ks: seq<Bytes>): (r: seq<Packet>)
    ensures |r| == |ks|
    ensures forall i :: 0 <= i < |ks| ==>
      r[i] == ScanPkt(GroupField(ks[i]), FrontMac(h, MembersOrNone(game, ks[i]), own))
  {
    if ks == [] then []
    else
      [ScanPkt(GroupField(ks[0]), FrontMac(h, MembersOrNone(game, ks[0]), own))] + ScanPackets(h, game, own, ks[1..])
  }

  function QueuedAll(u: User, ps: seq<Packet>): (r: User)
    ensures OnlySentTo(u, r)
  {
    if u.closed || ps == [] then u else u.(log := u.log + ps, out := Woken(u.out))
  }

  /** `handle_scan` */
  function HandleScan(h: Hub, s: Sid, o: Oracle): (r: (Hub, bool))
    requires s in h.users
    ensures WorksFor(h, s, r.0)
  {
    var u := h.users[s];
    if u.game.None? || u.group.Some? then (h, false)
    else
      var game := GameOrNew(h, u.game.value);
      var ps := ScanPackets(h, game, u.mac, o.order(h.clock, game.groups.Keys)) + [ScanComplete];
      (PutUser(h, s, QueuedAll(u, ps)), true)
  }

  function ChatOf(message: RawChat, name: RawNick): Packet { ChatPkt(DataFrom(UpToNul(message), 64), name) }

  /** `handle_chat` */
  function HandleChat(h: Hub, s: Sid, message: RawChat): (r: (Hub, bool))
    requires s in h.users
    ensures WorksFor(h, s, r.0)
  {
    var u := h.users[s];
    if u.game.None? || u.group.None? then (h, false)
    else
      var players := MembersOrNone(GameOrNew(h, u.game.value), u.group.value);
      (h.(users := DeliverAll(h.users, players, Some(s), ChatOf(message, u.name))), true)
  }

  /** `vector_remove(game->users, ..)` and `destroy_game_if_empty` */
  function QuitGame(h: Hub, s: Sid): (r: Hub)
    requires s in h.users
    ensures WorksFor(h, s, r)
  {
    var u := h.users[s];
    if u.game.None? || u.game.value !in h.games then h
    else
      var game := h.games[u.game.value];
      var rest := RemoveFirst(game.users, s);
      PutUser(if rest == [] then h.(games := h.games - {u.game.value})
              else PutGame(h, u.game.value, game.(users := rest)),
              s, u.(game := None))
  }

  /** `close_connection` */
  function Reap(h: Hub, s: Sid): (r: Hub)
    requires s in h.users
    ensures WorksFor(h, s, r)
  {
    if h.users[s].reaped then h
    else
      var marked := PutUser(h, s, h.users[s].(reaped := true));
      var left := LeaveGroup(marked, s);
      var q := QuitGame(left, s);
      WorksForTrans(marked, s, left, q);
      q.(connections := if q.connections != 0 then q.connections - 1 else 0)
  }

  // ---- the reader ----------------------------------------------------------------------------

  /** The handler for one command. */
  function Dispatch(h: Hub, s: Sid, c: Command, o: Oracle): (r: (Hub, bool))
    requires s in h.users
    ensures WorksFor(h, s, r.0)
  {
    match c
    case Ping => (h, true)
    case Login(mac, name, code) => HandleLogin(h, s, mac, name, code, o)
    case Connect(group) => HandleConnect(h, s, group)
    case Disconnect => HandleDisconnect(h, s)
    case Scan => HandleScan(h, s, o)
    case Chat(message) => HandleChat(h, s, message)
  }

  /** Every execution has a time of its own. */
  function Execute(h: Hub, s: Sid, c: Command, o: Oracle): (r: (Hub, bool))
    requires s in h.users
    ensures WorksFor(h, s, r.0)
  {
    Dispatch(h.(clock := h.clock + 1), s, c, o)
  }

  function ClosedUser(u: User): User { if u.closed then u else u.(closed := true, out := Woken(u.out)) }

  /** `close` */
  function Shut(h: Hub, s: Sid): Hub
    requires s in h.users
  {
    PutUser(h, s, ClosedUser(h.users[s]))
  }

  /** Something other than the reader's own decision ends a session that was open. */
  function CutUser(u: User): User { if u.closed then u else u.(cut := true) }

  function Eaten(u: User, size: nat): User
    requires size <= |u.rx|
  {
    u.(rx := u.rx[size..])
  }

  /** `v` is what another session's activation, or this session's handlers, may make of `u`. */
  predicate SameIntake(u: User, v: User) {
    v.input == u.input && v.cut == u.cut && v.ip == u.ip
  }

  /** Take one command off the buffer, run its handler, and note it if it was accepted. */
  function Obey(h: Hub, s: Sid, c: Command, size: nat, o: Oracle): (r: (Hub, bool))
    requires s in h.users && size <= |h.users[s].rx|
    ensures r.0.users.Keys == h.users.Keys
    ensures forall t :: t in h.users && t != s ==> OnlySentTo(h.users[t], r.0.users[t])
    ensures SameIntake(h.users[s], r.0.users[s]) && r.0.users[s].rx == h.users[s].rx[size..]
  {
    var (r, ok) := Execute(PutUser(h, s, Eaten(h.users[s], size)), s, c, o);
    if ok then (PutUser(r, s, r.users[s].(commands := r.users[s].commands + [c])), true) else (Shut(r, s), false)
  }

  /** The inner loop of `reader`. */
  function Drain(h: Hub, s: Sid, o: Oracle): (r: Hub)
    requires s in h.users
    ensures r.users.Keys == h.users.Keys
    ensures SameIntake(h.users[s], r.users[s])
    decreases |h.users[s].rx|
  {
    var u := h.users[s];
    if u.rx == [] || u.closed then h
    else
      match Lex(u.game.Some?, u.rx)
      case NeedMore => h
      case Malformed => Shut(h, s)
      case Got(c, size) =>
        var (r, ok) := Obey(h, s, c, size, o);
        if ok then Drain(r, s, o) else r
  }

  // ---- the writer ----------------------------------------------------------------------------

  /** The top of the loop in `writer`. */
  function WriterLoop(u: User): User {
    if u.closed then u.(out := u.out.(writer := Stopped))
    else if u.out.taken >= |u.log| then u.(out := u.out.(writer := Idle))
    else u.(out := u.out.(writer := Writing, taken := u.out.taken + 1))
  }

  /** A write completes; one that fails closes the session. */
  function WriteDone(u: User, ok: bool): User {
    if ok then WriterLoop(u.(out := u.out.(delivered := u.out.delivered + 1)))
    else
      var v := ClosedUser(CutUser(u));
      v.(out := v.out.(writer := Failed))
  }

  // ---- events --------------------------------------------------------------------------------

  datatype Event =
    | Open(s: Sid, ip: Ip)
    | Chunk(s: Sid, bytes: Bytes)
    | ReadFailed(s: Sid)
    | CloseFrom(s: Sid)
    | WriterRuns(s: Sid)
    | Written(s: Sid, ok: bool)
    | Shutdown

  predicate Enabled(h: Hub, e: Event) {
    match e
    case Open(s, _) => s !in h.users
    case Chunk(s, bytes) =>
      s in h.users && !h.users[s].reaped && 0 < |bytes| && |h.users[s].rx| + |bytes| <= RX_SIZE
    case ReadFailed(s) => s in h.users && !h.users[s].reaped
    case CloseFrom(s) => s in h.users
    case WriterRuns(s) => s in h.users && h.users[s].out.writer.Runnable?
    case Written(s, _) => s in h.users && h.users[s].out.writer.Writing?
    case Shutdown => true
  }

  /** The reader's loops are over: `close` and `close_connection`. */
  function EndReader(h: Hub, s: Sid): Hub
    requires s in h.users
  {
    Reap(Shut(h, s), s)
  }

  /** The head of the outer loop: stop when closed, or when the buffer is full. */
  function LoopHead(h: Hub, s: Sid): Hub
    requires s in h.users
  {
    if h.users[s].closed || |h.users[s].rx| >= RX_SIZE then EndReader(h, s) else h
  }

  function Received(u: User, bytes: Bytes): User { u.(rx := u.rx + bytes, input := u.input + bytes) }

  const SHUTDOWN_TEXT: Bytes := "PROMETHEUS HUB IS SHUTTING DOWN!"

  function ShutdownPacket(): Packet { ChatPkt(DataFrom(SHUTDOWN_TEXT, 64), BlankNick()) }

  function Told(u: User): User {
    if u.group.Some? then Queued(u, ShutdownPacket()) else u
  }

  /** `broadcast_shutdown`: every member of every group, once. */
  function Announce(h: Hub): Hub {
    if h.shutdown then h
    else h.(shutdown := true, users := map s | s in h.users :: Told(h.users[s]))
  }

  function Step(h: Hub, e: Event, o: Oracle): Hub
    requires Enabled(h, e)
  {
    match e
    case Open(s, ip) =>
      if h.connections >= SERVER_USER_MAXIMUM then h
      else h.(users := h.users[s := NewUser(ip)], connections := h.connections + 1)
    case Chunk(s, bytes) =>
      LoopHead(Drain(PutUser(h, s, Received(h.users[s], bytes)), s, o), s)
    case ReadFailed(s) => EndReader(PutUser(h, s, CutUser(h.users[s])), s)
    case CloseFrom(s) => Shut(PutUser(h, s, CutUser(h.users[s])), s)
    case WriterRuns(s) => PutUser(h, s, WriterLoop(h.users[s]))
    case Written(s, ok) => PutUser(h, s, WriteDone(h.users[s], ok))
    case Shutdown => Announce(h)
  }
}
