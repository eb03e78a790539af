/** The game hub as the program writes it: games, groups and sessions are objects that point at each
other and change in place, and a session's reader works in a fixed buffer.

`Registry.Handle` runs one event and is proved to do exactly one `GameModel.Step`.
*/
module GameServers {
  import opened Bytes
  import opened SessionNames
  import opened Packets
  import opened GameModel
  import opened GameInvariant
  import opened GameViews
  import opened GameHandlers
  import opened GameReader
  import opened GameRuns

  /** `game_node` */
  class GameNode {
    const code_str: Bytes
    var groups: map<Bytes, GroupNode>
    var users: seq<UserSession>

    constructor (code: Bytes)
      ensures code_str == code && groups == map[] && users == []
    {
      code_str, groups, users := code, map[], [];
    }
  }

  /** `group_node` */
  class GroupNode {
    const name: Bytes
    const game: GameNode
    var players: seq<UserSession>

    constructor (name: Bytes, game: GameNode)
      ensures this.name == name && this.game == game && players == []
    {
      this.name, this.game, players := name, game, [];
    }
  }

  function CodeOf(game: GameNode?): Option<Bytes> { if game == null then None else Some(game.code_str) }
  function NameOf(group: GroupNode?): Option<Bytes> { if group == null then None else Some(group.name) }

  /** The queue holds the bytes of exactly the packets that the writer has not taken, in order; the client
      has got the bytes of exactly those that were written. */
  ghost predicate Packed(log: seq<Packet>, out: Outbox, queue: seq<Bytes>, flight: Bytes, sent: Bytes) {
    && out.taken + |queue| == |log|
    && (forall i :: 0 <= i < |queue| ==> queue[i] == Encode(log[out.taken + i]))
    && out.taken == out.delivered + (if out.writer.Writing? || out.writer.Failed? then 1 else 0)
    && (out.writer.Writing? ==> flight == Encode(log[out.delivered]))
    && sent == EncodeAll(log[..out.delivered])
  }

  lemma PackedPush(log: seq<Packet>, out: Outbox, queue: seq<Bytes>, flight: Bytes, sent: Bytes, p: Packet)
    requires Packed(log, out, queue, flight, sent)
    ensures Packed(log + [p], Woken(out), queue + [Encode(p)], flight, sent)
  {
    hide Encode, EncodeAll;
    assert (log + [p])[..out.delivered] == log[..out.delivered];
  }

  lemma PackedWoken(log: seq<Packet>, out: Outbox, queue: seq<Bytes>, flight: Bytes, sent: Bytes)
    requires Packed(log, out, queue, flight, sent)
    ensures Packed(log, Woken(out), queue, flight, sent)
    ensures |queue| == |log| - out.taken
  {
    hide Encode, EncodeAll;
  }

  /** The writer stops, sleeps, or takes the front packet. */
  lemma PackedTake(log: seq<Packet>, out: Outbox, queue: seq<Bytes>, flight: Bytes, sent: Bytes)
    requires Packed(log, out, queue, flight, sent) && !out.writer.Writing? && !out.writer.Failed?
    ensures |queue| == |log| - out.taken
    ensures Packed(log, out.(writer := Stopped), queue, flight, sent)
    ensures Packed(log, out.(writer := Idle), queue, flight, sent)
    ensures queue != [] ==> Packed(log, out.(writer := Writing, taken := out.taken + 1), queue[1..], queue[0], sent)
  {
    hide Encode, EncodeAll;
  }

  lemma PackedDone(log: seq<Packet>, out: Outbox, queue: seq<Bytes>, flight: Bytes, sent: Bytes)
    requires Packed(log, out, queue, flight, sent) && out.writer.Writing?
    ensures Packed(log, out.(writer := Runnable, delivered := out.delivered + 1), queue, flight, sent + flight)
    ensures Packed(log, out.(writer := Failed), queue, flight, sent)
  {
    hide Encode, EncodeAll;
    assert log[..out.delivered + 1] == log[..out.delivered] + [log[out.delivered]];
    EncodeAllAppend(log[..out.delivered], log[out.delivered]);
  }

  /** `user_session` and `session_impl`. The suspended writer is the field `out`; `sent` is history:
      every byte that reached the client. */
  class UserSession {
    const id: Sid
    const ip_be: Ip
    const rx_: array<Byte>
    var mac: Mac
    var name: RawNick
    var game: GameNode?
    var group: GroupNode?
    var reaped: bool
    var rxpos_: nat
    var write_queue_: seq<Bytes>
    var in_flight_: Bytes
    var closed_: bool
    ghost var log: seq<Packet>
    ghost var out: Outbox
    ghost var sent: Bytes
    ghost var input: Bytes
    ghost var commands: seq<Command>
    ghost var cut: bool
    ghost var joinedAt: nat
    ghost var logAtJoin: nat

    ghost predicate Valid()
      reads this`rxpos_, this`write_queue_, this`in_flight_, this`log, this`out, this`sent
    {
      rx_.Length == RX_SIZE && rxpos_ <= RX_SIZE && Packed(log, out, write_queue_, in_flight_, sent)
    }

    ghost function View(): User
      requires Valid()
      reads this, rx_
    {
      User(ip_be, mac, name, CodeOf(game), NameOf(group), reaped, closed_, rx_[..rxpos_],
           log, out, input, commands, cut, joinedAt, logAtJoin)
    }

    constructor (id: Sid, ip: Ip)
      ensures Valid() && View() == NewUser(ip) && this.id == id && ip_be == ip && fresh(rx_)
      ensures game == null && group == null
    {
      this.id, ip_be := id, ip;
      rx_ := new Byte[RX_SIZE];
      mac, name := ['\0', '\0', '\0', '\0', '\0', '\0'], BlankNick();
      game, group, reaped := null, null, false;
      rxpos_, write_queue_, in_flight_, closed_ := 0, [], [], false;
      log, out, sent, input, commands, cut, joinedAt, logAtJoin := [], EMPTY_OUTBOX, [], [], [], false, 0, 0;
    }

    /** `send_bytes` */
    method SendBytes(bytes: Bytes, ghost p: Packet)
      requires Valid() && bytes == Encode(p)
      modifies this`write_queue_, this`log, this`out
      ensures Valid() && View() == Queued(old(View()), p)
    {
      hide Packed, Encode, Woken;
      if closed_ || bytes == [] {
        return;
      }
      PackedPush(log, out, write_queue_, in_flight_, sent, p);
      write_queue_ := write_queue_ + [bytes];
      log := log + [p];
      out := Woken(out);
    }

    /** `close` */
    method Close()
      requires Valid()
      modifies this`closed_, this`out
      ensures Valid() && View() == ClosedUser(old(View())) && closed_
    {
      hide Packed, Woken;
      if closed_ {
        return;
      }
      PackedWoken(log, out, write_queue_, in_flight_, sent);
      closed_ := true;
      out := Woken(out);
    }

    method Place(game: GameNode?, group: GroupNode?)
      requires Valid()
      modifies this`game, this`group
      ensures Valid() && this.game == game && this.group == group
      ensures View() == old(View()).(game := CodeOf(game), group := NameOf(group))
    {
      hide Packed;
      this.game, this.group := game, group;
    }

    method Identify(mac: Mac, name: RawNick)
      requires Valid()
      modifies this`mac, this`name
      ensures Valid() && View() == old(View()).(mac := mac, name := name)
    {
      hide Packed;
      this.mac, this.name := mac, name;
    }

    method MarkReaped()
      requires Valid()
      modifies this`reaped
      ensures Valid() && View() == old(View()).(reaped := true)
    {
      hide Packed;
      reaped := true;
    }

    /** History: the session is joining a group now. */
    ghost method MarkJoin(now: nat)
      requires Valid()
      modifies this`logAtJoin, this`joinedAt
      ensures Valid() && View() == old(View()).(logAtJoin := |old(View()).log|, joinedAt := now)
    {
      hide Packed;
      logAtJoin, joinedAt := |log|, now;
    }

    /** History: the command was accepted. */
    ghost method MarkObeyed(c: Command)
      requires Valid()
      modifies this`commands
      ensures Valid() && View() == old(View()).(commands := old(View()).commands + [c])
    {
      hide Packed;
      commands := commands + [c];
    }

    /** History: something other than the reader's own decision ends the session. */
    ghost method MarkCut()
      requires Valid()
      modifies this`cut
      ensures Valid() && View() == CutUser(old(View()))
    {
      hide Packed;
      cut := cut || !closed_;
    }

    /** `writer`, from the top of its loop to its next suspension. */
    method RunWriter()
      requires Valid() && !out.writer.Writing? && !out.writer.Failed?
      modifies this`write_queue_, this`in_flight_, this`out
      ensures Valid() && View() == WriterLoop(old(View())) && sent == old(sent)
    {
      hide Packed;
      PackedTake(log, out, write_queue_, in_flight_, sent);
      if closed_ {
        out := out.(writer := Stopped);
      } else if write_queue_ == [] {
        out := out.(writer := Idle);
      } else {
        in_flight_ := write_queue_[0];
        write_queue_ := write_queue_[1..];
        out := out.(writer := Writing, taken := out.taken + 1);
      }
    }

    /** A write completes: all of the packet has reached the client, or the session closes. */
    method FinishWrite(ok: bool)
      requires Valid() && out.writer.Writing?
      modifies this`write_queue_, this`in_flight_, this`closed_, this`cut, this`out, this`sent
      ensures Valid() && View() == WriteDone(old(View()), ok)
      ensures sent == if ok then old(sent) + old(in_flight_) else old(sent)
    {
      hide Packed;
      PackedDone(log, out, write_queue_, in_flight_, sent);
      if ok {
        sent := sent + in_flight_;
        out := out.(writer := Runnable, delivered := out.delivered + 1);
        RunWriter();
      } else {
        MarkCut();
        Close();
        out := out.(writer := Failed);
      }
    }

    /** A completed read: its bytes stand behind those that were there. */
    method Fill(bytes: Bytes)
      requires Valid() && rxpos_ + |bytes| <= RX_SIZE
      modifies this`rxpos_, this`input, rx_
      ensures Valid() && View() == Received(old(View()), bytes)
    {
      hide Packed;
      ghost var was := rx_[..rxpos_];
      var i := 0;
      while i < |bytes|
        invariant i <= |bytes|
        invariant rx_[..rxpos_ + i] == was + bytes[..i]
        modifies rx_
      {
        rx_[rxpos_ + i] := bytes[i];
        i := i + 1;
      }
      assert bytes[..i] == bytes;
      rxpos_ := rxpos_ + |bytes|;
      input := input + bytes;
    }

    /** `consume_rx`: what is left moves to the front of the buffer. */
    method ConsumeRx(n: nat)
      requires Valid()
      modifies this`rxpos_, rx_
      ensures Valid()
      ensures var size := if n > |old(View()).rx| then |old(View()).rx| else n; View() == Eaten(old(View()), size)
      ensures rxpos_ == if n > old(rxpos_) then 0 else old(rxpos_) - n
    {
      hide Packed;
      var size := if n > rxpos_ then rxpos_ else n;
      var i := 0;
      while i < rxpos_ - size
        invariant 0 <= i <= rxpos_ - size
        invariant rx_[..i] == old(rx_[size..size + i])
        invariant forall j :: i <= j < rx_.Length ==> rx_[j] == old(rx_[j])
        modifies rx_
      {
        rx_[i] := rx_[size + i];
        i := i + 1;
      }
      rxpos_ := rxpos_ - size;
      assert rx_[..rxpos_] == old(rx_[..rxpos_])[size..];
    }

    /** What `reader` makes of the front of its buffer. */
    method Front() returns (l: Lexed)
      requires Valid() && rxpos_ > 0
      ensures l == Lex(game != null, rx_[..rxpos_])
    {
      var op := rx_[0];
      ghost var rx := rx_[..rxpos_];
      if game == null {
        if op != OP_LOGIN {
          return Malformed;
        }
        if rxpos_ < 144 {
          return NeedMore;
        }
        assert rx[1..7] == rx_[1..7] && rx[7..135] == rx_[7..135] && rx[135..144] == rx_[135..144];
        return Got(Login(rx_[1..7], rx_[7..135], rx_[135..144]), 144);
      }
      if op == OP_PING {
        return Got(Ping, 1);
      } else if op == OP_CONNECT {
        if rxpos_ < 9 {
          return NeedMore;
        }
        assert rx[1..9] == rx_[1..9];
        return Got(Connect(rx_[1..9]), 9);
      } else if op == OP_DISCONNECT {
        return Got(Disconnect, 1);
      } else if op == OP_SCAN {
        return Got(Scan, 1);
      } else if op == OP_CHAT {
        if rxpos_ < 65 {
          return NeedMore;
        }
        assert rx[1..65] == rx_[1..65];
        return Got(Chat(rx_[1..65]), 65);
      } else {
        return Malformed;
      }
    }
  }

  // ---- what ties the objects to the model ----------------------------------------------------

  type Sessions = map<Sid, UserSession>

  /** Every session object shows what the model says about it, and has a buffer of its own. */
  ghost predicate Objects(sessions: Sessions, buffers: set<array<Byte>>, us: map<Sid, User>)
    reads sessions.Values, buffers
  {
    && sessions.Keys == us.Keys
    && forall s :: s in sessions ==>
         sessions[s].rx_ in buffers && sessions[s].id == s && sessions[s].Valid() && sessions[s].View() == us[s]
  }

  /** All but `x` show what the model says, so nothing here changes with `x` or its buffer. */
  ghost predicate ShowExcept(sessions: Sessions, buffers: set<array<Byte>>, us: map<Sid, User>, x: UserSession)
    reads sessions.Values - {x}, buffers - {x.rx_}
  {
    && sessions.Keys == us.Keys
    && (forall s :: s in sessions ==> sessions[s].rx_ in buffers && sessions[s].id == s)
    && forall s :: s in sessions && sessions[s] != x ==>
         sessions[s].rx_ != x.rx_ && sessions[s].Valid() && sessions[s].View() == us[s]
  }

  lemma ObjectsPut(sessions: Sessions, buffers: set<array<Byte>>, us: map<Sid, User>, x: UserSession)
    requires x.id in sessions && sessions[x.id] == x && x.Valid()
    requires ShowExcept(sessions, buffers, us, x)
    ensures Objects(sessions, buffers, us[x.id := x.View()])
  {
    hide UserSession.View, UserSession.Valid;
  }

  lemma ObjectsAside(sessions: Sessions, buffers: set<array<Byte>>, us: map<Sid, User>, x: UserSession)
    requires Objects(sessions, buffers, us) && Apart(sessions) && x.id in sessions && sessions[x.id] == x
    ensures x.id in us && x.Valid() && x.View() == us[x.id] && x.rx_ in buffers && ShowExcept(sessions, buffers, us, x)
  {
    hide UserSession.View, UserSession.Valid;
  }

  ghost predicate Apart(sessions: Sessions) {
    forall s, t :: s in sessions && t in sessions && s != t ==> sessions[s].rx_ != sessions[t].rx_
  }

  /** A list of pointers is the model's list. */
  ghost predicate Listed(sessions: Sessions, v: seq<UserSession>, ids: seq<Sid>) {
    |v| == |ids| && forall i :: 0 <= i < |v| ==> ids[i] in sessions && v[i] == sessions[ids[i]]
  }

  type Groups = map<Bytes, GroupNode>
  type Games = map<Bytes, GameNode>

  ghost predicate ShapeOf(node: GameNode, groups: Groups) {
    forall k :: k in groups ==> groups[k].name == k && groups[k].game == node
  }

  /** Nodes stand under their own names, and a group knows its game: so no node stands in two places. */
  ghost predicate Shape(games: Games, groupsOf: map<Bytes, Groups>) {
    games.Keys == groupsOf.Keys
    && forall g :: g in games ==> games[g].code_str == g && ShapeOf(games[g], groupsOf[g])
  }

  ghost predicate GroupsShow(sessions: Sessions, groups: Groups, model: map<Bytes, seq<Sid>>)
    reads groups.Values`players
  {
    groups.Keys == model.Keys && forall k :: k in groups ==> Listed(sessions, groups[k].players, model[k])
  }

  ghost predicate GameShows(sessions: Sessions, node: GameNode, groups: Groups, model: Game)
    reads node`users, node`groups, groups.Values`players
  {
    node.groups == groups && Listed(sessions, node.users, model.users) && GroupsShow(sessions, groups, model.groups)
  }

  ghost predicate GamesShow(sessions: Sessions, games: Games, groupsOf: map<Bytes, Groups>, nodes: set<GroupNode>,
                            model: map<Bytes, Game>)
    reads games.Values`users, games.Values`groups, nodes`players
  {
    && games.Keys == model.Keys == groupsOf.Keys
    && forall g :: g in games ==>
         groupsOf[g].Values <= nodes && GameShows(sessions, games[g], groupsOf[g], model[g])
  }

  /** Every game but `g`. */
  ghost predicate RestShow(sessions: Sessions, games: Games, groupsOf: map<Bytes, Groups>, nodes: set<GroupNode>,
                           model: map<Bytes, Game>, g: Bytes)
    reads games.Values`users, games.Values`groups, nodes`players
  {
    && games.Keys == groupsOf.Keys && games.Keys + {g} == model.Keys + {g}
    && forall o :: o in games && o != g ==>
         groupsOf[o].Values <= nodes && GameShows(sessions, games[o], groupsOf[o], model[o])
  }

  lemma GamesShowPut(sessions: Sessions, games: Games, groupsOf: map<Bytes, Groups>, nodes: set<GroupNode>,
                     model: map<Bytes, Game>, g: Bytes, game: Game)
    requires RestShow(sessions, games, groupsOf, nodes, model, g) && g in games
    requires groupsOf[g].Values <= nodes && GameShows(sessions, games[g], groupsOf[g], game)
    ensures GamesShow(sessions, games, groupsOf, nodes, model[g := game])
  {
    hide GameShows;
  }

  lemma GamesShowAt(sessions: Sessions, games: Games, groupsOf: map<Bytes, Groups>, nodes: set<GroupNode>,
                    model: map<Bytes, Game>, g: Bytes)
    requires GamesShow(sessions, games, groupsOf, nodes, model)
    ensures RestShow(sessions, games, groupsOf, nodes, model, g)
    ensures g in games <==> g in model
    ensures g in games ==>
              g in groupsOf && groupsOf[g].Values <= nodes && GameShows(sessions, games[g], groupsOf[g], model[g])
  {
    hide GameShows;
  }

  lemma ListedPush(sessions: Sessions, v: seq<UserSession>, ids: seq<Sid>, x: UserSession)
    requires Listed(sessions, v, ids) && x.id in sessions && sessions[x.id] == x
    ensures Listed(sessions, v + [x], ids + [x.id])
  {
  }

  lemma {:induction false} ListedRemove(sessions: Sessions, v: seq<UserSession>, ids: seq<Sid>, x: UserSession)
    requires Listed(sessions, v, ids) && x.id in sessions && sessions[x.id] == x
    requires forall s :: s in sessions ==> sessions[s].id == s
    ensures Listed(sessions, RemoveFirst(v, x), RemoveFirst(ids, x.id))
  {
    if v != [] {
      assert v[0] == x <==> ids[0] == x.id;
      assert forall i :: 0 <= i < |v[1..]| ==> v[1..][i] == v[i + 1] && ids[1..][i] == ids[i + 1];
      ListedRemove(sessions, v[1..], ids[1..], x);
      assert v[0] == sessions[ids[0]];
    }
  }

  /** Where a back-pointer's code or name is in use, the pointer is to the node in use. */
  ghost predicate PointsRight(games: Games, groupsOf: map<Bytes, Groups>, game: GameNode?, group: GroupNode?) {
    && (game != null && game.code_str in games ==> games[game.code_str] == game)
    && (group != null ==>
         && game != null && group.game == game
         && (game.code_str in groupsOf && group.name in groupsOf[game.code_str] ==>
               groupsOf[game.code_str][group.name] == group))
  }

  ghost predicate Wired(games: Games, groupsOf: map<Bytes, Groups>, sessions: Sessions)
    reads sessions.Values`game, sessions.Values`group
  {
    forall s :: s in sessions ==> PointsRight(games, groupsOf, sessions[s].game, sessions[s].group)
  }

  /** Nobody plays a game that is not there yet: so no stale pointer bears its code. */
  lemma WiredNewGame(games: Games, groupsOf: map<Bytes, Groups>, sessions: Sessions, buffers: set<array<Byte>>,
                     us: map<Sid, User>, model: map<Bytes, Game>, node: GameNode)
    requires Wired(games, groupsOf, sessions) && Objects(sessions, buffers, us) && games.Keys == model.Keys == groupsOf.Keys
    requires PointersLive(model, us) && node.code_str !in games
    ensures Wired(games[node.code_str := node], groupsOf[node.code_str := map[]], sessions)
  {
    forall s | s in sessions
      ensures PointsRight(games[node.code_str := node], groupsOf[node.code_str := map[]], sessions[s].game, sessions[s].group)
    {
      assert PointsRight(games, groupsOf, sessions[s].game, sessions[s].group);
      assert PointerLive(model, us[s]);
      assert sessions[s].View() == us[s];
    }
  }

  lemma WiredNewGroup(games: Games, groupsOf: map<Bytes, Groups>, sessions: Sessions, buffers: set<array<Byte>>,
                      us: map<Sid, User>, model: map<Bytes, Game>, g: Bytes, node: GroupNode)
    requires Wired(games, groupsOf, sessions) && Objects(sessions, buffers, us) && g in groupsOf
    requires PointersLive(model, us) && g in model && model[g].groups.Keys == groupsOf[g].Keys
    requires node.name !in groupsOf[g]
    ensures Wired(games, groupsOf[g := groupsOf[g][node.name := node]], sessions)
  {
    var more := groupsOf[g := groupsOf[g][node.name := node]];
    forall s | s in sessions ensures PointsRight(games, more, sessions[s].game, sessions[s].group) {
      assert PointsRight(games, groupsOf, sessions[s].game, sessions[s].group);
      assert PointerLive(model, us[s]);
      assert sessions[s].View() == us[s];
    }
  }

  lemma WiredFewer(games: Games, groupsOf: map<Bytes, Groups>, sessions: Sessions, g: Bytes, k: Bytes)
    requires Wired(games, groupsOf, sessions) && g in groupsOf
    ensures Wired(games, groupsOf[g := groupsOf[g] - {k}], sessions)
    ensures Wired(games - {g}, groupsOf - {g}, sessions)
  {
    forall s | s in sessions
      ensures PointsRight(games, groupsOf[g := groupsOf[g] - {k}], sessions[s].game, sessions[s].group)
      ensures PointsRight(games - {g}, groupsOf - {g}, sessions[s].game, sessions[s].group)
    {
      assert PointsRight(games, groupsOf, sessions[s].game, sessions[s].group);
    }
  }

  function SkipOf(x: UserSession?): Option<Sid> { if x == null then None else Some(x.id) }

  lemma DeliverAllStep(us: map<Sid, User>, ids: seq<Sid>, i: nat, skip: Option<Sid>, p: Packet)
    requires i < |ids|
    ensures DeliverAll(us, ids[i..], skip, p)
         == DeliverAll(if skip == Some(ids[i]) then us else Deliver(us, ids[i], p), ids[i + 1..], skip, p)
  {
    assert ids[i..][0] == ids[i] && ids[i..][1..] == ids[i + 1..];
    hide Deliver;
  }

  lemma DeliverAllNone(us: map<Sid, User>, ids: seq<Sid>, skip: Option<Sid>, p: Packet)
    requires ids == []
    ensures DeliverAll(us, ids, skip, p) == us
  {
  }

  lemma GreetStep(us: map<Sid, User>, s: Sid, ids: seq<Sid>, i: nat)
    requires s in us && i < |ids|
    ensures s in GreetOne(us, s, ids[i])
    ensures Greet(us, s, ids[i..]) == Greet(GreetOne(us, s, ids[i]), s, ids[i + 1..])
  {
    assert ids[i..][0] == ids[i] && ids[i..][1..] == ids[i + 1..];
    hide GreetOne;
  }

  lemma GreetNone(us: map<Sid, User>, s: Sid, ids: seq<Sid>)
    requires s in us && ids == []
    ensures Greet(us, s, ids) == us
  {
  }

  /** `registry`, together with the sessions that refer to it. */
  class Registry {
    var games_: Games
    var connection_count_: nat
    var shutdown_broadcasted_: bool
    /** Counts commands: what the product database and the hash tables answer may depend on it. */
    var now: nat
    ghost var groupsOf: map<Bytes, Groups>
    ghost var nodes: set<GroupNode>
    /** The sessions that have been let in: their coroutines keep them. */
    var sessions: Sessions
    ghost var buffers: set<array<Byte>>
    ghost var hub: Hub

    ghost predicate Counts()
      reads this`connection_count_, this`shutdown_broadcasted_, this`now, this`hub
    {
      connection_count_ == hub.connections && shutdown_broadcasted_ == hub.shutdown && now == hub.clock
    }

    ghost predicate Valid()
      reads this, games_.Values`users, games_.Values`groups, nodes`players, sessions.Values, buffers
    {
      && Objects(sessions, buffers, hub.users) && Apart(sessions)
      && Shape(games_, groupsOf) && GamesShow(sessions, games_, groupsOf, nodes, hub.games)
      && Wired(games_, groupsOf, sessions)
      && Counts()
    }

    ghost predicate Known(x: UserSession)
      reads this`sessions
    {
      x.id in sessions && sessions[x.id] == x
    }

    constructor ()
      ensures Valid() && hub == EMPTY_HUB
    {
      games_, sessions, connection_count_, shutdown_broadcasted_, now := map[], map[], 0, false, 0;
      groupsOf, nodes, buffers, hub := map[], {}, {}, EMPTY_HUB;
    }

    /** A session object and the model's record of it. */
    lemma Shown(x: UserSession)
      requires Valid() && Known(x)
      ensures x.id in hub.users && x.Valid() && x.View() == hub.users[x.id]
      ensures ShowExcept(sessions, buffers, hub.users, x)
    {
      hide GamesShow, Wired, Shape, Objects, Apart, ShowExcept, UserSession.View, UserSession.Valid;
      ObjectsAside(sessions, buffers, hub.users, x);
    }

    // ---- one session changes -------------------------------------------------------------------

    /** `x` alone changed, its pointers are right: bring the model's record of it up to date. */
    ghost method Record(x: UserSession)
      requires Known(x) && x.Valid() && Apart(sessions) && Shape(games_, groupsOf)
      requires GamesShow(sessions, games_, groupsOf, nodes, hub.games) && Wired(games_, groupsOf, sessions)
      requires Counts()
      requires ShowExcept(sessions, buffers, hub.users, x)
      modifies this`hub
      ensures Valid() && hub == PutUser(old(hub), x.id, x.View())
    {
      hide GamesShow, Wired, Shape, ShowExcept, UserSession.View, UserSession.Valid;
      ObjectsPut(sessions, buffers, hub.users, x);
      hub := PutUser(hub, x.id, x.View());
    }

    method CloseSession(x: UserSession)
      requires Valid() && Known(x)
      modifies this`hub, x`closed_, x`out
      ensures Valid() && x.id in old(hub).users && hub == Shut(old(hub), x.id) && x.closed_
    {
      hide Objects, ShowExcept, GamesShow, Shape, Wired, Apart, UserSession.View, UserSession.Valid;
      Shown(x);
      x.Close();
      Record(x);
    }

    method Send(x: UserSession, p: Packet)
      requires Valid() && Known(x)
      modifies this`hub, x`write_queue_, x`log, x`out
      ensures Valid() && hub == old(hub).(users := Deliver(old(hub).users, x.id, p))
    {
      hide Objects, ShowExcept, GamesShow, Shape, Wired, Apart, Encode, Queued, UserSession.View, UserSession.Valid;
      Shown(x);
      x.SendBytes(Encode(p), p);
      Record(x);
    }

    lemma ListedAt(v: seq<UserSession>, ids: seq<Sid>, i: nat)
      requires Valid() && Listed(sessions, v, ids) && i < |v|
      ensures Known(v[i]) && v[i].id == ids[i]
    {
      hide GamesShow, Shape, Wired, Apart;
    }

    lemma ListedLength(v: seq<UserSession>, ids: seq<Sid>)
      requires Listed(sessions, v, ids)
      ensures |v| == |ids|
    {
    }

    /** The same packet to every session of a list, `skip` excepted. */
    method SendEach(peers: seq<UserSession>, skip: UserSession?, p: Packet, ghost ids: seq<Sid>)
      requires Valid() && Listed(sessions, peers, ids) && (skip != null ==> Known(skip))
      modifies this`hub, sessions.Values`write_queue_, sessions.Values`log, sessions.Values`out
      ensures Valid() && hub == old(hub).(users := DeliverAll(old(hub).users, ids, SkipOf(skip), p))
    {
      hide Objects, Apart, GamesShow, Shape, Wired, Encode, Deliver, DeliverAll, AllOnlySentTo, Listed;
      ghost var was := hub;
      var i := 0;
      assert ids[0..] == ids;
      ListedLength(peers, ids);
      while i < |peers|
        invariant i <= |peers| && Valid()
        invariant hub == was.(users := hub.users)
        invariant DeliverAll(hub.users, ids[i..], SkipOf(skip), p) == DeliverAll(was.users, ids, SkipOf(skip), p)
      {
        ListedAt(peers, ids, i);
        DeliverAllStep(hub.users, ids, i, SkipOf(skip), p);
        if peers[i] != skip {
          Send(peers[i], p);
        }
        i := i + 1;
      }
      DeliverAllNone(hub.users, ids[i..], SkipOf(skip), p);
    }

    /** The loop of introductions in `handle_connect`. */
    method IntroduceEach(x: UserSession, peers: seq<UserSession>, ghost ids: seq<Sid>)
      requires Valid() && Known(x) && Listed(sessions, peers, ids)
      modifies this`hub, sessions.Values`write_queue_, sessions.Values`log, sessions.Values`out
      ensures Valid() && x.id in old(hub).users && hub == old(hub).(users := Greet(old(hub).users, x.id, ids))
    {
      hide Valid, Objects, Apart, GamesShow, Shape, Wired, Encode, Deliver, Greet, GreetOne, Listed, AllOnlySentTo,
        UserSession.Valid, UserSession.View, ShowExcept;
      Shown(x);
      ListedLength(peers, ids);
      ghost var was, s := hub, x.id;
      var i := 0;
      assert ids[0..] == ids;
      while i < |peers|
        invariant i <= |peers| && Valid() && s in hub.users
        invariant hub == was.(users := hub.users)
        invariant Greet(hub.users, s, ids[i..]) == Greet(was.users, s, ids)
      {
        ListedAt(peers, ids, i);
        GreetStep(hub.users, s, ids, i);
        IntroducePair(x, peers[i]);
        i := i + 1;
      }
      GreetNone(hub.users, s, ids[i..]);
    }

    method IntroducePair(x: UserSession, peer: UserSession)
      requires Valid() && Known(x) && Known(peer)
      modifies this`hub, x`write_queue_, x`log, x`out, peer`write_queue_, peer`log, peer`out
      ensures Valid() && x.id in old(hub).users
      ensures hub == old(hub).(users := GreetOne(old(hub).users, x.id, peer.id))
    {
      Shown(x);
      Shown(peer);
      hide Objects, Apart, GamesShow, Shape, Wired, Encode, ShowExcept;
      ghost var was := hub;
      Send(peer, ConnectPkt(x.name, x.mac, x.ip_be));
      Shown(peer);
      Send(x, ConnectPkt(peer.name, peer.mac, peer.ip_be));
    }

    // ---- nodes change ----------------------------------------------------------------------------

    ghost predicate InUse(game: GameNode)
      reads this`games_
    {
      game.code_str in games_ && games_[game.code_str] == game
    }

    /** Game `g` alone changed: bring the model's record of it up to date. */
    ghost method RecordGame(g: Bytes, game: Game)
      requires Objects(sessions, buffers, hub.users) && Apart(sessions) && Shape(games_, groupsOf)
      requires Wired(games_, groupsOf, sessions)
      requires Counts()
      requires RestShow(sessions, games_, groupsOf, nodes, hub.games, g) && g in games_
      requires groupsOf[g].Values <= nodes && GameShows(sessions, games_[g], groupsOf[g], game)
      modifies this`hub
      ensures Valid() && hub == PutGame(old(hub), g, game)
    {
      hide Objects, Apart, Shape, Wired, RestShow, GamesShow, GameShows;
      GamesShowPut(sessions, games_, groupsOf, nodes, hub.games, g, game);
      hub := PutGame(hub, g, game);
    }

    /** What is known of a game in use. */
    lemma GameShown(game: GameNode)
      requires Valid() && InUse(game)
      ensures game.code_str in hub.games && game.code_str in groupsOf
      ensures RestShow(sessions, games_, groupsOf, nodes, hub.games, game.code_str)
      ensures groupsOf[game.code_str].Values <= nodes
      ensures GameShows(sessions, game, groupsOf[game.code_str], hub.games[game.code_str])
      ensures ShapeOf(game, groupsOf[game.code_str])
    {
      hide Objects, Apart, Wired, GameShows, ShapeOf, ShowExcept;
      GamesShowAt(sessions, games_, groupsOf, nodes, hub.games, game.code_str);
    }

    /** Replacing one game's users leaves the other games alone. */
    method StoreUsers(game: GameNode, users: seq<UserSession>)
      requires InUse(game) && Shape(games_, groupsOf)
      requires RestShow(sessions, games_, groupsOf, nodes, hub.games, game.code_str)
      modifies game`users
      ensures RestShow(sessions, games_, groupsOf, nodes, hub.games, game.code_str) && game.users == users
    {
      hide GameShows, ShapeOf;
      game.users := users;
    }

    /** Find the game, or create it. */
    method GameFor(key: Bytes) returns (game: GameNode)
      requires Valid() && PointersLive(hub.games, hub.users)
      modifies this`games_, this`groupsOf, this`hub
      ensures Valid() && game.code_str == key && InUse(game)
      ensures hub == PutGame(old(hub), key, GameOrNew(old(hub), key))
      ensures game in old(games_.Values) || fresh(game)
      ensures fresh(games_.Values - old(games_.Values))
    {
      hide GameShows, RestShow, Objects, Apart, Wired, PointersLive;
      GamesShowAt(sessions, games_, groupsOf, nodes, hub.games, key);
      if key in games_ {
        game := games_[key];
        GameCode(game);
        assert hub.games[key := hub.games[key]] == hub.games;
      } else {
        game := NewGame(key);
      }
    }

    lemma GameCode(game: GameNode)
      requires Valid() && game in games_.Values
      ensures InUse(game)
    {
      hide GamesShow, Objects, Apart, Wired, ShapeOf;
    }

    method NewGame(key: Bytes) returns (game: GameNode)
      requires Valid() && PointersLive(hub.games, hub.users) && key !in games_
      modifies this`games_, this`groupsOf, this`hub
      ensures Valid() && game.code_str == key && InUse(game) && fresh(game)
      ensures fresh(games_.Values - old(games_.Values))
      ensures hub == PutGame(old(hub), key, Game(map[], []))
    {
      hide RestShow, GameShows, Objects, Apart, Wired, GamesShow, Shape, PointersLive;
      game := new GameNode(key);
      WiredNewGame(games_, groupsOf, sessions, buffers, hub.users, hub.games, game) by { KeysAgree(); }
      NewGameShows(game);
      RestNewGame(game);
      games_, groupsOf := games_[key := game], groupsOf[key := map[]];
      RecordGame(key, Game(map[], []));
    }

    lemma KeysAgree()
      requires Valid()
      ensures games_.Keys == hub.games.Keys == groupsOf.Keys
    {
    }

    lemma RestNewGame(game: GameNode)
      requires Valid() && game.code_str !in games_
      ensures Shape(games_[game.code_str := game], groupsOf[game.code_str := map[]])
      ensures RestShow(sessions, games_[game.code_str := game], groupsOf[game.code_str := map[]], nodes,
                       hub.games, game.code_str)
    {
      hide GameShows, Objects, Apart, Wired;
    }

    lemma NewGameShows(game: GameNode)
      requires game.groups == map[] && game.users == []
      ensures GameShows(sessions, game, map[], Game(map[], []))
    {
    }

    /** `game->users.push_back` */
    method PushUser(game: GameNode, x: UserSession)
      requires Valid() && InUse(game) && Known(x)
      modifies this`hub, game`users
      ensures Valid() && game.code_str in old(hub).games
      ensures var g, was := game.code_str, old(hub).games[game.code_str];
              hub == PutGame(old(hub), g, was.(users := was.users + [x.id]))
    {
      hide Wired, Objects, Apart, Shape, GamesShow, RestShow, GroupsShow, Listed, ShapeOf, ShowExcept;
      GameShown(game);
      ghost var was := hub.games[game.code_str];
      ListedPush(sessions, game.users, was.users, x);
      StoreUsers(game, game.users + [x]);
      RecordGame(game.code_str, was.(users := was.users + [x.id]));
    }

    lemma Ids()
      requires Valid()
      ensures forall s :: s in sessions ==> sessions[s].id == s
    {
      hide GamesShow, Wired, Shape, Apart;
    }

    /** `vector_remove(game->users, ..)` */
    method RemoveUser(game: GameNode, x: UserSession)
      requires Valid() && InUse(game) && Known(x)
      modifies this`hub, game`users
      ensures Valid() && game.code_str in old(hub).games
      ensures var g, was := game.code_str, old(hub).games[game.code_str];
              hub == PutGame(old(hub), g, was.(users := RemoveFirst(was.users, x.id)))
      ensures |game.users| == |RemoveFirst(old(hub).games[game.code_str].users, x.id)|
    {
      hide Wired, Objects, Apart, Shape, GamesShow, RestShow, GroupsShow, Listed, ShapeOf, RemoveFirst, ShowExcept;
      GameShown(game);
      Ids();
      ghost var was := hub.games[game.code_str];
      ListedRemove(sessions, game.users, was.users, x);
      StoreUsers(game, RemoveFirst(game.users, x));
      ListedLength(game.users, RemoveFirst(was.users, x.id));
      RecordGame(game.code_str, was.(users := RemoveFirst(was.users, x.id)));
    }

    /** `games_.erase` */
    method EraseGame(game: GameNode)
      requires Valid() && InUse(game)
      modifies this`games_, this`groupsOf, this`hub
      ensures Valid() && hub == old(hub).(games := old(hub).games - {game.code_str})
    {
      hide Wired, Objects, Apart, GamesShow, Shape, GameShows, ShapeOf, RestShow, PointsRight;
      KeysAgree();
      var g := game.code_str;
      WiredFewer(games_, groupsOf, sessions, g, []);
      RestErased(g);
      Adopt(games_ - {g}, groupsOf - {g}, hub.games - {g});
    }

    method Adopt(games: Games, ghost groups: map<Bytes, Groups>, ghost model: map<Bytes, Game>)
      requires Objects(sessions, buffers, hub.users) && Apart(sessions) && Counts()
      requires Shape(games, groups) && Wired(games, groups, sessions)
      requires GamesShow(sessions, games, groups, nodes, model)
      modifies this`games_, this`groupsOf, this`hub
      ensures Valid() && hub == old(hub).(games := model)
    {
      hide Wired, Objects, Apart, GamesShow, Shape;
      games_, groupsOf := games, groups;
      hub := hub.(games := model);
    }

    lemma RestErased(g: Bytes)
      requires Valid() && g in games_
      ensures Shape(games_ - {g}, groupsOf - {g})
      ensures GamesShow(sessions, games_ - {g}, groupsOf - {g}, nodes, hub.games - {g})
    {
      hide GameShows, Objects, Apart, Wired, ShapeOf;
    }

    // ---- group nodes change ----------------------------------------------------------------------

    ghost predicate GroupInUse(group: GroupNode)
      reads this`games_, this`groupsOf
    {
      && InUse(group.game)
      && group.game.code_str in groupsOf && group.name in groupsOf[group.game.code_str]
      && groupsOf[group.game.code_str][group.name] == group
    }

    lemma OtherGames(game: GameNode)
      requires InUse(game) && Shape(games_, groupsOf)
      ensures forall o :: o in games_ && o != game.code_str ==> games_[o] != game
    {
      hide ShapeOf;
    }

    lemma ShapeStored(game: GameNode, groups: Groups)
      requires InUse(game) && Shape(games_, groupsOf) && ShapeOf(game, groups)
      ensures Shape(games_, groupsOf[game.code_str := groups])
    {
      hide ShapeOf;
    }

    lemma RestStored(game: GameNode, groups: Groups)
      requires InUse(game) && RestShow(sessions, games_, groupsOf, nodes, hub.games, game.code_str)
      ensures RestShow(sessions, games_, groupsOf[game.code_str := groups], nodes + groups.Values, hub.games,
                       game.code_str)
    {
      hide GameShows;
    }

    /** Replacing one game's groups leaves the other games alone. */
    method StoreGroups(game: GameNode, groups: Groups)
      requires InUse(game) && Shape(games_, groupsOf) && ShapeOf(game, groups)
      requires RestShow(sessions, games_, groupsOf, nodes, hub.games, game.code_str)
      modifies this`groupsOf, this`nodes, game`groups
      ensures game.groups == groups && groupsOf == old(groupsOf)[game.code_str := groups]
      ensures nodes == old(nodes) + groups.Values
      ensures Shape(games_, groupsOf)
      ensures RestShow(sessions, games_, groupsOf, nodes, hub.games, game.code_str)
    {
      hide Shape, RestShow, GameShows, ShapeOf;
      ShapeStored(game, groups);
      AssignGroups(game, groups);
      RestStored(game, groups);
      groupsOf := groupsOf[game.code_str := groups];
      nodes := nodes + groups.Values;
    }

    method AssignGroups(game: GameNode, groups: Groups)
      requires InUse(game) && Shape(games_, groupsOf)
      requires RestShow(sessions, games_, groupsOf, nodes, hub.games, game.code_str)
      modifies game`groups
      ensures game.groups == groups && RestShow(sessions, games_, groupsOf, nodes, hub.games, game.code_str)
    {
      hide GameShows, ShapeOf, Shape;
      OtherGames(game);
      game.groups := groups;
    }

    ghost predicate GroupsRest(groups: Groups, model: map<Bytes, seq<Sid>>, k: Bytes)
      reads this`sessions, groups.Values`players
    {
      && groups.Keys == model.Keys
      && forall l :: l in groups && l != k ==> Listed(sessions, groups[l].players, model[l])
    }

    /** Replacing one group's players leaves every other list alone. */
    method StorePlayers(group: GroupNode, players: seq<UserSession>)
      requires GroupInUse(group) && Shape(games_, groupsOf)
      requires group.game.code_str in hub.games
      requires GroupsRest(groupsOf[group.game.code_str], hub.games[group.game.code_str].groups, group.name)
      requires RestShow(sessions, games_, groupsOf, nodes, hub.games, group.game.code_str)
      modifies group`players
      ensures RestShow(sessions, games_, groupsOf, nodes, hub.games, group.game.code_str)
      ensures GroupsRest(groupsOf[group.game.code_str], hub.games[group.game.code_str].groups, group.name)
      ensures group.players == players
    {
      hide GameShows, Listed;
      OnlyHere(group);
      group.players := players;
    }

    lemma OnlyHere(group: GroupNode)
      requires GroupInUse(group) && Shape(games_, groupsOf)
      ensures forall o :: o in groupsOf && o != group.game.code_str ==> group !in groupsOf[o].Values
    {
      forall o | o in groupsOf && o != group.game.code_str ensures group !in groupsOf[o].Values {
        assert ShapeOf(games_[o], groupsOf[o]);
      }
    }

    lemma GroupShown(group: GroupNode)
      requires Valid() && GroupInUse(group)
      ensures group.game.code_str in hub.games && group.name in hub.games[group.game.code_str].groups
      ensures Listed(sessions, group.players, hub.games[group.game.code_str].groups[group.name])
      ensures GroupsRest(groupsOf[group.game.code_str], hub.games[group.game.code_str].groups, group.name)
    {
      hide Objects, Apart, Wired, Shape, GamesShow, RestShow, Listed, ShapeOf, ShowExcept;
      GameShown(group.game);
    }

    lemma GroupInHub(group: GroupNode)
      requires Valid() && GroupInUse(group)
      ensures group.game.code_str in hub.games && group.name in hub.games[group.game.code_str].groups
      ensures Listed(sessions, group.players, ListAt(hub.games, group.game.code_str, group.name))
    {
      hide Valid, Listed, GroupsRest, ShowExcept;
      GroupShown(group);
    }

    /** One list of a game changed. */
    lemma GroupSettled(group: GroupNode, ids: seq<Sid>, was: Game)
      requires GroupInUse(group) && GroupsRest(groupsOf[group.game.code_str], was.groups, group.name)
      requires Listed(sessions, group.players, ids)
      requires group.game.groups == groupsOf[group.game.code_str] && Listed(sessions, group.game.users, was.users)
      ensures GameShows(sessions, group.game, groupsOf[group.game.code_str], was.(groups := was.groups[group.name := ids]))
    {
      hide Listed;
    }

    method SetPlayers(group: GroupNode, players: seq<UserSession>, ghost ids: seq<Sid>)
      requires Valid() && GroupInUse(group) && Listed(sessions, players, ids)
      modifies this`hub, group`players
      ensures Valid() && group.game.code_str in old(hub).games && group.players == players
      ensures hub == PutGame(old(hub), group.game.code_str, GroupWith(old(hub), group.game.code_str, group.name, ids))
    {
      hide Objects, Apart, Wired, Shape, GamesShow, RestShow, GroupsShow, Listed, ShapeOf, GroupsRest, ShowExcept;
      GameShown(group.game);
      GroupShown(group);
      ghost var was := hub.games[group.game.code_str];
      StorePlayers(group, players);
      GroupSettled(group, ids, was);
      RecordGame(group.game.code_str, was.(groups := was.groups[group.name := ids]));
    }

    /** `group->players.push_back` */
    method PushPlayer(group: GroupNode, x: UserSession, ghost ids: seq<Sid>)
      requires Valid() && GroupInUse(group) && Known(x) && Listed(sessions, group.players, ids)
      modifies this`hub, group`players
      ensures Valid() && group.game.code_str in old(hub).games && group.players == old(group.players) + [x]
      ensures Listed(sessions, group.players, ids + [x.id])
      ensures hub == PutGame(old(hub), group.game.code_str,
                             GroupWith(old(hub), group.game.code_str, group.name, ids + [x.id]))
    {
      hide Valid, Listed;
      ListedPush(sessions, group.players, ids, x);
      SetPlayers(group, group.players + [x], ids + [x.id]);
    }

    /** `vector_remove(group->players, ..)` */
    method RemovePlayer(group: GroupNode, x: UserSession, ghost ids: seq<Sid>)
      requires Valid() && GroupInUse(group) && Known(x) && Listed(sessions, group.players, ids)
      modifies this`hub, group`players
      ensures Valid() && group.game.code_str in old(hub).games
      ensures Listed(sessions, group.players, RemoveFirst(ids, x.id))
      ensures hub == PutGame(old(hub), group.game.code_str,
                             GroupWith(old(hub), group.game.code_str, group.name, RemoveFirst(ids, x.id)))
    {
      hide Valid, Listed, RemoveFirst;
      Ids();
      ListedRemove(sessions, group.players, ids, x);
      SetPlayers(group, RemoveFirst(group.players, x), RemoveFirst(ids, x.id));
    }

    /** Find the group, or create it. */
    method GroupFor(game: GameNode, key: Bytes) returns (group: GroupNode)
      requires Valid() && InUse(game) && PointersLive(hub.games, hub.users)
      modifies this`groupsOf, this`nodes, this`hub, game`groups
      ensures Valid() && group.name == key && group.game == game && GroupInUse(group)
      ensures group in old(nodes) || fresh(group)
      ensures fresh(nodes - old(nodes))
      ensures game.code_str in old(hub).games
      ensures var g := game.code_str;
              hub == PutGame(old(hub), g, GroupWith(old(hub), g, key, MembersOrNone(old(hub).games[g], key)))
    {
      hide Objects, Apart, Wired, Shape, GamesShow, RestShow, GroupsShow, Listed, ShapeOf, PointersLive, ShowExcept;
      GameShown(game);
      ghost var g := game.code_str;
      ghost var was := hub.games[g];
      GroupKeys(game);
      if key in game.groups {
        group := game.groups[key];
        GroupAt(game, key);
        assert was.groups[key := was.groups[key]] == was.groups;
        assert hub.games[g := hub.games[g]] == hub.games;
      } else {
        group := NewGroup(game, key);
      }
    }

    lemma GroupKeys(game: GameNode)
      requires Valid() && InUse(game)
      ensures game.code_str in hub.games && game.groups.Keys == hub.games[game.code_str].groups.Keys
      ensures game.code_str in groupsOf && game.groups == groupsOf[game.code_str]
    {
      hide Objects, Apart, Wired, Shape, GamesShow, RestShow, Listed, ShapeOf, ShowExcept;
      GameShown(game);
    }

    lemma GroupAt(game: GameNode, key: Bytes)
      requires Valid() && InUse(game) && key in game.groups
      ensures game.groups[key].name == key && game.groups[key].game == game && GroupInUse(game.groups[key])
      ensures game.groups[key] in nodes
    {
      hide Objects, Apart, Wired, Shape, GamesShow, RestShow, Listed, ShowExcept;
      GameShown(game);
    }

    method NewGroup(game: GameNode, key: Bytes) returns (group: GroupNode)
      requires Valid() && InUse(game) && PointersLive(hub.games, hub.users)
      requires game.code_str in hub.games && game.code_str in groupsOf
      requires key !in groupsOf[game.code_str] && key !in hub.games[game.code_str].groups
      modifies this`groupsOf, this`nodes, this`hub, game`groups
      ensures Valid() && group.name == key && group.game == game && GroupInUse(group) && fresh(group)
      ensures fresh(nodes - old(nodes))
      ensures hub == PutGame(old(hub), game.code_str, GroupWith(old(hub), game.code_str, key, []))
    {
      hide Valid, PointersLive;
      group := new GroupNode(key, game);
      AddGroup(game, group);
    }

    method AddGroup(game: GameNode, group: GroupNode)
      requires Valid() && InUse(game) && PointersLive(hub.games, hub.users)
      requires group.game == game && group.players == []
      requires game.code_str in hub.games && game.code_str in groupsOf
      requires group.name !in groupsOf[game.code_str] && group.name !in hub.games[game.code_str].groups
      modifies this`groupsOf, this`nodes, this`hub, game`groups
      ensures Valid() && GroupInUse(group) && nodes == old(nodes) + groupsOf[game.code_str].Values
      ensures groupsOf[game.code_str] == old(groupsOf[game.code_str])[group.name := group]
      ensures old(groupsOf[game.code_str]).Values <= old(nodes)
      ensures hub == PutGame(old(hub), game.code_str, GroupWith(old(hub), game.code_str, group.name, []))
    {
      hide Objects, Apart, Wired, Shape, GamesShow, RestShow, GroupsShow, Listed, ShapeOf, PointersLive, ShowExcept;
      ghost var g := game.code_str;
      ghost var was := hub.games[g];
      GameShown(game);
      GroupKeys(game);
      WiredNewGroup(games_, groupsOf, sessions, buffers, hub.users, hub.games, g, group);
      NewGroupShows(game, groupsOf[g], group, was);
      StoreGroups(game, game.groups[group.name := group]);
      RecordGame(g, was.(groups := was.groups[group.name := []]));
    }

    lemma NewGroupShows(game: GameNode, groups: Groups, group: GroupNode, was: Game)
      requires ShapeOf(game, groups) && GroupsShow(sessions, groups, was.groups)
      requires group.name !in groups && group.game == game && group.players == []
      ensures ShapeOf(game, groups[group.name := group])
      ensures GroupsShow(sessions, groups[group.name := group], was.groups[group.name := []])
    {
    }

    /** `groups.erase` */
    method EraseGroup(game: GameNode, key: Bytes)
      requires Valid() && InUse(game)
      modifies this`groupsOf, this`nodes, this`hub, game`groups
      ensures Valid() && game.code_str in old(hub).games && nodes == old(nodes)
      ensures var g, was := game.code_str, old(hub).games[game.code_str];
              hub == PutGame(old(hub), g, was.(groups := was.groups - {key}))
    {
      hide Objects, Apart, Wired, Shape, GamesShow, RestShow, GroupsShow, Listed, ShapeOf, ShowExcept;
      ghost var g := game.code_str;
      GameShown(game);
      GroupKeys(game);
      ghost var was := hub.games[g];
      WiredFewer(games_, groupsOf, sessions, g, key);
      FewerGroupsShow(game, groupsOf[g], key, was);
      StoreGroups(game, game.groups - {key});
      RecordGame(g, was.(groups := was.groups - {key}));
    }

    lemma FewerGroupsShow(game: GameNode, groups: Groups, key: Bytes, was: Game)
      requires ShapeOf(game, groups) && GroupsShow(sessions, groups, was.groups)
      ensures ShapeOf(game, groups - {key})
      ensures GroupsShow(sessions, groups - {key}, was.groups - {key})
    {
    }

    // ---- a session's own fields ------------------------------------------------------------------

    method SetPlace(x: UserSession, game: GameNode?, group: GroupNode?)
      requires Valid() && Known(x)
      requires game != null ==> InUse(game)
      requires group != null ==> game == group.game && GroupInUse(group)
      modifies this`hub, x`game, x`group
      ensures Valid() && x.id in old(hub).users && x.game == game && x.group == group
      ensures hub == PutUser(old(hub), x.id,
                             old(hub).users[x.id].(game := CodeOf(game), group := NameOf(group)))
    {
      hide Objects, ShowExcept, GamesShow, Shape, PointsRight, Wired, Apart, UserSession.View, UserSession.Valid;
      Shown(x);
      RightHere(game, group);
      PlaceAlone(x, game, group);
      Record(x);
    }

    /** A session's pointers are its own. */
    method PlaceAlone(x: UserSession, game: GameNode?, group: GroupNode?)
      requires Known(x) && x.Valid() && Wired(games_, groupsOf, sessions)
      requires PointsRight(games_, groupsOf, game, group)
      modifies x`game, x`group
      ensures x.Valid()
      ensures Wired(games_, groupsOf, sessions) && x.game == game && x.group == group
      ensures x.View() == old(x.View()).(game := CodeOf(game), group := NameOf(group))
    {
      hide UserSession.View, UserSession.Valid, PointsRight;
      x.Place(game, group);
    }

    lemma RightHere(game: GameNode?, group: GroupNode?)
      requires Shape(games_, groupsOf)
      requires game != null ==> InUse(game)
      requires group != null ==> game == group.game && GroupInUse(group)
      ensures PointsRight(games_, groupsOf, game, group)
    {
    }

    method Identify(x: UserSession, mac: Mac, name: RawNick)
      requires Valid() && Known(x)
      modifies this`hub, x`mac, x`name
      ensures Valid() && x.id in old(hub).users
      ensures hub == PutUser(old(hub), x.id, old(hub).users[x.id].(mac := mac, name := name))
    {
      hide Objects, ShowExcept, GamesShow, Shape, Wired, Apart, UserSession.View, UserSession.Valid;
      Shown(x);
      x.Identify(mac, name);
      Record(x);
    }

    method MarkReaped(x: UserSession)
      requires Valid() && Known(x)
      modifies this`hub, x`reaped
      ensures Valid() && x.id in old(hub).users
      ensures hub == PutUser(old(hub), x.id, old(hub).users[x.id].(reaped := true))
    {
      hide Objects, ShowExcept, GamesShow, Shape, Wired, Apart, UserSession.View, UserSession.Valid;
      Shown(x);
      x.MarkReaped();
      Record(x);
    }

    /** History: the session is joining a group now. */
    ghost method MarkJoin(x: UserSession)
      requires Valid() && Known(x)
      modifies this`hub, x`logAtJoin, x`joinedAt
      ensures Valid() && x.id in old(hub).users
      ensures hub == PutUser(old(hub), x.id,
        old(hub).users[x.id].(logAtJoin := |old(hub).users[x.id].log|, joinedAt := old(hub).clock))
    {
      hide Objects, ShowExcept, GamesShow, Shape, Wired, Apart, UserSession.View, UserSession.Valid;
      Shown(x);
      x.MarkJoin(hub.clock);
      Record(x);
    }

    /** What the model says of the session's pointers. */
    lemma Placed(x: UserSession)
      requires Valid() && Known(x) && Graph(hub.games, hub.users)
      ensures x.id in hub.users && hub.users[x.id].game == CodeOf(x.game) && hub.users[x.id].group == NameOf(x.group)
      ensures x.game != null ==> InUse(x.game) && x.game.code_str in hub.games
      ensures x.group != null ==>
        && x.game != null && x.group.game == x.game && GroupInUse(x.group)
        && x.group in nodes && x.group.name in hub.games[x.game.code_str].groups
      ensures hub.users[x.id].mac == x.mac && hub.users[x.id].name == x.name && hub.users[x.id].ip == x.ip_be
      ensures hub.users[x.id].reaped == x.reaped && hub.users[x.id].closed == x.closed_
      ensures PointersLive(hub.games, hub.users)
    {
      hide Objects, Apart, Wired, Lists, UsersListed, PlayersListed, GameShows, Shape, ShowExcept;
      Shown(x);
      assert PointerLive(hub.games, hub.users[x.id]);
      assert PointsRight(games_, groupsOf, x.game, x.group) by { WiredAt(x); }
      KeysAgree();
      if x.game != null { GroupKeys(x.game); }
      if x.group != null { GroupAt(x.game, x.group.name); }
    }

    lemma WiredAt(x: UserSession)
      requires Valid() && Known(x)
      ensures PointsRight(games_, groupsOf, x.game, x.group)
    {
      hide Objects, Apart, GamesShow, Shape, PointsRight;
    }

    lemma Clock()
      requires Valid()
      ensures Counts()
    {
      hide Objects, Apart, GamesShow, Shape, Wired;
    }

    // ---- handlers --------------------------------------------------------------------------------

    /** `handle_login` */
    method HandleLogin(x: UserSession, mac: Mac, name: RawNick, code: RawCode, o: Oracle) returns (ok: bool)
      requires Valid() && Known(x) && Sound(hub)
      modifies this`games_, this`groupsOf, this`hub, games_.Values`users, x`mac, x`name, x`game, x`group
      ensures Valid() && x.id in old(hub).users
      ensures (hub, ok) == GameModel.HandleLogin(old(hub), x.id, mac, name, code, o)
      ensures fresh(games_.Values - old(games_.Values))
    {
      hide Valid, Sound, Graph, ValidLogin, WorksFor, PutUser, GameOrNew, GameModel.HandleLogin;
      ghost var was := hub;
      SoundHasGraph(hub);
      Placed(x);
      Clock();
      LoginRefused(hub, x.id, mac, name, code, o);
      if x.game != null {
        return false;
      }
      var valid := CheckLogin(mac, name, code);
      if !valid {
        return false;
      }
      var linked := o.link(now, code);
      var n := BoundedStrlen(linked, 9);
      var key := linked[..n];
      assert linked[..9] == linked;
      var game := GameFor(key);
      Identify(x, mac, name);
      SetPlace(x, game, null);
      PushUser(game, x);
      ok := true;
      LoginPieces(was, hub, x.id, mac, name, code, o, key);
    }

    static lemma LoginRefused(h: Hub, s: Sid, mac: Mac, name: RawNick, code: RawCode, o: Oracle)
      requires s in h.users
      ensures h.users[s].game.Some? || !ValidLogin(mac, name, code) ==>
                GameModel.HandleLogin(h, s, mac, name, code, o) == (h, false)
    {
      hide ValidLogin, WorksFor;
    }

    lemma LoginPieces(h: Hub, r: Hub, s: Sid, mac: Mac, name: RawNick, code: RawCode, o: Oracle, key: Bytes)
      requires s in h.users && h.users[s].game.None? && h.users[s].group.None? && ValidLogin(mac, name, code)
      requires key == UpToNul(o.link(h.clock, code))
      requires var a := PutGame(h, key, GameOrNew(h, key));
               var b := PutUser(a, s, h.users[s].(mac := mac, name := name));
               var c := PutUser(b, s, b.users[s].(game := Some(key), group := None));
               r == PutGame(c, key, c.games[key].(users := c.games[key].users + [s]))
      ensures (r, true) == GameModel.HandleLogin(h, s, mac, name, code, o)
    {
      hide ValidLogin, WorksFor;
      var q := GameModel.HandleLogin(h, s, mac, name, code, o).0;
      assert r.games == q.games;
      assert r.users == q.users;
    }

    /** `handle_connect` */
    method HandleConnect(x: UserSession, raw: RawGroup) returns (ok: bool)
      requires Valid() && Known(x) && Sound(hub)
      modifies this`groupsOf, this`nodes, this`hub, games_.Values`groups, nodes`players
      modifies sessions.Values`write_queue_, sessions.Values`log, sessions.Values`out, x`logAtJoin, x`joinedAt,
        x`game, x`group
      ensures Valid() && x.id in old(hub).users
      ensures (hub, ok) == GameModel.HandleConnect(old(hub), x.id, raw)
      ensures fresh(nodes - old(nodes))
    {
      hide Valid, Graph, Views, Ordered, ValidGroup, WorksFor, GroupInUse, Joins, GroupWith, PutGame, PutGroup,
        Introduce;
      ghost var was := hub;
      Placed(x);
      if x.game == null {
        return false;
      }
      var valid := CheckGroupName(raw);
      if !valid {
        return false;
      }
      if x.group != null {
        return false;
      }
      var n := BoundedStrlen(raw, 8);
      var key := raw[..n];
      assert raw[..8] == raw;
      ConnectTo(x, x.game, key);
      ok := true;
      ConnectPieces(was, x.id, raw, key);
    }

    method ConnectTo(x: UserSession, game: GameNode, key: Bytes)
      requires Valid() && Known(x) && x.game == game && InUse(game) && PointersLive(hub.games, hub.users)
      modifies this`groupsOf, this`nodes, this`hub, game`groups, nodes`players
      modifies sessions.Values`write_queue_, sessions.Values`log, sessions.Values`out, x`logAtJoin, x`joinedAt,
        x`game, x`group
      ensures Valid() && x.id in old(hub).users && game.code_str in old(hub).games
      ensures var g, members := game.code_str, MembersOrNone(old(hub).games[game.code_str], key);
              hub == Joins(PutGame(old(hub), g, GroupWith(old(hub), g, key, members)), x.id, g, key, members)
      ensures fresh(nodes - old(nodes))
    {
      hide Valid, PointersLive, GroupInUse, Joins, ShowExcept;
      Shown(x);
      GroupKeys(game);
      ghost var members := MembersOrNone(hub.games[game.code_str], key);
      var group := GroupFor(game, key);
      Join(x, group, members);
    }

    lemma FrontShown(v: seq<UserSession>, ids: seq<Sid>)
      requires Valid() && Listed(sessions, v, ids) && v != []
      ensures ids != [] && ids[0] in hub.users && v[0].mac == hub.users[ids[0]].mac
    {
      hide Valid, ShowExcept;
      ListedAt(v, ids, 0);
      Shown(v[0]);
    }

    /** From the introductions to the packet with the first member's address. */
    method Join(x: UserSession, group: GroupNode, ghost ids: seq<Sid>)
      requires Valid() && Known(x) && GroupInUse(group) && x.game == group.game
      requires ListAt(hub.games, group.game.code_str, group.name) == ids
      modifies this`hub, group`players
      modifies sessions.Values`write_queue_, sessions.Values`log, sessions.Values`out, x`logAtJoin, x`joinedAt,
        x`game, x`group
      ensures Valid() && x.id in old(hub).users && group.game.code_str in old(hub).games
      ensures hub == Joins(old(hub), x.id, group.game.code_str, group.name, ids)
    {
      hide Valid, Greet, WorksFor, Deliver, AllOnlySentTo, OnlySentTo, GroupWith, UserSession.View,
        UserSession.Valid, ShowExcept;
      ghost var was := hub;
      GroupInHub(group);
      MarkJoin(x);
      IntroduceEach(x, group.players, ids);
      PushPlayer(group, x, ids);
      SetPlace(x, group.game, group);
      FrontShown(group.players, ids + [x.id]);
      // The newcomer is on the list, so there is a first member.
      Send(x, BssidPkt(group.players[0].mac));
    }

    /** `leave_group` */
    method LeaveGroup(x: UserSession)
      requires Valid() && Known(x) && Sound(hub)
      modifies this`groupsOf, this`nodes, this`hub, games_.Values`groups, nodes`players
      modifies sessions.Values`write_queue_, sessions.Values`log, sessions.Values`out, x`game, x`group
      ensures Valid() && x.id in old(hub).users && x.game == old(x.game) && x.group == null && nodes == old(nodes)
      ensures hub == GameModel.LeaveGroup(old(hub), x.id)
    {
      hide Valid, Sound, WorksFor, DeliverAll, RemoveFirst, Listed, OnlySentTo, AllOnlySentTo, Posted, PutGame,
        PutUser,
        GroupWith, ListAt, GroupInUse, Graph, GameModel.LeaveGroup;
      ghost var was := hub;
      SoundHasGraph(hub);
      Placed(x);
      var group := x.group;
      if group == null {
        NothingToLeave(was, x.id);
        return;
      }
      GroupInHub(group);
      SetPlace(x, x.game, null);
      ghost var ids := ListAt(was.games, group.game.code_str, group.name);
      RemovePlayer(group, x, ids);
      SendEach(group.players, null, DisconnectPkt(x.ip_be), RemoveFirst(ids, x.id));
      ListedLength(group.players, RemoveFirst(ids, x.id));
      if group.players == [] {
        EraseGroup(x.game, group.name);
      }
      LeavePieces(was, x.id, group.game.code_str, group.name);
    }

    static lemma NothingToLeave(h: Hub, s: Sid)
      requires s in h.users && h.users[s].group.None?
      ensures GameModel.LeaveGroup(h, s) == h
    {
    }

    static lemma SoundHasGraph(h: Hub)
      requires Sound(h)
      ensures Graph(h.games, h.users)
    {
      hide Graph;
    }

    /** `handle_disconnect` */
    method HandleDisconnect(x: UserSession) returns (ok: bool)
      requires Valid() && Known(x) && Sound(hub)
      modifies this`groupsOf, this`nodes, this`hub, games_.Values`groups, nodes`players
      modifies sessions.Values`write_queue_, sessions.Values`log, sessions.Values`out, x`game, x`group
      ensures Valid() && x.id in old(hub).users
      ensures (hub, ok) == GameModel.HandleDisconnect(old(hub), x.id)
      ensures nodes == old(nodes)
    {
      hide Valid, Graph, Views, Ordered, WorksFor, GameModel.LeaveGroup;
      Placed(x);
      if x.game == null {
        return false;
      }
      if x.group == null {
        return false;
      }
      LeaveGroup(x);
      ok := true;
    }

    lemma GroupListed(game: GameNode, key: Bytes)
      requires Valid() && InUse(game) && key in game.groups && game.code_str in hub.games
      ensures game.groups[key].name == key
      ensures Listed(sessions, game.groups[key].players, MembersOrNone(hub.games[game.code_str], key))
    {
      hide Valid, Listed;
      GroupAt(game, key);
      GroupInHub(game.groups[key]);
    }

    /** The address in one scan packet. */
    lemma FrontMacShown(v: seq<UserSession>, ids: seq<Sid>, own: Mac)
      requires Valid() && Listed(sessions, v, ids)
      ensures FrontMac(hub, ids, own) == if v == [] then own else v[0].mac
    {
      hide Valid, ShowExcept;
      if v != [] { FrontShown(v, ids); }
    }

    /** `handle_scan`; the table of groups is walked in the order that `o` gives. */
    method HandleScan(x: UserSession, o: Oracle) returns (ok: bool)
      requires Valid() && Known(x) && Sound(hub) && Faithful(o)
      modifies this`hub, x`write_queue_, x`log, x`out
      ensures Valid() && x.id in old(hub).users
      ensures (hub, ok) == GameModel.HandleScan(old(hub), x.id, o)
    {
      hide Valid, Graph, Views, Ordered, WorksFor, ScanPackets, QueuedAll, Deliver, Listed, FrontMac, DataFrom;
      Placed(x);
      Clock();
      if x.game == null {
        return false;
      }
      if x.group != null {
        return false;
      }
      GroupKeys(x.game);
      var ks := o.order(now, x.game.groups.Keys);
      assert ListsOnce(ks, x.game.groups.Keys);
      ReportEach(x, x.game, ks);
      ok := true;
    }

    /** The loop of `handle_scan`, and the packet after it. */
    method ReportEach(x: UserSession, game: GameNode, ks: seq<Bytes>)
      requires Valid() && Known(x) && InUse(game) && game.code_str in hub.games
      requires forall i :: 0 <= i < |ks| ==> ks[i] in game.groups
      modifies this`hub, x`write_queue_, x`log, x`out
      ensures Valid() && x.id in old(hub).users && game.code_str in old(hub).games
      ensures var u := old(hub).users[x.id];
              hub == PutUser(old(hub), x.id,
                QueuedAll(u, ScanPackets(old(hub), old(hub).games[game.code_str], u.mac, ks) + [ScanComplete]))
    {
      hide Valid, ScanPackets, QueuedAll, Deliver, Listed, FrontMac, DataFrom, ShowExcept;
      Shown(x);
      ghost var was, s, u := hub, x.id, hub.users[x.id];
      ghost var ps := ScanPackets(was, was.games[game.code_str], u.mac, ks);
      QueuedAllNone(was, s, ps);
      var i := 0;
      while i < |ks|
        invariant i <= |ks| && Valid() && hub == PutUser(was, s, QueuedAll(u, ps[..i]))
        invariant x.mac == u.mac
      {
        var group := game.groups[ks[i]];
        ghost var ids := MembersOrNone(was.games[game.code_str], ks[i]);
        GroupListed(game, ks[i]);
        FrontMacShown(group.players, ids, x.mac);
        FrontMacSame(was, s, QueuedAll(u, ps[..i]), ids, x.mac);
        QueuedAllNext(was, s, ps, i);
        Send(x, ScanPkt(DataFrom(group.name, 8), if group.players == [] then x.mac else group.players[0].mac));
        i := i + 1;
      }
      assert ps[..i] == ps;
      QueuedAllLast(was, s, ps);
      Send(x, ScanComplete);
    }

    /** `handle_chat` */
    method HandleChat(x: UserSession, message: RawChat) returns (ok: bool)
      requires Valid() && Known(x) && Sound(hub)
      modifies this`hub, sessions.Values`write_queue_, sessions.Values`log, sessions.Values`out
      ensures Valid() && x.id in old(hub).users
      ensures (hub, ok) == GameModel.HandleChat(old(hub), x.id, message)
    {
      hide Valid, Graph, Views, Ordered, WorksFor, DeliverAll, Listed, DataFrom, GroupInUse;
      Placed(x);
      if x.game == null {
        return false;
      }
      if x.group == null {
        return false;
      }
      var n := BoundedStrlen(message, 64);
      assert message[..64] == message;
      GroupInHub(x.group);
      SendEach(x.group.players, x, ChatPkt(DataFrom(message[..n], 64), x.name),
               ListAt(hub.games, x.game.code_str, x.group.name));
      ok := true;
    }

    // ---- the end of a session --------------------------------------------------------------------

    /** The rest of `close_connection` for a session with a game. */
    method QuitGame(x: UserSession)
      requires Valid() && Known(x) && Sound(hub) && x.game != null && x.group == null
      modifies this`games_, this`groupsOf, this`hub, games_.Values`users, x`game, x`group
      ensures Valid() && x.id in old(hub).users && x.game == null
      ensures hub == GameModel.QuitGame(old(hub), x.id)
    {
      hide Valid, Graph, Views, Ordered, WorksFor, RemoveFirst;
      Placed(x);
      ghost var was := hub;
      var game := x.game;
      SetPlace(x, null, null);
      RemoveUser(game, x);
      if game.users == [] {
        EraseGame(game);
      }
      QuitPieces(was, x.id, game.code_str);
    }

    /** `close_connection` */
    method CloseConnection(x: UserSession)
      requires Valid() && Known(x) && Sound(hub)
      modifies this`games_, this`groupsOf, this`nodes, this`hub, this`connection_count_
      modifies games_.Values`users, games_.Values`groups, nodes`players
      modifies sessions.Values`write_queue_, sessions.Values`log, sessions.Values`out, x`game, x`group, x`reaped
      ensures Valid() && x.id in old(hub).users
      ensures hub == GameModel.Reap(old(hub), x.id)
    {
      hide Valid, Sound, WorksFor, GameModel.LeaveGroup, GameModel.QuitGame, Quiet, ShowExcept;
      Shown(x);
      if x.reaped {
        return;
      }
      ghost var was := hub;
      ReapQuiet(hub.users[x.id]);
      TouchSound(hub, x.id, hub.users[x.id].(reaped := true));
      MarkReaped(x);
      LeaveSound(hub, x.id);
      LeaveGroup(x);
      ghost var left := hub;
      if x.game != null {
        QuitGame(x);
      } else {
        NothingToQuit(x);
      }
      LowerCount();
    }

    lemma NothingToQuit(x: UserSession)
      requires Valid() && Known(x) && x.game == null
      ensures x.id in hub.users && GameModel.QuitGame(hub, x.id) == hub
    {
      hide Valid, ShowExcept;
      Shown(x);
    }

    method LowerCount()
      requires Valid()
      modifies this`connection_count_, this`hub
      ensures Valid()
      ensures hub == old(hub).(connections := if old(hub).connections != 0 then old(hub).connections - 1 else 0)
    {
      hide Objects, Apart, GamesShow, Shape, Wired;
      if connection_count_ != 0 {
        connection_count_ := connection_count_ - 1;
      }
      hub := hub.(connections := connection_count_);
    }

    // ---- shutting down ---------------------------------------------------------------------------

    /** `broadcast_shutdown`; the tables are walked in any order. */
    method BroadcastShutdown()
      requires Valid() && Graph(hub.games, hub.users)
      modifies this`hub, this`shutdown_broadcasted_, sessions.Values`write_queue_, sessions.Values`log,
        sessions.Values`out
      ensures Valid() && hub == Announce(old(hub))
    {
      hide Valid, Lists, UsersListed, PlayersListed, Spread, Pending, Announce;
      ghost var was := hub;
      Clock();
      if shutdown_broadcasted_ {
        AnnounceTwice(hub);
        return;
      }
      MarkShutdown();
      KeysAgree();
      var gs := games_.Keys;
      SpreadNone(was);
      while gs != {}
        invariant gs <= games_.Keys && Valid()
        invariant hub == was.(shutdown := true, users := Spread(was.users, gs, [], {}))
      {
        var g :| g in gs;
        assert gs - {g} + {g} == gs;
        gs := gs - {g};
        InUseAt(g);
        ToGame(games_[g], gs, was);
      }
      SpreadAll(was);
    }

    method MarkShutdown()
      requires Valid()
      modifies this`shutdown_broadcasted_, this`hub
      ensures Valid() && hub == old(hub).(shutdown := true)
    {
      hide Objects, Apart, GamesShow, Shape, Wired;
      shutdown_broadcasted_ := true;
      hub := hub.(shutdown := true);
    }

    lemma InUseAt(g: Bytes)
      requires Valid() && g in games_
      ensures games_[g].code_str == g && InUse(games_[g])
    {
      hide Objects, Apart, GamesShow, Wired, ShapeOf;
    }

    method ToGame(game: GameNode, ghost gs: set<Bytes>, ghost was: Hub)
      requires Valid() && Graph(was.games, was.users) && game in games_.Values && game.code_str !in gs
      requires hub == was.(shutdown := true, users := Spread(was.users, gs + {game.code_str}, [], {}))
      modifies this`hub, sessions.Values`write_queue_, sessions.Values`log, sessions.Values`out
      ensures Valid() && hub == was.(shutdown := true, users := Spread(was.users, gs, [], {}))
    {
      hide Valid, Graph, Spread, Pending, DeliverAll, Listed;
      GameCode(game);
      GroupKeys(game);
      ghost var g := game.code_str;
      var ks := game.groups.Keys;
      SpreadEnter(was, gs, g);
      while ks != {}
        invariant ks <= game.groups.Keys && Valid()
        invariant hub == was.(shutdown := true, users := Spread(was.users, gs, g, ks))
      {
        var k :| k in ks;
        GroupListed(game, k);
        SpreadStep(was, gs, g, ks, k);
        SendEach(game.groups[k].players, null, ShutdownPacket(), MembersOrNone(was.games[g], k));
        ks := ks - {k};
      }
      SpreadLeave(was.users, gs, g);
    }

    // ---- the reader ------------------------------------------------------------------------------

    method Consume(x: UserSession, size: nat)
      requires Valid() && Known(x) && size <= x.rxpos_
      modifies this`hub, x`rxpos_, x.rx_
      ensures Valid() && x.id in old(hub).users && size <= |old(hub).users[x.id].rx|
      ensures hub == PutUser(old(hub), x.id, Eaten(old(hub).users[x.id], size))
      ensures x.rxpos_ == old(x.rxpos_) - size
    {
      hide Objects, ShowExcept, GamesShow, Shape, Wired, Apart, UserSession.View, UserSession.Valid, Eaten;
      Shown(x);
      BufferLength(x);
      x.ConsumeRx(size);
      Record(x);
    }

    lemma BufferLength(x: UserSession)
      requires x.Valid()
      ensures |x.View().rx| == x.rxpos_
    {
    }

    method Tick()
      requires Valid()
      modifies this`now, this`hub
      ensures Valid() && hub == old(hub).(clock := old(hub).clock + 1)
    {
      hide Objects, Apart, GamesShow, Shape, Wired;
      now := now + 1;
      hub := hub.(clock := hub.clock + 1);
    }

    method Obeyed(x: UserSession, ghost c: Command)
      requires Valid() && Known(x)
      modifies this`hub, x`commands
      ensures Valid() && x.id in old(hub).users
      ensures hub == PutUser(old(hub), x.id,
                             old(hub).users[x.id].(commands := old(hub).users[x.id].commands + [c]))
    {
      hide Objects, ShowExcept, GamesShow, Shape, Wired, Apart, UserSession.View, UserSession.Valid;
      Shown(x);
      x.MarkObeyed(c);
      Record(x);
    }

    /** The handler for one command. */
    method Dispatch(x: UserSession, c: Command, o: Oracle) returns (ok: bool)
      requires Valid() && Known(x) && Sound(hub) && Faithful(o)
      modifies this`games_, this`groupsOf, this`nodes, this`hub
      modifies games_.Values`users, games_.Values`groups, nodes`players
      modifies sessions.Values`write_queue_, sessions.Values`log, sessions.Values`out
      modifies x`mac, x`name, x`game, x`group, x`logAtJoin, x`joinedAt
      ensures Valid() && x.id in old(hub).users
      ensures (hub, ok) == GameModel.Dispatch(old(hub), x.id, c, o)
      ensures fresh(games_.Values - old(games_.Values)) && fresh(nodes - old(nodes))
    {
      hide Valid, Sound, Faithful, WorksFor, GameModel.HandleLogin, GameModel.HandleConnect,
        GameModel.HandleDisconnect, GameModel.HandleScan, GameModel.HandleChat, ShowExcept;
      Shown(x);
      match c
      case Ping => ok := true;
      case Login(mac, name, code) => ok := HandleLogin(x, mac, name, code, o);
      case Connect(group) => ok := HandleConnect(x, group);
      case Disconnect => ok := HandleDisconnect(x);
      case Scan => ok := HandleScan(x, o);
      case Chat(message) => ok := HandleChat(x, message);
    }

    /** A command leaves the buffer. */
    method TakeOff(x: UserSession, size: nat)
      requires Valid() && Known(x) && Sound(hub) && size <= x.rxpos_
      modifies this`hub, this`now, x`rxpos_, x.rx_
      ensures Valid() && Sound(hub) && x.id in old(hub).users && size <= |old(hub).users[x.id].rx|
      ensures hub == Begun(old(hub), x.id, size) && x.rxpos_ == old(x.rxpos_) - size
    {
      hide Valid, Sound, Eaten, Quiet;
      ghost var was := hub;
      Consume(x, size);
      TouchSound(was, x.id, Eaten(was.users[x.id], size)) by { EatenQuiet(was.users[x.id], size); }
      TickSound(hub);
      Tick();
    }

    /** Note an accepted command, close after a refused one. */
    method Settle(x: UserSession, c: Command, ok: bool)
      requires Valid() && Known(x)
      modifies this`hub, x`commands, x`closed_, x`out
      ensures Valid() && x.id in old(hub).users && hub == Settled(old(hub), x.id, c, ok)
    {
      hide Valid, ClosedUser;
      if ok {
        Obeyed(x, c);
      } else {
        CloseSession(x);
      }
    }

    /** Take a command off the buffer and run its handler. */
    method Obey(x: UserSession, c: Command, size: nat, o: Oracle) returns (ok: bool)
      requires Valid() && Known(x) && Sound(hub) && Faithful(o) && 0 < size <= x.rxpos_
      modifies this`games_, this`groupsOf, this`nodes, this`hub, this`now
      modifies games_.Values`users, games_.Values`groups, nodes`players
      modifies sessions.Values`write_queue_, sessions.Values`log, sessions.Values`out
      modifies x`mac, x`name, x`game, x`group, x`logAtJoin, x`joinedAt, x`commands, x`closed_, x`out, x`rxpos_, x.rx_
      ensures Valid() && x.id in old(hub).users && size <= |old(hub).users[x.id].rx|
      ensures (hub, ok) == GameModel.Obey(old(hub), x.id, c, size, o)
      ensures fresh(games_.Values - old(games_.Values)) && fresh(nodes - old(nodes))
      ensures x.rxpos_ < old(x.rxpos_)
    {
      hide Valid, Sound, Faithful, Begun, Settled, GameModel.Dispatch, GameModel.Obey, WorksFor, OnlySentTo;
      ghost var was := hub;
      TakeOff(x, size);
      ok := Dispatch(x, c, o);
      Settle(x, c, ok);
      ObeyPieces(was, x.id, c, size, o);
    }

    method FrontOf(x: UserSession) returns (l: Lexed)
      requires Valid() && Known(x) && x.rxpos_ > 0
      ensures x.id in hub.users && hub.users[x.id].rx != [] && hub.users[x.id].closed == x.closed_
      ensures |hub.users[x.id].rx| == x.rxpos_
      ensures l == Lex(hub.users[x.id].game.Some?, hub.users[x.id].rx)
    {
      hide Valid, Lex, ShowExcept;
      Shown(x);
      BufferLength(x);
      l := x.Front();
    }

    /** One turn of the inner loop of `reader`. */
    method ReadOne(x: UserSession, o: Oracle) returns (needMore: bool)
      requires Valid() && Known(x) && Sound(hub) && Faithful(o) && x.rxpos_ > 0 && !x.closed_
      modifies this`games_, this`groupsOf, this`nodes, this`hub, this`now
      modifies games_.Values`users, games_.Values`groups, nodes`players
      modifies sessions.Values`write_queue_, sessions.Values`log, sessions.Values`out
      modifies x`mac, x`name, x`game, x`group, x`logAtJoin, x`joinedAt, x`commands, x`closed_, x`out, x`rxpos_, x.rx_
      ensures Valid() && Sound(hub) && x.id in old(hub).users && x.id in hub.users
      ensures Drain(hub, x.id, o) == Drain(old(hub), x.id, o)
      ensures needMore ==> Drain(hub, x.id, o) == hub && x.rxpos_ == old(x.rxpos_) && x.closed_ == old(x.closed_)
      ensures !needMore ==> x.rxpos_ < old(x.rxpos_) || (x.rxpos_ == old(x.rxpos_) && x.closed_)
      ensures fresh(games_.Values - old(games_.Values)) && fresh(nodes - old(nodes))
    {
      hide Valid, Sound, Faithful, Drain, GameModel.Obey, Lex, UserSession.View, UserSession.Valid, WorksFor,
        OnlySentTo;
      needMore := false;
      ghost var s := x.id;
      var l := FrontOf(x);
      DrainUnfolds(hub, s, o);
      match l {
        case NeedMore =>
          needMore := true;
        case Malformed =>
          ShutSound(hub, s);
          CloseSession(x);
          DrainStops(hub, s, o);
        case Got(c, size) =>
          ObeySound(hub, s, c, size, o);
          ObeyShuts(hub, s, c, size, o);
          var ok := Obey(x, c, size, o);
          if !ok { DrainStops(hub, s, o); }
      }
    }

    /** The inner loop of `reader`. */
    method ReadCommands(x: UserSession, o: Oracle)
      requires Valid() && Known(x) && Sound(hub) && Faithful(o)
      modifies this`games_, this`groupsOf, this`nodes, this`hub, this`now
      modifies games_.Values`users, games_.Values`groups, nodes`players
      modifies sessions.Values`write_queue_, sessions.Values`log, sessions.Values`out
      modifies x`mac, x`name, x`game, x`group, x`logAtJoin, x`joinedAt, x`commands, x`closed_, x`out, x`rxpos_, x.rx_
      ensures Valid() && x.id in old(hub).users && hub == Drain(old(hub), x.id, o)
      ensures fresh(games_.Values - old(games_.Values)) && fresh(nodes - old(nodes))
    {
      hide Valid, Sound, Faithful, Drain, ShowExcept;
      Shown(x);
      ghost var was, s := hub, x.id;
      var needMore := false;
      while !needMore && x.rxpos_ > 0 && !x.closed_
        invariant Valid() && Sound(hub) && s in hub.users
        invariant Drain(hub, s, o) == Drain(was, s, o)
        invariant needMore ==> hub == Drain(was, s, o)
        invariant fresh(games_.Values - old(games_.Values)) && fresh(nodes - old(nodes))
        decreases x.rxpos_, !x.closed_, !needMore
      {
        needMore := ReadOne(x, o);
      }
      if !needMore {
        Shown(x);
        BufferLength(x);
        DrainStops(hub, s, o);
      }
    }

    // ---- events ----------------------------------------------------------------------------------

    method Receive(x: UserSession, bytes: Bytes)
      requires Valid() && Known(x) && x.rxpos_ + |bytes| <= RX_SIZE
      modifies this`hub, x`rxpos_, x`input, x.rx_
      ensures Valid() && x.id in old(hub).users
      ensures hub == PutUser(old(hub), x.id, Received(old(hub).users[x.id], bytes))
    {
      hide Objects, ShowExcept, GamesShow, Shape, Wired, Apart, UserSession.View, UserSession.Valid, Received;
      Shown(x);
      x.Fill(bytes);
      Record(x);
    }

    method Cut(x: UserSession)
      requires Valid() && Known(x)
      modifies this`hub, x`cut
      ensures Valid() && x.id in old(hub).users
      ensures hub == PutUser(old(hub), x.id, CutUser(old(hub).users[x.id]))
    {
      hide Objects, ShowExcept, GamesShow, Shape, Wired, Apart, UserSession.View, UserSession.Valid;
      Shown(x);
      x.MarkCut();
      Record(x);
    }

    /** The last lines of `reader`. */
    method EndReader(x: UserSession)
      requires Valid() && Known(x) && Sound(hub)
      modifies this`games_, this`groupsOf, this`nodes, this`hub, this`connection_count_
      modifies games_.Values`users, games_.Values`groups, nodes`players
      modifies sessions.Values`write_queue_, sessions.Values`log, sessions.Values`out, x`game, x`group, x`reaped,
        x`closed_, x`out
      ensures Valid() && x.id in old(hub).users
      ensures hub == GameModel.EndReader(old(hub), x.id)
    {
      hide Valid, Sound, Reap, UserSession.View, UserSession.Valid, ShowExcept;
      Shown(x);
      ShutSound(hub, x.id);
      CloseSession(x);
      CloseConnection(x);
    }

    /** From a completed read to the next suspension of `reader`, or to its end. */
    method Activation(x: UserSession, bytes: Bytes, o: Oracle)
      requires Valid() && Known(x) && Sound(hub) && Faithful(o) && x.rxpos_ + |bytes| <= RX_SIZE
      modifies this`games_, this`groupsOf, this`nodes, this`hub, this`now, this`connection_count_
      modifies games_.Values`users, games_.Values`groups, nodes`players
      modifies sessions.Values`write_queue_, sessions.Values`log, sessions.Values`out
      modifies x`mac, x`name, x`game, x`group, x`logAtJoin, x`joinedAt, x`commands, x`closed_, x`out, x`rxpos_,
        x`input,
        x`reaped, x.rx_
      ensures Valid() && x.id in old(hub).users
      ensures hub == LoopHead(Drain(PutUser(old(hub), x.id, Received(old(hub).users[x.id], bytes)), x.id, o), x.id)
    {
      hide Valid, Sound, Faithful, Drain, Received, GameModel.EndReader, Quiet, UserSession.View, UserSession.Valid,
        ShowExcept;
      Shown(x);
      ReceivedSound(hub, x.id, bytes);
      Receive(x, bytes);
      DrainSound(hub, x.id, o);
      ReadCommands(x, o);
      Intake(x);
      if x.closed_ || x.rxpos_ >= RX_SIZE {
        EndReader(x);
      }
    }

    lemma Intake(x: UserSession)
      requires Valid() && Known(x)
      ensures x.id in hub.users && hub.users[x.id].closed == x.closed_ && |hub.users[x.id].rx| == x.rxpos_
      ensures hub.users[x.id].reaped == x.reaped
    {
      hide Valid, ShowExcept;
      Shown(x);
      BufferLength(x);
    }

    /** The accept loop of the game server. */
    method Open(s: Sid, ip: Ip)
      requires Valid() && s !in sessions
      modifies this`sessions, this`buffers, this`connection_count_, this`hub
      ensures Valid()
      ensures hub == if old(hub).connections >= SERVER_USER_MAXIMUM then old(hub)
                     else old(hub).(users := old(hub).users[s := NewUser(ip)], connections := old(hub).connections + 1)
    {
      hide Objects, Apart, Shape, GamesShow, Wired, NewUser;
      if connection_count_ >= SERVER_USER_MAXIMUM {
        return;
      }
      var x := new UserSession(s, ip);
      LetIn(x);
    }

    method LetIn(x: UserSession)
      requires Valid() && x.id !in sessions && x.Valid() && x.View() == NewUser(x.ip_be)
      requires x.rx_ !in buffers && x.game == null && x.group == null
      modifies this`sessions, this`buffers, this`connection_count_, this`hub
      ensures Valid()
      ensures hub == old(hub).(users := old(hub).users[x.id := NewUser(x.ip_be)], connections := old(hub).connections + 1)
    {
      hide Objects, Apart, Shape, GamesShow, Wired, NewUser, UserSession.View, UserSession.Valid;
      GrownObjects(x);
      GrownGames(x);
      sessions, buffers := sessions[x.id := x], buffers + {x.rx_};
      connection_count_ := connection_count_ + 1;
      hub := hub.(users := hub.users[x.id := NewUser(x.ip_be)], connections := hub.connections + 1);
    }

    lemma GrownObjects(x: UserSession)
      requires Valid() && x.id !in sessions && x.Valid() && x.View() == NewUser(x.ip_be)
      requires x.rx_ !in buffers && x.game == null && x.group == null
      ensures Objects(sessions[x.id := x], buffers + {x.rx_}, hub.users[x.id := NewUser(x.ip_be)])
      ensures Apart(sessions[x.id := x])
      ensures Wired(games_, groupsOf, sessions[x.id := x])
    {
      hide GamesShow, Shape, UserSession.View, UserSession.Valid;
    }

    lemma GrownGames(x: UserSession)
      requires Valid() && x.id !in sessions
      ensures GamesShow(sessions[x.id := x], games_, groupsOf, nodes, hub.games)
    {
      hide Objects, Apart, Wired, Shape, GameShows;
      forall g | g in games_ ensures GameShows(sessions[x.id := x], games_[g], groupsOf[g], hub.games[g]) {
        assert GameShows(sessions, games_[g], groupsOf[g], hub.games[g]);
        GrownGame(games_[g], groupsOf[g], hub.games[g], x);
      }
    }

    lemma GrownGame(node: GameNode, groups: Groups, model: Game, x: UserSession)
      requires GameShows(sessions, node, groups, model) && x.id !in sessions
      ensures GameShows(sessions[x.id := x], node, groups, model)
    {
    }

    /** A read completes. */
    method OnChunk(s: Sid, bytes: Bytes, o: Oracle)
      requires Valid() && Healthy(hub) && Enabled(hub, Chunk(s, bytes)) && Faithful(o)
      modifies this, games_.Values, nodes, sessions.Values, buffers
      ensures Valid() && hub == Step(old(hub), Chunk(s, bytes), o)
    {
      KnownSessions();
      hide Valid, Sound, Faithful, AllFaultless, LoopHead, Drain, Received;
      Intake(sessions[s]);
      Activation(sessions[s], bytes, o);
    }

    /** A read fails: the reader is done. */
    method OnReadFailed(s: Sid, o: Oracle)
      requires Valid() && Healthy(hub) && Enabled(hub, ReadFailed(s))
      modifies this, games_.Values, nodes, sessions.Values, buffers
      ensures Valid() && hub == Step(old(hub), ReadFailed(s), o)
    {
      hide Valid, Sound, Healthy, GameModel.EndReader, Step;
      KnownSessions();
      FailIs(hub, s, o);
      SoundOf(hub);
      CutSound(hub, s);
      Cut(sessions[s]);
      EndReader(sessions[s]);
    }

    /** The watchdog or the writer closes the session; its reader will notice. */
    method OnClose(s: Sid, o: Oracle)
      requires Valid() && Enabled(hub, CloseFrom(s))
      modifies this, sessions.Values
      ensures Valid() && hub == Step(old(hub), CloseFrom(s), o)
    {
      hide Valid, Step, CutUser, ClosedUser;
      EnabledOn(hub, CloseFrom(s));
      KnownSessions();
      CloseIs(hub, s, o);
      Cut(sessions[s]);
      CloseSession(sessions[s]);
      CutThenShut(old(hub), s);
    }

    /** The writer goes round its loop. */
    method OnWriterRuns(s: Sid, o: Oracle)
      requires Valid() && Enabled(hub, WriterRuns(s))
      modifies this`hub, sessions.Values`write_queue_, sessions.Values`in_flight_, sessions.Values`out
      ensures Valid() && hub == Step(old(hub), WriterRuns(s), o)
    {
      KnownSessions();
      Outgoing(sessions[s]);
      hide Valid, WriterLoop;
      WriterStep(sessions[s]);
    }

    /** A write completes or fails. */
    method OnWritten(s: Sid, ok: bool, o: Oracle)
      requires Valid() && Enabled(hub, Written(s, ok))
      modifies this`hub, sessions.Values
      ensures Valid() && hub == Step(old(hub), Written(s, ok), o)
    {
      KnownSessions();
      Outgoing(sessions[s]);
      hide Valid, WriteDone;
      WriteStep(sessions[s], ok);
    }

    lemma Outgoing(x: UserSession)
      requires Valid() && Known(x)
      ensures x.id in hub.users && hub.users[x.id].out == x.out
    {
      hide Valid, ShowExcept;
      Shown(x);
    }

    method WriterStep(x: UserSession)
      requires Valid() && Known(x) && x.out.writer.Runnable?
      modifies this`hub, x`write_queue_, x`in_flight_, x`out
      ensures Valid() && x.id in old(hub).users
      ensures hub == PutUser(old(hub), x.id, WriterLoop(old(hub).users[x.id]))
    {
      hide Objects, ShowExcept, GamesShow, Shape, Wired, Apart, UserSession.View, UserSession.Valid, WriterLoop;
      Shown(x);
      x.RunWriter();
      Record(x);
    }

    method WriteStep(x: UserSession, ok: bool)
      requires Valid() && Known(x) && x.out.writer.Writing?
      modifies this`hub, x`write_queue_, x`in_flight_, x`closed_, x`cut, x`out, x`sent
      ensures Valid() && x.id in old(hub).users
      ensures hub == PutUser(old(hub), x.id, WriteDone(old(hub).users[x.id], ok))
      ensures x.sent == if ok then old(x.sent) + old(x.in_flight_) else old(x.sent)
    {
      hide Objects, ShowExcept, GamesShow, Shape, Wired, Apart, UserSession.View, UserSession.Valid, WriteDone;
      Shown(x);
      x.FinishWrite(ok);
      Record(x);
    }

    /** One event, run in place, is one step of the model, and the invariant of all runs goes on holding. */
    method Handle(e: Event, o: Oracle)
      requires Valid() && Healthy(hub) && Enabled(hub, e) && Faithful(o)
      modifies this, games_.Values, nodes, sessions.Values, buffers
      ensures Valid() && Healthy(hub)
      ensures hub == Step(old(hub), e, o)
    {
      hide Valid, Healthy, Enabled, Faithful, Step, NewUser, Announce, Graph;
      StepKeeps(hub, e, o);
      match e
      case Chunk(s, bytes) => OnChunk(s, bytes, o);
      case ReadFailed(s) => OnReadFailed(s, o);
      case CloseFrom(s) => OnClose(s, o);
      case WriterRuns(s) => OnWriterRuns(s, o);
      case Written(s, ok) => OnWritten(s, ok, o);
      case Open(s, ip) =>
        KnownSessions();
        OpenIs(hub, s, ip, o);
        Open(s, ip);
      case Shutdown =>
        SoundGraph(hub);
        ShutdownIs(hub, o);
        BroadcastShutdown();
    }

    lemma KnownSessions()
      requires Valid()
      ensures sessions.Keys == hub.users.Keys
      ensures forall s :: s in sessions ==> Known(sessions[s]) && sessions[s].id == s && sessions[s].rx_ in buffers
    {
      hide Apart, GamesShow, Shape, Wired;
    }
  }

  lemma EnabledOn(h: Hub, e: Event)
    requires Enabled(h, e)
    ensures e.CloseFrom? || e.WriterRuns? || e.Written? ==> e.s in h.users
  {
  }

  lemma OpenIs(h: Hub, s: Sid, ip: Ip, o: Oracle)
    requires Enabled(h, Open(s, ip))
    ensures s !in h.users
    ensures Step(h, Open(s, ip), o)
         == if h.connections >= SERVER_USER_MAXIMUM then h
            else h.(users := h.users[s := NewUser(ip)], connections := h.connections + 1)
  {
    hide NewUser;
  }

  lemma ShutdownIs(h: Hub, o: Oracle)
    ensures Enabled(h, Shutdown) && Step(h, Shutdown, o) == Announce(h)
  {
    hide Announce;
  }

  lemma SoundGraph(h: Hub)
    requires Healthy(h)
    ensures Graph(h.games, h.users)
  {
    hide Graph, Views, Ordered, JoinedBy, Gone, Counted, AllFaultless;
  }

  lemma CutSound(h: Hub, s: Sid)
    requires Sound(h) && s in h.users
    ensures Sound(PutUser(h, s, CutUser(h.users[s])))
  {
    hide Sound, Quiet;
    CutQuiet(h.users[s]);
    TouchSound(h, s, CutUser(h.users[s]));
  }

  lemma FailIs(h: Hub, s: Sid, o: Oracle)
    requires Enabled(h, ReadFailed(s))
    ensures Step(h, ReadFailed(s), o) == GameModel.EndReader(PutUser(h, s, CutUser(h.users[s])), s)
  {
  }

  lemma SoundOf(h: Hub)
    requires Healthy(h)
    ensures Sound(h)
  {
    hide Sound;
  }

  lemma CutThenShut(h: Hub, s: Sid)
    requires s in h.users
    ensures Shut(PutUser(h, s, CutUser(h.users[s])), s) == PutUser(h, s, ClosedUser(CutUser(h.users[s])))
  {
    var u := CutUser(h.users[s]);
    assert h.users[s := u][s := ClosedUser(u)] == h.users[s := ClosedUser(u)];
  }

  lemma ReceivedSound(h: Hub, s: Sid, bytes: Bytes)
    requires Sound(h) && s in h.users
    ensures Sound(PutUser(h, s, Received(h.users[s], bytes)))
  {
    hide Sound;
    TouchSound(h, s, Received(h.users[s], bytes));
  }

  ghost function Begun(h: Hub, s: Sid, size: nat): (r: Hub)
    requires s in h.users && size <= |h.users[s].rx|
    ensures s in r.users
  {
    var eaten := PutUser(h, s, Eaten(h.users[s], size));
    eaten.(clock := eaten.clock + 1)
  }

  ghost function Settled(h: Hub, s: Sid, c: Command, ok: bool): Hub
    requires s in h.users
  {
    if ok then PutUser(h, s, h.users[s].(commands := h.users[s].commands + [c])) else Shut(h, s)
  }

  lemma ObeyPieces(h: Hub, s: Sid, c: Command, size: nat, o: Oracle)
    requires s in h.users && size <= |h.users[s].rx|
    ensures var d := GameModel.Dispatch(Begun(h, s, size), s, c, o);
            s in d.0.users && GameModel.Obey(h, s, c, size, o) == (Settled(d.0, s, c, d.1), d.1)
  {
    hide GameModel.Dispatch, WorksFor, OnlySentTo, Posted, Eaten, ClosedUser;
    WorkerStays(Begun(h, s, size), s, GameModel.Dispatch(Begun(h, s, size), s, c, o).0);
  }

  lemma WorkerStays(h: Hub, s: Sid, r: Hub)
    requires WorksFor(h, s, r) && s in h.users
    ensures s in r.users
  {
  }

  lemma DrainStops(h: Hub, s: Sid, o: Oracle)
    requires s in h.users && (h.users[s].rx == [] || h.users[s].closed)
    ensures Drain(h, s, o) == h
  {
  }

  lemma ObeyShuts(h: Hub, s: Sid, c: Command, size: nat, o: Oracle)
    requires s in h.users && size <= |h.users[s].rx|
    ensures var (r, ok) := Obey(h, s, c, size, o); !ok ==> r.users[s].closed
  {
    hide Execute, Eaten;
  }

  lemma EatenQuiet(u: User, size: nat)
    requires size <= |u.rx|
    ensures Quiet(u, Eaten(u, size))
  {
  }

  // ---- telling everybody ---------------------------------------------------------------------

  /** Users of the games `gs`, and of the groups `ks` of game `g`, are still to be told. */
  predicate Pending(u: User, gs: set<Bytes>, g: Bytes, ks: set<Bytes>) {
    u.group.Some? && (u.game.None? || u.game.value in gs || (u.game.value == g && u.group.value in ks))
  }

  ghost function Spread(us: map<Sid, User>, gs: set<Bytes>, g: Bytes, ks: set<Bytes>): (r: map<Sid, User>)
    ensures r.Keys == us.Keys
  {
    map t | t in us :: if Pending(us[t], gs, g, ks) then us[t] else Told(us[t])
  }

  lemma AnnounceTwice(h: Hub)
    requires h.shutdown
    ensures Announce(h) == h
  {
  }

  lemma SpreadNone(h: Hub)
    requires PointersLive(h.games, h.users)
    ensures Spread(h.users, h.games.Keys, [], {}) == h.users
  {
    forall t | t in h.users ensures Spread(h.users, h.games.Keys, [], {})[t] == h.users[t] {
      assert PointerLive(h.games, h.users[t]);
    }
  }

  lemma SpreadAll(h: Hub)
    requires PointersLive(h.games, h.users) && !h.shutdown
    ensures h.(shutdown := true, users := Spread(h.users, {}, [], {})) == Announce(h)
  {
    var all := Announce(h).users;
    forall t | t in h.users ensures Spread(h.users, {}, [], {})[t] == all[t] {
      assert PointerLive(h.games, h.users[t]);
    }
    assert Spread(h.users, {}, [], {}) == all;
  }

  lemma SpreadEnter(h: Hub, gs: set<Bytes>, g: Bytes)
    requires Graph(h.games, h.users) && g in h.games && g !in gs
    ensures Spread(h.users, gs + {g}, [], {}) == Spread(h.users, gs, g, h.games[g].groups.Keys)
  {
    var a, b := Spread(h.users, gs + {g}, [], {}), Spread(h.users, gs, g, h.games[g].groups.Keys);
    forall t | t in h.users ensures a[t] == b[t] {
      assert PointerLive(h.games, h.users[t]);
      PendingSame(h.games, h.users[t], gs, g);
    }
    hide Pending, Told, PointersLive, Lists, UsersListed, PlayersListed;
    assert a == b;
  }

  lemma PendingSame(games: map<Bytes, Game>, u: User, gs: set<Bytes>, g: Bytes)
    requires PointerLive(games, u) && g in games && g !in gs
    ensures Pending(u, gs + {g}, [], {}) <==> Pending(u, gs, g, games[g].groups.Keys)
  {
  }

  lemma SpreadLeave(us: map<Sid, User>, gs: set<Bytes>, g: Bytes)
    ensures Spread(us, gs, g, {}) == Spread(us, gs, [], {})
  {
  }

  /** One group more has been told. */
  lemma SpreadStep(h: Hub, gs: set<Bytes>, g: Bytes, ks: set<Bytes>, k: Bytes)
    requires Graph(h.games, h.users) && g in h.games && g !in gs && k in ks && k in h.games[g].groups
    ensures DeliverAll(Spread(h.users, gs, g, ks), MembersOrNone(h.games[g], k), None, ShutdownPacket())
         == Spread(h.users, gs, g, ks - {k})
  {
    hide Graph, Spread, DeliverAll, PlayersOf, InGroup, Queued, ShutdownPacket;
    var ids, us := h.games[g].groups[k], Spread(h.users, gs, g, ks);
    MembersListed(h, g, k);
    var a, b := DeliverAll(us, ids, None, ShutdownPacket()), Spread(h.users, gs, g, ks - {k});
    forall t | t in h.users ensures a[t] == b[t] {
      DeliverAllAt(us, ids, None, ShutdownPacket(), t);
      SpreadAt(h.users, gs, g, ks, k, t);
    }
    assert a == b;
  }

  lemma MembersListed(h: Hub, g: Bytes, k: Bytes)
    requires Graph(h.games, h.users) && g in h.games && k in h.games[g].groups
    ensures NoDup(h.games[g].groups[k])
    ensures forall t :: t in h.games[g].groups[k] <==> t in h.users && InGroup(h.users[t], g, k)
  {
    assert GameOk(h.games[g]) && PlayersOf(h.users, g, k, h.games[g].groups[k]);
  }

  lemma SpreadAt(us: map<Sid, User>, gs: set<Bytes>, g: Bytes, ks: set<Bytes>, k: Bytes, t: Sid)
    requires t in us && g !in gs && k in ks
    ensures Spread(us, gs, g, ks - {k})[t]
         == if InGroup(us[t], g, k) then Queued(Spread(us, gs, g, ks)[t], ShutdownPacket()) else Spread(us, gs, g, ks)[t]
  {
    hide ShutdownPacket, Queued;
  }

  lemma ReapQuiet(u: User)
    ensures Quiet(u, u.(reaped := true))
  {
  }

  lemma QuitPieces(h: Hub, s: Sid, g: Bytes)
    requires s in h.users && h.users[s].game == Some(g) && h.users[s].group.None? && g in h.games
    ensures var a := PutUser(h, s, h.users[s].(game := None, group := None));
            var b := PutGame(a, g, h.games[g].(users := RemoveFirst(h.games[g].users, s)));
            GameModel.QuitGame(h, s)
            == if RemoveFirst(h.games[g].users, s) == [] then b.(games := b.games - {g}) else b
  {
    hide WorksFor, RemoveFirst;
    var rest := RemoveFirst(h.games[g].users, s);
    var x := h.games[g].(users := rest);
    assert h.games[g := x] - {g} == h.games - {g};
    assert h.users[s].(game := None, group := None) == h.users[s].(game := None);
  }

  lemma FrontMacSame(h: Hub, s: Sid, u: User, ids: seq<Sid>, own: Mac)
    requires s in h.users && u.mac == h.users[s].mac
    ensures FrontMac(PutUser(h, s, u), ids, own) == FrontMac(h, ids, own)
  {
  }

  lemma QueuedAllNone(h: Hub, s: Sid, ps: seq<Packet>)
    requires s in h.users
    ensures PutUser(h, s, QueuedAll(h.users[s], ps[..0])) == h
  {
    QueuedNone(h.users[s], ps[..0]);
    assert h.users[s := h.users[s]] == h.users;
  }

  lemma QueuedAllNext(h: Hub, s: Sid, ps: seq<Packet>, i: nat)
    requires s in h.users && i < |ps|
    ensures var q := PutUser(h, s, QueuedAll(h.users[s], ps[..i]));
            q.(users := Deliver(q.users, s, ps[i])) == PutUser(h, s, QueuedAll(h.users[s], ps[..i + 1]))
    ensures QueuedAll(h.users[s], ps[..i]).mac == h.users[s].mac
  {
    var u := h.users[s];
    assert ps[..i + 1] == ps[..i] + [ps[i]];
    AllThenQueued(u, ps[..i], ps[i]);
    var q := QueuedAll(u, ps[..i]);
    hide QueuedAll, Queued;
    assert h.users[s := q][s := Queued(q, ps[i])] == h.users[s := Queued(q, ps[i])];
  }

  lemma QueuedAllLast(h: Hub, s: Sid, ps: seq<Packet>)
    requires s in h.users
    ensures var q := PutUser(h, s, QueuedAll(h.users[s], ps));
            q.(users := Deliver(q.users, s, ScanComplete)) == PutUser(h, s, QueuedAll(h.users[s], ps + [ScanComplete]))
  {
    var all := ps + [ScanComplete];
    assert all[..|ps|] == ps && all[..|ps| + 1] == all;
    QueuedAllNext(h, s, all, |ps|);
  }

  /** The steps of leaving one after the other. */
  ghost function Leaves(h: Hub, s: Sid, g: Bytes, k: Bytes): Hub
    requires s in h.users && g in h.games
  {
    var ids := ListAt(h.games, g, k);
    var a := PutUser(h, s, h.users[s].(group := None));
    var b := PutGame(a, g, GroupWith(a, g, k, RemoveFirst(ids, s)));
    var c := b.(users := DeliverAll(b.users, RemoveFirst(ids, s), None, DisconnectPkt(h.users[s].ip)));
    if RemoveFirst(ids, s) == [] then PutGame(c, g, c.games[g].(groups := c.games[g].groups - {k})) else c
  }

  lemma LeavePieces(h: Hub, s: Sid, g: Bytes, k: Bytes)
    requires s in h.users && h.users[s].game == Some(g) && g in h.games && h.users[s].group == Some(k)
    requires k in h.games[g].groups
    ensures Leaves(h, s, g, k) == GameModel.LeaveGroup(h, s)
  {
    hide WorksFor, DeliverAll, RemoveFirst;
    var was, rest := h.games[g], RemoveFirst(ListAt(h.games, g, k), s);
    assert (was.groups[k := rest]) - {k} == was.groups - {k};
    var with := GroupWith(h, g, k, rest);
    assert h.games[g := with][g := with.(groups := with.groups - {k})]
        == h.games[g := with.(groups := with.groups - {k})];
  }

  ghost function GroupWith(h: Hub, g: Bytes, k: Bytes, ids: seq<Sid>): Game
    requires g in h.games
  {
    h.games[g].(groups := h.games[g].groups[k := ids])
  }

  /** The steps of a join one after the other. */
  ghost function Joins(h: Hub, s: Sid, g: Bytes, k: Bytes, ids: seq<Sid>): Hub
    requires s in h.users && g in h.games
  {
    var a := PutUser(h, s, h.users[s].(logAtJoin := |h.users[s].log|, joinedAt := h.clock));
    var b := a.(users := Greet(a.users, s, ids));
    var c := PutGame(b, g, GroupWith(b, g, k, ids + [s]));
    var d := PutUser(c, s, c.users[s].(game := Some(g), group := Some(k)));
    var front := (ids + [s])[0];
    d.(users := Deliver(d.users, s, BssidPkt(if front in d.users then d.users[front].mac else d.users[s].mac)))
  }

  lemma ConnectPieces(h: Hub, s: Sid, raw: RawGroup, key: Bytes)
    requires s in h.users && h.users[s].game.Some? && h.users[s].game.value in h.games && h.users[s].group.None?
    requires ValidGroup(raw) && key == UpToNul(raw)
    ensures var g, members := h.users[s].game.value, MembersOrNone(h.games[h.users[s].game.value], key);
            (Joins(PutGame(h, g, GroupWith(h, g, key, members)), s, g, key, members), true)
            == GameModel.HandleConnect(h, s, raw)
  {
    hide ValidGroup, WorksFor, Greet, Deliver, Introduce, Joins, OnlySentTo, Posted;
    var g, members := h.users[s].game.value, MembersOrNone(h.games[h.users[s].game.value], key);
    var found := PutGame(h, g, GroupWith(h, g, key, members));
    JoinsGames(found, s, g, key, members);
    JoinsUsers(found, s, g, key, members);
    var was := h.games[g];
    assert (was.groups[key := members])[key := members + [s]] == was.groups[key := members + [s]];
    assert GroupWith(found, g, key, members + [s]) == PutGroup(was, key, members + [s]);
    assert h.games[g := GroupWith(h, g, key, members)][g := PutGroup(was, key, members + [s])]
        == h.games[g := PutGroup(was, key, members + [s])];
  }

  lemma JoinsGames(h: Hub, s: Sid, g: Bytes, k: Bytes, ids: seq<Sid>)
    requires s in h.users && g in h.games
    ensures Joins(h, s, g, k, ids)
         == h.(games := h.games[g := GroupWith(h, g, k, ids + [s])], users := Joins(h, s, g, k, ids).users)
  {
    hide Greet, Deliver;
  }

  lemma JoinsUsers(h: Hub, s: Sid, g: Bytes, k: Bytes, ids: seq<Sid>)
    requires s in h.users && g in h.games && h.users[s].game == Some(g)
    ensures Joins(h, s, g, k, ids).users == Introduce(h.users, s, ids, k, h.clock)
  {
    hide Greet, Deliver, OnlySentTo, AllOnlySentTo, Posted;
    var ready := h.users[s := h.users[s].(logAtJoin := |h.users[s].log|, joinedAt := h.clock)];
    var greeted := Greet(ready, s, ids);
    assert greeted[s].game == Some(g) && greeted[s].mac == h.users[s].mac by { GreetKeeps(ready, s, ids); }
  }

  lemma GreetKeeps(us: map<Sid, User>, s: Sid, ids: seq<Sid>)
    requires s in us
    ensures s in Greet(us, s, ids) && Greet(us, s, ids)[s].game == us[s].game && Greet(us, s, ids)[s].mac == us[s].mac
  {
    hide Greet;
    assert OnlySentTo(us[s], Greet(us, s, ids)[s]);
  }
}
