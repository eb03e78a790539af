/** What every reachable state of the game hub keeps: the predicates and the facts about lists. */
module GameInvariant {
  import opened Bytes
  import opened SessionNames
  import opened Packets
  import opened GameModel

  // ---- the graph -----------------------------------------------------------------------------

  ghost predicate NoDup<T>(v: seq<T>) { forall i, j :: 0 <= i < j < |v| ==> v[i] != v[j] }

  predicate ValidKey(k: Bytes) {
    |k| <= 8 && forall c :: c in k ==> IsUpper(c) || IsLower(c) || IsDigit(c)
  }

  ghost predicate GameOk(game: Game) {
    && game.users != [] && NoDup(game.users)
    && forall k :: k in game.groups ==> game.groups[k] != [] && NoDup(game.groups[k]) && ValidKey(k)
  }

  ghost predicate Lists(games: map<Bytes, Game>) { forall g :: g in games ==> GameOk(games[g]) }

  ghost predicate UsersOf(us: map<Sid, User>, g: Bytes, users: seq<Sid>) {
    forall t :: t in users <==> t in us && us[t].game == Some(g)
  }

  /** A user is on a game's list exactly when the user's game is that game. */
  ghost predicate UsersListed(games: map<Bytes, Game>, us: map<Sid, User>) {
    forall g :: g in games ==> UsersOf(us, g, games[g].users)
  }

  ghost predicate InGroup(u: User, g: Bytes, k: Bytes) { u.game == Some(g) && u.group == Some(k) }

  ghost predicate PlayersOf(us: map<Sid, User>, g: Bytes, k: Bytes, players: seq<Sid>) {
    forall t :: t in players <==> t in us && InGroup(us[t], g, k)
  }

  /** A user is in a group's list exactly when the user's game and group are those. */
  ghost predicate PlayersListed(games: map<Bytes, Game>, us: map<Sid, User>) {
    forall g, k :: g in games && k in games[g].groups ==> PlayersOf(us, g, k, games[g].groups[k])
  }

  ghost predicate PointerLive(games: map<Bytes, Game>, u: User) {
    && (u.game.Some? ==> u.game.value in games)
    && (u.group.Some? ==> u.game.Some? && u.game.value in games && u.group.value in games[u.game.value].groups)
  }

  /** The back-pointers of users are to nodes that exist. */
  ghost predicate PointersLive(games: map<Bytes, Game>, us: map<Sid, User>) {
    forall t :: t in us ==> PointerLive(games, us[t])
  }

  ghost predicate Graph(games: map<Bytes, Game>, us: map<Sid, User>) {
    && Lists(games) && UsersListed(games, us) && PlayersListed(games, us) && PointersLive(games, us)
  }

  /** A reaped user is closed and refers to nothing. */
  ghost predicate Gone(us: map<Sid, User>) {
    forall t :: t in us && us[t].reaped ==> us[t].game.None? && us[t].group.None? && us[t].closed
  }

  ghost function Unreaped(us: map<Sid, User>): set<Sid> { set t | t in us && !us[t].reaped }

  ghost predicate Counted(h: Hub) { h.connections == |Unreaped(h.users)| <= SERVER_USER_MAXIMUM }

  // ---- what members see ----------------------------------------------------------------------

  /** The client's book-keeping: CONNECT adds an address, DISCONNECT takes one occurrence away. */
  ghost function Noted(v: multiset<Ip>, p: Packet): multiset<Ip> {
    if p.ConnectPkt? then v + multiset{p.ip} else if p.DisconnectPkt? then v - multiset{p.ip} else v
  }

  ghost function View(ps: seq<Packet>): multiset<Ip> {
    if ps == [] then multiset{} else Noted(View(ps[..|ps| - 1]), ps[|ps| - 1])
  }

  ghost function SeenSince(u: User): multiset<Ip>
    requires u.logAtJoin <= |u.log|
  {
    View(u.log[u.logAtJoin..])
  }

  ghost function OneOther(us: map<Sid, User>, player: Sid, t: Sid): multiset<Ip> {
    if player != t && player in us then multiset{us[player].ip} else multiset{}
  }

  /** The addresses of the players other than `t`. */
  ghost function Others(us: map<Sid, User>, players: seq<Sid>, t: Sid): multiset<Ip> {
    if players == [] then multiset{} else OneOther(us, players[0], t) + Others(us, players[1..], t)
  }

  /** Everybody in the user's group. */
  function Members(games: map<Bytes, Game>, u: User): seq<Sid> {
    if u.game.Some? && u.game.value in games && u.group.Some? && u.group.value in games[u.game.value].groups
    then games[u.game.value].groups[u.group.value] else []
  }

  ghost predicate Sees(u: User, others: multiset<Ip>) {
    u.logAtJoin <= |u.log| && (!u.closed && u.group.Some? ==> SeenSince(u) == others)
  }

  ghost predicate Views(games: map<Bytes, Game>, us: map<Sid, User>) {
    forall t :: t in us ==> Sees(us[t], Others(us, Members(games, us[t]), t))
  }

  // ---- seniority -----------------------------------------------------------------------------

  /** Players stand in the order in which they joined. */
  ghost predicate Seniority(us: map<Sid, User>, players: seq<Sid>) {
    forall i, j :: 0 <= i < j < |players| && players[i] in us && players[j] in us ==>
      us[players[i]].joinedAt < us[players[j]].joinedAt
  }

  ghost predicate JoinedBy(us: map<Sid, User>, now: nat) { forall t :: t in us ==> us[t].joinedAt <= now }

  ghost predicate Ordered(games: map<Bytes, Game>, us: map<Sid, User>) {
    forall g, k :: g in games && k in games[g].groups ==> Seniority(us, games[g].groups[k])
  }

  /** What the handlers keep, and what also holds in the middle of `close_connection`. */
  ghost predicate Sound(h: Hub) {
    Graph(h.games, h.users) && Views(h.games, h.users) && Ordered(h.games, h.users) && JoinedBy(h.users, h.clock)
  }

  ghost predicate Inv(h: Hub) { Sound(h) && Gone(h.users) && Counted(h) }

  // ---- lists ---------------------------------------------------------------------------------

  lemma NoDupCons(x: Sid, v: seq<Sid>)
    ensures NoDup([x] + v) <==> NoDup(v) && x !in v
  {
    var w := [x] + v;
    if NoDup(v) && x !in v {
      forall i, j | 0 <= i < j < |w| ensures w[i] != w[j] {
        assert w[j] == v[j - 1];
        assert 0 < i ==> w[i] == v[i - 1];
      }
    }
    if NoDup(w) {
      forall i, j | 0 <= i < j < |v| ensures v[i] != v[j] {
        assert v[i] == w[i + 1] && v[j] == w[j + 1];
      }
      forall i | 0 <= i < |v| ensures v[i] != x {
        assert v[i] == w[i + 1] && x == w[0];
      }
    }
  }

  lemma {:induction false} RemoveFirstSet(v: seq<Sid>, x: Sid)
    requires NoDup(v)
    ensures NoDup(RemoveFirst(v, x))
    ensures forall t :: t in RemoveFirst(v, x) <==> t in v && t != x
  {
    hide NoDup;
    if v != [] {
      var a, w := v[0], v[1..];
      assert v == [a] + w;
      NoDupCons(a, w);
      RemoveFirstSet(w, x);
      NoDupCons(a, RemoveFirst(w, x));
    } else {
      NoDupNone();
    }
  }

  lemma NoDupNone()
    ensures NoDup<Sid>([])
  {
  }

  /** What is left keeps its order. */
  lemma {:induction false} RemoveFirstSeniority(us: map<Sid, User>, v: seq<Sid>, x: Sid)
    requires Seniority(us, v)
    ensures Seniority(us, RemoveFirst(v, x))
  {
    if v != [] {
      assert forall i :: 0 <= i < |v[1..]| ==> v[1..][i] == v[i + 1];
      RemoveFirstSeniority(us, v[1..], x);
      if v[0] != x {
        var r := RemoveFirst(v[1..], x);
        RemoveFirstFrom(v[1..], x);
        forall j | 0 <= j < |r| && v[0] in us && r[j] in us ensures us[v[0]].joinedAt < us[r[j]].joinedAt {
          var i :| 0 <= i < |v[1..]| && v[1..][i] == r[j];
        }
        assert RemoveFirst(v, x) == [v[0]] + r;
      }
    }
  }

  lemma {:induction false} RemoveFirstFrom(v: seq<Sid>, x: Sid)
    ensures forall i :: 0 <= i < |RemoveFirst(v, x)| ==> RemoveFirst(v, x)[i] in v
  {
    if v != [] {
      RemoveFirstFrom(v[1..], x);
      assert forall i :: 0 <= i < |v[1..]| ==> v[1..][i] in v;
    }
  }

  lemma NoDupAppend(v: seq<Sid>, x: Sid)
    requires NoDup(v) && x !in v
    ensures NoDup(v + [x])
    ensures forall t :: t in v + [x] <==> t in v || t == x
  {
  }

  // ---- sending -------------------------------------------------------------------------------

  /** Everybody on the list but `skip` gets the packet once. */
  lemma {:induction false} DeliverAllAt(us: map<Sid, User>, to: seq<Sid>, skip: Option<Sid>, p: Packet, t: Sid)
    requires NoDup(to) && t in us
    ensures DeliverAll(us, to, skip, p)[t] == if t in to && skip != Some(t) then Queued(us[t], p) else us[t]
    decreases |to|
  {
    if to != [] {
      var one := if skip == Some(to[0]) then us else Deliver(us, to[0], p);
      assert forall i :: 0 <= i < |to[1..]| ==> to[1..][i] == to[i + 1];
      DeliverAllAt(one, to[1..], skip, p, t);
    }
  }

  predicate Known(us: map<Sid, User>, v: seq<Sid>) { forall i :: 0 <= i < |v| ==> v[i] in us }

  ghost function Greetings(us: map<Sid, User>, members: seq<Sid>): (r: seq<Packet>)
    requires Known(us, members)
    ensures |r| == |members| && forall i :: 0 <= i < |r| ==> r[i] == ConnectOf(us[members[i]])
  {
    seq(|members|, i requires 0 <= i < |members| => ConnectOf(us[members[i]]))
  }

  /** One turn of the loop, seen by each user. */
  lemma GreetOneAt(us: map<Sid, User>, s: Sid, m: Sid, t: Sid)
    requires s in us && m in us && t in us && s != m
    ensures GreetOne(us, s, m)[t] ==
            if t == s then Queued(us[s], ConnectOf(us[m])) else if t == m then Queued(us[t], ConnectOf(us[s])) else us[t]
  {
  }

  /** Members get one introduction each, other bystanders none. */
  lemma {:induction false} GreetAt(us: map<Sid, User>, s: Sid, members: seq<Sid>, t: Sid)
    requires NoDup(members) && s in us && s !in members && t in us && t != s && Known(us, members)
    ensures Greet(us, s, members)[t] == if t in members then Queued(us[t], ConnectOf(us[s])) else us[t]
    decreases |members|
  {
    if members != [] {
      hide GreetOne, ConnectOf, Queued, NoDup, Known, OnlySentTo;
      var m, rest := members[0], members[1..];
      assert members == [m] + rest;
      NoDupCons(m, rest);
      var one := GreetOne(us, s, m);
      KnownCons(us, one, m, rest);
      GreetOneAt(us, s, m, t);
      SameConnectAfter(us, s, m);
      GreetAt(one, s, rest, t);
    }
  }

  lemma KnownCons(us: map<Sid, User>, vs: map<Sid, User>, m: Sid, rest: seq<Sid>)
    requires Known(us, [m] + rest) && us.Keys == vs.Keys
    ensures m in us && Known(us, rest) && Known(vs, rest)
  {
    var all := [m] + rest;
    assert all[0] in us;
    assert forall i :: 0 <= i < |rest| ==> rest[i] == all[i + 1];
  }

  lemma SameConnectAfter(us: map<Sid, User>, s: Sid, m: Sid)
    requires s in us && m in us
    ensures forall t :: t in us ==> ConnectOf(GreetOne(us, s, m)[t]) == ConnectOf(us[t])
  {
    hide GreetOne;
    forall t | t in us ensures ConnectOf(GreetOne(us, s, m)[t]) == ConnectOf(us[t]) {
      SameConnect(us[t], GreetOne(us, s, m)[t]);
    }
  }

  lemma SameConnect(u: User, v: User)
    requires OnlySentTo(u, v)
    ensures ConnectOf(u) == ConnectOf(v)
  {
  }

  /** The newcomer gets one introduction for each member, in their order. */
  lemma {:induction false} GreetSelf(us: map<Sid, User>, s: Sid, members: seq<Sid>)
    requires NoDup(members) && s in us && s !in members && Known(us, members)
    ensures Greet(us, s, members)[s] == QueuedAll(us[s], Greetings(us, members))
    decreases |members|
  {
    hide GreetOne, ConnectOf, Queued, QueuedAll, Greetings, NoDup, Known, OnlySentTo;
    if members == [] {
      QueuedNone(us[s], Greetings(us, members));
    } else {
      var m, rest := members[0], members[1..];
      assert members == [m] + rest;
      NoDupCons(m, rest);
      var one := GreetOne(us, s, m);
      KnownCons(us, one, m, rest);
      GreetOneAt(us, s, m, s);
      GreetSelf(one, s, rest);
      SameConnectAfter(us, s, m);
      GreetingsCons(us, one, m, rest);
      QueuedThenAll(us[s], ConnectOf(us[m]), Greetings(us, rest));
    }
  }

  lemma GreetingsCons(us: map<Sid, User>, vs: map<Sid, User>, m: Sid, rest: seq<Sid>)
    requires Known(us, [m] + rest) && m in us && Known(us, rest) && Known(vs, rest)
    requires forall t :: t in us && t in vs ==> ConnectOf(vs[t]) == ConnectOf(us[t])
    ensures Greetings(vs, rest) == Greetings(us, rest)
    ensures Greetings(us, [m] + rest) == [ConnectOf(us[m])] + Greetings(us, rest)
  {
    hide ConnectOf;
  }

  lemma QueuedNone(u: User, ps: seq<Packet>)
    requires ps == []
    ensures QueuedAll(u, ps) == u
  {
    assert u.log + [] == u.log;
  }

  lemma AllThenQueued(u: User, ps: seq<Packet>, p: Packet)
    ensures Queued(QueuedAll(u, ps), p) == QueuedAll(u, ps + [p])
    ensures QueuedAll(u, ps).mac == u.mac
  {
    assert u.log + (ps + [p]) == (u.log + ps) + [p];
    if ps == [] { assert ps + [p] == [p]; }
  }

  lemma QueuedThenAll(u: User, p: Packet, ps: seq<Packet>)
    ensures QueuedAll(Queued(u, p), ps) == QueuedAll(u, [p] + ps)
  {
    assert u.log + ([p] + ps) == (u.log + [p]) + ps;
  }

  // ---- views ---------------------------------------------------------------------------------

  lemma ViewAppend(ps: seq<Packet>, p: Packet)
    ensures View(ps + [p]) == Noted(View(ps), p)
  {
    assert (ps + [p])[..|ps|] == ps;
  }

  /** Addresses never change, so neither does what the others' addresses are. */
  lemma {:induction false} OthersSame(us: map<Sid, User>, vs: map<Sid, User>, players: seq<Sid>, t: Sid)
    requires us.Keys == vs.Keys && forall x :: x in us ==> vs[x].ip == us[x].ip
    ensures Others(vs, players, t) == Others(us, players, t)
  {
    if players != [] { OthersSame(us, vs, players[1..], t); }
  }

  lemma {:induction false} OthersAppend(us: map<Sid, User>, players: seq<Sid>, x: Sid, t: Sid)
    requires x in us
    ensures Others(us, players + [x], t) == Others(us, players, t) + if x == t then multiset{} else multiset{us[x].ip}
  {
    if players == [] {
      assert [x][1..] == [];
    } else {
      assert (players + [x])[1..] == players[1..] + [x];
      OthersAppend(us, players[1..], x, t);
    }
  }

  lemma OthersStep(us: map<Sid, User>, player: Sid, rest: seq<Sid>, t: Sid)
    ensures Others(us, [player] + rest, t) == OneOther(us, player, t) + Others(us, rest, t)
  {
    assert ([player] + rest)[1..] == rest;
  }

  lemma TakeFromSum(a: multiset<Ip>, b: multiset<Ip>, x: Ip)
    requires x in b
    ensures (a + b) - multiset{x} == a + (b - multiset{x})
    ensures x in a + b
    ensures (multiset{x} + a) - multiset{x} == a
  {
  }

  lemma {:induction false} OthersRemove(us: map<Sid, User>, players: seq<Sid>, x: Sid, t: Sid)
    requires x in us && x in players && x != t
    ensures us[x].ip in Others(us, players, t)
    ensures Others(us, RemoveFirst(players, x), t) == Others(us, players, t) - multiset{us[x].ip}
  {
    hide Others;
    var first, rest := players[0], players[1..];
    assert players == [first] + rest;
    OthersStep(us, first, rest, t);
    if first == x {
      TakeFromSum(Others(us, rest, t), multiset{us[x].ip}, us[x].ip);
    } else {
      OthersRemove(us, rest, x, t);
      OthersStep(us, first, RemoveFirst(rest, x), t);
      TakeFromSum(OneOther(us, first, t), Others(us, rest, t), us[x].ip);
    }
  }

  lemma GreetingsStep(us: map<Sid, User>, init: seq<Sid>, last: Sid)
    requires last in us && Known(us, init)
    ensures Greetings(us, init + [last]) == Greetings(us, init) + [ConnectOf(us[last])]
    ensures Noted(View(Greetings(us, init)), ConnectOf(us[last])) == View(Greetings(us, init)) + multiset{us[last].ip}
  {
    hide View;
  }

  /** With nobody left out, the newcomer's introductions are the members' addresses. */
  lemma {:induction false} GreetingsView(us: map<Sid, User>, members: seq<Sid>, t: Sid)
    requires t !in members && Known(us, members)
    ensures View(Greetings(us, members)) == Others(us, members, t)
  {
    if members == [] {
    } else {
      hide View, Others, ConnectOf, Noted;
      var n := |members| - 1;
      var init, last := members[..n], members[n];
      assert last in members && init + [last] == members;
      GreetingsView(us, init, t);
      GreetingsStep(us, init, last);
      ViewAppend(Greetings(us, init), ConnectOf(us[last]));
      OthersAppend(us, init, last, t);
    }
  }
}
