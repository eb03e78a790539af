/** Every change of groups keeps each member's view, and the order of seniority, in agreement. */
module GameViews {
  import opened Bytes
  import opened SessionNames
  import opened Packets
  import opened GameModel
  import opened GameInvariant
  import opened GameGraph

  // ---- packets that say nothing about membership ---------------------------------------------

  ghost predicate Neutral(ps: seq<Packet>) {
    forall i :: 0 <= i < |ps| ==> !ps[i].ConnectPkt? && !ps[i].DisconnectPkt?
  }

  lemma {:induction false} ViewNeutral(ps: seq<Packet>, qs: seq<Packet>)
    requires Neutral(qs)
    ensures View(ps + qs) == View(ps)
  {
    if qs == [] {
      assert ps + qs == ps;
    } else {
      var init := qs[..|qs| - 1];
      ViewNeutral(ps, init);
      assert ps + qs == (ps + init) + [qs[|qs| - 1]];
      ViewAppend(ps + init, qs[|qs| - 1]);
    }
  }

  /** Nothing that matters to membership happens to this user. */
  ghost predicate Quiet(u: User, v: User) {
    && v.ip == u.ip && Spot(v, u.game, u.group) && v.joinedAt == u.joinedAt && v.logAtJoin == u.logAtJoin
    && (u.closed ==> v.closed)
    && u.log <= v.log && Neutral(v.log[|u.log|..])
  }

  ghost predicate AllQuiet(us: map<Sid, User>, vs: map<Sid, User>) {
    us.Keys == vs.Keys && forall t :: t in us ==> Quiet(us[t], vs[t])
  }

  lemma QuietSees(u: User, v: User, others: multiset<Ip>)
    requires Quiet(u, v) && Sees(u, others)
    ensures Sees(v, others)
  {
    assert v.log[u.logAtJoin..] == u.log[u.logAtJoin..] + v.log[|u.log|..];
    ViewNeutral(u.log[u.logAtJoin..], v.log[|u.log|..]);
  }

  ghost predicate SameIps(us: map<Sid, User>, vs: map<Sid, User>) {
    us.Keys == vs.Keys && forall t :: t in us ==> vs[t].ip == us[t].ip
  }

  ghost predicate SeesAs(games: map<Bytes, Game>, us: map<Sid, User>, t: Sid)
    requires t in us
  {
    Sees(us[t], Others(us, Members(games, us[t]), t))
  }

  /** Somebody whose group is what it was and to whom nothing happened. */
  lemma BystanderSees(games: map<Bytes, Game>, us: map<Sid, User>,
                      games': map<Bytes, Game>, vs: map<Sid, User>, t: Sid)
    requires t in us && t in vs && SameIps(us, vs) && Quiet(us[t], vs[t]) && SeesAs(games, us, t)
    requires vs[t].closed || vs[t].group.None? || Members(games', vs[t]) == Members(games, us[t])
    ensures SeesAs(games', vs, t)
  {
    hide Others, View, Members, SeenSince;
    var others := Others(us, Members(games, us[t]), t);
    QuietSees(us[t], vs[t], others);
    OthersSame(us, vs, Members(games, us[t]), t);
  }

  lemma QuietViews(games: map<Bytes, Game>, us: map<Sid, User>, vs: map<Sid, User>)
    requires Views(games, us) && AllQuiet(us, vs)
    ensures Views(games, vs)
  {
    hide Others, Sees;
    forall t | t in vs ensures Sees(vs[t], Others(vs, Members(games, vs[t]), t)) {
      assert SeesAs(games, us, t);
      BystanderSees(games, us, games, vs, t);
      assert SeesAs(games, vs, t);
    }
  }

  lemma QuietOrdered(games: map<Bytes, Game>, us: map<Sid, User>, vs: map<Sid, User>)
    requires Ordered(games, us) && AllQuiet(us, vs)
    ensures Ordered(games, vs)
  {
    forall g, k | g in games && k in games[g].groups ensures Seniority(vs, games[g].groups[k]) {
      assert Seniority(us, games[g].groups[k]);
    }
  }

  lemma QuietSound(h: Hub, r: Hub)
    requires Sound(h) && r.games == h.games && AllQuiet(h.users, r.users) && h.clock <= r.clock
    ensures Sound(r)
  {
    assert AllStay(h.users, r.users);
    assert JoinedBy(r.users, r.clock);
    hide Graph, Views, Ordered, AllQuiet, AllStay, JoinedBy;
    StillGraph(h.games, h.users, r.users);
    QuietViews(h.games, h.users, r.users);
    QuietOrdered(h.games, h.users, r.users);
  }

  // ---- one user comes or goes, elsewhere nothing changes -------------------------------------

  /** Groups other than (`g`, `k`) have the same lists. */
  ghost predicate SameElsewhere(games: map<Bytes, Game>, games': map<Bytes, Game>, g: Bytes, k: Bytes) {
    forall x: Bytes, l: Bytes :: (x != g || l != k) ==> ListAt(games', x, l) == ListAt(games, x, l)
  }

  function ListAt(games: map<Bytes, Game>, g: Bytes, k: Bytes): seq<Sid> {
    if g in games && k in games[g].groups then games[g].groups[k] else []
  }

  lemma MembersAre(games: map<Bytes, Game>, u: User)
    ensures Members(games, u)
         == if u.game.Some? && u.group.Some? then ListAt(games, u.game.value, u.group.value) else []
  {
  }

  lemma RegroupElsewhere(games: map<Bytes, Game>, g: Bytes, k: Bytes, players: seq<Sid>)
    requires g in games
    ensures SameElsewhere(games, Regrouped(games, g, k, players), g, k)
    ensures ListAt(Regrouped(games, g, k, players), g, k) == players
  {
  }

  // ---- joining -------------------------------------------------------------------------------

  /** The newcomer is told the address of whoever stands first. */
  function BssidOf(us: map<Sid, User>, s: Sid, members: seq<Sid>): Packet
    requires s in us && Known(us, members)
  {
    BssidPkt(us[(members + [s])[0]].mac)
  }

  /** What `handle_connect` does to the users: introductions both ways, then the newcomer's BSSID. */
  ghost predicate Joined(us: map<Sid, User>, vs: map<Sid, User>, s: Sid, members: seq<Sid>, k: Bytes, now: nat)
    requires s in us && Known(us, members)
  {
    && us.Keys == vs.Keys
    && vs[s] == QueuedAll(us[s].(group := Some(k), logAtJoin := |us[s].log|, joinedAt := now),
                          Greetings(us, members) + [BssidOf(us, s, members)])
    && (forall t :: t in us && t != s ==>
         vs[t] == if t in members then Queued(us[t], ConnectOf(us[s])) else us[t])
  }

  lemma JoinerSees(games': map<Bytes, Game>, us: map<Sid, User>, vs: map<Sid, User>, s: Sid,
                   members: seq<Sid>, k: Bytes, now: nat)
    requires s in us && s !in members && Known(us, members) && Joined(us, vs, s, members, k, now) && SameIps(us, vs)
    requires Members(games', vs[s]) == members + [s]
    ensures SeesAs(games', vs, s)
  {
    hide View, Others, Greetings, ConnectOf;
    var greetings := Greetings(us, members);
    var p := BssidOf(us, s, members);
    if !vs[s].closed {
      assert vs[s].log[vs[s].logAtJoin..] == greetings + [p];
      ViewAppend(greetings, p);
      GreetingsView(us, members, s);
      OthersAppend(us, members, s, s);
      OthersSame(us, vs, members + [s], s);
    }
  }

  /** A member who gets one more packet sees what that packet says. */
  lemma QueuedSees(u: User, p: Packet, others: multiset<Ip>)
    requires Sees(u, others)
    ensures Sees(Queued(u, p), Noted(others, p))
  {
    if !u.closed {
      assert (u.log + [p])[u.logAtJoin..] == u.log[u.logAtJoin..] + [p];
      ViewAppend(u.log[u.logAtJoin..], p);
    }
  }

  lemma MemberSeesJoiner(games: map<Bytes, Game>, us: map<Sid, User>,
                         games': map<Bytes, Game>, vs: map<Sid, User>, s: Sid, t: Sid, members: seq<Sid>)
    requires s in us && t in us && t in vs && t != s && SameIps(us, vs) && SeesAs(games, us, t)
    requires vs[t] == Queued(us[t], ConnectOf(us[s]))
    requires Members(games, us[t]) == members && Members(games', vs[t]) == members + [s]
    ensures SeesAs(games', vs, t)
  {
    hide Others, View, Members, Sees, Queued;
    QueuedSees(us[t], ConnectOf(us[s]), Others(us, members, t));
    OthersAppend(us, members, s, t);
    OthersSame(us, vs, members + [s], t);
  }

  lemma JoinViews(games: map<Bytes, Game>, us: map<Sid, User>, games': map<Bytes, Game>, vs: map<Sid, User>,
                  s: Sid, g: Bytes, k: Bytes, members: seq<Sid>, now: nat)
    requires Views(games, us) && s in us && s !in members && Known(us, members)
    requires Joined(us, vs, s, members, k, now)
    requires us[s].game == Some(g) && ListAt(games, g, k) == members && PlayersOf(us, g, k, members)
    requires SameElsewhere(games, games', g, k) && ListAt(games', g, k) == members + [s]
    ensures Views(games', vs)
  {
    assert SameIps(us, vs);
    forall t | t in vs ensures SeesAs(games', vs, t) {
      hide Others, Sees, Joined, Greetings, Neutral;
      assert SeesAs(games, us, t);
      MembersAre(games, us[t]);
      MembersAre(games', vs[t]);
      if t == s {
        JoinedSpot(us, vs, s, members, k, now);
        JoinerSees(games', us, vs, s, members, k, now);
      } else {
        JoinedOther(us, vs, s, members, k, now, t);
        if t in members {
          MemberSeesJoiner(games, us, games', vs, s, t, members);
        } else {
          QuietSelf(us[t]);
          BystanderSees(games, us, games', vs, t);
        }
      }
    }
  }

  lemma QuietSelf(u: User)
    ensures Quiet(u, u)
  {
  }

  lemma JoinedSpot(us: map<Sid, User>, vs: map<Sid, User>, s: Sid, members: seq<Sid>, k: Bytes, now: nat)
    requires s in us && Known(us, members) && Joined(us, vs, s, members, k, now)
    ensures s in vs && Spot(vs[s], us[s].game, Some(k)) && vs[s].joinedAt == now && vs[s].ip == us[s].ip
  {
  }

  lemma JoinedOther(us: map<Sid, User>, vs: map<Sid, User>, s: Sid, members: seq<Sid>, k: Bytes, now: nat, t: Sid)
    requires s in us && Known(us, members) && Joined(us, vs, s, members, k, now)
    requires t in us && t != s
    ensures t in vs && vs[t] == if t in members then Queued(us[t], ConnectOf(us[s])) else us[t]
    ensures Spot(vs[t], us[t].game, us[t].group) && vs[t].joinedAt == us[t].joinedAt
  {
  }

  lemma JoinOrdered(games: map<Bytes, Game>, us: map<Sid, User>, games': map<Bytes, Game>, vs: map<Sid, User>,
                    s: Sid, g: Bytes, k: Bytes, members: seq<Sid>, now: nat)
    requires Ordered(games, us) && s in us && s !in members && Known(us, members)
    requires Joined(us, vs, s, members, k, now) && PlayersListed(games, us)
    requires us[s].group.None? && forall t :: t in us ==> us[t].joinedAt < now
    requires ListAt(games, g, k) == members
    requires SameElsewhere(games, games', g, k) && ListAt(games', g, k) == members + [s]
    ensures Ordered(games', vs)
  {
    forall x, l | x in games' && l in games'[x].groups ensures Seniority(vs, games'[x].groups[l]) {
      assert games'[x].groups[l] == ListAt(games', x, l);
      if x == g && l == k {
        JoinSeniority(games, us, vs, s, g, k, members, now);
      } else if ListAt(games, x, l) != [] {
        assert PlayersOf(us, x, l, games[x].groups[l]);
        StaySeniority(us, vs, s, games[x].groups[l], members, k, now);
      }
    }
  }

  lemma StaySeniority(us: map<Sid, User>, vs: map<Sid, User>, s: Sid, players: seq<Sid>,
                      members: seq<Sid>, k: Bytes, now: nat)
    requires s in us && Known(us, members) && Joined(us, vs, s, members, k, now)
    requires s !in players && Seniority(us, players)
    ensures Seniority(vs, players)
  {
    hide Joined;
    JoinedKeys(us, vs, s, members, k, now);
    forall i, j | 0 <= i < j < |players| && players[i] in vs && players[j] in vs
      ensures vs[players[i]].joinedAt < vs[players[j]].joinedAt
    {
      JoinedOther(us, vs, s, members, k, now, players[i]);
      JoinedOther(us, vs, s, members, k, now, players[j]);
    }
  }

  lemma JoinedKeys(us: map<Sid, User>, vs: map<Sid, User>, s: Sid, members: seq<Sid>, k: Bytes, now: nat)
    requires s in us && Known(us, members) && Joined(us, vs, s, members, k, now)
    ensures us.Keys == vs.Keys
  {
  }

  lemma JoinSeniority(games: map<Bytes, Game>, us: map<Sid, User>, vs: map<Sid, User>,
                      s: Sid, g: Bytes, k: Bytes, members: seq<Sid>, now: nat)
    requires Ordered(games, us) && s in us && s !in members && Known(us, members)
    requires Joined(us, vs, s, members, k, now) && ListAt(games, g, k) == members
    requires forall t :: t in us ==> us[t].joinedAt < now
    ensures Seniority(vs, members + [s])
  {
    assert Seniority(us, members);
    StaySeniority(us, vs, s, members, members, k, now);
    hide Joined;
    var all := members + [s];
    JoinedSpot(us, vs, s, members, k, now);
    forall i, j | 0 <= i < j < |all| && all[i] in vs && all[j] in vs
      ensures vs[all[i]].joinedAt < vs[all[j]].joinedAt
    {
      if j < |members| {
        assert all[i] == members[i] && all[j] == members[j];
      } else {
        assert all[i] == members[i] && all[j] == s;
        JoinedOther(us, vs, s, members, k, now, members[i]);
      }
    }
  }

  // ---- leaving -------------------------------------------------------------------------------

  /** What `leave_group` does to the users: those who remain are told the address that left. */
  ghost predicate Left(us: map<Sid, User>, vs: map<Sid, User>, s: Sid, rest: seq<Sid>)
    requires s in us
  {
    && us.Keys == vs.Keys
    && vs[s] == us[s].(group := None)
    && (forall t :: t in us && t != s ==>
         vs[t] == if t in rest then Queued(us[t], DisconnectPkt(us[s].ip)) else us[t])
  }

  lemma LeftOther(us: map<Sid, User>, vs: map<Sid, User>, s: Sid, rest: seq<Sid>, t: Sid)
    requires s in us && Left(us, vs, s, rest) && t in us && t != s
    ensures t in vs && vs[t] == if t in rest then Queued(us[t], DisconnectPkt(us[s].ip)) else us[t]
    ensures Spot(vs[t], us[t].game, us[t].group)
  {
  }

  lemma MemberSeesLeaver(games: map<Bytes, Game>, us: map<Sid, User>,
                         games': map<Bytes, Game>, vs: map<Sid, User>, s: Sid, t: Sid, members: seq<Sid>)
    requires s in us && t in us && t in vs && t != s && SameIps(us, vs) && SeesAs(games, us, t)
    requires vs[t] == Queued(us[t], DisconnectPkt(us[s].ip)) && s in members
    requires Members(games, us[t]) == members && Members(games', vs[t]) == RemoveFirst(members, s)
    ensures SeesAs(games', vs, t)
  {
    hide Others, View, Members, Sees, Queued;
    QueuedSees(us[t], DisconnectPkt(us[s].ip), Others(us, members, t));
    OthersRemove(us, members, s, t);
    OthersSame(us, vs, RemoveFirst(members, s), t);
  }

  lemma LeaverSees(games': map<Bytes, Game>, us: map<Sid, User>, vs: map<Sid, User>, s: Sid, others: multiset<Ip>)
    requires s in us && s in vs && vs[s] == us[s].(group := None) && Sees(us[s], others)
    ensures SeesAs(games', vs, s)
  {
  }

  lemma LeaveViews(games: map<Bytes, Game>, us: map<Sid, User>, games': map<Bytes, Game>, vs: map<Sid, User>,
                   s: Sid, g: Bytes, k: Bytes, members: seq<Sid>)
    requires Views(games, us) && s in us && InGroup(us[s], g, k) && NoDup(members)
    requires Left(us, vs, s, RemoveFirst(members, s))
    requires ListAt(games, g, k) == members && PlayersOf(us, g, k, members)
    requires SameElsewhere(games, games', g, k) && ListAt(games', g, k) == RemoveFirst(members, s)
    ensures Views(games', vs)
  {
    assert SameIps(us, vs);
    RemoveFirstSet(members, s);
    forall t | t in vs ensures SeesAs(games', vs, t) {
      hide Others, Sees, Neutral, NoDup, RemoveFirst;
      assert SeesAs(games, us, t);
      MembersAre(games, us[t]);
      MembersAre(games', vs[t]);
      if t == s {
        LeaverSees(games', us, vs, s, Others(us, Members(games, us[s]), s));
      } else {
        LeftOther(us, vs, s, RemoveFirst(members, s), t);
        if t in members {
          MemberSeesLeaver(games, us, games', vs, s, t, members);
        } else {
          QuietSelf(us[t]);
          BystanderSees(games, us, games', vs, t);
        }
      }
    }
  }

  lemma LeaveOrdered(games: map<Bytes, Game>, us: map<Sid, User>, games': map<Bytes, Game>, vs: map<Sid, User>,
                     s: Sid, g: Bytes, k: Bytes, members: seq<Sid>)
    requires Ordered(games, us) && s in us && Left(us, vs, s, RemoveFirst(members, s))
    requires ListAt(games, g, k) == members
    requires SameElsewhere(games, games', g, k) && ListAt(games', g, k) == RemoveFirst(members, s)
    ensures Ordered(games', vs)
  {
    forall x, l | x in games' && l in games'[x].groups ensures Seniority(vs, games'[x].groups[l]) {
      assert games'[x].groups[l] == ListAt(games', x, l);
      var before := ListAt(games, x, l);
      assert Seniority(us, before);
      assert forall t :: t in us ==> vs[t].joinedAt == us[t].joinedAt;
      assert Seniority(vs, before);
      if x == g && l == k { RemoveFirstSeniority(vs, members, s); }
    }
  }
}
