/** Every change of games and groups keeps lists and back-pointers in agreement. */
module GameGraph {
  import opened Bytes
  import opened SessionNames
  import opened Packets
  import opened GameModel
  import opened GameInvariant

  /** Nobody but `s` moves. */
  ghost predicate OthersStay(us: map<Sid, User>, vs: map<Sid, User>, s: Sid) {
    && us.Keys == vs.Keys && s in us
    && forall t :: t in us && t != s ==> vs[t].game == us[t].game && vs[t].group == us[t].group
  }

  ghost predicate Spot(u: User, game: Option<Bytes>, group: Option<Bytes>) { u.game == game && u.group == group }

  // ---- logging in ----------------------------------------------------------------------------

  function LoggedIn(games: map<Bytes, Game>, g: Bytes, s: Sid): map<Bytes, Game> {
    var game := if g in games then games[g] else Game(map[], []);
    games[g := game.(users := game.users + [s])]
  }

  lemma LoginLists(games: map<Bytes, Game>, us: map<Sid, User>, g: Bytes, s: Sid)
    requires Lists(games) && UsersListed(games, us) && s in us && us[s].game.None?
    ensures Lists(LoggedIn(games, g, s))
  {
    var next := LoggedIn(games, g, s);
    if g in games {
      NoDupAppend(games[g].users, s);
      assert GameOk(games[g]);
    }
    assert GameOk(next[g]);
    forall x | x in next ensures GameOk(next[x]) {
      assert x != g ==> x in games && next[x] == games[x];
    }
  }

  lemma LoginUsers(games: map<Bytes, Game>, us: map<Sid, User>, vs: map<Sid, User>, g: Bytes, s: Sid)
    requires UsersListed(games, us) && PointersLive(games, us) && OthersStay(us, vs, s)
    requires us[s].game.None? && vs[s].game == Some(g)
    ensures UsersListed(LoggedIn(games, g, s), vs)
  {
    var next := LoggedIn(games, g, s);
    forall x | x in next ensures UsersOf(vs, x, next[x].users) {
      if x in games {
        assert UsersOf(us, x, games[x].users);
      } else {
        forall t | t in us ensures us[t].game != Some(x) { assert PointerLive(games, us[t]); }
      }
    }
  }

  lemma LoginPlayers(games: map<Bytes, Game>, us: map<Sid, User>, vs: map<Sid, User>, g: Bytes, s: Sid)
    requires PlayersListed(games, us) && PointersLive(games, us) && OthersStay(us, vs, s)
    requires us[s].game.None? && Spot(vs[s], Some(g), None)
    ensures PlayersListed(LoggedIn(games, g, s), vs)
  {
    var next := LoggedIn(games, g, s);
    forall x, k | x in next && k in next[x].groups ensures PlayersOf(vs, x, k, next[x].groups[k]) {
      assert x in games && k in games[x].groups && next[x].groups == games[x].groups;
      assert PlayersOf(us, x, k, games[x].groups[k]);
    }
  }

  lemma LoginPointers(games: map<Bytes, Game>, us: map<Sid, User>, vs: map<Sid, User>, g: Bytes, s: Sid)
    requires PointersLive(games, us) && OthersStay(us, vs, s) && Spot(vs[s], Some(g), None)
    ensures PointersLive(LoggedIn(games, g, s), vs)
  {
    forall t | t in vs ensures PointerLive(LoggedIn(games, g, s), vs[t]) {
      assert t != s ==> PointerLive(games, us[t]);
    }
  }

  lemma LoginGraph(games: map<Bytes, Game>, us: map<Sid, User>, vs: map<Sid, User>, g: Bytes, s: Sid)
    requires Graph(games, us) && OthersStay(us, vs, s) && us[s].game.None? && Spot(vs[s], Some(g), None)
    ensures Graph(LoggedIn(games, g, s), vs)
  {
    hide Lists, UsersListed, PlayersListed, PointersLive, LoggedIn;
    LoginLists(games, us, g, s);
    LoginUsers(games, us, vs, g, s);
    LoginPlayers(games, us, vs, g, s);
    LoginPointers(games, us, vs, g, s);
  }

  // ---- a group's list changes ----------------------------------------------------------------

  function Regrouped(games: map<Bytes, Game>, g: Bytes, k: Bytes, players: seq<Sid>): map<Bytes, Game>
    requires g in games
  {
    games[g := PutGroup(games[g], k, players)]
  }

  /** `players` is exactly who is now in group `k` of game `g`. */
  ghost predicate Fits(us: map<Sid, User>, g: Bytes, k: Bytes, players: seq<Sid>) {
    NoDup(players) && PlayersOf(us, g, k, players)
  }

  lemma RegroupLists(games: map<Bytes, Game>, g: Bytes, k: Bytes, players: seq<Sid>)
    requires Lists(games) && g in games && NoDup(players) && ValidKey(k)
    ensures Lists(Regrouped(games, g, k, players))
  {
    var next := Regrouped(games, g, k, players);
    assert GameOk(games[g]);
    assert GameOk(next[g]);
    forall x | x in next ensures GameOk(next[x]) {
      assert x != g ==> next[x] == games[x];
    }
  }

  lemma RegroupUsers(games: map<Bytes, Game>, us: map<Sid, User>, vs: map<Sid, User>, s: Sid,
                     g: Bytes, k: Bytes, players: seq<Sid>)
    requires UsersListed(games, us) && g in games && OthersStay(us, vs, s) && vs[s].game == us[s].game
    ensures UsersListed(Regrouped(games, g, k, players), vs)
  {
    var next := Regrouped(games, g, k, players);
    forall x | x in next ensures UsersOf(vs, x, next[x].users) {
      assert next[x].users == games[x].users;
      assert UsersOf(us, x, games[x].users);
    }
  }

  lemma RegroupPlayers(games: map<Bytes, Game>, us: map<Sid, User>, vs: map<Sid, User>, s: Sid,
                       g: Bytes, k: Bytes, players: seq<Sid>)
    requires PlayersListed(games, us) && g in games && OthersStay(us, vs, s) && Fits(vs, g, k, players)
    requires us[s].game == Some(g) && vs[s].game == Some(g)
    requires us[s].group == None || us[s].group == Some(k)
    requires vs[s].group == None || vs[s].group == Some(k)
    ensures PlayersListed(Regrouped(games, g, k, players), vs)
  {
    var next := Regrouped(games, g, k, players);
    forall x, l | x in next && l in next[x].groups ensures PlayersOf(vs, x, l, next[x].groups[l]) {
      if x != g || l != k {
        assert x in games && l in games[x].groups && next[x].groups[l] == games[x].groups[l];
        assert PlayersOf(us, x, l, games[x].groups[l]);
      }
    }
  }

  lemma RegroupPointers(games: map<Bytes, Game>, us: map<Sid, User>, vs: map<Sid, User>, s: Sid,
                        g: Bytes, k: Bytes, players: seq<Sid>)
    requires PointersLive(games, us) && g in games && OthersStay(us, vs, s) && Fits(vs, g, k, players)
    requires us[s].game == Some(g) && vs[s].game == Some(g)
    requires vs[s].group == None || vs[s].group == Some(k)
    ensures PointersLive(Regrouped(games, g, k, players), vs)
  {
    var next := Regrouped(games, g, k, players);
    forall t | t in vs ensures PointerLive(next, vs[t]) {
      assert PointerLive(games, us[t]);
      if InGroup(vs[t], g, k) { assert t in players; }
    }
  }

  lemma RegroupGraph(games: map<Bytes, Game>, us: map<Sid, User>, vs: map<Sid, User>, s: Sid,
                     g: Bytes, k: Bytes, players: seq<Sid>)
    requires Graph(games, us) && g in games && OthersStay(us, vs, s) && Fits(vs, g, k, players) && ValidKey(k)
    requires us[s].game == Some(g) && vs[s].game == Some(g)
    requires us[s].group == None || us[s].group == Some(k)
    requires vs[s].group == None || vs[s].group == Some(k)
    ensures Graph(Regrouped(games, g, k, players), vs)
  {
    assert NoDup(players);
    hide Lists, UsersListed, PlayersListed, PointersLive, Regrouped, Fits, OthersStay;
    RegroupLists(games, g, k, players);
    RegroupUsers(games, us, vs, s, g, k, players);
    RegroupPlayers(games, us, vs, s, g, k, players);
    RegroupPointers(games, us, vs, s, g, k, players);
  }

  /** The list that a group has, if any, is of those who are in it. */
  lemma MembersFit(games: map<Bytes, Game>, us: map<Sid, User>, g: Bytes, k: Bytes)
    requires Graph(games, us) && g in games
    ensures Fits(us, g, k, MembersOrNone(games[g], k))
  {
    assert GameOk(games[g]);
    if k in games[g].groups {
      assert PlayersOf(us, g, k, games[g].groups[k]);
    } else {
      forall t | t in us ensures !InGroup(us[t], g, k) { assert PointerLive(games, us[t]); }
    }
  }

  lemma JoinFits(us: map<Sid, User>, vs: map<Sid, User>, s: Sid, g: Bytes, k: Bytes, players: seq<Sid>)
    requires Fits(us, g, k, players) && OthersStay(us, vs, s)
    requires us[s].group != Some(k) && Spot(vs[s], Some(g), Some(k))
    ensures s !in players && Fits(vs, g, k, players + [s])
  {
    NoDupAppend(players, s);
  }

  lemma LeaveFits(us: map<Sid, User>, vs: map<Sid, User>, s: Sid, g: Bytes, k: Bytes, players: seq<Sid>)
    requires Fits(us, g, k, players) && OthersStay(us, vs, s) && vs[s].group.None?
    ensures Fits(vs, g, k, RemoveFirst(players, s))
  {
    RemoveFirstSet(players, s);
  }

  // ---- leaving a game ------------------------------------------------------------------------

  function LoggedOut(games: map<Bytes, Game>, g: Bytes, s: Sid): map<Bytes, Game>
    requires g in games
  {
    var rest := RemoveFirst(games[g].users, s);
    if rest == [] then games - {g} else games[g := games[g].(users := rest)]
  }

  /** While a game has a group, somebody who stays is playing it: so with the last user go no groups. */
  lemma GroupsKeepGameAlive(games: map<Bytes, Game>, us: map<Sid, User>, g: Bytes, k: Bytes, s: Sid)
    requires Graph(games, us) && g in games && s in us && us[s].group.None?
    requires k in games[g].groups
    ensures RemoveFirst(games[g].users, s) != []
  {
    assert GameOk(games[g]);
    RemoveFirstSet(games[g].users, s);
    var t := games[g].groups[k][0];
    assert PlayersOf(us, g, k, games[g].groups[k]) && UsersOf(us, g, games[g].users);
    assert t in games[g].groups[k];
    assert t in games[g].users;
  }

  lemma LogoutLists(games: map<Bytes, Game>, g: Bytes, s: Sid)
    requires Lists(games) && g in games
    ensures Lists(LoggedOut(games, g, s))
  {
    var next := LoggedOut(games, g, s);
    assert GameOk(games[g]);
    RemoveFirstSet(games[g].users, s);
    forall x | x in next ensures GameOk(next[x]) {
      assert x != g ==> next[x] == games[x];
      assert x == g ==> next[x].groups == games[x].groups;
    }
  }

  lemma LogoutUsers(games: map<Bytes, Game>, us: map<Sid, User>, vs: map<Sid, User>, g: Bytes, s: Sid)
    requires Lists(games) && UsersListed(games, us) && g in games && OthersStay(us, vs, s)
    requires us[s].game == Some(g) && vs[s].game.None?
    ensures UsersListed(LoggedOut(games, g, s), vs)
  {
    var next := LoggedOut(games, g, s);
    assert GameOk(games[g]);
    RemoveFirstSet(games[g].users, s);
    forall x | x in next ensures UsersOf(vs, x, next[x].users) {
      assert x != g ==> next[x] == games[x];
      assert UsersOf(us, x, games[x].users);
    }
  }

  lemma LogoutPlayers(games: map<Bytes, Game>, us: map<Sid, User>, vs: map<Sid, User>, g: Bytes, s: Sid)
    requires PlayersListed(games, us) && g in games && OthersStay(us, vs, s)
    requires Spot(us[s], Some(g), None) && Spot(vs[s], None, None)
    ensures PlayersListed(LoggedOut(games, g, s), vs)
  {
    var next := LoggedOut(games, g, s);
    forall x, k, t | x in next && k in next[x].groups
      ensures t in next[x].groups[k] <==> t in vs && Spot(vs[t], Some(x), Some(k))
    {
      assert x in games && next[x].groups == games[x].groups;
    }
  }

  lemma LogoutPointers(games: map<Bytes, Game>, us: map<Sid, User>, vs: map<Sid, User>, g: Bytes, s: Sid)
    requires Lists(games) && UsersListed(games, us) && PointersLive(games, us) && g in games && OthersStay(us, vs, s)
    requires us[s].game == Some(g) && Spot(vs[s], None, None)
    ensures PointersLive(LoggedOut(games, g, s), vs)
  {
    var next := LoggedOut(games, g, s);
    assert GameOk(games[g]);
    RemoveFirstSet(games[g].users, s);
    forall t | t in vs ensures PointerLive(next, vs[t]) {
      assert PointerLive(games, us[t]);
      if t != s && us[t].game == Some(g) {
        assert UsersOf(us, g, games[g].users);
        assert t in RemoveFirst(games[g].users, s);
      }
    }
  }

  lemma LogoutGraph(games: map<Bytes, Game>, us: map<Sid, User>, vs: map<Sid, User>, g: Bytes, s: Sid)
    requires Graph(games, us) && g in games && OthersStay(us, vs, s)
    requires Spot(us[s], Some(g), None) && Spot(vs[s], None, None)
    ensures Graph(LoggedOut(games, g, s), vs)
  {
    hide Lists, UsersListed, PlayersListed, PointersLive, LoggedOut, OthersStay;
    LogoutLists(games, g, s);
    LogoutUsers(games, us, vs, g, s);
    LogoutPlayers(games, us, vs, g, s);
    LogoutPointers(games, us, vs, g, s);
  }

  // ---- nobody moves --------------------------------------------------------------------------

  ghost predicate AllStay(us: map<Sid, User>, vs: map<Sid, User>) {
    us.Keys == vs.Keys && forall t :: t in us ==> Spot(vs[t], us[t].game, us[t].group)
  }

  lemma StillGraph(games: map<Bytes, Game>, us: map<Sid, User>, vs: map<Sid, User>)
    requires Graph(games, us) && AllStay(us, vs)
    ensures Graph(games, vs)
  {
    forall g | g in games ensures UsersOf(vs, g, games[g].users) {
      assert UsersOf(us, g, games[g].users);
    }
    forall g, k | g in games && k in games[g].groups ensures PlayersOf(vs, g, k, games[g].groups[k]) {
      assert PlayersOf(us, g, k, games[g].groups[k]);
    }
    forall t | t in vs ensures PointerLive(games, vs[t]) {
      assert PointerLive(games, us[t]);
    }
  }

  /** Somebody new, who is nowhere yet. */
  lemma NewcomerGraph(games: map<Bytes, Game>, us: map<Sid, User>, s: Sid, u: User)
    requires Graph(games, us) && s !in us && Spot(u, None, None)
    ensures Graph(games, us[s := u])
  {
    var vs := us[s := u];
    forall g | g in games ensures UsersOf(vs, g, games[g].users) {
      assert UsersOf(us, g, games[g].users);
    }
    forall g, k | g in games && k in games[g].groups ensures PlayersOf(vs, g, k, games[g].groups[k]) {
      assert PlayersOf(us, g, k, games[g].groups[k]);
    }
    forall t | t in vs ensures PointerLive(games, vs[t]) {
      assert t != s ==> PointerLive(games, us[t]);
    }
  }
}
