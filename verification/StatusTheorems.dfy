/** The status page agrees with the registry: what is shown is an exact partition of who is playing. */
module StatusTheorems {
  import opened Bytes
  import opened SessionNames
  import opened Packets
  import opened GameModel
  import opened GameInvariant
  import opened GameRuns
  import opened GameTheorems
  import opened Status

  // ---- the snapshot ------------------------------------------------------------------------------

  /** `status_user` */
  function ShownAs(u: User, g: Bytes): StatusUser { StatusUser(UpToNul(u.name), u.mac, g, u.group) }

  function ShownAll(us: map<Sid, User>, ids: seq<Sid>, g: Bytes): seq<StatusUser> {
    if ids == [] then []
    else
      var n := |ids| - 1;
      ShownAll(us, ids[..n], g) + if ids[n] in us then [ShownAs(us[ids[n]], g)] else []
  }

  function PlayingIn(h: Hub, g: Bytes): seq<Sid> { if g in h.games then h.games[g].users else [] }

  /** `snapshot_for_status`, the table of games being walked in the order `gs`. */
  function Snapshot(h: Hub, gs: seq<Bytes>): seq<StatusUser> {
    if gs == [] then []
    else
      var n := |gs| - 1;
      Snapshot(h, gs[..n]) + ShownAll(h.users, PlayingIn(h, gs[n]), gs[n])
  }

  // ---- filtering a snapshot ----------------------------------------------------------------------

  lemma {:induction false} OfGameSplit(a: seq<StatusUser>, b: seq<StatusUser>, code: Bytes)
    ensures OfGame(a + b, code) == OfGame(a, code) + OfGame(b, code)
  {
    if b == [] {
      assert a + b == a;
    } else {
      var n := |b| - 1;
      OfGameSplit(a, b[..n], code);
      assert a + b == (a + b[..n]) + [b[n]] && b == b[..n] + [b[n]];
      OfGameAppend(a + b[..n], b[n], code);
      OfGameAppend(b[..n], b[n], code);
    }
  }

  lemma {:induction false} OfGameShown(us: map<Sid, User>, ids: seq<Sid>, g: Bytes, code: Bytes)
    ensures OfGame(ShownAll(us, ids, g), code) == if g == code then ShownAll(us, ids, g) else []
  {
    if ids != [] {
      var n := |ids| - 1;
      OfGameShown(us, ids[..n], g, code);
      var init := ShownAll(us, ids[..n], g);
      if ids[n] in us { OfGameAppend(init, ShownAs(us[ids[n]], g), code); } else { assert init + [] == init; }
    }
  }

  ghost predicate Distinct(gs: seq<Bytes>) { forall i, j :: 0 <= i < j < |gs| ==> gs[i] != gs[j] }

  /** The users shown for a game are those on the registry's list of it, in that order. */
  lemma SnapshotLast(h: Hub, gs: seq<Bytes>)
    requires gs != []
    ensures var n := |gs| - 1; Snapshot(h, gs) == Snapshot(h, gs[..n]) + ShownAll(h.users, PlayingIn(h, gs[n]), gs[n])
  {
    hide ShownAll, PlayingIn;
  }

  lemma {:induction false} OfGameSnapshot(h: Hub, gs: seq<Bytes>, code: Bytes)
    requires Distinct(gs)
    ensures OfGame(Snapshot(h, gs), code) == if code in gs then ShownAll(h.users, PlayingIn(h, code), code) else []
  {
    hide Distinct, ShownAll, PlayingIn;
    if gs != [] {
      SnapshotLast(h, gs);
      hide OfGame, Snapshot;
      var n := |gs| - 1;
      DistinctInit(gs, code);
      OfGameSnapshot(h, gs[..n], code);
      OfGameSplit(Snapshot(h, gs[..n]), ShownAll(h.users, PlayingIn(h, gs[n]), gs[n]), code);
      OfGameShown(h.users, PlayingIn(h, gs[n]), gs[n], code);
      var shown := ShownAll(h.users, PlayingIn(h, code), code);
      assert shown + [] == shown && [] + shown == shown;
    }
  }

  lemma DistinctInit(gs: seq<Bytes>, code: Bytes)
    requires Distinct(gs) && gs != []
    ensures Distinct(gs[..|gs| - 1]) && gs[|gs| - 1] !in gs[..|gs| - 1]
    ensures code in gs <==> code in gs[..|gs| - 1] || code == gs[|gs| - 1]
  {
    assert gs == gs[..|gs| - 1] + [gs[|gs| - 1]];
  }

  /** The name that a user's group is shown under. */
  function TagOf(u: User): Bytes { u.group.GetOr(GROUPLESS) }

  /** Those of `ids` that are shown under `tag`. */
  function Tagged(us: map<Sid, User>, ids: seq<Sid>, tag: Bytes): seq<Sid> {
    if ids == [] then []
    else
      var n := |ids| - 1;
      Tagged(us, ids[..n], tag) + if ids[n] in us && TagOf(us[ids[n]]) == tag then [ids[n]] else []
  }

  lemma {:induction false} OfGroupShown(us: map<Sid, User>, ids: seq<Sid>, g: Bytes, tag: Bytes)
    ensures OfGroup(ShownAll(us, ids, g), tag) == ShownAll(us, Tagged(us, ids, tag), g)
  {
    if ids != [] {
      var n := |ids| - 1;
      OfGroupShown(us, ids[..n], g, tag);
      var init, less := ShownAll(us, ids[..n], g), Tagged(us, ids[..n], tag);
      assert init + [] == init && less + [] == less && (less + [ids[n]])[..|less|] == less;
      if ids[n] in us { OfGroupAppend(init, ShownAs(us[ids[n]], g), tag); }
    }
  }

  lemma {:induction false} TaggedCount(us: map<Sid, User>, ids: seq<Sid>, tag: Bytes, t: Sid)
    ensures multiset(Tagged(us, ids, tag))[t] == if t in us && TagOf(us[t]) == tag then multiset(ids)[t] else 0
  {
    if ids != [] {
      var n := |ids| - 1;
      assert ids == ids[..n] + [ids[n]];
      TaggedCount(us, ids[..n], tag, t);
    }
  }

  lemma {:induction false} ShownLength(us: map<Sid, User>, ids: seq<Sid>, g: Bytes)
    requires Known(us, ids)
    ensures |ShownAll(us, ids, g)| == |ids|
  {
    if ids != [] {
      assert ids[|ids| - 1] in us;
      assert Known(us, ids[..|ids| - 1]);
      ShownLength(us, ids[..|ids| - 1], g);
    }
  }

  // ---- theorems ----------------------------------------------------------------------------------

  /** A group's name has at most 8 bytes, so the bucket for users without a group is nobody else's. */
  lemma GrouplessIsNoGroup(h: Hub, g: Bytes, k: Bytes)
    requires Reachable(h) && g in h.games && k in h.games[g].groups
    ensures |k| <= 8 && k != GROUPLESS
  {
    ReachableKeeps(h);
    assert GameOk(h.games[g]);
  }

  /** Under a group's name stand exactly its players, each once. */
  lemma GroupShowsPlayers(h: Hub, g: Bytes, k: Bytes)
    requires Reachable(h) && g in h.games && k in h.games[g].groups
    ensures multiset(Tagged(h.users, h.games[g].users, k)) == multiset(h.games[g].groups[k])
  {
    GrouplessIsNoGroup(h, g, k);
    forall t ensures multiset(Tagged(h.users, h.games[g].users, k))[t] == multiset(h.games[g].groups[k])[t] {
      TaggedCount(h.users, h.games[g].users, k, t);
      UsersExactlyOnce(h, g, t);
      PlayersExactlyOnce(h, g, k, t);
    }
  }

  /** Under "Groupless" stand exactly those who play without being in a group. */
  lemma GrouplessShowsTheRest(h: Hub, g: Bytes, t: Sid)
    requires Reachable(h) && g in h.games
    ensures multiset(Tagged(h.users, h.games[g].users, "Groupless"))[t]
         == if t in h.users && h.users[t].game == Some(g) && h.users[t].group.None? then 1 else 0
  {
    TaggedCount(h.users, h.games[g].users, GROUPLESS, t);
    UsersExactlyOnce(h, g, t);
    if t in h.users && h.users[t].game == Some(g) && h.users[t].group.Some? {
      NothingDangles(h);
      GrouplessIsNoGroup(h, g, h.users[t].group.value);
    }
  }

  /** The order in which the games were walked met every game once. */
  ghost predicate Walked(h: Hub, gs: seq<Bytes>) { ListsOnce(gs, h.games.Keys) }

  lemma UsersKnown(h: Hub, g: Bytes)
    requires Reachable(h) && g in h.games
    ensures Known(h.users, h.games[g].users)
  {
    ReachableKeeps(h);
    assert UsersOf(h.users, g, h.games[g].users);
    forall i | 0 <= i < |h.games[g].users| ensures h.games[g].users[i] in h.users {
      assert h.games[g].users[i] in h.games[g].users;
    }
  }

  /** The entries are the sessions `ids`, in that order, each under its name up to the first NUL and with its
      hardware address. */
  ghost predicate EntriesOf(us: map<Sid, User>, ids: seq<Sid>, entries: seq<GroupUser>) {
    && |entries| == |ids|
    && forall i :: 0 <= i < |ids| ==>
         ids[i] in us && entries[i].name == UpToNul(us[ids[i]].name) && entries[i].mac == us[ids[i]].mac
  }

  lemma {:induction false} ShownAt(us: map<Sid, User>, ids: seq<Sid>, g: Bytes)
    requires Known(us, ids)
    ensures |ShownAll(us, ids, g)| == |ids|
    ensures forall i :: 0 <= i < |ids| ==> ids[i] in us && ShownAll(us, ids, g)[i] == ShownAs(us[ids[i]], g)
  {
    if ids != [] {
      assert ids[|ids| - 1] in us;
      assert Known(us, ids[..|ids| - 1]);
      ShownAt(us, ids[..|ids| - 1], g);
    }
  }

  lemma EntriesShown(us: map<Sid, User>, ids: seq<Sid>, g: Bytes)
    requires Known(us, ids)
    ensures EntriesOf(us, ids, Entries(ShownAll(us, ids, g)))
  {
    ShownAt(us, ids, g);
    hide ShownAll, UpToNul;
  }

  /** Each game shown is a game of the registry, counted right, and its groups show who is in them. */
  lemma GameShownRight(h: Hub, gs: seq<Bytes>, games: seq<StatusGame>, index: map<Bytes, nat>,
                       display: Bytes -> Bytes, i: nat)
    requires Reachable(h) && Walked(h, gs) && Regrouped(Snapshot(h, gs), games, index, display) && i < |games|
    ensures var g := games[i].code;
            && g in h.games && games[i].name == display(g)
            && games[i].userCount == |h.games[g].users| == SumOf(games[i].groups)
            && forall j :: 0 <= j < |games[i].groups| ==>
                 EntriesOf(h.users, Tagged(h.users, h.games[g].users, games[i].groups[j].name), games[i].groups[j].users)
  {
    var g := games[i].code;
    assert GameShown(Snapshot(h, gs), games[i], display);
    OfGameSnapshot(h, gs, g);
    assert g in gs;
    UsersKnown(h, g);
    ShownLength(h.users, h.games[g].users, g);
    UserCountIsSum(Snapshot(h, gs), games, index, display, i);
    forall j | 0 <= j < |games[i].groups|
      ensures EntriesOf(h.users, Tagged(h.users, h.games[g].users, games[i].groups[j].name), games[i].groups[j].users)
    {
      OfGroupShown(h.users, h.games[g].users, g, games[i].groups[j].name);
      TaggedKnown(h.users, h.games[g].users, games[i].groups[j].name);
      EntriesShown(h.users, Tagged(h.users, h.games[g].users, games[i].groups[j].name), g);
    }
  }

  lemma {:induction false} OfGameNonempty(us: seq<StatusUser>, code: Bytes)
    requires OfGame(us, code) != []
    ensures exists u :: u in us && u.code == code
  {
    var n := |us| - 1;
    if us[n].code == code {
      assert us[n] in us;
    } else {
      OfGameNonempty(us[..n], code);
      var u :| u in us[..n] && u.code == code;
      assert u in us;
    }
  }

  /** Every game of the registry is shown, once. */
  lemma EveryGameShownOnce(h: Hub, gs: seq<Bytes>, games: seq<StatusGame>, index: map<Bytes, nat>,
                           display: Bytes -> Bytes, g: Bytes)
    requires Reachable(h) && Walked(h, gs) && Regrouped(Snapshot(h, gs), games, index, display) && g in h.games
    ensures g in index && index[g] < |games| && games[index[g]].code == g
    ensures forall i :: 0 <= i < |games| && games[i].code == g ==> i == index[g]
  {
    OfGameSnapshot(h, gs, g);
    UsersKnown(h, g);
    ShownLength(h.users, h.games[g].users, g);
    NothingDangles(h);
    OfGameNonempty(Snapshot(h, gs), g);
  }

  lemma {:induction false} OfGroupNonempty(us: seq<StatusUser>, tag: Bytes)
    requires OfGroup(us, tag) != []
    ensures exists u :: u in us && Label(u) == tag
  {
    var n := |us| - 1;
    if Label(us[n]) == tag {
      assert us[n] in us;
    } else {
      OfGroupNonempty(us[..n], tag);
      var u :| u in us[..n] && Label(u) == tag;
      assert u in us;
    }
  }

  /** Every group of a game is shown, once, and it lists a permutation of the group's players. */
  lemma EveryGroupShownOnce(h: Hub, gs: seq<Bytes>, games: seq<StatusGame>, index: map<Bytes, nat>,
                            display: Bytes -> Bytes, g: Bytes, k: Bytes)
    requires Reachable(h) && Walked(h, gs) && Regrouped(Snapshot(h, gs), games, index, display)
    requires g in h.games && k in h.games[g].groups
    ensures g in index && index[g] < |games|
    ensures exists j, ids: seq<Sid> ::
              && 0 <= j < |games[index[g]].groups| && games[index[g]].groups[j].name == k
              && multiset(ids) == multiset(h.games[g].groups[k])
              && EntriesOf(h.users, ids, games[index[g]].groups[j].users)
    ensures forall a, b :: 0 <= a < b < |games[index[g]].groups| ==>
              games[index[g]].groups[a].name != games[index[g]].groups[b].name
  {
    EveryGameShownOnce(h, gs, games, index, display, g);
    var i := index[g];
    var game := games[i];
    GameShownRight(h, gs, games, index, display, i);
    assert GameShown(Snapshot(h, gs), game, display);
    var ids := Tagged(h.users, h.games[g].users, k);
    GroupShowsPlayers(h, g, k);
    GroupHasSlot(h, gs, game, display, k, ids);
    var j := game.groupIndex[k];
    assert EntriesOf(h.users, ids, game.groups[j].users);
    forall a, b | 0 <= a < b < |game.groups| ensures game.groups[a].name != game.groups[b].name {
      assert game.groupIndex[game.groups[a].name] == a && game.groupIndex[game.groups[b].name] == b;
    }
  }

  lemma GroupHasSlot(h: Hub, gs: seq<Bytes>, game: StatusGame, display: Bytes -> Bytes, k: Bytes, ids: seq<Sid>)
    requires Reachable(h) && Walked(h, gs) && GameShown(Snapshot(h, gs), game, display)
    requires game.code in h.games && k in h.games[game.code].groups
    requires ids == Tagged(h.users, h.games[game.code].users, k)
    requires multiset(ids) == multiset(h.games[game.code].groups[k])
    ensures k in game.groupIndex && game.groupIndex[k] < |game.groups| && game.groups[game.groupIndex[k]].name == k
  {
    var g := game.code;
    var mine := OfGame(Snapshot(h, gs), g);
    OfGameSnapshot(h, gs, g);
    OfGroupShown(h.users, h.games[g].users, g, k);
    hide Reachable, Snapshot, OfGame, OfGroup, Tagged, ShownAll, ValidKey, Walked, Distinct;
    GroupIsNotEmpty(h, g, k);
    SameBagNotEmpty(ids, h.games[g].groups[k]);
    TaggedKnown(h.users, h.games[g].users, k);
    ShownLength(h.users, ids, g);
    OfGroupNonempty(mine, k);
    SlotOf(mine, game.groups, game.groupIndex, k);
  }

  lemma GroupIsNotEmpty(h: Hub, g: Bytes, k: Bytes)
    requires Reachable(h) && g in h.games && k in h.games[g].groups
    ensures h.games[g].groups[k] != []
  {
    ReachableKeeps(h);
    assert GameOk(h.games[g]);
  }

  lemma SameBagNotEmpty(a: seq<Sid>, b: seq<Sid>)
    requires multiset(a) == multiset(b) && b != []
    ensures a != []
  {
    assert b[0] in multiset(b);
    assert b[0] in multiset(a);
  }

  lemma SlotOf(mine: seq<StatusUser>, groups: seq<StatusGroup>, index: map<Bytes, nat>, k: Bytes)
    requires Grouped(mine, groups, index) && exists u :: u in mine && Label(u) == k
    ensures k in index && index[k] < |groups| && groups[index[k]].name == k
  {
  }

  lemma {:induction false} TaggedKnown(us: map<Sid, User>, ids: seq<Sid>, tag: Bytes)
    ensures Known(us, Tagged(us, ids, tag))
  {
    if ids != [] { TaggedKnown(us, ids[..|ids| - 1], tag); }
  }
}
