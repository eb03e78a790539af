/** The status page as the program makes it, from the registry's objects and the relay's directory. */
module StatusServers {
  import opened Bytes
  import opened SessionNames
  import opened Packets
  import opened RelayDirectories
  import opened Json
  import opened GameModel
  import opened GameInvariant
  import opened GameRuns
  import opened GameServers
  import opened Status
  import opened StatusTheorems
  import opened StatusPage
  import opened StatusReader

  lemma ShownNext(us: map<Sid, User>, ids: seq<Sid>, i: nat, g: Bytes)
    requires i < |ids| && ids[i] in us
    ensures ShownAll(us, ids[..i + 1], g) == ShownAll(us, ids[..i], g) + [ShownAs(us[ids[i]], g)]
  {
    assert ids[..i + 1][..i] == ids[..i];
  }

  lemma SnapshotNext(h: Hub, gs: seq<Bytes>, i: nat)
    requires i < |gs|
    ensures Snapshot(h, gs[..i + 1]) == Snapshot(h, gs[..i]) + ShownAll(h.users, PlayingIn(h, gs[i]), gs[i])
  {
    assert gs[..i + 1][..i] == gs[..i];
  }

  /** What the snapshot tells of one session. */
  method StatusOf(reg: Registry, x: UserSession, code: Bytes) returns (u: StatusUser)
    requires reg.Valid() && reg.Known(x)
    ensures x.id in reg.hub.users && u == ShownAs(reg.hub.users[x.id], code)
  {
    hide Registry.Valid;
    reg.Shown(x);
    var n := BoundedStrlen(x.name, 128);
    assert x.name[..128] == x.name;
    var group := if x.group != null then Some(x.group.name) else None;
    u := StatusUser(x.name[..n], x.mac, code, group);
  }

  /** The inner loop of `snapshot_for_status`. */
  method StatusOfGame(reg: Registry, game: GameNode, out: seq<StatusUser>, ghost ids: seq<Sid>) returns (r: seq<StatusUser>)
    requires reg.Valid() && Listed(reg.sessions, game.users, ids)
    ensures r == out + ShownAll(reg.hub.users, ids, game.code_str)
  {
    hide Registry.Valid, ShownAs, Listed;
    reg.ListedLength(game.users, ids);
    r := out;
    var i := 0;
    assert out + ShownAll(reg.hub.users, ids[..0], game.code_str) == out;
    while i < |game.users|
      invariant i <= |game.users| && r == out + ShownAll(reg.hub.users, ids[..i], game.code_str)
    {
      hide ShownAll;
      reg.ListedAt(game.users, ids, i);
      var u := StatusOf(reg, game.users[i], game.code_str);
      ShownNext(reg.hub.users, ids, i, game.code_str);
      r := r + [u];
      i := i + 1;
    }
    assert ids[..i] == ids;
  }

  lemma GameAt(reg: Registry, g: Bytes)
    requires reg.Valid() && g in reg.games_
    ensures reg.games_[g].code_str == g
    ensures Listed(reg.sessions, reg.games_[g].users, PlayingIn(reg.hub, g))
  {
    reg.InUseAt(g);
    reg.GameShown(reg.games_[g]);
    hide Registry.Valid, Listed, GroupsShow, RestShow, ShapeOf;
  }

  /** `snapshot_for_status`; the table of games is walked in the order `gs`. */
  method SnapshotForStatus(reg: Registry, gs: seq<Bytes>) returns (out: seq<StatusUser>)
    requires reg.Valid() && ListsOnce(gs, reg.games_.Keys)
    ensures out == Snapshot(reg.hub, gs)
  {
    hide Registry.Valid, Listed, PlayingIn;
    out := [];
    var i := 0;
    while i < |gs|
      invariant i <= |gs| && out == Snapshot(reg.hub, gs[..i])
    {
      hide Snapshot;
      assert gs[i] in gs;
      GameAt(reg, gs[i]);
      SnapshotNext(reg.hub, gs, i);
      out := StatusOfGame(reg, reg.games_[gs[i]], out, PlayingIn(reg.hub, gs[i]));
      i := i + 1;
    }
    assert gs[..i] == gs;
  }

  lemma DirectoryOrdered(relay: RelayDirectory)
    requires relay.Valid()
    ensures PortsOrdered(relay.by_mac_) && relay.Ports() == Triples(relay.by_mac_)
  {
  }

  /** `build_status_json`: the bytes read back as the regrouped snapshot, and say under each user's name which
      ports the directory advertises for its address, PDP ports as PDP ports and PTP ports as PTP ports. */
  method BuildStatusJson(reg: Registry, relay: RelayDirectory, display: Bytes -> Bytes, gs: seq<Bytes>)
    returns (out: Bytes, games: seq<StatusGame>, index: map<Bytes, nat>)
    requires reg.Valid() && relay.Valid() && ListsOnce(gs, reg.games_.Keys)
    ensures Regrouped(Snapshot(reg.hub, gs), games, index, display)
    ensures PageSays(out, games, relay.Ports())
    ensures ReadPage(out) == Some(PageShown(games, relay.by_mac_))
  {
    hide Registry.Valid, RelayDirectory.Valid, Regrouped, ReadPage, Print, Doc, PageShown, PortsOrdered, PageSays, Triples;
    var users := SnapshotForStatus(reg, gs);
    games, index := BuildStatusGames(users, display);
    out := AppendPage([], games, relay);
    assert [] + Print(Doc(PageShown(games, relay.by_mac_))) == Print(Doc(PageShown(games, relay.by_mac_)));
    PageRoundTrip(PageShown(games, relay.by_mac_));
    DirectoryOrdered(relay);
    PageIsRead(games, relay.by_mac_);
  }
}
