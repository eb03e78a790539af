/** The status page: users regrouped by game and group through index tables. */
module Status {
  import opened Bytes
  import opened SessionNames

  datatype StatusUser = StatusUser(name: Bytes, mac: Mac, code: Bytes, group: Option<Bytes>)
  datatype GroupUser = GroupUser(name: Bytes, mac: Mac)
  datatype StatusGroup = StatusGroup(name: Bytes, users: seq<GroupUser>)
  datatype StatusGame = StatusGame(
    code: Bytes,
    name: Bytes,
    userCount: nat,
    groups: seq<StatusGroup>,
    groupIndex: map<Bytes, nat>)

  const GROUPLESS: Bytes := "Groupless"

  /** The group that a user is shown in. */
  function Label(u: StatusUser): Bytes { u.group.GetOr(GROUPLESS) }

  // ---- the simple form: filters ----------------------------------------------------------------

  function OfGame(us: seq<StatusUser>, code: Bytes): seq<StatusUser> {
    if us == [] then []
    else
      var n := |us| - 1;
      if us[n].code == code then OfGame(us[..n], code) + [us[n]] else OfGame(us[..n], code)
  }

  function OfGroup(us: seq<StatusUser>, tag: Bytes): seq<StatusUser> {
    if us == [] then []
    else
      var n := |us| - 1;
      if Label(us[n]) == tag then OfGroup(us[..n], tag) + [us[n]] else OfGroup(us[..n], tag)
  }

  function Entry(u: StatusUser): GroupUser { GroupUser(u.name, u.mac) }

  function Entries(us: seq<StatusUser>): (r: seq<GroupUser>)
    ensures |r| == |us| && forall i :: 0 <= i < |us| ==> r[i] == Entry(us[i])
  {
    if us == [] then [] else Entries(us[..|us| - 1]) + [Entry(us[|us| - 1])]
  }

  lemma OfGameAppend(us: seq<StatusUser>, u: StatusUser, code: Bytes)
    ensures OfGame(us + [u], code) == if u.code == code then OfGame(us, code) + [u] else OfGame(us, code)
  {
    assert (us + [u])[..|us|] == us;
  }

  lemma OfGroupAppend(us: seq<StatusUser>, u: StatusUser, tag: Bytes)
    ensures OfGroup(us + [u], tag) == if Label(u) == tag then OfGroup(us, tag) + [u] else OfGroup(us, tag)
  {
    assert (us + [u])[..|us|] == us;
  }

  lemma EntriesAppend(us: seq<StatusUser>, u: StatusUser)
    ensures Entries(us + [u]) == Entries(us) + [Entry(u)]
  {
    assert (us + [u])[..|us|] == us;
  }

  // ---- what regrouping has to make -------------------------------------------------------------

  ghost predicate Slots(groups: seq<StatusGroup>, index: map<Bytes, nat>) {
    && (forall l :: l in index ==> index[l] < |groups| && groups[index[l]].name == l)
    && (forall j :: 0 <= j < |groups| ==> groups[j].name in index && index[groups[j].name] == j)
  }

  ghost predicate Fills(mine: seq<StatusUser>, groups: seq<StatusGroup>) {
    forall j :: 0 <= j < |groups| ==> groups[j].users == Entries(OfGroup(mine, groups[j].name))
  }

  ghost predicate NoneEmpty(groups: seq<StatusGroup>) { forall j :: 0 <= j < |groups| ==> groups[j].users != [] }

  ghost predicate Covers(mine: seq<StatusUser>, index: map<Bytes, nat>) { forall u :: u in mine ==> Label(u) in index }

  /** Each group name that `mine` calls for has exactly one group, which lists its users in order. */
  ghost predicate Grouped(mine: seq<StatusUser>, groups: seq<StatusGroup>, index: map<Bytes, nat>) {
    Slots(groups, index) && Fills(mine, groups) && NoneEmpty(groups) && Covers(mine, index)
  }

  ghost predicate GameShown(us: seq<StatusUser>, game: StatusGame, display: Bytes -> Bytes) {
    && game.name == display(game.code)
    && game.userCount == |OfGame(us, game.code)| > 0
    && Grouped(OfGame(us, game.code), game.groups, game.groupIndex)
  }

  ghost predicate Indexed(games: seq<StatusGame>, index: map<Bytes, nat>) {
    && (forall c :: c in index ==> index[c] < |games| && games[index[c]].code == c)
    && (forall i :: 0 <= i < |games| ==> games[i].code in index && index[games[i].code] == i)
  }

  /** Each code of `us` has exactly one game, which shows its users. */
  ghost predicate Regrouped(us: seq<StatusUser>, games: seq<StatusGame>, index: map<Bytes, nat>,
                            display: Bytes -> Bytes)
  {
    && Indexed(games, index)
    && (forall i :: 0 <= i < |games| ==> GameShown(us, games[i], display))
    && (forall u :: u in us ==> u.code in index)
  }

  // ---- the fast form ---------------------------------------------------------------------------

  /** The part of one turn of `build_status_games` that is about the user's game. */
  method CountUser(game: StatusGame, u: StatusUser, ghost mine: seq<StatusUser>) returns (r: StatusGame)
    requires game.userCount == |mine| && Grouped(mine, game.groups, game.groupIndex)
    ensures r.code == game.code && r.name == game.name && r.userCount == |mine + [u]|
    ensures Grouped(mine + [u], r.groups, r.groupIndex)
  {
    hide Slots, Fills, NoneEmpty, Covers, OfGroup, Entries;
    r := game.(userCount := game.userCount + 1);
    var tag := u.group.GetOr(GROUPLESS);
    var groups, index := game.groups, game.groupIndex;
    if tag !in index {
      SlotAdded(mine, groups, index, tag);
      index := index[tag := |groups|];
      groups := groups + [StatusGroup(tag, [])];
    } else {
      SlotKnown(groups, index, tag);
    }
    var j := index[tag];
    SlotPushed(mine, u, groups, index);
    groups := groups[j := groups[j].(users := groups[j].users + [GroupUser(u.name, u.mac)])];
    r := r.(groups := groups, groupIndex := index);
  }

  /** All groups but `tag`'s have users. */
  ghost predicate AllElse(groups: seq<StatusGroup>, tag: Bytes) {
    forall j :: 0 <= j < |groups| && groups[j].name != tag ==> groups[j].users != []
  }

  lemma SlotKnown(groups: seq<StatusGroup>, index: map<Bytes, nat>, tag: Bytes)
    requires Slots(groups, index) && NoneEmpty(groups) && tag in index
    ensures AllElse(groups, tag)
  {
  }

  /** An empty group with a new name changes nothing for those that are there. */
  lemma SlotAdded(mine: seq<StatusUser>, groups: seq<StatusGroup>, index: map<Bytes, nat>, tag: Bytes)
    requires Grouped(mine, groups, index) && tag !in index
    ensures var more, at := groups + [StatusGroup(tag, [])], index[tag := |groups|];
            Slots(more, at) && Fills(mine, more) && Covers(mine, at) && AllElse(more, tag)
  {
    NewLabel(mine, index, tag);
  }

  /** The user's entry goes to the end of the one list it belongs to. */
  lemma SlotPushed(mine: seq<StatusUser>, u: StatusUser, groups: seq<StatusGroup>, index: map<Bytes, nat>)
    requires Slots(groups, index) && Fills(mine, groups) && Covers(mine, index) && Label(u) in index
    requires AllElse(groups, Label(u))
    ensures index[Label(u)] < |groups|
    ensures var j := index[Label(u)];
            var more := groups[j := groups[j].(users := groups[j].users + [Entry(u)])];
            Grouped(mine + [u], more, index)
  {
    hide OfGroup, Entries;
    var j := index[Label(u)];
    var more := groups[j := groups[j].(users := groups[j].users + [Entry(u)])];
    forall i | 0 <= i < |more| ensures more[i].users == Entries(OfGroup(mine + [u], more[i].name)) && more[i].users != [] {
      assert index[groups[i].name] == i;
      OfGroupAppend(mine, u, more[i].name);
      EntriesAppend(OfGroup(mine, more[i].name), u);
    }
  }

  lemma {:induction false} NewLabel(mine: seq<StatusUser>, index: map<Bytes, nat>, tag: Bytes)
    requires tag !in index && forall u :: u in mine ==> Label(u) in index
    ensures OfGroup(mine, tag) == []
  {
    if mine != [] {
      var n := |mine| - 1;
      assert mine[n] in mine;
      NewLabel(mine[..n], index, tag);
    }
  }

  lemma {:induction false} NewCode(us: seq<StatusUser>, index: map<Bytes, nat>, code: Bytes)
    requires code !in index && forall u :: u in us ==> u.code in index
    ensures OfGame(us, code) == []
  {
    if us != [] {
      var n := |us| - 1;
      assert us[n] in us;
      NewCode(us[..n], index, code);
    }
  }

  /** The games that the new user is not in are shown as before. */
  lemma OtherGames(us: seq<StatusUser>, u: StatusUser, game: StatusGame, display: Bytes -> Bytes)
    requires GameShown(us, game, display) && game.code != u.code
    ensures GameShown(us + [u], game, display)
  {
    OfGameAppend(us, u, game.code);
  }

  /** `build_status_games` on the users of a snapshot. */
  method BuildStatusGames(users: seq<StatusUser>, display: Bytes -> Bytes)
    returns (games: seq<StatusGame>, gameIndex: map<Bytes, nat>)
    ensures Regrouped(users, games, gameIndex, display)
  {
    games, gameIndex := [], map[];
    var i := 0;
    while i < |users|
      invariant i <= |users| && Regrouped(users[..i], games, gameIndex, display)
    {
      assert users[..i + 1] == users[..i] + [users[i]];
      games, gameIndex := AddUser(games, gameIndex, users[i], display, users[..i]);
      i := i + 1;
    }
    assert users[..i] == users;
  }

  /** One turn of the loop. */
  method AddUser(games: seq<StatusGame>, gameIndex: map<Bytes, nat>, u: StatusUser, display: Bytes -> Bytes,
                 ghost us: seq<StatusUser>)
    returns (r: seq<StatusGame>, index: map<Bytes, nat>)
    requires Regrouped(us, games, gameIndex, display)
    ensures Regrouped(us + [u], r, index, display)
  {
    hide Grouped, OfGame, Indexed;
    r, index := games, gameIndex;
    if u.code !in index {
      GameAdded(us, r, index, u.code);
      index := index[u.code := |r|];
      r := r + [StatusGame(u.code, display(u.code), 0, [], map[])];
    } else {
      GameKnown(r, index, u.code);
    }
    var k := index[u.code];
    var game := CountUser(r[k], u, OfGame(us, u.code));
    OfGameAppend(us, u, u.code);
    IndexedPut(r, index, k, game);
    ghost var was := r;
    r := r[k := game];
    forall i | 0 <= i < |r| ensures GameShown(us + [u], r[i], display) {
      if i != k {
        OnlyGame(was, index, k, i);
        OtherGames(us, u, r[i], display);
      }
    }
  }

  lemma GameKnown(games: seq<StatusGame>, index: map<Bytes, nat>, code: Bytes)
    requires Indexed(games, index) && code in index
    ensures index[code] < |games| && games[index[code]].code == code
  {
  }

  lemma GameAdded(us: seq<StatusUser>, games: seq<StatusGame>, index: map<Bytes, nat>, code: Bytes)
    requires Indexed(games, index) && code !in index && forall u :: u in us ==> u.code in index
    ensures OfGame(us, code) == [] && Grouped(OfGame(us, code), [], map[])
    ensures forall game: StatusGame :: game.code == code ==> Indexed(games + [game], index[code := |games|])
  {
    NewCode(us, index, code);
  }

  lemma IndexedPut(games: seq<StatusGame>, index: map<Bytes, nat>, k: nat, game: StatusGame)
    requires Indexed(games, index) && k < |games| && game.code == games[k].code
    ensures Indexed(games[k := game], index)
  {
  }

  lemma OnlyGame(games: seq<StatusGame>, index: map<Bytes, nat>, k: nat, i: nat)
    requires Indexed(games, index) && k < |games| && i < |games| && i != k
    ensures games[i].code != games[k].code
  {
    assert index[games[i].code] == i && index[games[k].code] == k;
  }

  // ---- the partition ---------------------------------------------------------------------------

  function SumOf(groups: seq<StatusGroup>): nat {
    if groups == [] then 0 else SumOf(groups[..|groups| - 1]) + |groups[|groups| - 1].users|
  }

  /** How many of `mine` the labels account for. */
  function Total(mine: seq<StatusUser>, groups: seq<StatusGroup>): nat {
    if groups == [] then 0
    else Total(mine, groups[..|groups| - 1]) + |OfGroup(mine, groups[|groups| - 1].name)|
  }

  ghost predicate DistinctNames(groups: seq<StatusGroup>) {
    forall i, j :: 0 <= i < j < |groups| ==> groups[i].name != groups[j].name
  }

  ghost predicate HasLabel(groups: seq<StatusGroup>, tag: Bytes) {
    exists i :: 0 <= i < |groups| && groups[i].name == tag
  }

  /** One user more counts once, under the user's own tag. */
  lemma {:induction false} TotalAppend(mine: seq<StatusUser>, u: StatusUser, groups: seq<StatusGroup>)
    requires DistinctNames(groups)
    ensures Total(mine + [u], groups) == Total(mine, groups) + if HasLabel(groups, Label(u)) then 1 else 0
  {
    if groups != [] {
      var n := |groups| - 1;
      TotalAppend(mine, u, groups[..n]);
      OfGroupAppend(mine, u, groups[n].name);
      if HasLabel(groups, Label(u)) && groups[n].name != Label(u) {
        var i :| 0 <= i < |groups| && groups[i].name == Label(u);
        assert groups[..n][i].name == Label(u);
      }
      if HasLabel(groups[..n], Label(u)) {
        var i :| 0 <= i < |groups[..n]| && groups[..n][i].name == Label(u);
        assert groups[i].name == Label(u);
      }
    }
  }

  lemma {:induction false} TotalIsAll(mine: seq<StatusUser>, groups: seq<StatusGroup>)
    requires DistinctNames(groups) && forall u :: u in mine ==> HasLabel(groups, Label(u))
    ensures Total(mine, groups) == |mine|
  {
    if mine == [] {
      TotalNone(groups);
    } else {
      var n := |mine| - 1;
      assert mine == mine[..n] + [mine[n]];
      TotalIsAll(mine[..n], groups);
      TotalAppend(mine[..n], mine[n], groups);
    }
  }

  lemma {:induction false} TotalNone(groups: seq<StatusGroup>)
    ensures Total([], groups) == 0
  {
    if groups != [] { TotalNone(groups[..|groups| - 1]); }
  }

  lemma {:induction false} SumIsTotal(mine: seq<StatusUser>, groups: seq<StatusGroup>)
    requires forall j :: 0 <= j < |groups| ==> groups[j].users == Entries(OfGroup(mine, groups[j].name))
    ensures SumOf(groups) == Total(mine, groups)
  {
    if groups != [] { SumIsTotal(mine, groups[..|groups| - 1]); }
  }

  /** The count shown for a game is the sum of the sizes of the groups shown in it. */
  lemma UserCountIsSum(us: seq<StatusUser>, games: seq<StatusGame>, index: map<Bytes, nat>, display: Bytes -> Bytes,
                       i: nat)
    requires Regrouped(us, games, index, display) && i < |games|
    ensures games[i].userCount == SumOf(games[i].groups)
  {
    assert GameShown(us, games[i], display);
    var mine, groups := OfGame(us, games[i].code), games[i].groups;
    forall a, b | 0 <= a < b < |groups| ensures groups[a].name != groups[b].name {
      assert games[i].groupIndex[groups[a].name] == a && games[i].groupIndex[groups[b].name] == b;
    }
    forall u | u in mine ensures HasLabel(groups, Label(u)) {
      assert groups[games[i].groupIndex[Label(u)]].name == Label(u);
    }
    SumIsTotal(mine, groups);
    TotalIsAll(mine, groups);
  }
}
