/** The status page as a client reads it: values looked up by the names of their keys. */
module StatusReader {
  import opened Bytes
  import opened SessionNames
  import opened RelayDirectories
  import opened Json
  import opened Status
  import opened StatusPage

  // ---- looking things up -------------------------------------------------------------------------

  function Lookup(members: Members, key: Bytes): Option<Json>
    decreases members
  {
    match members
    case NoMember => None
    case Member(k, value, next) => if k == key then Some(value) else Lookup(next, key)
  }

  /** The value that an object has under a key. */
  function Field(v: Json, key: Bytes): Option<Json> {
    if v.Obj? then Lookup(v.members, key) else None
  }

  function Elements(items: Items): seq<Json>
    decreases items
  {
    match items
    case NoItem => []
    case Item(head, tail) => [head] + Elements(tail)
  }

  /** The elements of the array that an object has under a key. */
  function ArrayAt(v: Json, key: Bytes): Option<seq<Json>> {
    match Field(v, key)
    case Some(Arr(items)) => Some(Elements(items))
    case _ => None
  }

  // ---- what the page has to say ------------------------------------------------------------------

  /** The array under `key` is the ports of `mac` of one kind, each once, in increasing order. */
  ghost predicate PortsSay(v: Json, key: Bytes, mac: Mac, kind: PortKind, ports: set<Key>) {
    var l := ArrayAt(v, key);
    && l.Some?
    && (forall i :: 0 <= i < |l.value| ==> l.value[i].Num? && l.value[i].n < 65536)
    && (forall i, j :: 0 <= i < j < |l.value| ==> l.value[i].n < l.value[j].n)
    && forall p: Port :: Num(p) in l.value <==> Key(mac, kind, p) in ports
  }

  ghost predicate UserSays(v: Json, u: GroupUser, ports: set<Key>) {
    && Field(v, "name") == Some(Str(u.name))
    && PortsSay(v, "pdp_ports", u.mac, PdpKind, ports)
    && PortsSay(v, "ptp_ports", u.mac, PtpKind, ports)
  }

  ghost predicate UsersSay(l: seq<Json>, us: seq<GroupUser>, ports: set<Key>) {
    |l| == |us| && forall i :: 0 <= i < |us| ==> UserSays(l[i], us[i], ports)
  }

  ghost predicate GroupSays(v: Json, g: StatusGroup, ports: set<Key>) {
    && Field(v, "name") == Some(Str(g.name)) && Field(v, "usercount") == Some(Num(|g.users|))
    && ArrayAt(v, "users").Some? && UsersSay(ArrayAt(v, "users").value, g.users, ports)
  }

  ghost predicate GroupsSay(l: seq<Json>, gs: seq<StatusGroup>, ports: set<Key>) {
    |l| == |gs| && forall i :: 0 <= i < |gs| ==> GroupSays(l[i], gs[i], ports)
  }

  ghost predicate GameSays(v: Json, g: StatusGame, ports: set<Key>) {
    && Field(v, "name") == Some(Str(g.name)) && Field(v, "usercount") == Some(Num(g.userCount))
    && ArrayAt(v, "game_ids") == Some([Str(g.code)])
    && ArrayAt(v, "groups").Some? && GroupsSay(ArrayAt(v, "groups").value, g.groups, ports)
  }

  ghost predicate GamesSay(l: seq<Json>, gs: seq<StatusGame>, ports: set<Key>) {
    |l| == |gs| && forall i :: 0 <= i < |gs| ==> GameSays(l[i], gs[i], ports)
  }

  /** The bytes are one JSON value, and it shows just these games, each user with the ports that are advertised. */
  ghost predicate PageSays(b: Bytes, games: seq<StatusGame>, ports: set<Key>) {
    var r := ReadValue(b);
    && r.Some? && r.value.1 == []
    && ArrayAt(r.value.0, "games").Some? && GamesSay(ArrayAt(r.value.0, "games").value, games, ports)
  }

  // ---- and it does -------------------------------------------------------------------------------

  ghost predicate PortsOrdered(table: map<Mac, PortSet>) {
    forall m :: m in table ==> StrictlyIncreasing(table[m].pdp) && StrictlyIncreasing(table[m].ptp)
  }

  lemma {:induction false} PortElements(ports: seq<Port>)
    ensures |Elements(PortItems(ports))| == |ports|
    ensures forall i :: 0 <= i < |ports| ==> Elements(PortItems(ports))[i] == Num(ports[i])
  {
    if ports != [] { PortElements(ports[1..]); }
  }

  /** An array of the ports `own` says what it should if `own` is in order and complete. */
  lemma PortsRead(v: Json, key: Bytes, own: seq<Port>, mac: Mac, kind: PortKind, ports: set<Key>)
    requires Field(v, key) == Some(Arr(PortItems(own))) && StrictlyIncreasing(own)
    requires forall p: Port :: p in own <==> Key(mac, kind, p) in ports
    ensures PortsSay(v, key, mac, kind, ports)
  {
    PortElements(own);
    var l := Elements(PortItems(own));
    forall p: Port ensures Num(p) in l <==> p in own {
      if p in own {
        var i :| 0 <= i < |own| && own[i] == p;
        assert l[i] == Num(p);
      }
    }
  }

  lemma UserRead(u: GroupUser, table: map<Mac, PortSet>)
    requires PortsOrdered(table)
    ensures UserSays(UserDoc(UserShown(u, table)), u, Triples(table))
  {
    var t := UserShown(u, table);
    var v := UserDoc(t);
    UserFields(t);
    hide PortsSay, UserDoc, UserShown, PortItems;
    ShownPorts(u, table);
    PortsRead(v, "pdp_ports", t.pdp, u.mac, PdpKind, Triples(table));
    PortsRead(v, "ptp_ports", t.ptp, u.mac, PtpKind, Triples(table));
  }

  lemma ShownPorts(u: GroupUser, table: map<Mac, PortSet>)
    requires PortsOrdered(table)
    ensures var t := UserShown(u, table);
            && StrictlyIncreasing(t.pdp) && StrictlyIncreasing(t.ptp) && t.name == u.name
            && (forall p: Port :: p in t.pdp <==> Key(u.mac, PdpKind, p) in Triples(table))
            && (forall p: Port :: p in t.ptp <==> Key(u.mac, PtpKind, p) in Triples(table))
  {
  }

  /** Three members under different keys are found under them, and hide nothing behind them. */
  lemma ThreeFields(k: Bytes, a: Json, l: Bytes, b: Json, m: Bytes, c: Json, next: Members)
    requires k != l && k != m && l != m
    ensures var v := Obj(Member(k, a, Member(l, b, Member(m, c, next))));
            && Field(v, k) == Some(a) && Field(v, l) == Some(b) && Field(v, m) == Some(c)
            && forall n: Bytes :: n != k && n != l && n != m ==> Field(v, n) == Lookup(next, n)
  {
    var third := Member(m, c, next);
    var second := Member(l, b, third);
    assert Lookup(third, m) == Some(c);
    assert Lookup(second, l) == Some(b) && Lookup(second, m) == Lookup(third, m);
    forall n: Bytes | n != l && n != m ensures Lookup(second, n) == Lookup(next, n) {
      assert Lookup(second, n) == Lookup(third, n);
    }
  }

  lemma UserFields(t: UserTree)
    ensures Field(UserDoc(t), "name") == Some(Str(t.name))
    ensures Field(UserDoc(t), "pdp_ports") == Some(Arr(PortItems(t.pdp)))
    ensures Field(UserDoc(t), "ptp_ports") == Some(Arr(PortItems(t.ptp)))
  {
    KeysDiffer();
    ThreeFields(NAME, Str(t.name), PDP_PORTS, Arr(PortItems(t.pdp)), PTP_PORTS, Arr(PortItems(t.ptp)), NoMember);
    hide PortItems, Field;
  }

  lemma KeysDiffer()
    ensures NAME != PDP_PORTS && NAME != PTP_PORTS && PDP_PORTS != PTP_PORTS && NAME != USERCOUNT && NAME != USERS
    ensures USERCOUNT != USERS && NAME != GAME_IDS && USERCOUNT != GAME_IDS && NAME != GROUPS && USERCOUNT != GROUPS
    ensures GAME_IDS != GROUPS
  {
    assert PDP_PORTS[1] != PTP_PORTS[1];
    assert |NAME| == 4 && |USERCOUNT| == 9 && |USERS| == 5 && |GAME_IDS| == 8 && |GROUPS| == 6;
  }

  lemma {:induction false} UsersRead(us: seq<GroupUser>, ts: seq<UserTree>, table: map<Mac, PortSet>)
    requires PortsOrdered(table) && |ts| == |us| && forall i :: 0 <= i < |us| ==> ts[i] == UserShown(us[i], table)
    ensures UsersSay(Elements(UserItems(ts)), us, Triples(table))
  {
    if ts != [] {
      hide UserSays, UserDoc, UserShown, PortsOrdered;
      UserRead(us[0], table);
      UsersRead(us[1..], ts[1..], table);
    }
  }

  lemma GroupRead(g: StatusGroup, table: map<Mac, PortSet>)
    requires PortsOrdered(table)
    ensures GroupSays(GroupDoc(GroupShown(g, table)), g, Triples(table))
  {
    KeysDiffer();
    var t := GroupShown(g, table);
    ThreeFields(NAME, Str(t.name), USERCOUNT, Num(|t.users|), USERS, Arr(UserItems(t.users)), NoMember);
    hide UserShown, UsersSay, UserItems, PortsOrdered, Elements, Field;
    UsersRead(g.users, t.users, table);
  }

  lemma {:induction false} GroupsRead(gs: seq<StatusGroup>, ts: seq<GroupTree>, table: map<Mac, PortSet>)
    requires PortsOrdered(table) && |ts| == |gs| && forall i :: 0 <= i < |gs| ==> ts[i] == GroupShown(gs[i], table)
    ensures GroupsSay(Elements(GroupItems(ts)), gs, Triples(table))
  {
    if ts != [] {
      hide GroupSays, GroupDoc, GroupShown, PortsOrdered;
      GroupRead(gs[0], table);
      GroupsRead(gs[1..], ts[1..], table);
    }
  }

  lemma GameRead(g: StatusGame, table: map<Mac, PortSet>)
    requires PortsOrdered(table)
    ensures GameSays(GameDoc(GameTreeOf(g, table)), g, Triples(table))
  {
    KeysDiffer();
    OneElement(Str(g.code));
    var t := GameTreeOf(g, table);
    ThreeFields(NAME, Str(t.name), USERCOUNT, Num(t.userCount), GAME_IDS, Arr(Item(Str(t.code), NoItem)),
                Member(GROUPS, Arr(GroupItems(t.groups)), NoMember));
    hide GroupShown, GroupsSay, GroupItems, PortsOrdered, Elements, Field;
    GroupsRead(g.groups, t.groups, table);
  }

  lemma OneElement(v: Json)
    ensures Elements(Item(v, NoItem)) == [v]
  {
  }

  lemma {:induction false} GamesRead(gs: seq<StatusGame>, ts: seq<GameTree>, table: map<Mac, PortSet>)
    requires PortsOrdered(table) && |ts| == |gs| && forall i :: 0 <= i < |gs| ==> ts[i] == GameTreeOf(gs[i], table)
    ensures GamesSay(Elements(GameItems(ts)), gs, Triples(table))
  {
    if ts != [] {
      hide GameSays, GameDoc, GameTreeOf, PortsOrdered;
      GameRead(gs[0], table);
      GamesRead(gs[1..], ts[1..], table);
    }
  }

  /** The page's text, read as RFC 8259 has it, says what it should under the keys that clients know. */
  lemma PageIsRead(games: seq<StatusGame>, table: map<Mac, PortSet>)
    requires PortsOrdered(table)
    ensures PageSays(Print(Doc(PageShown(games, table))), games, Triples(table))
  {
    var page := PageShown(games, table);
    hide Print, ReadValue, GamesSay, GameItems, GameTreeOf, PortsOrdered, Elements;
    assert Print(Doc(page)) + [] == Print(Doc(page));
    ValueRoundTrip(Doc(page), []);
    GamesRead(games, page, table);
  }
}
