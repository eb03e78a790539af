/** The text of the status page: written piece by piece, read back as the tree it shows. */
module StatusPage {
  import opened Bytes
  import opened SessionNames
  import opened RelayDirectories
  import opened Json
  import opened Status

  datatype UserTree = UserTree(name: Bytes, pdp: seq<Port>, ptp: seq<Port>)
  datatype GroupTree = GroupTree(name: Bytes, users: seq<UserTree>)
  datatype GameTree = GameTree(name: Bytes, userCount: nat, code: Bytes, groups: seq<GroupTree>)

  // ---- the tree that a page shows ----------------------------------------------------------------

  function PortsAt(table: map<Mac, PortSet>, mac: Mac): PortSet {
    if mac in table then table[mac] else PortSet([], [])
  }

  function UserShown(u: GroupUser, table: map<Mac, PortSet>): UserTree {
    var ports := PortsAt(table, u.mac);
    UserTree(u.name, ports.pdp, ports.ptp)
  }

  function GroupShown(g: StatusGroup, table: map<Mac, PortSet>): (r: GroupTree) {
    GroupTree(g.name, seq(|g.users|, i requires 0 <= i < |g.users| => UserShown(g.users[i], table)))
  }

  function GameTreeOf(g: StatusGame, table: map<Mac, PortSet>): GameTree {
    GameTree(g.name, g.userCount, g.code, seq(|g.groups|, i requires 0 <= i < |g.groups| => GroupShown(g.groups[i], table)))
  }

  function PageShown(games: seq<StatusGame>, table: map<Mac, PortSet>): seq<GameTree> {
    seq(|games|, i requires 0 <= i < |games| => GameTreeOf(games[i], table))
  }

  // ---- the tree as a JSON value ------------------------------------------------------------------

  const NAME: Bytes := "name"
  const USERCOUNT: Bytes := "usercount"
  const GAME_IDS: Bytes := "game_ids"
  const GROUPS: Bytes := "groups"
  const USERS: Bytes := "users"
  const PDP_PORTS: Bytes := "pdp_ports"
  const PTP_PORTS: Bytes := "ptp_ports"
  const GAMES: Bytes := "games"

  function PortItems(ports: seq<Port>): Items {
    if ports == [] then NoItem else Item(Num(ports[0]), PortItems(ports[1..]))
  }

  function UserDoc(u: UserTree): Json {
    Obj(Member(NAME, Str(u.name),
        Member(PDP_PORTS, Arr(PortItems(u.pdp)), Member(PTP_PORTS, Arr(PortItems(u.ptp)), NoMember))))
  }

  function UserItems(us: seq<UserTree>): Items {
    if us == [] then NoItem else Item(UserDoc(us[0]), UserItems(us[1..]))
  }

  function GroupDoc(g: GroupTree): Json {
    Obj(Member(NAME, Str(g.name), Member(USERCOUNT, Num(|g.users|), Member(USERS, Arr(UserItems(g.users)), NoMember))))
  }

  function GroupItems(gs: seq<GroupTree>): Items {
    if gs == [] then NoItem else Item(GroupDoc(gs[0]), GroupItems(gs[1..]))
  }

  function GameDoc(g: GameTree): Json {
    Obj(Member(NAME, Str(g.name), Member(USERCOUNT, Num(g.userCount),
        Member(GAME_IDS, Arr(Item(Str(g.code), NoItem)), Member(GROUPS, Arr(GroupItems(g.groups)), NoMember)))))
  }

  function GameItems(gs: seq<GameTree>): Items {
    if gs == [] then NoItem else Item(GameDoc(gs[0]), GameItems(gs[1..]))
  }

  function Doc(page: seq<GameTree>): Json { Obj(Member(GAMES, Arr(GameItems(page)), NoMember)) }

  // ---- and back ----------------------------------------------------------------------------------

  function PortsIn(items: Items): Option<seq<Port>>
    decreases items
  {
    match items
    case NoItem => Some([])
    case Item(Num(n), tail) =>
      var rest := PortsIn(tail);
      if n < 0x1_0000 && rest.Some? then Some([n] + rest.value) else None
    case _ => None
  }

  function UserIn(v: Json): Option<UserTree> {
    match v
    case Obj(Member(a, Str(name), Member(b, Arr(pdp), Member(c, Arr(ptp), NoMember)))) =>
      var p, q := PortsIn(pdp), PortsIn(ptp);
      if a == NAME && b == PDP_PORTS && c == PTP_PORTS && p.Some? && q.Some? then Some(UserTree(name, p.value, q.value))
      else None
    case _ => None
  }

  function UsersIn(items: Items): Option<seq<UserTree>>
    decreases items
  {
    match items
    case NoItem => Some([])
    case Item(head, tail) =>
      var first, rest := UserIn(head), UsersIn(tail);
      if first.Some? && rest.Some? then Some([first.value] + rest.value) else None
  }

  function GroupIn(v: Json): Option<GroupTree> {
    match v
    case Obj(Member(a, Str(name), Member(b, Num(n), Member(c, Arr(users), NoMember)))) =>
      var us := UsersIn(users);
      if a == NAME && b == USERCOUNT && c == USERS && us.Some? && n == |us.value| then Some(GroupTree(name, us.value))
      else None
    case _ => None
  }

  function GroupsIn(items: Items): Option<seq<GroupTree>>
    decreases items
  {
    match items
    case NoItem => Some([])
    case Item(head, tail) =>
      var first, rest := GroupIn(head), GroupsIn(tail);
      if first.Some? && rest.Some? then Some([first.value] + rest.value) else None
  }

  function GameIn(v: Json): Option<GameTree> {
    match v
    case Obj(Member(a, Str(name), Member(b, Num(n), Member(c, Arr(Item(Str(code), NoItem)), Member(d, Arr(groups), NoMember))))) =>
      var gs := GroupsIn(groups);
      if a == NAME && b == USERCOUNT && c == GAME_IDS && d == GROUPS && gs.Some?
      then Some(GameTree(name, n, code, gs.value)) else None
    case _ => None
  }

  function GamesIn(items: Items): Option<seq<GameTree>>
    decreases items
  {
    match items
    case NoItem => Some([])
    case Item(head, tail) =>
      var first, rest := GameIn(head), GamesIn(tail);
      if first.Some? && rest.Some? then Some([first.value] + rest.value) else None
  }

  /** A client's reading of a whole page. */
  function ReadPage(b: Bytes): Option<seq<GameTree>> {
    match ReadValue(b)
    case Some((Obj(Member(a, Arr(games), NoMember)), rest)) => if a == GAMES && rest == [] then GamesIn(games) else None
    case _ => None
  }

  lemma {:induction false} PortsBack(ports: seq<Port>)
    ensures PortsIn(PortItems(ports)) == Some(ports)
  {
    if ports != [] {
      PortsBack(ports[1..]);
      assert [ports[0]] + ports[1..] == ports;
    }
  }

  lemma {:induction false} UsersBack(us: seq<UserTree>)
    ensures UsersIn(UserItems(us)) == Some(us)
  {
    if us != [] {
      PortsBack(us[0].pdp);
      PortsBack(us[0].ptp);
      UsersBack(us[1..]);
      assert [us[0]] + us[1..] == us;
    }
  }

  lemma {:induction false} GroupsBack(gs: seq<GroupTree>)
    ensures GroupsIn(GroupItems(gs)) == Some(gs)
  {
    if gs != [] {
      UsersBack(gs[0].users);
      GroupsBack(gs[1..]);
      assert [gs[0]] + gs[1..] == gs;
    }
  }

  lemma {:induction false} GamesBack(gs: seq<GameTree>)
    ensures GamesIn(GameItems(gs)) == Some(gs)
  {
    if gs != [] {
      GroupsBack(gs[0].groups);
      GamesBack(gs[1..]);
      assert [gs[0]] + gs[1..] == gs;
    }
  }

  /** Whatever the names are, a reader of the page's bytes gets back the whole tree. */
  lemma PageRoundTrip(page: seq<GameTree>)
    ensures ReadPage(Print(Doc(page))) == Some(page)
  {
    hide Print, ReadValue;
    assert Print(Doc(page)) + [] == Print(Doc(page));
    ValueRoundTrip(Doc(page), []);
    GamesBack(page);
  }

  // ---- the text, piece by piece ------------------------------------------------------------------

  lemma {:induction false} EscapePlain(s: Bytes)
    requires forall c :: c in s ==> ' ' <= c && c != '"' && c != '\\'
    ensures Escape(s) == s
  {
    if s != [] {
      hide Hex2;
      assert s[0] in s && forall c :: c in s[1..] ==> c in s;
      EscapePlain(s[1..]);
      assert EscapeChar(s[0]) == [s[0]];
      assert [s[0]] + s[1..] == s;
    }
  }

  /** The `switch` of `append_json_escaped`. */
  method AppendChar(out: Bytes, c: Byte) returns (r: Bytes)
    ensures r == out + EscapeChar(c)
  {
    if c == '"' {
      r := out + ['\\', '"'];
    } else if c == '\\' {
      r := out + ['\\', '\\'];
    } else if c == 8 as char {
      r := out + ['\\', 'b'];
    } else if c == 12 as char {
      r := out + ['\\', 'f'];
    } else if c == '\n' {
      r := out + ['\\', 'n'];
    } else if c == '\r' {
      r := out + ['\\', 'r'];
    } else if c == '\t' {
      r := out + ['\\', 't'];
    } else if c as int < 0x20 {
      r := out + (['\\', 'u', '0', '0'] + Hex2(c));
    } else {
      r := out + [c];
    }
  }

  lemma EscapeStep(s: Bytes, i: nat)
    requires i < |s|
    ensures Escape(s[i..]) == EscapeChar(s[i]) + Escape(s[i + 1..])
  {
    hide EscapeChar;
    assert s[i..][0] == s[i] && s[i..][1..] == s[i + 1..];
  }

  /** `append_json_escaped` */
  method AppendJsonEscaped(out: Bytes, s: Bytes) returns (r: Bytes)
    ensures r == out + Escape(s)
  {
    hide EscapeChar;
    r := out;
    var i := 0;
    assert s[0..] == s;
    while i < |s|
      invariant i <= |s| && r + Escape(s[i..]) == out + Escape(s)
    {
      hide Escape;
      EscapeStep(s, i);
      Associate(r, EscapeChar(s[i]), Escape(s[i + 1..]));
      r := AppendChar(r, s[i]);
      i := i + 1;
    }
    assert s[i..] == [];
    assert r + [] == r;
  }

  lemma Associate(a: Bytes, b: Bytes, c: Bytes)
    ensures a + (b + c) == (a + b) + c
  {
  }

  /** What is still to be written of an array, the first `i` items being there. */
  ghost function Remaining(items: Items, started: bool): Bytes {
    if started then PrintMoreItems(items) else PrintItems(items)
  }

  function Comma(first: bool): Bytes { if first then [] else [','] }

  /** One item more, with the comma that the `first` flag asks for. */
  lemma RemainingStep(head: Json, tail: Items, first: bool)
    ensures Remaining(Item(head, tail), !first) == Comma(first) + Print(head) + Remaining(tail, true)
  {
    hide Print;
  }

  method AppendComma(out: Bytes, first: bool) returns (r: Bytes)
    ensures r == out + Comma(first)
  {
    r := out;
    if !first {
      r := r + [','];
    }
  }

  lemma PortItemsStep(ports: seq<Port>, i: nat)
    requires i < |ports|
    ensures PortItems(ports[i..]) == Item(Num(ports[i]), PortItems(ports[i + 1..]))
  {
    assert ports[i..][0] == ports[i] && ports[i..][1..] == ports[i + 1..];
  }

  lemma RemainingNone(first: bool)
    ensures Remaining(NoItem, first) == []
  {
  }

  /** Writing the comma and the item leaves the rest of the array to be written. */
  lemma Written(out: Bytes, head: Json, tail: Items, first: bool)
    ensures out + Remaining(Item(head, tail), !first) == ((out + Comma(first)) + Print(head)) + Remaining(tail, true)
  {
    hide Print, Remaining, Comma;
    RemainingStep(head, tail, first);
    Associate(out, Comma(first) + Print(head), Remaining(tail, true));
    Associate(out, Comma(first), Print(head));
  }

  /** `append_port_array` */
  method AppendPortArray(out: Bytes, ports: seq<Port>) returns (r: Bytes)
    ensures r == out + PrintItems(PortItems(ports))
  {
    r := out;
    var first := true;
    var i := 0;
    assert ports[0..] == ports;
    while i < |ports|
      invariant i <= |ports| && (first <==> i == 0)
      invariant r + Remaining(PortItems(ports[i..]), !first) == out + Remaining(PortItems(ports), false)
    {
      hide Remaining, PortItems, Comma, Decimal;
      PortItemsStep(ports, i);
      Written(r, Num(ports[i]), PortItems(ports[i + 1..]), first);
      r := AppendComma(r, first);
      first := false;
      r := r + Decimal(ports[i]);
      i := i + 1;
    }
    assert ports[i..] == [];
    RemainingNone(!first);
    assert r + [] == r;
  }

  /** The keys need no escaping. */
  lemma KeysArePlain()
    ensures Escape(NAME) == NAME && Escape(USERCOUNT) == USERCOUNT && Escape(GAME_IDS) == GAME_IDS
    ensures Escape(GROUPS) == GROUPS && Escape(USERS) == USERS && Escape(GAMES) == GAMES
    ensures Escape(PDP_PORTS) == PDP_PORTS && Escape(PTP_PORTS) == PTP_PORTS
  {
    hide Escape;
    EscapePlain(NAME);
    EscapePlain(USERCOUNT);
    EscapePlain(GAME_IDS);
    EscapePlain(GROUPS);
    EscapePlain(USERS);
    EscapePlain(GAMES);
    EscapePlain(PDP_PORTS);
    EscapePlain(PTP_PORTS);
  }

  const OPEN_NAMED: Bytes := "{\"name\":\""
  const THEN_PDP: Bytes := "\",\"pdp_ports\":["
  const THEN_PTP: Bytes := "],\"ptp_ports\":["
  const THEN_COUNT: Bytes := "\",\"usercount\":"
  const THEN_USERS: Bytes := ",\"users\":["
  const THEN_IDS: Bytes := ",\"game_ids\":[\""
  const THEN_GROUPS: Bytes := "\"],\"groups\":["
  const OPEN_GAMES: Bytes := "{\"games\":["
  const CLOSE: Bytes := "]}"

  lemma FirstMemberText(key: Bytes, value: Json, next: Members)
    requires Escape(key) == key
    ensures Print(Obj(Member(key, value, next)))
         == ['{', '"'] + key + ['"', ':'] + Print(value) + PrintMoreMembers(next) + ['}']
  {
    hide Escape, PrintMoreMembers;
  }

  lemma NextMemberText(key: Bytes, value: Json, next: Members)
    requires Escape(key) == key
    ensures PrintMoreMembers(Member(key, value, next))
         == [',', '"'] + key + ['"', ':'] + Print(value) + PrintMoreMembers(next)
  {
    hide Escape, Print;
  }

  lemma SimpleText(items: Items, text: Bytes, n: nat)
    ensures Print(Arr(items)) == ['['] + PrintItems(items) + [']']
    ensures Print(Str(text)) == ['"'] + Escape(text) + ['"']
    ensures Print(Num(n)) == Decimal(n)
    ensures PrintMoreMembers(NoMember) == []
  {
    hide Escape, PrintItems, Decimal;
  }

  /** How the literals are made up. */
  lemma Literals()
    ensures OPEN_NAMED == ['{', '"'] + NAME + ['"', ':'] + ['"']
    ensures THEN_PDP == ['"'] + ([',', '"'] + PDP_PORTS + ['"', ':'] + ['['])
    ensures THEN_PTP == [']'] + ([',', '"'] + PTP_PORTS + ['"', ':'] + ['['])
    ensures THEN_COUNT == ['"'] + ([',', '"'] + USERCOUNT + ['"', ':'])
    ensures THEN_USERS == [',', '"'] + USERS + ['"', ':'] + ['[']
    ensures THEN_IDS == [',', '"'] + GAME_IDS + ['"', ':'] + ['[', '"']
    ensures THEN_GROUPS == ['"', ']'] + ([',', '"'] + GROUPS + ['"', ':'] + ['['])
    ensures OPEN_GAMES == ['{', '"'] + GAMES + ['"', ':'] + ['[']
    ensures CLOSE == [']'] + ['}']
  {
  }

  lemma UserGlue(name: Bytes, pdp: Bytes, ptp: Bytes)
    ensures ['{', '"'] + NAME + ['"', ':'] + (['"'] + name + ['"'])
            + ([',', '"'] + PDP_PORTS + ['"', ':'] + (['['] + pdp + [']'])
               + ([',', '"'] + PTP_PORTS + ['"', ':'] + (['['] + ptp + [']']) + [])) + ['}']
         == OPEN_NAMED + name + THEN_PDP + pdp + THEN_PTP + ptp + CLOSE
  {
    hide *;
    Literals();
    var a, b, c := ['{', '"'] + NAME + ['"', ':'], [',', '"'] + PDP_PORTS + ['"', ':'], [',', '"'] + PTP_PORTS + ['"', ':'];
    assert a + (['"'] + name + ['"']) == OPEN_NAMED + name + ['"'];
    assert c + (['['] + ptp + [']']) + [] == c + ['['] + ptp + [']'];
    assert b + (['['] + pdp + [']']) + (c + ['['] + ptp + [']']) == b + ['['] + pdp + (THEN_PTP + ptp + [']']);
  }

  lemma GroupGlue(name: Bytes, count: Bytes, users: Bytes)
    ensures ['{', '"'] + NAME + ['"', ':'] + (['"'] + name + ['"'])
            + ([',', '"'] + USERCOUNT + ['"', ':'] + count
               + ([',', '"'] + USERS + ['"', ':'] + (['['] + users + [']']) + [])) + ['}']
         == OPEN_NAMED + name + THEN_COUNT + count + THEN_USERS + users + CLOSE
  {
    hide *;
    Literals();
    var a, b, c := ['{', '"'] + NAME + ['"', ':'], [',', '"'] + USERCOUNT + ['"', ':'], [',', '"'] + USERS + ['"', ':'];
    assert a + (['"'] + name + ['"']) == OPEN_NAMED + name + ['"'];
    assert c + (['['] + users + [']']) + [] == THEN_USERS + users + [']'];
  }

  lemma GameGlue(name: Bytes, count: Bytes, code: Bytes, groups: Bytes)
    ensures ['{', '"'] + NAME + ['"', ':'] + (['"'] + name + ['"'])
            + ([',', '"'] + USERCOUNT + ['"', ':'] + count
               + ([',', '"'] + GAME_IDS + ['"', ':'] + (['[', '"'] + code + ['"', ']'])
                  + ([',', '"'] + GROUPS + ['"', ':'] + (['['] + groups + [']']) + []))) + ['}']
         == OPEN_NAMED + name + THEN_COUNT + count + THEN_IDS + code + THEN_GROUPS + groups + CLOSE
  {
    hide *;
    Literals();
    var a, b := ['{', '"'] + NAME + ['"', ':'], [',', '"'] + USERCOUNT + ['"', ':'];
    var c, d := [',', '"'] + GAME_IDS + ['"', ':'], [',', '"'] + GROUPS + ['"', ':'];
    assert a + (['"'] + name + ['"']) == OPEN_NAMED + name + ['"'];
    assert d + (['['] + groups + [']']) + [] == d + ['['] + groups + [']'];
    assert c + (['[', '"'] + code + ['"', ']']) + (d + ['['] + groups + [']'])
        == THEN_IDS + code + (THEN_GROUPS + groups + [']']);
  }

  lemma UserText(u: UserTree)
    ensures Print(UserDoc(u))
         == OPEN_NAMED + Escape(u.name) + THEN_PDP + PrintItems(PortItems(u.pdp))
            + THEN_PTP + PrintItems(PortItems(u.ptp)) + CLOSE
  {
    hide Escape, Print, PrintItems, PortItems, PrintMoreMembers;
    KeysArePlain();
    var pdp, ptp := PortItems(u.pdp), PortItems(u.ptp);
    SimpleText(pdp, u.name, 0);
    SimpleText(ptp, u.name, 0);
    NextMemberText(PTP_PORTS, Arr(ptp), NoMember);
    NextMemberText(PDP_PORTS, Arr(pdp), Member(PTP_PORTS, Arr(ptp), NoMember));
    FirstMemberText(NAME, Str(u.name), Member(PDP_PORTS, Arr(pdp), Member(PTP_PORTS, Arr(ptp), NoMember)));
    UserGlue(Escape(u.name), PrintItems(pdp), PrintItems(ptp));
  }

  lemma GroupText(g: GroupTree)
    ensures Print(GroupDoc(g))
         == OPEN_NAMED + Escape(g.name) + THEN_COUNT + Decimal(|g.users|)
            + THEN_USERS + PrintItems(UserItems(g.users)) + CLOSE
  {
    hide Escape, Print, PrintItems, UserItems, PrintMoreMembers, Decimal;
    KeysArePlain();
    var users := UserItems(g.users);
    SimpleText(users, g.name, |g.users|);
    NextMemberText(USERS, Arr(users), NoMember);
    NextMemberText(USERCOUNT, Num(|g.users|), Member(USERS, Arr(users), NoMember));
    FirstMemberText(NAME, Str(g.name), Member(USERCOUNT, Num(|g.users|), Member(USERS, Arr(users), NoMember)));
    GroupGlue(Escape(g.name), Decimal(|g.users|), PrintItems(users));
  }

  lemma OneItemText(code: Bytes)
    ensures Print(Arr(Item(Str(code), NoItem))) == ['[', '"'] + Escape(code) + ['"', ']']
  {
    hide Escape;
    assert PrintItems(Item(Str(code), NoItem)) == Print(Str(code));
  }

  lemma GameText(g: GameTree)
    ensures Print(GameDoc(g))
         == OPEN_NAMED + Escape(g.name) + THEN_COUNT + Decimal(g.userCount)
            + THEN_IDS + Escape(g.code) + THEN_GROUPS + PrintItems(GroupItems(g.groups)) + CLOSE
  {
    hide Escape, Print, PrintItems, GroupItems, PrintMoreMembers, Decimal;
    KeysArePlain();
    var groups, ids := GroupItems(g.groups), Arr(Item(Str(g.code), NoItem));
    SimpleText(groups, g.name, g.userCount);
    OneItemText(g.code);
    var last := Member(GROUPS, Arr(groups), NoMember);
    NextMemberText(GROUPS, Arr(groups), NoMember);
    NextMemberText(GAME_IDS, ids, last);
    NextMemberText(USERCOUNT, Num(g.userCount), Member(GAME_IDS, ids, last));
    FirstMemberText(NAME, Str(g.name), Member(USERCOUNT, Num(g.userCount), Member(GAME_IDS, ids, last)));
    GameGlue(Escape(g.name), Decimal(g.userCount), Escape(g.code), PrintItems(groups));
  }

  lemma PageText(page: seq<GameTree>)
    ensures Print(Doc(page)) == OPEN_GAMES + PrintItems(GameItems(page)) + CLOSE
  {
    hide Escape, Print, PrintItems, GameItems, PrintMoreMembers;
    KeysArePlain();
    SimpleText(GameItems(page), [], 0);
    FirstMemberText(GAMES, Arr(GameItems(page)), NoMember);
  }

  // ---- the nested loops of `build_status_json` ---------------------------------------------------

  const PDP_OPEN: Bytes := ",\"pdp_ports\":["
  const NO_PORTS: Bytes := ",\"pdp_ports\":[],\"ptp_ports\":[]"

  lemma PortLiterals()
    ensures THEN_PDP == ['"'] + PDP_OPEN
    ensures NO_PORTS == PDP_OPEN + THEN_PTP + [']']
    ensures CLOSE == [']'] + ['}']
  {
  }

  lemma NoPortsText()
    ensures PrintItems(PortItems([])) == []
  {
  }

  /** Appending the pieces one after the other is appending the whole. */
  lemma Pieces5(out: Bytes, a: Bytes, b: Bytes, c: Bytes, d: Bytes, e: Bytes)
    ensures out + (a + b + c + d + e) == out + a + b + c + d + e
  {
  }

  lemma Pieces7(out: Bytes, a: Bytes, b: Bytes, c: Bytes, d: Bytes, e: Bytes, f: Bytes, g: Bytes)
    ensures out + (a + b + c + d + e + f + g) == out + a + b + c + d + e + f + g
  {
    Pieces5(out, a, b, c, d, e);
    Associate(out, a + b + c + d + e, f);
    Associate(out, a + b + c + d + e + f, g);
  }

  lemma QuotePdp(out: Bytes)
    ensures out + ['"'] + PDP_OPEN == out + THEN_PDP
    ensures out + [']'] + ['}'] == out + CLOSE
  {
    hide PDP_OPEN, THEN_PDP, CLOSE;
    PortLiterals();
    Associate(out, ['"'], PDP_OPEN);
    Associate(out, [']'], ['}']);
  }

  lemma QuoteNoPorts(out: Bytes)
    ensures out + ['"'] + NO_PORTS + ['}'] == out + THEN_PDP + [] + THEN_PTP + [] + CLOSE
  {
    hide PDP_OPEN, THEN_PDP, CLOSE, NO_PORTS, THEN_PTP;
    PortLiterals();
  }

  /** One user with the ports that the relay's directory has for it. */
  method AppendUser(out: Bytes, u: GroupUser, relay: RelayDirectory) returns (r: Bytes)
    requires relay.Valid()
    ensures r == out + Print(UserDoc(UserShown(u, relay.by_mac_)))
  {
    ghost var t := UserShown(u, relay.by_mac_);
    UserText(t);
    NoPortsText();
    hide Escape, Print, PrintItems, PortItems, UserDoc, OPEN_NAMED, THEN_PDP, THEN_PTP, CLOSE, PDP_OPEN, NO_PORTS;
    Pieces7(out, OPEN_NAMED, Escape(u.name), THEN_PDP, PrintItems(PortItems(t.pdp)), THEN_PTP,
            PrintItems(PortItems(t.ptp)), CLOSE);
    r := AppendJsonEscaped(out + OPEN_NAMED, u.name);
    var ports := relay.Find(u.mac);
    if ports.Some? {
      QuotePdp(r);
      r := r + ['"'];
      r := AppendPortArray(r + PDP_OPEN, ports.value.pdp);
      r := AppendPortArray(r + THEN_PTP, ports.value.ptp);
      QuotePdp(r);
      r := r + [']'];
    } else {
      QuoteNoPorts(r);
      r := r + ['"'];
      r := r + NO_PORTS;
    }
    r := r + ['}'];
  }

  lemma UserItemsStep(us: seq<UserTree>, i: nat)
    requires i < |us|
    ensures UserItems(us[i..]) == Item(UserDoc(us[i]), UserItems(us[i + 1..]))
  {
    assert us[i..][0] == us[i] && us[i..][1..] == us[i + 1..];
  }

  method AppendUsers(out: Bytes, g: StatusGroup, relay: RelayDirectory) returns (r: Bytes)
    requires relay.Valid()
    ensures r == out + PrintItems(UserItems(GroupShown(g, relay.by_mac_).users))
  {
    ghost var us := GroupShown(g, relay.by_mac_).users;
    r := out;
    var first := true;
    var i := 0;
    assert us[0..] == us;
    while i < |g.users|
      invariant i <= |g.users| && (first <==> i == 0)
      invariant r + Remaining(UserItems(us[i..]), !first) == out + Remaining(UserItems(us), false)
    {
      hide Remaining, UserItems, UserDoc, UserShown, Comma;
      UserItemsStep(us, i);
      Written(r, UserDoc(us[i]), UserItems(us[i + 1..]), first);
      r := AppendComma(r, first);
      first := false;
      r := AppendUser(r, g.users[i], relay);
      i := i + 1;
    }
    assert us[i..] == [];
    RemainingNone(!first);
    assert r + [] == r;
  }

  method AppendGroup(out: Bytes, g: StatusGroup, relay: RelayDirectory) returns (r: Bytes)
    requires relay.Valid()
    ensures r == out + Print(GroupDoc(GroupShown(g, relay.by_mac_)))
  {
    GroupText(GroupShown(g, relay.by_mac_));
    hide Escape, Print, PrintItems, UserItems, Decimal, OPEN_NAMED, THEN_COUNT, THEN_USERS, CLOSE;
    Pieces7(out, OPEN_NAMED, Escape(g.name), THEN_COUNT, Decimal(|g.users|), THEN_USERS,
            PrintItems(UserItems(GroupShown(g, relay.by_mac_).users)), CLOSE);
    r := AppendJsonEscaped(out + OPEN_NAMED, g.name);
    r := r + THEN_COUNT + Decimal(|g.users|) + THEN_USERS;
    r := AppendUsers(r, g, relay);
    r := r + CLOSE;
  }

  lemma GroupItemsStep(gs: seq<GroupTree>, i: nat)
    requires i < |gs|
    ensures GroupItems(gs[i..]) == Item(GroupDoc(gs[i]), GroupItems(gs[i + 1..]))
  {
    assert gs[i..][0] == gs[i] && gs[i..][1..] == gs[i + 1..];
  }

  method AppendGroups(out: Bytes, game: StatusGame, relay: RelayDirectory) returns (r: Bytes)
    requires relay.Valid()
    ensures r == out + PrintItems(GroupItems(GameTreeOf(game, relay.by_mac_).groups))
  {
    ghost var gs := GameTreeOf(game, relay.by_mac_).groups;
    r := out;
    var first := true;
    var i := 0;
    assert gs[0..] == gs;
    while i < |game.groups|
      invariant i <= |game.groups| && (first <==> i == 0)
      invariant r + Remaining(GroupItems(gs[i..]), !first) == out + Remaining(GroupItems(gs), false)
    {
      hide Remaining, GroupItems, GroupDoc, GroupShown, Comma;
      GroupItemsStep(gs, i);
      Written(r, GroupDoc(gs[i]), GroupItems(gs[i + 1..]), first);
      r := AppendComma(r, first);
      first := false;
      r := AppendGroup(r, game.groups[i], relay);
      i := i + 1;
    }
    assert gs[i..] == [];
    RemainingNone(!first);
    assert r + [] == r;
  }

  method AppendGame(out: Bytes, game: StatusGame, relay: RelayDirectory) returns (r: Bytes)
    requires relay.Valid()
    ensures r == out + Print(GameDoc(GameTreeOf(game, relay.by_mac_)))
  {
    GameText(GameTreeOf(game, relay.by_mac_));
    hide Escape, Print, PrintItems, GroupItems, Decimal, OPEN_NAMED, THEN_COUNT, THEN_IDS, THEN_GROUPS, CLOSE;
    ghost var groups := PrintItems(GroupItems(GameTreeOf(game, relay.by_mac_).groups));
    ghost var head := OPEN_NAMED + Escape(game.name) + THEN_COUNT + Decimal(game.userCount) + THEN_IDS;
    Pieces5(out, OPEN_NAMED, Escape(game.name), THEN_COUNT, Decimal(game.userCount), THEN_IDS);
    Pieces5(out, head, Escape(game.code), THEN_GROUPS, groups, CLOSE);
    r := AppendJsonEscaped(out + OPEN_NAMED, game.name);
    r := AppendJsonEscaped(r + THEN_COUNT + Decimal(game.userCount) + THEN_IDS, game.code);
    r := AppendGroups(r + THEN_GROUPS, game, relay);
    r := r + CLOSE;
  }

  lemma GameItemsStep(gs: seq<GameTree>, i: nat)
    requires i < |gs|
    ensures GameItems(gs[i..]) == Item(GameDoc(gs[i]), GameItems(gs[i + 1..]))
  {
    assert gs[i..][0] == gs[i] && gs[i..][1..] == gs[i + 1..];
  }

  method AppendGames(out: Bytes, games: seq<StatusGame>, relay: RelayDirectory) returns (r: Bytes)
    requires relay.Valid()
    ensures r == out + PrintItems(GameItems(PageShown(games, relay.by_mac_)))
  {
    hide Remaining, GameItems, GameDoc, GameTreeOf, PageShown, Comma, Print, PrintItems, RelayDirectory.Valid;
    ghost var page := PageShown(games, relay.by_mac_);
    PageAt(games, relay.by_mac_);
    r := out;
    var first := true;
    var i := 0;
    assert page[0..] == page;
    NothingWritten(page);
    while i < |games|
      invariant i <= |games| && (first <==> i == 0)
      invariant r + Remaining(GameItems(page[i..]), !first) == out + Remaining(GameItems(page), false)
    {
      GameItemsStep(page, i);
      Written(r, GameDoc(page[i]), GameItems(page[i + 1..]), first);
      r := AppendComma(r, first);
      first := false;
      r := AppendGame(r, games[i], relay);
      i := i + 1;
    }
    assert page[i..] == [];
    NoGamesLeft(!first);
    assert r + [] == r;
  }

  lemma PageAt(games: seq<StatusGame>, table: map<Mac, PortSet>)
    ensures |PageShown(games, table)| == |games|
    ensures forall i :: 0 <= i < |games| ==> PageShown(games, table)[i] == GameTreeOf(games[i], table)
  {
    hide GameTreeOf;
  }

  lemma NothingWritten(page: seq<GameTree>)
    ensures Remaining(GameItems(page), false) == PrintItems(GameItems(page))
  {
    hide GameItems;
  }

  lemma NoGamesLeft(first: bool)
    ensures Remaining(GameItems([]), first) == []
  {
  }

  /** `build_status_json`, once the users are regrouped: the page is the JSON text of the tree. */
  method AppendPage(out: Bytes, games: seq<StatusGame>, relay: RelayDirectory) returns (r: Bytes)
    requires relay.Valid()
    ensures r == out + Print(Doc(PageShown(games, relay.by_mac_)))
  {
    ghost var page := PageShown(games, relay.by_mac_);
    PageText(page);
    hide Print, PrintItems, GameItems, PageShown, OPEN_GAMES, CLOSE;
    Associate(out, OPEN_GAMES, PrintItems(GameItems(page)));
    Associate(out, OPEN_GAMES + PrintItems(GameItems(page)), CLOSE);
    r := AppendGames(out + OPEN_GAMES, games, relay);
    r := r + CLOSE;
  }
}
