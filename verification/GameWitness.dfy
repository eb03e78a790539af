/** A run in which two clients meet in a group: what is said of groups is not said of nothing. */
module GameWitness {
  import opened Bytes
  import opened SessionNames
  import opened Packets
  import opened GameModel
  import opened GameInvariant
  import opened GameReader
  import opened GameRuns

  // ---- an outside world ------------------------------------------------------------------------

  ghost function ToSeq(s: set<Bytes>): (r: seq<Bytes>)
    ensures ListsOnce(r, s)
    decreases |s|
  {
    if s == {} then []
    else
      var k :| k in s;
      [k] + ToSeq(s - {k})
  }

  /** No crosslinks, and tables walked in some order. */
  ghost function Plain(): (o: Oracle)
    ensures Faithful(o)
    ensures forall t, code :: o.link(t, code) == code
  {
    Oracle((t, code) => code, (t, s) => ToSeq(s))
  }

  // ---- a client that logs in and joins -----------------------------------------------------------

  function LoginBytes(mac: Mac, name: RawNick, code: RawCode): Bytes { EncodeCommand(Login(mac, name, code)) }

  function ConnectBytes(raw: RawGroup): Bytes { EncodeCommand(Connect(raw)) }

  lemma LexLogin(mac: Mac, name: RawNick, code: RawCode, rest: Bytes)
    ensures |LoginBytes(mac, name, code)| == 144
    ensures Lex(false, LoginBytes(mac, name, code) + rest) == Got(Login(mac, name, code), 144)
    ensures (LoginBytes(mac, name, code) + rest)[144..] == rest
  {
    var b := LoginBytes(mac, name, code) + rest;
    assert b[1..7] == mac && b[7..135] == name && b[135..144] == code;
  }

  lemma LexConnect(raw: RawGroup)
    ensures Lex(true, ConnectBytes(raw)) == Got(Connect(raw), 9) && ConnectBytes(raw)[9..] == []
  {
    assert ConnectBytes(raw)[1..9] == raw;
  }

  lemma DrainOnce(h: Hub, s: Sid, c: Command, size: nat, o: Oracle)
    requires s in h.users && h.users[s].rx != [] && !h.users[s].closed
    requires Lex(h.users[s].game.Some?, h.users[s].rx) == Got(c, size) && Obey(h, s, c, size, o).1
    ensures Drain(h, s, o) == Drain(Obey(h, s, c, size, o).0, s, o)
  {
    hide Obey, Lex;
  }

  lemma DrainNone(h: Hub, s: Sid, o: Oracle)
    requires s in h.users && h.users[s].rx == []
    ensures Drain(h, s, o) == h
  {
  }

  lemma LoginGoes(h: Hub, s: Sid, mac: Mac, name: RawNick, code: RawCode, o: Oracle)
    requires s in h.users && !h.users[s].closed && h.users[s].game.None? && h.users[s].group.None?
    requires 144 <= |h.users[s].rx| && ValidLogin(mac, name, code)
    ensures var (r, ok) := Obey(h, s, Login(mac, name, code), 144, o);
            && ok && Confined(h, s, r) && !r.users[s].closed
            && r.users[s].rx == h.users[s].rx[144..]
            && r.users[s].game == Some(UpToNul(o.link(h.clock + 1, code))) && r.users[s].group.None?
  {
    hide ValidLogin, WorksFor, Confined, HandleLogin, OnlySentTo, Posted, Accept, PhaseOf, SameIntake, ClosedUser;
    AcceptsLogin(h.users[s], mac, name, code);
    ObeyAgrees(h, s, Login(mac, name, code), 144, o);
    var eaten := PutUser(h, s, Eaten(h.users[s], 144));
    LoginPlaces(eaten.(clock := eaten.clock + 1), s, mac, name, code, o);
  }

  lemma AcceptsLogin(u: User, mac: Mac, name: RawNick, code: RawCode)
    requires u.game.None? && ValidLogin(mac, name, code)
    ensures Accept(PhaseOf(u), Login(mac, name, code)).Some?
  {
    hide ValidLogin;
  }

  lemma LoginPlaces(h: Hub, s: Sid, mac: Mac, name: RawNick, code: RawCode, o: Oracle)
    requires s in h.users && h.users[s].game.None? && h.users[s].group.None? && ValidLogin(mac, name, code)
    ensures var (r, ok) := HandleLogin(h, s, mac, name, code, o);
            && ok && s in r.users && r.users[s].group.None?
            && r.users[s].game == Some(UpToNul(o.link(h.clock, code)))
  {
    hide ValidLogin, WorksFor, GameOrNew;
  }

  lemma ConnectGoes(h: Hub, s: Sid, raw: RawGroup, o: Oracle)
    requires s in h.users && !h.users[s].closed && h.users[s].game.Some? && h.users[s].group.None?
    requires 9 <= |h.users[s].rx| && ValidGroup(raw)
    ensures var (r, ok) := Obey(h, s, Connect(raw), 9, o);
            && ok && Confined(h, s, r) && !r.users[s].closed
            && r.users[s].rx == h.users[s].rx[9..]
            && r.users[s].game == h.users[s].game && r.users[s].group == Some(UpToNul(raw))
  {
    ObeyAgrees(h, s, Connect(raw), 9, o);
    hide ValidGroup, WorksFor, Confined, GameOrNew, PutGroup, Introduce;
  }

  lemma DrainEnters(h: Hub, s: Sid, mac: Mac, name: RawNick, code: RawCode, raw: RawGroup, o: Oracle)
    requires s in h.users && !h.users[s].closed && h.users[s].game.None? && h.users[s].group.None?
    requires h.users[s].rx == LoginBytes(mac, name, code) + ConnectBytes(raw)
    requires ValidLogin(mac, name, code) && ValidGroup(raw)
    ensures var r := Drain(h, s, o);
            && Confined(h, s, r) && !r.users[s].closed && r.users[s].rx == []
            && r.users[s].game == Some(UpToNul(o.link(h.clock + 1, code))) && r.users[s].group == Some(UpToNul(raw))
  {
    hide Obey, Drain, Lex, ValidLogin, ValidGroup, OnlySentTo, LoginBytes, ConnectBytes;
    LexLogin(mac, name, code, ConnectBytes(raw));
    LexConnect(raw);
    LoginGoes(h, s, mac, name, code, o);
    DrainOnce(h, s, Login(mac, name, code), 144, o);
    var q := Obey(h, s, Login(mac, name, code), 144, o).0;
    ConnectGoes(q, s, raw, o);
    DrainOnce(q, s, Connect(raw), 9, o);
    var r := Obey(q, s, Connect(raw), 9, o).0;
    DrainNone(r, s, o);
    ConfinedTrans(h, s, q, r);
  }

  ghost predicate Idle(u: User) {
    u.game.None? && u.group.None? && !u.closed && !u.reaped && u.rx == []
  }

  lemma StillIdle(u: User, v: User)
    requires Idle(u) && OnlySentTo(u, v)
    ensures Idle(v) && v.ip == u.ip
  {
  }

  /** One read that brings a login and a connect puts the client into its group. */
  lemma EnterGroup(h: Hub, s: Sid, mac: Mac, name: RawNick, code: RawCode, raw: RawGroup, o: Oracle)
    requires s in h.users && Idle(h.users[s]) && ValidLogin(mac, name, code) && ValidGroup(raw)
    ensures Enabled(h, Chunk(s, LoginBytes(mac, name, code) + ConnectBytes(raw)))
    ensures Entered(h, s, Step(h, Chunk(s, LoginBytes(mac, name, code) + ConnectBytes(raw)), o),
                    UpToNul(o.link(h.clock + 1, code)), UpToNul(raw))
  {
    hide Drain, ValidLogin, ValidGroup, OnlySentTo, LoginBytes, ConnectBytes, Step, Enabled, Received, Confined,
      Entered;
    var b := LoginBytes(mac, name, code) + ConnectBytes(raw);
    BytesFit(mac, name, code, raw);
    var got := PutUser(h, s, Received(h.users[s], b));
    ChunkDrains(h, s, b, o);
    DrainEnters(got, s, mac, name, code, raw, o);
    EnteredOf(h, s, got, Drain(got, s, o), UpToNul(o.link(h.clock + 1, code)), UpToNul(raw));
  }

  lemma BytesFit(mac: Mac, name: RawNick, code: RawCode, raw: RawGroup)
    ensures |LoginBytes(mac, name, code) + ConnectBytes(raw)| == 153
  {
  }

  lemma ChunkDrains(h: Hub, s: Sid, b: Bytes, o: Oracle)
    requires s in h.users && Idle(h.users[s]) && 0 < |b| <= RX_SIZE
    ensures Enabled(h, Chunk(s, b))
    ensures var got := PutUser(h, s, Received(h.users[s], b));
            && got.clock == h.clock && got.users[s].rx == b && got.users[s].ip == h.users[s].ip
            && !got.users[s].closed && got.users[s].game.None? && got.users[s].group.None?
            && (var r := Drain(got, s, o);
                !r.users[s].closed && r.users[s].rx == [] ==> Step(h, Chunk(s, b), o) == r)
  {
    hide Drain, EndReader;
    assert [] + b == b;
  }

  lemma EnteredOf(h: Hub, s: Sid, got: Hub, r: Hub, g: Bytes, k: Bytes)
    requires s in h.users && s in got.users && got == PutUser(h, s, got.users[s]) && got.users[s].ip == h.users[s].ip
    requires Confined(got, s, r)
    requires !r.users[s].closed && r.users[s].game == Some(g) && r.users[s].group == Some(k)
    ensures Entered(h, s, r, g, k)
  {
    hide OnlySentTo;
    forall t | t in h.users && t != s ensures OnlySentTo(h.users[t], r.users[t]) {
      assert got.users[t] == h.users[t];
    }
  }

  ghost predicate Entered(h: Hub, s: Sid, r: Hub, g: Bytes, k: Bytes) {
    && s in h.users && r.users.Keys == h.users.Keys
    && !r.users[s].closed && r.users[s].game == Some(g) && r.users[s].group == Some(k)
    && r.users[s].ip == h.users[s].ip
    && (forall t :: t in h.users && t != s ==> OnlySentTo(h.users[t], r.users[t]))
  }

  // ---- the run -----------------------------------------------------------------------------------

  ghost predicate Meet(h: Hub, s: Sid, t: Sid) {
    && s in h.users && t in h.users && s != t && !h.users[s].closed && !h.users[t].closed
    && h.users[s].game.Some? && h.users[s].group.Some?
    && h.users[t].game == h.users[s].game && h.users[t].group == h.users[s].group
  }

  lemma OneTurn(h: Hub, e: Event, o: Oracle, rest: seq<Turn>)
    requires Faithful(o) && Enabled(h, e) && Schedulable(Step(h, e, o), rest)
    ensures Schedulable(h, [(e, o)] + rest) && Run(h, [(e, o)] + rest) == Run(Step(h, e, o), rest)
  {
    hide Step, Enabled, Faithful;
    assert ([(e, o)] + rest)[1..] == rest;
  }

  lemma Opened(h: Hub, s: Sid, ip: Ip, o: Oracle)
    requires s !in h.users && h.connections < SERVER_USER_MAXIMUM
    ensures Enabled(h, Open(s, ip))
    ensures var r := Step(h, Open(s, ip), o);
            && r.users == h.users[s := NewUser(ip)] && r.connections == h.connections + 1 && r.clock == h.clock
            && Idle(r.users[s]) && r.users[s].ip == ip
  {
  }

  lemma MeetAtLast(h: Hub, r: Hub, q: Hub, g: Bytes, k: Bytes)
    requires Entered(h, 0, r, g, k) && Entered(r, 1, q, g, k)
    ensures Meet(q, 0, 1) && q.users[0].ip == h.users[0].ip && q.users[1].ip == r.users[1].ip
  {
  }

  lemma BystanderIdle(h: Hub, s: Sid, r: Hub, g: Bytes, k: Bytes, t: Sid)
    requires Entered(h, s, r, g, k) && t in h.users && t != s && Idle(h.users[t])
    ensures t in r.users && Idle(r.users[t]) && r.users[t].ip == h.users[t].ip
  {
    StillIdle(h.users[t], r.users[t]);
  }

  /** Any two clients, with any addresses, can come to be in the same group. */
  lemma GroupsHappen(ip: Ip, ip': Ip, mac: Mac, mac': Mac, name: RawNick, name': RawNick, code: RawCode, raw: RawGroup)
    requires ValidLogin(mac, name, code) && ValidLogin(mac', name', code) && ValidGroup(raw)
    ensures exists h :: Reachable(h) && Meet(h, 0, 1) && h.users[0].ip == ip && h.users[1].ip == ip'
  {
    hide Step, Enabled, Faithful, ValidLogin, ValidGroup, Idle, LoginBytes, ConnectBytes, NewUser, Meet, Entered,
      Schedulable, Run;
    var o := Plain();
    Opened(EMPTY_HUB, 0, ip, o);
    var h1 := Step(EMPTY_HUB, Open(0, ip), o);
    Opened(h1, 1, ip', o);
    var h2 := Step(h1, Open(1, ip'), o);
    var e2 := Chunk(0, LoginBytes(mac, name, code) + ConnectBytes(raw));
    var e3 := Chunk(1, LoginBytes(mac', name', code) + ConnectBytes(raw));
    var g, k := UpToNul(code), UpToNul(raw);
    EnterGroup(h2, 0, mac, name, code, raw, o);
    var h3 := Step(h2, e2, o);
    BystanderIdle(h2, 0, h3, g, k, 1);
    EnterGroup(h3, 1, mac', name', code, raw, o);
    var h4 := Step(h3, e3, o);
    MeetAtLast(h2, h3, h4, g, k);
    NoTurns(h4);
    OneTurn(h3, e3, o, []);
    OneTurn(h2, e2, o, [(e3, o)] + []);
    OneTurn(h1, Open(1, ip'), o, [(e2, o)] + ([(e3, o)] + []));
    OneTurn(EMPTY_HUB, Open(0, ip), o, [(Open(1, ip'), o)] + ([(e2, o)] + ([(e3, o)] + [])));
    RunReaches(h4, [(Open(0, ip), o)] + ([(Open(1, ip'), o)] + ([(e2, o)] + ([(e3, o)] + []))));
  }

  lemma NoTurns(h: Hub)
    ensures Schedulable(h, []) && Run(h, []) == h
  {
  }

  lemma RunReaches(h: Hub, turns: seq<Turn>)
    requires Schedulable(EMPTY_HUB, turns) && Run(EMPTY_HUB, turns) == h
    ensures Reachable(h)
  {
    hide Schedulable, Run;
  }
}
