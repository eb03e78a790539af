/** Bonds do happen: the run that makes one, for every pair of endpoints. */
module RelayWitness {
  import opened Bytes
  import opened SessionNames
  import opened RelayDirectories
  import opened RelayModel
  import opened RelayInvariant
  import opened RelayFinish
  import opened RelayRegister
  import RelaySafety
  import opened RelayRuns
  import opened RelayTheorems

  function InitBytes(i: Init): (r: Bytes)
    requires i.kind < 0x1_0000_0000
    ensures |r| == 24
  {
    U32(i.kind) + AddrField(i.src.mac) + U16(i.src.port) + AddrField(i.dst.mac) + U16(i.dst.port)
  }

  /** The server reads back the init packet that a client packs. */
  lemma InitRoundTrip(i: Init)
    requires i.kind < 0x1_0000_0000
    ensures ParseInit(InitBytes(i)) == i
  {
    U32RoundTrip(i.kind);
    InitSlices(U32(i.kind), AddrField(i.src.mac), U16(i.src.port), AddrField(i.dst.mac), U16(i.dst.port));
    var r := InitBytes(i);
    assert r[4..10] == AddrField(i.src.mac)[..6];
    assert r[14..20] == AddrField(i.dst.mac)[..6];
  }

  lemma InitSlices(kind: Bytes, a: Bytes, p: Bytes, b: Bytes, q: Bytes)
    requires |kind| == 4 && |a| == 8 && |p| == 2 && |b| == 8 && |q| == 2
    ensures var r := kind + a + p + b + q;
            && |r| == 24 && r[..4] == kind && r[12..14] == p && r[22..24] == q
            && r[4..10] == a[..6] && r[14..20] == b[..6]
  {
  }

  /** A client arrives and sends its init packet. */
  function Arrival(s: Sid, i: Init): seq<Event>
    requires i.kind < 0x1_0000_0000
  {
    [Connected(s), InitDone(s, Some(InitBytes(i)), true)]
  }

  lemma ConnectedLooks(st: State, s: Sid)
    requires Inv(st) && s !in st.sess && st.active < MAX_SESSIONS
    ensures Enabled(st, Connected(s))
    ensures var r := Step(st, Connected(s));
            Inv(r) && r == Put(st, s, NEW_SESSION).(active := st.active + 1)
  {
    hide Inv;
    StepKeeps(st, Connected(s));
  }

  lemma InitEnabled(st: State, s: Sid, i: Init)
    requires Inv(st) && s in st.sess && st.sess[s].pc.ReadInit? && i.kind < 0x1_0000_0000
    ensures Enabled(st, InitDone(s, Some(InitBytes(i)), true))
    ensures Step(st, InitDone(s, Some(InitBytes(i)), true)) == Dispatch(st, s, i, true)
    ensures Inv(Dispatch(st, s, i, true)) && Newcomer(st, s)
  {
    hide *;
    InitRoundTrip(i);
    InitIsEnabled(st, s, InitBytes(i));
    InitSteps(st, s, InitBytes(i), true);
    StepKeeps(st, InitDone(s, Some(InitBytes(i)), true));
    FreshIsNewcomer(st, s);
  }

  lemma InitIsEnabled(st: State, s: Sid, raw: Bytes)
    requires s in st.sess && st.sess[s].pc.ReadInit? && |raw| == 24
    ensures Enabled(st, InitDone(s, Some(raw), true))
  {
  }

  lemma LeavingListener(st: State, s: Sid)
    requires s in st.sess && st.sess[s].pc.ReadSome?
    ensures Enabled(st, SomeRead(s, false)) && Step(st, SomeRead(s, false)) == Finish(st, s)
  {
    hide Finish;
  }

  lemma EnterLooks(st: State, s: Sid, n: Name, next: Pc)
    requires Inv(st) && Newcomer(st, s) && st.reg == map[] && st.dir == map[] && !IsPtpPipe(n)
    ensures var r := Enter(st, s, n, next);
            && r.reg == map[n := s] && r.dir == map[KeyOf(n) := s]
            && r.bonds == st.bonds && r.active == st.active && r.sess.Keys == st.sess.Keys
            && r.sess[s].pc == next
  {
    hide Locals, Origins, Pipes, AllGreeted, BondsOk, HalfOpen, Advertised, Counted, Register, NotWaiting;
    RegisterHasEffect(st, s, n, false, next);
  }

  lemma ConnectLooks(st: State, s: Sid, n: Name, l: Sid)
    requires Inv(st) && Newcomer(st, s) && n.ConnectName? && !st.sess[s].pc.AwaitListen?
    requires st.reg == map[ListenerOf(n) := l] && l in st.sess && l != s && KeyOf(n) !in st.dir
    requires st.sess[l].pc.ReadSome?
    ensures var r := EstablishConnect(st, s, n);
            && r.reg == st.reg[n := s] && r.dir == st.dir[KeyOf(n) := s]
            && r.bonds == st.bonds && r.active == st.active && r.sess.Keys == st.sess.Keys
            && !r.sess[s].established && r.sess[l].pc.ReadSome?
  {
    hide Locals, Origins, Pipes, AllGreeted, BondsOk, HalfOpen, Advertised, Counted, Register, NotWaiting;
    RegisterHasEffect(st, s, n, false, AwaitBond(false));
    assert Bystander(st, n, l, Register(st, s, n, false, AwaitBond(false)).sess[l]);
  }

  /** The listener goes away; the CONNECT it announced stays, still unbonded. */
  lemma ListenerGone(st: State, l: Sid, c: Sid, n: Name)
    requires Inv(st) && n.ConnectName? && l != c && l in st.sess && c in st.sess && st.sess[l].pc.ReadSome?
    requires st.reg == map[ListenerOf(n) := l][n := c]
    requires !st.sess[c].established
    ensures var r := Finish(st, l);
            && Inv(r) && r.reg == map[n := c] && r.dir == st.dir - {KeyOf(ListenerOf(n))}
            && r.bonds == st.bonds && r.active == st.active - 1 && r.sess.Keys == st.sess.Keys
            && !r.sess[c].established
  {
    hide Inv, Finish, FinishEffect;
    StopKeeps(st, l);
    RegisteredAs(st, l, ListenerOf(n));
    ListenerGoneTables(st, l, c, n, Finish(st, l)) by {
      FinishHasEffect(st, l);
    }
  }

  lemma RegisteredAs(st: State, s: Sid, n: Name)
    requires Inv(st) && n in st.reg && st.reg[n] == s
    ensures Index(st) && Counted(st)
    ensures s in st.sess && st.sess[s].name == n && Holder(st.sess[s])
  {
    assert Index(st) && Counted(st);
    hide Inv, Counted;
  }

  lemma ListenerGoneTables(st: State, l: Sid, c: Sid, n: Name, r: State)
    requires FinishEffect(st, l, r) && n.ConnectName? && l != c && c in st.sess
    requires Holder(st.sess[l]) && st.sess[l].name == ListenerOf(n)
    requires st.reg == map[ListenerOf(n) := l][n := c] && !st.sess[c].established
    ensures r.reg == map[n := c] && r.dir == st.dir - {KeyOf(ListenerOf(n))}
    ensures r.bonds == st.bonds && r.active == st.active - 1 && r.sess.Keys == st.sess.Keys
    ensures !r.sess[c].established
  {
    assert Calmed(st.sess[c], r.sess[c]);
  }

  /** The witness run, as far as the bond: LISTEN registers, CONNECT registers, LISTEN finishes. */
  function UpToTheBond(l: Endpoint, c: Endpoint): seq<Event> {
    Arrival(0, Init(1, l, c)) + Arrival(1, Init(2, c, l)) + [SomeRead(0, false)]
  }

  lemma FirstConnected()
    ensures Enabled(INITIAL, Connected(0))
    ensures var s1 := Step(INITIAL, Connected(0));
            && Inv(s1) && s1.sess.Keys == {0} && s1.reg == map[] && s1.dir == map[] && s1.bonds == {}
            && s1.active == 1 && s1.sess[0].pc == ReadInit
  {
    InitialInv();
    ConnectedLooks(INITIAL, 0);
    hide Inv, Step, Enabled;
  }

  /** The first client of all, under PDP or LISTEN. */
  lemma FirstArrival(i: Init, n: Name, next: Pc)
    requires if i.kind == 0 then n == PdpName(i.src) && next == ReadPdpHeader
             else i.kind == 1 && n == ListenName(i.src) && next == ReadSome
    ensures Schedulable(INITIAL, Arrival(0, i))
    ensures var st := Run(INITIAL, Arrival(0, i));
            && Inv(st) && st.reg == map[n := 0] && st.dir == map[KeyOf(n) := 0]
            && st.bonds == {} && st.active == 1 && st.sess.Keys == {0} && st.sess[0].pc == next
  {
    hide *;
    FirstConnected();
    FirstEnters(i, n, next);
    ArrivalIs(0, i);
    TwoSteps(INITIAL, Connected(0), InitDone(0, Some(InitBytes(i)), true));
  }

  lemma ArrivalIs(s: Sid, i: Init)
    requires i.kind < 0x1_0000_0000
    ensures Arrival(s, i) == [Connected(s), InitDone(s, Some(InitBytes(i)), true)]
  {
  }

  lemma FirstEnters(i: Init, n: Name, next: Pc)
    requires if i.kind == 0 then n == PdpName(i.src) && next == ReadPdpHeader
             else i.kind == 1 && n == ListenName(i.src) && next == ReadSome
    ensures Enabled(INITIAL, Connected(0))
    ensures Enabled(Step(INITIAL, Connected(0)), InitDone(0, Some(InitBytes(i)), true))
    ensures var r := Step(Step(INITIAL, Connected(0)), InitDone(0, Some(InitBytes(i)), true));
            && Inv(r) && r.reg == map[n := 0] && r.dir == map[KeyOf(n) := 0]
            && r.bonds == {} && r.active == 1 && r.sess.Keys == {0} && r.sess[0].pc == next
  {
    assert !IsPtpPipe(n);
    hide *;
    FirstConnected();
    var s1 := Step(INITIAL, Connected(0));
    InitEnabled(s1, 0, i);
    DispatchesTo(s1, 0, i, true);
    EnterLooks(s1, 0, n, next);
  }

  lemma ListenStage(l: Endpoint, c: Endpoint)
    ensures Schedulable(INITIAL, Arrival(0, Init(1, l, c)))
    ensures var st := Run(INITIAL, Arrival(0, Init(1, l, c)));
            && Inv(st) && st.reg == map[ListenName(l) := 0] && st.dir == map[KeyOf(ListenName(l)) := 0]
            && st.bonds == {} && st.active == 1 && st.sess.Keys == {0} && st.sess[0].pc == ReadSome
  {
    hide *;
    FirstArrival(Init(1, l, c), ListenName(l), ReadSome);
  }

  lemma TwoSteps(st: State, e: Event, f: Event)
    requires Enabled(st, e) && Enabled(Step(st, e), f)
    ensures Schedulable(st, [e, f]) && Run(st, [e, f]) == Step(Step(st, e), f)
  {
    hide Enabled, Step;
    var s1 := Step(st, e);
    var s2 := Step(s1, f);
    assert [e, f][1..] == [f] && [f][1..] == [];
    assert Schedulable(s2, []) && Run(s2, []) == s2;
    assert Schedulable(s1, [f]) && Run(s1, [f]) == s2;
  }

  /** Runs compose. */
  lemma {:induction false} RunAppends(st: State, es: seq<Event>, fs: seq<Event>)
    requires Schedulable(st, es) && Schedulable(Run(st, es), fs)
    ensures Schedulable(st, es + fs) && Run(st, es + fs) == Run(Run(st, es), fs)
    decreases |es|
  {
    hide Enabled, Step;
    if es == [] {
      assert es + fs == fs;
    } else {
      assert (es + fs)[0] == es[0] && (es + fs)[1..] == es[1..] + fs;
      RunAppends(Step(st, es[0]), es[1..], fs);
    }
  }

  lemma ConnectStage(st: State, l: Endpoint, c: Endpoint)
    requires l != c && Inv(st) && st.reg == map[ListenName(l) := 0] && st.dir == map[KeyOf(ListenName(l)) := 0]
    requires st.bonds == {} && st.active == 1 && st.sess.Keys == {0} && st.sess[0].pc == ReadSome
    ensures Schedulable(st, Arrival(1, Init(2, c, l)))
    ensures var r := Run(st, Arrival(1, Init(2, c, l))); var n := ConnectName(c, l);
            && Inv(r) && r.reg == map[ListenName(l) := 0][n := 1]
            && r.dir == map[KeyOf(ListenName(l)) := 0, KeyOf(n) := 1]
            && r.bonds == {} && r.active == 2 && r.sess.Keys == {0, 1}
            && r.sess[0].pc.ReadSome? && !r.sess[1].established
  {
    hide Inv, Step, Enabled, InitBytes, EstablishConnect, Newcomer, Dispatch, Run, Schedulable;
    ConnectedLooks(st, 1);
    var s1 := Step(st, Connected(1));
    var i := Init(2, c, l);
    InitEnabled(s1, 1, i);
    ConnectArrives(s1, 1, i, 0);
    TwoSteps(st, Connected(1), InitDone(1, Some(InitBytes(i)), true));
  }

  lemma ConnectArrives(st: State, s: Sid, i: Init, l: Sid)
    requires Inv(st) && Newcomer(st, s) && s in st.sess && st.sess[s].pc.ReadInit? && i.kind == 2
    requires st.reg == map[ListenName(i.dst) := l] && l in st.sess && l != s && st.sess[l].pc.ReadSome?
    requires KeyOf(ConnectName(i.src, i.dst)) !in st.dir
    ensures var r := Dispatch(st, s, i, true); var n := ConnectName(i.src, i.dst);
            && r.reg == st.reg[n := s] && r.dir == st.dir[KeyOf(n) := s]
            && r.bonds == st.bonds && r.active == st.active && r.sess.Keys == st.sess.Keys
            && !r.sess[s].established && r.sess[l].pc.ReadSome?
  {
    hide Inv, EstablishConnect, Newcomer, Dispatch;
    var n := ConnectName(i.src, i.dst);
    DispatchesTo(st, s, i, true);
    RelaySafety.RenameKeeps(st, s, n);
    ConnectLooks(Put(st, s, st.sess[s].(name := n)), s, n, l);
  }

  lemma LeaveStage(st: State, l: Endpoint, c: Endpoint)
    requires l != c && Inv(st) && st.reg == map[ListenName(l) := 0][ConnectName(c, l) := 1]
    requires st.dir == map[KeyOf(ListenName(l)) := 0, KeyOf(ConnectName(c, l)) := 1]
    requires st.bonds == {} && st.active == 2 && st.sess.Keys == {0, 1}
    requires st.sess[0].pc.ReadSome? && !st.sess[1].established
    ensures Schedulable(st, [SomeRead(0, false)])
    ensures var r := Run(st, [SomeRead(0, false)]); var n := ConnectName(c, l);
            && Inv(r) && r.reg == map[n := 1] && r.dir == map[KeyOf(n) := 1]
            && r.bonds == {} && r.active == 1 && r.sess.Keys == {0, 1} && !r.sess[1].established
  {
    hide Inv, Finish, Step, Enabled;
    ListenerGone(st, 0, 1, ConnectName(c, l));
    LeavingListener(st, 0);
    var e := SomeRead(0, false);
    assert [e][1..] == [] && Schedulable(Step(st, e), []);
  }

  lemma AcceptStage(st: State, l: Endpoint, c: Endpoint)
    requires l != c && Inv(st) && st.reg == map[ConnectName(c, l) := 1] && st.dir == map[KeyOf(ConnectName(c, l)) := 1]
    requires st.bonds == {} && st.active == 1 && st.sess.Keys == {0, 1} && !st.sess[1].established
    ensures Schedulable(st, Arrival(2, Init(3, l, c)))
    ensures Run(st, Arrival(2, Init(3, l, c))).bonds == {Bond(2, 1)}
  {
    hide Inv, Step, Enabled, InitBytes, Newcomer, Dispatch, Run, Schedulable, ParseInit;
    ConnectedLooks(st, 2);
    var s1 := Step(st, Connected(2));
    var i, n := Init(3, l, c), AcceptName(l, c);
    InitEnabled(s1, 2, i);
    InitRoundTrip(i);
    assert Bondable(s1, n) == Some(1);
    BondingNeedsFreePort(s1, 2, InitBytes(i), true, n);
    TwoSteps(st, Connected(2), InitDone(2, Some(InitBytes(i)), true));
  }

  /** For every two distinct endpoints there is a run in which they bond. */
  lemma BondsHappen(l: Endpoint, c: Endpoint)
    requires l != c
    ensures var es := UpToTheBond(l, c) + Arrival(2, Init(3, l, c));
            Schedulable(INITIAL, es) && Run(INITIAL, es).bonds == {Bond(2, 1)}
  {
    hide Inv, Schedulable, Run, Arrival;
    var a1, a2, a3, a4 := Arrival(0, Init(1, l, c)), Arrival(1, Init(2, c, l)), [SomeRead(0, false)], Arrival(2, Init(3, l, c));
    ListenStage(l, c);
    var s1 := Run(INITIAL, a1);
    ConnectStage(s1, l, c);
    RunAppends(INITIAL, a1, a2);
    var s2 := Run(s1, a2);
    LeaveStage(s2, l, c);
    RunAppends(INITIAL, a1 + a2, a3);
    AcceptStage(Run(s2, a3), l, c);
    RunAppends(INITIAL, a1 + a2 + a3, a4);
  }
}
