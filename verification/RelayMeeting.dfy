/** Runs in which a CONNECT comes before its listener, and before its peer's notice. */
module RelayMeeting {
  import opened Bytes
  import opened SessionNames
  import opened RelayDirectories
  import opened RelayModel
  import opened RelayInvariant
  import opened RelayRegister
  import opened RelayHistory
  import opened RelayDatagrams
  import opened RelayRuns
  import opened RelayTheorems
  import opened RelayPorts
  import opened RelayReach
  import opened RelayConnects
  import opened RelayLimits
  import opened RelayGreeting
  import opened RelayWire
  import opened RelayWitness

  // ---- a CONNECT that is early -------------------------------------------------------------------

  /** A CONNECT arrives before its listener and waits, the listener registers, the CONNECT resumes. */
  function EarlyConnect(c: Endpoint, l: Endpoint): seq<Event> {
    Arrival(0, Init(2, c, l)) + Arrival(1, Init(1, l, c)) + [ListenResume(0)]
  }

  /** Session 0 waits for the listener, and that is all there is. */
  ghost predicate EarlyWaits(st: State, c: Endpoint, l: Endpoint) {
    && Inv(st) && st.sess.Keys == {0} && st.reg == map[] && st.dir == map[] && st.active == 1
    && st.sess[0].pc == AwaitListen(false) && st.sess[0].name == ConnectName(c, l)
    && ListenName(l) in st.waiters && 0 in st.waiters[ListenName(l)]
  }

  lemma InitSent(st: State, s: Sid, i: Init)
    requires Inv(st) && s in st.sess && st.sess[s].pc.ReadInit? && i.kind < 4
    ensures var e := InitDone(s, Some(InitBytes(i)), true);
            && Enabled(st, e) && Inv(Step(st, e)) && |InitBytes(i)| == 24 && ParseInit(InitBytes(i)) == i
            && Registers(st, e) == Entering(st, i)
  {
    hide Inv, Dispatch, Entering, Newcomer, InitBytes, ParseInit;
    InitEnabled(st, s, i);
    InitRoundTrip(i);
  }

  lemma WaitStage(c: Endpoint, l: Endpoint)
    ensures Schedulable(INITIAL, Arrival(0, Init(2, c, l)))
    ensures EarlyWaits(Run(INITIAL, Arrival(0, Init(2, c, l))), c, l)
  {
    hide *;
    var i := Init(2, c, l);
    FirstConnected();
    var s1 := Step(INITIAL, Connected(0));
    InitSent(s1, 0, i);
    ConnectDecides(s1, 0, InitBytes(i), true);
    StillCounted(s1, Step(s1, InitDone(0, Some(InitBytes(i)), true)), c, l);
    ArrivalIs(0, i);
    TwoSteps(INITIAL, Connected(0), InitDone(0, Some(InitBytes(i)), true));
  }

  lemma StillCounted(st: State, q: State, c: Endpoint, l: Endpoint)
    requires Inv(q) && st.sess.Keys == {0} && st.reg == map[] && st.dir == map[] && st.active == 1
    requires JustWaits(st, 0, ConnectName(c, l), ListenName(l), q)
    ensures EarlyWaits(q, c, l)
  {
    hide Inv;
  }

  /** The listener is registered, and the CONNECT has been woken. */
  ghost predicate EarlyWoken(st: State, c: Endpoint, l: Endpoint) {
    && Inv(st) && st.sess.Keys == {0, 1} && st.reg == map[ListenName(l) := 1] && st.dir == map[KeyOf(ListenName(l)) := 1]
    && st.sess[0].pc == AwaitListen(true) && st.sess[0].name == ConnectName(c, l)
    && st.sess[1].log == [] && !st.sess[1].closed
  }

  lemma ListenerComes(st: State, c: Endpoint, l: Endpoint)
    requires Inv(st) && st.sess.Keys == {0, 1} && st.reg == map[] && st.dir == map[] && st.sess[1].pc.ReadInit?
    requires st.sess[0].pc == AwaitListen(false) && st.sess[0].name == ConnectName(c, l)
    requires ListenName(l) in st.waiters && 0 in st.waiters[ListenName(l)]
    ensures var e := InitDone(1, Some(InitBytes(Init(1, l, c))), true);
            Enabled(st, e) && EarlyWoken(Step(st, e), c, l)
  {
    var i, n := Init(1, l, c), ListenName(l);
    var e := InitDone(1, Some(InitBytes(i)), true);
    EnteringListener(st, i);
    hide *;
    InitSent(st, 1, i);
    StepOutcome(st, e, n);
    WaitersAreWoken(st, e, n, 0);
    RegistrantBegins(st, e, n);
    SameKeys(st, e);
    StepKeeps(st, e);
    WokenIs(st, Step(st, e), c, l);
  }

  lemma EnteringListener(st: State, i: Init)
    requires i.kind == 1
    ensures Entering(st, i) == Some(ListenName(i.src)) && ListenName(i.src).ListenName?
  {
  }

  lemma WokenIs(st: State, q: State, c: Endpoint, l: Endpoint)
    requires Inv(q) && st.sess.Keys == {0, 1} == q.sess.Keys && st.reg == map[] && st.dir == map[]
    requires Outcome(st, 1, ListenName(l), q) && Begins(q.sess[1], 1, ListenName(l))
    requires q.sess[0].pc == AwaitListen(true) && q.sess[0].name == ConnectName(c, l)
    ensures EarlyWoken(q, c, l)
  {
    hide Inv, KeyOf;
  }

  lemma SameKeys(st: State, e: Event)
    requires Inv(st) && Enabled(st, e) && e.s in st.sess
    ensures Step(st, e).sess.Keys == st.sess.Keys
  {
    hide *;
    StepActs(st, e);
    HandedKeys(st, e);
    ActsOnly(Handed(st, e), e.s, Step(st, e));
  }

  lemma ActsOnly(st: State, s: Sid, q: State)
    requires Acts(st, s, q) && s in st.sess
    ensures q.sess.Keys == st.sess.Keys
  {
    hide Echo;
  }

  lemma ListenerArrives(st: State, c: Endpoint, l: Endpoint)
    requires EarlyWaits(st, c, l)
    ensures Schedulable(st, Arrival(1, Init(1, l, c)))
    ensures EarlyWoken(Run(st, Arrival(1, Init(1, l, c))), c, l)
  {
    ConnectedNext(st, c, l);
    hide *;
    var i := Init(1, l, c);
    var s1 := Step(st, Connected(1));
    ListenerComes(s1, c, l);
    ArrivalIs(1, i);
    TwoSteps(st, Connected(1), InitDone(1, Some(InitBytes(i)), true));
  }

  lemma ConnectedNext(st: State, c: Endpoint, l: Endpoint)
    requires EarlyWaits(st, c, l)
    ensures Enabled(st, Connected(1))
    ensures var q := Step(st, Connected(1));
            && Inv(q) && q.sess.Keys == {0, 1} && q.reg == map[] && q.dir == map[] && q.sess[1].pc.ReadInit?
            && q.sess[0].pc == AwaitListen(false) && q.sess[0].name == ConnectName(c, l)
            && ListenName(l) in q.waiters && 0 in q.waiters[ListenName(l)]
  {
    hide Inv, Step, Enabled;
    ConnectedLooks(st, 1);
  }

  /** Both are in the index, the listener has been told, and the CONNECT waits for its bond. */
  ghost predicate Met(st: State, c: Endpoint, l: Endpoint) {
    && st.sess.Keys == {0, 1} && st.reg == map[ListenName(l) := 1][ConnectName(c, l) := 0]
    && st.sess[1].log == [Sent(0, Notice(c))] && st.sess[0].pc == AwaitBond(false) && !st.sess[0].closed
  }

  lemma ResumeStage(st: State, c: Endpoint, l: Endpoint)
    requires EarlyWoken(st, c, l) && c != l
    ensures Enabled(st, ListenResume(0)) && Met(Step(st, ListenResume(0)), c, l)
  {
    EarlyFacts(st, c, l);
    hide *;
    var e, n := ListenResume(0), ConnectName(c, l);
    StepOutcome(st, e, n);
    PeersAreTold(st, e, n, 1);
    RegistrantBegins(st, e, n);
    SameKeys(st, e);
    MetAtLast(st, Step(st, e), c, l);
  }

  lemma EarlyFacts(st: State, c: Endpoint, l: Endpoint)
    requires EarlyWoken(st, c, l) && c != l
    ensures var e, n := ListenResume(0), ConnectName(c, l);
            && e.s == 0 && Inv(st) && Enabled(st, e) && Registers(st, e) == Some(n) && KeyOf(n) !in st.dir
            && 0 in st.sess && 1 in st.sess
  {
    hide Inv;
    assert KeyOf(ConnectName(c, l)) != KeyOf(ListenName(l));
  }

  lemma MetAtLast(st: State, q: State, c: Endpoint, l: Endpoint)
    requires EarlyWoken(st, c, l) && q.sess.Keys == st.sess.Keys && KeyOf(ConnectName(c, l)) !in st.dir
    requires 0 in q.sess && 1 in q.sess && 1 in st.sess
    requires Outcome(st, 0, ConnectName(c, l), q) && Begins(q.sess[0], 0, ConnectName(c, l))
    requires Tells(st, 0, ConnectName(c, l), 1, q.sess[1])
    ensures Met(q, c, l)
  {
    hide Inv, KeyOf, Peer;
    assert [] + [Sent(0, Notice(c))] == [Sent(0, Notice(c))];
  }

  /** An early CONNECT comes to its listener: for every two distinct endpoints there is such a run. */
  lemma EarlyConnectMeets(c: Endpoint, l: Endpoint)
    requires c != l
    ensures Schedulable(INITIAL, EarlyConnect(c, l)) && Met(Run(INITIAL, EarlyConnect(c, l)), c, l)
  {
    hide EarlyWaits, EarlyWoken, Met, Schedulable, Run, Arrival, Step, Enabled;
    var a1, a2 := Arrival(0, Init(2, c, l)), Arrival(1, Init(1, l, c));
    WaitStage(c, l);
    var s1 := Run(INITIAL, a1);
    ListenerArrives(s1, c, l);
    RunAppends(INITIAL, a1, a2);
    var s2 := Run(s1, a2);
    ResumeStage(s2, c, l);
    OneStep(s2, ListenResume(0));
    RunAppends(INITIAL, a1 + a2, [ListenResume(0)]);
  }

  lemma OneStep(st: State, e: Event)
    requires Enabled(st, e)
    ensures Schedulable(st, [e]) && Run(st, [e]) == Step(st, e)
  {
    hide Enabled, Step;
    assert [e][1..] == [];
    assert Schedulable(Step(st, e), []);
  }

  // ---- one arrival after another -----------------------------------------------------------------

  lemma FewSessions(st: State, k: nat)
    requires Inv(st) && |st.sess.Keys| <= k
    ensures st.active <= k
  {
    ShapeParts(st);
    hide Inv, Index, Waiting;
    UnfinishedAreSessions(st.sess);
  }

  lemma UnfinishedAreSessions(sess: map<Sid, Session>)
    ensures |Unfinished(sess)| <= |sess.Keys|
  {
    SubsetSize(Unfinished(sess), sess.Keys);
  }

  lemma {:induction false} SubsetSize(a: set<Sid>, b: set<Sid>)
    requires a <= b
    ensures |a| <= |b|
    decreases |a|
  {
    if a != {} {
      var x :| x in a;
      SubsetSize(a - {x}, b - {x});
    }
  }

  /** What an arrival that registers `n` makes of everything. */
  ghost predicate ArrivesAs(st: State, s: Sid, n: Name, q: State) {
    && Inv(q) && q.sess.Keys == st.sess.Keys + {s} && Outcome(st, s, n, q) && AllTouched(st, s, n, q)
    && (KeyOf(n) !in st.dir ==> s in q.sess && Begins(q.sess[s], s, n))
  }

  ghost predicate AllTouched(st: State, s: Sid, n: Name, q: State) {
    forall t :: t in st.sess && t != s ==> t in q.sess && Touched(st, s, n, t, q.sess[t])
  }

  ghost predicate Touched(st: State, s: Sid, n: Name, t: Sid, y: Session) {
    if KeyOf(n) in st.dir then TakenReach(st, n, t, y) else FreeReach(st, s, n, t, y)
  }

  /** `b` is `st` with the connection of `s` let in. */
  ghost predicate LetIn(st: State, s: Sid, b: State) {
    && s !in st.sess && b == st.(sess := st.sess[s := NEW_SESSION], active := st.active + 1)
    && forall n :: n in st.reg ==> st.reg[n] in st.sess
  }

  lemma ConnectedLetsIn(st: State, s: Sid)
    requires Inv(st) && s !in st.sess && |st.sess.Keys| < 100
    ensures Enabled(st, Connected(s)) && Inv(Step(st, Connected(s))) && LetIn(st, s, Step(st, Connected(s)))
  {
    hide Inv, Step, Enabled;
    FewSessions(st, 99);
    ConnectedLooks(st, s);
    IndexIsIn(st);
  }

  lemma LetInLooks(st: State, s: Sid, b: State)
    requires LetIn(st, s, b)
    ensures s in b.sess && b.sess[s].pc.ReadInit? && b.sess.Keys == st.sess.Keys + {s} && b.reg == st.reg && b.dir == st.dir
  {
  }

  lemma SameEntering(st: State, s: Sid, b: State, i: Init)
    requires LetIn(st, s, b)
    ensures Entering(b, i) == Entering(st, i)
  {
  }

  lemma IndexIsIn(st: State)
    requires Inv(st)
    ensures forall n :: n in st.reg ==> st.reg[n] in st.sess
  {
    ShapeParts(st);
    hide Inv, Waiting, Counted;
  }

  lemma TouchedBefore(st: State, s: Sid, b: State, n: Name, t: Sid, y: Session)
    requires LetIn(st, s, b) && t in st.sess && Touched(b, s, n, t, y)
    ensures Touched(st, s, n, t, y)
  {
    hide KeyOf, Queued, Closed;
  }

  lemma SameOutcomeBefore(st: State, b: State, s: Sid, n: Name, q: State)
    requires Outcome(b, s, n, q) && b.reg == st.reg && b.dir == st.dir
    ensures Outcome(st, s, n, q)
  {
    hide KeyOf, Peer;
  }

  lemma TouchedIs(st: State, s: Sid, n: Name, t: Sid, y: Session)
    requires if KeyOf(n) in st.dir then TakenReach(st, n, t, y) else FreeReach(st, s, n, t, y)
    ensures Touched(st, s, n, t, y)
  {
  }

  /** What the init packet makes of everything. */
  ghost predicate RegistersAs(b: State, s: Sid, n: Name, q: State) {
    && Inv(q) && q.sess.Keys == b.sess.Keys && Outcome(b, s, n, q) && AllTouched(b, s, n, q)
    && (KeyOf(n) !in b.dir ==> s in q.sess && Begins(q.sess[s], s, n))
  }

  lemma StepTouches(b: State, e: Event, n: Name)
    requires Inv(b) && Enabled(b, e) && Registers(b, e) == Some(n)
    ensures AllTouched(b, e.s, n, Step(b, e))
  {
    hide Inv, Step, Enabled, KeyOf, Registers, Touched, TakenReach, FreeReach;
    forall t | t in b.sess && t != e.s ensures t in Step(b, e).sess && Touched(b, e.s, n, t, Step(b, e).sess[t]) {
      RegistrationReaches(b, e, n, t);
      TouchedIs(b, e.s, n, t, Step(b, e).sess[t]);
    }
  }

  lemma RegistersAsIs(b: State, s: Sid, n: Name, q: State)
    requires Inv(q) && q.sess.Keys == b.sess.Keys && Outcome(b, s, n, q) && AllTouched(b, s, n, q)
    requires KeyOf(n) !in b.dir ==> s in q.sess && Begins(q.sess[s], s, n)
    ensures RegistersAs(b, s, n, q)
  {
    hide Inv, Outcome, AllTouched, Begins, KeyOf;
  }

  lemma InitRegisters(b: State, s: Sid, i: Init, n: Name)
    requires Inv(b) && s in b.sess && b.sess[s].pc.ReadInit? && i.kind < 4 && Entering(b, i) == Some(n)
    ensures var e := InitDone(s, Some(InitBytes(i)), true); Enabled(b, e) && RegistersAs(b, s, n, Step(b, e))
  {
    hide *;
    var e := InitDone(s, Some(InitBytes(i)), true);
    InitSent(b, s, i);
    StepOutcome(b, e, n);
    SameKeys(b, e);
    if KeyOf(n) !in b.dir { RegistrantBegins(b, e, n); }
    StepTouches(b, e, n);
    RegistersAsIs(b, s, n, Step(b, e));
  }

  lemma TouchedAllBefore(st: State, s: Sid, b: State, n: Name, q: State)
    requires LetIn(st, s, b) && AllTouched(b, s, n, q)
    ensures AllTouched(st, s, n, q)
  {
    LetInLooks(st, s, b);
    hide Touched, LetIn;
    forall t | t in st.sess && t != s ensures t in q.sess && Touched(st, s, n, t, q.sess[t]) {
      TouchedBefore(st, s, b, n, t, q.sess[t]);
    }
  }

  lemma RegistersParts(b: State, s: Sid, n: Name, q: State)
    requires RegistersAs(b, s, n, q)
    ensures Inv(q) && q.sess.Keys == b.sess.Keys && Outcome(b, s, n, q) && AllTouched(b, s, n, q)
    ensures KeyOf(n) !in b.dir ==> s in q.sess && Begins(q.sess[s], s, n)
  {
    hide Inv, Outcome, AllTouched, Begins, KeyOf;
  }

  lemma ArrivesAsIs(st: State, s: Sid, n: Name, q: State)
    requires Inv(q) && q.sess.Keys == st.sess.Keys + {s} && Outcome(st, s, n, q) && AllTouched(st, s, n, q)
    requires KeyOf(n) !in st.dir ==> s in q.sess && Begins(q.sess[s], s, n)
    ensures ArrivesAs(st, s, n, q)
  {
    hide Inv, Outcome, AllTouched, Begins, KeyOf;
  }

  lemma RegistersArrives(st: State, s: Sid, b: State, n: Name, q: State)
    requires LetIn(st, s, b) && RegistersAs(b, s, n, q)
    ensures ArrivesAs(st, s, n, q)
  {
    hide *;
    LetInLooks(st, s, b);
    RegistersParts(b, s, n, q);
    SameOutcomeBefore(st, b, s, n, q);
    TouchedAllBefore(st, s, b, n, q);
    ArrivesAsIs(st, s, n, q);
  }

  lemma ArrivesWith(st: State, s: Sid, i: Init, n: Name)
    requires Inv(st) && s !in st.sess && |st.sess.Keys| < 100 && i.kind < 4 && Entering(st, i) == Some(n)
    ensures Schedulable(st, Arrival(s, i)) && ArrivesAs(st, s, n, Run(st, Arrival(s, i)))
  {
    hide *;
    ConnectedLetsIn(st, s);
    var b, e := Step(st, Connected(s)), InitDone(s, Some(InitBytes(i)), true);
    LetInLooks(st, s, b);
    SameEntering(st, s, b, i);
    InitRegisters(b, s, i, n);
    RegistersArrives(st, s, b, n, Step(b, e));
    ArrivalIs(s, i);
    TwoSteps(st, Connected(s), e);
  }

  // ---- data before the notice --------------------------------------------------------------------

  /** LISTEN `l`, a CONNECT to it, a second LISTEN on the CONNECT's port, two ACCEPTs and a second CONNECT. */
  function SixArrivals(l: Endpoint, c: Endpoint): seq<Event> {
    Arrival(0, Init(1, l, c)) + Arrival(1, Init(2, c, l)) + Arrival(2, Init(1, c, l))
    + Arrival(3, Init(3, l, c)) + Arrival(4, Init(3, l, c)) + Arrival(5, Init(2, c, l))
  }

  ghost predicate AfterTwo(st: State, l: Endpoint, c: Endpoint) {
    && Inv(st) && st.sess.Keys == {0, 1} && st.reg == map[ListenName(l) := 0][ConnectName(c, l) := 1]
    && st.dir == map[KeyOf(ListenName(l)) := 0, KeyOf(ConnectName(c, l)) := 1] && !st.sess[1].established
  }

  lemma TwoArrive(l: Endpoint, c: Endpoint)
    requires l != c
    ensures var es := Arrival(0, Init(1, l, c)) + Arrival(1, Init(2, c, l));
            Schedulable(INITIAL, es) && AfterTwo(Run(INITIAL, es), l, c)
  {
    hide Inv, Schedulable, Run, Arrival, KeyOf;
    ListenStage(l, c);
    var s1 := Run(INITIAL, Arrival(0, Init(1, l, c)));
    ConnectStage(s1, l, c);
    RunAppends(INITIAL, Arrival(0, Init(1, l, c)), Arrival(1, Init(2, c, l)));
  }

  /** The second LISTEN is refused, and takes the CONNECT's port out of the directory. */
  ghost predicate AfterThree(st: State, l: Endpoint, c: Endpoint) {
    && Inv(st) && st.sess.Keys == {0, 1, 2} && st.reg == map[ListenName(l) := 0][ConnectName(c, l) := 1]
    && st.dir == map[KeyOf(ListenName(l)) := 0] && !st.sess[1].established
  }

  lemma ArrivalParts(st: State, s: Sid, n: Name, q: State)
    requires ArrivesAs(st, s, n, q)
    ensures Inv(q) && q.sess.Keys == st.sess.Keys + {s} && AllTouched(st, s, n, q)
    ensures KeyOf(n) !in st.dir ==> s in q.sess && Begins(q.sess[s], s, n)
    ensures KeyOf(n) in st.dir ==> q.reg == st.reg - {n} && q.dir == st.dir - {KeyOf(n)}
    ensures KeyOf(n) !in st.dir ==> q.reg == st.reg[n := s] && q.dir == st.dir[KeyOf(n) := s]
  {
    hide Inv, AllTouched, Begins, KeyOf, Peer;
  }

  lemma TouchedAt(st: State, s: Sid, n: Name, q: State, t: Sid)
    requires AllTouched(st, s, n, q) && t in st.sess && t != s
    ensures t in q.sess && Touched(st, s, n, t, q.sess[t])
  {
    hide Touched;
  }

  lemma TakenFlags(st: State, s: Sid, n: Name, t: Sid, y: Session)
    requires Touched(st, s, n, t, y) && KeyOf(n) in st.dir
    ensures t in st.sess && y.established == st.sess[t].established
  {
    SeenFlags(st, n, t);
    hide KeyOf, Seen, Closed;
  }

  lemma Keys(l: Endpoint, c: Endpoint)
    ensures KeyOf(ListenName(c)) == KeyOf(ConnectName(c, l))
    ensures KeyOf(AcceptName(l, c)) == KeyOf(ListenName(l))
    ensures l != c ==> KeyOf(ConnectName(c, l)) != KeyOf(ListenName(l))
  {
  }

  lemma ThirdArrives(st: State, q: State, l: Endpoint, c: Endpoint)
    requires AfterTwo(st, l, c) && l != c && ArrivesAs(st, 2, ListenName(c), q)
    ensures AfterThree(q, l, c)
  {
    hide Inv, ArrivesAs, KeyOf, AllTouched, Touched, Begins;
    Keys(l, c);
    ArrivalParts(st, 2, ListenName(c), q);
    TouchedAt(st, 2, ListenName(c), q, 1);
    TakenFlags(st, 2, ListenName(c), 1, q.sess[1]);
  }

  lemma SeenFlags(st: State, n: Name, t: Sid)
    requires t in st.sess
    ensures var x, y := st.sess[t], Seen(st, n, t);
            y.established == x.established && Closed(y).established == x.established && y.log == x.log
  {
  }

  /** The first ACCEPT is refused too, takes the listener's port out of the directory, and closes the CONNECT,
      which stays in the index. */
  ghost predicate AfterFour(st: State, l: Endpoint, c: Endpoint) {
    && Inv(st) && st.sess.Keys == {0, 1, 2, 3} && st.reg == map[ListenName(l) := 0][ConnectName(c, l) := 1]
    && st.dir == map[] && !st.sess[1].established
  }

  lemma FourthArrives(st: State, q: State, l: Endpoint, c: Endpoint)
    requires AfterThree(st, l, c) && l != c && ArrivesAs(st, 3, AcceptName(l, c), q)
    ensures AfterFour(q, l, c)
  {
    hide Inv, ArrivesAs, KeyOf, AllTouched, Touched, Begins;
    Keys(l, c);
    ArrivalParts(st, 3, AcceptName(l, c), q);
    TouchedAt(st, 3, AcceptName(l, c), q, 1);
    TakenFlags(st, 3, AcceptName(l, c), 1, q.sess[1]);
  }

  /** The second ACCEPT bonds with that CONNECT. */
  ghost predicate AfterFive(st: State, l: Endpoint, c: Endpoint) {
    && Inv(st) && st.sess.Keys == {0, 1, 2, 3, 4}
    && st.reg == map[ListenName(l) := 0][ConnectName(c, l) := 1][AcceptName(l, c) := 4]
    && st.dir == map[KeyOf(ListenName(l)) := 4] && Begins(st.sess[4], 4, AcceptName(l, c))
  }

  lemma FifthArrives(st: State, q: State, l: Endpoint, c: Endpoint)
    requires AfterFour(st, l, c) && l != c && ArrivesAs(st, 4, AcceptName(l, c), q)
    ensures AfterFive(q, l, c)
  {
    hide Inv, ArrivesAs, KeyOf, AllTouched, Touched, Begins;
    Keys(l, c);
    ArrivalParts(st, 4, AcceptName(l, c), q);
  }

  /** A new CONNECT takes the name of the bonded one: it is open, has no bond, and was sent nothing. */
  ghost predicate AfterSix(st: State, l: Endpoint, c: Endpoint) {
    && Inv(st) && {4, 5} <= st.sess.Keys && Holds(st, ConnectName(c, l), 5)
    && Begins(st.sess[4], 4, AcceptName(l, c)) && Begins(st.sess[5], 5, ConnectName(c, l))
  }

  lemma SixthArrives(st: State, q: State, l: Endpoint, c: Endpoint)
    requires AfterFive(st, l, c) && l != c && ArrivesAs(st, 5, ConnectName(c, l), q)
    ensures AfterSix(q, l, c)
  {
    hide Inv, ArrivesAs, KeyOf, AllTouched, Touched, Begins;
    Keys(l, c);
    var n := ConnectName(c, l);
    ArrivalParts(st, 5, n, q);
    TouchedAt(st, 5, n, q, 4);
    BeginsReading(st.sess[4], 4, AcceptName(l, c));
    ReaderIsSeen(st, n, 4);
    FreeSpares(st, 5, n, 4, q.sess[4]);
  }

  lemma BeginsReading(x: Session, s: Sid, n: Name)
    requires Begins(x, s, n) && n.AcceptName?
    ensures x.pc.ReadPtpHeader? && x.name == n && !x.closed
  {
  }

  /** A CONNECT that registers on a free port reaches nobody but its listener, those who wait for its name and
      its former holder. */
  lemma FreeSpares(st: State, s: Sid, n: Name, t: Sid, y: Session)
    requires Touched(st, s, n, t, y) && KeyOf(n) !in st.dir && n.ConnectName? && t in st.sess
    requires !Holds(st, ListenName(n.dst), t) && Seen(st, n, t) == st.sess[t]
    ensures y == st.sess[t]
  {
    hide KeyOf, Seen, Queued;
  }

  lemma ReaderIsSeen(st: State, n: Name, t: Sid)
    requires Inv(st) && t in st.sess && !Holds(st, n, t) && st.sess[t].pc.ReadPtpHeader?
    ensures Seen(st, n, t) == st.sess[t]
  {
    ShapeParts(st);
    hide Inv, Index, Counted;
  }

  // ---- and the data ------------------------------------------------------------------------------

  /** An empty block from the ACCEPT. */
  const EMPTY_BLOCK: Event := HeaderRead(4, Some(['\0', '\0', '\0', '\0']))

  lemma EmptyBlockForwards(st: State, l: Endpoint, c: Endpoint)
    requires AfterSix(st, l, c)
    ensures Enabled(st, EMPTY_BLOCK) && Registers(st, EMPTY_BLOCK).None? && EMPTY_BLOCK.s == 4
    ensures Forwards(st, EMPTY_BLOCK) == Some((ConnectName(c, l), PtpFrame([])))
    ensures Inv(st) && 5 in st.sess && Holds(st, ConnectName(c, l), 5)
    ensures st.sess[5].log == [] && !st.sess[5].closed && st.sess[5].name == ConnectName(c, l)
    ensures !Ends(st, EMPTY_BLOCK)
  {
    hide Inv;
  }

  lemma DataComes(x: Session, p: Sent)
    requires x.log == [] && !x.closed && QueueOk(x) && Size(p.frame) == 4
    ensures var y := Queued(x, p); y.log == [p] && y.name == x.name && !y.closed
  {
    assert x.queue == [];
  }

  lemma GivenIs(st: State, s: Sid, n: Name, f: Frame, t: Sid, y: Session)
    requires OtherReach(st, s, Some((n, f)), false, t, y) && Holds(st, n, t)
    ensures t in st.sess && y == Queued(st.sess[t], Sent(s, f))
  {
    hide Queued;
  }

  lemma EmptySize()
    ensures Size(PtpFrame([])) == 4
  {
  }

  lemma QueueAt(st: State, s: Sid)
    requires Inv(st) && s in st.sess
    ensures QueueOk(st.sess[s]) && LogOk(st.sess[s])
  {
    LocalAt(st, s);
    hide Inv, QueueOk, LogOk, ControlOk;
  }

  /** A CONNECT whose first packet is its peer's data. */
  lemma DataFirst(st: State, l: Endpoint, c: Endpoint)
    requires AfterSix(st, l, c)
    ensures Enabled(st, EMPTY_BLOCK) && Inv(Step(st, EMPTY_BLOCK)) && 5 in Step(st, EMPTY_BLOCK).sess
    ensures var y := Step(st, EMPTY_BLOCK).sess[5];
            y.name == ConnectName(c, l) && y.log == [Sent(4, PtpFrame([]))] && !y.closed
  {
    EmptyBlockForwards(st, l, c);
    hide *;
    var q, n, f := Step(st, EMPTY_BLOCK), ConnectName(c, l), PtpFrame([]);
    StepKeeps(st, EMPTY_BLOCK);
    OtherStepReaches(st, EMPTY_BLOCK, 5);
    GivenIs(st, 4, n, f, 5, q.sess[5]);
    QueueAt(st, 5);
    EmptySize();
    DataComes(st.sess[5], Sent(4, f));
  }

  lemma SixEnter(st: State, l: Endpoint, c: Endpoint)
    ensures AfterTwo(st, l, c) ==> 2 !in st.sess && Entering(st, Init(1, c, l)) == Some(ListenName(c))
    ensures AfterThree(st, l, c) ==> 3 !in st.sess && Entering(st, Init(3, l, c)) == Some(AcceptName(l, c))
    ensures AfterFour(st, l, c) ==> 4 !in st.sess && Entering(st, Init(3, l, c)) == Some(AcceptName(l, c))
    ensures AfterFive(st, l, c) ==> 5 !in st.sess && Entering(st, Init(2, c, l)) == Some(ConnectName(c, l))
    ensures AfterTwo(st, l, c) || AfterThree(st, l, c) || AfterFour(st, l, c) || AfterFive(st, l, c) ==>
              Inv(st) && |st.sess.Keys| < 100
  {
    hide Inv, KeyOf, Begins;
  }

  lemma SixArrive(l: Endpoint, c: Endpoint)
    requires l != c
    ensures Schedulable(INITIAL, SixArrivals(l, c)) && AfterSix(Run(INITIAL, SixArrivals(l, c)), l, c)
  {
    hide AfterTwo, AfterThree, AfterFour, AfterFive, AfterSix, ArrivesAs, Inv, Entering, Schedulable, Run, Arrival;
    var es2 := Arrival(0, Init(1, l, c)) + Arrival(1, Init(2, c, l));
    var a3, a4 := Arrival(2, Init(1, c, l)), Arrival(3, Init(3, l, c));
    var a5, a6 := Arrival(4, Init(3, l, c)), Arrival(5, Init(2, c, l));
    TwoArrive(l, c);
    var s2 := Run(INITIAL, es2);
    SixEnter(s2, l, c);
    ArrivesWith(s2, 2, Init(1, c, l), ListenName(c));
    var s3 := Run(s2, a3);
    ThirdArrives(s2, s3, l, c);
    SixEnter(s3, l, c);
    ArrivesWith(s3, 3, Init(3, l, c), AcceptName(l, c));
    var s4 := Run(s3, a4);
    FourthArrives(s3, s4, l, c);
    SixEnter(s4, l, c);
    ArrivesWith(s4, 4, Init(3, l, c), AcceptName(l, c));
    var s5 := Run(s4, a5);
    FifthArrives(s4, s5, l, c);
    SixEnter(s5, l, c);
    ArrivesWith(s5, 5, Init(2, c, l), ConnectName(c, l));
    SixthArrives(s5, Run(s5, a6), l, c);
    RunAppends(INITIAL, es2, a3);
    RunAppends(INITIAL, es2 + a3, a4);
    RunAppends(INITIAL, es2 + a3 + a4, a5);
    RunAppends(INITIAL, es2 + a3 + a4 + a5, a6);
  }

  /** What session 5's client has got does not read as what was delivered. */
  ghost predicate Misread(st: State) {
    5 in st.sess && st.sess[5].name.ConnectName?
    && ReadFrames(st.sess[5].name, 0, WireAll(st.sess[5].delivered)) != FramesOf(st.sess[5].delivered)
  }

  lemma DeliveredMisread(st: State, es: seq<Event>)
    requires Inv(st) && 5 in st.sess && st.sess[5].name.ConnectName? && st.sess[5].log == [Sent(4, PtpFrame([]))]
    requires st.sess[5].registered && Delivers(st, 5, es)
    ensures Misread(Run(st, es))
  {
    hide Inv, ReadFrames, WireAll, Schedulable, Run, LogOk, QueueOk, Grows;
    RunKeeps(st, es);
    RunGrows(st, es);
    SameNameAfter(st, Run(st, es), 5);
    QueueAt(Run(st, es), 5);
    StreamReads(Run(st, es).sess[5], Run(st, es).sess[5].delivered);
  }

  /** From every state after the six arrivals a client comes to misread. */
  lemma DataComesFirst(l: Endpoint, c: Endpoint) returns (es: seq<Event>)
    requires l != c
    ensures Schedulable(INITIAL, es) && Misread(Run(INITIAL, es))
  {
    hide *;
    SixArrive(l, c);
    var s6 := Run(INITIAL, SixArrivals(l, c));
    DataFirst(s6, l, c);
    OneStep(s6, EMPTY_BLOCK);
    RunAppends(INITIAL, SixArrivals(l, c), [EMPTY_BLOCK]);
    var s7 := Run(INITIAL, SixArrivals(l, c) + [EMPTY_BLOCK]);
    QueueAt(s7, 5);
    var more := WriterDelivers(s7, 5);
    DeliversRuns(s7, more);
    RegisteredLog(s7, 5);
    DeliveredMisread(s7, more);
    RunAppends(INITIAL, SixArrivals(l, c) + [EMPTY_BLOCK], more);
    es := SixArrivals(l, c) + [EMPTY_BLOCK] + more;
  }

  lemma DeliversRuns(st: State, es: seq<Event>)
    requires Delivers(st, 5, es)
    ensures Schedulable(st, es)
  {
  }

  lemma RegisteredLog(st: State, s: Sid)
    requires Inv(st) && s in st.sess && st.sess[s].log != []
    ensures st.sess[s].registered
  {
    LocalAt(st, s);
    hide Inv, LocalOk, QueueOk, LogOk;
  }

  /** For every two distinct endpoints there is a run from the start in which a CONNECT is sent its peer's data
      before any notice, so that its client cannot read its stream. */
  lemma UnreadableConnect(l: Endpoint, c: Endpoint)
    requires l != c
    ensures exists es: seq<Event> :: Schedulable(INITIAL, es) && Misread(Run(INITIAL, es))
  {
    hide *;
    var es := DataComesFirst(l, c);
  }
}
