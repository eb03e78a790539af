/** Registered sessions as they begin, the relay's limits in numbers, and what writers always manage. */
module RelayLimits {
  import opened Bytes
  import opened SessionNames
  import opened RelayDirectories
  import opened RelayModel
  import opened RelayInvariant
  import opened RelayFinish
  import opened RelayRegister
  import opened RelayRuns
  import opened RelayHistory
  import opened RelayTheorems
  import opened RelayPorts
  import opened RelayReach
  import opened RelayConnects
  import opened RelayWitness
  import RelayBond
  import RelaySafety
  import RelaySteps

  // ---- the session that registers ---------------------------------------------------------------

  /** Where each kind of session goes on once it is registered. */
  function FirstPc(n: Name): Pc {
    match n
    case PdpName(_) => ReadPdpHeader
    case ListenName(_) => ReadSome
    case ConnectName(_, _) => AwaitBond(false)
    case AcceptName(_, _) => ReadPtpHeader
  }

  /** A session that has just registered: open, nothing read, an ACCEPT established and told of its peer. */
  ghost predicate Begins(y: Session, s: Sid, n: Name) {
    && y.name == n && y.registered && !y.closed && !y.finished && !y.superseded && y.input == [] && y.pc == FirstPc(n)
    && y.established == n.AcceptName?
    && y.log == if n.AcceptName? then [Sent(s, Notice(n.dst))] else []
  }

  lemma JoinedBegins(st: State, s: Sid, n: Name, est: bool)
    requires Newcomer(st, s) && est == n.AcceptName? && !n.AcceptName?
    ensures s in st.sess && Begins(Joined(st.sess[s], n, est, FirstPc(n)), s, n)
  {
  }

  lemma EnterBegins(st: State, s: Sid, n: Name)
    requires Ready(st, s) && KeyOf(n) !in st.dir && !IsPtpPipe(n)
    ensures var q := Enter(st, s, n, FirstPc(n)); s in q.sess && Begins(q.sess[s], s, n)
  {
    NewcomerFrom(st, s);
    RegisteredLives(st, s, n, false, FirstPc(n));
    JoinedBegins(st, s, n, false);
    hide Register, Finish, Ready, Live, KeyOf;
  }

  lemma ConnectBegins(st: State, s: Sid, n: Name)
    requires Ready(st, s) && KeyOf(n) !in st.dir && n.ConnectName? && ListenName(n.dst) in st.reg
    ensures var q := EstablishConnect(st, s, n); s in q.sess && Begins(q.sess[s], s, n)
  {
    ListenerIs(n);
    hide *;
    NewcomerFrom(st, s);
    ConnectUnfolds(st, s, n);
    RegisteredLives(st, s, n, false, FirstPc(n));
    JoinedBegins(st, s, n, false);
    ListenerIsOther(st, s, ListenName(n.dst));
    FirstPcOfConnect(n);
    var r := Register(st, s, n, false, AwaitBond(false));
    AdvertisedSame(r, s, n);
    SendSpares(Advertise(r, s, n), st.reg[ListenName(n.dst)], Sent(s, Notice(n.src)), s);
  }

  lemma FirstPcOfConnect(n: Name)
    requires n.ConnectName?
    ensures FirstPc(n) == AwaitBond(false) && !n.AcceptName?
  {
  }

  lemma SendSpares(a: State, t: Sid, p: Sent, s: Sid)
    requires s in a.sess && t != s
    ensures s in Send(a, t, p).sess && Send(a, t, p).sess[s] == a.sess[s]
  {
    hide Queued;
  }

  lemma ListenerIsOther(st: State, s: Sid, l: Name)
    requires Ready(st, s) && l in st.reg
    ensures st.reg[l] != s
  {
    hide Waiting, Counted;
  }

  lemma AcceptBegins(st: State, s: Sid, n: Name)
    requires Inv(st) && Newcomer(st, s) && KeyOf(n) !in st.dir && n.AcceptName? && Bondable(st, n).Some?
    ensures var q := EstablishAccept(st, s, n); s in q.sess && Begins(q.sess[s], s, n)
  {
    ReadyFor(st, s);
    hide *;
    var c := Bondable(st, n).value;
    NewcomerFrom(st, s);
    RelayBond.BondStepKeeps(st, s, n, c);
    RelayBond.AcceptedKeeps(st, s, n, c);
    RegisteredLives(st, s, n, true, ReadPtpHeader);
    AdvertisedSame(Register(st, s, n, true, ReadPtpHeader), s, n);
    var a := Advertise(Register(st, s, n, true, ReadPtpHeader), s, n);
    AcceptedInput(a, s, n, c);
    RelayBond.AcceptedUnfolds(st, s, n, c);
    AcceptedBegins(st, s, n, a.sess[s], RelayBond.Accepted(st, s, n, c).sess[s]);
  }

  lemma AdvertisedSame(r: State, s: Sid, n: Name)
    ensures Advertise(r, s, n).sess == r.sess
  {
  }

  ghost predicate SameIntake(x: Session, y: Session) {
    y.input == x.input && y.superseded == x.superseded && (x.established ==> y.established)
  }

  lemma SendIntake(a: State, t: Sid, p: Sent, s: Sid)
    requires s in a.sess
    ensures s in Send(a, t, p).sess && SameIntake(a.sess[s], Send(a, t, p).sess[s])
  {
    hide Size;
  }

  lemma BondIntake(a: State, s: Sid, c: Sid)
    requires s in a.sess
    ensures s in AddBond(a, s, c).sess && SameIntake(a.sess[s], AddBond(a, s, c).sess[s])
  {
  }

  lemma AcceptedInput(a: State, s: Sid, n: Name, c: Sid)
    requires s in a.sess && n.AcceptName?
    ensures var q := Send(Send(AddBond(a, s, c), c, Sent(s, Notice(n.src))), s, Sent(s, Notice(n.dst)));
            s in q.sess && SameIntake(a.sess[s], q.sess[s])
  {
    hide Send, AddBond;
    var b := AddBond(a, s, c);
    BondIntake(a, s, c);
    SendIntake(b, c, Sent(s, Notice(n.src)), s);
    SendIntake(Send(b, c, Sent(s, Notice(n.src))), s, Sent(s, Notice(n.dst)), s);
  }

  lemma AcceptedBegins(st: State, s: Sid, n: Name, x: Session, y: Session)
    requires Newcomer(st, s) && n.AcceptName? && x == Joined(st.sess[s], n, true, ReadPtpHeader)
    requires RelaySteps.Quiet(x, y) && y.log == [Sent(s, Notice(n.dst))] && y.pc == ReadPtpHeader && !y.closed
    requires SameIntake(x, y)
    ensures Begins(y, s, n)
  {
  }

  lemma InitBegins(st: State, s: Sid, i: Init, inTime: bool, n: Name)
    requires Inv(st) && Newcomer(st, s) && s in st.sess && st.sess[s].pc.ReadInit? && Entering(st, i) == Some(n)
    requires KeyOf(n) !in st.dir
    ensures var q := Dispatch(st, s, i, inTime); s in q.sess && Begins(q.sess[s], s, n)
  {
    DispatchesTo(st, s, i, inTime);
    EnteringIs(st, i, n);
    hide *;
    ReadyFor(st, s);
    if i.kind == 0 || i.kind == 1 {
      EnterBegins(st, s, n);
    } else if i.kind == 2 {
      NamedBegins(st, s, n);
    } else {
      AcceptBegins(st, s, n);
    }
  }

  lemma EnteringIs(st: State, i: Init, n: Name)
    requires Entering(st, i) == Some(n)
    ensures i.kind <= 3
    ensures i.kind == 0 ==> n == PdpName(i.src) && FirstPc(n) == ReadPdpHeader && !IsPtpPipe(n)
    ensures i.kind == 1 ==> n == ListenName(i.src) && FirstPc(n) == ReadSome && !IsPtpPipe(n)
    ensures i.kind == 2 ==> n == ConnectName(i.src, i.dst) && ListenName(i.dst) in st.reg && n.ConnectName? && n.dst == i.dst
    ensures i.kind == 3 ==> n == AcceptName(i.src, i.dst) && n.AcceptName? && Bondable(st, n).Some?
  {
    hide Bondable;
  }

  lemma NamedBegins(st: State, s: Sid, n: Name)
    requires Inv(st) && Newcomer(st, s) && s in st.sess && st.sess[s].pc.ReadInit? && KeyOf(n) !in st.dir
    requires n.ConnectName? && ListenName(n.dst) in st.reg
    ensures var q := EstablishConnect(Put(st, s, st.sess[s].(name := n)), s, n); s in q.sess && Begins(q.sess[s], s, n)
  {
    hide Inv, Newcomer, Ready, EstablishConnect, Begins, KeyOf;
    var b := Put(st, s, st.sess[s].(name := n));
    RelaySafety.RenameKeeps(st, s, n);
    ReadyFor(b, s);
    ConnectBegins(b, s, n);
  }

  lemma ResumeBegins(st: State, s: Sid)
    requires Inv(st) && Enabled(st, ListenResume(s)) && s in st.sess && st.sess[s].name.ConnectName?
    requires ListenName(st.sess[s].name.dst) in st.reg && KeyOf(st.sess[s].name) !in st.dir
    ensures var q := Step(st, ListenResume(s)); s in q.sess && Begins(q.sess[s], s, st.sess[s].name)
  {
    ListenerIs(st.sess[s].name);
    hide *;
    ResumeConnects(st, s);
    var n := st.sess[s].name;
    var b := st.(waiters := StopWaiting(st.waiters, ListenerOf(n), s));
    RelaySafety.StopWaitingKeeps(st, s);
    ReadyFor(b, s);
    ConnectBegins(b, s, n);
  }

  /** What a registration that succeeds makes of the session itself. */
  lemma RegistrantBegins(st: State, e: Event, n: Name)
    requires Inv(st) && Enabled(st, e) && Registers(st, e) == Some(n) && KeyOf(n) !in st.dir
    ensures e.s in Step(st, e).sess && Begins(Step(st, e).sess[e.s], e.s, n)
  {
    if e.ListenResume? {
      ResumeNames(st, e, n);
      hide *;
      ResumeBegins(st, e.s);
    } else {
      hide Inv, Step, Entering, Dispatch, Newcomer, ParseInit, Begins, KeyOf;
      InitSteps(st, e.s, e.raw.value, e.inTime);
      FreshIsNewcomer(st, e.s);
      InitBegins(st, e.s, ParseInit(e.raw.value), e.inTime, n);
    }
  }

  // ---- limits -----------------------------------------------------------------------------------

  ghost predicate Blank(x: Session) {
    && x.pc == ReadInit && x.writer == Runnable && x.queue == [] && x.queuedBytes == 0 && x.log == [] && x.delivered == []
    && x.input == [] && !x.established && !x.closed && !x.registered && !x.superseded && !x.finished
  }

  /** A connection is let in if and only if fewer than 5000 sessions have not ended. */
  lemma ConnectionDecides(st: State, s: Sid)
    requires Inv(st) && s !in st.sess
    ensures Enabled(st, Connected(s))
    ensures var q := Step(st, Connected(s));
            if |Unfinished(st.sess)| < 5000
            then && q == st.(sess := q.sess, active := st.active + 1) && s in q.sess && Blank(q.sess[s])
                 && q.sess == st.sess[s := q.sess[s]]
            else q == st
  {
    ShapeParts(st);
    hide Inv, Index, Waiting;
  }

  /** A send to an open session is accepted, in order, behind all that is queued; if that brings the queue to
      512000 bytes or more, the session is closed, and a closed session accepts nothing. */
  lemma QueueDecides(x: Session, p: Sent)
    ensures var y := Queued(x, p);
            if x.closed then y == x
            else && y.queue == x.queue + [p] && y.log == x.log + [p]
                 && y.queuedBytes == x.queuedBytes + |Wire(p.frame)|
                 && (y.closed <==> x.queuedBytes + |Wire(p.frame)| >= 512000)
                 && !y.writer.Idle?
                 && y == x.(queue := y.queue, log := y.log, queuedBytes := y.queuedBytes, closed := y.closed,
                            writer := y.writer, pc := y.pc)
                 && (y.pc == x.pc || (y.closed && x.pc == AwaitBond(false) && y.pc == AwaitBond(true)))
  {
    hide Wire;
  }

  /** More than 20480 bytes end the session, as does an empty block that is handed to itself and fills its
      queue, or finds it closed; otherwise the block is read next. */
  ghost predicate PdpDecision(st: State, s: Sid, raw: Bytes, q: State) {
    && |raw| == 14 && s in st.sess && s in q.sess
    && var x, size, to := st.sess[s], GetU32(raw[10..14]), PdpName(Endpoint(raw[..6], GetU16(raw[8..10])));
       && (q.sess[s].finished <==>
             size > 20480 || (size == 0 && (x.closed || (Holds(st, to, s) && x.queuedBytes + 14 >= 512000))))
       && (0 < size <= 20480 ==>
             q == st.(sess := st.sess[s := x.(input := x.input + raw, pc := ReadPdpBlock(to, size))]))
  }

  /** What the header of a PDP block decides. */
  lemma PdpHeaderDecides(st: State, s: Sid, raw: Bytes)
    requires Inv(st) && Enabled(st, HeaderRead(s, Some(raw))) && s in st.sess && st.sess[s].pc.ReadPdpHeader?
    ensures PdpDecision(st, s, raw, Step(st, HeaderRead(s, Some(raw))))
  {
    var e := HeaderRead(s, Some(raw));
    HeaderSteps(st, s, raw);
    HeaderEndsIs(st, s, raw);
    HeaderEndsWhen(st, s, raw);
    PdpHeaderIs(st, s, raw);
    EndsMeansFinishes(st, e);
    ReaderRegistered(st, s);
    PdpParts(raw);
    StepsIn(st, e);
    hide Inv, Step, Enabled, Ends, HeaderEnds, PdpHeaderRead, GetU32, GetU16, PdpSize, PdpTarget;
  }

  lemma PdpParts(raw: Bytes)
    requires |raw| == 14
    ensures PdpSize(raw) == GetU32(raw[10..14]) && PdpTarget(raw) == PdpName(Endpoint(raw[..6], GetU16(raw[8..10])))
    ensures forall e :: Size(PdpFrame(e, [])) == 14
  {
    hide GetU32, GetU16;
  }

  lemma ReaderRegistered(st: State, s: Sid)
    requires Inv(st) && s in st.sess && (st.sess[s].pc.ReadPdpHeader? || st.sess[s].pc.ReadPtpHeader?)
    ensures st.sess[s].registered && !st.sess[s].finished
    ensures forall n :: Peer(st.sess[s].name) == Some(n) ==> !Holds(st, n, s)
  {
    LocalAt(st, s);
    ShapeParts(st);
    if IsPtpPipe(st.sess[s].name) { PeerIsInvolution(st.sess[s].name); }
    hide Inv, QueueOk, LogOk, NotWaiting, Waiting, Counted;
  }

  lemma StepsIn(st: State, e: Event)
    requires Inv(st) && Enabled(st, e) && e.s in st.sess
    ensures e.s in Step(st, e).sess
  {
    hide *;
    StepGrows(st, e);
    GrowsIn(st, Step(st, e), e.s);
  }

  lemma GrowsIn(st: State, q: State, s: Sid)
    requires Grows(st, q) && s in st.sess
    ensures s in q.sess
  {
  }

  /** The same for PTP: 102400 bytes. Its blocks go to the peer, so never to the session itself. */
  ghost predicate PtpDecision(st: State, s: Sid, raw: Bytes, q: State) {
    && |raw| == 4 && s in st.sess && s in q.sess
    && var x, size := st.sess[s], GetU32(raw);
       && (q.sess[s].finished <==> size > 102400 || (size == 0 && x.closed))
       && (0 < size <= 102400 ==>
             q == st.(sess := st.sess[s := x.(input := x.input + raw, pc := ReadPtpBlock(size))]))
  }

  /** What the header of a PTP block decides. */
  lemma PtpHeaderDecides(st: State, s: Sid, raw: Bytes)
    requires Inv(st) && Enabled(st, HeaderRead(s, Some(raw))) && s in st.sess && st.sess[s].pc.ReadPtpHeader?
    ensures PtpDecision(st, s, raw, Step(st, HeaderRead(s, Some(raw))))
  {
    var e := HeaderRead(s, Some(raw));
    HeaderSteps(st, s, raw);
    HeaderEndsIs(st, s, raw);
    HeaderEndsWhen(st, s, raw);
    PtpHeaderIs(st, s, raw);
    EndsMeansFinishes(st, e);
    ReaderRegistered(st, s);
    StepsIn(st, e);
    hide Inv, Step, Enabled, Ends, HeaderEnds, PtpHeaderRead, GetU32, Size;
  }

  // ---- writers ----------------------------------------------------------------------------------

  /** A closed session is sent nothing more, and its writer takes nothing more from the queue. */
  ghost predicate Hushed(x: Session, y: Session) {
    y.closed && y.log == x.log && y.delivered + InFlight(y.writer) == x.delivered + InFlight(x.writer)
  }

  lemma HushedTrans(x: Session, y: Session, z: Session)
    requires Hushed(x, y) && Hushed(y, z)
    ensures Hushed(x, z)
  {
  }

  lemma ClosedHushes(x: Session, p: Sent)
    requires x.closed
    ensures Closed(x) == x && Queued(x, p) == x && Bonded(x).closed && Hushed(x, Bonded(x)) && Hushed(x, x)
    ensures Hushed(x, Superseded(x)) && Superseded(x).closed
    ensures forall pc :: Hushed(x, x.(pc := pc)) && x.(pc := pc).closed
    ensures forall pc :: Hushed(x, x.(finished := true, pc := pc))
    ensures forall input, pc :: Hushed(x, x.(input := input, pc := pc))
    ensures forall input :: Hushed(x, x.(input := input)) && x.(input := input).closed
  {
    hide Size;
  }

  lemma SeenHushes(st: State, n: Name, t: Sid)
    requires t in st.sess && st.sess[t].closed
    ensures Seen(st, n, t).closed && Hushed(st.sess[t], Seen(st, n, t))
  {
    ClosedHushes(st.sess[t], Sent(t, PtpFrame([])));
    hide Hushed, Superseded;
  }

  lemma ReachHushes(st: State, s: Sid, n: Name, t: Sid, y: Session)
    requires t in st.sess && st.sess[t].closed && (TakenReach(st, n, t, y) || FreeReach(st, s, n, t, y))
    ensures Hushed(st.sess[t], y)
  {
    var z, p := Seen(st, n, t), Sent(s, Notice(n.src));
    SeenHushes(st, n, t);
    ClosedHushes(z, p);
    ClosedHushes(Bonded(z), p);
    hide Hushed, Seen, Queued, Closed, Bonded;
    HushedTrans(st.sess[t], z, z);
    HushedTrans(st.sess[t], z, Bonded(z));
  }

  lemma OtherHushes(st: State, s: Sid, f: Option<(Name, Frame)>, ends: bool, t: Sid, y: Session)
    requires t in st.sess && st.sess[t].closed && OtherReach(st, s, f, ends, t, y)
    ensures Hushed(st.sess[t], y)
  {
    ClosedHushes(st.sess[t], Sent(s, if f.Some? then f.value.1 else PtpFrame([])));
    hide Hushed, Queued, Closed, Holder, Mirrors;
  }

  // ---- the session's own steps -------------------------------------------------------------------

  lemma FinishHushes(st: State, s: Sid)
    requires Live(st, s) && s in st.sess && st.sess[s].closed
    ensures s in Finish(st, s).sess && Hushed(st.sess[s], Finish(st, s).sess[s])
  {
    FinishHasEffect(st, s);
    ClosedHushes(st.sess[s], Sent(s, PtpFrame([])));
    hide Finish, Hushed, Index, Counted, Closed;
  }

  lemma ForwardHushes(st: State, s: Sid, raw: Bytes, target: Name, f: Frame, next: Pc)
    requires Live(st, s) && s in st.sess && st.sess[s].closed
    ensures var q := Forward(Consume(st, s, raw), s, target, f, next);
            s in q.sess && Hushed(st.sess[s], q.sess[s])
  {
    var h := SendTo(Consume(st, s, raw), target, Sent(s, f));
    SendToShuts(st, s, raw, target, f);
    SendToSelf(st, s, raw, target, f);
    LoopTopIs(h, s, next);
    ClosedHushes(st.sess[s], Sent(s, f));
    hide SendTo, LoopTop, Live, Hushed, Finish, Shuts;
    FinishHushes(h, s);
    HushedTrans(st.sess[s], h.sess[s], Finish(h, s).sess[s]);
  }

  lemma SendToSelf(st: State, s: Sid, raw: Bytes, target: Name, f: Frame)
    requires s in st.sess && st.sess[s].closed
    ensures var h := SendTo(Consume(st, s, raw), target, Sent(s, f));
            s in h.sess && h.sess[s] == st.sess[s].(input := st.sess[s].input + raw)
  {
    hide Size;
  }

  lemma LoopHushes(st: State, e: Event)
    requires Inv(st) && Enabled(st, e) && (e.BondResume? || e.SomeRead?) && e.s in st.sess && st.sess[e.s].closed
    ensures e.s in Step(st, e).sess && Hushed(st.sess[e.s], Step(st, e).sess[e.s])
  {
    LoopSteps(st, e);
    LiveAt(st, e.s);
    hide *;
    FinishHushes(st, e.s);
  }

  lemma BegunHushes(x: Session, raw: Bytes, pc: Pc)
    requires x.closed
    ensures Hushed(x, x.(input := x.input + raw, pc := pc))
  {
  }

  lemma PdpHushes(st: State, s: Sid, raw: Bytes)
    requires Live(st, s) && s in st.sess && |raw| == 14 && st.sess[s].closed
    ensures s in PdpHeaderRead(st, s, raw).sess && Hushed(st.sess[s], PdpHeaderRead(st, s, raw).sess[s])
  {
    PdpHeaderIs(st, s, raw);
    hide *;
    var x := st.sess[s];
    if PdpSize(raw) > PDP_BLOCK_LIMIT {
      FinishHushes(st, s);
    } else if PdpSize(raw) == 0 {
      ForwardHushes(st, s, raw, PdpTarget(raw), PdpFrame(x.name.src, []), ReadPdpHeader);
    } else {
      BegunHushes(x, raw, ReadPdpBlock(PdpTarget(raw), PdpSize(raw)));
      PutAt(st, s);
    }
  }

  lemma PtpHushes(st: State, s: Sid, raw: Bytes)
    requires Live(st, s) && s in st.sess && |raw| == 4 && IsPtpPipe(st.sess[s].name) && st.sess[s].closed
    ensures s in PtpHeaderRead(st, s, raw).sess && Hushed(st.sess[s], PtpHeaderRead(st, s, raw).sess[s])
  {
    PtpHeaderIs(st, s, raw);
    hide *;
    var x := st.sess[s];
    if GetU32(raw) > PTP_BLOCK_LIMIT {
      FinishHushes(st, s);
    } else if GetU32(raw) == 0 {
      ForwardHushes(st, s, raw, Peer(x.name).value, PtpFrame([]), ReadPtpHeader);
    } else {
      BegunHushes(x, raw, ReadPtpBlock(GetU32(raw)));
      PutAt(st, s);
    }
  }

  lemma HeaderHushes(st: State, s: Sid, raw: Bytes)
    requires Inv(st) && Enabled(st, HeaderRead(s, Some(raw))) && s in st.sess && st.sess[s].closed
    ensures s in Step(st, HeaderRead(s, Some(raw))).sess
    ensures Hushed(st.sess[s], Step(st, HeaderRead(s, Some(raw))).sess[s])
  {
    HeaderSteps(st, s, raw);
    LiveAt(st, s);
    hide *;
    if st.sess[s].pc.ReadPdpHeader? { PdpHushes(st, s, raw); } else { PtpHushes(st, s, raw); }
  }

  lemma PutAt(st: State, s: Sid)
    ensures forall y :: s in Put(st, s, y).sess && Put(st, s, y).sess[s] == y
  {
  }

  lemma BlockHushes(st: State, s: Sid, raw: Bytes)
    requires Inv(st) && Enabled(st, BlockRead(s, Some(raw))) && s in st.sess && st.sess[s].closed
    ensures s in Step(st, BlockRead(s, Some(raw))).sess
    ensures Hushed(st.sess[s], Step(st, BlockRead(s, Some(raw))).sess[s])
  {
    BlockSteps(st, s, raw);
    LiveAt(st, s);
    hide *;
    if st.sess[s].pc.ReadPdpBlock? {
      ForwardHushes(st, s, raw, st.sess[s].pc.target, PdpFrame(st.sess[s].name.src, raw), ReadPdpHeader);
    } else {
      ForwardHushes(st, s, raw, Peer(st.sess[s].name).value, PtpFrame(raw), ReadPtpHeader);
    }
  }

  lemma BrokenHushes(st: State, e: Event)
    requires Inv(st) && Enabled(st, e) && (e.HeaderRead? || e.BlockRead?) && e.raw.None?
    requires e.s in st.sess && st.sess[e.s].closed
    ensures e.s in Step(st, e).sess && Hushed(st.sess[e.s], Step(st, e).sess[e.s])
  {
    BrokenSteps(st, e);
    LiveAt(st, e.s);
    hide *;
    FinishHushes(st, e.s);
  }

  lemma WriterHushes(st: State, e: Event)
    requires Enabled(st, e) && (e.WriterRuns? || e.Written? || e.BondTimer? || e.ListenTimer?)
    requires e.s in st.sess && st.sess[e.s].closed
    ensures e.s in Step(st, e).sess && Hushed(st.sess[e.s], Step(st, e).sess[e.s])
  {
  }

  lemma EarlyIsOpen(st: State, s: Sid)
    requires Inv(st) && s in st.sess && (st.sess[s].pc.ReadInit? || st.sess[s].pc.AwaitListen?)
    ensures !st.sess[s].closed
  {
    LocalAt(st, s);
    hide Inv, LocalOk, NotWaiting;
  }

  lemma EarlyEvents(st: State, e: Event)
    requires Enabled(st, e)
    ensures e.Connected? <==> e.s !in st.sess
    ensures e.InitDone? || e.ListenTimer? || e.ListenResume? ==>
              e.s in st.sess && (st.sess[e.s].pc.ReadInit? || st.sess[e.s].pc.AwaitListen?)
  {
  }

  lemma SelfHushes(st: State, e: Event)
    requires Inv(st) && Enabled(st, e) && e.s in st.sess && st.sess[e.s].closed
    ensures e.s in Step(st, e).sess && Hushed(st.sess[e.s], Step(st, e).sess[e.s])
  {
    EarlyEvents(st, e);
    hide *;
    if e.InitDone? || e.ListenTimer? || e.ListenResume? {
      EarlyIsOpen(st, e.s);
    } else if e.HeaderRead? || e.BlockRead? {
      if e.raw.None? {
        BrokenHushes(st, e);
      } else if e.HeaderRead? {
        HeaderHushes(st, e.s, e.raw.value);
      } else {
        BlockHushes(st, e.s, e.raw.value);
      }
    } else if e.BondResume? || e.SomeRead? {
      LoopHushes(st, e);
    } else {
      WriterHushes(st, e);
    }
  }

  lemma StepHushes(st: State, e: Event, t: Sid)
    requires Inv(st) && Enabled(st, e) && t in st.sess && st.sess[t].closed
    ensures t in Step(st, e).sess && Hushed(st.sess[t], Step(st, e).sess[t])
  {
    hide *;
    if t == e.s {
      SelfHushes(st, e);
    } else if Registers(st, e).Some? {
      RegistrationReaches(st, e, Registers(st, e).value, t);
      ReachHushes(st, e.s, Registers(st, e).value, t, Step(st, e).sess[t]);
    } else {
      OtherStepReaches(st, e, t);
      OtherHushes(st, e.s, Forwards(st, e), Ends(st, e), t, Step(st, e).sess[t]);
    }
  }

  lemma HushedSame(x: Session)
    requires x.closed
    ensures Hushed(x, x)
  {
  }

  lemma HushedIs(x: Session, y: Session)
    requires Hushed(x, y)
    ensures y.closed && y.log == x.log && y.delivered <= x.delivered + InFlight(x.writer)
  {
  }

  lemma {:induction false} RunHushes(st: State, es: seq<Event>, t: Sid)
    requires Inv(st) && Schedulable(st, es) && t in st.sess && st.sess[t].closed
    ensures t in Run(st, es).sess && Hushed(st.sess[t], Run(st, es).sess[t])
    decreases |es|
  {
    hide Inv, Step, Enabled, Hushed;
    if es == [] {
      HushedSame(st.sess[t]);
    } else {
      var q := Step(st, es[0]);
      StepHushes(st, es[0], t);
      StepKeeps(st, es[0]);
      HushedIs(st.sess[t], q.sess[t]);
      RunHushes(q, es[1..], t);
      HushedTrans(st.sess[t], q.sess[t], Run(q, es[1..]).sess[t]);
    }
  }

  /** In every run, from the moment a session is closed nothing more is sent to it, and of what was queued only
      the packet that was being written can still be delivered. */
  lemma NothingAfterClose(es: seq<Event>, more: seq<Event>, t: Sid)
    requires Schedulable(INITIAL, es) && Schedulable(Run(INITIAL, es), more)
    requires t in Run(INITIAL, es).sess && Run(INITIAL, es).sess[t].closed
    ensures t in Run(Run(INITIAL, es), more).sess
    ensures var x, y := Run(INITIAL, es).sess[t], Run(Run(INITIAL, es), more).sess[t];
            y.closed && y.log == x.log && y.delivered <= x.delivered + InFlight(x.writer)
  {
    hide *;
    Reachable(es);
    RunHushes(Run(INITIAL, es), more, t);
    HushedIs(Run(INITIAL, es).sess[t], Run(Run(INITIAL, es), more).sess[t]);
  }

  // ---- what is queued can be delivered -----------------------------------------------------------

  /** The writer takes the next packet, or sleeps if there is none; nothing else changes but what was written. */
  ghost predicate Wrote(x: Session, wrote: seq<Sent>, y: Session) {
    && QueueOk(y) && y.delivered == x.delivered + wrote && y.queue == (if x.queue == [] then [] else x.queue[1..])
    && y.writer == (if x.queue == [] then Idle else RelayModel.Writing(x.queue[0]))
    && y == x.(writer := y.writer, queue := y.queue, queuedBytes := y.queuedBytes, delivered := y.delivered)
  }

  lemma LoopTakes(x: Session, d: seq<Sent>)
    requires !x.closed && x.queuedBytes == Total(x.queue) < QUEUE_LIMIT && x.log == d + x.queue
    ensures var y := WriterLoop(x.(delivered := d));
            && QueueOk(y) && y.delivered == d && y.queue == (if x.queue == [] then [] else x.queue[1..])
            && y.writer == (if x.queue == [] then Idle else RelayModel.Writing(x.queue[0]))
            && y == x.(writer := y.writer, queue := y.queue, queuedBytes := y.queuedBytes, delivered := y.delivered)
  {
    if x.queue != [] {
      LoopPops(x, d);
    } else {
      assert d + [] + [] == d;
    }
  }

  lemma LoopPops(x: Session, d: seq<Sent>)
    requires !x.closed && x.queuedBytes == Total(x.queue) < QUEUE_LIMIT && x.log == d + x.queue && x.queue != []
    ensures var y := WriterLoop(x.(delivered := d));
            && QueueOk(y) && y.delivered == d && y.queue == x.queue[1..] && y.writer == RelayModel.Writing(x.queue[0])
            && y == x.(writer := y.writer, queue := y.queue, queuedBytes := y.queuedBytes, delivered := y.delivered)
  {
    var p, rest := x.queue[0], x.queue[1..];
    assert x.queue == [p] + rest;
    assert d + x.queue == d + [p] + rest;
    assert Total(x.queue) == Size(p.frame) + Total(rest);
    hide Size, LargestPacket, Total;
  }

  lemma OpenQueue(x: Session)
    requires QueueOk(x) && !x.closed
    ensures x.queuedBytes == Total(x.queue) < QUEUE_LIMIT
    ensures x.writer.Runnable? ==> x.log == x.delivered + x.queue
    ensures x.writer.Writing? ==> x.log == (x.delivered + [x.writer.packet]) + x.queue
  {
    assert x.delivered + [] == x.delivered;
  }

  /** An open session's writer goes on. */
  lemma WriterGoesOn(st: State, s: Sid, e: Event)
    requires s in st.sess && !st.sess[s].closed && QueueOk(st.sess[s])
    requires Enabled(st, e) && (e == WriterRuns(s) || e == Written(s, true))
    ensures s in Step(st, e).sess && Step(st, e) == Put(st, s, Step(st, e).sess[s])
    ensures Wrote(st.sess[s], if e.Written? then InFlight(st.sess[s].writer) else [], Step(st, e).sess[s])
  {
    var x := st.sess[s];
    var d := x.delivered + if e.Written? then InFlight(x.writer) else [];
    assert x.delivered + [] == x.delivered;
    OpenQueue(x);
    WriterStepIs(st, s, e);
    hide QueueOk, WriterLoop, Step, Total;
    LoopTakes(x, d);
    assert x.(delivered := x.delivered) == x;
  }

  lemma WriterStepIs(st: State, s: Sid, e: Event)
    requires s in st.sess && Enabled(st, e) && (e == WriterRuns(s) || e == Written(s, true))
    ensures e.WriterRuns? ==> st.sess[s].writer.Runnable? && Step(st, e) == Put(st, s, WriterLoop(st.sess[s]))
    ensures e.Written? ==>
      && st.sess[s].writer.Writing?
      && Step(st, e) == Put(st, s, WriterLoop(st.sess[s].(delivered := st.sess[s].delivered + [st.sess[s].writer.packet])))
  {
    hide WriterLoop;
  }

  /** A write that fails closes the session, and nothing else changes. */
  lemma WriteFailureCloses(st: State, s: Sid)
    requires Enabled(st, Written(s, false))
    ensures s in st.sess && st.sess[s].writer.Writing?
    ensures var q, x := Step(st, Written(s, false)), st.sess[s];
            && q == st.(sess := q.sess) && s in q.sess && q.sess == st.sess[s := q.sess[s]]
            && q.sess[s].closed && q.sess[s].writer == Failed(x.writer.packet)
            && q.sess[s] == x.(closed := true, writer := q.sess[s].writer, pc := q.sess[s].pc)
            && q.sess[s].pc == if !x.closed && x.pc.AwaitBond? then AwaitBond(true) else x.pc
  {
  }

  /** Turns of the writer of `s` alone, each write succeeding. */
  ghost predicate WritersTurns(s: Sid, es: seq<Event>) {
    forall i :: 0 <= i < |es| ==> es[i] == WriterRuns(s) || es[i] == Written(s, true)
  }

  ghost predicate Delivers(st: State, s: Sid, es: seq<Event>) {
    && Schedulable(st, es) && WritersTurns(s, es) && s in st.sess && s in Run(st, es).sess
    && var y := Run(st, es).sess[s]; y.log == st.sess[s].log && y.delivered == y.log && y.queue == [] && y.writer.Idle?
  }

  lemma DeliversFirst(st: State, s: Sid, e: Event, es: seq<Event>)
    requires s in st.sess && Enabled(st, e) && (e == WriterRuns(s) || e == Written(s, true))
    requires s in Step(st, e).sess && Step(st, e).sess[s].log == st.sess[s].log && Delivers(Step(st, e), s, es)
    ensures Delivers(st, s, [e] + es)
  {
    hide Step, Enabled;
    var all := [e] + es;
    assert all[1..] == es;
    forall i | 0 <= i < |all| ensures all[i] == WriterRuns(s) || all[i] == Written(s, true) {
      assert i > 0 ==> all[i] == es[i - 1];
    }
  }

  lemma {:induction false} WriterDelivers(st: State, s: Sid) returns (es: seq<Event>)
    requires s in st.sess && !st.sess[s].closed && QueueOk(st.sess[s])
    ensures Delivers(st, s, es)
    decreases |st.sess[s].queue|, !st.sess[s].writer.Idle?
  {
    if st.sess[s].writer.Idle? {
      es := [];
      assert st.sess[s].delivered + [] + [] == st.sess[s].delivered;
    } else {
      var e := if st.sess[s].writer.Runnable? then WriterRuns(s) else Written(s, true);
      assert Enabled(st, e);
      WriterGoesOn(st, s, e);
      hide Step, Delivers, QueueOk;
      var rest := WriterDelivers(Step(st, e), s);
      DeliversFirst(st, s, e, rest);
      es := [e] + rest;
    }
  }

  /** After every run the writer of an open session alone can bring all that is queued to its client, in order. */
  lemma QueueCanBeDelivered(es: seq<Event>, s: Sid)
    requires Schedulable(INITIAL, es) && s in Run(INITIAL, es).sess && !Run(INITIAL, es).sess[s].closed
    ensures exists more :: Delivers(Run(INITIAL, es), s, more)
  {
    Reachable(es);
    LocalAt(Run(INITIAL, es), s);
    hide Inv, Run, Schedulable, Delivers, ControlOk, LogOk, QueueOk, NotWaiting;
    var more := WriterDelivers(Run(INITIAL, es), s);
  }
}
