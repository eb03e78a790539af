/** When a CONNECT is told of its peer before it is sent its peer's data, and when it is not. */
module RelayGreeting {
  import opened Bytes
  import opened SessionNames
  import opened RelayDirectories
  import opened RelayModel
  import opened RelayInvariant
  import opened RelayFinish
  import opened RelayRegister
  import opened RelayRuns
  import opened RelayHistory
  import opened RelayTheorems
  import opened RelayPorts
  import opened RelayReach
  import opened RelayConnects
  import opened RelayLimits
  import opened RelayDatagrams
  import opened RelayWire
  import RelayBond
  import RelaySafety
  import RelaySteps

  // ---- greetings ---------------------------------------------------------------------------------

  /** Whatever a CONNECT was sent first is a notice. */
  ghost predicate NoticeFirst(x: Session) { x.name.ConnectName? && x.log != [] ==> x.log[0].frame.Notice? }

  ghost predicate NoticesFirst(st: State) { forall t :: t in st.sess ==> NoticeFirst(st.sess[t]) }

  /** A CONNECT that was bonded and is open has been told so. */
  ghost predicate Told(x: Session) { x.name.ConnectName? && x.established && !x.closed ==> x.log != [] }

  ghost predicate AllTold(st: State) { forall t :: t in st.sess ==> Told(st.sess[t]) }

  /** The event forwards a block to the name of a CONNECT whose holder is open and has no bond. */
  predicate TooEarly(st: State, e: Event)
    requires Enabled(st, e)
  {
    var f := Forwards(st, e);
    && f.Some? && f.value.0 in st.reg && st.reg[f.value.0] in st.sess
    && var y := st.sess[st.reg[f.value.0]];
       y.name.ConnectName? && !y.established && !y.closed
  }

  // ---- what others do to a CONNECT -----------------------------------------------------------------

  lemma UnbondedLog(x: Session)
    requires LocalOk(x) && NoticeFirst(x) && x.name.ConnectName? && !x.established
    ensures x.log == []
  {
    if x.log != [] { NoticeAmong(x.log, 0); }
    hide QueueOk, ControlOk;
  }

  lemma {:induction false} NoticeAmong(log: seq<Sent>, i: nat)
    requires i < |log| && log[i].frame.Notice?
    ensures Notices(log) >= 1
  {
    var n := |log| - 1;
    if i < n { NoticeAmong(log[..n], i); }
  }

  lemma SeenGreets(st: State, n: Name, t: Sid)
    requires t in st.sess
    ensures var x, y := st.sess[t], Seen(st, n, t);
            && y.log == x.log && y.name == x.name && y.established == x.established && (x.closed ==> y.closed)
            && (y.closed && !x.closed ==> Holds(st, n, t))
  {
  }

  lemma QueuedGreets(x: Session, p: Sent)
    ensures var y := Queued(x, p);
            && y.name == x.name && y.established == x.established && (x.closed ==> y == x)
            && (!x.closed ==> y.log == x.log + [p])
  {
    hide Size;
  }

  lemma ClosedGreets(x: Session)
    ensures var y := Closed(x); y.name == x.name && y.established == x.established && y.log == x.log && y.closed
  {
  }

  lemma SameGreets(x: Session, y: Session)
    requires y.log == x.log && y.name == x.name && y.established == x.established && (x.closed ==> y.closed)
    ensures NoticeFirst(x) <==> NoticeFirst(y)
    ensures Told(x) ==> Told(y)
  {
  }

  lemma NamedAs(st: State, n: Name, t: Sid)
    requires Inv(st) && Holds(st, n, t)
    ensures t in st.sess && st.sess[t].name == n
  {
    ShapeParts(st);
    hide Inv, Waiting, Counted;
  }

  lemma TakenGreets(st: State, n: Name, t: Sid, y: Session)
    requires t in st.sess && NoticeFirst(st.sess[t]) && Told(st.sess[t]) && TakenReach(st, n, t, y)
    ensures NoticeFirst(y) && Told(y)
  {
    var z := Seen(st, n, t);
    SeenGreets(st, n, t);
    hide Seen, Closed, Mirrors, NoticeFirst, Told;
    ClosedGreets(z);
    SameGreets(st.sess[t], z);
    SameGreets(z, Closed(z));
  }

  /** A CONNECT that is bonded is told so before anything else. */
  lemma BondGreets(x: Session, z: Session, p: Sent)
    requires LocalOk(x) && NoticeFirst(x) && x.name.ConnectName? && !x.established && p.frame.Notice?
    requires z.log == x.log && z.name == x.name && z.closed == x.closed
    ensures NoticeFirst(Queued(Bonded(z), p)) && Told(Queued(Bonded(z), p))
  {
    UnbondedLog(x);
    QueuedGreets(Bonded(z), p);
    hide LocalOk, Queued;
    assert [] + [p] == [p];
  }

  lemma ListenerGreets(z: Session, p: Sent)
    requires !z.name.ConnectName?
    ensures NoticeFirst(Queued(z, p)) && Told(Queued(z, p))
  {
    QueuedGreets(z, p);
    hide Queued;
  }

  lemma FreeGreets(st: State, s: Sid, n: Name, t: Sid, y: Session)
    requires Inv(st) && t in st.sess && LocalOk(st.sess[t]) && NoticeFirst(st.sess[t]) && Told(st.sess[t])
    requires FreeReach(st, s, n, t, y)
    ensures NoticeFirst(y) && Told(y)
  {
    var x, z, p := st.sess[t], Seen(st, n, t), Sent(s, Notice(n.src));
    SeenGreets(st, n, t);
    BondableIs(st, n, t);
    hide Inv, LocalOk, Bondable, Seen, Queued, NoticeFirst, Told;
    SameGreets(x, z);
    if n.ConnectName? && Holds(st, ListenName(n.dst), t) {
      NamedAs(st, ListenName(n.dst), t);
      ListenerGreets(z, p);
    } else if n.AcceptName? && Bondable(st, n) == Some(t) {
      NamedAs(st, ConnectName(n.dst, n.src), t);
      BondGreets(x, z, p) by { assert !Holds(st, n, t); }
    }
  }

  /** A registration tells a CONNECT of its bond, or leaves what it was sent alone. */
  lemma RegistrationGreets(st: State, s: Sid, n: Name, t: Sid, y: Session)
    requires Inv(st) && t in st.sess && LocalOk(st.sess[t]) && NoticeFirst(st.sess[t]) && Told(st.sess[t])
    requires TakenReach(st, n, t, y) || FreeReach(st, s, n, t, y)
    ensures NoticeFirst(y) && Told(y)
  {
    hide *;
    if TakenReach(st, n, t, y) { TakenGreets(st, n, t, y); } else { FreeGreets(st, s, n, t, y); }
  }

  /** What is forwarded to `t` comes too early. */
  predicate EarlyFor(st: State, f: Option<(Name, Frame)>, t: Sid)
    requires t in st.sess
  {
    && f.Some? && Holds(st, f.value.0, t)
    && st.sess[t].name.ConnectName? && !st.sess[t].established && !st.sess[t].closed
  }

  lemma DataGreets(x: Session, p: Sent)
    requires LocalOk(x) && NoticeFirst(x) && Told(x) && (x.name.ConnectName? ==> !p.frame.Notice?)
    ensures var y := Queued(x, p);
            Told(y) && (NoticeFirst(y) <==> !(x.name.ConnectName? && !x.established && !x.closed))
  {
    QueuedGreets(x, p);
    if x.name.ConnectName? && !x.established { UnbondedLog(x); }
    hide LocalOk, Queued;
  }

  /** Of all other steps only a block that comes too early makes something else than a notice the first. */
  lemma OtherGreets(st: State, s: Sid, f: Option<(Name, Frame)>, ends: bool, t: Sid, y: Session)
    requires Inv(st) && t in st.sess && LocalOk(st.sess[t]) && NoticeFirst(st.sess[t]) && Told(st.sess[t])
    requires f.Some? ==> !f.value.1.Notice?
    requires OtherReach(st, s, f, ends, t, y)
    ensures Told(y) && (NoticeFirst(y) <==> !EarlyFor(st, f, t))
  {
    var z := GivenTo(st, s, f, t);
    GivenGreets(st, s, f, t);
    hide Inv, LocalOk, GivenTo, NoticeFirst, Told, Closed, Holder, Mirrors, EarlyFor;
    ClosedGreets(z);
    SameGreets(z, Closed(z));
  }

  lemma GivenGreets(st: State, s: Sid, f: Option<(Name, Frame)>, t: Sid)
    requires t in st.sess && LocalOk(st.sess[t]) && NoticeFirst(st.sess[t]) && Told(st.sess[t])
    requires f.Some? ==> !f.value.1.Notice?
    ensures var z := GivenTo(st, s, f, t); Told(z) && (NoticeFirst(z) <==> !EarlyFor(st, f, t))
  {
    hide LocalOk, Queued, NoticeFirst, Told;
    if f.Some? { DataGreets(st.sess[t], Sent(s, f.value.1)); }
  }

  lemma ForwardsData(st: State, e: Event)
    requires Enabled(st, e)
    ensures Forwards(st, e).Some? ==> !Forwards(st, e).value.1.Notice?
  {
    hide GetU16, GetU32;
  }

  // ---- what a CONNECT does to itself -----------------------------------------------------------------

  /** The session was sent nothing, and is no more established than it was. */
  ghost predicate SelfKept(x: Session, y: Session) {
    && y.log == x.log && (y.established ==> x.established) && (x.closed ==> y.closed)
    && (y.name == x.name || (!x.registered && !y.established && y.log == []))
  }

  lemma KeptGreets(x: Session, y: Session)
    requires SelfKept(x, y) && NoticeFirst(x) && Told(x)
    ensures NoticeFirst(y) && Told(y)
  {
  }

  lemma FinishKept(st: State, s: Sid)
    requires Live(st, s) && s in st.sess
    ensures s in Finish(st, s).sess && SelfKept(st.sess[s], Finish(st, s).sess[s])
  {
    FinishHasEffect(st, s);
    hide Finish, Index, Counted;
  }

  lemma PutKept(st: State, s: Sid, y: Session)
    requires s in st.sess && SelfKept(st.sess[s], y)
    ensures s in Put(st, s, y).sess && SelfKept(st.sess[s], Put(st, s, y).sess[s])
  {
    hide SelfKept;
  }

  lemma PcKept(x: Session, pc: Pc, input: Bytes)
    ensures SelfKept(x, x.(pc := pc)) && SelfKept(x, x.(pc := pc, input := input)) && SelfKept(x, x)
  {
  }

  lemma KeptTrans(x: Session, y: Session, z: Session)
    requires SelfKept(x, y) && SelfKept(y, z) && y.registered == x.registered
    ensures SelfKept(x, z)
  {
  }

  lemma LoopKept(st: State, e: Event)
    requires Inv(st) && Enabled(st, e) && (e.BondResume? || e.SomeRead?) && e.s in st.sess
    ensures e.s in Step(st, e).sess && SelfKept(st.sess[e.s], Step(st, e).sess[e.s])
  {
    LoopSteps(st, e);
    LiveAt(st, e.s);
    hide *;
    if Ends(st, e) {
      FinishKept(st, e.s);
    } else {
      var next := if e.BondResume? then ReadPtpHeader else ReadSome;
      LoopTopIs(st, e.s, next);
      PcKept(st.sess[e.s], next, []);
      PutKept(st, e.s, st.sess[e.s].(pc := next));
    }
  }

  lemma LoopedKept(x: Session)
    ensures SelfKept(x, WriterLoop(x))
    ensures x.writer.Writing? ==> forall ok :: SelfKept(x, WriteDone(x, ok))
  {
    hide Size;
  }

  lemma WriterKept(st: State, e: Event)
    requires Enabled(st, e) && (e.WriterRuns? || e.Written? || e.BondTimer? || e.ListenTimer?) && e.s in st.sess
    ensures e.s in Step(st, e).sess && SelfKept(st.sess[e.s], Step(st, e).sess[e.s])
  {
    var x := st.sess[e.s];
    LoopedKept(x);
    PcKept(x, AwaitListen(true), []);
    PcKept(x, AwaitBond(true), []);
    hide SelfKept, WriterLoop, WriteDone;
  }

  lemma BrokenKept(st: State, e: Event)
    requires Inv(st) && Enabled(st, e) && (e.HeaderRead? || e.BlockRead?) && e.raw.None? && e.s in st.sess
    ensures e.s in Step(st, e).sess && SelfKept(st.sess[e.s], Step(st, e).sess[e.s])
  {
    BrokenSteps(st, e);
    LiveAt(st, e.s);
    hide *;
    FinishKept(st, e.s);
  }

  lemma SendToOther(st: State, s: Sid, raw: Bytes, target: Name, f: Frame)
    requires s in st.sess && !Holds(st, target, s)
    ensures var h := SendTo(Consume(st, s, raw), target, Sent(s, f));
            s in h.sess && h.sess[s] == st.sess[s].(input := st.sess[s].input + raw)
  {
    hide Queued;
  }

  /** Nobody forwards a PTP block to itself. */
  lemma ForwardKept(st: State, s: Sid, raw: Bytes, target: Name, f: Frame, next: Pc)
    requires Live(st, s) && s in st.sess && !Holds(st, target, s)
    ensures var q := Forward(Consume(st, s, raw), s, target, f, next);
            s in q.sess && SelfKept(st.sess[s], q.sess[s])
  {
    SendToShuts(st, s, raw, target, f);
    SendToOther(st, s, raw, target, f);
    hide *;
    var h, x := SendTo(Consume(st, s, raw), target, Sent(s, f)), st.sess[s];
    ForwardIs(Consume(st, s, raw), s, target, f, next);
    LoopTopIs(h, s, next);
    PcKept(x, x.pc, x.input + raw);
    SamePc(x, x.input + raw);
    PcKept(h.sess[s], next, []);
    PutKept(h, s, h.sess[s].(pc := next));
    KeptTrans(x, h.sess[s], h.sess[s].(pc := next));
    PutAt(h, s);
    if h.sess[s].closed {
      FinishKept(h, s);
      KeptTrans(x, h.sess[s], Finish(h, s).sess[s]);
    }
  }

  lemma SamePc(x: Session, input: Bytes)
    ensures x.(pc := x.pc, input := input) == x.(input := input) && x.(input := input).registered == x.registered
  {
  }

  lemma ForwardIs(c: State, s: Sid, target: Name, f: Frame, next: Pc)
    requires s in c.sess
    ensures s in SendTo(c, target, Sent(s, f)).sess
    ensures Forward(c, s, target, f, next) == LoopTop(SendTo(c, target, Sent(s, f)), s, next)
  {
    hide LoopTop, Queued;
  }

  lemma PtpKept(st: State, s: Sid, raw: Bytes)
    requires Inv(st) && Enabled(st, HeaderRead(s, Some(raw))) && s in st.sess && st.sess[s].pc.ReadPtpHeader?
    ensures s in Step(st, HeaderRead(s, Some(raw))).sess
    ensures SelfKept(st.sess[s], Step(st, HeaderRead(s, Some(raw))).sess[s])
  {
    HeaderSteps(st, s, raw);
    PtpHeaderIs(st, s, raw);
    ReaderRegistered(st, s);
    LiveAt(st, s);
    hide *;
    var x := st.sess[s];
    if GetU32(raw) > PTP_BLOCK_LIMIT {
      FinishKept(st, s);
    } else if GetU32(raw) == 0 {
      ForwardKept(st, s, raw, Peer(x.name).value, PtpFrame([]), ReadPtpHeader);
    } else {
      PcKept(x, ReadPtpBlock(GetU32(raw)), x.input + raw);
      PutKept(st, s, x.(input := x.input + raw, pc := ReadPtpBlock(GetU32(raw))));
      OneUpdate(x, x.input + raw, ReadPtpBlock(GetU32(raw)));
    }
  }

  lemma OneUpdate(x: Session, input: Bytes, pc: Pc)
    ensures x.(input := input, pc := pc) == x.(pc := pc, input := input)
  {
  }

  lemma BlockKept(st: State, s: Sid, raw: Bytes)
    requires Inv(st) && Enabled(st, BlockRead(s, Some(raw))) && s in st.sess && !st.sess[s].pc.ReadPdpBlock?
    ensures s in Step(st, BlockRead(s, Some(raw))).sess
    ensures SelfKept(st.sess[s], Step(st, BlockRead(s, Some(raw))).sess[s])
  {
    BlockSteps(st, s, raw);
    BlockReader(st, s);
    LiveAt(st, s);
    hide *;
    ForwardKept(st, s, raw, Peer(st.sess[s].name).value, PtpFrame(raw), ReadPtpHeader);
  }

  lemma BlockReader(st: State, s: Sid)
    requires Inv(st) && s in st.sess && st.sess[s].pc.ReadPtpBlock?
    ensures forall n :: Peer(st.sess[s].name) == Some(n) ==> !Holds(st, n, s)
  {
    LocalAt(st, s);
    ShapeParts(st);
    if IsPtpPipe(st.sess[s].name) { PeerIsInvolution(st.sess[s].name); }
    hide Inv, QueueOk, LogOk, NotWaiting, Waiting, Counted;
  }

  /** A PDP session is never anything else. */
  lemma PdpStays(st: State, e: Event)
    requires Inv(st) && Enabled(st, e) && e.s in st.sess && (st.sess[e.s].pc.ReadPdpHeader? || st.sess[e.s].pc.ReadPdpBlock?)
    ensures e.s in Step(st, e).sess && Step(st, e).sess[e.s].name.PdpName?
  {
    LocalAt(st, e.s);
    hide *;
    PdpReaderIs(st.sess[e.s]);
    StepGrows(st, e);
    GrowsIn(st, Step(st, e), e.s);
    SameNameAfter(st, Step(st, e), e.s);
  }

  lemma PdpReaderIs(x: Session)
    requires ControlOk(x) && (x.pc.ReadPdpHeader? || x.pc.ReadPdpBlock?)
    ensures x.registered && x.name.PdpName?
  {
  }

  lemma SameNameAfter(st: State, q: State, s: Sid)
    requires Grows(st, q) && s in st.sess && s in q.sess && st.sess[s].registered
    ensures q.sess[s].name == st.sess[s].name
  {
    assert Evolves(st.sess[s], q.sess[s]);
  }

  // ---- sessions that come to nothing, or that register ---------------------------------------------

  lemma NewcomerKept(st: State, s: Sid, b: State, n: Name)
    requires Newcomer(st, s) && s in b.sess && b.sess[s] == st.sess[s].(name := n) && Live(b, s)
    ensures s in st.sess && s in Finish(b, s).sess && SelfKept(st.sess[s], Finish(b, s).sess[s])
  {
    FinishHasEffect(b, s);
    hide Finish, Index, Counted, NotWaiting;
  }

  lemma WaitKept(st: State, s: Sid, n: Name)
    requires Newcomer(st, s)
    ensures s in st.sess && SelfKept(st.sess[s], st.sess[s].(name := n, pc := AwaitListen(false)))
  {
  }

  lemma RefusedKept(st: State, s: Sid, i: Init, inTime: bool)
    requires Inv(st) && Newcomer(st, s) && s in st.sess && st.sess[s].pc.ReadInit? && Entering(st, i).None?
    ensures s in Dispatch(st, s, i, inTime).sess && SelfKept(st.sess[s], Dispatch(st, s, i, inTime).sess[s])
  {
    var n, m, x := ConnectName(i.src, i.dst), AcceptName(i.src, i.dst), st.sess[s];
    InitRefused(st, s, i, inTime);
    hide Dispatch, Finish, Entering, Inv, Newcomer, SelfKept, Live, Holder;
    NewcomerHoldsNothing(st, s);
    assert x.(name := x.name) == x;
    NewcomerKept(st, s, st, x.name);
    RenamedKept(st, s, n);
    RenamedKept(st, s, m);
    WaitKept(st, s, n);
  }

  lemma RenamedKept(st: State, s: Sid, n: Name)
    requires Inv(st) && Newcomer(st, s) && s in st.sess && st.sess[s].pc.ReadInit?
    ensures var q := Finish(Put(st, s, st.sess[s].(name := n)), s);
            s in q.sess && SelfKept(st.sess[s], q.sess[s])
  {
    hide Finish, Inv, Newcomer, SelfKept, Live, Holder;
    var b := Put(st, s, st.sess[s].(name := n));
    RelaySafety.RenameKeeps(st, s, n);
    NewcomerHoldsNothing(b, s);
    NewcomerKept(st, s, b, n);
  }

  lemma InitKept(st: State, s: Sid, raw: Option<Bytes>, inTime: bool)
    requires Inv(st) && Enabled(st, InitDone(s, raw, inTime)) && Registers(st, InitDone(s, raw, inTime)).None?
    ensures s in st.sess
    ensures var q := Step(st, InitDone(s, raw, inTime)); s in q.sess && SelfKept(st.sess[s], q.sess[s])
  {
    InitFails(st, s, raw, inTime);
    FreshIsNewcomer(st, s);
    if raw.Some? {
      InitSteps(st, s, raw.value, inTime);
      InitRegistersNot(st, s, raw.value, inTime);
      hide *;
      RefusedKept(st, s, ParseInit(raw.value), inTime);
    } else {
      hide *;
      NewcomerHoldsNothing(st, s);
      FinishKept(st, s);
    }
  }

  lemma ResumeKept(st: State, s: Sid)
    requires Inv(st) && Enabled(st, ListenResume(s)) && Registers(st, ListenResume(s)).None?
    ensures s in st.sess
    ensures var q := Step(st, ListenResume(s)); s in q.sess && SelfKept(st.sess[s], q.sess[s])
  {
    ResumeSteps(st, s);
    hide *;
    var b := st.(waiters := StopWaiting(st.waiters, ListenerOf(st.sess[s].name), s));
    RelaySafety.StopWaitingKeeps(st, s);
    NewcomerHoldsNothing(b, s);
    FinishKept(b, s);
  }

  lemma SelfGreets(st: State, e: Event)
    requires Inv(st) && Enabled(st, e) && Registers(st, e).None? && e.s in st.sess
    requires NoticeFirst(st.sess[e.s]) && Told(st.sess[e.s])
    ensures e.s in Step(st, e).sess && NoticeFirst(Step(st, e).sess[e.s]) && Told(Step(st, e).sess[e.s])
  {
    EarlyEvents(st, e);
    hide *;
    var x := st.sess[e.s];
    if x.pc.ReadPdpHeader? || x.pc.ReadPdpBlock? {
      PdpStays(st, e);
      NotConnectGreets(Step(st, e).sess[e.s]);
    } else {
      if e.InitDone? {
        InitKept(st, e.s, e.raw, e.inTime);
      } else if e.ListenResume? {
        ResumeKept(st, e.s);
      } else if e.HeaderRead? || e.BlockRead? {
        BlocksKept(st, e);
      } else if e.BondResume? || e.SomeRead? {
        LoopKept(st, e);
      } else {
        WriterKept(st, e);
      }
      KeptGreets(x, Step(st, e).sess[e.s]);
    }
  }

  lemma BlocksKept(st: State, e: Event)
    requires Inv(st) && Enabled(st, e) && (e.HeaderRead? || e.BlockRead?) && e.s in st.sess
    requires !st.sess[e.s].pc.ReadPdpHeader? && !st.sess[e.s].pc.ReadPdpBlock?
    ensures e.s in Step(st, e).sess && SelfKept(st.sess[e.s], Step(st, e).sess[e.s])
  {
    if e.HeaderRead? { ReadersAre(st, e); }
    hide *;
    if e.raw.None? {
      BrokenKept(st, e);
    } else if e.HeaderRead? {
      PtpKept(st, e.s, e.raw.value);
    } else {
      BlockKept(st, e.s, e.raw.value);
    }
  }

  lemma ReadersAre(st: State, e: Event)
    requires Enabled(st, e) && e.HeaderRead? && e.s in st.sess
    ensures st.sess[e.s].pc.ReadPdpHeader? || st.sess[e.s].pc.ReadPtpHeader?
  {
  }

  lemma NotConnectGreets(x: Session)
    requires !x.name.ConnectName?
    ensures NoticeFirst(x) && Told(x)
  {
  }

  lemma BeginsGreets(y: Session, s: Sid, n: Name)
    requires Begins(y, s, n)
    ensures NoticeFirst(y) && Told(y)
  {
  }

  lemma EmptyGreets(y: Session)
    requires y.log == [] && y.closed
    ensures NoticeFirst(y) && Told(y)
  {
  }

  /** A session that registers on a port in use was sent nothing, and is closed. */
  lemma TakenSelf(st: State, s: Sid, n: Name, est: bool, next: Pc)
    requires Ready(st, s)
    ensures var r := Register(st, s, n, est, next);
            s in r.sess && s in Finish(r, s).sess && Finish(r, s).sess[s].log == [] && Finish(r, s).sess[s].closed
  {
    RegisteredLives(st, s, n, est, next);
    NewcomerLog(st, s);
    hide Register, Ready, Finish, Live, Newcomer;
    EndedSelf(Register(st, s, n, est, next), s);
  }

  lemma NewcomerLog(st: State, s: Sid)
    requires Ready(st, s)
    ensures s in st.sess && st.sess[s].log == []
  {
  }

  lemma EndedSelf(r: State, s: Sid)
    requires Live(r, s) && s in r.sess
    ensures s in Finish(r, s).sess && Finish(r, s).sess[s].log == r.sess[s].log && Finish(r, s).sess[s].closed
  {
    FinishHasEffect(r, s);
    hide Finish, Index, Counted;
  }

  lemma EnterTaken(st: State, s: Sid, n: Name, next: Pc)
    requires Ready(st, s) && KeyOf(n) in st.dir
    ensures var q := Enter(st, s, n, next); s in q.sess && q.sess[s].log == [] && q.sess[s].closed
  {
    TakenSelf(st, s, n, false, next);
    NewcomerFrom(st, s);
    hide Register, Ready, Finish, KeyOf;
  }

  lemma ConnectTaken(st: State, s: Sid, n: Name)
    requires Ready(st, s) && KeyOf(n) in st.dir && n.ConnectName? && ListenName(n.dst) in st.reg
    ensures var q := EstablishConnect(st, s, n); s in q.sess && q.sess[s].log == [] && q.sess[s].closed
  {
    TakenSelf(st, s, n, false, AwaitBond(false));
    NewcomerFrom(st, s);
    ConnectUnfolds(st, s, n);
    hide Register, Ready, Finish, KeyOf, EstablishConnect;
  }

  lemma NamedTaken(st: State, s: Sid, n: Name)
    requires Inv(st) && Newcomer(st, s) && s in st.sess && st.sess[s].pc.ReadInit? && KeyOf(n) in st.dir
    requires n.ConnectName? && ListenName(n.dst) in st.reg
    ensures var q := EstablishConnect(Put(st, s, st.sess[s].(name := n)), s, n);
            s in q.sess && q.sess[s].log == [] && q.sess[s].closed
  {
    hide Inv, Newcomer, Ready, EstablishConnect, KeyOf;
    var b := Put(st, s, st.sess[s].(name := n));
    RelaySafety.RenameKeeps(st, s, n);
    ReadyFor(b, s);
    ConnectTaken(b, s, n);
  }

  lemma InitTaken(st: State, s: Sid, i: Init, inTime: bool, n: Name)
    requires Inv(st) && Newcomer(st, s) && s in st.sess && st.sess[s].pc.ReadInit? && Entering(st, i) == Some(n)
    requires KeyOf(n) in st.dir
    ensures var q := Dispatch(st, s, i, inTime); s in q.sess && q.sess[s].log == [] && q.sess[s].closed
  {
    DispatchesTo(st, s, i, inTime);
    EnteringIs(st, i, n);
    hide *;
    ReadyFor(st, s);
    if i.kind == 0 {
      EnterTaken(st, s, n, ReadPdpHeader);
    } else if i.kind == 1 {
      EnterTaken(st, s, n, ReadSome);
    } else if i.kind == 2 {
      NamedTaken(st, s, n);
    } else {
      AcceptTaken(st, s, n);
      TakenSelf(st, s, n, true, ReadPtpHeader);
    }
  }

  lemma ResumeTaken(st: State, s: Sid)
    requires Inv(st) && Enabled(st, ListenResume(s)) && s in st.sess && st.sess[s].name.ConnectName?
    requires ListenName(st.sess[s].name.dst) in st.reg && KeyOf(st.sess[s].name) in st.dir
    ensures var q := Step(st, ListenResume(s)); s in q.sess && q.sess[s].log == [] && q.sess[s].closed
  {
    ListenerIs(st.sess[s].name);
    hide *;
    ResumeConnects(st, s);
    var n := st.sess[s].name;
    var b := st.(waiters := StopWaiting(st.waiters, ListenerOf(n), s));
    RelaySafety.StopWaitingKeeps(st, s);
    ReadyFor(b, s);
    ConnectTaken(b, s, n);
  }

  lemma RegistrantGreets(st: State, e: Event, n: Name)
    requires Inv(st) && Enabled(st, e) && Registers(st, e) == Some(n)
    ensures e.s in Step(st, e).sess && NoticeFirst(Step(st, e).sess[e.s]) && Told(Step(st, e).sess[e.s])
  {
    if KeyOf(n) !in st.dir {
      hide *;
      RegistrantBegins(st, e, n);
      BeginsGreets(Step(st, e).sess[e.s], e.s, n);
    } else if e.ListenResume? {
      ResumeNames(st, e, n);
      hide *;
      ResumeTaken(st, e.s);
      EmptyGreets(Step(st, e).sess[e.s]);
    } else {
      hide Inv, Step, Entering, Dispatch, Newcomer, ParseInit, KeyOf, NoticeFirst, Told;
      InitSteps(st, e.s, e.raw.value, e.inTime);
      FreshIsNewcomer(st, e.s);
      InitTaken(st, e.s, ParseInit(e.raw.value), e.inTime, n);
      EmptyGreets(Step(st, e).sess[e.s]);
    }
  }

  // ---- one step --------------------------------------------------------------------------------------

  /** What the step does to one session's greeting. */
  lemma StepGreets(st: State, e: Event, t: Sid)
    requires Inv(st) && Enabled(st, e) && t in st.sess && NoticeFirst(st.sess[t]) && Told(st.sess[t])
    ensures t in Step(st, e).sess && Told(Step(st, e).sess[t])
    ensures NoticeFirst(Step(st, e).sess[t]) <==> !(t != e.s && EarlyFor(st, Forwards(st, e), t))
  {
    if Registers(st, e).Some? {
      RegistersForwardsNot(st, e, t);
      LocalAt(st, t);
      hide *;
      var n := Registers(st, e).value;
      if t == e.s {
        RegistrantGreets(st, e, n);
      } else {
        RegistrationReaches(st, e, n, t);
        RegistrationGreets(st, e.s, n, t, Step(st, e).sess[t]);
      }
    } else {
      ForwardsData(st, e);
      LocalAt(st, t);
      hide *;
      if t == e.s {
        SelfGreets(st, e);
      } else {
        OtherStepReaches(st, e, t);
        OtherGreets(st, e.s, Forwards(st, e), Ends(st, e), t, Step(st, e).sess[t]);
      }
    }
  }

  lemma RegistersForwardsNot(st: State, e: Event, t: Sid)
    requires Enabled(st, e) && Registers(st, e).Some? && t in st.sess
    ensures !EarlyFor(st, Forwards(st, e), t)
  {
    hide Entering;
  }

  /** A block that comes too early comes to somebody else. */
  lemma EarlyIsFor(st: State, e: Event)
    requires Inv(st) && Enabled(st, e)
    ensures TooEarly(st, e) <==>
            exists t :: t in st.sess && t != e.s && EarlyFor(st, Forwards(st, e), t)
  {
    if TooEarly(st, e) {
      var t := st.reg[Forwards(st, e).value.0];
      ForwarderIsNoConnectYet(st, e);
      hide Inv, Forwards, Enabled;
      assert t in st.sess && t != e.s && EarlyFor(st, Forwards(st, e), t);
    }
  }

  /** Whoever forwards is a PDP session or established. */
  lemma ForwarderIsNoConnectYet(st: State, e: Event)
    requires Inv(st) && Enabled(st, e) && Forwards(st, e).Some?
    ensures e.s in st.sess && (st.sess[e.s].name.ConnectName? ==> st.sess[e.s].established)
  {
    ForwarderReads(st, e);
    LocalAt(st, e.s);
    hide *;
    ReaderEstablished(st.sess[e.s]);
  }

  lemma ForwarderReads(st: State, e: Event)
    requires Enabled(st, e) && Forwards(st, e).Some?
    ensures e.s in st.sess
    ensures var pc := st.sess[e.s].pc; pc.ReadPdpHeader? || pc.ReadPtpHeader? || pc.ReadPdpBlock? || pc.ReadPtpBlock?
  {
    hide GetU16, GetU32;
  }

  lemma ReaderEstablished(x: Session)
    requires ControlOk(x) && (x.pc.ReadPdpHeader? || x.pc.ReadPtpHeader? || x.pc.ReadPdpBlock? || x.pc.ReadPtpBlock?)
    ensures x.name.ConnectName? ==> x.established
  {
  }

  lemma AddedGreets(st: State, e: Event, t: Sid)
    requires Inv(st) && Enabled(st, e) && t in Step(st, e).sess && t !in st.sess
    ensures NoticeFirst(Step(st, e).sess[t]) && Told(Step(st, e).sess[t])
  {
    hide Inv, Step, Enabled;
    AddedIsNew(st, e, t);
  }

  /** A step keeps it so that every CONNECT is told of its peer first if and only if it does not forward a
      block to the name of a CONNECT whose holder is open and has no bond. */
  lemma GreetingKept(st: State, e: Event)
    requires Inv(st) && Enabled(st, e) && NoticesFirst(st) && AllTold(st)
    ensures AllTold(Step(st, e))
    ensures NoticesFirst(Step(st, e)) <==> !TooEarly(st, e)
  {
    EarlyIsFor(st, e);
    var q := Step(st, e);
    hide Inv, Step, Enabled, NoticeFirst, Told, TooEarly, EarlyFor;
    forall t | t in q.sess ensures Told(q.sess[t]) {
      if t in st.sess { StepGreets(st, e, t); } else { AddedGreets(st, e, t); }
    }
    if !TooEarly(st, e) {
      forall t | t in q.sess ensures NoticeFirst(q.sess[t]) {
        if t in st.sess { StepGreets(st, e, t); } else { AddedGreets(st, e, t); }
      }
    } else {
      var t :| t in st.sess && t != e.s && EarlyFor(st, Forwards(st, e), t);
      StepGreets(st, e, t);
    }
  }

  // ---- whole runs ------------------------------------------------------------------------------------

  ghost predicate AlwaysFirst(st: State, es: seq<Event>)
    requires Schedulable(st, es)
    decreases |es|
  {
    NoticesFirst(st) && (es == [] || AlwaysFirst(Step(st, es[0]), es[1..]))
  }

  /** No block comes too early. */
  ghost predicate AlwaysPunctual(st: State, es: seq<Event>)
    requires Schedulable(st, es)
    decreases |es|
  {
    es == [] || (!TooEarly(st, es[0]) && AlwaysPunctual(Step(st, es[0]), es[1..]))
  }

  /** All through a run every CONNECT is told of its peer first if and only if no block comes too early. */
  lemma {:induction false} GreetedThroughout(st: State, es: seq<Event>)
    requires Inv(st) && NoticesFirst(st) && AllTold(st) && Schedulable(st, es)
    ensures AlwaysFirst(st, es) <==> AlwaysPunctual(st, es)
    ensures AlwaysPunctual(st, es) ==> NoticesFirst(Run(st, es))
    decreases |es|
  {
    hide Inv, Step, Enabled, NoticesFirst, AllTold, TooEarly;
    if es != [] {
      StepKeeps(st, es[0]);
      GreetingKept(st, es[0]);
      if TooEarly(st, es[0]) {
        assert !AlwaysFirst(Step(st, es[0]), es[1..]);
      } else {
        GreetedThroughout(Step(st, es[0]), es[1..]);
      }
    }
  }

  lemma DeliveredFirst(x: Session)
    requires NoticeFirst(x) && x.delivered <= x.log
    ensures x.name.ConnectName? ==> x.delivered == [] || x.delivered[0].frame.Notice?
  {
  }

  /** So in a run without such a block the bytes written to every client, under CONNECT too, read back as just
      the packets that were delivered. */
  lemma PunctualStreamsRead(es: seq<Event>, s: Sid)
    requires Schedulable(INITIAL, es) && AlwaysPunctual(INITIAL, es) && s in Run(INITIAL, es).sess
    ensures var x := Run(INITIAL, es).sess[s]; ReadFrames(x.name, 0, WireAll(x.delivered)) == FramesOf(x.delivered)
  {
    InitialInv();
    assert NoticesFirst(INITIAL) && AllTold(INITIAL);
    GreetedThroughout(INITIAL, es);
    StreamRoundTrip(es, s);
    Reachable(es);
    LocalAt(Run(INITIAL, es), s);
    var x := Run(INITIAL, es).sess[s];
    assert NoticeFirst(x);
    hide Inv, Run, Schedulable, AlwaysPunctual, AlwaysFirst, ReadFrames, WireAll, NoticesFirst, NoticeFirst, QueueOk, LogOk,
      ControlOk, NotWaiting;
    DeliveredOfLog(x);
    DeliveredFirst(x);
  }
}
