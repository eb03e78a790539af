/** The invariant over whole runs. */
module RelayRuns {
  import opened Bytes
  import opened SessionNames
  import opened RelayDirectories
  import opened RelayModel
  import opened RelayInvariant
  import opened RelaySteps
  import opened RelayFinish
  import opened RelayRegister
  import opened RelaySafety
  import opened RelayData
  import opened RelayBond

  lemma LocalAt(st: State, s: Sid)
    requires Inv(st) && s in st.sess
    ensures LocalOk(st.sess[s]) && ControlOk(st.sess[s])
    ensures !st.sess[s].pc.AwaitListen? ==> NotWaiting(st, s)
  {
    hide Origins, Pipes, BondsOk, HalfOpen, Advertised, Counted, Index;
    assert LocalOk(st.sess[s]);
  }

  lemma GreetedAt(st: State)
    requires Inv(st)
    ensures Shape(st) && Traffic(st)
    ensures forall t :: t in st.sess ==> Greeted(st.sess[t])
  {
  }

  /** `finish` from a suspended session. */
  lemma StopKeeps(st: State, s: Sid)
    requires Inv(st) && s in st.sess && !st.sess[s].pc.AwaitListen? && !st.sess[s].pc.Done?
    ensures Inv(Finish(st, s))
  {
    LocalAt(st, s);
    GreetedAt(st);
    hide Inv, Shape, Traffic, LocalOk, Finish, NotWaiting;
    FinishKeeps(st, s);
  }

  lemma DispatchKeeps(st: State, s: Sid, init: Init, inTime: bool)
    requires Inv(st) && s in st.sess && st.sess[s].pc.ReadInit?
    ensures Inv(Dispatch(st, s, init, inTime))
  {
    hide *;
    DispatchesTo(st, s, init, inTime);
    FreshIsNewcomer(st, s);
    if init.kind == 0 {
      PdpEnterKeeps(st, s, init.src);
    } else if init.kind == 1 {
      ListenEnterKeeps(st, s, init.src);
    } else if init.kind == 2 {
      ConnectDispatchKeeps(st, s, init, inTime);
    } else if init.kind == 3 {
      AcceptEnterKeeps(st, s, init);
    } else {
      StopKeeps(st, s);
    }
  }

  lemma PdpEnterKeeps(st: State, s: Sid, e: Endpoint)
    requires Inv(st) && s in st.sess && st.sess[s].pc.ReadInit?
    ensures Inv(Enter(st, s, PdpName(e), ReadPdpHeader))
  {
    hide Inv, Enter, Newcomer, ControlOk;
    FreshIsNewcomer(st, s);
    EnterKeeps(st, s, PdpName(e), ReadPdpHeader);
  }

  lemma ListenEnterKeeps(st: State, s: Sid, e: Endpoint)
    requires Inv(st) && s in st.sess && st.sess[s].pc.ReadInit?
    ensures Inv(Enter(st, s, ListenName(e), ReadSome))
  {
    hide Inv, Enter, Newcomer, ControlOk;
    FreshIsNewcomer(st, s);
    EnterKeeps(st, s, ListenName(e), ReadSome);
  }

  lemma AcceptEnterKeeps(st: State, s: Sid, init: Init)
    requires Inv(st) && Newcomer(st, s) && s in st.sess && st.sess[s].pc.ReadInit?
    ensures Inv(EstablishAccept(st, s, AcceptName(init.src, init.dst)))
  {
    hide Inv, EstablishAccept, Newcomer;
    EstablishAcceptKeeps(st, s, AcceptName(init.src, init.dst));
  }

  lemma DispatchesTo(st: State, s: Sid, init: Init, inTime: bool)
    requires s in st.sess
    ensures init.kind == 0 ==> Dispatch(st, s, init, inTime) == Enter(st, s, PdpName(init.src), ReadPdpHeader)
    ensures init.kind == 1 ==> Dispatch(st, s, init, inTime) == Enter(st, s, ListenName(init.src), ReadSome)
    ensures init.kind == 2 && ListenName(init.dst) in st.reg ==>
      var n := ConnectName(init.src, init.dst);
      Dispatch(st, s, init, inTime) == EstablishConnect(Put(st, s, st.sess[s].(name := n)), s, n)
    ensures init.kind == 3 ==>
      Dispatch(st, s, init, inTime) == EstablishAccept(st, s, AcceptName(init.src, init.dst))
    ensures init.kind > 3 ==> Dispatch(st, s, init, inTime) == Finish(st, s)
  {
    hide Enter, EstablishAccept, EstablishConnect, Finish;
  }

  lemma FreshIsNewcomer(st: State, s: Sid)
    requires Inv(st) && s in st.sess && st.sess[s].pc.ReadInit?
    ensures Newcomer(st, s)
    ensures forall e :: ControlOk(Joined(st.sess[s], PdpName(e), false, ReadPdpHeader))
    ensures forall e :: ControlOk(Joined(st.sess[s], ListenName(e), false, ReadSome))
  {
    hide Inv, LocalOk, ControlOk, NotWaiting;
    LocalAt(st, s);
    FreshJoins(st.sess[s]);
  }

  lemma FreshJoins(x: Session)
    requires ControlOk(x) && x.pc.ReadInit?
    ensures !x.registered && !x.finished && !x.closed && Unregistered(x)
    ensures forall e :: ControlOk(Joined(x, PdpName(e), false, ReadPdpHeader))
    ensures forall e :: ControlOk(Joined(x, ListenName(e), false, ReadSome))
  {
  }

  lemma ConnectDispatchKeeps(st: State, s: Sid, init: Init, inTime: bool)
    requires Inv(st) && Newcomer(st, s) && st.sess[s].pc.ReadInit? && init.kind == 2
    ensures Inv(Dispatch(st, s, init, inTime))
  {
    hide Inv, EstablishConnect, Finish;
    var n := ConnectName(init.src, init.dst);
    var named := Put(st, s, st.sess[s].(name := n));
    RenameKeeps(st, s, n);
    if ListenerOf(n) in st.reg || !inTime {
      EstablishConnectKeeps(named, s, n);
    } else {
      StartWaitingKeeps(named, s);
      var waits := st.sess[s].(name := n, pc := AwaitListen(false));
      assert st.sess[s := named.sess[s]][s := waits] == st.sess[s := waits];
    }
  }

  lemma ListenResumeKeeps(st: State, s: Sid)
    requires Inv(st) && s in st.sess && st.sess[s].pc == AwaitListen(true) && st.sess[s].name.ConnectName?
    ensures var n := st.sess[s].name;
            Inv(EstablishConnect(st.(waiters := StopWaiting(st.waiters, ListenerOf(n), s)), s, n))
  {
    hide Inv, EstablishConnect, Newcomer, StopWaiting;
    StopWaitingKeeps(st, s);
    var n := st.sess[s].name;
    EstablishConnectKeeps(st.(waiters := StopWaiting(st.waiters, ListenerOf(n), s)), s, n);
  }

  lemma TimerKeeps(st: State, s: Sid, pc: Pc)
    requires Inv(st) && s in st.sess
    requires
      || (st.sess[s].pc.AwaitListen? && pc == AwaitListen(true))
      || (st.sess[s].pc.AwaitBond? && pc == AwaitBond(true))
    ensures Inv(Put(st, s, st.sess[s].(pc := pc)))
  {
    hide Inv, LocalOk, ControlOk, NotWaiting;
    LocalAt(st, s);
    TimerLocal(st.sess[s], pc);
    PutKeeps(st, s, st.sess[s].(pc := pc));
  }

  lemma TimerLocal(x: Session, pc: Pc)
    requires LocalOk(x)
    requires (x.pc.AwaitListen? && pc == AwaitListen(true)) || (x.pc.AwaitBond? && pc == AwaitBond(true))
    ensures LocalOk(x.(pc := pc))
  {
  }

  lemma BondResumeKeeps(st: State, s: Sid)
    requires Inv(st) && s in st.sess && st.sess[s].pc == AwaitBond(true) && st.sess[s].established
    ensures Inv(LoopTop(st, s, ReadPtpHeader))
  {
    hide Inv, LocalOk, NotWaiting, Finish, LoopTop, QueueOk, LogOk;
    LocalAt(st, s);
    LoopAgain(st, s, ReadPtpHeader);
  }

  lemma SomeReadKeeps(st: State, s: Sid)
    requires Inv(st) && s in st.sess && st.sess[s].pc.ReadSome?
    ensures Inv(LoopTop(st, s, ReadSome))
  {
    hide Inv, LocalOk, NotWaiting, Finish, LoopTop, QueueOk, LogOk;
    LocalAt(st, s);
    LoopAgain(st, s, ReadSome);
  }

  lemma PdpHeaderReadKeeps(st: State, s: Sid, raw: Bytes)
    requires Inv(st) && s in st.sess && st.sess[s].pc.ReadPdpHeader? && |raw| == 14
    ensures Inv(PdpHeaderRead(st, s, raw))
  {
    LocalAt(st, s);
    hide Inv, LocalOk, NotWaiting, Finish, LoopTop, Forward, PdpTarget, PdpSize;
    assert PdpTarget(raw).PdpName? by { PdpTargetIsPdp(raw); }
    if PdpSize(raw) > PDP_BLOCK_LIMIT {
      StopKeeps(st, s);
    } else if PdpSize(raw) == 0 {
      PdpForwardKeeps(st, s, raw, PdpTarget(raw), []);
    } else {
      ConsumePdpKeeps(st, s, raw);
      PdpBlockBegins(Consume(st, s, raw), s, PdpTarget(raw), PdpSize(raw));
    }
  }

  lemma PdpTargetIsPdp(raw: Bytes)
    requires |raw| == 14
    ensures PdpTarget(raw).PdpName?
  {
  }

  lemma PdpBlockBegins(st: State, s: Sid, target: Name, size: BlockSize)
    requires Inv(st) && s in st.sess && st.sess[s].pc.ReadPdpHeader?
    requires target.PdpName? && 0 < size <= PDP_BLOCK_LIMIT
    ensures Inv(Put(st, s, st.sess[s].(pc := ReadPdpBlock(target, size))))
  {
    LocalAt(st, s);
    PdpBlockLocal(st.sess[s], target, size);
    hide *;
    PutKeeps(st, s, st.sess[s].(pc := ReadPdpBlock(target, size)));
  }

  lemma PdpBlockLocal(x: Session, target: Name, size: BlockSize)
    requires LocalOk(x) && x.pc.ReadPdpHeader? && target.PdpName? && 0 < size <= PDP_BLOCK_LIMIT
    ensures var y := x.(pc := ReadPdpBlock(target, size)); LocalOk(y) && Quiet(x, y) && SameTraffic(x, y)
  {
  }

  lemma PtpHeaderReadKeeps(st: State, s: Sid, raw: Bytes)
    requires Inv(st) && s in st.sess && st.sess[s].pc.ReadPtpHeader? && |raw| == 4
    requires IsPtpPipe(st.sess[s].name)
    ensures Inv(PtpHeaderRead(st, s, raw))
  {
    hide Inv, Forward, Completes, GetU32, Finish, Peer;
    if GetU32(raw) > PTP_BLOCK_LIMIT {
      StopKeeps(st, s);
    } else if GetU32(raw) == 0 {
      EmptyBlockCompletes(st, s, raw);
      PtpForwardKeeps(st, s, raw, [], Peer(st.sess[s].name).value) by { PeerIsInvolution(st.sess[s].name); }
    } else {
      PtpBlockBegins(st, s, raw);
      var x, r := st.sess[s], Consume(st, s, raw);
      var y := x.(input := x.input + raw, pc := ReadPtpBlock(GetU32(raw)));
      assert st.sess[s := r.sess[s]][s := y] == st.sess[s := y];
    }
  }

  lemma PtpReaderAt(st: State, s: Sid)
    requires Inv(st) && s in st.sess && (st.sess[s].pc.ReadPtpHeader? || st.sess[s].pc.ReadPtpBlock?)
    ensures st.sess[s].registered && st.sess[s].established && IsPtpPipe(st.sess[s].name)
  {
    hide Inv, LocalOk, NotWaiting, ControlOk;
    LocalAt(st, s);
    PtpReader(st.sess[s]);
  }

  lemma PtpReader(x: Session)
    requires ControlOk(x) && (x.pc.ReadPtpHeader? || x.pc.ReadPtpBlock?)
    ensures x.registered && x.established && IsPtpPipe(x.name)
  {
  }

  lemma EmptyBlockCompletes(st: State, s: Sid, raw: Bytes)
    requires Inv(st) && s in st.sess && st.sess[s].pc.ReadPtpHeader? && |raw| == 4 && GetU32(raw) == 0
    ensures Completes(st, s, raw, [])
  {
    hide Inv, GetU32, U32;
    PtpReaderAt(st, s);
    U32CopiesThrough(raw);
    assert Pending(st.sess[s].pc) + raw == raw == Wire(PtpFrame([]));
  }

  /** The payload of a block is read: with the pending header it makes the whole frame. */
  lemma FullBlockCompletes(st: State, s: Sid, raw: Bytes)
    requires Inv(st) && s in st.sess && st.sess[s].pc.ReadPtpBlock? && |raw| == st.sess[s].pc.size
    ensures Completes(st, s, raw, raw)
  {
    hide Inv, U32;
    PtpReaderAt(st, s);
    assert Pending(st.sess[s].pc) + raw == Wire(PtpFrame(raw));
  }

  /** The header of a block is read: it is pending until the block is whole. */
  lemma PtpBlockBegins(st: State, s: Sid, raw: Bytes)
    requires Inv(st) && s in st.sess && st.sess[s].pc.ReadPtpHeader? && |raw| == 4
    requires 0 < GetU32(raw) <= PTP_BLOCK_LIMIT
    ensures Inv(Put(st, s, st.sess[s].(input := st.sess[s].input + raw, pc := ReadPtpBlock(GetU32(raw)))))
  {
    U32CopiesThrough(raw);
    var y := st.sess[s].(input := st.sess[s].input + raw, pc := ReadPtpBlock(GetU32(raw)));
    LocalAt(st, s);
    PtpBlockBeginsLocal(st.sess[s], y);
    hide *;
    ShapeBonds(st);
    PtpBlockBeginsPipes(st, s, y, raw);
    PtpBlockBeginsRest(st, s, y);
    Assemble(Put(st, s, y));
  }

  lemma Assemble(st: State)
    requires Shape(st) && Locals(st) && Origins(st) && Pipes(st) && AllGreeted(st)
    ensures Inv(st)
  {
    hide Shape, Locals, Origins, Pipes, AllGreeted;
  }

  lemma PtpBlockBeginsRest(st: State, s: Sid, y: Session)
    requires Inv(st) && s in st.sess && LocalOk(y) && Quiet(st.sess[s], y) && y.log == st.sess[s].log
    ensures var r := Put(st, s, y); Shape(r) && Locals(r) && Origins(r) && AllGreeted(r)
  {
    hide Index, Waiting, Advertised, Counted, BondsOk, HalfOpen, Pipes, Origins, LocalOk;
    assert Greeted(st.sess[s]);
    QuietShape(st, s, y);
    SameLogsOrigins(st, Put(st, s, y));
  }

  lemma ShapeBonds(st: State)
    requires Inv(st)
    ensures Pipes(st)
    ensures forall b :: b in st.bonds ==> b.acc in st.sess && b.con in st.sess && b.acc != b.con
  {
    hide Index, Waiting, Advertised, Counted, HalfOpen, Locals, Origins, Pipes, AllGreeted;
    assert forall b :: b in st.bonds ==> MirrorBond(st, b);
  }

  lemma PtpBlockBeginsLocal(x: Session, y: Session)
    requires LocalOk(x) && x.pc.ReadPtpHeader? && y.pc.ReadPtpBlock? && 0 < y.pc.size
    requires y == x.(input := y.input, pc := y.pc)
    ensures LocalOk(y) && Quiet(x, y)
  {
  }

  lemma SameLogsOrigins(st: State, r: State)
    requires Origins(st) && r.sess.Keys == st.sess.Keys
    requires forall t :: t in st.sess ==>
      && r.sess[t].log == st.sess[t].log && r.sess[t].name == st.sess[t].name
      && r.sess[t].registered == st.sess[t].registered
    ensures Origins(r)
  {
    forall t, i | t in r.sess && 0 <= i < |r.sess[t].log|
      ensures r.sess[t].log[i].src in r.sess
      ensures Genuine(r.sess[t].name, r.sess[r.sess[t].log[i].src], r.sess[t].log[i].frame)
    {
      assert Genuine(st.sess[t].name, st.sess[st.sess[t].log[i].src], st.sess[t].log[i].frame);
    }
  }

  lemma PtpBlockBeginsPipes(st: State, s: Sid, y: Session, raw: Bytes)
    requires Pipes(st) && s in st.sess && st.sess[s].pc.ReadPtpHeader?
    requires forall b :: b in st.bonds ==> b.acc in st.sess && b.con in st.sess && b.acc != b.con
    requires y == st.sess[s].(input := st.sess[s].input + raw, pc := y.pc)
    requires y.pc.ReadPtpBlock? && raw == U32(y.pc.size)
    ensures Pipes(Put(st, s, y))
  {
    hide U32, Carried, Pipe;
    var r := Put(st, s, y);
    forall b | b in r.bonds && b.acc in r.sess && b.con in r.sess
      ensures Pipe(r.sess[b.acc], b.acc, r.sess[b.con]) && Pipe(r.sess[b.con], b.con, r.sess[b.acc])
    {
      assert Pipe(st.sess[b.acc], b.acc, st.sess[b.con]) && Pipe(st.sess[b.con], b.con, st.sess[b.acc]);
      PtpBlockBeginsPipe(st, s, y, raw, b.acc, b.con);
      PtpBlockBeginsPipe(st, s, y, raw, b.con, b.acc);
    }
  }

  lemma PtpBlockBeginsPipe(st: State, s: Sid, y: Session, raw: Bytes, a: Sid, b: Sid)
    requires s in st.sess && st.sess[s].pc.ReadPtpHeader? && a in st.sess && b in st.sess && a != b
    requires y == st.sess[s].(input := st.sess[s].input + raw, pc := y.pc)
    requires y.pc.ReadPtpBlock? && raw == U32(y.pc.size)
    requires Pipe(st.sess[a], a, st.sess[b])
    ensures var r := Put(st, s, y); Pipe(r.sess[a], a, r.sess[b])
  {
    hide U32, Carried;
    var x := st.sess[a];
    assert x.input <= x.input + raw;
    assert x.input + raw == x.input + [] + raw;
  }

  lemma BlockReadKeeps(st: State, s: Sid, raw: Bytes)
    requires Inv(st) && s in st.sess && (st.sess[s].pc.ReadPdpBlock? || st.sess[s].pc.ReadPtpBlock?)
    requires |raw| == st.sess[s].pc.size
    ensures var x, r := st.sess[s], Consume(st, s, raw);
            if x.pc.ReadPdpBlock?
            then Inv(Forward(r, s, x.pc.target, PdpFrame(x.name.src, raw), ReadPdpHeader))
            else IsPtpPipe(x.name) && Inv(Forward(r, s, Peer(x.name).value, PtpFrame(raw), ReadPtpHeader))
  {
    hide Inv, Forward, Completes, Finish;
    if st.sess[s].pc.ReadPdpBlock? {
      PdpReaderAt(st, s);
      PdpForwardKeeps(st, s, raw, st.sess[s].pc.target, raw);
    } else {
      PtpReaderAt(st, s);
      FullBlockCompletes(st, s, raw);
      PtpForwardKeeps(st, s, raw, raw, Peer(st.sess[s].name).value);
    }
  }

  lemma PdpReaderAt(st: State, s: Sid)
    requires Inv(st) && s in st.sess && st.sess[s].pc.ReadPdpBlock?
    ensures st.sess[s].registered && st.sess[s].name.PdpName?
    ensures st.sess[s].pc.target.PdpName? && st.sess[s].pc.size <= PDP_BLOCK_LIMIT
  {
    LocalAt(st, s);
    hide Inv, LocalOk, NotWaiting;
  }

  lemma InitialInv()
    ensures Inv(INITIAL)
  {
  }

  /** Every step keeps the invariant. */
  lemma StepKeeps(st: State, e: Event)
    requires Inv(st) && Enabled(st, e)
    ensures Inv(Step(st, e))
  {
    hide Inv, Finish, Dispatch, EstablishConnect, LoopTop, PdpHeaderRead, PtpHeaderRead, Forward, WriterLoop,
      WriteDone,
      Consume, StopWaiting, Peer;
    match e
    case Connected(s) =>
      if st.active < MAX_SESSIONS { ConnectedKeeps(st, s); }
    case InitDone(s, raw, inTime) =>
      if raw.None? { StopKeeps(st, s); } else { DispatchKeeps(st, s, ParseInit(raw.value), inTime); }
    case ListenTimer(s) => TimerKeeps(st, s, AwaitListen(true));
    case ListenResume(s) => ListenResumeKeeps(st, s);
    case BondTimer(s) => TimerKeeps(st, s, AwaitBond(true));
    case BondResume(s) =>
      if st.sess[s].established { BondResumeKeeps(st, s); } else { StopKeeps(st, s); }
    case SomeRead(s, ok) =>
      if ok { SomeReadKeeps(st, s); } else { StopKeeps(st, s); }
    case HeaderRead(s, raw) =>
      if raw.None? { StopKeeps(st, s); }
      else if st.sess[s].pc.ReadPdpHeader? { PdpHeaderReadKeeps(st, s, raw.value); }
      else { PtpHeaderReadKeeps(st, s, raw.value); }
    case BlockRead(s, raw) =>
      if raw.None? { StopKeeps(st, s); } else { BlockReadKeeps(st, s, raw.value); }
    case WriterRuns(s) => WriterRunsKeeps(st, s);
    case Written(s, ok) => WrittenKeeps(st, s, ok);
  }

  // ---- runs -------------------------------------------------------------------------------------

  /** The scheduler may choose these events in this order. */
  predicate Schedulable(st: State, es: seq<Event>)
    decreases |es|
  {
    es == [] || (Enabled(st, es[0]) && Schedulable(Step(st, es[0]), es[1..]))
  }

  function Run(st: State, es: seq<Event>): State
    requires Schedulable(st, es)
    decreases |es|
  {
    if es == [] then st else Run(Step(st, es[0]), es[1..])
  }

  /** The invariant holds after every run from the empty server. */
  lemma {:induction false} RunKeeps(st: State, es: seq<Event>)
    requires Inv(st) && Schedulable(st, es)
    ensures Inv(Run(st, es))
    decreases |es|
  {
    hide Inv, Step, Enabled;
    if es != [] {
      StepKeeps(st, es[0]);
      RunKeeps(Step(st, es[0]), es[1..]);
    }
  }

  lemma Reachable(es: seq<Event>)
    requires Schedulable(INITIAL, es)
    ensures Inv(Run(INITIAL, es))
  {
    InitialInv();
    RunKeeps(INITIAL, es);
  }
}
