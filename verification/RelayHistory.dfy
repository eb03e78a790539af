/** What never goes back: flags, names, logs and bonds only grow from step to step. */
module RelayHistory {
  import opened Bytes
  import opened SessionNames
  import opened RelayDirectories
  import opened RelayModel
  import opened RelayInvariant
  import opened RelayFinish
  import opened RelayRegister
  import opened RelayRuns
  import RelaySafety

  ghost predicate Evolves(x: Session, y: Session) {
    && (x.closed ==> y.closed) && (x.superseded ==> y.superseded) && (x.finished ==> y.finished)
    && (x.registered ==> y.registered && y.name == x.name && (x.established ==> y.established))
    && x.log <= y.log && x.delivered <= y.delivered && x.input <= y.input
  }

  ghost predicate Grows(st: State, r: State) {
    && st.bonds <= r.bonds
    && forall s :: s in st.sess ==> s in r.sess && Evolves(st.sess[s], r.sess[s])
  }

  lemma EvolvesTrans(x: Session, y: Session, z: Session)
    requires Evolves(x, y) && Evolves(y, z)
    ensures Evolves(x, z)
  {
  }

  lemma GrowsTrans(a: State, b: State, c: State)
    requires Grows(a, b) && Grows(b, c)
    ensures Grows(a, c)
  {
    hide Evolves;
    forall s | s in a.sess ensures s in c.sess && Evolves(a.sess[s], c.sess[s]) {
      EvolvesTrans(a.sess[s], b.sess[s], c.sess[s]);
    }
  }

  // ---- one step, and who takes it ---------------------------------------------------------------

  /** What `s` does to a session, its own or another, apart from forwarding PDP blocks: whatever is sent
      is sent by `s`, and only reads of its own begin. */
  ghost predicate Echo(x: Session, y: Session, own: bool, s: Sid) {
    && Evolves(x, y) && y.input == x.input
    && (forall i :: |x.log| <= i < |y.log| ==> y.log[i].src == s && !y.log[i].frame.PdpFrame?)
    && (y.pc.ReadPdpBlock? ==> y.pc == x.pc)
    && (!own ==> y.name == x.name && y.registered == x.registered
                 && (y.pc == x.pc || y.pc.AwaitListen? || y.pc.AwaitBond?))
  }

  ghost predicate Acts(st: State, s: Sid, r: State) {
    && st.bonds <= r.bonds
    && (forall t :: t in r.sess ==> t in st.sess || t == s)
    && forall t :: t in st.sess ==> t in r.sess && Echo(st.sess[t], r.sess[t], t == s, s)
  }

  lemma EchoTrans(x: Session, y: Session, z: Session, own: bool, s: Sid)
    requires Echo(x, y, own, s) && Echo(y, z, own, s)
    ensures Echo(x, z, own, s)
  {
    EvolvesTrans(x, y, z);
    hide Evolves;
    forall i | |x.log| <= i < |z.log| ensures z.log[i].src == s && !z.log[i].frame.PdpFrame? {
      assert i < |y.log| ==> z.log[i] == y.log[i] by { EvolvedLog(y, z); }
    }
  }

  lemma EvolvedLog(x: Session, y: Session)
    requires Evolves(x, y)
    ensures x.log <= y.log
  {
  }

  lemma ActsTrans(a: State, s: Sid, b: State, c: State)
    requires Acts(a, s, b) && Acts(b, s, c)
    ensures Acts(a, s, c)
  {
    hide Echo;
    forall t | t in a.sess ensures t in c.sess && Echo(a.sess[t], c.sess[t], t == s, s) {
      EchoTrans(a.sess[t], b.sess[t], c.sess[t], t == s, s);
    }
  }

  lemma ActsGrow(st: State, s: Sid, r: State)
    requires Acts(st, s, r)
    ensures Grows(st, r)
  {
    hide Evolves;
  }

  ghost predicate Steady(x: Session, y: Session) {
    y.log == x.log && y.input == x.input && (y.pc.ReadPdpBlock? ==> y.pc == x.pc)
  }

  lemma PutActs(st: State, s: Sid, y: Session)
    requires s in st.sess ==> Evolves(st.sess[s], y) && Steady(st.sess[s], y)
    ensures Acts(st, s, Put(st, s, y))
  {
  }

  lemma SendActs(st: State, t: Sid, p: Sent)
    requires !p.frame.PdpFrame?
    ensures Acts(st, p.src, Send(st, t, p))
  {
    if t in st.sess { QueuedEchoes(st.sess[t], p, t == p.src); }
    forall u | u in st.sess ensures Echo(st.sess[u], st.sess[u], u == p.src, p.src) {
      SameEchoes(st.sess[u], u == p.src, p.src);
    }
    hide Queued, Echo;
  }

  lemma SameEchoes(x: Session, own: bool, s: Sid)
    ensures Echo(x, x, own, s)
  {
  }

  lemma QueuedEchoes(x: Session, p: Sent, own: bool)
    requires !p.frame.PdpFrame?
    ensures Echo(x, Queued(x, p), own, p.src)
  {
    hide Size;
  }

  lemma CloseActs(st: State, t: Sid, s: Sid)
    ensures Acts(st, s, Close(st, t))
  {
  }

  lemma FinishActs(st: State, s: Sid)
    requires s in st.sess
    ensures Acts(st, s, Finish(st, s))
  {
    if !st.sess[s].finished {
      var x := st.sess[s];
      var d := Put(st, s, Ended(x));
      PutActs(st, s, Ended(x));
      hide Echo, Closed, Peer;
      var s2 := if x.registered then d.(dir := d.dir - {KeyOf(x.name)}) else d;
      var s3 := Unregister(s2, x.name, s);
      SameSessionsAct(d, s, s3);
      ActsTrans(st, s, d, s3);
      SameSessionsAct(d, s, s2);
      ActsTrans(st, s, d, s2);
      ClosePeerActs(s3, x.name, s);
      ActsTrans(st, s, s3, ClosePeer(s3, x.name));
      FinishedLast(st, s, s2, s3);
    }
  }

  lemma FinishedLast(st: State, s: Sid, s2: State, s3: State)
    requires s in st.sess && !st.sess[s].finished
    requires Acts(st, s, s2) && Acts(st, s, ClosePeer(s3, st.sess[s].name))
    requires var x := st.sess[s]; var d := Put(st, s, Ended(x));
             && s2 == (if x.registered then d.(dir := d.dir - {KeyOf(x.name)}) else d)
             && s3 == Unregister(s2, x.name, s)
    ensures Acts(st, s, Finish(st, s))
  {
    hide Echo, ClosePeer, Unregister;
  }

  lemma SameSessionsAct(a: State, s: Sid, b: State)
    requires b.sess == a.sess && b.bonds == a.bonds
    ensures Acts(a, s, b)
  {
  }

  lemma ClosePeerActs(st: State, n: Name, s: Sid)
    ensures Acts(st, s, ClosePeer(st, n))
  {
    match Peer(n)
    case None => SameSessionsAct(st, s, st);
    case Some(p) =>
      if p in st.reg { CloseActs(st, st.reg[p], s); } else { SameSessionsAct(st, s, st); }
  }

  lemma LoopTopActs(st: State, s: Sid, next: Pc)
    requires s in st.sess && !next.ReadPdpBlock?
    ensures Acts(st, s, LoopTop(st, s, next))
  {
    hide Finish;
    if st.sess[s].closed { FinishActs(st, s); } else { PutActs(st, s, st.sess[s].(pc := next)); }
  }

  lemma RegisterActs(st: State, s: Sid, n: Name, est: bool, next: Pc)
    requires Inv(st) && Newcomer(st, s) && !next.ReadPdpBlock?
    ensures Acts(st, s, Register(st, s, n, est, next))
    ensures s in Register(st, s, n, est, next).sess
  {
    hide Inv, Register, NotWaiting, Echo, Bystander;
    RegisterHasEffect(st, s, n, est, next) by { TablesOf(st); }
    var r := Register(st, s, n, est, next);
    forall t | t in st.sess ensures t in r.sess && Echo(st.sess[t], r.sess[t], t == s, s) {
      if t == s {
        JoinedEvolves(st.sess[s], n, est, next, s);
      } else {
        WaiterAt(st, n, t);
        BystanderEvolves(st, n, t, r.sess[t], s);
      }
    }
  }

  lemma WaiterAt(st: State, n: Name, t: Sid)
    requires Inv(st) && t in st.sess
    ensures n in st.waiters && t in st.waiters[n] ==> st.sess[t].pc.AwaitListen?
  {
    TablesOf(st);
    hide Inv;
  }

  lemma TablesOf(st: State)
    requires Inv(st)
    ensures Index(st) && Waiting(st)
  {
  }

  lemma JoinedEvolves(x: Session, n: Name, est: bool, next: Pc, s: Sid)
    requires !x.registered && !next.ReadPdpBlock?
    ensures Echo(x, Joined(x, n, est, next), true, s)
  {
  }

  lemma BystanderEvolves(st: State, n: Name, t: Sid, y: Session, s: Sid)
    requires t in st.sess && Bystander(st, n, t, y)
    requires n in st.waiters && t in st.waiters[n] ==> st.sess[t].pc.AwaitListen?
    ensures Echo(st.sess[t], y, false, s)
  {
  }

  lemma AdvertisedFinishActs(st: State, s: Sid, n: Name, est: bool, next: Pc)
    requires Inv(st) && Newcomer(st, s) && !next.ReadPdpBlock?
    ensures var r := Register(st, s, n, est, next);
            && s in r.sess && Acts(st, s, Finish(r, s)) && Acts(st, s, Advertise(r, s, n))
            && Acts(st, s, LoopTop(Advertise(r, s, n), s, next))
  {
    var r := Register(st, s, n, est, next);
    RegisterActs(st, s, n, est, next);
    hide *;
    FinishActs(r, s);
    ActsTrans(st, s, r, Finish(r, s));
    AdvertiseSame(r, s, n);
    SameSessionsAct(r, s, Advertise(r, s, n));
    ActsTrans(st, s, r, Advertise(r, s, n));
    LoopTopActs(Advertise(r, s, n), s, next);
    ActsTrans(st, s, Advertise(r, s, n), LoopTop(Advertise(r, s, n), s, next));
  }

  lemma AdvertiseSame(r: State, s: Sid, n: Name)
    ensures Advertise(r, s, n).sess == r.sess && Advertise(r, s, n).bonds == r.bonds
  {
  }

  lemma EstablishConnectActs(st: State, s: Sid, n: Name)
    requires Inv(st) && Newcomer(st, s) && n.ConnectName?
    ensures Acts(st, s, EstablishConnect(st, s, n))
  {
    NewcomerIn(st, s);
    ConnectUnfolds(st, s, n);
    hide *;
    FinishActs(st, s);
    AdvertisedFinishActs(st, s, n, false, AwaitBond(false));
    if ListenerOf(n) in st.reg {
      var a := Advertise(Register(st, s, n, false, AwaitBond(false)), s, n);
      SendActs(a, st.reg[ListenerOf(n)], Sent(s, Notice(n.src)));
      ActsTrans(st, s, a, Send(a, st.reg[ListenerOf(n)], Sent(s, Notice(n.src))));
    }
  }

  lemma ConnectUnfolds(st: State, s: Sid, n: Name)
    requires s in st.sess && n.ConnectName?
    ensures ListenerOf(n) !in st.reg ==> EstablishConnect(st, s, n) == Finish(st, s)
    ensures ListenerOf(n) in st.reg ==>
      var r := Register(st, s, n, false, AwaitBond(false));
      && s in r.sess
      && EstablishConnect(st, s, n) == if KeyOf(n) in st.dir then Finish(r, s)
                                       else Send(Advertise(r, s, n), st.reg[ListenerOf(n)], Sent(s, Notice(n.src)))
  {
    hide Finish, Send;
  }

  lemma NewcomerIn(st: State, s: Sid)
    requires Newcomer(st, s)
    ensures s in st.sess
  {
  }

  lemma AddBondActs(st: State, a: Sid, c: Sid)
    ensures Acts(st, a, AddBond(st, a, c))
  {
  }

  lemma SendBondActs(a: State, s: Sid, c: Sid, p1: Sent, p2: Sent)
    requires s in a.sess && p1.src == s && p2.src == s && !p1.frame.PdpFrame? && !p2.frame.PdpFrame?
    ensures var q := AddBond(Send(Send(a, c, p1), s, p2), s, c);
            s in q.sess && Acts(a, s, q) && Acts(a, s, LoopTop(q, s, ReadPtpHeader))
  {
    var q1 := Send(a, c, p1);
    var q2 := Send(q1, s, p2);
    var q := AddBond(q2, s, c);
    SendActs(a, c, p1);
    SendActs(q1, s, p2);
    AddBondActs(q2, s, c);
    hide Send, AddBond, LoopTop, Echo;
    ActsTrans(a, s, q1, q2);
    ActsTrans(a, s, q2, q);
    LoopTopActs(q, s, ReadPtpHeader);
    ActsTrans(a, s, q, LoopTop(q, s, ReadPtpHeader));
  }

  lemma EstablishAcceptActs(st: State, s: Sid, n: Name)
    requires Inv(st) && Newcomer(st, s) && n.AcceptName?
    ensures Acts(st, s, EstablishAccept(st, s, n))
  {
    NewcomerIn(st, s);
    RenameActs(st, s, n);
    AdvertisedFinishActs(st, s, n, true, ReadPtpHeader);
    hide Inv, Register, Finish, Advertise, Send, Echo, Newcomer, Put, AddBond, LoopTop;
    match Bondable(st, n)
    case None =>
    case Some(c) =>
      var a := Advertise(Register(st, s, n, true, ReadPtpHeader), s, n);
      var p1, p2 := Sent(s, Notice(n.src)), Sent(s, Notice(n.dst));
      AdvertiseSame(Register(st, s, n, true, ReadPtpHeader), s, n);
      SendBondActs(a, s, c, p1, p2);
      ActsTrans(st, s, a, LoopTop(AddBond(Send(Send(a, c, p1), s, p2), s, c), s, ReadPtpHeader));
  }

  lemma RenameActs(st: State, s: Sid, n: Name)
    requires Inv(st) && Newcomer(st, s)
    ensures var r := Put(st, s, st.sess[s].(name := n)); Acts(st, s, r) && Acts(st, s, Finish(r, s))
  {
    var r := Put(st, s, st.sess[s].(name := n));
    PutActs(st, s, r.sess[s]);
    FinishActs(r, s);
    hide Finish, Echo, Inv, Newcomer;
    ActsTrans(st, s, r, Finish(r, s));
  }

  lemma DispatchActs(st: State, s: Sid, init: Init, inTime: bool)
    requires Inv(st) && s in st.sess && st.sess[s].pc.ReadInit?
    ensures Acts(st, s, Dispatch(st, s, init, inTime))
  {
    FreshIsNewcomer(st, s);
    hide Inv, ControlOk, Newcomer, EstablishAccept, Finish, Enter, Put, Append;
    if init.kind == 0 {
      EnterActs(st, s, PdpName(init.src), ReadPdpHeader);
    } else if init.kind == 1 {
      EnterActs(st, s, ListenName(init.src), ReadSome);
    } else if init.kind == 2 {
      ConnectDispatchActs(st, s, init, inTime);
    } else if init.kind == 3 {
      EstablishAcceptActs(st, s, AcceptName(init.src, init.dst));
    } else {
      FinishActs(st, s);
    }
  }

  lemma EnterActs(st: State, s: Sid, n: Name, next: Pc)
    requires Inv(st) && Newcomer(st, s) && !next.ReadPdpBlock?
    ensures Acts(st, s, Enter(st, s, n, next))
  {
    hide Inv, Newcomer, Register, Finish, LoopTop, Advertise, Echo;
    AdvertisedFinishActs(st, s, n, false, next);
  }

  lemma ConnectDispatchActs(st: State, s: Sid, init: Init, inTime: bool)
    requires Inv(st) && Newcomer(st, s) && st.sess[s].pc.ReadInit? && init.kind == 2
    ensures Acts(st, s, Dispatch(st, s, init, inTime))
  {
    NewcomerIn(st, s);
    ConnectOrWaits(st, s, init, inTime);
    hide *;
    RenamedEvolves(st, s, ConnectName(init.src, init.dst));
    NamedConnectActs(st, s, ConnectName(init.src, init.dst));
  }

  lemma ConnectOrWaits(st: State, s: Sid, init: Init, inTime: bool)
    requires s in st.sess && init.kind == 2
    ensures var n, q := ConnectName(init.src, init.dst), Dispatch(st, s, init, inTime);
            || q == EstablishConnect(Put(st, s, st.sess[s].(name := n)), s, n)
            || exists ws :: q == Put(st, s, st.sess[s].(name := n, pc := AwaitListen(false))).(waiters := ws)
  {
    hide EstablishConnect, Append;
  }

  lemma NamedConnectActs(st: State, s: Sid, n: Name)
    requires Inv(st) && Newcomer(st, s) && st.sess[s].pc.ReadInit? && n.ConnectName?
    ensures Acts(st, s, EstablishConnect(Put(st, s, st.sess[s].(name := n)), s, n))
  {
    NewcomerIn(st, s);
    hide *;
    var named := Put(st, s, st.sess[s].(name := n));
    RenamedEvolves(st, s, n);
    RelaySafety.RenameKeeps(st, s, n);
    EstablishConnectActs(named, s, n);
    ActsTrans(st, s, named, EstablishConnect(named, s, n));
  }

  lemma RenamedEvolves(st: State, s: Sid, n: Name)
    requires Newcomer(st, s)
    ensures Acts(st, s, Put(st, s, st.sess[s].(name := n)))
    ensures forall ws :: Acts(st, s, Put(st, s, st.sess[s].(name := n, pc := AwaitListen(false))).(waiters := ws))
  {
    var q := Put(st, s, st.sess[s].(name := n, pc := AwaitListen(false)));
    PutActs(st, s, st.sess[s].(name := n));
    PutActs(st, s, q.sess[s]);
    hide Newcomer, Echo;
    assert forall ws :: q.(waiters := ws).sess == q.sess && q.(waiters := ws).bonds == q.bonds;
  }

  lemma ForwardActs(st: State, s: Sid, target: Name, f: Frame, next: Pc)
    requires s in st.sess && !f.PdpFrame? && !next.ReadPdpBlock?
    ensures Acts(st, s, Forward(st, s, target, f, next))
  {
    var q := SendTo(st, target, Sent(s, f));
    hide LoopTop, Echo, Send;
    if target in st.reg { SendActs(st, st.reg[target], Sent(s, f)); } else { SameSessionsAct(st, s, st); }
    LoopTopActs(q, s, next);
    ActsTrans(st, s, q, LoopTop(q, s, next));
  }

  lemma ListenResumeActs(st: State, s: Sid)
    requires Inv(st) && s in st.sess && st.sess[s].pc == AwaitListen(true) && st.sess[s].name.ConnectName?
    ensures var n := st.sess[s].name;
            Acts(st, s, EstablishConnect(st.(waiters := StopWaiting(st.waiters, ListenerOf(n), s)), s, n))
  {
    hide Inv, EstablishConnect, StopWaiting, Newcomer;
    var n := st.sess[s].name;
    var q := st.(waiters := StopWaiting(st.waiters, ListenerOf(n), s));
    RelaySafety.StopWaitingKeeps(st, s);
    SameSessionsAct(st, s, q);
    EstablishConnectActs(q, s, n);
    ActsTrans(st, s, q, EstablishConnect(q, s, n));
  }

  lemma WriterLoopEvolves(x: Session)
    ensures var y := WriterLoop(x); Evolves(x, y) && Steady(x, y)
  {
    hide Size;
  }

  lemma WriteDoneEvolves(x: Session, ok: bool)
    requires x.writer.Writing?
    ensures var y := WriteDone(x, ok); Evolves(x, y) && Steady(x, y)
  {
    hide WriterLoop;
    if ok { WriterLoopEvolves(x.(delivered := x.delivered + [x.writer.packet])); }
  }

  lemma WriterActs(st: State, s: Sid)
    requires s in st.sess
    ensures Acts(st, s, Put(st, s, WriterLoop(st.sess[s])))
    ensures st.sess[s].writer.Writing? ==> forall ok :: Acts(st, s, Put(st, s, WriteDone(st.sess[s], ok)))
  {
    hide WriterLoop, WriteDone, Echo, Acts;
    WriterLoopEvolves(st.sess[s]);
    PutActs(st, s, WriterLoop(st.sess[s]));
    if st.sess[s].writer.Writing? {
      forall ok ensures Acts(st, s, Put(st, s, WriteDone(st.sess[s], ok))) {
        WriteDoneEvolves(st.sess[s], ok);
        PutActs(st, s, WriteDone(st.sess[s], ok));
      }
    }
  }

  lemma TimerActs(st: State, s: Sid, pc: Pc)
    requires s in st.sess && !pc.ReadPdpBlock?
    ensures Acts(st, s, Put(st, s, st.sess[s].(pc := pc)))
  {
  }

  predicate Oversized(pc: Pc, raw: Bytes) {
    if pc.ReadPdpHeader? then |raw| == 14 && PdpSize(raw) > PDP_BLOCK_LIMIT
    else |raw| == 4 && GetU32(raw) > PTP_BLOCK_LIMIT
  }

  /** A PDP header is recorded, and the empty block, if it is one, has gone to its target. */
  function PdpHeaderHanded(st: State, s: Sid, raw: Bytes): State
    requires s in st.sess && |raw| == 14 && PdpSize(raw) <= PDP_BLOCK_LIMIT
  {
    var c := Consume(st, s, raw);
    if PdpSize(raw) == 0 then SendTo(c, PdpTarget(raw), Sent(s, PdpFrame(st.sess[s].name.src, [])))
    else Put(c, s, c.sess[s].(pc := ReadPdpBlock(PdpTarget(raw), PdpSize(raw))))
  }

  /** The state in which the bytes that `e` read are recorded and the PDP block that they complete, if
      any, has gone to its target. */
  function Handed(st: State, e: Event): State
    requires Enabled(st, e)
  {
    match e
    case HeaderRead(s, raw) =>
      if raw.None? || Oversized(st.sess[s].pc, raw.value) then st
      else if st.sess[s].pc.ReadPdpHeader? then PdpHeaderHanded(st, s, raw.value)
      else Consume(st, s, raw.value)
    case BlockRead(s, raw) =>
      var x := st.sess[s];
      if raw.None? then st
      else if x.pc.ReadPdpBlock?
      then SendTo(Consume(st, s, raw.value), x.pc.target, Sent(s, PdpFrame(x.name.src, raw.value)))
      else Consume(st, s, raw.value)
    case _ => st
  }

  lemma QueuedEvolves(x: Session, p: Sent)
    ensures Evolves(x, Queued(x, p))
  {
    hide Size;
  }

  lemma SendGrows(st: State, n: Name, p: Sent)
    ensures Grows(st, SendTo(st, n, p))
  {
    if n in st.reg && st.reg[n] in st.sess { QueuedEvolves(st.sess[st.reg[n]], p); }
    hide Queued;
  }

  lemma ConsumeGrows(st: State, s: Sid, raw: Bytes, pc: Pc)
    requires s in st.sess
    ensures var c := Consume(st, s, raw); Grows(st, c) && Grows(st, Put(c, s, c.sess[s].(pc := pc)))
  {
  }

  lemma HandedGrows(st: State, e: Event)
    requires Enabled(st, e)
    ensures Grows(st, Handed(st, e))
  {
    match e
    case HeaderRead(s, raw) =>
      if raw.Some? { HeaderHandedGrows(st, s, raw.value); } else { SameGrows(st); }
    case BlockRead(s, raw) =>
      if raw.Some? { BlockHandedGrows(st, s, raw.value); } else { SameGrows(st); }
    case _ => SameGrows(st);
  }

  lemma HeaderHandedGrows(st: State, s: Sid, raw: Bytes)
    requires Enabled(st, HeaderRead(s, Some(raw)))
    ensures Grows(st, Handed(st, HeaderRead(s, Some(raw))))
  {
    var c := Consume(st, s, raw);
    hide Grows, SendTo, Consume, PdpSize, PdpTarget, GetU32;
    ConsumeGrows(st, s, raw, ReadPtpHeader);
    if st.sess[s].pc.ReadPdpHeader? && !Oversized(st.sess[s].pc, raw) {
      SendGrows(c, PdpTarget(raw), Sent(s, PdpFrame(st.sess[s].name.src, [])));
      GrowsTrans(st, c, SendTo(c, PdpTarget(raw), Sent(s, PdpFrame(st.sess[s].name.src, []))));
      ConsumeGrows(st, s, raw, ReadPdpBlock(PdpTarget(raw), PdpSize(raw)));
    } else {
      SameGrows(st);
    }
  }

  lemma BlockHandedGrows(st: State, s: Sid, raw: Bytes)
    requires Enabled(st, BlockRead(s, Some(raw)))
    ensures Grows(st, Handed(st, BlockRead(s, Some(raw))))
  {
    var x, c := st.sess[s], Consume(st, s, raw);
    hide Grows, SendTo, Consume;
    ConsumeGrows(st, s, raw, ReadPtpHeader);
    if x.pc.ReadPdpBlock? {
      SendGrows(c, x.pc.target, Sent(s, PdpFrame(x.name.src, raw)));
      GrowsTrans(st, c, SendTo(c, x.pc.target, Sent(s, PdpFrame(x.name.src, raw))));
    }
  }

  /** Whatever else a step sends is sent by the session that takes it; of the others, inputs, names and
      reads stay as they are. */
  lemma StepActs(st: State, e: Event)
    requires Inv(st) && Enabled(st, e)
    ensures Acts(Handed(st, e), e.s, Step(st, e))
  {
    hide Inv, Finish, Dispatch, EstablishConnect, LoopTop, Forward, WriterLoop, WriteDone, Consume, StopWaiting, Peer,
      Echo, GetU32, PdpSize, PdpTarget, Oversized, PdpHeaderRead, PtpHeaderRead;
    match e
    case Connected(s) => ConnectedActs(st, s);
    case InitDone(s, raw, inTime) =>
      if raw.None? { FinishActs(st, s); } else { DispatchActs(st, s, ParseInit(raw.value), inTime); }
    case ListenTimer(s) => TimerActs(st, s, AwaitListen(true));
    case ListenResume(s) => ListenResumeActs(st, s);
    case BondTimer(s) => TimerActs(st, s, AwaitBond(true));
    case BondResume(s) => FinishActs(st, s); LoopTopActs(st, s, ReadPtpHeader);
    case SomeRead(s, ok) => FinishActs(st, s); LoopTopActs(st, s, ReadSome);
    case HeaderRead(s, raw) => if raw.Some? { HeaderReadActs(st, s, raw.value); } else { FinishActs(st, s); }
    case BlockRead(s, raw) => if raw.Some? { BlockReadActs(st, s, raw.value); } else { FinishActs(st, s); }
    case WriterRuns(s) => WriterActs(st, s);
    case Written(s, ok) => WriterActs(st, s);
  }

  /** Closed, superseded and finished are final; after registration so are the name and being established. */
  lemma StepGrows(st: State, e: Event)
    requires Inv(st) && Enabled(st, e)
    ensures Grows(st, Step(st, e))
  {
    hide *;
    HandedGrows(st, e);
    StepActs(st, e);
    ActsGrow(Handed(st, e), e.s, Step(st, e));
    GrowsTrans(st, Handed(st, e), Step(st, e));
  }

  lemma ConnectedActs(st: State, s: Sid)
    requires s !in st.sess
    ensures Acts(st, s, st) && Acts(st, s, Put(st, s, NEW_SESSION).(active := st.active + 1))
  {
  }

  lemma PdpHeaderActs(st: State, s: Sid, raw: Bytes)
    requires s in st.sess && |raw| == 14
    ensures var c := if PdpSize(raw) > PDP_BLOCK_LIMIT then st else PdpHeaderHanded(st, s, raw);
            Acts(c, s, PdpHeaderRead(st, s, raw))
  {
    hide Finish, SendTo, LoopTop, Acts, PdpSize, PdpTarget;
    if PdpSize(raw) > PDP_BLOCK_LIMIT {
      FinishActs(st, s);
    } else if PdpSize(raw) == 0 {
      SenderStays(Consume(st, s, raw), s, PdpTarget(raw), Sent(s, PdpFrame(st.sess[s].name.src, [])));
      LoopTopActs(PdpHeaderHanded(st, s, raw), s, ReadPdpHeader);
    } else {
      SameSessionsAct(PdpHeaderHanded(st, s, raw), s, PdpHeaderHanded(st, s, raw));
    }
  }

  lemma SenderStays(st: State, s: Sid, n: Name, p: Sent)
    requires s in st.sess
    ensures s in SendTo(st, n, p).sess
  {
    hide Queued;
  }

  lemma PtpHeaderActs(st: State, s: Sid, raw: Bytes)
    requires s in st.sess && |raw| == 4 && IsPtpPipe(st.sess[s].name)
    ensures var c := if GetU32(raw) > PTP_BLOCK_LIMIT then st else Consume(st, s, raw);
            Acts(c, s, PtpHeaderRead(st, s, raw))
  {
    var c := Consume(st, s, raw);
    hide Finish, Forward, Echo, Acts, GetU32;
    if GetU32(raw) > PTP_BLOCK_LIMIT {
      FinishActs(st, s);
    } else if GetU32(raw) == 0 {
      ForwardActs(c, s, Peer(st.sess[s].name).value, PtpFrame([]), ReadPtpHeader);
    } else {
      TimerActs(c, s, ReadPtpBlock(GetU32(raw)));
    }
  }

  lemma HeaderReadActs(st: State, s: Sid, raw: Bytes)
    requires Enabled(st, HeaderRead(s, Some(raw)))
    ensures var e := HeaderRead(s, Some(raw)); Acts(Handed(st, e), s, Step(st, e))
  {
    hide Consume, PdpHeaderRead, PtpHeaderRead, Acts, PdpSize, GetU32, PdpHeaderHanded;
    if st.sess[s].pc.ReadPdpHeader? { PdpHeaderActs(st, s, raw); } else { PtpHeaderActs(st, s, raw); }
  }

  lemma BlockReadActs(st: State, s: Sid, raw: Bytes)
    requires Enabled(st, BlockRead(s, Some(raw)))
    ensures var e := BlockRead(s, Some(raw)); Acts(Handed(st, e), s, Step(st, e))
  {
    hide SendTo, LoopTop, Acts;
    var x, c := st.sess[s], Consume(st, s, raw);
    if x.pc.ReadPdpBlock? {
      SenderStays(c, s, x.pc.target, Sent(s, PdpFrame(x.name.src, raw)));
      LoopTopActs(Handed(st, BlockRead(s, Some(raw))), s, ReadPdpHeader);
    } else {
      ForwardActs(c, s, Peer(x.name).value, PtpFrame(raw), ReadPtpHeader);
    }
  }

  lemma {:induction false} RunGrows(st: State, es: seq<Event>)
    requires Inv(st) && Schedulable(st, es)
    ensures Grows(st, Run(st, es))
    decreases |es|
  {
    hide Inv, Step, Enabled, Evolves;
    if es == [] {
      SameGrows(st);
    } else {
      StepKeeps(st, es[0]);
      StepGrows(st, es[0]);
      RunGrows(Step(st, es[0]), es[1..]);
      GrowsTrans(st, Step(st, es[0]), Run(st, es));
    }
  }

  lemma SameGrows(st: State)
    ensures Grows(st, st)
  {
  }
}
