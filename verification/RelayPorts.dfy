/** Names and ports: when a registration succeeds, and when the sessions in the index stay advertised. */
module RelayPorts {
  import opened Bytes
  import opened SessionNames
  import opened RelayDirectories
  import opened RelayModel
  import opened RelayInvariant
  import opened RelayFinish
  import opened RelayRegister
  import opened RelayRuns
  import opened RelayHistory
  import opened RelayTheorems
  import opened RelayWitness
  import RelayBond
  import RelaySafety
  import RelaySteps

  // ---- registrations ----------------------------------------------------------------------------

  /** The name that a session registers once its init packet is read, if it does so at once. */
  function Entering(st: State, i: Init): Option<Name> {
    if i.kind == 0 then Some(PdpName(i.src))
    else if i.kind == 1 then Some(ListenName(i.src))
    else if i.kind == 2 && ListenName(i.dst) in st.reg then Some(ConnectName(i.src, i.dst))
    else if i.kind == 3 && Bondable(st, AcceptName(i.src, i.dst)).Some? then Some(AcceptName(i.src, i.dst))
    else None
  }

  /** The name that `e` registers, if any. */
  function Registers(st: State, e: Event): Option<Name>
    requires Enabled(st, e)
  {
    match e
    case InitDone(s, raw, _) => if raw.Some? then Entering(st, ParseInit(raw.value)) else None
    case ListenResume(s) => if ListenerOf(st.sess[s].name) in st.reg then Some(st.sess[s].name) else None
    case _ => None
  }

  /** How the registration of `n` by `s` ends in `q`: the port decides. */
  ghost predicate Outcome(st: State, s: Sid, n: Name, q: State) {
    var taken := KeyOf(n) in st.dir;
    && s in q.sess && (q.sess[s].finished <==> taken)
    && q.reg == (if taken then st.reg - {n} else st.reg[n := s])
    && q.dir == (if taken then st.dir - {KeyOf(n)} else st.dir[KeyOf(n) := s])
    && (n in st.reg ==> st.reg[n] in q.sess && q.sess[st.reg[n]].closed)
    && (taken ==> forall p :: Peer(n) == Some(p) && p in st.reg ==>
          st.reg[p] in q.sess && q.sess[st.reg[p]].closed)
  }

  /** The state before has the tables that the registration needs. */
  ghost predicate Ready(st: State, s: Sid) { Index(st) && Waiting(st) && Counted(st) && Newcomer(st, s) }

  lemma ReadyFor(st: State, s: Sid)
    requires Inv(st) && Newcomer(st, s)
    ensures Ready(st, s)
  {
    hide Traffic, AllGreeted, Index, Waiting, Advertised, Counted, BondsOk, HalfOpen, Newcomer;
  }

  lemma TakenOutcome(st: State, s: Sid, n: Name, est: bool, next: Pc)
    requires Ready(st, s) && KeyOf(n) in st.dir
    ensures s in Register(st, s, n, est, next).sess
    ensures Outcome(st, s, n, Finish(Register(st, s, n, est, next), s))
  {
    hide Register, Finish, Index, Waiting, Counted, Newcomer, Peer, KeyOf;
    RegisteredThenFinished(st, s, n, est, next);
  }

  lemma AdvertisedTables(st: State, s: Sid, n: Name, est: bool, next: Pc)
    requires Ready(st, s)
    ensures var a := Advertise(Register(st, s, n, est, next), s, n);
            && a.reg == st.reg[n := s] && a.dir == st.dir[KeyOf(n) := s]
            && s in a.sess && !a.sess[s].finished
            && (n in st.reg ==> st.reg[n] in a.sess && a.sess[st.reg[n]].closed)
  {
    var r := Register(st, s, n, est, next);
    RegisterHasEffect(st, s, n, est, next);
    hide Register, Index, Waiting, Counted, NotWaiting, Bystander, KeyOf, Peer;
    if n in st.reg { OldHolderClosed(st, s, n, est, next, r); }
  }

  /** Nothing that follows a registration in its step reopens or unregisters anybody. */
  lemma FreeOutcome(st: State, s: Sid, n: Name, est: bool, next: Pc, q: State)
    requires Ready(st, s) && KeyOf(n) !in st.dir
    requires var a := Advertise(Register(st, s, n, est, next), s, n);
             Acts(a, s, q) && q.reg == a.reg && q.dir == a.dir
             && s in a.sess && s in q.sess && q.sess[s].finished == a.sess[s].finished
    ensures Outcome(st, s, n, q)
  {
    AdvertisedTables(st, s, n, est, next);
    hide Advertise, Register, Index, Waiting, Counted, Newcomer, KeyOf, Peer, Echo;
    if n in st.reg {
      StillClosed(Advertise(Register(st, s, n, est, next), s, n).sess[st.reg[n]], q.sess[st.reg[n]], st.reg[n] == s, s);
    }
  }

  lemma StillClosed(x: Session, y: Session, own: bool, s: Sid)
    requires x.closed && Echo(x, y, own, s)
    ensures y.closed
  {
  }

  lemma EnterOutcome(st: State, s: Sid, n: Name, next: Pc)
    requires Ready(st, s) && !next.ReadPdpBlock?
    ensures Outcome(st, s, n, Enter(st, s, n, next))
  {
    if KeyOf(n) in st.dir {
      TakenOutcome(st, s, n, false, next);
      hide Register, Finish, Outcome, Ready;
    } else {
      RegisterHasEffect(st, s, n, false, next);
      hide Register, Finish, Outcome, Acts, Index, Waiting, Counted, NotWaiting, Bystander;
      var a := Advertise(Register(st, s, n, false, next), s, n);
      LoopTopActs(a, s, next);
      FreeOutcome(st, s, n, false, next, Enter(st, s, n, next));
    }
  }

  lemma ConnectOutcome(st: State, s: Sid, n: Name)
    requires Ready(st, s) && n.ConnectName? && ListenerOf(n) in st.reg
    ensures Outcome(st, s, n, EstablishConnect(st, s, n))
  {
    if KeyOf(n) in st.dir {
      TakenOutcome(st, s, n, false, AwaitBond(false));
      hide Register, Finish, Outcome, Ready;
    } else {
      RegisterHasEffect(st, s, n, false, AwaitBond(false));
      hide Register, Finish, Outcome, Acts, Index, Waiting, Counted, NotWaiting, Bystander;
      var a := Advertise(Register(st, s, n, false, AwaitBond(false)), s, n);
      SendActs(a, st.reg[ListenerOf(n)], Sent(s, Notice(n.src)));
      FreeOutcome(st, s, n, false, AwaitBond(false), EstablishConnect(st, s, n));
    }
  }

  lemma BondTables(a: State, s: Sid, c: Sid, p: Sent, q: Sent)
    ensures var r := Send(Send(AddBond(a, s, c), c, p), s, q); r.reg == a.reg && r.dir == a.dir
  {
    hide Queued, Bonded;
  }

  lemma AcceptedTables(st: State, s: Sid, n: Name, c: Sid)
    requires s in st.sess && n.AcceptName?
    ensures var a := Advertise(Register(st, s, n, true, ReadPtpHeader), s, n);
            var q := RelayBond.Accepted(st, s, n, c);
            q.reg == a.reg && q.dir == a.dir && Acts(a, s, q)
  {
    hide *;
    var a, p, p' := Advertise(Register(st, s, n, true, ReadPtpHeader), s, n), Sent(s, Notice(n.src)), Sent(s, Notice(n.dst));
    var b := AddBond(a, s, c);
    RelayBond.AcceptedUnfolds(st, s, n, c);
    BondTables(a, s, c, p, p');
    AddBondActs(a, s, c);
    SendActs(b, c, p);
    SendActs(Send(b, c, p), s, p');
    ActsTrans(a, s, b, Send(b, c, p));
    ActsTrans(a, s, Send(b, c, p), Send(Send(b, c, p), s, p'));
  }

  lemma AcceptPortOutcome(st: State, s: Sid, n: Name)
    requires Inv(st) && Newcomer(st, s) && n.AcceptName? && Bondable(st, n).Some?
    ensures Outcome(st, s, n, EstablishAccept(st, s, n))
  {
    ReadyFor(st, s);
    hide Inv, Newcomer, Register, Finish, Outcome, Ready, EstablishAccept, Acts, RelayBond.Accepted, Bondable;
    NewcomerIn(st, s);
    if KeyOf(n) in st.dir {
      TakenOutcome(st, s, n, true, ReadPtpHeader);
      AcceptTaken(st, s, n);
    } else {
      var c := Bondable(st, n).value;
      RelayBond.BondStepKeeps(st, s, n, c);
      RelayBond.AcceptedKeeps(st, s, n, c);
      AcceptedTables(st, s, n, c);
      RegisteredIn(st, s, n);
      FreeOutcome(st, s, n, true, ReadPtpHeader, RelayBond.Accepted(st, s, n, c));
    }
  }

  lemma RegisteredIn(st: State, s: Sid, n: Name)
    requires Ready(st, s)
    ensures s in Advertise(Register(st, s, n, true, ReadPtpHeader), s, n).sess
  {
    RegisterHasEffect(st, s, n, true, ReadPtpHeader);
    hide Register;
  }

  lemma SameOutcome(st: State, b: State, s: Sid, n: Name, q: State)
    requires Outcome(b, s, n, q) && b.reg == st.reg && b.dir == st.dir
    ensures Outcome(st, s, n, q)
  {
  }

  lemma InitOutcome(st: State, s: Sid, i: Init, inTime: bool, n: Name)
    requires Inv(st) && Newcomer(st, s) && s in st.sess && st.sess[s].pc.ReadInit? && Entering(st, i) == Some(n)
    ensures Outcome(st, s, n, Dispatch(st, s, i, inTime))
  {
    DispatchesTo(st, s, i, inTime);
    ReadyFor(st, s);
    hide Inv, Newcomer, Ready, Enter, EstablishConnect, EstablishAccept, Outcome, Dispatch, Bondable;
    if i.kind == 0 {
      EnterOutcome(st, s, n, ReadPdpHeader);
    } else if i.kind == 1 {
      EnterOutcome(st, s, n, ReadSome);
    } else if i.kind == 2 {
      var b := Put(st, s, st.sess[s].(name := n));
      RelaySafety.RenameKeeps(st, s, n);
      ReadyFor(b, s);
      ConnectOutcome(b, s, n);
      SameOutcome(st, b, s, n, EstablishConnect(b, s, n));
    } else {
      AcceptPortOutcome(st, s, n);
    }
  }

  lemma ResumeConnects(st: State, s: Sid)
    requires Enabled(st, ListenResume(s))
    ensures s in st.sess && st.sess[s].pc == AwaitListen(true) && st.sess[s].name.ConnectName?
    ensures var n := st.sess[s].name;
            Step(st, ListenResume(s))
            == EstablishConnect(st.(waiters := StopWaiting(st.waiters, ListenerOf(n), s)), s, n)
  {
    hide EstablishConnect, StopWaiting;
  }

  lemma ResumeOutcome(st: State, s: Sid)
    requires Inv(st) && Enabled(st, ListenResume(s)) && s in st.sess && ListenerOf(st.sess[s].name) in st.reg
    ensures Outcome(st, s, st.sess[s].name, Step(st, ListenResume(s)))
  {
    hide *;
    ResumeConnects(st, s);
    var n := st.sess[s].name;
    var b := st.(waiters := StopWaiting(st.waiters, ListenerOf(n), s));
    RelaySafety.StopWaitingKeeps(st, s);
    ReadyFor(b, s);
    ConnectOutcome(b, s, n);
    SameOutcome(st, b, s, n, EstablishConnect(b, s, n));
  }

  lemma StepOutcome(st: State, e: Event, n: Name)
    requires Inv(st) && Enabled(st, e) && Registers(st, e) == Some(n)
    ensures Outcome(st, e.s, n, Step(st, e))
  {
    if e.ListenResume? {
      hide Inv, Step, Outcome;
      ResumeOutcome(st, e.s);
    } else {
      hide Inv, Step, Outcome, Entering, Dispatch, Newcomer, ParseInit;
      InitSteps(st, e.s, e.raw.value, e.inTime);
      FreshIsNewcomer(st, e.s);
      InitOutcome(st, e.s, ParseInit(e.raw.value), e.inTime, n);
    }
  }

  /** A registration puts the session in the index and its port in the directory if and only if nobody
      advertises the port; otherwise the session is finished in the same step, name and port are gone,
      and the peer is closed. */
  lemma RegistrationNeedsFreePort(st: State, e: Event, n: Name)
    requires Inv(st) && Enabled(st, e) && Registers(st, e) == Some(n)
    ensures var s, q := e.s, Step(st, e);
            && s in q.sess
            && (KeyOf(n) !in st.dir <==>
                  n in q.reg && q.reg[n] == s && KeyOf(n) in q.dir && q.dir[KeyOf(n)] == s && !q.sess[s].finished)
            && (KeyOf(n) in st.dir ==>
                  && n !in q.reg && KeyOf(n) !in q.dir && q.sess[s].finished
                  && forall p :: Peer(n) == Some(p) && p in st.reg ==>
                       st.reg[p] in q.sess && q.sess[st.reg[p]].closed)
  {
    hide Inv, Step, Enabled, Registers;
    StepOutcome(st, e, n);
  }

  /** Replacing the holder of a name, in any of the four modes, closes it in any case, and puts the new
      session in its place if and only if the port is not advertised; otherwise nobody is left. */
  lemma ReplacementNeedsFreePort(st: State, e: Event, n: Name)
    requires Inv(st) && Enabled(st, e) && Registers(st, e) == Some(n) && n in st.reg
    ensures var s, q := e.s, Step(st, e);
            && s in q.sess && st.reg[n] in q.sess && q.sess[st.reg[n]].closed
            && (KeyOf(n) !in st.dir <==>
                  n in q.reg && q.reg[n] == s && KeyOf(n) in q.dir && !q.sess[s].finished)
            && (KeyOf(n) in st.dir <==> n !in q.reg)
            && (KeyOf(n) in st.dir ==> KeyOf(n) !in q.dir && q.sess[s].finished)
  {
    hide Inv, Step, Enabled, Registers;
    StepOutcome(st, e, n);
  }

  // ---- who stays advertised ---------------------------------------------------------------------

  /** Every session in the index has its port in the directory. */
  ghost predicate AllAdvertised(st: State) { forall n :: n in st.reg ==> KeyOf(n) in st.dir }

  /** Once `f` is on its way to `target`, `s` is closed: it was before, or it overflows its own queue. */
  predicate Shuts(st: State, s: Sid, target: Name, f: Frame)
    requires s in st.sess
  {
    || st.sess[s].closed
    || (target in st.reg && st.reg[target] == s && st.sess[s].queuedBytes + Size(f) >= QUEUE_LIMIT)
  }

  /** The header is too large, or an empty block is the last one. */
  predicate HeaderEnds(st: State, s: Sid, raw: Bytes)
    requires Enabled(st, HeaderRead(s, Some(raw)))
  {
    var x := st.sess[s];
    if x.pc.ReadPdpHeader? then
      || PdpSize(raw) > PDP_BLOCK_LIMIT
      || (PdpSize(raw) == 0 && Shuts(st, s, PdpTarget(raw), PdpFrame(x.name.src, [])))
    else
      || GetU32(raw) > PTP_BLOCK_LIMIT
      || (GetU32(raw) == 0 && Shuts(st, s, Peer(x.name).value, PtpFrame([])))
  }

  /** The event takes a registered session out of `run`, past its loop or its wait for a bond. */
  predicate Ends(st: State, e: Event)
    requires Enabled(st, e)
  {
    match e
    case BondResume(s) => !st.sess[s].established || st.sess[s].closed
    case SomeRead(s, ok) => !ok || st.sess[s].closed
    case HeaderRead(s, raw) => raw.None? || HeaderEnds(st, s, raw.value)
    case BlockRead(s, raw) =>
      var x := st.sess[s];
      || raw.None?
      || (if x.pc.ReadPdpBlock? then Shuts(st, s, x.pc.target, PdpFrame(x.name.src, raw.value))
          else Shuts(st, s, Peer(x.name).value, PtpFrame(raw.value)))
    case _ => false
  }

  /** A registered session leaves: its name, if it still holds it, and its port, whoever else uses it. */
  ghost predicate Departs(st: State, s: Sid, q: State) {
    && s in st.sess && s in q.sess
    && var x := st.sess[s];
       && x.registered && !x.finished && q.sess[s].finished
       && q.reg == (if Holder(x) then st.reg - {x.name} else st.reg)
       && q.dir == st.dir - {KeyOf(x.name)}
  }

  /** Neither table changes, and no registered session finishes. */
  ghost predicate Stays(st: State, s: Sid, q: State) {
    && q.reg == st.reg && q.dir == st.dir
    && (s in st.sess && st.sess[s].registered ==> s in q.sess && q.sess[s].finished == st.sess[s].finished)
  }

  /** An unfinished session, and an index and a counter that are in order. */
  ghost predicate Live(st: State, s: Sid) {
    Index(st) && Counted(st) && s in st.sess && !st.sess[s].finished
  }

  lemma FinishDeparts(st: State, s: Sid)
    requires Live(st, s)
    ensures st.sess[s].registered ==> Departs(st, s, Finish(st, s))
    ensures !st.sess[s].registered ==> Stays(st, s, Finish(st, s))
  {
    FinishHasEffect(st, s);
    hide Finish, Index, Counted;
  }

  lemma LoopTopIs(st: State, s: Sid, next: Pc)
    requires s in st.sess
    ensures LoopTop(st, s, next) == if st.sess[s].closed then Finish(st, s) else Put(st, s, st.sess[s].(pc := next))
  {
  }

  lemma LoopTopDeparts(st: State, s: Sid, next: Pc)
    requires Live(st, s) && st.sess[s].registered
    ensures if st.sess[s].closed then Departs(st, s, LoopTop(st, s, next)) else Stays(st, s, LoopTop(st, s, next))
  {
    LiveIn(st, s);
    LoopTopIs(st, s, next);
    PutStays(st, s, st.sess[s].(pc := next));
    hide *;
    FinishDeparts(st, s);
  }

  lemma LiveAt(st: State, s: Sid)
    requires Inv(st) && s in st.sess
    ensures !st.sess[s].pc.Done? ==> Live(st, s)
    ensures st.sess[s].registered <==>
            !(st.sess[s].pc.ReadInit? || st.sess[s].pc.AwaitListen? || (st.sess[s].pc.Done? && !st.sess[s].registered))
  {
    LocalAt(st, s);
    hide QueueOk, LogOk, LocalOk, Waiting, Advertised, BondsOk, HalfOpen, Traffic, AllGreeted, Index, Counted;
  }

  lemma QueuedShuts(x: Session, p: Sent)
    ensures var y := Queued(x, p);
            && RelaySteps.Quiet(x, y) && (y.closed <==> x.closed || x.queuedBytes + Size(p.frame) >= QUEUE_LIMIT)
  {
    hide Size;
  }

  lemma QuietLive(st: State, s: Sid, t: Sid, y: Session)
    requires Live(st, s) && t in st.sess && RelaySteps.Quiet(st.sess[t], y)
    ensures Live(Put(st, t, y), s)
  {
    RelaySteps.QuietIndex(st, t, y);
    RelaySteps.QuietCounted(st, t, y);
    hide Index, Counted;
  }

  lemma ConsumeLive(st: State, s: Sid, raw: Bytes)
    requires Live(st, s)
    ensures Live(Consume(st, s, raw), s)
  {
    LiveIn(st, s);
    QuietLive(st, s, s, st.sess[s].(input := st.sess[s].input + raw)) by { hide Live; }
    hide Live;
  }

  lemma SendToLive(c: State, s: Sid, target: Name, p: Sent)
    requires Live(c, s)
    ensures Live(SendTo(c, target, p), s)
  {
    if target in c.reg && c.reg[target] in c.sess {
      var t := c.reg[target];
      QueuedShuts(c.sess[t], p);
      hide Live, RelaySteps.Quiet, Queued;
      QuietLive(c, s, t, Queued(c.sess[t], p));
    }
  }

  /** A send leaves the sender as it was, except that it may be closed now. */
  lemma SendToShuts(st: State, s: Sid, raw: Bytes, target: Name, f: Frame)
    requires Live(st, s)
    ensures s in st.sess
    ensures var q := SendTo(Consume(st, s, raw), target, Sent(s, f));
            && Live(q, s) && s in q.sess && q.reg == st.reg && q.dir == st.dir
            && RelaySteps.Quiet(st.sess[s], q.sess[s]) && (q.sess[s].closed <==> Shuts(st, s, target, f))
  {
    LiveIn(st, s);
    hide *;
    ConsumeLive(st, s, raw);
    SendToLive(Consume(st, s, raw), s, target, Sent(s, f));
    SenderLooks(st, s, raw, target, f);
  }

  lemma SenderLooks(st: State, s: Sid, raw: Bytes, target: Name, f: Frame)
    requires s in st.sess
    ensures var q := SendTo(Consume(st, s, raw), target, Sent(s, f));
            && s in q.sess && q.reg == st.reg && q.dir == st.dir
            && RelaySteps.Quiet(st.sess[s], q.sess[s]) && (q.sess[s].closed <==> Shuts(st, s, target, f))
  {
    hide Queued, Size;
    QueuedShuts(Consume(st, s, raw).sess[s], Sent(s, f));
  }

  lemma ForwardDeparts(st: State, s: Sid, raw: Bytes, target: Name, f: Frame, next: Pc)
    requires Live(st, s) && st.sess[s].registered
    ensures var q := Forward(Consume(st, s, raw), s, target, f, next);
            if Shuts(st, s, target, f) then Departs(st, s, q) else Stays(st, s, q)
  {
    LiveIn(st, s);
    SendToShuts(st, s, raw, target, f);
    hide Live, SendTo, LoopTop, Shuts;
    LoopTopDeparts(SendTo(Consume(st, s, raw), target, Sent(s, f)), s, next);
  }

  lemma LiveIn(st: State, s: Sid)
    requires Live(st, s)
    ensures s in st.sess && !st.sess[s].finished
  {
  }

  lemma HeaderEndsWhen(st: State, s: Sid, raw: Bytes)
    requires Enabled(st, HeaderRead(s, Some(raw)))
    ensures s in st.sess && (st.sess[s].pc.ReadPdpHeader? || st.sess[s].pc.ReadPtpHeader?)
    ensures st.sess[s].pc.ReadPdpHeader? ==>
      && |raw| == 14
      && HeaderEnds(st, s, raw) ==
           (|| PdpSize(raw) > PDP_BLOCK_LIMIT
            || (PdpSize(raw) == 0 && Shuts(st, s, PdpTarget(raw), PdpFrame(st.sess[s].name.src, []))))
    ensures st.sess[s].pc.ReadPtpHeader? ==>
      && |raw| == 4 && IsPtpPipe(st.sess[s].name)
      && HeaderEnds(st, s, raw) ==
           (|| GetU32(raw) > PTP_BLOCK_LIMIT
            || (GetU32(raw) == 0 && Shuts(st, s, Peer(st.sess[s].name).value, PtpFrame([]))))
  {
    hide Shuts, PdpSize, PdpTarget, GetU32;
  }

  lemma PdpHeaderIs(st: State, s: Sid, raw: Bytes)
    requires s in st.sess && |raw| == 14
    ensures PdpHeaderRead(st, s, raw) ==
      if PdpSize(raw) > PDP_BLOCK_LIMIT then Finish(st, s)
      else if PdpSize(raw) == 0
      then Forward(Consume(st, s, raw), s, PdpTarget(raw), PdpFrame(st.sess[s].name.src, []), ReadPdpHeader)
      else Put(st, s, st.sess[s].(input := st.sess[s].input + raw, pc := ReadPdpBlock(PdpTarget(raw), PdpSize(raw))))
  {
    hide Finish, Forward, PdpSize, PdpTarget;
    var x := st.sess[s];
    assert forall y, z :: Put(Put(st, s, y), s, z) == Put(st, s, z);
  }

  lemma PtpHeaderIs(st: State, s: Sid, raw: Bytes)
    requires s in st.sess && |raw| == 4 && IsPtpPipe(st.sess[s].name)
    ensures Peer(st.sess[s].name).Some?
    ensures PtpHeaderRead(st, s, raw) ==
      if GetU32(raw) > PTP_BLOCK_LIMIT then Finish(st, s)
      else if GetU32(raw) == 0
      then Forward(Consume(st, s, raw), s, Peer(st.sess[s].name).value, PtpFrame([]), ReadPtpHeader)
      else Put(st, s, st.sess[s].(input := st.sess[s].input + raw, pc := ReadPtpBlock(GetU32(raw))))
  {
    hide Finish, Forward, GetU32;
    assert forall y, z :: Put(Put(st, s, y), s, z) == Put(st, s, z);
  }

  lemma PdpBlockAwaited(st: State, s: Sid, raw: Bytes)
    requires s in st.sess && |raw| == 14 && 0 < PdpSize(raw) <= PDP_BLOCK_LIMIT
    ensures var q := PdpHeaderRead(st, s, raw);
            s in q.sess && q.sess[s].finished == st.sess[s].finished && q == Put(st, s, q.sess[s])
  {
    PdpHeaderIs(st, s, raw);
    hide PdpHeaderRead, PdpTarget, PdpSize;
  }

  lemma PtpBlockAwaited(st: State, s: Sid, raw: Bytes)
    requires s in st.sess && |raw| == 4 && IsPtpPipe(st.sess[s].name) && 0 < GetU32(raw) <= PTP_BLOCK_LIMIT
    ensures var q := PtpHeaderRead(st, s, raw);
            s in q.sess && q.sess[s].finished == st.sess[s].finished && q == Put(st, s, q.sess[s])
  {
    PtpHeaderIs(st, s, raw);
    hide PtpHeaderRead, GetU32;
  }

  lemma PdpHeaderDeparts(st: State, s: Sid, raw: Bytes)
    requires Live(st, s) && st.sess[s].registered
    requires Enabled(st, HeaderRead(s, Some(raw))) && st.sess[s].pc.ReadPdpHeader?
    ensures |raw| == 14
    ensures var q := PdpHeaderRead(st, s, raw);
            if HeaderEnds(st, s, raw) then Departs(st, s, q) else Stays(st, s, q)
  {
    hide *;
    HeaderEndsWhen(st, s, raw);
    PdpHeaderIs(st, s, raw);
    if PdpSize(raw) > PDP_BLOCK_LIMIT {
      FinishDeparts(st, s);
    } else if PdpSize(raw) == 0 {
      ForwardDeparts(st, s, raw, PdpTarget(raw), PdpFrame(st.sess[s].name.src, []), ReadPdpHeader);
    } else {
      PdpBlockAwaited(st, s, raw);
      PutStays(st, s, PdpHeaderRead(st, s, raw).sess[s]);
    }
  }

  lemma PtpHeaderDeparts(st: State, s: Sid, raw: Bytes)
    requires Live(st, s) && st.sess[s].registered
    requires Enabled(st, HeaderRead(s, Some(raw))) && st.sess[s].pc.ReadPtpHeader?
    ensures |raw| == 4 && IsPtpPipe(st.sess[s].name)
    ensures var q := PtpHeaderRead(st, s, raw);
            if HeaderEnds(st, s, raw) then Departs(st, s, q) else Stays(st, s, q)
  {
    hide *;
    HeaderEndsWhen(st, s, raw);
    PtpHeaderIs(st, s, raw);
    if GetU32(raw) > PTP_BLOCK_LIMIT {
      FinishDeparts(st, s);
    } else if GetU32(raw) == 0 {
      ForwardDeparts(st, s, raw, Peer(st.sess[s].name).value, PtpFrame([]), ReadPtpHeader);
    } else {
      PtpBlockAwaited(st, s, raw);
      PutStays(st, s, PtpHeaderRead(st, s, raw).sess[s]);
    }
  }

  lemma HeaderSteps(st: State, s: Sid, raw: Bytes)
    requires Enabled(st, HeaderRead(s, Some(raw)))
    ensures s in st.sess
    ensures st.sess[s].pc.ReadPdpHeader? ==>
              |raw| == 14 && Step(st, HeaderRead(s, Some(raw))) == PdpHeaderRead(st, s, raw)
    ensures !st.sess[s].pc.ReadPdpHeader? ==>
              && |raw| == 4 && IsPtpPipe(st.sess[s].name) && st.sess[s].pc.ReadPtpHeader?
              && Step(st, HeaderRead(s, Some(raw))) == PtpHeaderRead(st, s, raw)
  {
    hide PdpHeaderRead, PtpHeaderRead;
  }

  lemma HeaderDeparts(st: State, s: Sid, raw: Bytes)
    requires Inv(st) && Enabled(st, HeaderRead(s, Some(raw)))
    ensures var q := Step(st, HeaderRead(s, Some(raw)));
            if HeaderEnds(st, s, raw) then Departs(st, s, q) else Stays(st, s, q)
  {
    HeaderSteps(st, s, raw);
    LiveAt(st, s);
    hide *;
    if st.sess[s].pc.ReadPdpHeader? {
      PdpHeaderDeparts(st, s, raw);
    } else {
      PtpHeaderDeparts(st, s, raw);
    }
  }

  lemma BlockSteps(st: State, s: Sid, raw: Bytes)
    requires Enabled(st, BlockRead(s, Some(raw)))
    ensures s in st.sess && |raw| <= PTP_BLOCK_LIMIT
    ensures var x, q := st.sess[s], Step(st, BlockRead(s, Some(raw)));
            if x.pc.ReadPdpBlock?
            then q == Forward(Consume(st, s, raw), s, x.pc.target, PdpFrame(x.name.src, raw), ReadPdpHeader)
            else x.pc.ReadPtpBlock? && IsPtpPipe(x.name)
                 && q == Forward(Consume(st, s, raw), s, Peer(x.name).value, PtpFrame(raw), ReadPtpHeader)
    ensures var x := st.sess[s];
            Ends(st, BlockRead(s, Some(raw))) ==
            if x.pc.ReadPdpBlock? then Shuts(st, s, x.pc.target, PdpFrame(x.name.src, raw))
            else Shuts(st, s, Peer(x.name).value, PtpFrame(raw))
  {
    hide Forward, Shuts;
  }

  lemma BlockDeparts(st: State, s: Sid, raw: Bytes)
    requires Inv(st) && Enabled(st, BlockRead(s, Some(raw)))
    ensures var e := BlockRead(s, Some(raw));
            if Ends(st, e) then Departs(st, s, Step(st, e)) else Stays(st, s, Step(st, e))
  {
    BlockSteps(st, s, raw);
    LiveAt(st, s);
    hide *;
    if st.sess[s].pc.ReadPdpBlock? {
      ForwardDeparts(st, s, raw, st.sess[s].pc.target, PdpFrame(st.sess[s].name.src, raw), ReadPdpHeader);
    } else {
      ForwardDeparts(st, s, raw, Peer(st.sess[s].name).value, PtpFrame(raw), ReadPtpHeader);
    }
  }

  /** An init packet that registers nothing leaves both tables alone. */
  lemma InitStays(st: State, s: Sid, i: Init, inTime: bool)
    requires Inv(st) && Newcomer(st, s) && st.sess[s].pc.ReadInit? && Entering(st, i).None?
    ensures Stays(st, s, Dispatch(st, s, i, inTime))
  {
    NewcomerIn(st, s);
    LiveAt(st, s);
    InitRefused(st, s, i, inTime);
    PutStays(st, s, st.sess[s].(name := ConnectName(i.src, i.dst), pc := AwaitListen(false)));
    hide *;
    FinishDeparts(st, s);
    RenamedStays(st, s, ConnectName(i.src, i.dst));
    RenamedStays(st, s, AcceptName(i.src, i.dst));
  }

  /** It is waited for a listener, or the session ends. */
  lemma InitRefused(st: State, s: Sid, i: Init, inTime: bool)
    requires s in st.sess && Entering(st, i).None?
    ensures
      var q, x, n, m := Dispatch(st, s, i, inTime), st.sess[s], ConnectName(i.src, i.dst), AcceptName(i.src, i.dst);
      || q == Finish(st, s) || q == Finish(Put(st, s, x.(name := n)), s) || q == Finish(Put(st, s, x.(name := m)), s)
      || exists ws :: q == Put(st, s, x.(name := n, pc := AwaitListen(false))).(waiters := ws)
  {
    hide Finish, Enter, Append, Peer;
  }

  lemma RenamedStays(st: State, s: Sid, n: Name)
    requires Inv(st) && Newcomer(st, s) && st.sess[s].pc.ReadInit?
    ensures s in st.sess && Stays(st, s, Finish(Put(st, s, st.sess[s].(name := n)), s))
  {
    var r := Put(st, s, st.sess[s].(name := n));
    RelaySafety.RenameKeeps(st, s, n);
    LiveAt(r, s);
    hide Finish, Inv, Live, NotWaiting;
    FinishDeparts(r, s);
  }

  lemma ConnectedStays(st: State, s: Sid)
    requires s !in st.sess
    ensures Stays(st, s, Step(st, Connected(s)))
  {
  }

  lemma PutStays(st: State, s: Sid, y: Session)
    requires s in st.sess && y.finished == st.sess[s].finished
    ensures Stays(st, s, Put(st, s, y))
    ensures forall ws :: Stays(st, s, Put(st, s, y).(waiters := ws))
  {
  }

  lemma WriterFinishes(x: Session)
    ensures WriterLoop(x).finished == x.finished
    ensures x.writer.Writing? ==> forall ok :: WriteDone(x, ok).finished == x.finished
  {
    hide Size;
  }

  lemma InitDeparts(st: State, s: Sid, raw: Option<Bytes>, inTime: bool)
    requires Inv(st) && Enabled(st, InitDone(s, raw, inTime)) && Registers(st, InitDone(s, raw, inTime)).None?
    ensures Stays(st, s, Step(st, InitDone(s, raw, inTime)))
  {
    LiveAt(st, s);
    FinishDeparts(st, s);
    if raw.Some? {
      InitSteps(st, s, raw.value, inTime);
      FreshIsNewcomer(st, s);
      hide Inv, Step, Entering, Dispatch, ParseInit, Newcomer, Finish, Live, Stays, Departs;
      InitStays(st, s, ParseInit(raw.value), inTime);
    } else {
      hide Inv, Finish, Live, Stays, Departs;
    }
  }

  lemma ResumeSteps(st: State, s: Sid)
    requires Enabled(st, ListenResume(s)) && Registers(st, ListenResume(s)).None?
    ensures s in st.sess && st.sess[s].pc == AwaitListen(true)
    ensures Step(st, ListenResume(s))
         == Finish(st.(waiters := StopWaiting(st.waiters, ListenerOf(st.sess[s].name), s)), s)
  {
    hide Finish, StopWaiting;
  }

  lemma ResumeDeparts(st: State, s: Sid)
    requires Inv(st) && Enabled(st, ListenResume(s)) && Registers(st, ListenResume(s)).None?
    ensures Stays(st, s, Step(st, ListenResume(s)))
  {
    ResumeSteps(st, s);
    var b := st.(waiters := StopWaiting(st.waiters, ListenerOf(st.sess[s].name), s));
    hide *;
    RelaySafety.StopWaitingKeeps(st, s);
    LiveAt(b, s);
    FinishDeparts(b, s);
    StaysLike(st, b, s, Finish(b, s));
  }

  lemma StaysLike(st: State, b: State, s: Sid, q: State)
    requires Stays(b, s, q) && b == st.(waiters := b.waiters)
    ensures Stays(st, s, q)
  {
  }

  lemma LoopSteps(st: State, e: Event)
    requires Enabled(st, e) && (e.BondResume? || e.SomeRead?)
    ensures e.s in st.sess && (st.sess[e.s].pc.AwaitBond? || st.sess[e.s].pc.ReadSome?)
    ensures Step(st, e) == if Ends(st, e) then Finish(st, e.s)
                           else LoopTop(st, e.s, if e.BondResume? then ReadPtpHeader else ReadSome)
    ensures !Ends(st, e) ==> !st.sess[e.s].closed
  {
    hide Finish;
  }

  lemma LoopDeparts(st: State, e: Event)
    requires Inv(st) && Enabled(st, e) && (e.BondResume? || e.SomeRead?)
    ensures if Ends(st, e) then Departs(st, e.s, Step(st, e)) else Stays(st, e.s, Step(st, e))
  {
    LoopSteps(st, e);
    LiveAt(st, e.s);
    hide *;
    FinishDeparts(st, e.s);
    LoopTopDeparts(st, e.s, if e.BondResume? then ReadPtpHeader else ReadSome);
  }

  lemma BrokenSteps(st: State, e: Event)
    requires Enabled(st, e) && (e.HeaderRead? || e.BlockRead?) && e.raw.None?
    ensures e.s in st.sess && Step(st, e) == Finish(st, e.s)
    ensures var pc := st.sess[e.s].pc; pc.ReadPdpHeader? || pc.ReadPtpHeader? || pc.ReadPdpBlock? || pc.ReadPtpBlock?
  {
    hide Finish;
  }

  lemma BrokenDeparts(st: State, e: Event)
    requires Inv(st) && Enabled(st, e) && (e.HeaderRead? || e.BlockRead?) && e.raw.None?
    ensures Departs(st, e.s, Step(st, e))
  {
    BrokenSteps(st, e);
    LiveAt(st, e.s);
    hide *;
    FinishDeparts(st, e.s);
  }

  /** Every event that registers nothing: the session departs exactly when the guards say so. */
  lemma OtherOutcome(st: State, e: Event)
    requires Inv(st) && Enabled(st, e) && Registers(st, e).None?
    ensures if Ends(st, e) then Departs(st, e.s, Step(st, e)) else Stays(st, e.s, Step(st, e))
  {
    hide Inv, Departs, Stays, Step, Registers, HeaderEnds, Shuts;
    match e
    case Connected(s) => ConnectedStays(st, s) by { EnabledSession(st, e); }
    case InitDone(s, raw, inTime) => InitDeparts(st, s, raw, inTime);
    case ListenTimer(s) => TimerStays(st, e);
    case ListenResume(s) => ResumeDeparts(st, s);
    case BondTimer(s) => TimerStays(st, e);
    case BondResume(s) => LoopDeparts(st, e);
    case SomeRead(s, ok) => LoopDeparts(st, e);
    case HeaderRead(s, raw) => if raw.None? { BrokenDeparts(st, e); } else { HeaderDeparts(st, s, raw.value); }
    case BlockRead(s, raw) => if raw.None? { BrokenDeparts(st, e); } else { BlockDeparts(st, s, raw.value); }
    case WriterRuns(s) => TimerStays(st, e);
    case Written(s, ok) => TimerStays(st, e);
  }

  lemma EnabledSession(st: State, e: Event)
    requires Enabled(st, e)
    ensures e.Connected? <==> e.s !in st.sess
  {
  }

  /** Timers and the writer change one session, and not whether it is finished. */
  lemma TimerStays(st: State, e: Event)
    requires Enabled(st, e) && (e.ListenTimer? || e.BondTimer? || e.WriterRuns? || e.Written?)
    ensures Stays(st, e.s, Step(st, e))
  {
    EnabledSession(st, e);
    WriterFinishes(st.sess[e.s]);
    var q := Step(st, e);
    assert q == Put(st, e.s, q.sess[e.s]) by { hide WriterLoop, WriteDone; }
    assert q.sess[e.s].finished == st.sess[e.s].finished by { hide WriterLoop, WriteDone; }
    PutStays(st, e.s, q.sess[e.s]);
  }

  /** Somebody else in the index uses the port that `s` is about to take out of the directory. */
  ghost predicate Shared(st: State, s: Sid, k: Key) {
    exists m :: m in st.reg && st.reg[m] != s && KeyOf(m) == k
  }

  /** The event takes nobody's port away: it neither fails to register a second session on a port in use,
      nor finishes a registered session on whose port somebody else is in the index. */
  ghost predicate SparesPorts(st: State, e: Event)
    requires Enabled(st, e)
  {
    && (Registers(st, e).Some? ==>
          var n := Registers(st, e).value;
          !(KeyOf(n) in st.dir && exists m :: m in st.reg && m != n && KeyOf(m) == KeyOf(n)))
    && (Ends(st, e) ==> e.s in st.sess && !Shared(st, e.s, KeyOf(st.sess[e.s].name)))
  }

  lemma RegistrationSpares(st: State, s: Sid, n: Name, q: State)
    requires AllAdvertised(st) && Outcome(st, s, n, q)
    ensures AllAdvertised(q) <==> !(KeyOf(n) in st.dir && exists m :: m in st.reg && m != n && KeyOf(m) == KeyOf(n))
  {
    hide KeyOf, Peer;
    if KeyOf(n) in st.dir && AllAdvertised(q) {
      forall m | m in st.reg && m != n ensures KeyOf(m) != KeyOf(n) {
        assert m in q.reg;
      }
    }
  }

  lemma DepartureSpares(st: State, s: Sid, q: State)
    requires AllAdvertised(st) && Index(st) && Departs(st, s, q)
    ensures AllAdvertised(q) <==> !Shared(st, s, KeyOf(st.sess[s].name))
  {
    hide KeyOf;
    var x := st.sess[s];
    assert forall m :: m in q.reg <==> m in st.reg && st.reg[m] != s;
    if AllAdvertised(q) {
      forall m | m in st.reg && st.reg[m] != s ensures KeyOf(m) != KeyOf(x.name) {
        assert m in q.reg;
      }
    }
  }

  lemma StayingSpares(st: State, s: Sid, q: State)
    requires AllAdvertised(st) && Stays(st, s, q)
    ensures AllAdvertised(q)
  {
  }

  lemma RegisteringEndsNothing(st: State, e: Event)
    requires Enabled(st, e) && Registers(st, e).Some?
    ensures !Ends(st, e)
  {
    hide Entering;
  }

  /** A step keeps every session in the index advertised if and only if it takes nobody's port away. */
  lemma AdvertisingKept(st: State, e: Event)
    requires Inv(st) && Enabled(st, e) && AllAdvertised(st)
    ensures AllAdvertised(Step(st, e)) <==> SparesPorts(st, e)
  {
    ShapeParts(st);
    var q := Step(st, e);
    if Registers(st, e).Some? {
      hide *;
      var n := Registers(st, e).value;
      StepOutcome(st, e, n);
      RegistrationSpares(st, e.s, n, q);
      RegistrantSpares(st, e, n);
    } else {
      hide *;
      OtherOutcome(st, e);
      if Ends(st, e) {
        DepartsFrom(st, e.s, q);
        DepartureSpares(st, e.s, q);
        DepartingSpares(st, e);
      } else {
        StayingSpares(st, e.s, q);
        DepartingSpares(st, e);
      }
    }
  }

  lemma RegistrantSpares(st: State, e: Event, n: Name)
    requires Enabled(st, e) && Registers(st, e) == Some(n)
    ensures SparesPorts(st, e) <==>
            !(KeyOf(n) in st.dir && exists m :: m in st.reg && m != n && KeyOf(m) == KeyOf(n))
  {
    RegisteringEndsNothing(st, e);
    hide Registers, Enabled, Ends, KeyOf, Shared;
  }

  lemma DepartingSpares(st: State, e: Event)
    requires Enabled(st, e) && Registers(st, e).None?
    ensures SparesPorts(st, e) <==> (Ends(st, e) ==> e.s in st.sess && !Shared(st, e.s, KeyOf(st.sess[e.s].name)))
  {
    hide Registers, Enabled, Ends, KeyOf, Shared;
  }

  lemma DepartsFrom(st: State, s: Sid, q: State)
    requires Departs(st, s, q)
    ensures s in st.sess && st.sess[s].registered && !st.sess[s].finished && s in q.sess && q.sess[s].finished
  {
  }

  /** The guards are right: `Ends` is finishing a session that was registered before the step. */
  lemma EndsMeansFinishes(st: State, e: Event)
    requires Inv(st) && Enabled(st, e)
    ensures Ends(st, e) <==>
            && e.s in st.sess && st.sess[e.s].registered && !st.sess[e.s].finished
            && e.s in Step(st, e).sess && Step(st, e).sess[e.s].finished
  {
    if Registers(st, e).Some? {
      RegistrantIsNew(st, e);
    } else {
      hide Inv, Step, Enabled, Registers, Ends;
      OtherOutcome(st, e);
    }
  }

  lemma RegistrantIsNew(st: State, e: Event)
    requires Inv(st) && Enabled(st, e) && Registers(st, e).Some?
    ensures !Ends(st, e) && (e.s in st.sess ==> !st.sess[e.s].registered)
  {
    RegisteringEndsNothing(st, e);
    hide Inv, Ends, Entering, Live;
    if e.s in st.sess { LiveAt(st, e.s); }
  }

  // ---- whole runs -------------------------------------------------------------------------------

  ghost predicate AlwaysAdvertised(st: State, es: seq<Event>)
    requires Schedulable(st, es)
    decreases |es|
  {
    AllAdvertised(st) && (es == [] || AlwaysAdvertised(Step(st, es[0]), es[1..]))
  }

  ghost predicate AlwaysSpares(st: State, es: seq<Event>)
    requires Schedulable(st, es)
    decreases |es|
  {
    es == [] || (SparesPorts(st, es[0]) && AlwaysSpares(Step(st, es[0]), es[1..]))
  }

  /** All through a run everybody in the index is advertised if and only if no step takes a port away. */
  lemma {:induction false} AdvertisedThroughout(st: State, es: seq<Event>)
    requires Inv(st) && AllAdvertised(st) && Schedulable(st, es)
    ensures AlwaysAdvertised(st, es) <==> AlwaysSpares(st, es)
    decreases |es|
  {
    hide Inv, Step, Enabled, SparesPorts, AllAdvertised;
    if es != [] {
      StepKeeps(st, es[0]);
      AdvertisingKept(st, es[0]);
      if SparesPorts(st, es[0]) {
        AdvertisedThroughout(Step(st, es[0]), es[1..]);
      } else {
        assert !AlwaysAdvertised(Step(st, es[0]), es[1..]);
      }
    }
  }

  // ---- inputs that show it ----------------------------------------------------------------------

  /** LISTEN, CONNECT and ACCEPT on one pair of endpoints, nobody leaving in between. */
  function TooEarlyAccept(l: Endpoint, c: Endpoint): seq<Event> {
    Arrival(0, Init(1, l, c)) + Arrival(1, Init(2, c, l)) + Arrival(2, Init(3, l, c))
  }

  lemma RefusedStage(st: State, l: Endpoint, c: Endpoint)
    requires Inv(st) && st.active == 2 && st.sess.Keys == {0, 1} && !st.sess[1].established
    requires st.reg == map[ListenName(l) := 0][ConnectName(c, l) := 1]
    requires st.dir == map[KeyOf(ListenName(l)) := 0, KeyOf(ConnectName(c, l)) := 1]
    ensures Schedulable(st, Arrival(2, Init(3, l, c)))
    ensures var r := Run(st, Arrival(2, Init(3, l, c))); ListenName(l) in r.reg && KeyOf(ListenName(l)) !in r.dir
  {
    hide Inv, Step, Enabled, InitBytes, Newcomer, Dispatch, Run, Schedulable, ParseInit;
    ConnectedLooks(st, 2);
    var s1 := Step(st, Connected(2));
    var i, n := Init(3, l, c), AcceptName(l, c);
    InitEnabled(s1, 2, i);
    InitRoundTrip(i);
    assert Bondable(s1, n) == Some(1);
    ListenerLosesItsPort(s1, 2, InitBytes(i), true, n, ListenName(l));
    TwoSteps(st, Connected(2), InitDone(2, Some(InitBytes(i)), true));
  }

  /** A run from the start after which a live LISTEN is in the index and its port in no directory. */
  lemma UnadvertisedListener(l: Endpoint, c: Endpoint)
    requires l != c
    ensures Schedulable(INITIAL, TooEarlyAccept(l, c))
    ensures var st := Run(INITIAL, TooEarlyAccept(l, c));
            ListenName(l) in st.reg && KeyOf(ListenName(l)) !in st.dir && !AllAdvertised(st)
  {
    hide Inv, Schedulable, Run, Arrival, KeyOf;
    var a1, a2, a3 := Arrival(0, Init(1, l, c)), Arrival(1, Init(2, c, l)), Arrival(2, Init(3, l, c));
    ListenStage(l, c);
    var s1 := Run(INITIAL, a1);
    ConnectStage(s1, l, c);
    RunAppends(INITIAL, a1, a2);
    RefusedStage(Run(s1, a2), l, c);
    RunAppends(INITIAL, a1 + a2, a3);
  }

  /** Two PDP clients for one endpoint. */
  function SecondPdp(e: Endpoint, d: Endpoint): seq<Event> {
    Arrival(0, Init(0, e, d)) + Arrival(1, Init(0, e, d))
  }

  /** A run from the start in which the second of two PDP sessions replaces the first, and nobody is left. */
  lemma NobodyLeft(e: Endpoint, d: Endpoint)
    ensures Schedulable(INITIAL, SecondPdp(e, d))
    ensures var st := Run(INITIAL, SecondPdp(e, d));
            && st.reg == map[] && st.dir == map[]
            && 0 in st.sess && st.sess[0].closed && 1 in st.sess && st.sess[1].finished
  {
    FirstArrival(Init(0, e, d), PdpName(e), ReadPdpHeader);
    var a1, a2 := Arrival(0, Init(0, e, d)), Arrival(1, Init(0, e, d));
    var st := Run(INITIAL, a1);
    hide Inv, Schedulable, Run, KeyOf, Step, Enabled, InitBytes, Newcomer, Dispatch, Outcome;
    ConnectedLooks(st, 1);
    var s1 := Step(st, Connected(1));
    InitEnabled(s1, 1, Init(0, e, d));
    InitOutcome(s1, 1, Init(0, e, d), true, PdpName(e));
    OutcomeTaken(s1, 1, PdpName(e), Dispatch(s1, 1, Init(0, e, d), true));
    TwoSteps(st, Connected(1), InitDone(1, Some(InitBytes(Init(0, e, d))), true));
    RunAppends(INITIAL, a1, a2);
  }

  lemma OutcomeTaken(st: State, s: Sid, n: Name, q: State)
    requires Outcome(st, s, n, q) && st.reg == map[n := 0] && st.dir == map[KeyOf(n) := 0]
    ensures q.reg == map[] && q.dir == map[] && 0 in q.sess && q.sess[0].closed && s in q.sess && q.sess[s].finished
  {
  }
}
