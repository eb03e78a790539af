/** Whom a step reaches: what becomes of every session other than the one that takes the step. */
module RelayReach {
  import opened Bytes
  import opened SessionNames
  import opened RelayDirectories
  import opened RelayModel
  import opened RelayInvariant
  import opened RelayFinish
  import opened RelayRegister
  import opened RelayRuns
  import opened RelayHistory
  import opened RelayTheorems
  import opened RelayPorts
  import RelayBond
  import RelaySafety
  import RelaySteps

  // ---- `finish` ---------------------------------------------------------------------------------

  /** `t` holds the name that mirrors `n`. */
  predicate Mirrors(st: State, n: Name, t: Sid) {
    Peer(n).Some? && Peer(n).value in st.reg && st.reg[Peer(n).value] == t
  }

  /** `finish` closes the session under the mirrored name, if the one that finishes still holds its own, and
      touches nobody else. */
  lemma FinishReaches(st: State, s: Sid, t: Sid)
    requires Live(st, s) && t in st.sess && t != s
    ensures t in Finish(st, s).sess
    ensures Finish(st, s).sess[t]
         == if Holder(st.sess[s]) && Mirrors(st, st.sess[s].name, t) then Closed(st.sess[t]) else st.sess[t]
  {
    FinishUnfolds(st, s);
    DetachedHasEffect(st, s);
    DetachedIndex(st, s);
    MirrorsAfter(st, Detached(st, s), st.sess[s].name, t);
    hide Finish, Detached, Live, Closed, Ended;
    if Holder(st.sess[s]) { PeerReaches(Detached(st, s), st.sess[s].name, t); }
  }

  lemma MirrorsAfter(st: State, d: State, n: Name, t: Sid)
    requires d.reg == st.reg || d.reg == st.reg - {n}
    ensures Mirrors(d, n, t) == Mirrors(st, n, t)
  {
    if IsPtpPipe(n) { PeerIsInvolution(n); }
  }

  lemma PeerReaches(d: State, n: Name, t: Sid)
    requires Index(d) && t in d.sess
    ensures t in ClosePeer(d, n).sess
    ensures ClosePeer(d, n).sess[t] == if Mirrors(d, n, t) then Closed(d.sess[t]) else d.sess[t]
  {
    hide Closed;
  }

  // ---- registrations ----------------------------------------------------------------------------

  /** What the registration of `n` alone makes of another session: the holder of the name is superseded,
      those who wait for it are woken. */
  function Seen(st: State, n: Name, t: Sid): Session
    requires t in st.sess
  {
    if n in st.reg && st.reg[n] == t then Superseded(st.sess[t])
    else if n in st.waiters && t in st.waiters[n] then st.sess[t].(pc := AwaitListen(true))
    else st.sess[t]
  }

  lemma RegisterSees(st: State, s: Sid, n: Name, est: bool, next: Pc, t: Sid)
    requires Ready(st, s) && t in st.sess && t != s
    ensures t in Register(st, s, n, est, next).sess && Register(st, s, n, est, next).sess[t] == Seen(st, n, t)
  {
    RegisterHasEffect(st, s, n, est, next);
    hide Register, Index, Waiting, Counted, Newcomer;
    assert Bystander(st, n, t, Register(st, s, n, est, next).sess[t]);
  }

  /** A name whose port is in use is registered and given up in one go. */
  ghost predicate TakenReach(st: State, n: Name, t: Sid, y: Session) {
    t in st.sess && y == if Mirrors(st, n, t) then Closed(Seen(st, n, t)) else Seen(st, n, t)
  }

  lemma TakenReaches(st: State, s: Sid, n: Name, est: bool, next: Pc, t: Sid)
    requires Ready(st, s) && t in st.sess && t != s
    ensures var r := Register(st, s, n, est, next);
            s in r.sess && t in Finish(r, s).sess && TakenReach(st, n, t, Finish(r, s).sess[t])
  {
    RegisterSees(st, s, n, est, next, t);
    RegisteredLives(st, s, n, est, next);
    hide Register, Finish, Ready, Seen, Live, Closed;
    FinishReaches(Register(st, s, n, est, next), s, t);
    MirrorsRegistered(st, Register(st, s, n, est, next), n, s, t);
  }

  lemma RegisteredLives(st: State, s: Sid, n: Name, est: bool, next: Pc)
    requires Ready(st, s)
    ensures var r := Register(st, s, n, est, next);
            && Live(r, s) && s in r.sess && Holder(r.sess[s]) && r.sess[s].name == n && r.reg == st.reg[n := s]
            && r.sess[s] == Joined(st.sess[s], n, est, next) && r.sess.Keys == st.sess.Keys && r.dir == st.dir
  {
    RegisterHasEffect(st, s, n, est, next);
    RegisterIndex(st, s, n, est, next, Register(st, s, n, est, next));
    RegisteredCounts(st, s, n, est, next, Register(st, s, n, est, next));
    hide Register, Index, Waiting, Counted, NotWaiting;
  }

  lemma RegisteredCounts(st: State, s: Sid, n: Name, est: bool, next: Pc, r: State)
    requires Ready(st, s) && RegisterEffect(st, s, n, est, next, r)
    ensures Counted(r)
  {
    BystandersNearlyQuiet(st, s, n, est, next, r);
    hide Index, Waiting, NearlyQuiet, Bystander;
    forall t | t in st.sess ensures r.sess[t].finished == st.sess[t].finished {
      if t != s { StillUnfinished(st.sess[t], r.sess[t]); }
    }
    assert Unfinished(r.sess) == Unfinished(st.sess);
  }

  lemma StillUnfinished(x: Session, y: Session)
    requires NearlyQuiet(x, y)
    ensures y.finished == x.finished
  {
  }

  lemma MirrorsRegistered(st: State, r: State, n: Name, s: Sid, t: Sid)
    requires r.reg == st.reg[n := s]
    ensures Mirrors(r, n, t) == Mirrors(st, n, t)
  {
    if IsPtpPipe(n) { PeerIsInvolution(n); }
  }

  /** A name whose port is free: a CONNECT announces itself to the listener, an ACCEPT to the CONNECT that it
      bonds with. */
  ghost predicate FreeReach(st: State, s: Sid, n: Name, t: Sid, y: Session) {
    && t in st.sess
    && y == if n.ConnectName? && ListenName(n.dst) in st.reg && st.reg[ListenName(n.dst)] == t
            then Queued(Seen(st, n, t), Sent(s, Notice(n.src)))
            else if n.AcceptName? && Bondable(st, n) == Some(t)
            then Queued(Bonded(Seen(st, n, t)), Sent(s, Notice(n.src)))
            else Seen(st, n, t)
  }

  lemma EnterReaches(st: State, s: Sid, n: Name, next: Pc, t: Sid)
    requires Ready(st, s) && t in st.sess && t != s && !n.ConnectName? && !n.AcceptName?
    ensures t in Enter(st, s, n, next).sess
    ensures if KeyOf(n) in st.dir then TakenReach(st, n, t, Enter(st, s, n, next).sess[t])
            else FreeReach(st, s, n, t, Enter(st, s, n, next).sess[t])
  {
    RegisterSees(st, s, n, false, next, t);
    RegisteredLives(st, s, n, false, next);
    hide Register, Finish, Ready, Seen, Live, KeyOf, TakenReach;
    if KeyOf(n) in st.dir {
      TakenReaches(st, s, n, false, next, t);
    } else {
      OpenYet(st, s);
    }
  }

  lemma OpenYet(st: State, s: Sid)
    requires Ready(st, s)
    ensures s in st.sess && !st.sess[s].closed
  {
  }

  lemma ConnectReaches(st: State, s: Sid, n: Name, t: Sid)
    requires Ready(st, s) && t in st.sess && t != s && n.ConnectName? && ListenName(n.dst) in st.reg
    ensures t in EstablishConnect(st, s, n).sess
    ensures if KeyOf(n) in st.dir then TakenReach(st, n, t, EstablishConnect(st, s, n).sess[t])
            else FreeReach(st, s, n, t, EstablishConnect(st, s, n).sess[t])
  {
    ListenerIs(n);
    hide *;
    NewcomerFrom(st, s);
    ConnectUnfolds(st, s, n);
    var r, l := Register(st, s, n, false, AwaitBond(false)), st.reg[ListenName(n.dst)];
    if KeyOf(n) in st.dir {
      TakenReaches(st, s, n, false, AwaitBond(false), t);
    } else {
      RegisterSees(st, s, n, false, AwaitBond(false), t);
      SendReaches(r, s, n, l, Sent(s, Notice(n.src)), t);
      FreeConnect(st, s, n, t, Send(Advertise(r, s, n), l, Sent(s, Notice(n.src))).sess[t]);
    }
  }

  lemma SendReaches(r: State, s: Sid, n: Name, l: Sid, p: Sent, t: Sid)
    requires t in r.sess
    ensures var q := Send(Advertise(r, s, n), l, p);
            t in q.sess && q.sess[t] == if t == l then Queued(r.sess[t], p) else r.sess[t]
  {
    hide Queued, KeyOf;
  }

  lemma FreeConnect(st: State, s: Sid, n: Name, t: Sid, y: Session)
    requires t in st.sess && n.ConnectName? && ListenName(n.dst) in st.reg
    requires y == if t == st.reg[ListenName(n.dst)] then Queued(Seen(st, n, t), Sent(s, Notice(n.src))) else Seen(st, n, t)
    ensures FreeReach(st, s, n, t, y)
  {
    hide Queued, Seen;
  }

  lemma NewcomerFrom(st: State, s: Sid)
    requires Ready(st, s)
    ensures Newcomer(st, s) && s in st.sess
  {
  }

  lemma AcceptReaches(st: State, s: Sid, n: Name, t: Sid)
    requires Inv(st) && Newcomer(st, s) && t in st.sess && t != s && n.AcceptName? && Bondable(st, n).Some?
    ensures t in EstablishAccept(st, s, n).sess
    ensures if KeyOf(n) in st.dir then TakenReach(st, n, t, EstablishAccept(st, s, n).sess[t])
            else FreeReach(st, s, n, t, EstablishAccept(st, s, n).sess[t])
  {
    ReadyFor(st, s);
    hide *;
    NewcomerFrom(st, s);
    if KeyOf(n) in st.dir {
      AcceptTaken(st, s, n);
      TakenReaches(st, s, n, true, ReadPtpHeader, t);
    } else {
      var c := Bondable(st, n).value;
      RelayBond.BondStepKeeps(st, s, n, c);
      RelayBond.AcceptedUnfolds(st, s, n, c);
      RegisterSees(st, s, n, true, ReadPtpHeader, t);
      RegisteredLives(st, s, n, true, ReadPtpHeader);
      BondedSends(Register(st, s, n, true, ReadPtpHeader), s, n, c, t);
      FreeAccept(st, s, n, c, t);
    }
  }

  lemma BondedSends(r: State, s: Sid, n: Name, c: Sid, t: Sid)
    requires s in r.sess && t in r.sess && t != s && n.AcceptName?
    ensures var a := Advertise(r, s, n);
            var q := Send(Send(AddBond(a, s, c), c, Sent(s, Notice(n.src))), s, Sent(s, Notice(n.dst)));
            t in q.sess && q.sess[t] == if t == c then Queued(Bonded(r.sess[t]), Sent(s, Notice(n.src))) else r.sess[t]
  {
    hide Queued, Bonded;
  }

  lemma FreeAccept(st: State, s: Sid, n: Name, c: Sid, t: Sid)
    requires t in st.sess && n.AcceptName? && Bondable(st, n) == Some(c)
    ensures FreeReach(st, s, n, t, if t == c then Queued(Bonded(Seen(st, n, t)), Sent(s, Notice(n.src))) else Seen(st, n, t))
  {
    hide Bondable, Queued, Seen, Bonded;
  }

  lemma SameReach(st: State, b: State, s: Sid, n: Name, t: Sid, y: Session)
    requires b.reg == st.reg && b.dir == st.dir && t in st.sess && t in b.sess && b.sess[t] == st.sess[t]
    requires n in st.waiters && t in st.waiters[n] <==> n in b.waiters && t in b.waiters[n]
    requires !n.AcceptName?
    requires if KeyOf(n) in st.dir then TakenReach(b, n, t, y) else FreeReach(b, s, n, t, y)
    ensures if KeyOf(n) in st.dir then TakenReach(st, n, t, y) else FreeReach(st, s, n, t, y)
  {
    hide KeyOf, Queued;
  }

  /** Whoever waits for a listener waits for no other name. */
  lemma StopWaitingSpares(ws: map<Name, seq<Sid>>, l: Name, s: Sid, n: Name, t: Sid)
    requires t != s
    ensures (n in StopWaiting(ws, l, s) && t in StopWaiting(ws, l, s)[n]) <==> (n in ws && t in ws[n])
  {
    if l in ws { WithoutKeepsOthers(ws[l], s); }
  }

  lemma NamedReaches(st: State, s: Sid, n: Name, t: Sid)
    requires Inv(st) && Newcomer(st, s) && s in st.sess && st.sess[s].pc.ReadInit? && t in st.sess && t != s
    requires n.ConnectName? && ListenName(n.dst) in st.reg
    ensures var q := EstablishConnect(Put(st, s, st.sess[s].(name := n)), s, n);
            && t in q.sess
            && if KeyOf(n) in st.dir then TakenReach(st, n, t, q.sess[t]) else FreeReach(st, s, n, t, q.sess[t])
  {
    hide Inv, Newcomer, Ready, EstablishConnect, TakenReach, FreeReach, KeyOf;
    var b := Put(st, s, st.sess[s].(name := n));
    RelaySafety.RenameKeeps(st, s, n);
    ReadyFor(b, s);
    ConnectReaches(b, s, n, t);
    SameReach(st, b, s, n, t, EstablishConnect(b, s, n).sess[t]);
  }

  lemma InitReaches(st: State, s: Sid, i: Init, inTime: bool, n: Name, t: Sid)
    requires Inv(st) && Newcomer(st, s) && s in st.sess && st.sess[s].pc.ReadInit? && Entering(st, i) == Some(n)
    requires t in st.sess && t != s
    ensures t in Dispatch(st, s, i, inTime).sess
    ensures var y := Dispatch(st, s, i, inTime).sess[t];
            if KeyOf(n) in st.dir then TakenReach(st, n, t, y) else FreeReach(st, s, n, t, y)
  {
    DispatchesTo(st, s, i, inTime);
    ReadyFor(st, s);
    hide Inv, Newcomer, Ready, Enter, EstablishConnect, EstablishAccept, Dispatch, Bondable, TakenReach, FreeReach, KeyOf;
    if i.kind == 0 {
      EnterReaches(st, s, n, ReadPdpHeader, t);
    } else if i.kind == 1 {
      EnterReaches(st, s, n, ReadSome, t);
    } else if i.kind == 2 {
      NamedReaches(st, s, n, t);
    } else {
      AcceptReaches(st, s, n, t);
    }
  }

  lemma ResumeReaches(st: State, s: Sid, t: Sid)
    requires Inv(st) && Enabled(st, ListenResume(s)) && s in st.sess && t in st.sess && t != s
    requires ListenName(st.sess[s].name.dst) in st.reg && st.sess[s].name.ConnectName?
    ensures t in Step(st, ListenResume(s)).sess
    ensures var y, n := Step(st, ListenResume(s)).sess[t], st.sess[s].name;
            if KeyOf(n) in st.dir then TakenReach(st, n, t, y) else FreeReach(st, s, n, t, y)
  {
    ListenerIs(st.sess[s].name);
    hide *;
    ResumeConnects(st, s);
    var n := st.sess[s].name;
    var b := st.(waiters := StopWaiting(st.waiters, ListenerOf(n), s));
    RelaySafety.StopWaitingKeeps(st, s);
    ReadyFor(b, s);
    ConnectReaches(b, s, n, t);
    StopWaitingSpares(st.waiters, ListenerOf(n), s, n, t);
    SameReach(st, b, s, n, t, EstablishConnect(b, s, n).sess[t]);
  }

  lemma ListenerIs(n: Name)
    requires n.ConnectName?
    ensures ListenerOf(n) == ListenName(n.dst)
  {
  }

  /** Whom a registration reaches, and how, in all four modes: the former holder of the name is superseded,
      those who wait for it are woken, the listener or the bonded CONNECT is sent one notice, and if the port
      is in use the session under the mirrored name is closed. Everybody else is as before. */
  lemma RegistrationReaches(st: State, e: Event, n: Name, t: Sid)
    requires Inv(st) && Enabled(st, e) && Registers(st, e) == Some(n) && t in st.sess && t != e.s
    ensures t in Step(st, e).sess
    ensures if KeyOf(n) in st.dir then TakenReach(st, n, t, Step(st, e).sess[t])
            else FreeReach(st, e.s, n, t, Step(st, e).sess[t])
  {
    if e.ListenResume? {
      ResumeNames(st, e, n);
      hide *;
      ResumeReaches(st, e.s, t);
    } else {
      hide Inv, Step, Entering, Dispatch, Newcomer, ParseInit, TakenReach, FreeReach, KeyOf;
      InitSteps(st, e.s, e.raw.value, e.inTime);
      FreshIsNewcomer(st, e.s);
      InitReaches(st, e.s, ParseInit(e.raw.value), e.inTime, n, t);
    }
  }

  lemma ResumeNames(st: State, e: Event, n: Name)
    requires Enabled(st, e) && e.ListenResume? && Registers(st, e) == Some(n)
    ensures e == ListenResume(e.s) && e.s in st.sess && st.sess[e.s].name == n && n.ConnectName?
    ensures ListenName(n.dst) in st.reg
  {
  }

  // ---- everything else --------------------------------------------------------------------------

  /** The frame that `e` forwards, and to which name. */
  function Forwards(st: State, e: Event): Option<(Name, Frame)>
    requires Enabled(st, e)
  {
    match e
    case HeaderRead(s, raw) =>
      var x := st.sess[s];
      if raw.None? then None
      else if x.pc.ReadPdpHeader? && GetU32(raw.value[10..14]) == 0
      then Some((PdpName(Endpoint(raw.value[..6], GetU16(raw.value[8..10]))), PdpFrame(x.name.src, [])))
      else if x.pc.ReadPtpHeader? && GetU32(raw.value) == 0 then Some((Peer(x.name).value, PtpFrame([])))
      else None
    case BlockRead(s, raw) =>
      var x := st.sess[s];
      if raw.None? then None
      else if x.pc.ReadPdpBlock? then Some((x.pc.target, PdpFrame(x.name.src, raw.value)))
      else Some((Peer(x.name).value, PtpFrame(raw.value)))
    case _ => None
  }

  /** What is forwarded to `t`. */
  function GivenTo(st: State, s: Sid, f: Option<(Name, Frame)>, t: Sid): Session
    requires t in st.sess
  {
    if f.Some? && f.value.0 in st.reg && st.reg[f.value.0] == t then Queued(st.sess[t], Sent(s, f.value.1))
    else st.sess[t]
  }

  /** The session is handed what is forwarded to it, and closed if `s` ends and `t` mirrors it. */
  ghost predicate OtherReach(st: State, s: Sid, f: Option<(Name, Frame)>, ends: bool, t: Sid, y: Session) {
    && t in st.sess
    && y == if ends && s in st.sess && Holder(st.sess[s]) && Mirrors(st, st.sess[s].name, t)
            then Closed(GivenTo(st, s, f, t)) else GivenTo(st, s, f, t)
  }

  lemma FinishedReach(st: State, s: Sid, t: Sid)
    requires Live(st, s) && t in st.sess && t != s
    ensures t in Finish(st, s).sess && OtherReach(st, s, None, true, t, Finish(st, s).sess[t])
  {
    LiveIn(st, s);
    FinishReaches(st, s, t);
    hide Finish, Live, Closed, Mirrors;
  }

  lemma UntouchedReach(st: State, s: Sid, t: Sid)
    requires t in st.sess
    ensures OtherReach(st, s, None, false, t, st.sess[t])
  {
  }

  /** A session that never registered ends without anybody noticing. */
  lemma UnregisteredReach(st: State, b: State, s: Sid, t: Sid)
    requires Live(b, s) && t in st.sess && t in b.sess && b.sess[t] == st.sess[t] && t != s && !Holder(b.sess[s])
    ensures t in Finish(b, s).sess && OtherReach(st, s, None, false, t, Finish(b, s).sess[t])
  {
    FinishReaches(b, s, t);
    hide Finish, Live, Closed, Mirrors;
  }

  lemma SendToReaches(st: State, s: Sid, raw: Bytes, target: Name, f: Frame, t: Sid)
    requires s in st.sess && t in st.sess && t != s
    ensures var h := SendTo(Consume(st, s, raw), target, Sent(s, f));
            t in h.sess && h.sess[t] == GivenTo(st, s, Some((target, f)), t)
  {
    hide Queued;
  }

  lemma ForwardReaches(st: State, s: Sid, raw: Bytes, target: Name, f: Frame, next: Pc, t: Sid)
    requires Live(st, s) && s in st.sess && t in st.sess && t != s
    ensures var q := Forward(Consume(st, s, raw), s, target, f, next);
            t in q.sess && OtherReach(st, s, Some((target, f)), Shuts(st, s, target, f), t, q.sess[t])
  {
    var h := SendTo(Consume(st, s, raw), target, Sent(s, f));
    SendToShuts(st, s, raw, target, f);
    SendToReaches(st, s, raw, target, f, t);
    LoopTopIs(h, s, next);
    SameHolder(st.sess[s], h.sess[s]);
    hide Live, SendTo, LoopTop, Shuts, Finish, Holder, Queued, Closed, GivenTo;
    if h.sess[s].closed { FinishReaches(h, s, t); }
  }

  lemma SameHolder(x: Session, y: Session)
    requires RelaySteps.Quiet(x, y)
    ensures Holder(y) == Holder(x) && y.name == x.name
  {
  }

  lemma LoopReaches(st: State, e: Event, t: Sid)
    requires Inv(st) && Enabled(st, e) && (e.BondResume? || e.SomeRead?) && t in st.sess && t != e.s
    ensures t in Step(st, e).sess && OtherReach(st, e.s, None, Ends(st, e), t, Step(st, e).sess[t])
  {
    LoopSteps(st, e);
    LiveAt(st, e.s);
    hide *;
    if Ends(st, e) {
      FinishedReach(st, e.s, t);
    } else {
      var next := if e.BondResume? then ReadPtpHeader else ReadSome;
      LoopTopIs(st, e.s, next);
      PutReaches(st, e.s, st.sess[e.s].(pc := next), t);
    }
  }

  lemma PutReaches(st: State, s: Sid, y: Session, t: Sid)
    requires t in st.sess && t != s
    ensures t in Put(st, s, y).sess && OtherReach(st, s, None, false, t, Put(st, s, y).sess[t])
    ensures forall ws :: Put(st, s, y).(waiters := ws).sess == Put(st, s, y).sess
  {
  }

  lemma QuietReaches(st: State, e: Event, t: Sid)
    requires Enabled(st, e) && (e.ListenTimer? || e.BondTimer? || e.WriterRuns? || e.Written? || e.Connected?)
    requires t in st.sess && t != e.s
    ensures t in Step(st, e).sess && OtherReach(st, e.s, None, false, t, Step(st, e).sess[t])
  {
    UntouchedReach(st, e.s, t);
    hide OtherReach, WriterLoop, WriteDone;
  }

  lemma PdpReaches(st: State, s: Sid, raw: Bytes, t: Sid)
    requires Live(st, s) && Enabled(st, HeaderRead(s, Some(raw))) && s in st.sess && st.sess[s].pc.ReadPdpHeader?
    requires t in st.sess && t != s && |raw| == 14
    ensures t in PdpHeaderRead(st, s, raw).sess
    ensures var f := Forwards(st, HeaderRead(s, Some(raw)));
            OtherReach(st, s, f, HeaderEnds(st, s, raw), t, PdpHeaderRead(st, s, raw).sess[t])
  {
    HeaderEndsWhen(st, s, raw);
    PdpHeaderIs(st, s, raw);
    PdpForwardsWhen(st, s, raw);
    hide *;
    if PdpSize(raw) > PDP_BLOCK_LIMIT {
      FinishedReach(st, s, t);
    } else if PdpSize(raw) == 0 {
      ForwardReaches(st, s, raw, PdpTarget(raw), PdpFrame(st.sess[s].name.src, []), ReadPdpHeader, t);
    } else {
      PutReaches(st, s, st.sess[s].(input := st.sess[s].input + raw, pc := ReadPdpBlock(PdpTarget(raw), PdpSize(raw))), t);
    }
  }

  lemma PdpForwardsWhen(st: State, s: Sid, raw: Bytes)
    requires Enabled(st, HeaderRead(s, Some(raw))) && s in st.sess && st.sess[s].pc.ReadPdpHeader? && |raw| == 14
    ensures Forwards(st, HeaderRead(s, Some(raw)))
         == if PdpSize(raw) == 0 then Some((PdpTarget(raw), PdpFrame(st.sess[s].name.src, []))) else None
    ensures PdpSize(raw) > PDP_BLOCK_LIMIT ==> PdpSize(raw) != 0
  {
    hide GetU32, GetU16;
  }

  lemma PtpReaches(st: State, s: Sid, raw: Bytes, t: Sid)
    requires Live(st, s) && Enabled(st, HeaderRead(s, Some(raw))) && s in st.sess && st.sess[s].pc.ReadPtpHeader?
    requires t in st.sess && t != s && |raw| == 4 && IsPtpPipe(st.sess[s].name)
    ensures t in PtpHeaderRead(st, s, raw).sess
    ensures var f := Forwards(st, HeaderRead(s, Some(raw)));
            OtherReach(st, s, f, HeaderEnds(st, s, raw), t, PtpHeaderRead(st, s, raw).sess[t])
  {
    HeaderEndsWhen(st, s, raw);
    PtpHeaderIs(st, s, raw);
    PtpForwardsWhen(st, s, raw);
    hide *;
    if GetU32(raw) > PTP_BLOCK_LIMIT {
      FinishedReach(st, s, t);
    } else if GetU32(raw) == 0 {
      ForwardReaches(st, s, raw, Peer(st.sess[s].name).value, PtpFrame([]), ReadPtpHeader, t);
    } else {
      PutReaches(st, s, st.sess[s].(input := st.sess[s].input + raw, pc := ReadPtpBlock(GetU32(raw))), t);
    }
  }

  lemma PtpForwardsWhen(st: State, s: Sid, raw: Bytes)
    requires Enabled(st, HeaderRead(s, Some(raw))) && s in st.sess && st.sess[s].pc.ReadPtpHeader? && |raw| == 4
    ensures IsPtpPipe(st.sess[s].name) && Peer(st.sess[s].name).Some?
    ensures Forwards(st, HeaderRead(s, Some(raw)))
         == if GetU32(raw) == 0 then Some((Peer(st.sess[s].name).value, PtpFrame([]))) else None
    ensures GetU32(raw) > PTP_BLOCK_LIMIT ==> GetU32(raw) != 0
  {
    hide GetU32, GetU16;
  }

  lemma HeaderEndsIs(st: State, s: Sid, raw: Bytes)
    requires Enabled(st, HeaderRead(s, Some(raw)))
    ensures Ends(st, HeaderRead(s, Some(raw))) == HeaderEnds(st, s, raw)
  {
    hide HeaderEnds;
  }

  lemma HeaderReaches(st: State, s: Sid, raw: Bytes, t: Sid)
    requires Inv(st) && Enabled(st, HeaderRead(s, Some(raw))) && t in st.sess && t != s
    ensures var e := HeaderRead(s, Some(raw));
            t in Step(st, e).sess && OtherReach(st, s, Forwards(st, e), Ends(st, e), t, Step(st, e).sess[t])
  {
    HeaderSteps(st, s, raw);
    HeaderEndsIs(st, s, raw);
    LiveAt(st, s);
    hide *;
    if st.sess[s].pc.ReadPdpHeader? { PdpReaches(st, s, raw, t); } else { PtpReaches(st, s, raw, t); }
  }

  lemma BlockForwards(st: State, s: Sid, raw: Bytes)
    requires Enabled(st, BlockRead(s, Some(raw))) && s in st.sess && |raw| <= PTP_BLOCK_LIMIT
    ensures var x := st.sess[s];
            Forwards(st, BlockRead(s, Some(raw)))
            == if x.pc.ReadPdpBlock? then Some((x.pc.target, PdpFrame(x.name.src, raw)))
               else Some((Peer(x.name).value, PtpFrame(raw)))
  {
  }

  lemma BlockReaches(st: State, s: Sid, raw: Bytes, t: Sid)
    requires Inv(st) && Enabled(st, BlockRead(s, Some(raw))) && t in st.sess && t != s
    ensures var e := BlockRead(s, Some(raw));
            t in Step(st, e).sess && OtherReach(st, s, Forwards(st, e), Ends(st, e), t, Step(st, e).sess[t])
  {
    BlockSteps(st, s, raw);
    BlockForwards(st, s, raw);
    LiveAt(st, s);
    hide *;
    if st.sess[s].pc.ReadPdpBlock? {
      ForwardReaches(st, s, raw, st.sess[s].pc.target, PdpFrame(st.sess[s].name.src, raw), ReadPdpHeader, t);
    } else {
      ForwardReaches(st, s, raw, Peer(st.sess[s].name).value, PtpFrame(raw), ReadPtpHeader, t);
    }
  }

  lemma BrokenEnds(st: State, e: Event)
    requires Enabled(st, e) && (e.HeaderRead? || e.BlockRead?) && e.raw.None?
    ensures Ends(st, e) && Forwards(st, e).None?
  {
  }

  lemma BrokenReaches(st: State, e: Event, t: Sid)
    requires Inv(st) && Enabled(st, e) && (e.HeaderRead? || e.BlockRead?) && e.raw.None? && t in st.sess && t != e.s
    ensures t in Step(st, e).sess && OtherReach(st, e.s, Forwards(st, e), Ends(st, e), t, Step(st, e).sess[t])
  {
    BrokenSteps(st, e);
    BrokenEnds(st, e);
    LiveAt(st, e.s);
    hide *;
    FinishedReach(st, e.s, t);
  }

  // ---- sessions that do not register ------------------------------------------------------------

  lemma NewcomerHoldsNothing(st: State, s: Sid)
    requires Inv(st) && Newcomer(st, s)
    ensures Live(st, s) && s in st.sess && !Holder(st.sess[s])
  {
    ReadyFor(st, s);
    hide Inv, Index, Waiting, Counted, NotWaiting;
  }

  lemma RefusedReaches(st: State, s: Sid, i: Init, inTime: bool, t: Sid)
    requires Inv(st) && Newcomer(st, s) && s in st.sess && st.sess[s].pc.ReadInit? && Entering(st, i).None?
    requires t in st.sess && t != s
    ensures t in Dispatch(st, s, i, inTime).sess
    ensures OtherReach(st, s, None, false, t, Dispatch(st, s, i, inTime).sess[t])
  {
    var n, m := ConnectName(i.src, i.dst), AcceptName(i.src, i.dst);
    InitRefused(st, s, i, inTime);
    PutReaches(st, s, st.sess[s].(name := n, pc := AwaitListen(false)), t);
    hide Dispatch, Finish, Entering, Inv, Newcomer, OtherReach;
    NewcomerHoldsNothing(st, s);
    UnregisteredReach(st, st, s, t);
    RenamedReaches(st, s, n, t);
    RenamedReaches(st, s, m, t);
  }

  lemma RenamedReaches(st: State, s: Sid, n: Name, t: Sid)
    requires Inv(st) && Newcomer(st, s) && s in st.sess && st.sess[s].pc.ReadInit? && t in st.sess && t != s
    ensures var q := Finish(Put(st, s, st.sess[s].(name := n)), s);
            t in q.sess && OtherReach(st, s, None, false, t, q.sess[t])
  {
    hide Finish, Inv, Newcomer, OtherReach, Live, Holder;
    var b := Put(st, s, st.sess[s].(name := n));
    RelaySafety.RenameKeeps(st, s, n);
    NewcomerHoldsNothing(b, s);
    UnregisteredReach(st, b, s, t);
  }

  lemma InitReachesNobody(st: State, s: Sid, raw: Option<Bytes>, inTime: bool, t: Sid)
    requires Inv(st) && Enabled(st, InitDone(s, raw, inTime)) && Registers(st, InitDone(s, raw, inTime)).None?
    requires t in st.sess && t != s
    ensures var q := Step(st, InitDone(s, raw, inTime));
            t in q.sess && OtherReach(st, s, None, false, t, q.sess[t])
  {
    InitFails(st, s, raw, inTime);
    FreshIsNewcomer(st, s);
    if raw.Some? {
      InitSteps(st, s, raw.value, inTime);
      InitRegistersNot(st, s, raw.value, inTime);
      hide *;
      RefusedReaches(st, s, ParseInit(raw.value), inTime, t);
    } else {
      hide *;
      NewcomerHoldsNothing(st, s);
      UnregisteredReach(st, st, s, t);
    }
  }

  lemma InitFails(st: State, s: Sid, raw: Option<Bytes>, inTime: bool)
    requires Enabled(st, InitDone(s, raw, inTime))
    ensures s in st.sess && st.sess[s].pc.ReadInit?
    ensures raw.None? ==> Step(st, InitDone(s, raw, inTime)) == Finish(st, s)
  {
    hide Finish, Dispatch;
  }

  lemma InitRegistersNot(st: State, s: Sid, raw: Bytes, inTime: bool)
    requires Enabled(st, InitDone(s, Some(raw), inTime)) && Registers(st, InitDone(s, Some(raw), inTime)).None?
    ensures |raw| == 24 && Entering(st, ParseInit(raw)).None?
  {
    hide Entering, ParseInit;
  }

  lemma ResumeReachesNobody(st: State, s: Sid, t: Sid)
    requires Inv(st) && Enabled(st, ListenResume(s)) && Registers(st, ListenResume(s)).None? && t in st.sess && t != s
    ensures var q := Step(st, ListenResume(s));
            t in q.sess && OtherReach(st, s, None, false, t, q.sess[t])
  {
    ResumeSteps(st, s);
    hide *;
    var b := st.(waiters := StopWaiting(st.waiters, ListenerOf(st.sess[s].name), s));
    RelaySafety.StopWaitingKeeps(st, s);
    NewcomerHoldsNothing(b, s);
    UnregisteredReach(st, b, s, t);
  }

  lemma ForwardsNothing(st: State, e: Event)
    requires Enabled(st, e) && !e.HeaderRead? && !e.BlockRead?
    ensures Forwards(st, e).None? && (!e.BondResume? && !e.SomeRead? ==> !Ends(st, e))
  {
  }

  /** Whom every other step reaches: the session that is handed what it forwards, and, if it is the end of a
      session that holds its name, the session under the mirrored name, which is closed. */
  lemma OtherStepReaches(st: State, e: Event, t: Sid)
    requires Inv(st) && Enabled(st, e) && Registers(st, e).None? && t in st.sess && t != e.s
    ensures t in Step(st, e).sess && OtherReach(st, e.s, Forwards(st, e), Ends(st, e), t, Step(st, e).sess[t])
  {
    hide *;
    if e.HeaderRead? || e.BlockRead? {
      if e.raw.None? {
        BrokenReaches(st, e, t);
      } else if e.HeaderRead? {
        HeaderReaches(st, e.s, e.raw.value, t);
      } else {
        BlockReaches(st, e.s, e.raw.value, t);
      }
    } else {
      ForwardsNothing(st, e);
      if e.BondResume? || e.SomeRead? {
        LoopReaches(st, e, t);
      } else if e.InitDone? {
        InitReachesNobody(st, e.s, e.raw, e.inTime, t);
      } else if e.ListenResume? {
        ResumeReachesNobody(st, e.s, t);
      } else {
        QuietReaches(st, e, t);
      }
    }
  }
}
