/** What the invariant says about every run, in the relay's own terms. */
module RelayTheorems {
  import opened Bytes
  import opened SessionNames
  import opened RelayDirectories
  import opened RelayModel
  import opened RelayInvariant
  import opened RelayFinish
  import opened RelayRegister
  import opened RelayRuns
  import opened RelayHistory
  import RelaySafety
  import RelayBond

  // ---- every reachable state ---------------------------------------------------------------------

  /** No half-open bond: an open ACCEPT, and an open established CONNECT, have somebody under their
      peer's name. */
  lemma NoHalfOpenBond(es: seq<Event>, n: Name)
    requires Schedulable(INITIAL, es) && n in Run(INITIAL, es).reg
    ensures var st := Run(INITIAL, es);
            && st.reg[n] in st.sess
            && (!st.sess[st.reg[n]].closed
                && (n.AcceptName? || (n.ConnectName? && st.sess[st.reg[n]].established))
                ==> Peer(n).Some? && Peer(n).value in st.reg)
  {
    Reachable(es);
    var st := Run(INITIAL, es);
    assert Index(st) && HalfOpen(st);
    hide Inv, Run;
    var x := st.sess[st.reg[n]];
    assert x.name == n;
    assert !x.closed && (n.AcceptName? || (n.ConnectName? && x.established)) ==> NeedsPeer(x);
  }

  /** A bonded session that finished without being superseded left its partner closed. */
  lemma FinishingClosesThePartner(es: seq<Event>, b: Bond)
    requires Schedulable(INITIAL, es) && b in Run(INITIAL, es).bonds
    ensures var st := Run(INITIAL, es);
            && b.acc in st.sess && b.con in st.sess
            && (st.sess[b.acc].finished && !st.sess[b.acc].superseded ==> st.sess[b.con].closed)
            && (st.sess[b.con].finished && !st.sess[b.con].superseded ==> st.sess[b.acc].closed)
  {
    Reachable(es);
    var st := Run(INITIAL, es);
    assert BondsOk(st) && HalfOpen(st);
    hide Inv, Run;
    assert MirrorBond(st, b);
    assert Torn(st.sess[b.acc], st.sess[b.con]) && Torn(st.sess[b.con], st.sess[b.acc]);
  }

  /** The session index holds exactly the registered sessions that were neither superseded nor finished. */
  lemma SessionIndexIsExact(es: seq<Event>, n: Name, s: Sid)
    requires Schedulable(INITIAL, es)
    ensures var st := Run(INITIAL, es);
            (n in st.reg && st.reg[n] == s) <==>
            (s in st.sess && st.sess[s].name == n
             && st.sess[s].registered && !st.sess[s].superseded && !st.sess[s].finished)
  {
    hide Run, Schedulable, Waiting, Advertised, Counted, BondsOk, HalfOpen, Traffic, AllGreeted;
    Reachable(es);
  }

  lemma {:induction false} InjectiveIsSmaller<K(!new), V(!new)>(m: map<K, V>, s: set<V>)
    requires forall k :: k in m ==> m[k] in s
    requires forall j, k :: j in m && k in m && j != k ==> m[j] != m[k]
    ensures |m| <= |s|
    decreases |m|
  {
    if |m| > 0 {
      var k :| k in m;
      var rest := m - {k};
      assert forall j :: j in rest ==> rest[j] in s - {m[k]};
      InjectiveIsSmaller(rest, s - {m[k]});
      assert m.Keys == rest.Keys + {k};
      assert |m| == |rest| + 1;
    }
  }

  lemma IndexedAreUnfinished(st: State)
    requires Index(st)
    ensures forall n :: n in st.reg ==> st.reg[n] in Unfinished(st.sess)
    ensures forall m, n :: m in st.reg && n in st.reg && m != n ==> st.reg[m] != st.reg[n]
  {
  }

  /** `active_count_` is the number of accepted, unfinished sessions: never above 5000, never below the index. */
  lemma ActiveCountIsExact(es: seq<Event>)
    requires Schedulable(INITIAL, es)
    ensures var st := Run(INITIAL, es);
            |st.reg| <= st.active == |Unfinished(st.sess)| <= 5000
  {
    Reachable(es);
    var st := Run(INITIAL, es);
    assert Index(st) && Counted(st);
    hide Inv, Run;
    IndexedAreUnfinished(st);
    InjectiveIsSmaller(st.reg, Unfinished(st.sess));
  }

  /** Every advertised port was advertised by a session that is still registered and unfinished,
      so nothing is advertised once no session is active. */
  lemma AdvertisedPortsAreLive(es: seq<Event>)
    requires Schedulable(INITIAL, es)
    ensures var st := Run(INITIAL, es);
            && (forall k :: k in st.dir ==>
                  st.dir[k] in st.sess && st.sess[st.dir[k]].registered && !st.sess[st.dir[k]].finished
                  && var n := st.sess[st.dir[k]].name;
                     k == Key(n.src.mac, if n.PdpName? then PdpKind else PtpKind, n.src.port))
            && (st.active == 0 ==> st.dir == map[])
  {
    Reachable(es);
    var st := Run(INITIAL, es);
    assert Advertised(st) && Counted(st);
    hide Inv, Run;
    if st.active == 0 {
      assert forall k :: k in st.dir ==> st.dir[k] in Unfinished(st.sess);
      assert st.dir.Keys == {};
    }
  }

  /** No lost wake-up: whoever sleeps unsignalled has nothing to wake up for. */
  lemma NoLostWakeup(es: seq<Event>, s: Sid)
    requires Schedulable(INITIAL, es) && s in Run(INITIAL, es).sess
    ensures var st := Run(INITIAL, es);
            var x := st.sess[s];
            && (x.pc == AwaitListen(false) ==> ListenerOf(x.name) !in st.reg)
            && (x.pc == AwaitBond(false) ==> !x.established && !x.closed)
            && (x.writer.Idle? ==> x.queue == [] && !x.closed)
    ensures var st := Run(INITIAL, es);
            forall n :: n in st.waiters ==> n !in st.reg && st.waiters[n] != []
  {
    Reachable(es);
    var st := Run(INITIAL, es);
    LocalAt(st, s);
    assert Waiting(st);
    hide Inv, Run;
  }

  /** Bonds mirror each other's endpoints, and no session is ever part of two; a bond once made stays
      on record, so over a whole run a CONNECT is bonded by at most one ACCEPT. */
  lemma BondsAreUniqueMirrors(es: seq<Event>, b: Bond, d: Bond)
    requires Schedulable(INITIAL, es) && b in Run(INITIAL, es).bonds && d in Run(INITIAL, es).bonds
    ensures b.acc == d.acc || b.con == d.con ==> b == d
    ensures var st := Run(INITIAL, es);
            && b.acc in st.sess && b.con in st.sess
            && st.sess[b.acc].name.AcceptName? && st.sess[b.con].name.ConnectName?
            && st.sess[b.acc].name.src == st.sess[b.con].name.dst
            && st.sess[b.acc].name.dst == st.sess[b.con].name.src
  {
    Reachable(es);
    var st := Run(INITIAL, es);
    assert BondsOk(st);
    assert MirrorBond(st, b);
    PeerIsInvolution(st.sess[b.acc].name);
    hide Inv, Run;
  }

  /** A CONNECT is established exactly when some ACCEPT bonded it. */
  lemma EstablishedMeansBonded(es: seq<Event>, c: Sid)
    requires Schedulable(INITIAL, es) && c in Run(INITIAL, es).sess && Run(INITIAL, es).sess[c].name.ConnectName?
    ensures var st := Run(INITIAL, es); st.sess[c].established <==> exists a :: Bond(a, c) in st.bonds
  {
    Reachable(es);
    var st := Run(INITIAL, es);
    assert BondsOk(st);
    hide Inv, Run;
    assert forall b :: b in st.bonds ==> MirrorBond(st, b);
  }

  /** Bonds outlive every later step. */
  lemma BondsPersist(es: seq<Event>, more: seq<Event>)
    requires Schedulable(INITIAL, es) && Schedulable(Run(INITIAL, es), more)
    ensures Run(INITIAL, es).bonds <= Run(Run(INITIAL, es), more).bonds
  {
    Reachable(es);
    RunGrows(Run(INITIAL, es), more);
  }

  /** The relay is a transparent pipe. In both directions of a bond, the data frames that one side
      accepted from the other are, byte for byte, a prefix of what the other side sent; and as long as
      the receiver is open they are all of it, except for the block still being read. */
  lemma PtpIsTransparentPipe(es: seq<Event>, b: Bond)
    requires Schedulable(INITIAL, es) && b in Run(INITIAL, es).bonds
    ensures var st := Run(INITIAL, es);
            && b.acc in st.sess && b.con in st.sess
            && var a, c := st.sess[b.acc], st.sess[b.con];
               && Carried(c.log, b.acc) <= a.input && Carried(a.log, b.con) <= c.input
               && (!a.finished && !c.closed ==> a.input == Carried(c.log, b.acc) + Pending(a.pc))
               && (!c.finished && !a.closed ==> c.input == Carried(a.log, b.con) + Pending(c.pc))
  {
    Reachable(es);
    var st := Run(INITIAL, es);
    BondedStreams(st, b);
    hide Inv, Run;
  }

  lemma BondedStreams(st: State, b: Bond)
    requires Inv(st) && b in st.bonds
    ensures b.acc in st.sess && b.con in st.sess
    ensures Pipe(st.sess[b.acc], b.acc, st.sess[b.con]) && Pipe(st.sess[b.con], b.con, st.sess[b.acc])
    ensures !st.sess[b.acc].finished ==> Streaming(st.sess[b.acc].pc)
    ensures !st.sess[b.con].finished ==> Streaming(st.sess[b.con].pc)
  {
    hide Index, Waiting, Advertised, Counted, HalfOpen, Locals, Origins, AllGreeted, NotWaiting, LocalOk, ControlOk;
    assert MirrorBond(st, b);
    PeerIsInvolution(st.sess[b.acc].name);
    LocalAt(st, b.acc);
    LocalAt(st, b.con);
    RegisteredPtpStreams(st.sess[b.acc]);
    RegisteredPtpStreams(st.sess[b.con]);
  }

  lemma RegisteredPtpStreams(x: Session)
    requires ControlOk(x) && x.registered && IsPtpPipe(x.name)
    ensures !x.finished ==> Streaming(x.pc)
  {
  }

  /** Queue accounting: nothing accepted is lost or reordered, an open queue is below 512000 bytes, no
      queue exceeds that by more than one packet, and the byte count never underflows. */
  lemma QueueIsAccounted(es: seq<Event>, s: Sid)
    requires Schedulable(INITIAL, es) && s in Run(INITIAL, es).sess
    ensures var x := Run(INITIAL, es).sess[s];
            && x.queuedBytes == Total(x.queue) >= 0
            && x.log == x.delivered + InFlight(x.writer) + x.queue
            && (!x.closed ==> x.queuedBytes < 512000)
            && x.queuedBytes <= 511999 + (match x.name case PdpName(_) => 20494 case ListenName(_) => 10 case _ => 102404)
  {
    Reachable(es);
    LocalAt(Run(INITIAL, es), s);
  }

  /** What each kind of session is ever sent, and by whom. */
  lemma LogsAreWellTyped(es: seq<Event>, s: Sid, i: nat)
    requires Schedulable(INITIAL, es) && s in Run(INITIAL, es).sess && i < |Run(INITIAL, es).sess[s].log|
    ensures var st := Run(INITIAL, es);
            var x, e := st.sess[s], st.sess[s].log[i];
            && e.src in st.sess
            && match x.name
               case PdpName(_) => e.frame.PdpFrame? && st.sess[e.src].name == PdpName(e.frame.from)
               case ListenName(me) => e.frame.Notice? && st.sess[e.src].name == ConnectName(e.frame.from, me)
               case AcceptName(_, dst) =>
                 if i == 0 then e.frame == Notice(dst)
                 else e.frame.PtpFrame? && Peer(st.sess[e.src].name) == Some(x.name)
               case ConnectName(_, dst) =>
                 && (e.frame == Notice(dst) || (e.frame.PtpFrame? && Peer(st.sess[e.src].name) == Some(x.name)))
                 && Notices(x.log) <= 1
  {
    Reachable(es);
    var st := Run(INITIAL, es);
    LocalAt(st, s);
    assert Origins(st);
    hide Inv, Run, QueueOk, ControlOk, NotWaiting;
    assert Fits(st.sess[s].name, i, st.sess[s].log[i].frame);
    assert Genuine(st.sess[s].name, st.sess[st.sess[s].log[i].src], st.sess[s].log[i].frame);
  }

  /** A registered ACCEPT, once the step that registered it is over, was told about its peer first. */
  lemma AcceptIsGreetedFirst(es: seq<Event>, s: Sid)
    requires Schedulable(INITIAL, es) && s in Run(INITIAL, es).sess
    ensures var x := Run(INITIAL, es).sess[s];
            x.name.AcceptName? && x.registered && !x.finished ==>
              x.log != [] && x.log[0].frame == Notice(x.name.dst)
  {
    Reachable(es);
    var st := Run(INITIAL, es);
    LocalAt(st, s);
    GreetedAt(st);
    hide Inv, Run, QueueOk, ControlOk, NotWaiting;
    var x := st.sess[s];
    assert |x.log| > 0 ==> Fits(x.name, 0, x.log[0].frame);
  }

  // ---- what one step decides ------------------------------------------------------------------------

  lemma EstablishedIffBonded(st: State, c: Sid)
    requires BondsOk(st) && c in st.sess && st.sess[c].name.ConnectName?
    ensures st.sess[c].established <==> exists a :: Bond(a, c) in st.bonds
  {
    hide Peer;
    if exists a :: Bond(a, c) in st.bonds {
      var a :| Bond(a, c) in st.bonds;
      assert MirrorBond(st, Bond(a, c));
    }
  }

  lemma FinishIsFinished(st: State, s: Sid)
    requires s in st.sess
    ensures s in Finish(st, s).sess && Finish(st, s).sess[s].finished
  {
    if !st.sess[s].finished {
      FinishUnfolds(st, s);
      DetachedIsFinished(st, s);
      hide Finish, Detached;
      ClosedAfterwards(Detached(st, s), st.sess[s].name, s);
    }
  }

  lemma DetachedIsFinished(st: State, s: Sid)
    requires s in st.sess
    ensures s in Detached(st, s).sess && Detached(st, s).sess[s].finished
  {
  }

  lemma ClosedAfterwards(d: State, n: Name, s: Sid)
    requires s in d.sess && d.sess[s].finished
    ensures s in ClosePeer(d, n).sess && ClosePeer(d, n).sess[s].finished
  {
    hide Peer;
  }

  lemma BondResumeIs(st: State, c: Sid)
    requires Enabled(st, BondResume(c))
    ensures c in st.sess
    ensures Step(st, BondResume(c))
         == if !st.sess[c].established || st.sess[c].closed then Finish(st, c)
            else Put(st, c, st.sess[c].(pc := ReadPtpHeader))
  {
    hide Finish;
  }

  lemma ResumedName(st: State, c: Sid)
    requires Inv(st) && Enabled(st, BondResume(c)) && c in st.sess
    ensures st.sess[c].name.ConnectName?
  {
    LocalAt(st, c);
    hide Inv, NotWaiting, LocalOk;
  }

  /** A CONNECT whose wait resumes goes on exactly when it was bonded before, timer fired or not. */
  lemma BondResumeDecides(st: State, c: Sid)
    requires Inv(st) && Enabled(st, BondResume(c))
    ensures var r := Step(st, BondResume(c));
            && c in r.sess
            && ((exists a :: Bond(a, c) in st.bonds) && !st.sess[c].closed ==> r.sess[c].pc == ReadPtpHeader)
            && (!(exists a :: Bond(a, c) in st.bonds) || st.sess[c].closed ==> r.sess[c].finished)
  {
    BondResumeIs(st, c);
    ResumedName(st, c);
    ShapeBonds(st);
    hide Inv, Finish, Step, Enabled, BondsOk;
    EstablishedIffBonded(st, c);
    FinishIsFinished(st, c);
  }

  lemma ShapeBonds(st: State)
    requires Inv(st)
    ensures BondsOk(st)
  {
    hide Traffic, AllGreeted, Index, Waiting, Advertised, Counted, BondsOk, HalfOpen;
  }

  /** What `finish` leaves of a session that held its name. */
  lemma FinishedHolder(r: State, s: Sid)
    requires Index(r) && Counted(r) && s in r.sess && Holder(r.sess[s])
    ensures var q, n := Finish(r, s), r.sess[s].name;
            && q.sess.Keys == r.sess.Keys && q.sess[s].finished && q.bonds == r.bonds
            && n !in q.reg && KeyOf(n) !in q.dir
            && (forall p :: Peer(n) == Some(p) && p in r.reg ==>
                  r.reg[p] in q.sess && q.sess[r.reg[p]].closed)
            && (forall t :: t in r.sess && r.sess[t].closed ==> q.sess[t].closed)
  {
    FinishHasEffect(r, s);
    hide Index, Counted, Finish;
    forall t | t in r.sess && r.sess[t].closed ensures Finish(r, s).sess[t].closed {
      assert t != s ==> Calmed(r.sess[t], Finish(r, s).sess[t]);
    }
  }

  /** What is left when a session registers and finishes at once: the name and the port are gone, whoever
      held the name before is closed, and so is the peer. */
  lemma RegisteredThenFinished(st: State, s: Sid, n: Name, est: bool, next: Pc)
    requires Index(st) && Waiting(st) && Counted(st) && Newcomer(st, s)
    ensures s in Register(st, s, n, est, next).sess
    ensures var q := Finish(Register(st, s, n, est, next), s);
            && s in q.sess && q.sess[s].finished && q.bonds == st.bonds
            && q.reg == st.reg - {n} && q.dir == st.dir - {KeyOf(n)}
            && (n in st.reg ==> st.reg[n] in q.sess && q.sess[st.reg[n]].closed)
            && (forall p :: Peer(n) == Some(p) && p in st.reg ==>
                  st.reg[p] in q.sess && q.sess[st.reg[p]].closed)
  {
    var r := Register(st, s, n, est, next);
    hide Register, Finish, Index, Waiting, Counted, Newcomer, RegisterEffect, Peer, KeyOf;
    RegisterHasEffect(st, s, n, est, next);
    RegisterIndex(st, s, n, est, next, r);
    RegisterCounted(st, s, n, est, next, r);
    TakenTables(st, s, n, est, next, r);
    TakenCloses(st, s, n, est, next, r);
  }

  lemma TakenTables(st: State, s: Sid, n: Name, est: bool, next: Pc, r: State)
    requires RegisterEffect(st, s, n, est, next, r) && Index(r) && Counted(r) && Newcomer(st, s)
    ensures s in r.sess
    ensures var q := Finish(r, s);
            && s in q.sess && q.sess[s].finished && q.bonds == st.bonds
            && q.reg == st.reg - {n} && q.dir == st.dir - {KeyOf(n)}
  {
    RegisteredLooks(st, s, n, est, next, r);
    FinishHasEffect(r, s);
    hide Finish, Index, Counted, Newcomer, RegisterEffect, Calmed, KeyOf, Peer, Closed;
    assert st.reg[n := s] - {n} == st.reg - {n};
  }

  lemma RegisteredLooks(st: State, s: Sid, n: Name, est: bool, next: Pc, r: State)
    requires RegisterEffect(st, s, n, est, next, r) && Newcomer(st, s)
    ensures s in r.sess && r.sess[s].name == n && r.sess[s].registered && !r.sess[s].finished && Holder(r.sess[s])
    ensures r.reg == st.reg[n := s] && r.dir == st.dir && r.bonds == st.bonds
  {
    hide NotWaiting, Bystander;
  }

  lemma TakenCloses(st: State, s: Sid, n: Name, est: bool, next: Pc, r: State)
    requires Index(st) && Newcomer(st, s) && RegisterEffect(st, s, n, est, next, r) && Index(r) && Counted(r)
    ensures s in r.sess
    ensures var q := Finish(r, s);
            && (n in st.reg ==> st.reg[n] in q.sess && q.sess[st.reg[n]].closed)
            && (forall p :: Peer(n) == Some(p) && p in st.reg ==> st.reg[p] in q.sess && q.sess[st.reg[p]].closed)
  {
    hide Finish, Index, Counted, NotWaiting, Bystander, KeyOf;
    FinishedHolder(r, s);
    if IsPtpPipe(n) { PeerIsInvolution(n); }
    if n in st.reg { OldHolderClosed(st, s, n, est, next, r); }
  }

  lemma OldHolderClosed(st: State, s: Sid, n: Name, est: bool, next: Pc, r: State)
    requires Index(st) && Newcomer(st, s) && n in st.reg && RegisterEffect(st, s, n, est, next, r)
    ensures st.reg[n] in r.sess && r.sess[st.reg[n]].closed && st.reg[n] != s
  {
    assert Bystander(st, n, st.reg[n], r.sess[st.reg[n]]);
  }

  /** The step that completes the init packet is `Dispatch`. */
  lemma InitSteps(st: State, s: Sid, raw: Bytes, inTime: bool)
    requires Enabled(st, InitDone(s, Some(raw), inTime))
    ensures s in st.sess && st.sess[s].pc.ReadInit? && |raw| == 24
    ensures Step(st, InitDone(s, Some(raw), inTime)) == Dispatch(st, s, ParseInit(raw), inTime)
  {
    hide Dispatch, ParseInit;
  }

  /** Bonding succeeds exactly when an unestablished CONNECT holds the mirrored name and the ACCEPT's own
      port is not advertised; otherwise the ACCEPT is finished. When only the port is in the way, the
      CONNECT that was waiting is closed. */
  lemma BondingNeedsFreePort(st: State, s: Sid, raw: Bytes, inTime: bool, n: Name)
    requires Inv(st) && Enabled(st, InitDone(s, Some(raw), inTime)) && ParseInit(raw).kind == 3
    requires n == AcceptName(ParseInit(raw).src, ParseInit(raw).dst)
    ensures var q := Step(st, InitDone(s, Some(raw), inTime));
            var c := Bondable(st, n);
            && s in q.sess
            && (c.Some? && KeyOf(n) !in st.dir <==> q.bonds != st.bonds)
            && (c.Some? && KeyOf(n) !in st.dir ==>
                  q.bonds == st.bonds + {Bond(s, c.value)} && n in q.reg && q.reg[n] == s && !q.sess[s].closed)
            && (!(c.Some? && KeyOf(n) !in st.dir) ==> q.sess[s].finished)
            && (c.Some? && KeyOf(n) in st.dir ==> c.value in q.sess && q.sess[c.value].closed && n !in q.reg)
  {
    hide *;
    InitSteps(st, s, raw, inTime);
    FreshIsNewcomer(st, s);
    DispatchesTo(st, s, ParseInit(raw), inTime);
    AcceptOutcome(st, s, n);
  }

  lemma AcceptOutcome(st: State, s: Sid, n: Name)
    requires Inv(st) && Newcomer(st, s) && st.sess[s].pc.ReadInit? && n.AcceptName?
    ensures var q := EstablishAccept(st, s, n);
            var c := Bondable(st, n);
            && s in q.sess
            && (c.Some? && KeyOf(n) !in st.dir ==>
                  && q.bonds == st.bonds + {Bond(s, c.value)} && Bond(s, c.value) !in st.bonds
                  && n in q.reg && q.reg[n] == s && !q.sess[s].closed)
            && (!(c.Some? && KeyOf(n) !in st.dir) ==> q.bonds == st.bonds && q.sess[s].finished)
            && (c.Some? && KeyOf(n) in st.dir ==> c.value in q.sess && q.sess[c.value].closed && n !in q.reg)
  {
    match Bondable(st, n)
    case None => AcceptWithoutConnect(st, s, n);
    case Some(c) =>
      if KeyOf(n) in st.dir { AcceptRefused(st, s, n, c); } else { AcceptBonds(st, s, n, c); }
  }

  lemma AcceptWithoutConnect(st: State, s: Sid, n: Name)
    requires Inv(st) && Newcomer(st, s) && st.sess[s].pc.ReadInit? && n.AcceptName? && Bondable(st, n).None?
    ensures var q := EstablishAccept(st, s, n); s in q.sess && q.bonds == st.bonds && q.sess[s].finished
  {
    hide Index, Waiting, Advertised, Counted, BondsOk, HalfOpen, Traffic, AllGreeted, Finish;
    RelaySafety.RenameKeeps(st, s, n);
    FinishHasEffect(Put(st, s, st.sess[s].(name := n)), s);
  }

  lemma AcceptRefused(st: State, s: Sid, n: Name, c: Sid)
    requires Inv(st) && Newcomer(st, s) && n.AcceptName? && Bondable(st, n) == Some(c) && KeyOf(n) in st.dir
    ensures var q := EstablishAccept(st, s, n);
            s in q.sess && q.bonds == st.bonds && c in q.sess && q.sess[s].finished && q.sess[c].closed && n !in q.reg
  {
    ShapeParts(st);
    RegisteredThenFinished(st, s, n, true, ReadPtpHeader);
    hide Inv, Register, Finish, Index, Waiting, Counted, Newcomer;
    PeerIsInvolution(n);
  }

  lemma AcceptBonds(st: State, s: Sid, n: Name, c: Sid)
    requires Inv(st) && Newcomer(st, s) && n.AcceptName? && Bondable(st, n) == Some(c) && KeyOf(n) !in st.dir
    ensures var q := EstablishAccept(st, s, n);
            && q.bonds == st.bonds + {Bond(s, c)} && Bond(s, c) !in st.bonds
            && n in q.reg && q.reg[n] == s && s in q.sess && !q.sess[s].closed
  {
    hide Inv, Newcomer, EstablishAccept, RelayBond.Accepted;
    NewcomerUnbonded(st, s, c);
    RelayBond.BondStepKeeps(st, s, n, c);
    AcceptedHolds(st, s, n, c);
  }

  lemma AcceptedHolds(st: State, s: Sid, n: Name, c: Sid)
    requires Inv(st) && Newcomer(st, s) && n.AcceptName? && Bondable(st, n) == Some(c) && KeyOf(n) !in st.dir
    ensures var q := RelayBond.Accepted(st, s, n, c);
            q.bonds == st.bonds + {Bond(s, c)} && n in q.reg && q.reg[n] == s && s in q.sess && !q.sess[s].closed
  {
    hide Index, Waiting, Traffic, AllGreeted, Advertised, Counted, BondsOk, HalfOpen, Register, RelayBond.Accepted,
      NotWaiting;
    PeerIsInvolution(n);
    RelayBond.AcceptedKeeps(st, s, n, c);
    RegisterHasEffect(st, s, n, true, ReadPtpHeader);
    IndexHolds(RelayBond.Accepted(st, s, n, c), s, n);
  }

  lemma NewcomerUnbonded(st: State, s: Sid, c: Sid)
    requires Inv(st) && Newcomer(st, s)
    ensures Bond(s, c) !in st.bonds
  {
    assert BondsOk(st);
    hide Inv;
    assert Bond(s, c) in st.bonds ==> MirrorBond(st, Bond(s, c));
  }

  lemma IndexHolds(q: State, s: Sid, n: Name)
    requires Inv(q) && s in q.sess && Holder(q.sess[s]) && q.sess[s].name == n
    ensures n in q.reg && q.reg[n] == s
  {
    assert Index(q);
    hide Inv;
  }

  /** A LISTEN and the ACCEPT it leads to share one port: while the LISTEN is advertised the ACCEPT is refused. */
  lemma NoBondWhileListenerIsAdvertised(st: State, s: Sid, raw: Bytes, inTime: bool)
    requires Inv(st) && Enabled(st, InitDone(s, Some(raw), inTime)) && ParseInit(raw).kind == 3
    requires KeyOf(ListenName(ParseInit(raw).src)) in st.dir
    ensures var q := Step(st, InitDone(s, Some(raw), inTime));
            q.bonds == st.bonds && s in q.sess && q.sess[s].finished
  {
    hide Inv, Step, ParseInit;
    BondingNeedsFreePort(st, s, raw, inTime, AcceptName(ParseInit(raw).src, ParseInit(raw).dst));
  }

  lemma RegisterSpares(st: State, s: Sid, n: Name, est: bool, next: Pc, r: State, l: Name)
    requires Index(st) && Waiting(st) && RegisterEffect(st, s, n, est, next, r) && n.AcceptName?
    requires l in st.reg && l != n && st.reg[l] != s
    ensures st.reg[l] in r.sess && r.sess[st.reg[l]] == st.sess[st.reg[l]] && l in r.reg && r.reg[l] == st.reg[l]
  {
    assert n !in st.waiters;
    assert Bystander(st, n, st.reg[l], r.sess[st.reg[l]]);
  }

  lemma AcceptTaken(st: State, s: Sid, n: Name)
    requires s in st.sess && n.AcceptName? && Bondable(st, n).Some? && KeyOf(n) in st.dir
    ensures s in Register(st, s, n, true, ReadPtpHeader).sess
    ensures EstablishAccept(st, s, n) == Finish(Register(st, s, n, true, ReadPtpHeader), s)
  {
    hide Finish, Peer;
  }

  lemma ListenerIsAnother(st: State, s: Sid, l: Name)
    requires Index(st) && l in st.reg && s in st.sess && !st.sess[s].registered
    ensures st.reg[l] != s && st.reg[l] in st.sess
  {
  }

  lemma ListenerIsNoPeer(r: State, n: Name, l: Name)
    requires Index(r) && l in r.reg && n.AcceptName? && l.ListenName?
    ensures Peer(n).Some? && Peer(n).value in r.reg ==> r.reg[Peer(n).value] != r.reg[l]
  {
  }

  lemma StillIndexed(r: State, s: Sid, n: Name, l: Name)
    requires Index(r) && s in r.sess && Holder(r.sess[s]) && r.sess[s].name == n && l in r.reg && l != n
    ensures l in Finish(r, s).reg && Finish(r, s).reg[l] == r.reg[l]
    ensures KeyOf(n) !in Finish(r, s).dir
  {
    FinishUnfolds(r, s);
    DetachedHasEffect(r, s);
    DetachedIndex(r, s);
    hide Finish, Detached, Index;
    PeerClosedEffect(Detached(r, s), n);
  }

  /** What registering and finishing at once leaves of a listener on the same port. */
  lemma RefusedSparesListener(st: State, s: Sid, n: Name, l: Name)
    requires Index(st) && Waiting(st) && Newcomer(st, s) && n.AcceptName? && l.ListenName? && l in st.reg
    ensures s in Register(st, s, n, true, ReadPtpHeader).sess
    ensures var q := Finish(Register(st, s, n, true, ReadPtpHeader), s);
            && l in q.reg && q.reg[l] == st.reg[l] && KeyOf(n) !in q.dir
            && st.reg[l] in st.sess && st.reg[l] in q.sess && q.sess[st.reg[l]] == st.sess[st.reg[l]]
  {
    hide Register, Finish, Index, Waiting, Peer, NotWaiting, KeyOf;
    var r := Register(st, s, n, true, ReadPtpHeader);
    RegisterHasEffect(st, s, n, true, ReadPtpHeader);
    RegisterIndex(st, s, n, true, ReadPtpHeader, r);
    ListenerIsAnother(st, s, l);
    RegisterSpares(st, s, n, true, ReadPtpHeader, r, l);
    ListenerIsNoPeer(r, n, l);
    FinishSpares(r, s, st.reg[l]);
    StillIndexed(r, s, n, l);
  }

  lemma ShapeParts(st: State)
    requires Inv(st)
    ensures Index(st) && Waiting(st) && Counted(st)
  {
    hide Traffic, AllGreeted, Index, Waiting, Advertised, Counted, BondsOk, HalfOpen;
  }

  /** Not every live session is advertised: an ACCEPT that is refused because the LISTEN still has its
      port takes the port out of the directory, and the LISTEN lives on without it. */
  lemma ListenerLosesItsPort(st: State, s: Sid, raw: Bytes, inTime: bool, n: Name, l: Name)
    requires Inv(st) && Enabled(st, InitDone(s, Some(raw), inTime)) && ParseInit(raw).kind == 3
    requires n == AcceptName(ParseInit(raw).src, ParseInit(raw).dst) && l == ListenName(ParseInit(raw).src)
    requires Bondable(st, n).Some? && l in st.reg && KeyOf(l) in st.dir
    ensures var q := Step(st, InitDone(s, Some(raw), inTime));
            && l in q.reg && q.reg[l] == st.reg[l] && KeyOf(l) !in q.dir
            && st.reg[l] in st.sess && st.reg[l] in q.sess && q.sess[st.reg[l]] == st.sess[st.reg[l]]
  {
    assert KeyOf(l) == KeyOf(n);
    hide Inv, ParseInit, Step, Dispatch, Enabled, Newcomer, Index, Waiting, Register, Finish, EstablishAccept, KeyOf,
      Bondable, ControlOk;
    InitSteps(st, s, raw, inTime);
    DispatchesTo(st, s, ParseInit(raw), inTime);
    FreshIsNewcomer(st, s);
    ShapeParts(st);
    AcceptTaken(st, s, n);
    RefusedSparesListener(st, s, n, l);
  }
}
