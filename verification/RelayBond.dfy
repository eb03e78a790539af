/** `establish_accept`: bonding keeps the invariant. */
module RelayBond {
  import opened Bytes
  import opened SessionNames
  import opened RelayDirectories
  import opened RelayModel
  import opened RelayInvariant
  import opened RelaySteps
  import opened RelayFinish
  import opened RelayRegister
  import opened RelaySafety

  /** `a` has just registered as the mirror image of `c`, and nothing has passed between them. */
  ghost predicate Pairable(st: State, a: Sid, c: Sid) {
    && a in st.sess && c in st.sess && a != c
    && var x, y := st.sess[a], st.sess[c];
       && x.name.AcceptName? && Peer(x.name) == Some(y.name)
       && Holder(x) && Holder(y) && x.established && !y.established
       && x.log == [] && x.input == [] && x.pc == ReadPtpHeader && !x.closed
       && y.pc.AwaitBond?
       && (forall b :: b in st.bonds ==> b.acc != a)
       && (forall i :: 0 <= i < |y.log| ==> y.log[i].src != a)
  }

  lemma {:induction false} CarriedNothing(log: seq<Sent>, src: Sid)
    requires forall i :: 0 <= i < |log| ==> log[i].src != src
    ensures Carried(log, src) == []
  {
    if log != [] {
      CarriedNothing(log[..|log| - 1], src);
    }
  }

  lemma AddBondTables(st: State, a: Sid, c: Sid)
    requires Index(st) && Advertised(st) && Counted(st) && Pairable(st, a, c)
    ensures var r := AddBond(st, a, c); Index(r) && Advertised(r) && Counted(r)
  {
    assert Unfinished(AddBond(st, a, c).sess) == Unfinished(st.sess);
  }

  lemma AddBondWaiting(st: State, a: Sid, c: Sid)
    requires Waiting(st) && Pairable(st, a, c)
    ensures Waiting(AddBond(st, a, c))
  {
  }

  lemma AddBondMirrors(st: State, a: Sid, c: Sid)
    requires BondsOk(st) && Pairable(st, a, c)
    ensures BondsOk(AddBond(st, a, c))
  {
    hide BondsOk, MirrorBond, AddBond, Pairable;
    var r := AddBond(st, a, c);
    AddBondUnique(st, a, c);
    forall b | b in r.bonds ensures MirrorBond(r, b) {
      AddBondMirror(st, a, c, b);
    }
    forall d | d in r.sess && r.sess[d].name.ConnectName? && r.sess[d].established
      ensures exists e :: Bond(e, d) in r.bonds
    {
      AddBondEstablished(st, a, c, d);
    }
    BondsAre(r);
  }

  lemma BondsAre(st: State)
    requires forall b :: b in st.bonds ==> MirrorBond(st, b)
    requires forall b, d :: b in st.bonds && d in st.bonds && (b.acc == d.acc || b.con == d.con) ==> b == d
    requires forall c :: c in st.sess && st.sess[c].name.ConnectName? && st.sess[c].established ==>
               exists a :: Bond(a, c) in st.bonds
    ensures BondsOk(st)
  {
    hide MirrorBond;
  }

  lemma AddBondUnique(st: State, a: Sid, c: Sid)
    requires BondsOk(st) && Pairable(st, a, c)
    ensures var r := AddBond(st, a, c);
            forall b, d :: b in r.bonds && d in r.bonds && (b.acc == d.acc || b.con == d.con) ==> b == d
  {
    BondedElsewhere(st, a, c);
    hide Peer, Bonded, MirrorBond;
  }

  lemma BondedElsewhere(st: State, a: Sid, c: Sid)
    requires BondsOk(st) && Pairable(st, a, c)
    ensures forall b :: b in st.bonds ==> b.con != c
  {
    assert forall b :: b in st.bonds ==> MirrorBond(st, b);
  }

  lemma AddBondMirror(st: State, a: Sid, c: Sid, b: Bond)
    requires BondsOk(st) && Pairable(st, a, c) && b in AddBond(st, a, c).bonds
    ensures MirrorBond(AddBond(st, a, c), b)
  {
    assert b in st.bonds ==> MirrorBond(st, b);
    PeerIsInvolution(st.sess[a].name);
    hide Peer, SignalBond;
  }

  lemma AddBondEstablished(st: State, a: Sid, c: Sid, d: Sid)
    requires BondsOk(st) && Pairable(st, a, c) && d in AddBond(st, a, c).sess
    requires AddBond(st, a, c).sess[d].name.ConnectName? && AddBond(st, a, c).sess[d].established
    ensures exists e :: Bond(e, d) in AddBond(st, a, c).bonds
  {
    hide MirrorBond, Peer;
    var r := AddBond(st, a, c);
    if d == c {
      assert Bond(a, c) in r.bonds;
    } else {
      var e :| Bond(e, d) in st.bonds;
      assert Bond(e, d) in r.bonds;
    }
  }

  lemma AddBondHalfOpen(st: State, a: Sid, c: Sid)
    requires Index(st) && HalfOpen(st) && BondsOk(st) && Pairable(st, a, c)
    ensures HalfOpen(AddBond(st, a, c))
  {
    var r := AddBond(st, a, c);
    PeerIsInvolution(st.sess[a].name);
    forall m | m in r.reg && r.reg[m] in r.sess && NeedsPeer(r.sess[r.reg[m]])
      ensures Peer(m).Some? && Peer(m).value in r.reg
    {
      assert r.reg[m] != c ==> NeedsPeer(st.sess[r.reg[m]]);
    }
    forall b | b in r.bonds && b.acc in r.sess && b.con in r.sess
      ensures Torn(r.sess[b.acc], r.sess[b.con]) && Torn(r.sess[b.con], r.sess[b.acc])
    {
      assert b in st.bonds ==>
        Torn(st.sess[b.acc], st.sess[b.con]) && Torn(st.sess[b.con], st.sess[b.acc]);
    }
  }

  lemma AddBondPipes(st: State, a: Sid, c: Sid)
    requires Pipes(st) && Locals(st) && Pairable(st, a, c)
    ensures Pipes(AddBond(st, a, c))
  {
    hide Locals, Pipe, AddBond, Pairable, Silent, Bonded, Pipes;
    var r := AddBond(st, a, c);
    assert a in st.sess && c in st.sess && a != c by { PairableApart(st, a, c); }
    NewPipe(st, a, c);
    AddBondIsSilent(st, a, c);
    forall b | b in r.bonds && b.acc in r.sess && b.con in r.sess
      ensures Pipe(r.sess[b.acc], b.acc, r.sess[b.con]) && Pipe(r.sess[b.con], b.con, r.sess[b.acc])
    {
      if b != Bond(a, c) {
        assert b in st.bonds;
        PipesAt(st, b);
        SilentPipe(st.sess[b.acc], b.acc, st.sess[b.con], r.sess[b.acc], r.sess[b.con]);
        SilentPipe(st.sess[b.con], b.con, st.sess[b.acc], r.sess[b.con], r.sess[b.acc]);
      }
    }
    AllPipes(r);
  }

  lemma AllPipes(r: State)
    requires forall b :: b in r.bonds && b.acc in r.sess && b.con in r.sess ==>
      Pipe(r.sess[b.acc], b.acc, r.sess[b.con]) && Pipe(r.sess[b.con], b.con, r.sess[b.acc])
    ensures Pipes(r)
  {
  }

  lemma PairableApart(st: State, a: Sid, c: Sid)
    requires Pairable(st, a, c)
    ensures a in st.sess && c in st.sess && a != c
  {
  }

  lemma PipesAt(st: State, b: Bond)
    requires Pipes(st) && b in st.bonds && b.acc in st.sess && b.con in st.sess
    ensures Pipe(st.sess[b.acc], b.acc, st.sess[b.con]) && Pipe(st.sess[b.con], b.con, st.sess[b.acc])
  {
  }

  ghost predicate Silent(x: Session, y: Session) {
    && y.log == x.log && y.input == x.input && (x.closed ==> y.closed)
    && (Streaming(y.pc) ==> Streaming(x.pc) && Pending(y.pc) == Pending(x.pc))
  }

  lemma SilentPipe(x: Session, src: Sid, y: Session, x': Session, y': Session)
    requires Pipe(x, src, y) && Silent(x, x') && Silent(y, y')
    ensures Pipe(x', src, y')
  {
  }

  lemma AddBondIsSilent(st: State, a: Sid, c: Sid)
    requires a in st.sess && c in st.sess && a != c
    ensures var r := AddBond(st, a, c);
            && r.bonds == st.bonds + {Bond(a, c)} && r.sess.Keys == st.sess.Keys
            && r.sess[a] == st.sess[a] && r.sess[c] == Bonded(st.sess[c])
            && forall t :: t in st.sess ==> Silent(st.sess[t], r.sess[t])
  {
  }

  lemma NewPipe(st: State, a: Sid, c: Sid)
    requires Locals(st) && Pairable(st, a, c)
    ensures Pipe(st.sess[a], a, Bonded(st.sess[c])) && Pipe(Bonded(st.sess[c]), c, st.sess[a])
  {
    AwaitingHasRead(st, c);
    CarriedNothing(st.sess[c].log, a);
    hide Locals;
  }

  lemma AwaitingHasRead(st: State, c: Sid)
    requires Locals(st) && c in st.sess && st.sess[c].pc.AwaitBond?
    ensures st.sess[c].input == []
  {
    assert LocalOk(st.sess[c]);
    hide QueueOk, LogOk;
  }

  lemma BondedLocal(x: Session)
    requires LocalOk(x) && x.registered && x.name.ConnectName? && x.pc.AwaitBond?
    ensures LocalOk(Bonded(x))
  {
  }

  lemma AddBondKeeps(st: State, a: Sid, c: Sid)
    requires Shape(st) && Traffic(st) && Pairable(st, a, c)
    ensures Shape(AddBond(st, a, c)) && Traffic(AddBond(st, a, c))
  {
    hide Index, Waiting, Advertised, Counted, BondsOk, HalfOpen, Origins, Pipes, LocalOk;
    AddBondTables(st, a, c);
    AddBondWaiting(st, a, c);
    AddBondMirrors(st, a, c);
    AddBondHalfOpen(st, a, c);
    AddBondPipes(st, a, c);
    assert LocalOk(st.sess[c]);
    BondedLocal(st.sess[c]);
    AddBondOrigins(st, a, c);
  }

  lemma AddBondOrigins(st: State, a: Sid, c: Sid)
    requires Origins(st) && c in st.sess
    ensures Origins(AddBond(st, a, c))
  {
    var r := AddBond(st, a, c);
    forall t, i | t in r.sess && 0 <= i < |r.sess[t].log|
      ensures r.sess[t].log[i].src in r.sess
      ensures Genuine(r.sess[t].name, r.sess[r.sess[t].log[i].src], r.sess[t].log[i].frame)
    {
      assert r.sess[t].log == st.sess[t].log;
    }
  }

  /** The two notices, queued before `bond()` in the source, may as well follow it. */
  lemma BondAfterNotices(st: State, a: Sid, c: Sid, p1: Sent, p2: Sent)
    requires a in st.sess && c in st.sess && a != c
    ensures AddBond(Send(Send(st, c, p1), a, p2), a, c) == Send(Send(AddBond(st, a, c), c, p1), a, p2)
  {
    BondAfterQueued(st.sess[c], p1);
    var l, r := AddBond(Send(Send(st, c, p1), a, p2), a, c), Send(Send(AddBond(st, a, c), c, p1), a, p2);
    hide Queued, Bonded;
    assert l.sess == r.sess;
  }

  lemma BondAfterQueued(x: Session, p: Sent)
    ensures Bonded(Queued(x, p)) == Queued(Bonded(x), p)
  {
  }

  /** Both notices keep everything, and the second one greets the ACCEPT. */
  lemma NoticesKeep(st: State, a: Sid, c: Sid)
    requires Shape(st) && Traffic(st) && a in st.sess && c in st.sess && a != c
    requires var x, y := st.sess[a], st.sess[c];
             && x.name.AcceptName? && Peer(x.name) == Some(y.name) && x.registered && y.registered
             && x.log == [] && !x.closed && y.established && Notices(y.log) == 0
    requires forall t :: t in st.sess && t != a ==> Greeted(st.sess[t])
    ensures var x := st.sess[a];
            var r := Send(Send(st, c, Sent(a, Notice(x.name.src))), a, Sent(a, Notice(x.name.dst)));
            Inv(r) && r.sess.Keys == st.sess.Keys && Quiet(x, r.sess[a]) && r.sess[a].log == [Sent(a, Notice(x.name.dst))]
  {
    hide Shape, Traffic, Queued;
    var x := st.sess[a];
    var p1, p2 := Sent(a, Notice(x.name.src)), Sent(a, Notice(x.name.dst));
    var s1 := Send(st, c, p1);
    SendKeeps(st, c, p1);
    SendKeepsGreeted(st, c, p1);
    SendKeeps(s1, a, p2);
    SendKeepsGreeted(s1, a, p2);
  }

  /** A newcomer has sent nothing and is in no bond. */
  lemma NewcomerIsUnknown(st: State, s: Sid, t: Sid)
    requires Origins(st) && BondsOk(st) && Newcomer(st, s) && t in st.sess
    ensures forall i :: 0 <= i < |st.sess[t].log| ==> st.sess[t].log[i].src != s
    ensures forall b :: b in st.bonds ==> b.acc != s
  {
    assert forall b :: b in st.bonds ==> MirrorBond(st, b);
  }

  lemma UnbondedConnectAwaits(st: State, c: Sid)
    requires Locals(st) && c in st.sess && Holder(st.sess[c]) && st.sess[c].name.ConnectName?
    requires !st.sess[c].established
    ensures st.sess[c].pc.AwaitBond? && Notices(st.sess[c].log) == 0
  {
    assert LocalOk(st.sess[c]);
  }

  lemma RegisteredIsPairable(st: State, s: Sid, n: Name, c: Sid)
    requires Inv(st) && Newcomer(st, s) && n.AcceptName? && Bondable(st, n) == Some(c)
    ensures var a := Advertise(Register(st, s, n, true, ReadPtpHeader), s, n);
            Pairable(a, s, c) && Notices(a.sess[c].log) == 0
  {
    hide Advertised, Counted, HalfOpen, Pipes, Locals, Register;
    var r := Register(st, s, n, true, ReadPtpHeader);
    PeerIsInvolution(n);
    RegisterHasEffect(st, s, n, true, ReadPtpHeader);
    HolderKept(st, s, n, true, ReadPtpHeader, r, Peer(n).value);
    NewcomerIsUnknown(st, s, c);
    UnbondedConnectAwaits(st, c);
  }

  /** The state after a successful `establish_accept`, just before its `forward_loop`. */
  function Accepted(st: State, s: Sid, n: Name, c: Sid): State
    requires s in st.sess && n.AcceptName?
  {
    var a := Advertise(Register(st, s, n, true, ReadPtpHeader), s, n);
    Send(Send(AddBond(a, s, c), c, Sent(s, Notice(n.src))), s, Sent(s, Notice(n.dst)))
  }

  lemma AcceptedKeeps(st: State, s: Sid, n: Name, c: Sid)
    requires Inv(st) && Newcomer(st, s) && n.AcceptName? && Bondable(st, n) == Some(c)
    requires KeyOf(n) !in st.dir
    ensures var q, a := Accepted(st, s, n, c), Advertise(Register(st, s, n, true, ReadPtpHeader), s, n);
            && Inv(q) && q.bonds == st.bonds + {Bond(s, c)} && q.sess.Keys == st.sess.Keys
            && Quiet(a.sess[s], q.sess[s]) && q.sess[s].log == [Sent(s, Notice(n.dst))]
            && q.sess[s].pc == ReadPtpHeader && !q.sess[s].closed
  {
    hide Shape, Traffic, Register, Queued, Send;
    var r := Register(st, s, n, true, ReadPtpHeader);
    PeerIsInvolution(n);
    RegisterKeeps(st, s, n, true, ReadPtpHeader);
    var a := Advertise(r, s, n);
    AdvertiseKeeps(r, s, n);
    RegisteredIsPairable(st, s, n, c);
    AddBondKeeps(a, s, c);
    AddBondLooks(a, s, c);
    NoticesKeep(AddBond(a, s, c), s, c);
    assert a.sess[s].queuedBytes == 0 by { NewcomerQueue(st, s, n); }
    NoticesPc(AddBond(a, s, c), s, c, Sent(s, Notice(n.src)), Sent(s, Notice(n.dst)));
  }

  lemma NewcomerQueue(st: State, s: Sid, n: Name)
    requires Inv(st) && Newcomer(st, s)
    ensures Register(st, s, n, true, ReadPtpHeader).sess[s].queuedBytes == 0
  {
    RegisterHasEffect(st, s, n, true, ReadPtpHeader);
    hide Register;
    assert LocalOk(st.sess[s]);
  }

  /** Bonding succeeds: the ACCEPT holds its name, was greeted first, and is joined to exactly that CONNECT. */
  lemma BondStepKeeps(st: State, s: Sid, n: Name, c: Sid)
    requires Inv(st) && Newcomer(st, s) && n.AcceptName? && Bondable(st, n) == Some(c)
    requires KeyOf(n) !in st.dir
    ensures EstablishAccept(st, s, n) == Accepted(st, s, n, c)
    ensures Inv(EstablishAccept(st, s, n))
  {
    assert s in st.sess;
    var a := Advertise(Register(st, s, n, true, ReadPtpHeader), s, n);
    RegisteredIsPairable(st, s, n, c) by { hide *; }
    AcceptedKeeps(st, s, n, c);
    hide *;
    PairableApart(a, s, c);
    BondAfterNotices(a, s, c, Sent(s, Notice(n.src)), Sent(s, Notice(n.dst)));
    AcceptUnfolds(st, s, n, c);
    AcceptedUnfolds(st, s, n, c);
    LoopTopOpen(Accepted(st, s, n, c), s);
  }

  lemma AcceptedUnfolds(st: State, s: Sid, n: Name, c: Sid)
    requires s in st.sess && n.AcceptName?
    ensures var a := Advertise(Register(st, s, n, true, ReadPtpHeader), s, n);
            Accepted(st, s, n, c)
            == Send(Send(AddBond(a, s, c), c, Sent(s, Notice(n.src))), s, Sent(s, Notice(n.dst)))
  {
  }

  lemma LoopTopOpen(q: State, s: Sid)
    requires s in q.sess && !q.sess[s].closed
    ensures LoopTop(q, s, q.sess[s].pc) == q
  {
    assert q.sess[s := q.sess[s]] == q.sess;
  }

  lemma AcceptUnfolds(st: State, s: Sid, n: Name, c: Sid)
    requires s in st.sess && n.AcceptName? && Bondable(st, n) == Some(c) && KeyOf(n) !in st.dir
    ensures var a := Advertise(Register(st, s, n, true, ReadPtpHeader), s, n);
            var q := AddBond(Send(Send(a, c, Sent(s, Notice(n.src))), s, Sent(s, Notice(n.dst))), s, c);
            s in q.sess && EstablishAccept(st, s, n) == LoopTop(q, s, ReadPtpHeader)
  {
    hide Queued, Bonded, LoopTop, Closed;
  }

  lemma NoticesPc(st: State, a: Sid, c: Sid, p1: Sent, p2: Sent)
    requires a in st.sess && c in st.sess && a != c && !st.sess[a].pc.AwaitBond?
    requires !st.sess[a].closed && st.sess[a].queuedBytes < 100 && p2.frame.Notice?
    ensures var q := Send(Send(st, c, p1), a, p2);
            a in q.sess && q.sess[a].pc == st.sess[a].pc && q.bonds == st.bonds && !q.sess[a].closed
  {
  }

  lemma AddBondLooks(st: State, a: Sid, c: Sid)
    requires Pairable(st, a, c)
    ensures var r := AddBond(st, a, c);
            && r.sess.Keys == st.sess.Keys && r.bonds == st.bonds + {Bond(a, c)} && r.sess[a] == st.sess[a]
            && r.sess[c].established && r.sess[c].registered && r.sess[c].name == st.sess[c].name
            && r.sess[c].log == st.sess[c].log
            && (forall t :: t in st.sess && t != a && Greeted(st.sess[t]) ==> Greeted(r.sess[t]))
  {
  }

  lemma EstablishAcceptKeeps(st: State, s: Sid, n: Name)
    requires Inv(st) && Newcomer(st, s) && st.sess[s].pc.ReadInit? && n.AcceptName?
    ensures Inv(EstablishAccept(st, s, n))
  {
    match Bondable(st, n)
    case None =>
      hide Shape, Traffic, AllGreeted, Finish;
      RenameKeeps(st, s, n);
      FinishKeeps(Put(st, s, st.sess[s].(name := n)), s) by { AllGreetedOf(Put(st, s, st.sess[s].(name := n))); }
    case Some(c) =>
      if KeyOf(n) in st.dir {
        hide Shape, Traffic, Finish, Register, NotWaiting, AllGreeted;
        PeerIsInvolution(n);
        RegisterKeeps(st, s, n, true, ReadPtpHeader);
        FinishKeeps(Register(st, s, n, true, ReadPtpHeader), s);
      } else {
        BondStepKeeps(st, s, n, c);
      }
  }

  lemma AllGreetedOf(st: State)
    requires AllGreeted(st)
    ensures forall t :: t in st.sess ==> Greeted(st.sess[t])
  {
  }
}
