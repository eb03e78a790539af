/** Every event keeps the invariant, so it holds in every state of every run. */
module RelaySafety {
  import opened Bytes
  import opened SessionNames
  import opened RelayDirectories
  import opened RelayModel
  import opened RelayInvariant
  import opened RelaySteps
  import opened RelayFinish
  import opened RelayRegister

  // ---- sessions change on their own -----------------------------------------------------------

  lemma PutKeeps(st: State, s: Sid, y: Session)
    requires Inv(st) && s in st.sess
    requires Quiet(st.sess[s], y) && SameTraffic(st.sess[s], y) && LocalOk(y)
    ensures Inv(Put(st, s, y))
  {
    hide Shape, Traffic, LocalOk;
    QuietShape(st, s, y);
    QuietTraffic(st, s, y);
    assert AllGreeted(Put(st, s, y)) by {
      assert Greeted(st.sess[s]);
    }
  }

  lemma ConnectedKeeps(st: State, s: Sid)
    requires Inv(st) && s !in st.sess && st.active < MAX_SESSIONS
    ensures Inv(Put(st, s, NEW_SESSION).(active := st.active + 1))
  {
    hide Index, Waiting, Advertised, Counted, BondsOk, HalfOpen, Locals, Origins, Pipes, LocalOk, NEW_SESSION;
    var r := Put(st, s, NEW_SESSION).(active := st.active + 1);
    ConnectedCounted(st, s, r);
    ConnectedTables(st, s, r);
    ConnectedBonds(st, s, r);
    ConnectedTraffic(st, s, r);
    ConnectedPipes(st, s, r);
  }

  lemma ConnectedCounted(st: State, s: Sid, r: State)
    requires Counted(st) && s !in st.sess && st.active < MAX_SESSIONS
    requires r == Put(st, s, NEW_SESSION).(active := st.active + 1)
    ensures Counted(r)
  {
    assert Unfinished(r.sess) == Unfinished(st.sess) + {s};
  }

  lemma ConnectedTables(st: State, s: Sid, r: State)
    requires Index(st) && Waiting(st) && Advertised(st)
    requires s !in st.sess && r == Put(st, s, NEW_SESSION).(active := r.active)
    ensures Index(r) && Waiting(r) && Advertised(r)
  {
  }

  lemma ConnectedBonds(st: State, s: Sid, r: State)
    requires BondsOk(st) && HalfOpen(st) && Index(st)
    requires s !in st.sess && r == Put(st, s, NEW_SESSION).(active := r.active)
    ensures BondsOk(r) && HalfOpen(r)
  {
    forall b | b in r.bonds ensures MirrorBond(r, b) {
      assert MirrorBond(st, b);
    }
  }

  lemma ConnectedTraffic(st: State, s: Sid, r: State)
    requires Locals(st) && Origins(st) && AllGreeted(st)
    requires s !in st.sess && r == Put(st, s, NEW_SESSION).(active := r.active)
    ensures Locals(r) && Origins(r) && AllGreeted(r)
  {
    NewSessionLocal();
    hide LocalOk, Genuine;
  }

  lemma NewSessionLocal()
    ensures LocalOk(NEW_SESSION) && Greeted(NEW_SESSION) && NEW_SESSION.log == []
  {
  }

  lemma ConnectedPipes(st: State, s: Sid, r: State)
    requires Pipes(st) && BondsOk(st)
    requires s !in st.sess && r == Put(st, s, NEW_SESSION).(active := r.active)
    ensures Pipes(r)
  {
    forall b | b in r.bonds
      ensures Pipe(r.sess[b.acc], b.acc, r.sess[b.con]) && Pipe(r.sess[b.con], b.con, r.sess[b.acc])
    {
      assert MirrorBond(st, b);
      assert Pipe(st.sess[b.acc], b.acc, st.sess[b.con]) && Pipe(st.sess[b.con], b.con, st.sess[b.acc]);
    }
  }

  lemma WriterRunsKeeps(st: State, s: Sid)
    requires Inv(st) && s in st.sess && st.sess[s].writer.Runnable?
    ensures Inv(Put(st, s, WriterLoop(st.sess[s])))
  {
    hide Shape, Origins, Pipes, AllGreeted, WriterLoop, SameTraffic, Quiet, LocalOk;
    assert LocalOk(st.sess[s]);
    WriterRunsLocally(st.sess[s]);
    PutKeeps(st, s, WriterLoop(st.sess[s]));
  }

  lemma WrittenKeeps(st: State, s: Sid, ok: bool)
    requires Inv(st) && s in st.sess && st.sess[s].writer.Writing?
    ensures Inv(Put(st, s, WriteDone(st.sess[s], ok)))
  {
    hide Shape, Origins, Pipes, AllGreeted, WriteDone, SameTraffic, Quiet, LocalOk;
    assert LocalOk(st.sess[s]);
    WriteDoneKeeps(st.sess[s], ok);
    PutKeeps(st, s, WriteDone(st.sess[s], ok));
  }

  lemma LoopAgain(st: State, s: Sid, next: Pc)
    requires Inv(st) && s in st.sess && !st.sess[s].finished && !next.AwaitListen? && !st.sess[s].pc.AwaitListen?
    requires var y := st.sess[s].(pc := next);
             ControlOk(y) && (Streaming(next) ==> Streaming(st.sess[s].pc) && Pending(next) == Pending(st.sess[s].pc))
    ensures Inv(LoopTop(st, s, next))
  {
    hide Shape, Origins, Pipes, AllGreeted, Finish;
    var y := st.sess[s].(pc := next);
    assert LocalOk(y) by {
      assert LocalOk(st.sess[s]);
    }
    PutKeeps(st, s, y);
    LoopTopKeeps(st, s, next);
  }

  // ---- sends other than PTP data ---------------------------------------------------------------

  ghost predicate MaySend(st: State, t: Sid, p: Sent) {
    && t in st.sess && st.sess[t].registered
    && Fits(st.sess[t].name, |st.sess[t].log|, p.frame)
    && p.src in st.sess && Genuine(st.sess[t].name, st.sess[p.src], p.frame)
    && (st.sess[t].name.ConnectName? && p.frame.Notice? ==>
          st.sess[t].established && Notices(st.sess[t].log) == 0)
  }

  lemma SendOrigins(st: State, t: Sid, p: Sent)
    requires Origins(st) && MaySend(st, t, p)
    requires Queued(st.sess[t], p).log == if st.sess[t].closed then st.sess[t].log else st.sess[t].log + [p]
    requires Quiet(st.sess[t], Queued(st.sess[t], p))
    ensures Origins(Send(st, t, p))
  {
    var r := Send(st, t, p);
    forall u, i | u in r.sess && 0 <= i < |r.sess[u].log|
      ensures r.sess[u].log[i].src in r.sess
      ensures Genuine(r.sess[u].name, r.sess[r.sess[u].log[i].src], r.sess[u].log[i].frame)
    {
      if i < |st.sess[u].log| {
        assert r.sess[u].log[i] == st.sess[u].log[i];
      } else {
        assert r.sess[u].log[i] == p;
      }
    }
  }

  lemma SendKeeps(st: State, t: Sid, p: Sent)
    requires Shape(st) && Traffic(st) && MaySend(st, t, p) && !p.frame.PtpFrame?
    ensures var r := Send(st, t, p);
            && Shape(r) && Traffic(r) && r == Put(st, t, r.sess[t]) && Quiet(st.sess[t], r.sess[t])
            && r.sess[t].log == if st.sess[t].closed then st.sess[t].log else st.sess[t].log + [p]
  {
    hide Shape, Pipes, Origins, LocalOk, Genuine;
    var x := st.sess[t];
    assert LocalOk(x);
    QueuedKeeps(x, p);
    QuietShape(st, t, Queued(x, p));
    SendOrigins(st, t, p);
    SendPipes(st, t, p);
  }

  lemma PipeStays(x: Session, src: Sid, y: Session, x': Session, y': Session)
    requires Pipe(x, src, y)
    requires x'.input == x.input && Carried(y'.log, src) == Carried(y.log, src) && (y.closed ==> y'.closed)
    requires Streaming(x'.pc) ==> Streaming(x.pc) && Pending(x'.pc) == Pending(x.pc)
    ensures Pipe(x', src, y')
  {
  }

  lemma SendPipes(st: State, t: Sid, p: Sent)
    requires Pipes(st) && t in st.sess && !p.frame.PtpFrame?
    requires Queued(st.sess[t], p).log == if st.sess[t].closed then st.sess[t].log else st.sess[t].log + [p]
    ensures Pipes(Send(st, t, p))
  {
    var r := Send(st, t, p);
    forall u, src | u in st.sess
      ensures Carried(r.sess[u].log, src) == Carried(st.sess[u].log, src)
    {
      CarriedAppend(st.sess[t].log, p, src);
    }
    forall u | u in st.sess
      ensures r.sess[u].input == st.sess[u].input && (st.sess[u].closed ==> r.sess[u].closed)
      ensures Streaming(r.sess[u].pc) ==>
                Streaming(st.sess[u].pc) && Pending(r.sess[u].pc) == Pending(st.sess[u].pc)
    {
    }
    hide Queued, Send, Carried;
    forall b | b in r.bonds && b.acc in r.sess && b.con in r.sess
      ensures Pipe(r.sess[b.acc], b.acc, r.sess[b.con]) && Pipe(r.sess[b.con], b.con, r.sess[b.acc])
    {
      PipeStays(st.sess[b.acc], b.acc, st.sess[b.con], r.sess[b.acc], r.sess[b.con]);
      PipeStays(st.sess[b.con], b.con, st.sess[b.acc], r.sess[b.con], r.sess[b.acc]);
    }
  }

  lemma SendKeepsGreeted(st: State, t: Sid, p: Sent)
    requires t in st.sess
    ensures forall u :: u in st.sess && Greeted(st.sess[u]) ==> Greeted(Send(st, t, p).sess[u])
    ensures !st.sess[t].closed ==> Greeted(Send(st, t, p).sess[t])
  {
  }

  // ---- registration -----------------------------------------------------------------------------

  lemma EnterKeeps(st: State, s: Sid, n: Name, next: Pc)
    requires Inv(st) && Newcomer(st, s) && !next.AwaitListen? && !IsPtpPipe(n)
    requires ControlOk(Joined(st.sess[s], n, false, next))
    ensures Inv(Enter(st, s, n, next))
  {
    hide Index, Waiting, Advertised, Counted, BondsOk, HalfOpen, Locals, Origins, Pipes, LocalOk, ControlOk,
      Register, Finish;
    var r := Register(st, s, n, false, next);
    RegisterKeeps(st, s, n, false, next);
    if KeyOf(n) in st.dir {
      FinishKeeps(r, s);
    } else {
      AdvertiseKeeps(r, s, n);
      var a := Advertise(r, s, n);
      assert Put(a, s, a.sess[s].(pc := next)) == a;
      LoopTopKeeps(a, s, next);
    }
  }

  /** Whoever holds another name is still there and still holds it. */
  lemma HolderKept(st: State, s: Sid, n: Name, est: bool, next: Pc, r: State, m: Name)
    requires Index(st) && Waiting(st) && Locals(st)
    requires Newcomer(st, s) && RegisterEffect(st, s, n, est, next, r)
    requires m in st.reg && m != n
    ensures st.reg[m] != s && st.reg[m] in r.sess && r.sess[st.reg[m]] == st.sess[st.reg[m]]
    ensures r.sess[st.reg[m]].name == m && Holder(r.sess[st.reg[m]])
  {
    assert Bystander(st, n, st.reg[m], r.sess[st.reg[m]]);
    assert Holder(st.sess[st.reg[m]]) && LocalOk(st.sess[st.reg[m]]);
  }

  lemma EstablishConnectKeeps(st: State, s: Sid, n: Name)
    requires Inv(st) && Newcomer(st, s) && n.ConnectName? && st.sess[s].name == n
    ensures Inv(EstablishConnect(st, s, n))
  {
    hide Index, Waiting, Advertised, Counted, BondsOk, HalfOpen, Locals, Origins, Pipes, LocalOk, Register, Finish,
      Send;
    if ListenerOf(n) !in st.reg {
      FinishKeeps(st, s);
    } else {
      var r := Register(st, s, n, false, AwaitBond(false));
      RegisterKeeps(st, s, n, false, AwaitBond(false));
      if KeyOf(n) in st.dir {
        FinishKeeps(r, s);
      } else {
        AdvertiseKeeps(r, s, n);
        var a, l, p := Advertise(r, s, n), st.reg[ListenerOf(n)], Sent(s, Notice(n.src));
        HolderKept(st, s, n, false, AwaitBond(false), r, ListenerOf(n));
        SendKeeps(a, l, p);
        SendKeepsGreeted(a, l, p);
      }
    }
  }

  lemma RenameKeeps(st: State, s: Sid, n: Name)
    requires Inv(st) && Newcomer(st, s) && st.sess[s].pc.ReadInit?
    ensures var r := Put(st, s, st.sess[s].(name := n)); Inv(r) && Newcomer(r, s)
  {
    hide Index, Waiting, Advertised, Counted, BondsOk, HalfOpen, Origins, Pipes;
    RenameShape(st, s, n);
    RenameLocals(st, s, n);
    RenameTraffic(st, s, n);
    assert NotWaiting(Put(st, s, st.sess[s].(name := n)), s);
  }

  lemma RenameLocals(st: State, s: Sid, n: Name)
    requires Locals(st) && AllGreeted(st) && Newcomer(st, s)  && st.sess[s].pc.ReadInit?
    ensures var r := Put(st, s, st.sess[s].(name := n)); Locals(r) && AllGreeted(r)
  {
    LocalOf(st, s);
    RenamedLocal(st.sess[s], n);
    hide LocalOk;
  }

  lemma RenamedLocal(x: Session, n: Name)
    requires LocalOk(x) && Unregistered(x) && x.pc.ReadInit?
    ensures LocalOk(x.(name := n))
  {
    hide Total;
  }

  lemma RenameShape(st: State, s: Sid, n: Name)
    requires Shape(st) && Newcomer(st, s) && st.sess[s].pc.ReadInit?
    ensures Shape(Put(st, s, st.sess[s].(name := n)))
  {
    hide BondsOk, HalfOpen, Index, Advertised, Counted;
    var r := Put(st, s, st.sess[s].(name := n));
    PlainTablesKeep(st, s, r);
    UnbondedKeeps(st, s, r);
  }

  /** A session that has not registered is in no bond, so the bonds do not see it change. */
  lemma UnbondedKeeps(st: State, s: Sid, r: State)
    requires BondsOk(st) && HalfOpen(st) && Index(st) && s in st.sess && !st.sess[s].registered
    requires s in r.sess && r.sess == st.sess[s := r.sess[s]] && r.bonds == st.bonds && r.reg == st.reg
    requires !r.sess[s].established
    ensures BondsOk(r) && HalfOpen(r)
  {
    forall b | b in r.bonds ensures MirrorBond(r, b) {
      assert MirrorBond(st, b);
    }
  }

  lemma RenameTraffic(st: State, s: Sid, n: Name)
    requires Origins(st) && Pipes(st) && BondsOk(st) && Newcomer(st, s)
    ensures var r := Put(st, s, st.sess[s].(name := n)); Origins(r) && Pipes(r)
  {
    var r := Put(st, s, st.sess[s].(name := n));
    forall t, i | t in r.sess && 0 <= i < |r.sess[t].log|
      ensures r.sess[t].log[i].src in r.sess
      ensures Genuine(r.sess[t].name, r.sess[r.sess[t].log[i].src], r.sess[t].log[i].frame)
    {
      assert Genuine(st.sess[t].name, st.sess[st.sess[t].log[i].src], st.sess[t].log[i].frame);
    }
    forall b | b in r.bonds
      ensures Pipe(r.sess[b.acc], b.acc, r.sess[b.con]) && Pipe(r.sess[b.con], b.con, r.sess[b.acc])
    {
      assert MirrorBond(st, b);
      assert Pipe(st.sess[b.acc], b.acc, st.sess[b.con]) && Pipe(st.sess[b.con], b.con, st.sess[b.acc]);
    }
  }

  // ---- waiting for a listener ---------------------------------------------------------------------

  lemma StartWaitingKeeps(st: State, s: Sid)
    requires Inv(st) && Newcomer(st, s) && st.sess[s].name.ConnectName?
    requires ListenerOf(st.sess[s].name) !in st.reg
    ensures Inv(Put(st, s, st.sess[s].(pc := AwaitListen(false)))
                .(waiters := Append(st.waiters, ListenerOf(st.sess[s].name), s)))
  {
    hide Index, Waiting, Advertised, Counted, BondsOk, HalfOpen, Locals, Origins, Pipes, AllGreeted;
    var q := Put(st, s, st.sess[s].(pc := AwaitListen(false)));
    var r := q.(waiters := Append(st.waiters, ListenerOf(st.sess[s].name), s));
    assert LocalOk(q.sess[s]) by { LocalOf(st, s); }
    StartWaitingTables(st, s, r);
    QuietTraffic(st, s, q.sess[s]);
    SameTables(q, r);
    StartWaitingGreeted(st, s, q);
    SameSessionsGreeted(q, r);
  }

  lemma LocalOf(st: State, s: Sid)
    requires Locals(st) && s in st.sess
    ensures LocalOk(st.sess[s])
  {
  }

  lemma StartWaitingGreeted(st: State, s: Sid, q: State)
    requires AllGreeted(st) && s in st.sess && q == Put(st, s, st.sess[s].(pc := AwaitListen(false)))
    ensures AllGreeted(q)
  {
    assert Greeted(st.sess[s]);
  }

  lemma SameSessionsGreeted(q: State, r: State)
    requires AllGreeted(q) && r.sess == q.sess
    ensures AllGreeted(r)
  {
  }

  lemma SameTables(q: State, r: State)
    requires Traffic(q) && r == q.(waiters := r.waiters)
    ensures Traffic(r)
  {
  }

  lemma StartWaitingTables(st: State, s: Sid, r: State)
    requires Shape(st) && Newcomer(st, s) && st.sess[s].name.ConnectName?
    requires ListenerOf(st.sess[s].name) !in st.reg
    requires r == Put(st, s, st.sess[s].(pc := AwaitListen(false)))
                  .(waiters := Append(st.waiters, ListenerOf(st.sess[s].name), s))
    ensures Shape(r)
  {
    hide BondsOk, HalfOpen, Waiting;
    StartWaitingListed(st, s, r);
    UnbondedKeeps(st, s, r);
    PlainTablesKeep(st, s, r);
  }

  /** The index, the directory and the count do not see a session that has yet to register. */
  lemma PlainTablesKeep(st: State, s: Sid, r: State)
    requires Index(st) && Advertised(st) && Counted(st) && s in st.sess
    requires !st.sess[s].registered && !st.sess[s].finished
    requires s in r.sess && !r.sess[s].registered && !r.sess[s].finished
    requires r == st.(sess := st.sess[s := r.sess[s]], waiters := r.waiters)
    ensures Index(r) && Advertised(r) && Counted(r)
  {
    assert Unfinished(r.sess) == Unfinished(st.sess);
  }

  lemma StartWaitingListed(st: State, s: Sid, r: State)
    requires Waiting(st) && Newcomer(st, s) && st.sess[s].name.ConnectName?
    requires ListenerOf(st.sess[s].name) !in st.reg
    requires r == Put(st, s, st.sess[s].(pc := AwaitListen(false)))
                  .(waiters := Append(st.waiters, ListenerOf(st.sess[s].name), s))
    ensures Waiting(r)
  {
    var l := ListenerOf(st.sess[s].name);
    AppendedLists(st.waiters, l, s);
    hide Append, Unregistered;
    assert WaitedNames(r);
    assert ListedWaits(r);
    assert UnfiredListed(r);
  }

  lemma AppendedLists(ws: map<Name, seq<Sid>>, l: Name, s: Sid)
    ensures var more := Append(ws, l, s);
            && more.Keys == ws.Keys + {l}
            && (forall n, t :: n in more && t in more[n] <==> (n in ws && t in ws[n]) || (n == l && t == s))
            && (forall n :: n in more && (n in ws ==> ws[n] != []) ==> more[n] != [])
  {
    var was := if l in ws then ws[l] else [];
    assert forall t :: t in was + [s] <==> t in was || t == s;
  }

  /** The resumed waiter takes itself off its list, and drops a list that becomes empty. */
  lemma StopWaitingKeeps(st: State, s: Sid)
    requires Inv(st) && s in st.sess && st.sess[s].pc == AwaitListen(true)
    ensures var r := st.(waiters := StopWaiting(st.waiters, ListenerOf(st.sess[s].name), s));
            Inv(r) && Newcomer(r, s)
  {
    hide Index, Advertised, Counted, BondsOk, HalfOpen, Locals, Origins, Pipes;
    var r := st.(waiters := StopWaiting(st.waiters, ListenerOf(st.sess[s].name), s));
    LocalOf(st, s);
    StopWaitingListed(st, s, r);
    StopWaitingGone(st, s);
    SameTables(st, r);
    WaitersIrrelevant(st, r);
  }

  lemma StopWaitingGone(st: State, s: Sid)
    requires Waiting(st) && s in st.sess
    ensures var ws := StopWaiting(st.waiters, ListenerOf(st.sess[s].name), s);
            forall n :: n in ws ==> s !in ws[n]
  {
    var l := ListenerOf(st.sess[s].name);
    if l in st.waiters { WithoutKeepsOthers(st.waiters[l], s); }
    hide Without;
  }

  lemma WaitersIrrelevant(st: State, r: State)
    requires Index(st) && Advertised(st) && Counted(st) && BondsOk(st) && HalfOpen(st)
    requires r == st.(waiters := r.waiters)
    ensures Index(r) && Advertised(r) && Counted(r) && BondsOk(r) && HalfOpen(r)
  {
    assert forall b :: b in r.bonds ==> (MirrorBond(r, b) <==> MirrorBond(st, b));
  }

  lemma StopWaitingListed(st: State, s: Sid, r: State)
    requires Waiting(st) && s in st.sess && st.sess[s].pc == AwaitListen(true)
    requires r == st.(waiters := StopWaiting(st.waiters, ListenerOf(st.sess[s].name), s))
    ensures Waiting(r)
  {
    var l := ListenerOf(st.sess[s].name);
    StopWaitingLists(st, l, s, r);
    hide StopWaiting, ListenerOf;
    assert WaitedNames(r);
    assert ListedWaits(r);
    forall t | t in r.sess && r.sess[t].pc == AwaitListen(false)
      ensures ListenerOf(r.sess[t].name) in r.waiters && t in r.waiters[ListenerOf(r.sess[t].name)]
    {
      assert t in st.waiters[ListenerOf(st.sess[t].name)];
      assert t != s;
    }
  }

  /** What is left on each list. */
  lemma StopWaitingLists(st: State, l: Name, s: Sid, r: State)
    requires r.waiters == StopWaiting(st.waiters, l, s) && forall n :: n in st.waiters ==> st.waiters[n] != []
    ensures forall n :: n in r.waiters ==> n in st.waiters && r.waiters[n] != []
    ensures forall n, t :: n in r.waiters && t in r.waiters[n] ==> t in st.waiters[n]
    ensures forall n, t :: n in st.waiters && t in st.waiters[n] && t != s ==> n in r.waiters && t in r.waiters[n]
  {
    if l in st.waiters { WithoutKeepsOthers(st.waiters[l], s); }
    hide Without;
  }
}
